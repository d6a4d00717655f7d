/**
  The draft setters: while a request is being filled in, each screen merges one or two fields
  into the draft transaction (or, on the older flow, into the single IOU record). Also the
  string trimming they apply and `getIOUReportID`.
*/
module IouDrafts {
  import opened Wrappers
  import opened Onyx
  import opened IouData

  // CONST.TRANSACTION.TYPE.CUSTOM_UNIT and CONST.CUSTOM_UNITS.NAME_DISTANCE
  const TRANSACTION_TYPE_CUSTOM_UNIT: string := "customUnit"
  const CUSTOM_UNIT_NAME_DISTANCE: string := "Distance"

  // ---------------------------------------------------------------- String.prototype.trim

  /** The characters `trim` removes: ECMAScript WhiteSpace and LineTerminator. */
  predicate IsTrimmed(c: char) {
    c == '\t' || c == '\n' || c == '\U{000B}' || c == '\U{000C}' || c == '\r' || c == ' '
    || c == '\U{00A0}' || c == '\U{1680}' || ('\U{2000}' <= c <= '\U{200A}') || c == '\U{2028}' || c == '\U{2029}'
    || c == '\U{202F}' || c == '\U{205F}' || c == '\U{3000}' || c == '\U{FEFF}'
  }

  /** Where the text starts: the first position from `k` on that is not white space, or the end. */
  function StartFrom(s: string, k: nat): (n: nat)
    requires k <= |s|
    ensures k <= n <= |s|
    ensures forall j :: k <= j < n ==> IsTrimmed(s[j])
    ensures n < |s| ==> !IsTrimmed(s[n])
    decreases |s| - k
  {
    if k < |s| && IsTrimmed(s[k]) then StartFrom(s, k + 1) else k
  }

  /** Where the text ends: just after the last position before `k` that is not white space, or 0. */
  function EndBefore(s: string, k: nat): (m: nat)
    requires k <= |s|
    ensures m <= k
    ensures forall j :: m <= j < k ==> IsTrimmed(s[j])
    ensures m > 0 ==> !IsTrimmed(s[m - 1])
    decreases k
  {
    if k > 0 && IsTrimmed(s[k - 1]) then EndBefore(s, k - 1) else k
  }

  /**
    `s.trim()`: empty exactly when `s` is all white space, and otherwise the infix from the first
    to the last character that is not white space.
  */
  function Trim(s: string): (r: string)
    ensures r == [] <==> forall j :: 0 <= j < |s| ==> IsTrimmed(s[j])
    ensures r != [] ==> StartFrom(s, 0) < EndBefore(s, |s|) && r == s[StartFrom(s, 0)..EndBefore(s, |s|)]
    ensures |r| > 0 ==> !IsTrimmed(r[0]) && !IsTrimmed(r[|r| - 1])
  {
    var n := StartFrom(s, 0);
    var m := EndBefore(s, |s|);
    assert n < |s| ==> n < m;
    if m <= n then [] else s[n..m]
  }

  /** Trimming twice is trimming once. */
  lemma TrimIdempotent(s: string)
    ensures Trim(Trim(s)) == Trim(s)
  {
    var r := Trim(s);
    if |r| > 0 {
      NothingToTrim(r);
    }
  }

  /** A string that starts and ends with a character other than white space is its own trim. */
  lemma NothingToTrim(r: string)
    requires |r| > 0 && !IsTrimmed(r[0]) && !IsTrimmed(r[|r| - 1])
    ensures Trim(r) == r
  {
    assert StartFrom(r, 0) == 0;
    assert EndBefore(r, |r|) == |r|;
  }

  // ---------------------------------------------------------------- one merge

  /** What `Onyx.merge(k, p)` leaves: the patch's fields set (a null one removed), the others kept, no other key touched. */
  lemma MergeOutcome(s: StoreState, k: Key, p: Record)
    ensures forall f :: FieldAt(ApplyOne(s, Merge(k, p)), k, f)
                        == if f in p then (if p[f].Null? then None else Some(p[f])) else FieldAt(s, k, f)
    ensures forall k' :: k' != k ==> Lookup(ApplyOne(s, Merge(k, p)), k') == Lookup(s, k')
  {
  }

  /** `Onyx.set(k, null)` removes the key and nothing else. */
  lemma ClearOutcome(s: StoreState, k: Key)
    ensures Lookup(ApplyOne(s, Set(k, Null)), k) == None
    ensures forall k' :: k' != k ==> Lookup(ApplyOne(s, Set(k, Null)), k') == Lookup(s, k')
  {
  }

  /** From `s0` to `s1` only the named fields of the record at `k` may change: its other fields and every other key are kept. */
  ghost predicate OnlyFieldsChange(s0: StoreState, s1: StoreState, k: Key, fields: set<string>) {
    (forall f :: f !in fields ==> FieldAt(s1, k, f) == FieldAt(s0, k, f))
    && (forall k' :: k' != k ==> Lookup(s1, k') == Lookup(s0, k'))
  }

  // ---------------------------------------------------------------- the draft transaction

  /** `clearMoneyRequest`: the draft is removed. */
  method ClearMoneyRequest(store: Store, transactionID: string)
    modifies store
    ensures store.state == ApplyOne(old(store.state), Set(TransactionDraftKey(transactionID), Null))
    ensures Lookup(store.state, TransactionDraftKey(transactionID)) == None
  {
    store.SetKey(TransactionDraftKey(transactionID), Null);
    ClearOutcome(old(store.state), TransactionDraftKey(transactionID));
  }

  /** `startMoneyRequest_temporaryForRefactor`: a fresh draft, with two empty waypoints on a distance request. */
  function NewDraft(reportID: string, isFromGlobalCreate: bool, iouRequestType: string, currentDate: string,
                    formattedToday: string, localCurrencyCode: Option<string>): (r: Record)
    ensures "amount" in r && r["amount"] == Num(0)
    ensures "transactionID" in r && r["transactionID"] == Str(OPTIMISTIC_TRANSACTION_ID)
    ensures "comment" in r && r["comment"].Obj?
    ensures ("waypoints" in r["comment"].fields) <==> iouRequestType == REQUEST_TYPE_DISTANCE
    ensures "created" in r && r["created"] == Str(if currentDate != "" then currentDate else formattedToday)
  {
    var comment: Record := if iouRequestType == REQUEST_TYPE_DISTANCE
      then map["waypoints" := Obj(map["waypoint0" := Obj(map[]), "waypoint1" := Obj(map[])])]
      else map[];
    map["amount" := Num(0),
        "comment" := Obj(comment),
        "created" := Str(if currentDate != "" then currentDate else formattedToday),
        "currency" := Str(if localCurrencyCode.Some? then localCurrencyCode.value else CURRENCY_USD),
        "iouRequestType" := Str(iouRequestType),
        "reportID" := Str(reportID),
        "transactionID" := Str(OPTIMISTIC_TRANSACTION_ID),
        "isFromGlobalCreate" := Bool(isFromGlobalCreate),
        "merchant" := Str(PARTIAL_TRANSACTION_MERCHANT)]
  }

  method StartMoneyRequest(store: Store, reportID: string, isFromGlobalCreate: bool, iouRequestType: string,
                           currentDate: string, formattedToday: string, localCurrencyCode: Option<string>)
    modifies store
    ensures store.state == ApplyOne(old(store.state), Set(TransactionDraftKey(OPTIMISTIC_TRANSACTION_ID),
              Obj(NewDraft(reportID, isFromGlobalCreate, iouRequestType, currentDate, formattedToday, localCurrencyCode))))
  {
    store.SetKey(TransactionDraftKey(OPTIMISTIC_TRANSACTION_ID),
                 Obj(NewDraft(reportID, isFromGlobalCreate, iouRequestType, currentDate, formattedToday, localCurrencyCode)));
  }

  /** A merge into the draft: the named fields take the patch's values and nothing else changes. */
  method MergeDraft(store: Store, transactionID: string, patch: Record)
    modifies store
    ensures store.state == ApplyOne(old(store.state), Merge(TransactionDraftKey(transactionID), patch))
    ensures forall f :: FieldAt(store.state, TransactionDraftKey(transactionID), f)
                        == if f in patch then (if patch[f].Null? then None else Some(patch[f]))
                           else FieldAt(old(store.state), TransactionDraftKey(transactionID), f)
    ensures forall k :: k != TransactionDraftKey(transactionID) ==> Lookup(store.state, k) == Lookup(old(store.state), k)
  {
    store.MergeKey(TransactionDraftKey(transactionID), patch);
    MergeOutcome(old(store.state), TransactionDraftKey(transactionID), patch);
  }

  method SetDraftAmount(store: Store, transactionID: string, amount: int, currency: string)
    modifies store
    ensures FieldAt(store.state, TransactionDraftKey(transactionID), "amount") == Some(Num(amount))
    ensures FieldAt(store.state, TransactionDraftKey(transactionID), "currency") == Some(Str(currency))
    ensures forall f :: f != "amount" && f != "currency" ==>
              FieldAt(store.state, TransactionDraftKey(transactionID), f) == FieldAt(old(store.state), TransactionDraftKey(transactionID), f)
    ensures forall k :: k != TransactionDraftKey(transactionID) ==> Lookup(store.state, k) == Lookup(old(store.state), k)
  {
    MergeDraft(store, transactionID, map["amount" := Num(amount), "currency" := Str(currency)]);
  }

  /** A draft setter of two fields in one merge. */
  method SetDraftFields(store: Store, transactionID: string, f1: string, v1: Value, f2: string, v2: Value)
    requires f1 != f2 && !v1.Null? && !v2.Null?
    modifies store
    ensures store.state == ApplyOne(old(store.state), Merge(TransactionDraftKey(transactionID), map[f1 := v1, f2 := v2]))
    ensures FieldAt(store.state, TransactionDraftKey(transactionID), f1) == Some(v1)
    ensures FieldAt(store.state, TransactionDraftKey(transactionID), f2) == Some(v2)
    ensures forall f :: f != f1 && f != f2 ==>
              FieldAt(store.state, TransactionDraftKey(transactionID), f) == FieldAt(old(store.state), TransactionDraftKey(transactionID), f)
    ensures forall k :: k != TransactionDraftKey(transactionID) ==> Lookup(store.state, k) == Lookup(old(store.state), k)
  {
    MergeDraft(store, transactionID, map[f1 := v1, f2 := v2]);
  }

  /** A draft setter of one field: the field takes the value, the rest of the draft and the store are kept. */
  method SetDraftField(store: Store, transactionID: string, field: string, value: Value)
    requires !value.Null?
    modifies store
    ensures store.state == ApplyOne(old(store.state), Merge(TransactionDraftKey(transactionID), map[field := value]))
    ensures FieldAt(store.state, TransactionDraftKey(transactionID), field) == Some(value)
    ensures forall f :: f != field ==>
              FieldAt(store.state, TransactionDraftKey(transactionID), f) == FieldAt(old(store.state), TransactionDraftKey(transactionID), f)
    ensures forall k :: k != TransactionDraftKey(transactionID) ==> Lookup(store.state, k) == Lookup(old(store.state), k)
  {
    MergeDraft(store, transactionID, map[field := value]);
  }

  method SetDraftCreated(store: Store, transactionID: string, created: string)
    modifies store
    ensures FieldAt(store.state, TransactionDraftKey(transactionID), "created") == Some(Str(created))
    ensures OnlyFieldsChange(old(store.state), store.state, TransactionDraftKey(transactionID), {"created"})
  {
    SetDraftField(store, transactionID, "created", Str(created));
  }

  method SetDraftCurrency(store: Store, transactionID: string, currency: string)
    modifies store
    ensures FieldAt(store.state, TransactionDraftKey(transactionID), "currency") == Some(Str(currency))
    ensures OnlyFieldsChange(old(store.state), store.state, TransactionDraftKey(transactionID), {"currency"})
  {
    SetDraftField(store, transactionID, "currency", Str(currency));
  }

  /** The description is stored trimmed, as `comment.comment`. */
  method SetDraftDescription(store: Store, transactionID: string, comment: string)
    modifies store
    ensures FieldAt(store.state, TransactionDraftKey(transactionID), "comment") == Some(Obj(map["comment" := Str(Trim(comment))]))
    ensures OnlyFieldsChange(old(store.state), store.state, TransactionDraftKey(transactionID), {"comment"})
  {
    SetDraftField(store, transactionID, "comment", Obj(map["comment" := Str(Trim(comment))]));
  }

  /** The merchant is stored trimmed. */
  method SetDraftMerchant(store: Store, transactionID: string, merchant: string)
    modifies store
    ensures FieldAt(store.state, TransactionDraftKey(transactionID), "merchant") == Some(Str(Trim(merchant)))
    ensures OnlyFieldsChange(old(store.state), store.state, TransactionDraftKey(transactionID), {"merchant"})
  {
    SetDraftField(store, transactionID, "merchant", Str(Trim(merchant)));
  }

  method SetDraftCategory(store: Store, transactionID: string, category: string)
    modifies store
    ensures FieldAt(store.state, TransactionDraftKey(transactionID), "category") == Some(Str(category))
    ensures OnlyFieldsChange(old(store.state), store.state, TransactionDraftKey(transactionID), {"category"})
  {
    SetDraftField(store, transactionID, "category", Str(category));
  }

  /** Resetting merges a null, which removes the field from the draft. */
  method ResetDraftCategory(store: Store, transactionID: string)
    modifies store
    ensures FieldAt(store.state, TransactionDraftKey(transactionID), "category") == None
    ensures OnlyFieldsChange(old(store.state), store.state, TransactionDraftKey(transactionID), {"category"})
  {
    MergeDraft(store, transactionID, map["category" := Null]);
  }

  method SetDraftTag(store: Store, transactionID: string, tag: string)
    modifies store
    ensures FieldAt(store.state, TransactionDraftKey(transactionID), "tag") == Some(Str(tag))
    ensures OnlyFieldsChange(old(store.state), store.state, TransactionDraftKey(transactionID), {"tag"})
  {
    SetDraftField(store, transactionID, "tag", Str(tag));
  }

  method ResetDraftTag(store: Store, transactionID: string)
    modifies store
    ensures FieldAt(store.state, TransactionDraftKey(transactionID), "tag") == None
    ensures OnlyFieldsChange(old(store.state), store.state, TransactionDraftKey(transactionID), {"tag"})
  {
    MergeDraft(store, transactionID, map["tag" := Null]);
  }

  method SetDraftBillable(store: Store, transactionID: string, billable: bool)
    modifies store
    ensures FieldAt(store.state, TransactionDraftKey(transactionID), "billable") == Some(Bool(billable))
    ensures OnlyFieldsChange(old(store.state), store.state, TransactionDraftKey(transactionID), {"billable"})
  {
    SetDraftField(store, transactionID, "billable", Bool(billable));
  }

  method SetDraftParticipants(store: Store, transactionID: string, participants: seq<Value>)
    modifies store
    ensures FieldAt(store.state, TransactionDraftKey(transactionID), "participants") == Some(List(participants))
    ensures OnlyFieldsChange(old(store.state), store.state, TransactionDraftKey(transactionID), {"participants"})
  {
    SetDraftField(store, transactionID, "participants", List(participants));
  }

  method SetDraftTaxRate(store: Store, transactionID: string, taxRate: Record)
    modifies store
    ensures FieldAt(store.state, TransactionDraftKey(transactionID), "taxRate") == Some(Obj(taxRate))
    ensures OnlyFieldsChange(old(store.state), store.state, TransactionDraftKey(transactionID), {"taxRate"})
  {
    SetDraftField(store, transactionID, "taxRate", Obj(taxRate));
  }

  method SetDraftTaxAmount(store: Store, transactionID: string, taxAmount: int)
    modifies store
    ensures FieldAt(store.state, TransactionDraftKey(transactionID), "taxAmount") == Some(Num(taxAmount))
    ensures OnlyFieldsChange(old(store.state), store.state, TransactionDraftKey(transactionID), {"taxAmount"})
  {
    SetDraftField(store, transactionID, "taxAmount", Num(taxAmount));
  }

  /** The report's participants other than the current user, in their order. */
  function OtherAccounts(accountIDs: seq<Value>, currentUserAccountID: int): (r: seq<Value>)
    ensures forall v :: v in r <==> v in accountIDs && v != Num(currentUserAccountID)
    ensures |r| <= |accountIDs|
    ensures Num(currentUserAccountID) !in accountIDs ==> r == accountIDs
  {
    if accountIDs == [] then []
    else (if accountIDs[0] != Num(currentUserAccountID) then [accountIDs[0]] else [])
         + OtherAccounts(accountIDs[1..], currentUserAccountID)
  }

  function AccountParticipant(accountID: Value): Value {
    Obj(map["accountID" := accountID, "selected" := Bool(true)])
  }

  function AccountParticipants(accountIDs: seq<Value>): (r: seq<Value>)
    ensures |r| == |accountIDs|
    ensures forall i :: 0 <= i < |r| ==> r[i] == AccountParticipant(accountIDs[i])
  {
    if accountIDs == [] then [] else [AccountParticipant(accountIDs[0])] + AccountParticipants(accountIDs[1..])
  }

  /**
    The participants of a request started from a report: the workspace chat itself, or else one
    entry per member of the chat other than the current user (see `OtherAccounts`). Whether the
    report is a money request report, its chat report and whether that chat is a workspace chat
    come from ReportUtils, which is not part of this model, and are given.
  */
  function ParticipantsFromReport(chatReport: Option<Record>, isPolicyExpenseChat: bool, currentUserAccountID: int): (r: seq<Value>)
    ensures isPolicyExpenseChat ==>
              r == [Obj(Entry("reportID", OptFieldOf(chatReport, "reportID")) + map["isPolicyExpenseChat" := Bool(true), "selected" := Bool(true)])]
    ensures !isPolicyExpenseChat ==>
              var others := OtherAccounts(ReportAccounts(chatReport), currentUserAccountID);
              |r| == |others| && forall i :: 0 <= i < |r| ==> r[i] == AccountParticipant(others[i])
  {
    if isPolicyExpenseChat then
      [Obj(Entry("reportID", OptFieldOf(chatReport, "reportID")) + map["isPolicyExpenseChat" := Bool(true), "selected" := Bool(true)])]
    else AccountParticipants(OtherAccounts(ReportAccounts(chatReport), currentUserAccountID))
  }

  /** `chatReport?.participantAccountIDs ?? []`. */
  function ReportAccounts(chatReport: Option<Record>): seq<Value> {
    var ids := OptFieldOf(chatReport, "participantAccountIDs");
    if ids.Some? && ids.value.List? then ids.value.items else []
  }

  /** `setMoneyRequestParticipantsFromReport`: the participants, marked as assigned automatically. */
  method SetMoneyRequestParticipantsFromReport(store: Store, transactionID: string, chatReport: Option<Record>,
                                               isPolicyExpenseChat: bool, currentUserAccountID: int)
    modifies store
    ensures FieldAt(store.state, TransactionDraftKey(transactionID), "participants")
            == Some(List(ParticipantsFromReport(chatReport, isPolicyExpenseChat, currentUserAccountID)))
    ensures FieldAt(store.state, TransactionDraftKey(transactionID), "participantsAutoAssigned") == Some(Bool(true))
    ensures OnlyFieldsChange(old(store.state), store.state, TransactionDraftKey(transactionID), {"participants", "participantsAutoAssigned"})
  {
    var participants := ParticipantsFromReport(chatReport, isPolicyExpenseChat, currentUserAccountID);
    SetDraftFields(store, transactionID, "participants", List(participants), "participantsAutoAssigned", Bool(true));
  }

  function ReceiptKey(transactionID: string, isDraft: bool): Key {
    if isDraft then TransactionDraftKey(transactionID) else TransactionKey(transactionID)
  }

  /** `setMoneyRequestReceipt`: the receipt source and file name go to the draft or to the stored transaction. */
  method SetMoneyRequestReceipt(store: Store, transactionID: string, source: string, filename: string, isDraft: bool)
    modifies store
    ensures FieldAt(store.state, ReceiptKey(transactionID, isDraft), "receipt") == Some(Obj(map["source" := Str(source)]))
    ensures FieldAt(store.state, ReceiptKey(transactionID, isDraft), "filename") == Some(Str(filename))
    ensures OnlyFieldsChange(old(store.state), store.state, ReceiptKey(transactionID, isDraft), {"receipt", "filename"})
  {
    var key := ReceiptKey(transactionID, isDraft);
    store.MergeKey(key, map["receipt" := Obj(map["source" := Str(source)]), "filename" := Str(filename)]);
    MergeOutcome(old(store.state), key, map["receipt" := Obj(map["source" := Str(source)]), "filename" := Str(filename)]);
  }

  /**
    `setDraftSplitTransaction`: the split draft, or else the stored transaction, with the changes
    applied (`getUpdatedTransaction`, given as `updated`, is not part of this model); `{}` when
    there is neither.
  */
  function SplitDraftSource(snap: Snapshot, transactionID: string): Option<Record> {
    var draft := if transactionID in snap.draftSplitTransactions then Some(snap.draftSplitTransactions[transactionID]) else None;
    if draft.Some? then draft else TransactionOf(snap, transactionID)
  }

  method SetDraftSplitTransaction(store: Store, snap: Snapshot, transactionID: string, updated: Record -> Record)
    modifies store
    ensures store.state == ApplyOne(old(store.state), Merge(SplitTransactionDraftKey(transactionID),
              if SplitDraftSource(snap, transactionID).Some? then updated(SplitDraftSource(snap, transactionID).value) else map[]))
    ensures SplitDraftSource(snap, transactionID).None? ==> Lookup(store.state, SplitTransactionDraftKey(transactionID)).Some?
    ensures forall k :: k != SplitTransactionDraftKey(transactionID) ==> Lookup(store.state, k) == Lookup(old(store.state), k)
  {
    var source := SplitDraftSource(snap, transactionID);
    var patch := if source.Some? then updated(source.value) else map[];
    store.MergeKey(SplitTransactionDraftKey(transactionID), patch);
  }

  // ---------------------------------------------------------------- the single IOU record

  /** The fields `resetMoneyRequestInfo` writes on the IOU record. */
  const IOU_FIELDS: set<string> := {"id", "amount", "currency", "comment", "participants", "merchant", "category", "tag",
                                    "created", "receiptPath", "receiptFilename", "transactionID", "billable", "isSplitRequest"}

  /** `resetMoneyRequestInfo`: the IOU record back to its initial values under the given id. */
  function InitialIOU(id: string, currentDate: string, formattedToday: string, localCurrencyCode: Option<string>): (r: Record)
    ensures "id" in r && r["id"] == Str(id)
    ensures "amount" in r && r["amount"] == Num(0)
    ensures "participants" in r && r["participants"] == List([])
    ensures "billable" in r && r["billable"] == Null
    ensures "isSplitRequest" in r && r["isSplitRequest"] == Bool(false)
    ensures "currency" in r && r["currency"] == Str(if localCurrencyCode.Some? then localCurrencyCode.value else CURRENCY_USD)
    ensures "created" in r && r["created"] == Str(if currentDate != "" then currentDate else formattedToday)
    ensures r.Keys == IOU_FIELDS
    ensures forall f :: f in r && f != "billable" ==> !r[f].Null?
  {
    map["id" := Str(id),
        "amount" := Num(0),
        "currency" := Str(if localCurrencyCode.Some? then localCurrencyCode.value else CURRENCY_USD),
        "comment" := Str(""),
        "participants" := List([]),
        "merchant" := Str(PARTIAL_TRANSACTION_MERCHANT),
        "category" := Str(""),
        "tag" := Str(""),
        "created" := Str(if currentDate != "" then currentDate else formattedToday),
        "receiptPath" := Str(""),
        "receiptFilename" := Str(""),
        "transactionID" := Str(""),
        "billable" := Null,
        "isSplitRequest" := Bool(false)]
  }

  method ResetMoneyRequestInfo(store: Store, id: string, currentDate: string, formattedToday: string, localCurrencyCode: Option<string>)
    modifies store
    ensures FieldAt(store.state, IouKey, "id") == Some(Str(id))
    ensures FieldAt(store.state, IouKey, "amount") == Some(Num(0))
    ensures FieldAt(store.state, IouKey, "participants") == Some(List([]))
    ensures FieldAt(store.state, IouKey, "billable") == None
    ensures FieldAt(store.state, IouKey, "currency") == Some(Str(if localCurrencyCode.Some? then localCurrencyCode.value else CURRENCY_USD))
    ensures FieldAt(store.state, IouKey, "created") == Some(Str(if currentDate != "" then currentDate else formattedToday))
    ensures forall f :: f in IOU_FIELDS && f != "billable" ==>
              FieldAt(store.state, IouKey, f) == Some(InitialIOU(id, currentDate, formattedToday, localCurrencyCode)[f])
    ensures OnlyFieldsChange(old(store.state), store.state, IouKey, IOU_FIELDS)
  {
    var patch := InitialIOU(id, currentDate, formattedToday, localCurrencyCode);
    store.MergeKey(IouKey, patch);
    MergeOutcome(old(store.state), IouKey, patch);
  }

  /** `startMoneyRequest`: the IOU record reset under the id made of the request type and the report. */
  method StartIOURequest(store: Store, iouType: string, reportID: string, currentDate: string, formattedToday: string,
                         localCurrencyCode: Option<string>)
    modifies store
    ensures FieldAt(store.state, IouKey, "id") == Some(Str(iouType + reportID))
    ensures FieldAt(store.state, IouKey, "amount") == Some(Num(0))
    ensures FieldAt(store.state, IouKey, "participants") == Some(List([]))
    ensures FieldAt(store.state, IouKey, "billable") == None
    ensures FieldAt(store.state, IouKey, "currency") == Some(Str(if localCurrencyCode.Some? then localCurrencyCode.value else CURRENCY_USD))
    ensures FieldAt(store.state, IouKey, "created") == Some(Str(if currentDate != "" then currentDate else formattedToday))
    ensures forall f :: f in IOU_FIELDS && f != "billable" ==>
              FieldAt(store.state, IouKey, f) == Some(InitialIOU(iouType + reportID, currentDate, formattedToday, localCurrencyCode)[f])
    ensures OnlyFieldsChange(old(store.state), store.state, IouKey, IOU_FIELDS)
  {
    ResetMoneyRequestInfo(store, iouType + reportID, currentDate, formattedToday, localCurrencyCode);
  }

  /** A setter of the IOU record: the field takes the value, the rest of the record and the store are kept. */
  method SetIOUField(store: Store, field: string, value: Value)
    requires !value.Null?
    modifies store
    ensures store.state == ApplyOne(old(store.state), Merge(IouKey, map[field := value]))
    ensures FieldAt(store.state, IouKey, field) == Some(value)
    ensures forall f :: f != field ==> FieldAt(store.state, IouKey, f) == FieldAt(old(store.state), IouKey, f)
    ensures forall k :: k != IouKey ==> Lookup(store.state, k) == Lookup(old(store.state), k)
  {
    store.MergeKey(IouKey, map[field := value]);
    MergeOutcome(old(store.state), IouKey, map[field := value]);
  }

  method SetMoneyRequestId(store: Store, id: string)
    modifies store
    ensures FieldAt(store.state, IouKey, "id") == Some(Str(id))
    ensures OnlyFieldsChange(old(store.state), store.state, IouKey, {"id"})
  {
    SetIOUField(store, "id", Str(id));
  }

  method SetMoneyRequestAmount(store: Store, amount: int)
    modifies store
    ensures FieldAt(store.state, IouKey, "amount") == Some(Num(amount))
    ensures OnlyFieldsChange(old(store.state), store.state, IouKey, {"amount"})
  {
    SetIOUField(store, "amount", Num(amount));
  }

  method SetMoneyRequestCreated(store: Store, created: string)
    modifies store
    ensures FieldAt(store.state, IouKey, "created") == Some(Str(created))
    ensures OnlyFieldsChange(old(store.state), store.state, IouKey, {"created"})
  {
    SetIOUField(store, "created", Str(created));
  }

  method SetMoneyRequestCurrency(store: Store, currency: string)
    modifies store
    ensures FieldAt(store.state, IouKey, "currency") == Some(Str(currency))
    ensures OnlyFieldsChange(old(store.state), store.state, IouKey, {"currency"})
  {
    SetIOUField(store, "currency", Str(currency));
  }

  /** On the IOU record the description is a plain trimmed string. */
  method SetMoneyRequestDescription(store: Store, comment: string)
    modifies store
    ensures FieldAt(store.state, IouKey, "comment") == Some(Str(Trim(comment)))
    ensures OnlyFieldsChange(old(store.state), store.state, IouKey, {"comment"})
  {
    SetIOUField(store, "comment", Str(Trim(comment)));
  }

  method SetMoneyRequestMerchant(store: Store, merchant: string)
    modifies store
    ensures FieldAt(store.state, IouKey, "merchant") == Some(Str(Trim(merchant)))
    ensures OnlyFieldsChange(old(store.state), store.state, IouKey, {"merchant"})
  {
    SetIOUField(store, "merchant", Str(Trim(merchant)));
  }

  method SetMoneyRequestCategory(store: Store, category: string)
    modifies store
    ensures FieldAt(store.state, IouKey, "category") == Some(Str(category))
    ensures OnlyFieldsChange(old(store.state), store.state, IouKey, {"category"})
  {
    SetIOUField(store, "category", Str(category));
  }

  /** On the IOU record a reset stores the empty string, not a null. */
  method ResetMoneyRequestCategory(store: Store)
    modifies store
    ensures FieldAt(store.state, IouKey, "category") == Some(Str(""))
    ensures OnlyFieldsChange(old(store.state), store.state, IouKey, {"category"})
  {
    SetIOUField(store, "category", Str(""));
  }

  method SetMoneyRequestTag(store: Store, tag: string)
    modifies store
    ensures FieldAt(store.state, IouKey, "tag") == Some(Str(tag))
    ensures OnlyFieldsChange(old(store.state), store.state, IouKey, {"tag"})
  {
    SetIOUField(store, "tag", Str(tag));
  }

  method ResetMoneyRequestTag(store: Store)
    modifies store
    ensures FieldAt(store.state, IouKey, "tag") == Some(Str(""))
    ensures OnlyFieldsChange(old(store.state), store.state, IouKey, {"tag"})
  {
    SetIOUField(store, "tag", Str(""));
  }

  method SetMoneyRequestBillable(store: Store, billable: bool)
    modifies store
    ensures FieldAt(store.state, IouKey, "billable") == Some(Bool(billable))
    ensures OnlyFieldsChange(old(store.state), store.state, IouKey, {"billable"})
  {
    SetIOUField(store, "billable", Bool(billable));
  }

  /** `setMoneyRequestParticipants`: an undefined `isSplitRequest` is left out of the patch. */
  method SetMoneyRequestParticipants(store: Store, participants: seq<Value>, isSplitRequest: Option<bool>)
    modifies store
    ensures FieldAt(store.state, IouKey, "participants") == Some(List(participants))
    ensures isSplitRequest.Some? ==> FieldAt(store.state, IouKey, "isSplitRequest") == Some(Bool(isSplitRequest.value))
    ensures isSplitRequest.None? ==> FieldAt(store.state, IouKey, "isSplitRequest") == FieldAt(old(store.state), IouKey, "isSplitRequest")
    ensures OnlyFieldsChange(old(store.state), store.state, IouKey, {"participants", "isSplitRequest"})
  {
    if isSplitRequest.Some? {
      var patch := map["participants" := List(participants), "isSplitRequest" := Bool(isSplitRequest.value)];
      store.MergeKey(IouKey, patch);
      MergeOutcome(old(store.state), IouKey, patch);
    } else {
      SetIOUField(store, "participants", List(participants));
    }
  }

  /**
    `setUpDistanceTransaction`: a transaction under a new random ID (given) marked as a distance
    request, and its ID on the IOU record.
  */
  method SetUpDistanceTransaction(store: Store, transactionID: string)
    modifies store
    ensures FieldAt(store.state, TransactionKey(transactionID), "transactionID") == Some(Str(transactionID))
    ensures FieldAt(store.state, TransactionKey(transactionID), "comment")
            == Some(Obj(map["type" := Str(TRANSACTION_TYPE_CUSTOM_UNIT), "customUnit" := Obj(map["name" := Str(CUSTOM_UNIT_NAME_DISTANCE)])]))
    ensures FieldAt(store.state, IouKey, "transactionID") == Some(Str(transactionID))
    ensures forall f :: f != "transactionID" && f != "comment" ==>
              FieldAt(store.state, TransactionKey(transactionID), f) == FieldAt(old(store.state), TransactionKey(transactionID), f)
    ensures forall f :: f != "transactionID" ==> FieldAt(store.state, IouKey, f) == FieldAt(old(store.state), IouKey, f)
    ensures forall k :: k != TransactionKey(transactionID) && k != IouKey ==> Lookup(store.state, k) == Lookup(old(store.state), k)
  {
    var patch := map["transactionID" := Str(transactionID),
                     "comment" := Obj(map["type" := Str(TRANSACTION_TYPE_CUSTOM_UNIT), "customUnit" := Obj(map["name" := Str(CUSTOM_UNIT_NAME_DISTANCE)])])];
    store.MergeKey(TransactionKey(transactionID), patch);
    MergeOutcome(old(store.state), TransactionKey(transactionID), patch);
    ghost var mid := store.state;
    SetIOUField(store, "transactionID", Str(transactionID));
    assert Lookup(store.state, TransactionKey(transactionID)) == Lookup(mid, TransactionKey(transactionID));
  }

  // ---------------------------------------------------------------- getIOUReportID

  /** The first participant's `reportID` on the IOU record, if there is one. */
  function FirstParticipantReportID(iou: Option<Record>): Option<Value> {
    var ps := OptFieldOf(iou, "participants");
    if ps.Some? && ps.value.List? && |ps.value.items| > 0 && ps.value.items[0].Obj? then FieldOf(ps.value.items[0].fields, "reportID")
    else None
  }

  /**
    `getIOUReportID`: the route's report ID when it is set, otherwise the first participant's,
    otherwise the empty string; `||` skips empty strings as well as missing values.
  */
  function GetIOUReportID(iou: Option<Record>, routeReportID: Option<Value>): (r: Value)
    ensures routeReportID.Some? && Truthy(routeReportID.value) ==> r == routeReportID.value
    ensures !(routeReportID.Some? && Truthy(routeReportID.value)) ==>
              r == (var p := FirstParticipantReportID(iou); if p.Some? && Truthy(p.value) then p.value else Str(""))
    ensures Truthy(r) || r == Str("")
  {
    if routeReportID.Some? && Truthy(routeReportID.value) then routeReportID.value
    else
      var p := FirstParticipantReportID(iou);
      if p.Some? && Truthy(p.value) then p.value else Str("")
  }
}
