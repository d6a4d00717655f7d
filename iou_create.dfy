/**
  Requesting money: `getReceiptError`, the three lists `buildOnyxDataForMoneyRequest` builds for
  one request, and the choices `getMoneyRequestInformation` makes before building them (which
  chat and IOU report the request goes to, and the report's new total).
*/
module IouCreate {
  import opened Wrappers
  import opened Onyx
  import opened IouData
  import IouDelete

  // ---------------------------------------------------------------- errors

  /**
    The error attached to the request's actions when the server rejects it: the generic message,
    or, for a scan with a receipt, an error object naming the receipt so it can be retried.
  */
  function GetReceiptError(receipt: Option<Value>, filename: Option<Value>, isScanRequest: bool, clock: Clock): (r: Value)
    ensures r.Obj? && r.fields.Keys == {clock.microseconds}
    ensures r.fields[clock.microseconds].Obj? <==> isScanRequest && !IsEmptyObject(receipt)
    ensures r.fields[clock.microseconds].Obj? ==>
              r.fields[clock.microseconds].fields == map["error" := Str(RECEIPT_ERROR),
                "source" := OrEmpty(if receipt.value.Obj? then FieldOf(receipt.value.fields, "source") else None),
                "filename" := OrEmpty(filename)]
    ensures !r.fields[clock.microseconds].Obj? ==> r.fields[clock.microseconds] == Str("iou.error.genericCreateFailureMessage")
  {
    if IsEmptyObject(receipt) || !isScanRequest then OnyxError(clock, Some("iou.error.genericCreateFailureMessage"))
    else
      var source := if receipt.value.Obj? then FieldOf(receipt.value.fields, "source") else None;
      OnyxErrorObject(clock, map["error" := Str(RECEIPT_ERROR), "source" := OrEmpty(source), "filename" := OrEmpty(filename)])
  }

  /** `transaction.filename || transaction.receipt?.filename` */
  function ReceiptFilename(tx: Record): Option<Value> {
    if "filename" in tx && Truthy(tx["filename"]) then Some(tx["filename"])
    else if "receipt" in tx && tx["receipt"].Obj? then FieldOf(tx["receipt"].fields, "filename")
    else None
  }

  // ---------------------------------------------------------------- the builder

  /** What `buildOnyxDataForMoneyRequest` is given, with the results of the helpers it calls. */
  datatype MoneyRequestParts = MoneyRequestParts(
    chatReport: Option<Record>,
    iouReport: Record,
    transaction: Record,
    chatCreatedAction: Record,
    iouCreatedAction: Record,
    iouAction: Record,
    personalDetailListAction: Record,
    reportPreviewAction: Record,
    recentlyUsedCategories: seq<Value>,
    recentlyUsedTags: Record,
    isNewChatReport: bool,
    isNewIOUReport: bool,
    policyID: Option<string>,
    violations: Option<Value>,
    hasOutstandingChildRequest: bool,
    isScanRequest: bool)

  function ChatID(p: MoneyRequestParts): string { IdOf(p.chatReport, "reportID") }
  function IouID(p: MoneyRequestParts): string { IdOf(Some(p.iouReport), "reportID") }
  function TxID(p: MoneyRequestParts): string { IdOf(Some(p.transaction), "transactionID") }
  function ActionID(a: Record): string { IdOf(Some(a), "reportActionID") }

  /** SET for a report that is new, MERGE for one that already exists. */
  function Write(isNew: bool, k: Key, v: Record): (u: Update)
    ensures u.key == k
  {
    if isNew then Set(k, Obj(v)) else Merge(k, v)
  }

  function ChatReportWritten(p: MoneyRequestParts, chat: Record, clock: Clock): (u: Update)
    ensures u.key == ReportKey(ChatID(p))
  {
    Write(p.isNewChatReport, ReportKey(ChatID(p)),
      chat + map["lastReadTime" := Str(clock.dbTime), "lastMessageTranslationKey" := Str("")]
      + Entry("iouReportID", FieldOf(p.iouReport, "reportID"))
      + map["hasOutstandingChildRequest" := Bool(p.hasOutstandingChildRequest)]
      + (if p.isNewChatReport then map["pendingFields" := Obj(map["createChat" := PENDING_ADD])] else map[]))
  }

  /** The IOU report as written: the report with its last message and pending fields set. */
  function IOUReportValue(p: MoneyRequestParts): (r: Record)
    ensures forall f :: f in p.iouReport && f != "lastMessageText" && f != "lastMessageHtml" && f != "pendingFields" ==> f in r && r[f] == p.iouReport[f]
  {
    var withText := p.iouReport + Entry("lastMessageText", MessageField(p.iouAction, "text"));
    var withHtml := withText + Entry("lastMessageHtml", MessageField(p.iouAction, "html"));
    withHtml + map["pendingFields" := Obj(if p.isNewIOUReport then map["createChat" := PENDING_ADD] else map["preview" := PENDING_UPDATE])]
  }

  function IOUReportWritten(p: MoneyRequestParts): (u: Update)
    ensures u.key == ReportKey(IouID(p))
  {
    Write(p.isNewIOUReport, ReportKey(IouID(p)), IOUReportValue(p))
  }

  function TransactionWritten(p: MoneyRequestParts): Update {
    Set(TransactionKey(TxID(p)), Obj(p.transaction))
  }

  function ChatActionsWritten(p: MoneyRequestParts): (u: Update)
    ensures u.key == ReportActionsKey(ChatID(p))
  {
    if p.isNewChatReport then
      Set(ReportActionsKey(ChatID(p)), Obj(map[ActionID(p.chatCreatedAction) := Obj(p.chatCreatedAction),
                                                ActionID(p.reportPreviewAction) := Obj(p.reportPreviewAction)]))
    else Merge(ReportActionsKey(ChatID(p)), map[ActionID(p.reportPreviewAction) := Obj(p.reportPreviewAction)])
  }

  function IOUActionsWritten(p: MoneyRequestParts): (u: Update)
    ensures u.key == ReportActionsKey(IouID(p))
  {
    if p.isNewIOUReport then
      Set(ReportActionsKey(IouID(p)), Obj(map[ActionID(p.iouCreatedAction) := Obj(p.iouCreatedAction),
                                               ActionID(p.iouAction) := Obj(p.iouAction)]))
    else Merge(ReportActionsKey(IouID(p)), map[ActionID(p.iouAction) := Obj(p.iouAction)])
  }

  /** The temporary transaction of the creation flow is removed in both outcomes. */
  function DraftRemoved(): Update {
    Set(TransactionDraftKey(OPTIMISTIC_TRANSACTION_ID), Null)
  }

  /** Violations are computed only for a request on a policy. */
  predicate HasViolations(p: MoneyRequestParts) {
    p.policyID.Some? && p.policyID.value != "" && p.violations.Some?
  }

  /** The recently used categories and tags, the payer's personal details and the violations. */
  function PolicyUpdates(p: MoneyRequestParts): (us: seq<Update>)
    ensures forall x :: x in us ==> x.key.RecentlyUsedCategoriesKey? || x.key.RecentlyUsedTagsKey?
                                    || x.key.PersonalDetailsListKey? || x.key == TransactionViolationsKey(TxID(p))
  {
    var policyID := IdOf(Some(p.iouReport), "policyID");
    (if |p.recentlyUsedCategories| > 0 then [Set(RecentlyUsedCategoriesKey(policyID), List(p.recentlyUsedCategories))] else [])
    + (if |p.recentlyUsedTags| > 0 then [Merge(RecentlyUsedTagsKey(policyID), p.recentlyUsedTags)] else [])
    + (if |p.personalDetailListAction| > 0 then [Merge(PersonalDetailsListKey, p.personalDetailListAction)] else [])
    + (if HasViolations(p) then [Set(TransactionViolationsKey(TxID(p)), p.violations.value)] else [])
  }

  function ChatPart(p: MoneyRequestParts, clock: Clock): (us: seq<Update>)
    ensures forall x :: x in us ==> x.key == ReportKey(ChatID(p))
  {
    if p.chatReport.Some? then [ChatReportWritten(p, p.chatReport.value, clock)] else []
  }

  /** The request's reports, transaction and actions, and the removal of the creation draft. */
  function CorePart(p: MoneyRequestParts): seq<Update> {
    [IOUReportWritten(p), TransactionWritten(p), ChatActionsWritten(p), IOUActionsWritten(p), DraftRemoved()]
  }

  lemma ChatPartMisses(p: MoneyRequestParts, clock: Clock, k: Key)
    requires k != ReportKey(ChatID(p))
    ensures NoUpdate(ChatPart(p, clock), k)
  {
  }

  lemma PolicyUpdatesMiss(p: MoneyRequestParts, k: Key)
    requires k.ReportKey? || k.TransactionKey? || k.TransactionDraftKey? || k.ReportActionsKey?
    ensures NoUpdate(PolicyUpdates(p), k)
  {
  }

  /** The report, transaction and draft updates are the only ones in the block for their keys. */
  lemma CorePartSole(p: MoneyRequestParts, u: Update)
    requires u == IOUReportWritten(p) || u == TransactionWritten(p) || u == DraftRemoved()
    ensures SoleUpdate(CorePart(p), u)
  {
    Sole5(IOUReportWritten(p), TransactionWritten(p), ChatActionsWritten(p), IOUActionsWritten(p), DraftRemoved(), u);
  }

  function RequestOptimistic(p: MoneyRequestParts, clock: Clock): seq<Update> {
    ChatPart(p, clock) + CorePart(p) + PolicyUpdates(p)
  }

  function Cleared(): Record {
    map["pendingFields" := Null, "errorFields" := Null]
  }

  function RequestSuccess(p: MoneyRequestParts): seq<Update> {
    var pendingCleared := Obj(map["pendingAction" := Null, "errors" := Null]);
    (if p.isNewChatReport then [Merge(ReportKey(ChatID(p)), Cleared())] else [])
    + [ Merge(ReportKey(IouID(p)), Cleared()),
        Merge(TransactionKey(TxID(p)), map["pendingAction" := Null, "pendingFields" := Null]),
        Merge(ReportActionsKey(ChatID(p)),
          (if p.isNewChatReport then map[ActionID(p.chatCreatedAction) := pendingCleared] else map[])
          + map[ActionID(p.reportPreviewAction) := Obj(map["pendingAction" := Null])]),
        Merge(ReportActionsKey(IouID(p)),
          (if p.isNewIOUReport then map[ActionID(p.iouCreatedAction) := pendingCleared] else map[])
          + map[ActionID(p.iouAction) := pendingCleared])]
  }

  function ChatReportRolledBack(p: MoneyRequestParts, clock: Clock): (u: Update)
    ensures u.key == ReportKey(ChatID(p))
  {
    Merge(ReportKey(ChatID(p)),
      Entry("iouReportID", OptFieldOf(p.chatReport, "iouReportID"))
      + Entry("lastReadTime", OptFieldOf(p.chatReport, "lastReadTime"))
      + map["pendingFields" := Null]
      + (if p.isNewChatReport then map["errorFields" := Obj(map["createChat" := OnyxError(clock, Some("report.genericCreateReportFailureMessage"))])] else map[]))
  }

  function IOUReportRolledBack(p: MoneyRequestParts, clock: Clock): (u: Update)
    ensures u.key == ReportKey(IouID(p)) && u.Merge? && "total" !in u.patch
  {
    Merge(ReportKey(IouID(p)),
      map["pendingFields" := Null,
          "errorFields" := Obj(if p.isNewIOUReport then map["createChat" := OnyxError(clock, Some("report.genericCreateReportFailureMessage"))] else map[])])
  }

  function ReceiptErrorOf(p: MoneyRequestParts, clock: Clock): Value {
    GetReceiptError(FieldOf(p.transaction, "receipt"), ReceiptFilename(p.transaction), p.isScanRequest, clock)
  }

  function TransactionRolledBack(p: MoneyRequestParts, clock: Clock): (u: Update)
    ensures u.key == TransactionKey(TxID(p))
  {
    Merge(TransactionKey(TxID(p)), map["errors" := OnyxError(clock, Some("iou.error.genericCreateFailureMessage")),
                                       "pendingAction" := Null, "pendingFields" := Null])
  }

  function ChatActionsRolledBack(p: MoneyRequestParts, clock: Clock): (u: Update)
    ensures u.key == ReportActionsKey(ChatID(p))
  {
    Merge(ReportActionsKey(ChatID(p)),
      if p.isNewChatReport then
        map[ActionID(p.chatCreatedAction) := Obj(map["errors" := ReceiptErrorOf(p, clock)]),
            ActionID(p.reportPreviewAction) := Obj(map["errors" := OnyxError(clock, None)])]
      else map[ActionID(p.reportPreviewAction) := Obj(Entry("created", FieldOf(p.reportPreviewAction, "created")) + map["errors" := ReceiptErrorOf(p, clock)])])
  }

  function IOUActionsRolledBack(p: MoneyRequestParts, clock: Clock): (u: Update)
    ensures u.key == ReportActionsKey(IouID(p))
  {
    Merge(ReportActionsKey(IouID(p)),
      if p.isNewIOUReport then
        map[ActionID(p.iouCreatedAction) := Obj(map["errors" := ReceiptErrorOf(p, clock)]),
            ActionID(p.iouAction) := Obj(map["errors" := OnyxError(clock, None)])]
      else map[ActionID(p.iouAction) := Obj(map["errors" := ReceiptErrorOf(p, clock)])])
  }

  function ViolationsRolledBack(p: MoneyRequestParts): (us: seq<Update>)
    ensures forall x :: x in us ==> x.key == TransactionViolationsKey(TxID(p))
  {
    if HasViolations(p) then [Set(TransactionViolationsKey(TxID(p)), List([]))] else []
  }

  function FailureBlock(p: MoneyRequestParts, clock: Clock): seq<Update> {
    [ ChatReportRolledBack(p, clock), IOUReportRolledBack(p, clock), TransactionRolledBack(p, clock), DraftRemoved(),
      ChatActionsRolledBack(p, clock), IOUActionsRolledBack(p, clock)]
  }

  function RequestFailure(p: MoneyRequestParts, clock: Clock): seq<Update> {
    FailureBlock(p, clock) + ViolationsRolledBack(p)
  }

  function BuildOnyxDataForMoneyRequest(p: MoneyRequestParts, clock: Clock): OnyxData {
    OnyxData(RequestOptimistic(p, clock), RequestSuccess(p), RequestFailure(p, clock))
  }

  // ---------------------------------------------------------------- the request's report and total

  /** The payer as the request flow describes them. */
  datatype Participant = Participant(accountID: int, login: Option<string>, reportID: Option<string>, isPolicyExpenseChat: bool)

  /** What the ReportUtils, IOUUtils, TransactionUtils and Policy helpers return for one request. */
  datatype RequestContext = RequestContext(
    chatByParticipants: Option<Record>,
    optimisticChatReport: Record,
    waitingOnCurrentUserBankAccount: bool,
    isPaidGroupPolicy: bool,
    isHarvestingEnabled: bool,
    isDraftExpenseReport: bool,
    updatedIOUOwnerAndTotal: Record,
    optimisticExpenseReport: Record,
    optimisticIOUReport: Record,
    optimisticTransaction: Record,
    chatCreatedAction: Record,
    iouCreatedAction: Record,
    iouAction: Record,
    existingReportPreview: Option<Record>,
    updatedReportPreview: Record,
    optimisticReportPreview: Record,
    avatar: Value,
    displayName: Value,
    recentlyUsedCategories: seq<Value>,
    recentlyUsedTags: Record,
    policyID: Option<string>,
    violations: Option<Value>,
    isScanRequest: bool,
    payerEmail: string)

  /**
    Adding a request to an existing expense report: the report stores amounts negated, so the
    total drops by the amount, and only when the currencies match.
  */
  function ExpenseReportWithRequest(iouReport: Record, amount: int, currency: string): Record {
    var total := NumberOf(iouReport, "total");
    if FieldOf(iouReport, "currency") == Some(Str(currency)) && total.Some? then iouReport["total" := Num(total.value - amount)]
    else iouReport
  }

  /** The chat the request goes to, and whether it has to be created. */
  function ResolveChatReport(snap: Snapshot, report: Option<Record>, participant: Participant, ctx: RequestContext): (Record, bool) {
    var given := if report.Some? && !IsEmptyObject(Some(Obj(report.value))) && "reportID" in report.value && Truthy(report.value["reportID"]) then report else None;
    var fromPolicy := if given.None? && participant.isPolicyExpenseChat
                      then ReportOf(snap, if participant.reportID.Some? then participant.reportID.value else "undefined") else given;
    var found := if fromPolicy.None? then ctx.chatByParticipants else fromPolicy;
    if found.Some? then (found.value, false) else (ctx.optimisticChatReport, true)
  }

  /** A new IOU report is needed when the chat has none, or its current one awaits the user's bank account. */
  predicate NeedsNewIOUReport(chat: Record, ctx: RequestContext) {
    !("iouReportID" in chat && Truthy(chat["iouReportID"])) || ctx.waitingOnCurrentUserBankAccount
  }

  /** The existing IOU report the request is added to, if it may be reused. */
  function ExistingIOUReport(snap: Snapshot, chat: Record, participant: Participant, ctx: RequestContext): Option<Record> {
    var r := if NeedsNewIOUReport(chat, ctx) then None else ReportOf(snap, IdOf(Some(chat), "iouReportID"));
    if participant.isPolicyExpenseChat && r.Some? && ctx.isPaidGroupPolicy && !ctx.isDraftExpenseReport then None else r
  }

  /** The IOU report with the request added, before the preview link is set. */
  function IOUReportWithRequest(existing: Option<Record>, participant: Participant, amount: int, currency: string, ctx: RequestContext): Record {
    if existing.Some? then
      if participant.isPolicyExpenseChat then ExpenseReportWithRequest(existing.value, amount, currency) else ctx.updatedIOUOwnerAndTotal
    else if participant.isPolicyExpenseChat then ctx.optimisticExpenseReport else ctx.optimisticIOUReport
  }

  /** The amount the transaction is built with: negated on an expense report. */
  function RequestTransactionAmount(iouReport: Record, amount: int): int {
    if IsExpenseReport(Some(iouReport)) then -amount else amount
  }

  /**
    `buildOptimisticTransaction` stores the amount, currency and report it is given; a distance
    draft's fields under it are kept (a shallow stand-in for `fastMerge`).
  */
  function RequestTransaction(snap: Snapshot, iouReport: Record, amount: int, currency: string, ctx: RequestContext): Record {
    var tx := ctx.optimisticTransaction + map["amount" := Num(RequestTransactionAmount(iouReport, amount)),
                                              "currency" := Str(currency), "reportID" := Str(IdOf(Some(iouReport), "reportID"))];
    var draft := snap.transactionDrafts;
    if OPTIMISTIC_TRANSACTION_ID in draft && FieldOf(draft[OPTIMISTIC_TRANSACTION_ID], "iouRequestType") == Some(Str(REQUEST_TYPE_DISTANCE))
    then draft[OPTIMISTIC_TRANSACTION_ID] + tx
    else tx
  }

  /** Decimal text of an account ID, as an object key. */
  function NatToString(n: nat): string
    decreases n
  {
    if n < 10 then [(48 + n) as char] else NatToString(n / 10) + [(48 + n % 10) as char]
  }

  function IntToString(i: int): string {
    if i < 0 then "-" + NatToString(-i) else NatToString(i)
  }

  datatype MoneyRequestInformation = MoneyRequestInformation(
    payerAccountID: int,
    payerEmail: string,
    iouReport: Record,
    chatReport: Record,
    transaction: Record,
    iouAction: Record,
    createdChatReportActionID: string,
    createdIOUReportActionID: string,
    reportPreviewAction: Record,
    onyxData: OnyxData)

  /** The IOU report the request goes to, linked to a newly built preview. */
  function RequestIOUReport(snap: Snapshot, report: Option<Record>, participant: Participant, amount: int, currency: string,
                            ctx: RequestContext): Record
  {
    var chat := ResolveChatReport(snap, report, participant, ctx).0;
    var withRequest := IOUReportWithRequest(ExistingIOUReport(snap, chat, participant, ctx), participant, amount, currency, ctx);
    if !NeedsNewIOUReport(chat, ctx) && ctx.existingReportPreview.Some? then withRequest
    else withRequest["parentReportActionID" := Str(ActionID(ctx.optimisticReportPreview))]
  }

  /** The payer's optimistic personal details, for a new chat with a payer the store does not know. */
  function PersonalDetailsFor(snap: Snapshot, participant: Participant, isNewChat: bool, ctx: RequestContext): Record {
    if isNewChat && participant.accountID !in snap.personalDetails then
      map[IntToString(participant.accountID) := Obj(
        map["accountID" := Num(participant.accountID), "avatar" := ctx.avatar, "displayName" := ctx.displayName]
        + Entry("login", if participant.login.Some? then Some(Str(participant.login.value)) else None)
        + map["isOptimisticPersonalDetail" := Bool(true)])]
    else map[]
  }

  /** The chat and the IOU report the request goes to, with what the builder is given. */
  function RequestParts(snap: Snapshot, report: Option<Record>, participant: Participant, amount: int, currency: string,
                        ctx: RequestContext): MoneyRequestParts
  {
    var (chat, isNewChat) := ResolveChatReport(snap, report, participant, ctx);
    var isNewIOU := NeedsNewIOUReport(chat, ctx);
    var iouReport := RequestIOUReport(snap, report, participant, amount, currency, ctx);
    var preview := if !isNewIOU && ctx.existingReportPreview.Some? then ctx.updatedReportPreview else ctx.optimisticReportPreview;
    var needsManualSubmit := ctx.isPaidGroupPolicy && !ctx.isHarvestingEnabled;
    MoneyRequestParts(Some(chat), iouReport, RequestTransaction(snap, iouReport, amount, currency, ctx),
                      ctx.chatCreatedAction, ctx.iouCreatedAction, ctx.iouAction,
                      PersonalDetailsFor(snap, participant, isNewChat, ctx), preview, ctx.recentlyUsedCategories, ctx.recentlyUsedTags,
                      isNewChat, isNewIOU, ctx.policyID, ctx.violations, participant.isPolicyExpenseChat && needsManualSubmit, ctx.isScanRequest)
  }

  /** The parts of a request hold the report it goes to and the transaction with its amount signed for it. */
  lemma RequestPartsReportAndSign(snap: Snapshot, report: Option<Record>, participant: Participant, amount: int, currency: string,
                                  ctx: RequestContext)
    ensures var p := RequestParts(snap, report, participant, amount, currency, ctx);
            p.chatReport.Some? && p.iouReport == RequestIOUReport(snap, report, participant, amount, currency, ctx)
            && "amount" in p.transaction && p.transaction["amount"] == Num(if IsExpenseReport(Some(p.iouReport)) then -amount else amount)
  {
    var p := RequestParts(snap, report, participant, amount, currency, ctx);
    RequestTransactionSign(snap, p.iouReport, amount, currency, ctx);
  }

  /** What is returned for a request built from `p`; a created-action ID is "0" when that chat or report is not new. */
  function InformationFrom(p: MoneyRequestParts, participant: Participant, ctx: RequestContext, clock: Clock): (r: MoneyRequestInformation)
    requires p.chatReport.Some?
    ensures r.payerAccountID == participant.accountID && r.payerEmail == ctx.payerEmail
    ensures r.iouReport == p.iouReport && r.transaction == p.transaction
    ensures !p.isNewChatReport ==> r.createdChatReportActionID == "0"
    ensures !p.isNewIOUReport ==> r.createdIOUReportActionID == "0"
  {
    MoneyRequestInformation(
      participant.accountID, ctx.payerEmail, p.iouReport, p.chatReport.value, p.transaction, p.iouAction,
      if p.isNewChatReport then ActionID(p.chatCreatedAction) else "0",
      if p.isNewIOUReport then ActionID(p.iouCreatedAction) else "0",
      p.reportPreviewAction,
      BuildOnyxDataForMoneyRequest(p, clock))
  }

  /**
    `getMoneyRequestInformation`: the payer, the report the request goes to, the transaction with
    its amount signed for that report, the created-action IDs ("0" for what was not created) and
    the three lists.
  */
  function GetMoneyRequestInformation(snap: Snapshot, report: Option<Record>, participant: Participant, amount: int, currency: string,
                                      ctx: RequestContext, clock: Clock): (r: MoneyRequestInformation)
    ensures r.payerAccountID == participant.accountID && r.payerEmail == ctx.payerEmail
    ensures "amount" in r.transaction && r.transaction["amount"] == Num(if IsExpenseReport(Some(r.iouReport)) then -amount else amount)
    ensures !RequestParts(snap, report, participant, amount, currency, ctx).isNewChatReport ==> r.createdChatReportActionID == "0"
    ensures !RequestParts(snap, report, participant, amount, currency, ctx).isNewIOUReport ==> r.createdIOUReportActionID == "0"
  {
    RequestPartsReportAndSign(snap, report, participant, amount, currency, ctx);
    InformationFrom(RequestParts(snap, report, participant, amount, currency, ctx), participant, ctx, clock)
  }

  /** The IOU report a request would reuse. */
  function ExistingReportFor(snap: Snapshot, report: Option<Record>, participant: Participant, ctx: RequestContext): Option<Record> {
    ExistingIOUReport(snap, ResolveChatReport(snap, report, participant, ctx).0, participant, ctx)
  }

  // ---------------------------------------------------------------- the total

  /**
    On an existing expense report with a numeric total, a request in the report's currency
    lowers the total by its amount; in another currency the report is left as it was.
  */
  lemma ExpenseTotalOnRequest(iouReport: Record, amount: int, currency: string, total: int)
    requires NumberOf(iouReport, "total") == Some(total)
    ensures FieldOf(iouReport, "currency") == Some(Str(currency)) ==>
              ExpenseReportWithRequest(iouReport, amount, currency) == iouReport["total" := Num(total - amount)]
    ensures FieldOf(iouReport, "currency") != Some(Str(currency)) ==>
              ExpenseReportWithRequest(iouReport, amount, currency) == iouReport
  {
  }

  /** The IOU report the request goes to carries the new total. */
  lemma RequestTotalOnExistingExpenseReport(snap: Snapshot, report: Option<Record>, participant: Participant, amount: int, currency: string,
                                            ctx: RequestContext, total: int)
    requires participant.isPolicyExpenseChat
    requires ExistingReportFor(snap, report, participant, ctx).Some?
    requires NumberOf(ExistingReportFor(snap, report, participant, ctx).value, "total") == Some(total)
    ensures FieldOf(ExistingReportFor(snap, report, participant, ctx).value, "currency") == Some(Str(currency)) ==>
              NumberOf(RequestIOUReport(snap, report, participant, amount, currency, ctx), "total") == Some(total - amount)
    ensures FieldOf(ExistingReportFor(snap, report, participant, ctx).value, "currency") != Some(Str(currency)) ==>
              NumberOf(RequestIOUReport(snap, report, participant, amount, currency, ctx), "total") == Some(total)
  {
    ExpenseTotalOnRequest(ExistingReportFor(snap, report, participant, ctx).value, amount, currency, total);
  }

  /** The transaction stores the amount negated exactly when it lands on an expense report. */
  lemma RequestTransactionSign(snap: Snapshot, iouReport: Record, amount: int, currency: string, ctx: RequestContext)
    ensures RequestTransaction(snap, iouReport, amount, currency, ctx)["amount"]
            == Num(if IsExpenseReport(Some(iouReport)) then -amount else amount)
  {
  }

  /** A request and then its deletion in the report's currency leave an expense report as it was. */
  lemma RequestThenDeleteRestoresTotal(iouReport: Record, amount: int, currency: string)
    requires FieldOf(iouReport, "currency") == Some(Str(currency))
    requires NumberOf(iouReport, "total").Some?
    ensures IouDelete.ExpenseReportAfterDelete(ExpenseReportWithRequest(iouReport, amount, currency), amount) == iouReport
  {
    var t := NumberOf(iouReport, "total").value;
    assert ExpenseReportWithRequest(iouReport, amount, currency)["total" := Num(t - amount + amount)] == iouReport;
  }

  /**
    A request in another currency leaves the total alone, but deleting it adds its amount back
    all the same.
  */
  lemma ForeignCurrencyDeleteShiftsTotal(iouReport: Record, amount: int, currency: string)
    requires FieldOf(iouReport, "currency") != Some(Str(currency))
    requires NumberOf(iouReport, "total").Some?
    ensures IouDelete.ExpenseReportAfterDelete(ExpenseReportWithRequest(iouReport, amount, currency), amount)["total"]
            == Num(NumberOf(iouReport, "total").value + amount)
  {
  }

  // ---------------------------------------------------------------- the lists, on the store

  lemma OptimisticWritesTransactionOnce(p: MoneyRequestParts, clock: Clock)
    ensures SoleUpdate(RequestOptimistic(p, clock), TransactionWritten(p))
  {
    var u := TransactionWritten(p);
    CorePartSole(p, u);
    ChatPartMisses(p, clock, u.key);
    PolicyUpdatesMiss(p, u.key);
    SoleInside(ChatPart(p, clock), CorePart(p), PolicyUpdates(p), u);
  }

  /** The request's transaction is in the store, exactly, as soon as the optimistic list is applied. */
  lemma OptimisticStoresTransaction(s: StoreState, p: MoneyRequestParts, clock: Clock)
    requires NullFree(p.transaction)
    ensures Holds(ApplyAll(s, RequestOptimistic(p, clock)), TransactionKey(TxID(p)), Some(p.transaction))
  {
    OptimisticWritesTransactionOnce(p, clock);
    SetLands(s, RequestOptimistic(p, clock), TransactionKey(TxID(p)), p.transaction);
  }

  lemma RequestStoresTransaction(s: StoreState, p: MoneyRequestParts, clock: Clock)
    requires NullFree(p.transaction)
    ensures Holds(ApplyAll(s, BuildOnyxDataForMoneyRequest(p, clock).optimisticData), TransactionKey(TxID(p)), Some(p.transaction))
  {
    OptimisticStoresTransaction(s, p, clock);
  }

  lemma OptimisticRemovesDraftOnce(p: MoneyRequestParts, clock: Clock)
    ensures SoleUpdate(RequestOptimistic(p, clock), DraftRemoved())
  {
    var u := DraftRemoved();
    CorePartSole(p, u);
    ChatPartMisses(p, clock, u.key);
    PolicyUpdatesMiss(p, u.key);
    SoleInside(ChatPart(p, clock), CorePart(p), PolicyUpdates(p), u);
  }

  lemma FailureRemovesDraftOnce(p: MoneyRequestParts, clock: Clock)
    ensures SoleUpdate(RequestFailure(p, clock), DraftRemoved())
  {
    Sole6(ChatReportRolledBack(p, clock), IOUReportRolledBack(p, clock), TransactionRolledBack(p, clock), DraftRemoved(),
          ChatActionsRolledBack(p, clock), IOUActionsRolledBack(p, clock), DraftRemoved());
    SoleUpdateConcat(FailureBlock(p, clock), ViolationsRolledBack(p), DraftRemoved());
  }

  /** The creation flow's temporary transaction is gone whether or not the server accepts. */
  lemma RequestRemovesDraft(s: StoreState, p: MoneyRequestParts, clock: Clock)
    ensures TransactionDraftKey(OPTIMISTIC_TRANSACTION_ID) !in ApplyAll(s, BuildOnyxDataForMoneyRequest(p, clock).optimisticData)
    ensures TransactionDraftKey(OPTIMISTIC_TRANSACTION_ID) !in AfterFailure(s, BuildOnyxDataForMoneyRequest(p, clock))
  {
    var opt := RequestOptimistic(p, clock);
    OptimisticRemovesDraftOnce(p, clock);
    SoleWriter(s, opt, DraftRemoved());
    FailureRemovesDraftOnce(p, clock);
    SoleWriter(ApplyAll(s, opt), RequestFailure(p, clock), DraftRemoved());
  }

  /** The keys a request writes besides the policy's recently used values and the personal details. */
  function RequestKeys(p: MoneyRequestParts): set<Key> {
    {ReportKey(ChatID(p)), ReportKey(IouID(p)), TransactionKey(TxID(p)), ReportActionsKey(ChatID(p)), ReportActionsKey(IouID(p)),
     TransactionDraftKey(OPTIMISTIC_TRANSACTION_ID)}
    + (if HasViolations(p) then {TransactionViolationsKey(TxID(p))} else {})
  }

  lemma SuccessWritesRequestKeys(p: MoneyRequestParts)
    ensures forall x :: x in RequestSuccess(p) ==> x.key in RequestKeys(p)
  {
  }

  lemma FailureWritesRequestKeys(p: MoneyRequestParts, clock: Clock)
    ensures forall x :: x in RequestFailure(p, clock) ==> x.key in RequestKeys(p)
  {
    var block := FailureBlock(p, clock);
    FailureBlockKeys(p, clock);
    assert forall x :: x in RequestFailure(p, clock) ==> x in block || x in ViolationsRolledBack(p);
  }

  lemma FailureBlockKeys(p: MoneyRequestParts, clock: Clock)
    ensures forall x :: x in FailureBlock(p, clock) ==> x.key in RequestKeys(p)
  {
    var a, b, c := ChatReportRolledBack(p, clock), IOUReportRolledBack(p, clock), TransactionRolledBack(p, clock);
    var e, f := ChatActionsRolledBack(p, clock), IOUActionsRolledBack(p, clock);
    assert FailureBlock(p, clock) == [a, b, c, DraftRemoved(), e, f];
  }

  lemma CorePartKeys(p: MoneyRequestParts)
    ensures KeysOf(CorePart(p)) == {ReportKey(IouID(p)), TransactionKey(TxID(p)), ReportActionsKey(ChatID(p)), ReportActionsKey(IouID(p)),
                                    TransactionDraftKey(OPTIMISTIC_TRANSACTION_ID)}
  {
    Keys5(IOUReportWritten(p), TransactionWritten(p), ChatActionsWritten(p), IOUActionsWritten(p), DraftRemoved());
  }

  lemma ChatPartKeys(p: MoneyRequestParts, clock: Clock)
    requires p.chatReport.Some?
    ensures ReportKey(ChatID(p)) in KeysOf(ChatPart(p, clock))
  {
    assert ChatPart(p, clock)[0] in ChatPart(p, clock);
  }

  lemma PolicyUpdatesKeys(p: MoneyRequestParts)
    ensures HasViolations(p) ==> TransactionViolationsKey(TxID(p)) in KeysOf(PolicyUpdates(p))
  {
    var us := PolicyUpdates(p);
    if HasViolations(p) {
      assert us[|us| - 1] in us;
    }
  }

  lemma OptimisticWritesRequestKeys(p: MoneyRequestParts, clock: Clock)
    requires p.chatReport.Some?
    ensures RequestKeys(p) <= KeysOf(RequestOptimistic(p, clock))
  {
    OptimisticKeysByPart(p, clock);
    CorePartKeys(p);
    ChatPartKeys(p, clock);
    PolicyUpdatesKeys(p);
  }

  lemma OptimisticKeysByPart(p: MoneyRequestParts, clock: Clock)
    ensures KeysOf(RequestOptimistic(p, clock)) == KeysOf(ChatPart(p, clock)) + KeysOf(CorePart(p)) + KeysOf(PolicyUpdates(p))
  {
    var chat, core, policy := ChatPart(p, clock), CorePart(p), PolicyUpdates(p);
    KeysOfConcat(chat, core);
    KeysOfConcat(chat + core, policy);
  }

  /** Every key the success and failure lists touch was written by the optimistic list. */
  lemma RequestKeysCovered(p: MoneyRequestParts, clock: Clock)
    requires p.chatReport.Some?
    ensures KeysOf(RequestSuccess(p)) <= KeysOf(RequestOptimistic(p, clock))
    ensures KeysOf(RequestFailure(p, clock)) <= KeysOf(RequestOptimistic(p, clock))
  {
    SuccessWritesRequestKeys(p);
    FailureWritesRequestKeys(p, clock);
    OptimisticWritesRequestKeys(p, clock);
  }

  lemma OptimisticWritesIOUReportOnce(p: MoneyRequestParts, clock: Clock)
    requires ChatID(p) != IouID(p)
    ensures SoleUpdate(RequestOptimistic(p, clock), IOUReportWritten(p))
  {
    var u := IOUReportWritten(p);
    CorePartSole(p, u);
    ChatPartMisses(p, clock, u.key);
    PolicyUpdatesMiss(p, u.key);
    SoleInside(ChatPart(p, clock), CorePart(p), PolicyUpdates(p), u);
  }

  lemma FailureWritesIOUReportOnce(p: MoneyRequestParts, clock: Clock)
    requires ChatID(p) != IouID(p)
    ensures SoleUpdate(RequestFailure(p, clock), IOUReportRolledBack(p, clock))
  {
    var u := IOUReportRolledBack(p, clock);
    Sole6(ChatReportRolledBack(p, clock), u, TransactionRolledBack(p, clock), DraftRemoved(),
          ChatActionsRolledBack(p, clock), IOUActionsRolledBack(p, clock), u);
    SoleUpdateConcat(FailureBlock(p, clock), ViolationsRolledBack(p), u);
  }

  /** The field a sole SET or MERGE of a record writes is what the key holds afterwards. */
  lemma WriteFieldLands(s: StoreState, us: seq<Update>, isNew: bool, k: Key, v: Record, f: string)
    requires SoleUpdate(us, Write(isNew, k, v))
    requires f in v && !v[f].Null?
    ensures FieldAt(ApplyAll(s, us), k, f) == Some(v[f])
  {
    SoleWriter(s, us, Write(isNew, k, v));
  }

  /** After the optimistic list the IOU report holds the total the builder was given. */
  lemma OptimisticTotal(s: StoreState, p: MoneyRequestParts, clock: Clock, total: int)
    requires ChatID(p) != IouID(p)
    requires NumberOf(p.iouReport, "total") == Some(total)
    ensures FieldAt(ApplyAll(s, RequestOptimistic(p, clock)), ReportKey(IouID(p)), "total") == Some(Num(total))
  {
    OptimisticWritesIOUReportOnce(p, clock);
    assert "total" in IOUReportValue(p) by { assert "total" in p.iouReport; }
    WriteFieldLands(s, RequestOptimistic(p, clock), p.isNewIOUReport, ReportKey(IouID(p)), IOUReportValue(p), "total");
  }

  /**
    What `getMoneyRequestInformation` returns is what its optimistic list writes: afterwards the
    store holds the returned transaction at its key and the returned report's total at the
    report's key.
  */
  lemma RequestInformationStored(s: StoreState, snap: Snapshot, report: Option<Record>, participant: Participant, amount: int,
                                 currency: string, ctx: RequestContext, clock: Clock, total: int)
    requires var info := GetMoneyRequestInformation(snap, report, participant, amount, currency, ctx, clock);
             NullFree(info.transaction) && NumberOf(info.iouReport, "total") == Some(total)
             && IdOf(Some(info.chatReport), "reportID") != IdOf(Some(info.iouReport), "reportID")
    ensures var info := GetMoneyRequestInformation(snap, report, participant, amount, currency, ctx, clock);
            var after := ApplyAll(s, info.onyxData.optimisticData);
            Holds(after, TransactionKey(IdOf(Some(info.transaction), "transactionID")), Some(info.transaction))
            && FieldAt(after, ReportKey(IdOf(Some(info.iouReport), "reportID")), "total") == Some(Num(total))
  {
    var p := RequestParts(snap, report, participant, amount, currency, ctx);
    OptimisticStoresTransaction(s, p, clock);
    OptimisticTotal(s, p, clock, total);
  }

  /**
    The failure list does not name the total, so a rejected request leaves the IOU report with
    the optimistic total rather than the one it had before.
  */
  lemma FailureKeepsOptimisticTotal(s: StoreState, p: MoneyRequestParts, clock: Clock, total: int)
    requires ChatID(p) != IouID(p)
    requires NumberOf(p.iouReport, "total") == Some(total)
    ensures FieldAt(AfterFailure(s, BuildOnyxDataForMoneyRequest(p, clock)), ReportKey(IouID(p)), "total") == Some(Num(total))
  {
    OptimisticTotal(s, p, clock, total);
    FailureWritesIOUReportOnce(p, clock);
    MergeKeepsOtherField(ApplyAll(s, RequestOptimistic(p, clock)), RequestFailure(p, clock), ReportKey(IouID(p)),
                         IOUReportRolledBack(p, clock).patch, "total");
  }

  /**
    A request on an existing expense report in its currency hands the builder the report with
    the total lowered by the amount, and the request's store data is that builder's; with
    `FailureKeepsOptimisticTotal`, a rejected request leaves the lowered total in place.
  */
  lemma ExistingReportRequestParts(snap: Snapshot, report: Option<Record>, participant: Participant, amount: int,
                                   currency: string, ctx: RequestContext, clock: Clock, total: int)
    requires participant.isPolicyExpenseChat
    requires ExistingReportFor(snap, report, participant, ctx).Some?
    requires NumberOf(ExistingReportFor(snap, report, participant, ctx).value, "total") == Some(total)
    requires FieldOf(ExistingReportFor(snap, report, participant, ctx).value, "currency") == Some(Str(currency))
    ensures NumberOf(RequestParts(snap, report, participant, amount, currency, ctx).iouReport, "total") == Some(total - amount)
    ensures GetMoneyRequestInformation(snap, report, participant, amount, currency, ctx, clock).onyxData
            == BuildOnyxDataForMoneyRequest(RequestParts(snap, report, participant, amount, currency, ctx), clock)
  {
    RequestTotalOnExistingExpenseReport(snap, report, participant, amount, currency, ctx, total);
  }
}
