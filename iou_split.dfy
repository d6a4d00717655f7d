/**
  Splitting a bill (`createSplitsAndOnyxData`): one transaction in the split chat, then, for
  every participant other than the current user, a one-on-one request built like any other
  money request. The result is the list of splits and the three update lists.
*/
module IouSplit {
  import opened Wrappers
  import opened Onyx
  import opened IouData
  import opened IouCreate

  /**
    A participant of the split. `normalizedLogin` is
    `OptionsListUtils.addSMSDomainIfPhoneNumber(login ?? '').toLowerCase()`, a string rendering
    that is not part of this model; `isPolicyExpenseChat` is `ReportUtils.isPolicyExpenseChat`.
  */
  datatype SplitParticipant = SplitParticipant(accountID: int, normalizedLogin: string, isPolicyExpenseChat: bool)

  /** What the ReportUtils, IOUUtils, TransactionUtils and Policy helpers return for one participant. */
  datatype ParticipantHelpers = ParticipantHelpers(
    chatByParticipants: Option<Record>,
    optimisticChatReport: Record,
    isApprovedControlExpenseReport: bool,
    optimisticExpenseReport: Record,
    optimisticIOUReport: Record,
    updatedIOUOwnerAndTotal: Record,
    optimisticTransaction: Record,
    chatCreatedAction: Record,
    iouCreatedAction: Record,
    iouAction: Record,
    optimisticPersonalDetails: Record,
    reportPreviewAction: Record,
    recentlyUsedCategories: seq<Value>,
    recentlyUsedTags: Record,
    isScanRequest: bool)

  datatype SplitMember = SplitMember(participant: SplitParticipant, helpers: ParticipantHelpers)

  /**
    The split as a whole. `currentUserEmail` is the current login after
    `addSMSDomainIfPhoneNumber`; `splitAmount` and `currentUserAmount` are what
    `IOUUtils.calculateAmount` gives a participant and the current user; `existingSplitChatReport`
    is the chat the split goes to when it already exists.
  */
  datatype SplitRequest = SplitRequest(
    currentUserEmail: string,
    currentUserAccountID: int,
    splitAmount: int,
    currentUserAmount: int,
    currency: string,
    existingSplitChatReportID: string,
    existingSplitChatReport: Option<Record>,
    optimisticSplitChatReport: Record,
    splitTransaction: Record,
    splitCreatedAction: Record,
    splitIOUAction: Record)

  datatype SplitIDs = SplitIDs(
    iouReportID: string,
    chatReportID: string,
    transactionID: string,
    reportActionID: string,
    createdChatReportActionID: string,
    createdIOUReportActionID: string,
    reportPreviewReportActionID: string)

  /** One entry of `splits`; the current user's entry carries no IDs. */
  datatype Split = Split(email: string, accountID: int, amount: int, ids: Option<SplitIDs>)

  datatype SplitData = SplitData(chatReportID: string, transactionID: string, reportActionID: string,
                                 policyID: Option<Value>, createdReportActionID: Option<string>)

  datatype SplitsAndOnyxData = SplitsAndOnyxData(splitData: SplitData, splits: seq<Split>, onyxData: OnyxData)

  const CREATE_FAILURE_MESSAGE: string := "iou.error.genericCreateFailureMessage"
  const CREATE_REPORT_FAILURE_MESSAGE: string := "report.genericCreateReportFailureMessage"

  // ---------------------------------------------------------------- the split chat

  function SplitChatBase(req: SplitRequest): Record {
    if req.existingSplitChatReport.Some? then req.existingSplitChatReport.value else req.optimisticSplitChatReport
  }

  /** The split chat, read now and showing the split as its last message; a new one is pending ADD. */
  function SplitChatReport(req: SplitRequest, clock: Clock): (r: Record)
    ensures "lastReadTime" in r && r["lastReadTime"] == Str(clock.dbTime)
    ensures req.existingSplitChatReport.None? ==> "pendingFields" in r && r["pendingFields"] == Obj(map["createChat" := PENDING_ADD])
    ensures req.existingSplitChatReport.Some? ==> ("pendingFields" in r <==> "pendingFields" in req.existingSplitChatReport.value)
  {
    var base := SplitChatBase(req)["lastReadTime" := Str(clock.dbTime)]
      + Entry("lastMessageText", MessageField(req.splitIOUAction, "text"))
      + Entry("lastMessageHtml", MessageField(req.splitIOUAction, "html"));
    if req.existingSplitChatReport.None? then base["pendingFields" := Obj(map["createChat" := PENDING_ADD])] else base
  }

  predicate IsOwnPolicyExpenseChat(req: SplitRequest) {
    var v := FieldOf(SplitChatBase(req), "isOwnPolicyExpenseChat");
    v.Some? && Truthy(v.value)
  }

  function SplitChatID(req: SplitRequest): string {
    IdOf(Some(SplitChatBase(req)), "reportID")
  }

  function SplitTransactionID(req: SplitRequest): string {
    IdOf(Some(req.splitTransaction), "transactionID")
  }

  /** A new split chat is SET with its created and split actions; an existing one is MERGED with the split action. */
  function SplitChatOptimistic(req: SplitRequest, clock: Clock): seq<Update> {
    var chatID := SplitChatID(req);
    var iouID := ActionID(req.splitIOUAction);
    if req.existingSplitChatReport.Some? then
      [ Merge(ReportKey(chatID), SplitChatReport(req, clock)),
        Merge(ReportActionsKey(chatID), map[iouID := Obj(req.splitIOUAction)]),
        Set(TransactionKey(SplitTransactionID(req)), Obj(req.splitTransaction))]
    else
      [ Set(ReportKey(chatID), Obj(SplitChatReport(req, clock))),
        Set(ReportActionsKey(chatID), Obj(map[ActionID(req.splitCreatedAction) := Obj(req.splitCreatedAction), iouID := Obj(req.splitIOUAction)])),
        Set(TransactionKey(SplitTransactionID(req)), Obj(req.splitTransaction))]
  }

  function SplitChatSuccess(req: SplitRequest): seq<Update> {
    var chatID := SplitChatID(req);
    var cleared := Obj(map["pendingAction" := Null]);
    var isNew := req.existingSplitChatReport.None?;
    [ Merge(ReportActionsKey(chatID), (if isNew then map[ActionID(req.splitCreatedAction) := cleared] else map[]) + map[ActionID(req.splitIOUAction) := cleared]),
      Merge(TransactionKey(SplitTransactionID(req)), map["pendingAction" := Null]),
      Merge(TransactionDraftKey(OPTIMISTIC_TRANSACTION_ID), map[])]
    + (if isNew then [Merge(ReportKey(chatID), map["pendingFields" := Obj(map["createChat" := Null])])] else [])
  }

  function SplitChatFailure(req: SplitRequest, clock: Clock): seq<Update> {
    var chatID := SplitChatID(req);
    var iouID := ActionID(req.splitIOUAction);
    [ Merge(TransactionKey(SplitTransactionID(req)), map["errors" := OnyxError(clock, Some(CREATE_FAILURE_MESSAGE))]),
      Merge(TransactionDraftKey(OPTIMISTIC_TRANSACTION_ID), map[])]
    + if req.existingSplitChatReport.Some? then
        [Merge(ReportActionsKey(chatID), map[iouID := Obj(map["errors" := OnyxError(clock, Some(CREATE_FAILURE_MESSAGE))])])]
      else
        [ Merge(ReportKey(chatID), map["errorFields" := Obj(map["createChat" := OnyxError(clock, Some(CREATE_REPORT_FAILURE_MESSAGE))])]),
          Merge(ReportActionsKey(chatID), map[iouID := Obj(map["errors" := OnyxError(clock, None)])])]
  }

  /** The split chat is read now and, when it is new, shows the chat creation as pending. */
  lemma SplitChatWrittenRead(s: StoreState, req: SplitRequest, clock: Clock)
    ensures FieldAt(ApplyAll(s, SplitChatOptimistic(req, clock)), ReportKey(SplitChatID(req)), "lastReadTime") == Some(Str(clock.dbTime))
    ensures req.existingSplitChatReport.None? ==>
              FieldAt(ApplyAll(s, SplitChatOptimistic(req, clock)), ReportKey(SplitChatID(req)), "pendingFields")
              == Some(Obj(map["createChat" := PENDING_ADD]))
  {
    var us := SplitChatOptimistic(req, clock);
    var chat := SplitChatReport(req, clock);
    Sole3(us[0], us[1], us[2], us[0]);
    assert us == [us[0], us[1], us[2]];
    if req.existingSplitChatReport.Some? {
      MergeFieldLands(s, us, ReportKey(SplitChatID(req)), chat, "lastReadTime");
    } else {
      SetFieldLands(s, us, ReportKey(SplitChatID(req)), chat, "lastReadTime");
      SetFieldLands(s, us, ReportKey(SplitChatID(req)), chat, "pendingFields");
    }
  }

  /** When the server accepts, a new split chat's pending creation is cleared. */
  lemma NewSplitChatCreated(s: StoreState, req: SplitRequest)
    requires req.existingSplitChatReport.None?
    ensures FieldAt(ApplyAll(s, SplitChatSuccess(req)), ReportKey(SplitChatID(req)), "pendingFields") == Some(Obj(map["createChat" := Null]))
  {
    var ok := SplitChatSuccess(req);
    assert ok == [ok[0], ok[1], ok[2], ok[3]];
    Sole4(ok[0], ok[1], ok[2], ok[3], ok[3]);
    MergeFieldLands(s, ok, ReportKey(SplitChatID(req)), ok[3].patch, "pendingFields");
  }

  /** When the server rejects, a new split chat shows the creation error. */
  lemma NewSplitChatFailed(s: StoreState, req: SplitRequest, clock: Clock)
    requires req.existingSplitChatReport.None?
    ensures FieldAt(ApplyAll(s, SplitChatFailure(req, clock)), ReportKey(SplitChatID(req)), "errorFields")
            == Some(Obj(map["createChat" := OnyxError(clock, Some(CREATE_REPORT_FAILURE_MESSAGE))]))
  {
    var ko := SplitChatFailure(req, clock);
    assert ko == [ko[0], ko[1], ko[2], ko[3]];
    Sole4(ko[0], ko[1], ko[2], ko[3], ko[2]);
    MergeFieldLands(s, ko, ReportKey(SplitChatID(req)), ko[2].patch, "errorFields");
  }

  function SplitDataOf(req: SplitRequest): SplitData {
    SplitData(SplitChatID(req), SplitTransactionID(req), ActionID(req.splitIOUAction), FieldOf(SplitChatBase(req), "policyID"),
              if req.existingSplitChatReport.None? then Some(ActionID(req.splitCreatedAction)) else None)
  }

  // ---------------------------------------------------------------- one participant

  /** A workspace participant, or any participant of the user's own workspace chat, has no email. */
  function MemberEmail(m: SplitMember, req: SplitRequest): string {
    if IsOwnPolicyExpenseChat(req) || m.participant.isPolicyExpenseChat then "" else m.participant.normalizedLogin
  }

  function MemberAccountID(m: SplitMember, req: SplitRequest): int {
    if IsOwnPolicyExpenseChat(req) || m.participant.isPolicyExpenseChat then 0 else m.participant.accountID
  }

  /** The loop skips the participant who is the current user. */
  predicate Skipped(m: SplitMember, req: SplitRequest) {
    MemberEmail(m, req) == req.currentUserEmail
  }

  /** With one participant and no group chat given, or in the user's own workspace chat, the split chat is reused. */
  predicate ReusesSplitChat(req: SplitRequest, multiple: bool) {
    (!multiple && req.existingSplitChatReportID == "") || IsOwnPolicyExpenseChat(req)
  }

  /** The one-on-one chat, whether it is new, and whether optimistic personal details are written. */
  function MemberChat(snap: Snapshot, m: SplitMember, req: SplitRequest, multiple: bool, clock: Clock): (Record, bool, bool) {
    var detailsExist := MemberAccountID(m, req) in snap.personalDetails;
    if ReusesSplitChat(req, multiple) then (SplitChatReport(req, clock), false, req.existingSplitChatReport.None? && !detailsExist)
    else if m.helpers.chatByParticipants.Some? then (m.helpers.chatByParticipants.value, false, false)
    else (m.helpers.optimisticChatReport, true, !detailsExist)
  }

  /** The IOU report the chat already has, if any. */
  function ChatIOUReport(snap: Snapshot, chat: Record): Option<Record> {
    if "iouReportID" in chat && Truthy(chat["iouReportID"]) then ReportOf(snap, IdOf(Some(chat), "iouReportID")) else None
  }

  predicate NeedsNewSplitIOUReport(existing: Option<Record>, m: SplitMember, req: SplitRequest) {
    existing.None? || (IsOwnPolicyExpenseChat(req) && m.helpers.isApprovedControlExpenseReport)
  }

  /**
    The participant's IOU report: a new one when there is none (or, in the user's workspace
    chat, when it is an approved Control report); an existing expense report has its total
    lowered by the share (amounts are negative there); an existing IOU report is what
    `updateIOUOwnerAndTotal` makes of it.
  */
  function MemberIOUReport(existing: Option<Record>, m: SplitMember, req: SplitRequest): (r: Record)
    ensures !NeedsNewSplitIOUReport(existing, m, req) && IsOwnPolicyExpenseChat(req) && NumberOf(existing.value, "total").Some? ==>
              NumberOf(r, "total") == Some(NumberOf(existing.value, "total").value - req.splitAmount)
  {
    if NeedsNewSplitIOUReport(existing, m, req) then
      if IsOwnPolicyExpenseChat(req) then m.helpers.optimisticExpenseReport else m.helpers.optimisticIOUReport
    else if IsOwnPolicyExpenseChat(req) then
      var total := NumberOf(existing.value, "total");
      if total.Some? then existing.value["total" := Num(total.value - req.splitAmount)] else existing.value
    else m.helpers.updatedIOUOwnerAndTotal
  }

  /** What the participant's request is built from; its share is negated on an expense report. */
  function MemberParts(snap: Snapshot, m: SplitMember, req: SplitRequest, multiple: bool, clock: Clock): MoneyRequestParts {
    var (chat, isNewChat, createDetails) := MemberChat(snap, m, req, multiple, clock);
    var existing := ChatIOUReport(snap, chat);
    var iou := MemberIOUReport(existing, m, req);
    var share := if IsExpenseReport(Some(iou)) then -req.splitAmount else req.splitAmount;
    var tx := m.helpers.optimisticTransaction
      + map["amount" := Num(share), "currency" := Str(req.currency), "reportID" := Str(IdOf(Some(iou), "reportID"))];
    var isWorkspace := m.participant.isPolicyExpenseChat;
    MoneyRequestParts(
      Some(chat), iou, tx,
      m.helpers.chatCreatedAction, m.helpers.iouCreatedAction, m.helpers.iouAction,
      if createDetails then m.helpers.optimisticPersonalDetails else map[],
      m.helpers.reportPreviewAction,
      if isWorkspace then m.helpers.recentlyUsedCategories else [],
      if isWorkspace then m.helpers.recentlyUsedTags else map[],
      isNewChat, NeedsNewSplitIOUReport(existing, m, req),
      None, None, false, m.helpers.isScanRequest)
  }

  /** The participant's entry: its email, account and share, and the IDs of everything built for it. */
  function MemberSplit(snap: Snapshot, m: SplitMember, req: SplitRequest, multiple: bool, clock: Clock): (s: Split)
    ensures s.email == MemberEmail(m, req) && s.accountID == MemberAccountID(m, req) && s.amount == req.splitAmount && s.ids.Some?
  {
    var p := MemberParts(snap, m, req, multiple, clock);
    Split(MemberEmail(m, req), MemberAccountID(m, req), req.splitAmount,
      Some(SplitIDs(IouID(p), ChatID(p), TxID(p), ActionID(p.iouAction), ActionID(p.chatCreatedAction),
                    ActionID(p.iouCreatedAction), ActionID(p.reportPreviewAction))))
  }

  function CurrentUserSplit(req: SplitRequest): Split {
    Split(req.currentUserEmail, req.currentUserAccountID, req.currentUserAmount, None)
  }

  // ---------------------------------------------------------------- the cache the loop edits

  /** The key, in the report cache, of the IOU report the participant's chat names. */
  function MemberIOUReportID(snap: Snapshot, m: SplitMember, req: SplitRequest, multiple: bool, clock: Clock): string {
    IdOf(Some(MemberChat(snap, m, req, multiple, clock).0), "iouReportID")
  }

  /** Whether the participant's existing expense report is lowered where it lies, by `total -= splitAmount`. */
  predicate LowersCachedReport(snap: Snapshot, m: SplitMember, req: SplitRequest, multiple: bool, clock: Clock) {
    var existing := ChatIOUReport(snap, MemberChat(snap, m, req, multiple, clock).0);
    !NeedsNewSplitIOUReport(existing, m, req) && IsOwnPolicyExpenseChat(req) && NumberOf(existing.value, "total").Some?
  }

  /**
    The module-level report cache after one participant. The source lowers the cached report
    object itself, so a later participant whose chat names the same IOU report starts from the
    lowered total; nothing else in the cache changes.
  */
  function CacheAfter(snap: Snapshot, m: SplitMember, req: SplitRequest, multiple: bool, clock: Clock): (r: Snapshot)
    ensures r == snap.(reports := r.reports)
    ensures LowersCachedReport(snap, m, req, multiple, clock) ==>
              var existing := ChatIOUReport(snap, MemberChat(snap, m, req, multiple, clock).0);
              ReportOf(r, MemberIOUReportID(snap, m, req, multiple, clock))
              == Some(existing.value["total" := Num(NumberOf(existing.value, "total").value - req.splitAmount)])
    ensures forall id :: id != MemberIOUReportID(snap, m, req, multiple, clock) || !LowersCachedReport(snap, m, req, multiple, clock) ==>
              ReportOf(r, id) == ReportOf(snap, id)
  {
    if LowersCachedReport(snap, m, req, multiple, clock) then
      var existing := ChatIOUReport(snap, MemberChat(snap, m, req, multiple, clock).0);
      snap.(reports := snap.reports[MemberIOUReportID(snap, m, req, multiple, clock) := MemberIOUReport(existing, m, req)])
    else snap
  }

  // ---------------------------------------------------------------- the loop, specified

  /**
    The state a loop over the participants carries, after the participants `ms`: each one that is
    not skipped changes it by `next`.
  */
  function StateAfter(s0: Snapshot, ms: seq<SplitMember>, skip: SplitMember -> bool, next: (Snapshot, SplitMember) -> Snapshot): Snapshot
    decreases |ms|
  {
    if |ms| == 0 then s0
    else
      var before := StateAfter(s0, ms[..|ms| - 1], skip, next);
      if skip(ms[|ms| - 1]) then before else next(before, ms[|ms| - 1])
  }

  /**
    What the loop accumulates over the participants, for any rule of which participants are
    skipped, of what each kept one contributes from the state it finds, and of how it changes
    that state: the contributions of the kept participants, in order.
  */
  function Collected<T>(s0: Snapshot, ms: seq<SplitMember>, skip: SplitMember -> bool,
                           contribution: (Snapshot, SplitMember) -> T, next: (Snapshot, SplitMember) -> Snapshot): seq<T>
    decreases |ms|
  {
    if |ms| == 0 then []
    else
      var last := ms[|ms| - 1];
      var init := ms[..|ms| - 1];
      Collected(s0, init, skip, contribution, next)
      + if skip(last) then [] else [contribution(StateAfter(s0, init, skip, next), last)]
  }

  function Join(a: OnyxData, b: OnyxData): OnyxData {
    OnyxData(a.optimisticData + b.optimisticData, a.successData + b.successData, a.failureData + b.failureData)
  }

  /** The three lists of several requests, one after the other. */
  function JoinAll(ds: seq<OnyxData>): OnyxData
    decreases |ds|
  {
    if |ds| == 0 then OnyxData([], [], []) else Join(JoinAll(ds[..|ds| - 1]), ds[|ds| - 1])
  }

  function SkipRule(req: SplitRequest): SplitMember -> bool {
    m => Skipped(m, req)
  }

  function SplitRule(req: SplitRequest, multiple: bool, clock: Clock): (Snapshot, SplitMember) -> Split {
    (snap, m) => MemberSplit(snap, m, req, multiple, clock)
  }

  /** The three lists of the participant's own request. */
  function MemberData(snap: Snapshot, m: SplitMember, req: SplitRequest, multiple: bool, clock: Clock): OnyxData {
    BuildOnyxDataForMoneyRequest(MemberParts(snap, m, req, multiple, clock), clock)
  }

  function DataRule(req: SplitRequest, multiple: bool, clock: Clock): (Snapshot, SplitMember) -> OnyxData {
    (snap, m) => MemberData(snap, m, req, multiple, clock)
  }

  function CacheRule(req: SplitRequest, multiple: bool, clock: Clock): (Snapshot, SplitMember) -> Snapshot {
    (snap, m) => CacheAfter(snap, m, req, multiple, clock)
  }

  /** The cache the `i`-th participant finds: the snapshot as the participants before it left it. */
  function CacheBefore(snap: Snapshot, ms: seq<SplitMember>, req: SplitRequest, clock: Clock, i: nat): Snapshot
    requires i <= |ms|
  {
    StateAfter(snap, ms[..i], SkipRule(req), CacheRule(req, |ms| > 1, clock))
  }

  /** The entries the loop adds after the current user's. */
  function SplitsOf(snap: Snapshot, ms: seq<SplitMember>, req: SplitRequest, clock: Clock): seq<Split> {
    Collected(snap, ms, SkipRule(req), SplitRule(req, |ms| > 1, clock), CacheRule(req, |ms| > 1, clock))
  }

  /** The three lists the loop appends after the split chat's. */
  function MembersData(snap: Snapshot, ms: seq<SplitMember>, req: SplitRequest, clock: Clock): OnyxData {
    JoinAll(Collected(snap, ms, SkipRule(req), DataRule(req, |ms| > 1, clock), CacheRule(req, |ms| > 1, clock)))
  }

  function SplitChatData(req: SplitRequest, clock: Clock): OnyxData {
    OnyxData(SplitChatOptimistic(req, clock), SplitChatSuccess(req), SplitChatFailure(req, clock))
  }

  lemma StateAfterStep(s0: Snapshot, ms: seq<SplitMember>, skip: SplitMember -> bool, next: (Snapshot, SplitMember) -> Snapshot, i: nat)
    requires i < |ms|
    ensures StateAfter(s0, ms[..i + 1], skip, next)
            == if skip(ms[i]) then StateAfter(s0, ms[..i], skip, next) else next(StateAfter(s0, ms[..i], skip, next), ms[i])
  {
    assert ms[..i + 1][..i] == ms[..i];
  }

  lemma CollectedStep<T>(s0: Snapshot, ms: seq<SplitMember>, skip: SplitMember -> bool,
                            contribution: (Snapshot, SplitMember) -> T, next: (Snapshot, SplitMember) -> Snapshot, i: nat)
    requires i < |ms|
    ensures Collected(s0, ms[..i + 1], skip, contribution, next)
            == Collected(s0, ms[..i], skip, contribution, next)
               + if skip(ms[i]) then [] else [contribution(StateAfter(s0, ms[..i], skip, next), ms[i])]
  {
    assert ms[..i + 1][..i] == ms[..i];
  }

  lemma JoinAllStep(ds: seq<OnyxData>, d: OnyxData)
    ensures JoinAll(ds + [d]) == Join(JoinAll(ds), d)
  {
    assert (ds + [d])[..|ds|] == ds;
  }

  lemma JoinAssoc(a: OnyxData, b: OnyxData, c: OnyxData)
    ensures Join(Join(a, b), c) == Join(a, Join(b, c))
  {
  }

  // ---------------------------------------------------------------- the loop

  /**
    The loop over the participants (the callback of `participants.forEach`): each participant that
    is not skipped appends its entry to `splits` and its three lists to `data`, both built from
    the cache as it finds it, and then leaves the cache as `next` says.
  */
  method AddParticipants(ms: seq<SplitMember>, skip: SplitMember -> bool, splitOf: (Snapshot, SplitMember) -> Split,
                         dataOf: (Snapshot, SplitMember) -> OnyxData, next: (Snapshot, SplitMember) -> Snapshot,
                         cache0: Snapshot, splits0: seq<Split>, data0: OnyxData)
    returns (splits: seq<Split>, data: OnyxData, cache: Snapshot)
    ensures splits == splits0 + Collected(cache0, ms, skip, splitOf, next)
    ensures data == Join(data0, JoinAll(Collected(cache0, ms, skip, dataOf, next)))
    ensures cache == StateAfter(cache0, ms, skip, next)
  {
    splits := splits0;
    data := data0;
    cache := cache0;
    var i := 0;
    assert ms[..0] == [];
    while i < |ms|
      invariant 0 <= i <= |ms|
      invariant LoopDone(ms[..i], skip, splitOf, dataOf, next, cache0, splits0, data0, splits, data, cache)
    {
      var m := ms[i];
      AddStep(ms, i, skip, splitOf, dataOf, next, cache0, splits0, data0, splits, data, cache);
      if !skip(m) {
        splits := splits + [splitOf(cache, m)];
        data := Join(data, dataOf(cache, m));
        cache := next(cache, m);
      }
      i := i + 1;
    }
    assert ms[..|ms|] == ms;
  }

  /** What the loop has built after the participants `done`. */
  predicate LoopDone(done: seq<SplitMember>, skip: SplitMember -> bool, splitOf: (Snapshot, SplitMember) -> Split,
                     dataOf: (Snapshot, SplitMember) -> OnyxData, next: (Snapshot, SplitMember) -> Snapshot,
                     cache0: Snapshot, splits0: seq<Split>, data0: OnyxData, splits: seq<Split>, data: OnyxData, cache: Snapshot)
  {
    cache == StateAfter(cache0, done, skip, next)
    && splits == splits0 + Collected(cache0, done, skip, splitOf, next)
    && data == Join(data0, JoinAll(Collected(cache0, done, skip, dataOf, next)))
  }

  /** One turn of the loop keeps `LoopDone`. */
  lemma AddStep(ms: seq<SplitMember>, i: nat, skip: SplitMember -> bool, splitOf: (Snapshot, SplitMember) -> Split,
                dataOf: (Snapshot, SplitMember) -> OnyxData, next: (Snapshot, SplitMember) -> Snapshot,
                cache0: Snapshot, splits0: seq<Split>, data0: OnyxData, splits: seq<Split>, data: OnyxData, cache: Snapshot)
    requires i < |ms|
    requires LoopDone(ms[..i], skip, splitOf, dataOf, next, cache0, splits0, data0, splits, data, cache)
    ensures skip(ms[i]) ==> LoopDone(ms[..i + 1], skip, splitOf, dataOf, next, cache0, splits0, data0, splits, data, cache)
    ensures !skip(ms[i]) ==>
              LoopDone(ms[..i + 1], skip, splitOf, dataOf, next, cache0, splits0, data0,
                       splits + [splitOf(cache, ms[i])], Join(data, dataOf(cache, ms[i])), next(cache, ms[i]))
  {
    CollectedStep(cache0, ms, skip, splitOf, next, i);
    CollectedStep(cache0, ms, skip, dataOf, next, i);
    StateAfterStep(cache0, ms, skip, next, i);
    var before := Collected(cache0, ms[..i], skip, dataOf, next);
    if !skip(ms[i]) {
      JoinAllStep(before, dataOf(cache, ms[i]));
      JoinAssoc(data0, JoinAll(before), dataOf(cache, ms[i]));
    } else {
      assert before + [] == before;
    }
  }

  /**
    The split: the split chat's updates, then, for each participant other than the current user,
    the updates of its own request, with one entry per participant after the current user's.
    `cache` is the module-level report cache as the loop leaves it.
  */
  method CreateSplitsAndOnyxData(snap: Snapshot, ms: seq<SplitMember>, req: SplitRequest, clock: Clock)
    returns (r: SplitsAndOnyxData, cache: Snapshot)
    ensures r.splits == [CurrentUserSplit(req)] + SplitsOf(snap, ms, req, clock)
    ensures r.onyxData == Join(SplitChatData(req, clock), MembersData(snap, ms, req, clock))
    ensures r.splitData == SplitDataOf(req)
    ensures cache == CacheBefore(snap, ms, req, clock, |ms|)
  {
    var multiple := |ms| > 1;
    var splits, data;
    splits, data, cache := AddParticipants(ms, SkipRule(req), SplitRule(req, multiple, clock), DataRule(req, multiple, clock),
                                           CacheRule(req, multiple, clock), snap, [CurrentUserSplit(req)], SplitChatData(req, clock));
    assert ms[..|ms|] == ms;
    r := SplitsAndOnyxData(SplitDataOf(req), splits, data);
  }

  // ---------------------------------------------------------------- properties of the split list

  /** The positions of the participants the loop does not skip, in order. */
  function KeptPositions(ms: seq<SplitMember>, skip: SplitMember -> bool): seq<nat>
    decreases |ms|
  {
    if |ms| == 0 then []
    else KeptPositions(ms[..|ms| - 1], skip) + if skip(ms[|ms| - 1]) then [] else [|ms| - 1]
  }

  /** The kept positions are increasing and are exactly those of the participants that are not skipped. */
  lemma {:induction false} KeptPositionsAreTheUnskipped(ms: seq<SplitMember>, skip: SplitMember -> bool)
    ensures var kept := KeptPositions(ms, skip);
            (forall j :: 0 <= j < |kept| ==> kept[j] < |ms|)
            && (forall j, k :: 0 <= j < k < |kept| ==> kept[j] < kept[k])
            && (forall i :: 0 <= i < |ms| ==> (i in kept <==> !skip(ms[i])))
    decreases |ms|
  {
    if |ms| > 0 {
      var init := ms[..|ms| - 1];
      KeptPositionsAreTheUnskipped(init, skip);
      assert forall i :: 0 <= i < |init| ==> init[i] == ms[i];
    }
  }

  /** The prefixes of the participants before the last are the prefixes of all of them. */
  lemma PrefixesOfInit(ms: seq<SplitMember>)
    requires |ms| > 0
    ensures forall k :: 0 <= k <= |ms| - 1 ==> ms[..|ms| - 1][..k] == ms[..k]
  {
  }

  /**
    The accumulated contributions are those of the kept positions, one each, in order, each made
    from the state the participants before it left.
  */
  lemma {:induction false} CollectedFollowsKept<T>(s0: Snapshot, ms: seq<SplitMember>, skip: SplitMember -> bool,
                                                       contribution: (Snapshot, SplitMember) -> T, next: (Snapshot, SplitMember) -> Snapshot)
    ensures var kept := KeptPositions(ms, skip);
            |Collected(s0, ms, skip, contribution, next)| == |kept|
            && (forall j :: 0 <= j < |kept| ==>
                 (kept[j] < |ms|
                  && Collected(s0, ms, skip, contribution, next)[j] == contribution(StateAfter(s0, ms[..kept[j]], skip, next), ms[kept[j]])))
    decreases |ms|
  {
    if |ms| > 0 {
      var init := ms[..|ms| - 1];
      CollectedFollowsKept(s0, init, skip, contribution, next);
      KeptPositionsAreTheUnskipped(init, skip);
      PrefixesOfInit(ms);
      assert forall i :: 0 <= i < |init| ==> init[i] == ms[i];
    }
  }

  /** When no participant is skipped, each one contributes. */
  lemma {:induction false} NoneSkippedKeepsAll<T>(s0: Snapshot, ms: seq<SplitMember>, skip: SplitMember -> bool,
                                                      contribution: (Snapshot, SplitMember) -> T, next: (Snapshot, SplitMember) -> Snapshot)
    requires forall i :: 0 <= i < |ms| ==> !skip(ms[i])
    ensures |Collected(s0, ms, skip, contribution, next)| == |ms|
    decreases |ms|
  {
    if |ms| > 0 {
      NoneSkippedKeepsAll(s0, ms[..|ms| - 1], skip, contribution, next);
    }
  }

  /** Every update a kept participant contributes, from the state it finds, is among the accumulated ones. */
  lemma {:induction false} KeptUpdatesAreJoined(s0: Snapshot, ms: seq<SplitMember>, skip: SplitMember -> bool,
                                                  dataOf: (Snapshot, SplitMember) -> OnyxData, next: (Snapshot, SplitMember) -> Snapshot, i: nat)
    requires i < |ms| && !skip(ms[i])
    ensures var own := dataOf(StateAfter(s0, ms[..i], skip, next), ms[i]);
            var all := JoinAll(Collected(s0, ms, skip, dataOf, next));
            (forall u :: u in own.optimisticData ==> u in all.optimisticData)
            && (forall u :: u in own.successData ==> u in all.successData)
            && (forall u :: u in own.failureData ==> u in all.failureData)
    decreases |ms|
  {
    var init := ms[..|ms| - 1];
    var before := Collected(s0, init, skip, dataOf, next);
    var last := dataOf(StateAfter(s0, init, skip, next), ms[|ms| - 1]);
    if i < |ms| - 1 {
      assert init[i] == ms[i];
      assert init[..i] == ms[..i];
      KeptUpdatesAreJoined(s0, init, skip, dataOf, next, i);
      if !skip(ms[|ms| - 1]) {
        JoinAllStep(before, last);
      } else {
        assert before + [] == before;
      }
    } else {
      JoinAllStep(before, last);
    }
  }

  /**
    After the current user's entry, the split list holds, in order, one entry per participant
    whose email differs from the current user's: its email, account, share and IDs, from the
    cache as the participants before it left it.
  */
  lemma SplitsFollowOtherParticipants(snap: Snapshot, ms: seq<SplitMember>, req: SplitRequest, clock: Clock)
    ensures var kept := KeptPositions(ms, SkipRule(req));
            |SplitsOf(snap, ms, req, clock)| == |kept|
            && (forall j :: 0 <= j < |kept| ==>
                 (kept[j] < |ms|
                  && SplitsOf(snap, ms, req, clock)[j] == MemberSplit(CacheBefore(snap, ms, req, clock, kept[j]), ms[kept[j]], req, |ms| > 1, clock)))
            && (forall i :: 0 <= i < |ms| ==> (i in kept <==> MemberEmail(ms[i], req) != req.currentUserEmail))
  {
    KeptPositionsAreTheUnskipped(ms, SkipRule(req));
    CollectedFollowsKept(snap, ms, SkipRule(req), SplitRule(req, |ms| > 1, clock), CacheRule(req, |ms| > 1, clock));
  }

  /** No entry after the first is the current user's, and each is one participant's share. */
  lemma SplitsSkipCurrentUser(snap: Snapshot, ms: seq<SplitMember>, req: SplitRequest, clock: Clock)
    ensures forall s :: s in SplitsOf(snap, ms, req, clock) ==> s.email != req.currentUserEmail && s.amount == req.splitAmount && s.ids.Some?
  {
    var kept := KeptPositions(ms, SkipRule(req));
    SplitsFollowOtherParticipants(snap, ms, req, clock);
    forall s | s in SplitsOf(snap, ms, req, clock)
      ensures s.email != req.currentUserEmail && s.amount == req.splitAmount && s.ids.Some?
    {
      var j :| 0 <= j < |SplitsOf(snap, ms, req, clock)| && SplitsOf(snap, ms, req, clock)[j] == s;
      assert kept[j] in kept;
    }
  }

  /** When no participant is the current user, the split list has one entry per participant after the current user's. */
  lemma EveryOtherParticipantSplits(snap: Snapshot, ms: seq<SplitMember>, req: SplitRequest, clock: Clock)
    requires forall i :: 0 <= i < |ms| ==> MemberEmail(ms[i], req) != req.currentUserEmail
    ensures |SplitsOf(snap, ms, req, clock)| == |ms|
  {
    NoneSkippedKeepsAll(snap, ms, SkipRule(req), SplitRule(req, |ms| > 1, clock), CacheRule(req, |ms| > 1, clock));
  }

  /** Each other participant's own request is written in full: all its updates are in the split's lists. */
  lemma ParticipantRequestIsWritten(snap: Snapshot, ms: seq<SplitMember>, req: SplitRequest, clock: Clock, i: nat)
    requires i < |ms| && MemberEmail(ms[i], req) != req.currentUserEmail
    ensures var own := MemberData(CacheBefore(snap, ms, req, clock, i), ms[i], req, |ms| > 1, clock);
            var all := MembersData(snap, ms, req, clock);
            (forall u :: u in own.optimisticData ==> u in all.optimisticData)
            && (forall u :: u in own.successData ==> u in all.successData)
            && (forall u :: u in own.failureData ==> u in all.failureData)
  {
    assert CacheBefore(snap, ms, req, clock, i) == StateAfter(snap, ms[..i], SkipRule(req), CacheRule(req, |ms| > 1, clock));
    KeptUpdatesAreJoined(snap, ms, SkipRule(req), DataRule(req, |ms| > 1, clock), CacheRule(req, |ms| > 1, clock), i);
  }

  // ---------------------------------------------------------------- the shared expense report

  /** The split chat names an IOU report that `cache` holds with total `t`. */
  predicate SharedTotal(cache: Snapshot, req: SplitRequest, clock: Clock, t: int) {
    var found := ChatIOUReport(cache, SplitChatReport(req, clock));
    found.Some? && NumberOf(found.value, "total") == Some(t)
  }

  /**
    In the user's own workspace chat every participant reuses the split chat and so its IOU
    report; while that report exists (and is not an approved Control report), the cache the
    `i`-th participant finds holds it lowered by `i` shares.
  */
  lemma {:induction false} SharedReportLowered(snap: Snapshot, ms: seq<SplitMember>, req: SplitRequest, clock: Clock, i: nat, t: int)
    requires IsOwnPolicyExpenseChat(req) && req.currentUserEmail != ""
    requires forall k :: 0 <= k < |ms| ==> !ms[k].helpers.isApprovedControlExpenseReport
    requires SharedTotal(snap, req, clock, t)
    requires i <= |ms|
    ensures SharedTotal(CacheBefore(snap, ms, req, clock, i), req, clock, t - i * req.splitAmount)
  {
    if i > 0 {
      SharedReportLowered(snap, ms, req, clock, i - 1, t);
      SharedReportStep(snap, ms, req, clock, i - 1, t - (i - 1) * req.splitAmount);
      OneShareMore(t, i, req.splitAmount);
    }
  }

  lemma OneShareMore(t: int, i: nat, share: int)
    requires i > 0
    ensures t - (i - 1) * share - share == t - i * share
  {
  }

  /** The cache the next participant of the user's workspace chat finds holds the shared report one share lower. */
  lemma SharedReportStep(snap: Snapshot, ms: seq<SplitMember>, req: SplitRequest, clock: Clock, i: nat, t: int)
    requires IsOwnPolicyExpenseChat(req) && req.currentUserEmail != ""
    requires i < |ms| && !ms[i].helpers.isApprovedControlExpenseReport
    requires SharedTotal(CacheBefore(snap, ms, req, clock, i), req, clock, t)
    ensures SharedTotal(CacheBefore(snap, ms, req, clock, i + 1), req, clock, t - req.splitAmount)
  {
    var before := CacheBefore(snap, ms, req, clock, i);
    StateAfterStep(snap, ms, SkipRule(req), CacheRule(req, |ms| > 1, clock), i);
    assert !Skipped(ms[i], req);
    assert CacheBefore(snap, ms, req, clock, i + 1) == CacheAfter(before, ms[i], req, |ms| > 1, clock);
    LowerOnce(before, ms[i], req, |ms| > 1, clock, t);
  }

  /** One participant of the user's workspace chat lowers the shared report in the cache by one share. */
  lemma LowerOnce(snap: Snapshot, m: SplitMember, req: SplitRequest, multiple: bool, clock: Clock, t: int)
    requires IsOwnPolicyExpenseChat(req) && !m.helpers.isApprovedControlExpenseReport
    requires SharedTotal(snap, req, clock, t)
    ensures SharedTotal(CacheAfter(snap, m, req, multiple, clock), req, clock, t - req.splitAmount)
  {
    var chat := SplitChatReport(req, clock);
    assert MemberChat(snap, m, req, multiple, clock).0 == chat;
    assert LowersCachedReport(snap, m, req, multiple, clock);
  }

  /**
    Splitting in the user's own workspace chat, with its expense report already there at total
    `t`: the `i`-th participant's request carries `t` lowered by `i + 1` shares, because each
    participant lowers the one cached report in turn.
  */
  lemma SharedExpenseReportAccumulates(snap: Snapshot, ms: seq<SplitMember>, req: SplitRequest, clock: Clock, i: nat, t: int)
    requires IsOwnPolicyExpenseChat(req) && req.currentUserEmail != ""
    requires forall k :: 0 <= k < |ms| ==> !ms[k].helpers.isApprovedControlExpenseReport
    requires SharedTotal(snap, req, clock, t)
    requires i < |ms|
    ensures NumberOf(MemberParts(CacheBefore(snap, ms, req, clock, i), ms[i], req, |ms| > 1, clock).iouReport, "total")
            == Some(t - (i + 1) * req.splitAmount)
  {
    SharedReportLowered(snap, ms, req, clock, i, t);
  }
}
