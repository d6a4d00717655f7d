/**
  The report-status operations of the action layer: approve, submit, pay and cancel payment.
  Each builds the request it hands to `API.write`. The optimistic report actions they add are
  built by ReportUtils, which is not part of this model, and arrive as records.
*/
module IouStatus {
  import opened Wrappers
  import opened Onyx
  import opened IouData

  // ---------------------------------------------------------------- next steps

  /** Pay, approve and submit delete the report's next step while the request is in flight... */
  function NextStepOptimistic(snap: Snapshot, reportID: string): (us: seq<Update>)
    ensures forall x :: x in us ==> x.key == NextStepKey(reportID)
  {
    if NextStepOf(snap, reportID).Some? then [Set(NextStepKey(reportID), Null)] else []
  }

  /** ...and merge the cached one back when it fails. */
  function NextStepFailure(snap: Snapshot, reportID: string): (us: seq<Update>)
    ensures forall x :: x in us ==> x.key == NextStepKey(reportID)
  {
    var prev := NextStepOf(snap, reportID);
    if prev.Some? then [Merge(NextStepKey(reportID), prev.value)] else []
  }

  // ---------------------------------------------------------------- approve

  function ApproveReportPatch(expenseReport: Record, approvedAction: Record): (u: Update)
    ensures u.Merge? && u.key == ReportKey(IdOf(Some(expenseReport), "reportID"))
    ensures "stateNum" in u.patch && u.patch["stateNum"] == Num(STATE_APPROVED)
    ensures "statusNum" in u.patch && u.patch["statusNum"] == Num(STATUS_APPROVED)
  {
    Merge(ReportKey(IdOf(Some(expenseReport), "reportID")),
      expenseReport
      + Entry("lastMessageText", MessageField(approvedAction, "text"))
      + Entry("lastMessageHtml", MessageField(approvedAction, "html"))
      + map["stateNum" := Num(STATE_APPROVED), "statusNum" := Num(STATUS_APPROVED)])
  }

  function ApproveOptimistic(snap: Snapshot, expenseReport: Record, approvedAction: Record): seq<Update> {
    var reportID := IdOf(Some(expenseReport), "reportID");
    [ApproveReportPatch(expenseReport, approvedAction), ActionAdded(reportID, approvedAction)] + NextStepOptimistic(snap, reportID)
  }

  /** The error goes to the action named by the report's own `reportActionID`. */
  function ApproveFailure(snap: Snapshot, expenseReport: Record, clock: Clock): seq<Update> {
    var reportID := IdOf(Some(expenseReport), "reportID");
    [ActionFailed(reportID, StrOr(expenseReport, "reportActionID"), clock)] + NextStepFailure(snap, reportID)
  }

  /** `approvedAction` is `ReportUtils.buildOptimisticApprovedReportAction(...)`. */
  function ApproveMoneyRequest(snap: Snapshot, expenseReport: Record, approvedAction: Record, clock: Clock): WriteRequest {
    var reportID := IdOf(Some(expenseReport), "reportID");
    WriteRequest("ApproveMoneyRequest",
      Entry("reportID", FieldOf(expenseReport, "reportID")) + Entry("approvedReportActionID", FieldOf(approvedAction, "reportActionID")),
      OnyxData(
        ApproveOptimistic(snap, expenseReport, approvedAction),
        [ActionPendingCleared(reportID, IdOf(Some(approvedAction), "reportActionID"))],
        ApproveFailure(snap, expenseReport, clock)))
  }

  // ---------------------------------------------------------------- submit

  function SubmitReportPatch(expenseReport: Record, submittedAction: Record): (u: Update)
    ensures u.Merge? && u.key == ReportKey(IdOf(Some(expenseReport), "reportID"))
    ensures "stateNum" in u.patch && u.patch["stateNum"] == Num(STATE_SUBMITTED)
    ensures "statusNum" in u.patch && u.patch["statusNum"] == Num(STATUS_SUBMITTED)
  {
    Merge(ReportKey(IdOf(Some(expenseReport), "reportID")),
      expenseReport + map[
        "lastMessageText" := OrEmpty(MessageField(submittedAction, "text")),
        "lastMessageHtml" := OrEmpty(MessageField(submittedAction, "html")),
        "stateNum" := Num(STATE_SUBMITTED),
        "statusNum" := Num(STATUS_SUBMITTED)])
  }

  function SubmitReopenPatch(expenseReport: Record): (u: Update)
    ensures u.Merge? && u.key == ReportKey(IdOf(Some(expenseReport), "reportID"))
    ensures "stateNum" in u.patch && u.patch["stateNum"] == Num(STATE_OPEN)
    ensures "statusNum" in u.patch && u.patch["statusNum"] == Num(STATUS_OPEN)
  {
    Merge(ReportKey(IdOf(Some(expenseReport), "reportID")), map["statusNum" := Num(STATUS_OPEN), "stateNum" := Num(STATE_OPEN)])
  }

  /** `parentReport?.reportID` */
  predicate HasReportID(r: Option<Record>) {
    r.Some? && "reportID" in r.value && Truthy(r.value["reportID"])
  }

  /**
    `currentUserPersonalDetails.accountID === expenseReport.managerID`; both sides may be
    undefined, which compares equal.
  */
  predicate IsCurrentUserManager(snap: Snapshot, expenseReport: Record) {
    (if snap.currentUserPersonalAccountID.Some? then Some(snap.currentUserPersonalAccountID.value) else None)
    == NumberOf(expenseReport, "managerID")
  }

  function SubmitOptimistic(snap: Snapshot, expenseReport: Record, parentReport: Option<Record>, submittedAction: Record): seq<Update> {
    var reportID := IdOf(Some(expenseReport), "reportID");
    [ActionAdded(reportID, submittedAction), SubmitReportPatch(expenseReport, submittedAction)]
    + SubmitParentUpdated(snap, expenseReport, parentReport)
    + NextStepOptimistic(snap, reportID)
  }

  /** The parent chat's outstanding flag, set to whether the submitter manages the report. */
  function SubmitParentUpdated(snap: Snapshot, expenseReport: Record, parentReport: Option<Record>): (us: seq<Update>)
    ensures forall x :: x in us ==> x.key == ReportKey(IdOf(parentReport, "reportID"))
  {
    if HasReportID(parentReport) then
      [Merge(ReportKey(IdOf(parentReport, "reportID")),
         parentReport.value + map["hasOutstandingChildRequest" := Bool(IsCurrentUserManager(snap, expenseReport)), "iouReportID" := Null])]
    else []
  }

  function SubmitParentRestored(expenseReport: Record, parentReport: Option<Record>): (us: seq<Update>)
    ensures forall x :: x in us ==> x.key == ReportKey(IdOf(parentReport, "reportID"))
  {
    if HasReportID(parentReport) then
      [Merge(ReportKey(IdOf(parentReport, "reportID")),
         Entry("hasOutstandingChildRequest", FieldOf(parentReport.value, "hasOutstandingChildRequest"))
         + Entry("iouReportID", FieldOf(expenseReport, "reportID")))]
    else []
  }

  function SubmitFailure(snap: Snapshot, expenseReport: Record, parentReport: Option<Record>, submittedAction: Record, clock: Clock): seq<Update> {
    var reportID := IdOf(Some(expenseReport), "reportID");
    [ActionFailed(reportID, IdOf(Some(submittedAction), "reportActionID"), clock), SubmitReopenPatch(expenseReport)]
    + SubmitParentRestored(expenseReport, parentReport)
    + NextStepFailure(snap, reportID)
  }

  /**
    `parentReport` is `ReportUtils.getReport(expenseReport.parentReportID)`;
    `submittedAction` is `ReportUtils.buildOptimisticSubmittedReportAction(...)`.
  */
  function SubmitReport(snap: Snapshot, expenseReport: Record, parentReport: Option<Record>, submittedAction: Record, clock: Clock): WriteRequest {
    var reportID := IdOf(Some(expenseReport), "reportID");
    WriteRequest("SubmitReport",
      Entry("reportID", FieldOf(expenseReport, "reportID")) + Entry("managerAccountID", FieldOf(expenseReport, "managerID"))
      + Entry("reportActionID", FieldOf(submittedAction, "reportActionID")),
      OnyxData(
        SubmitOptimistic(snap, expenseReport, parentReport, submittedAction),
        [ActionPendingCleared(reportID, IdOf(Some(submittedAction), "reportActionID"))],
        SubmitFailure(snap, expenseReport, parentReport, submittedAction, clock)))
  }

  // ---------------------------------------------------------------- pay

  datatype PayMoneyRequestParams = PayMoneyRequestParams(iouReportID: string, chatReportID: string, reportActionID: string, paymentMethodType: string)

  /**
    What `getPayMoneyRequestParams` returns, with `payAmount`, the amount the PAY action is
    built with: the report total negated, 0 when the total is missing.
  */
  datatype PayMoneyRequestData = PayMoneyRequestData(params: PayMoneyRequestParams, payAmount: int, onyxData: OnyxData)

  function PayChatReportPatch(chatReport: Record, payAction: Record, clock: Clock): (u: Update)
    ensures u.Merge? && u.key == ReportKey(IdOf(Some(chatReport), "reportID"))
    ensures "hasOutstandingChildRequest" in u.patch && u.patch["hasOutstandingChildRequest"] == Bool(false)
  {
    Merge(ReportKey(IdOf(Some(chatReport), "reportID")),
      chatReport
      + map["lastReadTime" := Str(clock.dbTime)]
      + Entry("lastVisibleActionCreated", FieldOf(payAction, "created"))
      + Entry("lastMessageText", MessageField(payAction, "text"))
      + Entry("lastMessageHtml", MessageField(payAction, "html"))
      + map["hasOutstandingChildRequest" := Bool(false), "iouReportID" := Null])
  }

  function PayIOUReportPatch(iouReport: Record, payAction: Record): (u: Update)
    ensures u.Merge? && u.key == ReportKey(IdOf(Some(iouReport), "reportID"))
    ensures "statusNum" in u.patch && u.patch["statusNum"] == Num(STATUS_REIMBURSED)
  {
    Merge(ReportKey(IdOf(Some(iouReport), "reportID")),
      iouReport
      + Entry("lastMessageText", MessageField(payAction, "text"))
      + Entry("lastMessageHtml", MessageField(payAction, "html"))
      + map["hasOutstandingChildRequest" := Bool(false), "statusNum" := Num(STATUS_REIMBURSED)])
  }

  /** The preview update, present when the preview action is loaded locally. */
  function PayPreviewOptimistic(chatReport: Record, reportPreviewAction: Option<Record>): (us: seq<Update>)
    ensures forall x :: x in us ==> x.key == ReportActionsKey(IdOf(Some(chatReport), "reportID"))
  {
    if reportPreviewAction.Some? then
      [Merge(ReportActionsKey(IdOf(Some(chatReport), "reportID")),
         map[IdOf(reportPreviewAction, "reportActionID") := Obj(reportPreviewAction.value)])]
    else []
  }

  function PayPreviewFailure(chatReport: Record, reportPreviewAction: Option<Record>): (us: seq<Update>)
    ensures forall x :: x in us ==> x.key == ReportActionsKey(IdOf(Some(chatReport), "reportID"))
  {
    if reportPreviewAction.Some? then
      [Merge(ReportActionsKey(IdOf(Some(chatReport), "reportID")),
         map[IdOf(reportPreviewAction, "reportActionID") := Obj(Entry("created", FieldOf(reportPreviewAction.value, "created")))])]
    else []
  }

  function LastPaymentMethodSaved(iouReport: Record, paymentMethodType: string): Update {
    Merge(LastPaymentMethodKey, map[StrOr(iouReport, "policyID") := Str(paymentMethodType)])
  }

  function PayOptimisticBlock(chatReport: Record, iouReport: Record, paymentMethodType: string, payAction: Record, clock: Clock): (us: seq<Update>)
    ensures forall x :: x in us ==> !x.key.NextStepKey?
  {
    [ PayChatReportPatch(chatReport, payAction, clock),
      ActionAdded(IdOf(Some(iouReport), "reportID"), payAction),
      PayIOUReportPatch(iouReport, payAction),
      LastPaymentMethodSaved(iouReport, paymentMethodType)]
  }

  function PayOptimistic(snap: Snapshot, chatReport: Record, iouReport: Record, paymentMethodType: string,
                         payAction: Record, reportPreviewAction: Option<Record>, clock: Clock): seq<Update> {
    PayOptimisticBlock(chatReport, iouReport, paymentMethodType, payAction, clock)
    + NextStepOptimistic(snap, IdOf(Some(iouReport), "reportID"))
    + PayPreviewOptimistic(chatReport, reportPreviewAction)
  }

  function PayActionFailed(iouReport: Record, payAction: Record, clock: Clock): Update {
    ActionFailed(IdOf(Some(iouReport), "reportID"), IdOf(Some(payAction), "reportActionID"), clock)
  }

  function ReportMergedBack(report: Record): Update {
    Merge(ReportKey(IdOf(Some(report), "reportID")), report)
  }

  /** The failure list merges the two reports back as they were before the payment. */
  function PayFailure(snap: Snapshot, chatReport: Record, iouReport: Record, payAction: Record,
                      reportPreviewAction: Option<Record>, clock: Clock): seq<Update> {
    [PayActionFailed(iouReport, payAction, clock), ReportMergedBack(iouReport), ReportMergedBack(chatReport)]
    + NextStepFailure(snap, IdOf(Some(iouReport), "reportID"))
    + PayPreviewFailure(chatReport, reportPreviewAction)
  }

  /**
    `payAction` is the PAY action `ReportUtils.buildOptimisticIOUReportAction` builds;
    `reportPreviewAction` is `ReportUtils.updateReportPreview(...)` when the chat's preview
    action is loaded, `None` otherwise.
  */
  function GetPayMoneyRequestParams(snap: Snapshot, chatReport: Record, iouReport: Record, paymentMethodType: string,
                                    payAction: Record, reportPreviewAction: Option<Record>, clock: Clock): PayMoneyRequestData
  {
    var iouID := IdOf(Some(iouReport), "reportID");
    var actionID := IdOf(Some(payAction), "reportActionID");
    var total := NumberOf(iouReport, "total");
    PayMoneyRequestData(
      PayMoneyRequestParams(iouID, IdOf(Some(chatReport), "reportID"), actionID, paymentMethodType),
      -(if total.Some? then total.value else 0),
      OnyxData(
        PayOptimistic(snap, chatReport, iouReport, paymentMethodType, payAction, reportPreviewAction, clock),
        [ActionPendingCleared(iouID, actionID)],
        PayFailure(snap, chatReport, iouReport, payAction, reportPreviewAction, clock)))
  }

  // ---------------------------------------------------------------- cancel payment

  /** `policy && policy.type === CONST.POLICY.TYPE.FREE` */
  predicate IsFreePolicy(policy: Option<Record>) {
    policy.Some? && FieldOf(policy.value, "type") == Some(Str(POLICY_TYPE_FREE))
  }

  function CancelReportPatch(expenseReport: Record, policy: Option<Record>, cancelAction: Record): (u: Update)
    ensures u.Merge? && u.key == ReportKey(IdOf(Some(expenseReport), "reportID"))
    ensures "stateNum" in u.patch && u.patch["stateNum"] == Num(if IsFreePolicy(policy) then STATE_SUBMITTED else STATE_OPEN)
    ensures "statusNum" in u.patch && u.patch["statusNum"] == Num(if IsFreePolicy(policy) then STATUS_SUBMITTED else STATUS_OPEN)
  {
    var back := if IsFreePolicy(policy) then STATUS_SUBMITTED else STATUS_OPEN;
    Merge(ReportKey(IdOf(Some(expenseReport), "reportID")),
      expenseReport + map[
        "lastMessageText" := OrEmpty(MessageField(cancelAction, "text")),
        "lastMessageHtml" := OrEmpty(MessageField(cancelAction, "html")),
        "stateNum" := Num(if IsFreePolicy(policy) then STATE_SUBMITTED else STATE_OPEN),
        "statusNum" := Num(back)])
  }

  function CancelFailurePatch(expenseReport: Record): (u: Update)
    ensures u.Merge? && u.key == ReportKey(IdOf(Some(expenseReport), "reportID"))
    ensures "statusNum" in u.patch && u.patch["statusNum"] == Num(STATUS_REIMBURSED) && "stateNum" !in u.patch
  {
    Merge(ReportKey(IdOf(Some(expenseReport), "reportID")), map["statusNum" := Num(STATUS_REIMBURSED)])
  }

  function CancelOptimistic(expenseReport: Record, chatReport: Option<Record>, policy: Option<Record>, cancelAction: Record): seq<Update> {
    [ActionAdded(IdOf(Some(expenseReport), "reportID"), cancelAction), CancelReportPatch(expenseReport, policy, cancelAction)]
    + CancelChatUpdated(expenseReport, chatReport)
  }

  /** The chat shows the outstanding request again. */
  function CancelChatUpdated(expenseReport: Record, chatReport: Option<Record>): (us: seq<Update>)
    ensures forall x :: x in us ==> x.key == ReportKey(IdOf(chatReport, "reportID"))
  {
    if HasReportID(chatReport) then
      [Merge(ReportKey(IdOf(chatReport, "reportID")),
         chatReport.value + map["hasOutstandingIOU" := Bool(true), "hasOutstandingChildRequest" := Bool(true)]
         + Entry("iouReportID", FieldOf(expenseReport, "reportID")))]
    else []
  }

  function CancelChatRestored(chatReport: Option<Record>): (us: seq<Update>)
    ensures forall x :: x in us ==> x.key == ReportKey(IdOf(chatReport, "reportID"))
  {
    if HasReportID(chatReport) then
      [Merge(ReportKey(IdOf(chatReport, "reportID")),
         map["hasOutstandingIOU" := Bool(false), "hasOutstandingChildRequest" := Bool(false), "iouReportID" := Str("0")])]
    else []
  }

  function CancelFailure(expenseReport: Record, chatReport: Option<Record>, clock: Clock): seq<Update> {
    [ActionFailed(IdOf(Some(expenseReport), "reportID"), StrOr(expenseReport, "reportActionID"), clock), CancelFailurePatch(expenseReport)]
    + CancelChatRestored(chatReport)
  }

  /**
    `policy` is `ReportUtils.getPolicy(chatReport?.policyID)`;
    `cancelAction` is `ReportUtils.buildOptimisticCancelPaymentReportAction(...)`.
  */
  function CancelPayment(expenseReport: Record, chatReport: Option<Record>, policy: Option<Record>, cancelAction: Record, clock: Clock): WriteRequest {
    WriteRequest("CancelPayment",
      Entry("iouReportID", FieldOf(expenseReport, "reportID"))
      + Entry("chatReportID", OptFieldOf(chatReport, "reportID"))
      + Entry("managerAccountID", FieldOf(expenseReport, "managerID"))
      + Entry("reportActionID", FieldOf(cancelAction, "reportActionID")),
      OnyxData(
        CancelOptimistic(expenseReport, chatReport, policy, cancelAction),
        [ActionPendingCleared(IdOf(Some(expenseReport), "reportID"), IdOf(Some(cancelAction), "reportActionID"))],
        CancelFailure(expenseReport, chatReport, clock)))
  }

  // ---------------------------------------------------------------- the status each operation leaves

  /** Approving moves the report to APPROVED. */
  lemma ApproveOptimisticApproves(s: StoreState, snap: Snapshot, expenseReport: Record, approvedAction: Record)
    ensures var opt := ApplyAll(s, ApproveOptimistic(snap, expenseReport, approvedAction));
            var k := ReportKey(IdOf(Some(expenseReport), "reportID"));
            FieldAt(opt, k, "statusNum") == Some(Num(STATUS_APPROVED)) && FieldAt(opt, k, "stateNum") == Some(Num(STATE_APPROVED))
  {
    var u := ApproveReportPatch(expenseReport, approvedAction);
    var id := IdOf(Some(expenseReport), "reportID");
    Sole2(u, ActionAdded(id, approvedAction), u);
    SoleUpdateConcat([u, ActionAdded(id, approvedAction)], NextStepOptimistic(snap, id), u);
    MergeFieldsLand(s, ApproveOptimistic(snap, expenseReport, approvedAction), u, "statusNum", "stateNum");
  }

  lemma ApproveMovesToApproved(s: StoreState, snap: Snapshot, expenseReport: Record, approvedAction: Record, clock: Clock)
    ensures var opt := ApplyAll(s, ApproveMoneyRequest(snap, expenseReport, approvedAction, clock).onyxData.optimisticData);
            var k := ReportKey(IdOf(Some(expenseReport), "reportID"));
            FieldAt(opt, k, "statusNum") == Some(Num(STATUS_APPROVED)) && FieldAt(opt, k, "stateNum") == Some(Num(STATE_APPROVED))
  {
    ApproveOptimisticApproves(s, snap, expenseReport, approvedAction);
  }

  /** The failure data of an approval never names the report itself. */
  lemma ApproveFailureLeavesReport(t: StoreState, snap: Snapshot, expenseReport: Record, clock: Clock)
    ensures var k := ReportKey(IdOf(Some(expenseReport), "reportID"));
            Lookup(ApplyAll(t, ApproveFailure(snap, expenseReport, clock)), k) == Lookup(t, k)
  {
    var id := IdOf(Some(expenseReport), "reportID");
    NoUpdateConcat([ActionFailed(id, StrOr(expenseReport, "reportActionID"), clock)], NextStepFailure(snap, id), ReportKey(id));
    Untouched(t, ApproveFailure(snap, expenseReport, clock), ReportKey(id));
  }

  lemma ApproveFailureKeepsApproved(s: StoreState, snap: Snapshot, expenseReport: Record, approvedAction: Record, clock: Clock)
    ensures var after := AfterFailure(s, ApproveMoneyRequest(snap, expenseReport, approvedAction, clock).onyxData);
            var k := ReportKey(IdOf(Some(expenseReport), "reportID"));
            FieldAt(after, k, "statusNum") == Some(Num(STATUS_APPROVED)) && FieldAt(after, k, "stateNum") == Some(Num(STATE_APPROVED))
  {
    ApproveOptimisticApproves(s, snap, expenseReport, approvedAction);
    ApproveFailureLeavesReport(ApplyAll(s, ApproveOptimistic(snap, expenseReport, approvedAction)), snap, expenseReport, clock);
  }

  /** Submitting moves the report to SUBMITTED. */
  lemma SubmitMovesToSubmitted(s: StoreState, snap: Snapshot, expenseReport: Record, parentReport: Option<Record>,
                               submittedAction: Record, clock: Clock)
    requires parentReport.Some? ==> IdOf(parentReport, "reportID") != IdOf(Some(expenseReport), "reportID")
    ensures var opt := ApplyAll(s, SubmitReport(snap, expenseReport, parentReport, submittedAction, clock).onyxData.optimisticData);
            var k := ReportKey(IdOf(Some(expenseReport), "reportID"));
            FieldAt(opt, k, "statusNum") == Some(Num(STATUS_SUBMITTED)) && FieldAt(opt, k, "stateNum") == Some(Num(STATE_SUBMITTED))
  {
    var id := IdOf(Some(expenseReport), "reportID");
    var u := SubmitReportPatch(expenseReport, submittedAction);
    Sole2(ActionAdded(id, submittedAction), u, u);
    SoleInFront([ActionAdded(id, submittedAction), u], SubmitParentUpdated(snap, expenseReport, parentReport), NextStepOptimistic(snap, id), u);
    MergeFieldsLand(s, SubmitOptimistic(snap, expenseReport, parentReport, submittedAction), u, "statusNum", "stateNum");
  }

  /** The submission's failure list moves the report back to OPEN. */
  lemma SubmitFailureReopens(s: StoreState, snap: Snapshot, expenseReport: Record, parentReport: Option<Record>,
                             submittedAction: Record, clock: Clock)
    requires parentReport.Some? ==> IdOf(parentReport, "reportID") != IdOf(Some(expenseReport), "reportID")
    ensures var after := AfterFailure(s, SubmitReport(snap, expenseReport, parentReport, submittedAction, clock).onyxData);
            var k := ReportKey(IdOf(Some(expenseReport), "reportID"));
            FieldAt(after, k, "statusNum") == Some(Num(STATUS_OPEN)) && FieldAt(after, k, "stateNum") == Some(Num(STATE_OPEN))
  {
    var id := IdOf(Some(expenseReport), "reportID");
    var opt := ApplyAll(s, SubmitOptimistic(snap, expenseReport, parentReport, submittedAction));
    var v := SubmitReopenPatch(expenseReport);
    var failed := ActionFailed(id, IdOf(Some(submittedAction), "reportActionID"), clock);
    Sole2(failed, v, v);
    SoleInFront([failed, v], SubmitParentRestored(expenseReport, parentReport), NextStepFailure(snap, id), v);
    MergeFieldsLand(opt, SubmitFailure(snap, expenseReport, parentReport, submittedAction, clock), v, "statusNum", "stateNum");
  }

  lemma PayTailsMiss(snap: Snapshot, chatReport: Record, iouReport: Record, reportPreviewAction: Option<Record>, id: string)
    ensures NoUpdate(NextStepOptimistic(snap, IdOf(Some(iouReport), "reportID")), ReportKey(id))
    ensures NoUpdate(NextStepFailure(snap, IdOf(Some(iouReport), "reportID")), ReportKey(id))
    ensures NoUpdate(PayPreviewOptimistic(chatReport, reportPreviewAction), ReportKey(id))
    ensures NoUpdate(PayPreviewFailure(chatReport, reportPreviewAction), ReportKey(id))
  {
  }

  lemma PayOptimisticWritesIOUReportOnce(snap: Snapshot, chatReport: Record, iouReport: Record, paymentMethodType: string,
                                         payAction: Record, reportPreviewAction: Option<Record>, clock: Clock)
    requires IdOf(Some(chatReport), "reportID") != IdOf(Some(iouReport), "reportID")
    ensures SoleUpdate(PayOptimistic(snap, chatReport, iouReport, paymentMethodType, payAction, reportPreviewAction, clock),
                       PayIOUReportPatch(iouReport, payAction))
  {
    var u := PayIOUReportPatch(iouReport, payAction);
    Sole4(PayChatReportPatch(chatReport, payAction, clock), ActionAdded(IdOf(Some(iouReport), "reportID"), payAction), u,
          LastPaymentMethodSaved(iouReport, paymentMethodType), u);
    PayTailsMiss(snap, chatReport, iouReport, reportPreviewAction, IdOf(Some(iouReport), "reportID"));
    SoleInFront(PayOptimisticBlock(chatReport, iouReport, paymentMethodType, payAction, clock),
                NextStepOptimistic(snap, IdOf(Some(iouReport), "reportID")), PayPreviewOptimistic(chatReport, reportPreviewAction), u);
  }

  lemma PayOptimisticWritesChatReportOnce(snap: Snapshot, chatReport: Record, iouReport: Record, paymentMethodType: string,
                                          payAction: Record, reportPreviewAction: Option<Record>, clock: Clock)
    requires IdOf(Some(chatReport), "reportID") != IdOf(Some(iouReport), "reportID")
    ensures SoleUpdate(PayOptimistic(snap, chatReport, iouReport, paymentMethodType, payAction, reportPreviewAction, clock),
                       PayChatReportPatch(chatReport, payAction, clock))
  {
    var u := PayChatReportPatch(chatReport, payAction, clock);
    Sole4(u, ActionAdded(IdOf(Some(iouReport), "reportID"), payAction), PayIOUReportPatch(iouReport, payAction),
          LastPaymentMethodSaved(iouReport, paymentMethodType), u);
    PayTailsMiss(snap, chatReport, iouReport, reportPreviewAction, IdOf(Some(chatReport), "reportID"));
    SoleInFront(PayOptimisticBlock(chatReport, iouReport, paymentMethodType, payAction, clock),
                NextStepOptimistic(snap, IdOf(Some(iouReport), "reportID")), PayPreviewOptimistic(chatReport, reportPreviewAction), u);
  }

  lemma PayFailureMergesIOUReportBack(snap: Snapshot, chatReport: Record, iouReport: Record,
                                      payAction: Record, reportPreviewAction: Option<Record>, clock: Clock)
    requires IdOf(Some(chatReport), "reportID") != IdOf(Some(iouReport), "reportID")
    ensures SoleUpdate(PayFailure(snap, chatReport, iouReport, payAction, reportPreviewAction, clock), ReportMergedBack(iouReport))
  {
    var u := ReportMergedBack(iouReport);
    Sole3(PayActionFailed(iouReport, payAction, clock), ReportMergedBack(iouReport), ReportMergedBack(chatReport), u);
    PayTailsMiss(snap, chatReport, iouReport, reportPreviewAction, IdOf(Some(iouReport), "reportID"));
    SoleInFront([PayActionFailed(iouReport, payAction, clock), ReportMergedBack(iouReport), ReportMergedBack(chatReport)],
                NextStepFailure(snap, IdOf(Some(iouReport), "reportID")), PayPreviewFailure(chatReport, reportPreviewAction), u);
  }

  lemma PayFailureMergesChatReportBack(snap: Snapshot, chatReport: Record, iouReport: Record,
                                      payAction: Record, reportPreviewAction: Option<Record>, clock: Clock)
    requires IdOf(Some(chatReport), "reportID") != IdOf(Some(iouReport), "reportID")
    ensures SoleUpdate(PayFailure(snap, chatReport, iouReport, payAction, reportPreviewAction, clock), ReportMergedBack(chatReport))
  {
    var u := ReportMergedBack(chatReport);
    Sole3(PayActionFailed(iouReport, payAction, clock), ReportMergedBack(iouReport), ReportMergedBack(chatReport), u);
    PayTailsMiss(snap, chatReport, iouReport, reportPreviewAction, IdOf(Some(chatReport), "reportID"));
    SoleInFront([PayActionFailed(iouReport, payAction, clock), ReportMergedBack(iouReport), ReportMergedBack(chatReport)],
                NextStepFailure(snap, IdOf(Some(iouReport), "reportID")), PayPreviewFailure(chatReport, reportPreviewAction), u);
  }

  /** Paying moves the IOU report to REIMBURSED. */
  lemma PayOptimisticReimburses(s: StoreState, snap: Snapshot, chatReport: Record, iouReport: Record, paymentMethodType: string,
                                payAction: Record, reportPreviewAction: Option<Record>, clock: Clock)
    requires IdOf(Some(chatReport), "reportID") != IdOf(Some(iouReport), "reportID")
    ensures FieldAt(ApplyAll(s, PayOptimistic(snap, chatReport, iouReport, paymentMethodType, payAction, reportPreviewAction, clock)),
                    ReportKey(IdOf(Some(iouReport), "reportID")), "statusNum") == Some(Num(STATUS_REIMBURSED))
  {
    var r := PayIOUReportPatch(iouReport, payAction);
    PayOptimisticWritesIOUReportOnce(snap, chatReport, iouReport, paymentMethodType, payAction, reportPreviewAction, clock);
    MergeFieldLands(s, PayOptimistic(snap, chatReport, iouReport, paymentMethodType, payAction, reportPreviewAction, clock), r.key, r.patch, "statusNum");
  }

  /** ...and clears the chat's outstanding-request flag. */
  lemma PayOptimisticClearsOutstanding(s: StoreState, snap: Snapshot, chatReport: Record, iouReport: Record, paymentMethodType: string,
                                       payAction: Record, reportPreviewAction: Option<Record>, clock: Clock)
    requires IdOf(Some(chatReport), "reportID") != IdOf(Some(iouReport), "reportID")
    ensures FieldAt(ApplyAll(s, PayOptimistic(snap, chatReport, iouReport, paymentMethodType, payAction, reportPreviewAction, clock)),
                    ReportKey(IdOf(Some(chatReport), "reportID")), "hasOutstandingChildRequest") == Some(Bool(false))
  {
    var c := PayChatReportPatch(chatReport, payAction, clock);
    PayOptimisticWritesChatReportOnce(snap, chatReport, iouReport, paymentMethodType, payAction, reportPreviewAction, clock);
    MergeFieldLands(s, PayOptimistic(snap, chatReport, iouReport, paymentMethodType, payAction, reportPreviewAction, clock),
                    c.key, c.patch, "hasOutstandingChildRequest");
  }

  /** Paying moves the IOU report to REIMBURSED and clears the chat's outstanding-request flag. */
  lemma PayMovesToReimbursed(s: StoreState, snap: Snapshot, chatReport: Record, iouReport: Record, paymentMethodType: string,
                             payAction: Record, reportPreviewAction: Option<Record>, clock: Clock)
    requires IdOf(Some(chatReport), "reportID") != IdOf(Some(iouReport), "reportID")
    ensures var d := GetPayMoneyRequestParams(snap, chatReport, iouReport, paymentMethodType, payAction, reportPreviewAction, clock).onyxData;
            var opt := ApplyAll(s, d.optimisticData);
            FieldAt(opt, ReportKey(IdOf(Some(iouReport), "reportID")), "statusNum") == Some(Num(STATUS_REIMBURSED))
            && FieldAt(opt, ReportKey(IdOf(Some(chatReport), "reportID")), "hasOutstandingChildRequest") == Some(Bool(false))
  {
    PayOptimisticReimburses(s, snap, chatReport, iouReport, paymentMethodType, payAction, reportPreviewAction, clock);
    PayOptimisticClearsOutstanding(s, snap, chatReport, iouReport, paymentMethodType, payAction, reportPreviewAction, clock);
  }

  /** A report merged back by the only update of its key holds every field it had. */
  lemma MergedBackHolds(s: StoreState, us: seq<Update>, report: Record)
    requires SoleUpdate(us, ReportMergedBack(report)) && NullFree(report)
    ensures forall f :: f in report ==> FieldAt(ApplyAll(s, us), ReportKey(IdOf(Some(report), "reportID")), f) == Some(report[f])
  {
    SoleWriter(s, us, ReportMergedBack(report));
    MergeBackRestores(Base(Lookup(s, ReportKey(IdOf(Some(report), "reportID")))), report);
  }

  /** The payment's failure list merges both reports back, restoring every field they held. */
  lemma PayFailureRestoresReports(s: StoreState, snap: Snapshot, chatReport: Record, iouReport: Record, paymentMethodType: string,
                                  payAction: Record, reportPreviewAction: Option<Record>, clock: Clock)
    requires IdOf(Some(chatReport), "reportID") != IdOf(Some(iouReport), "reportID")
    requires NullFree(chatReport) && NullFree(iouReport)
    ensures var d := GetPayMoneyRequestParams(snap, chatReport, iouReport, paymentMethodType, payAction, reportPreviewAction, clock).onyxData;
            var after := AfterFailure(s, d);
            (forall f :: f in iouReport ==> FieldAt(after, ReportKey(IdOf(Some(iouReport), "reportID")), f) == Some(iouReport[f]))
            && (forall f :: f in chatReport ==> FieldAt(after, ReportKey(IdOf(Some(chatReport), "reportID")), f) == Some(chatReport[f]))
  {
    var opt := ApplyAll(s, PayOptimistic(snap, chatReport, iouReport, paymentMethodType, payAction, reportPreviewAction, clock));
    var fail := PayFailure(snap, chatReport, iouReport, payAction, reportPreviewAction, clock);
    PayFailureMergesIOUReportBack(snap, chatReport, iouReport, payAction, reportPreviewAction, clock);
    MergedBackHolds(opt, fail, iouReport);
    PayFailureMergesChatReportBack(snap, chatReport, iouReport, payAction, reportPreviewAction, clock);
    MergedBackHolds(opt, fail, chatReport);
  }

  lemma CancelOptimisticReopens(s: StoreState, expenseReport: Record, chatReport: Option<Record>, policy: Option<Record>, cancelAction: Record)
    requires chatReport.Some? ==> IdOf(chatReport, "reportID") != IdOf(Some(expenseReport), "reportID")
    ensures var opt := ApplyAll(s, CancelOptimistic(expenseReport, chatReport, policy, cancelAction));
            var k := ReportKey(IdOf(Some(expenseReport), "reportID"));
            FieldAt(opt, k, "statusNum") == Some(Num(if IsFreePolicy(policy) then STATUS_SUBMITTED else STATUS_OPEN))
            && FieldAt(opt, k, "stateNum") == Some(Num(if IsFreePolicy(policy) then STATE_SUBMITTED else STATE_OPEN))
  {
    var u := CancelReportPatch(expenseReport, policy, cancelAction);
    var added := ActionAdded(IdOf(Some(expenseReport), "reportID"), cancelAction);
    Sole2(added, u, u);
    SoleUpdateConcat([added, u], CancelChatUpdated(expenseReport, chatReport), u);
    MergeFieldsLand(s, CancelOptimistic(expenseReport, chatReport, policy, cancelAction), u, "statusNum", "stateNum");
  }

  /** Cancelling a payment moves the report to SUBMITTED on a free policy and to OPEN otherwise. */
  lemma CancelPaymentReopens(s: StoreState, expenseReport: Record, chatReport: Option<Record>, policy: Option<Record>,
                             cancelAction: Record, clock: Clock)
    requires chatReport.Some? ==> IdOf(chatReport, "reportID") != IdOf(Some(expenseReport), "reportID")
    ensures var opt := ApplyAll(s, CancelPayment(expenseReport, chatReport, policy, cancelAction, clock).onyxData.optimisticData);
            var k := ReportKey(IdOf(Some(expenseReport), "reportID"));
            FieldAt(opt, k, "statusNum") == Some(Num(if IsFreePolicy(policy) then STATUS_SUBMITTED else STATUS_OPEN))
            && FieldAt(opt, k, "stateNum") == Some(Num(if IsFreePolicy(policy) then STATE_SUBMITTED else STATE_OPEN))
  {
    CancelOptimisticReopens(s, expenseReport, chatReport, policy, cancelAction);
  }

  lemma CancelFailureWritesReportOnce(expenseReport: Record, chatReport: Option<Record>, clock: Clock)
    requires chatReport.Some? ==> IdOf(chatReport, "reportID") != IdOf(Some(expenseReport), "reportID")
    ensures SoleUpdate(CancelFailure(expenseReport, chatReport, clock), CancelFailurePatch(expenseReport))
  {
    var v := CancelFailurePatch(expenseReport);
    var failed := ActionFailed(IdOf(Some(expenseReport), "reportID"), StrOr(expenseReport, "reportActionID"), clock);
    Sole2(failed, v, v);
    SoleUpdateConcat([failed, v], CancelChatRestored(chatReport), v);
  }

  lemma CancelFailureRestoresStatusInLists(s: StoreState, expenseReport: Record, chatReport: Option<Record>, policy: Option<Record>,
                                           cancelAction: Record, clock: Clock)
    requires chatReport.Some? ==> IdOf(chatReport, "reportID") != IdOf(Some(expenseReport), "reportID")
    ensures var opt := ApplyAll(s, CancelOptimistic(expenseReport, chatReport, policy, cancelAction));
            var after := ApplyAll(opt, CancelFailure(expenseReport, chatReport, clock));
            var k := ReportKey(IdOf(Some(expenseReport), "reportID"));
            FieldAt(after, k, "statusNum") == Some(Num(STATUS_REIMBURSED))
            && FieldAt(after, k, "stateNum") == FieldAt(opt, k, "stateNum")
  {
    var opt := ApplyAll(s, CancelOptimistic(expenseReport, chatReport, policy, cancelAction));
    var us := CancelFailure(expenseReport, chatReport, clock);
    var v := CancelFailurePatch(expenseReport);
    CancelFailureWritesReportOnce(expenseReport, chatReport, clock);
    MergeFieldLands(opt, us, v.key, v.patch, "statusNum");
    MergeKeepsOtherField(opt, us, v.key, v.patch, "stateNum");
  }

  /**
    The cancellation's failure list sets the status back to REIMBURSED but leaves the state where
    the optimistic list put it.
  */
  lemma CancelPaymentFailureRestoresStatusOnly(s: StoreState, expenseReport: Record, chatReport: Option<Record>, policy: Option<Record>,
                                               cancelAction: Record, clock: Clock)
    requires chatReport.Some? ==> IdOf(chatReport, "reportID") != IdOf(Some(expenseReport), "reportID")
    ensures var after := AfterFailure(s, CancelPayment(expenseReport, chatReport, policy, cancelAction, clock).onyxData);
            var k := ReportKey(IdOf(Some(expenseReport), "reportID"));
            FieldAt(after, k, "statusNum") == Some(Num(STATUS_REIMBURSED))
            && FieldAt(after, k, "stateNum") == Some(Num(if IsFreePolicy(policy) then STATE_SUBMITTED else STATE_OPEN))
  {
    CancelOptimisticReopens(s, expenseReport, chatReport, policy, cancelAction);
    CancelFailureRestoresStatusInLists(s, expenseReport, chatReport, policy, cancelAction, clock);
  }

  // ---------------------------------------------------------------- next steps restored

  /**
    With a cached next step, the optimistic list deletes it and the failure list merges it back;
    without one, neither list touches the key. Either way optimistic-then-failure leaves the key
    as it was, provided the store held what the cache saw.
  */
  lemma {:induction false} NextStepRestored(s: StoreState, snap: Snapshot, reportID: string, opt: seq<Update>, fail: seq<Update>)
    requires WellFormed(s) && Holds(s, NextStepKey(reportID), NextStepOf(snap, reportID))
    requires forall u :: u in NextStepOptimistic(snap, reportID) ==> u in opt
    requires forall u :: u in opt && u.key == NextStepKey(reportID) ==> u in NextStepOptimistic(snap, reportID)
    requires forall u :: u in NextStepFailure(snap, reportID) ==> u in fail
    requires forall u :: u in fail && u.key == NextStepKey(reportID) ==> u in NextStepFailure(snap, reportID)
    ensures NextStepKey(reportID) !in ApplyAll(s, opt)
    ensures Holds(ApplyAll(ApplyAll(s, opt), fail), NextStepKey(reportID), NextStepOf(snap, reportID))
  {
    var k := NextStepKey(reportID);
    var prev := NextStepOf(snap, reportID);
    if prev.Some? {
      SoleWriter(s, opt, Set(k, Null));
      SoleWriter(ApplyAll(s, opt), fail, Merge(k, prev.value));
      assert StoredValue(s[k]);
      MergeBackRestores(map[], prev.value);
    } else {
      Untouched(s, opt, k);
      Untouched(ApplyAll(s, opt), fail, k);
    }
  }

  lemma ApproveRestoresNextStep(s: StoreState, snap: Snapshot, expenseReport: Record, approvedAction: Record, clock: Clock)
    requires WellFormed(s)
    requires Holds(s, NextStepKey(IdOf(Some(expenseReport), "reportID")), NextStepOf(snap, IdOf(Some(expenseReport), "reportID")))
    ensures var d := ApproveMoneyRequest(snap, expenseReport, approvedAction, clock).onyxData;
            var id := IdOf(Some(expenseReport), "reportID");
            NextStepKey(id) !in ApplyAll(s, d.optimisticData)
            && Holds(AfterFailure(s, d), NextStepKey(id), NextStepOf(snap, id))
  {
    NextStepRestored(s, snap, IdOf(Some(expenseReport), "reportID"),
      ApproveOptimistic(snap, expenseReport, approvedAction), ApproveFailure(snap, expenseReport, clock));
  }

  lemma SubmitRestoresNextStep(s: StoreState, snap: Snapshot, expenseReport: Record, parentReport: Option<Record>,
                               submittedAction: Record, clock: Clock)
    requires WellFormed(s)
    requires Holds(s, NextStepKey(IdOf(Some(expenseReport), "reportID")), NextStepOf(snap, IdOf(Some(expenseReport), "reportID")))
    ensures var d := SubmitReport(snap, expenseReport, parentReport, submittedAction, clock).onyxData;
            var id := IdOf(Some(expenseReport), "reportID");
            NextStepKey(id) !in ApplyAll(s, d.optimisticData)
            && Holds(AfterFailure(s, d), NextStepKey(id), NextStepOf(snap, id))
  {
    SubmitOptimisticNextStepWrites(snap, expenseReport, parentReport, submittedAction);
    SubmitFailureNextStepWrites(snap, expenseReport, parentReport, submittedAction, clock);
    NextStepRestored(s, snap, IdOf(Some(expenseReport), "reportID"),
      SubmitOptimistic(snap, expenseReport, parentReport, submittedAction),
      SubmitFailure(snap, expenseReport, parentReport, submittedAction, clock));
  }

  lemma SubmitOptimisticNextStepWrites(snap: Snapshot, expenseReport: Record, parentReport: Option<Record>, submittedAction: Record)
    ensures var id := IdOf(Some(expenseReport), "reportID");
            var opt := SubmitOptimistic(snap, expenseReport, parentReport, submittedAction);
            (forall u :: u in NextStepOptimistic(snap, id) ==> u in opt)
            && (forall u :: u in opt && u.key == NextStepKey(id) ==> u in NextStepOptimistic(snap, id))
  {
    var id := IdOf(Some(expenseReport), "reportID");
    var parent := SubmitParentUpdated(snap, expenseReport, parentReport);
    var head := [ActionAdded(id, submittedAction), SubmitReportPatch(expenseReport, submittedAction)] + parent;
    assert NoUpdate(parent, NextStepKey(id));
    NoUpdateConcat([ActionAdded(id, submittedAction), SubmitReportPatch(expenseReport, submittedAction)], parent, NextStepKey(id));
    OnlyAtEnd(head, NextStepOptimistic(snap, id), NextStepKey(id));
  }

  lemma SubmitFailureNextStepWrites(snap: Snapshot, expenseReport: Record, parentReport: Option<Record>, submittedAction: Record, clock: Clock)
    ensures var id := IdOf(Some(expenseReport), "reportID");
            var fail := SubmitFailure(snap, expenseReport, parentReport, submittedAction, clock);
            (forall u :: u in NextStepFailure(snap, id) ==> u in fail)
            && (forall u :: u in fail && u.key == NextStepKey(id) ==> u in NextStepFailure(snap, id))
  {
    var id := IdOf(Some(expenseReport), "reportID");
    var parent := SubmitParentRestored(expenseReport, parentReport);
    var front := [ActionFailed(id, IdOf(Some(submittedAction), "reportActionID"), clock), SubmitReopenPatch(expenseReport)];
    assert NoUpdate(parent, NextStepKey(id));
    NoUpdateConcat(front, parent, NextStepKey(id));
    OnlyAtEnd(front + parent, NextStepFailure(snap, id), NextStepKey(id));
  }


  lemma PayRestoresNextStep(s: StoreState, snap: Snapshot, chatReport: Record, iouReport: Record, paymentMethodType: string,
                            payAction: Record, reportPreviewAction: Option<Record>, clock: Clock)
    requires WellFormed(s)
    requires Holds(s, NextStepKey(IdOf(Some(iouReport), "reportID")), NextStepOf(snap, IdOf(Some(iouReport), "reportID")))
    ensures var d := GetPayMoneyRequestParams(snap, chatReport, iouReport, paymentMethodType, payAction, reportPreviewAction, clock).onyxData;
            var id := IdOf(Some(iouReport), "reportID");
            NextStepKey(id) !in ApplyAll(s, d.optimisticData)
            && Holds(AfterFailure(s, d), NextStepKey(id), NextStepOf(snap, id))
  {
    var id := IdOf(Some(iouReport), "reportID");
    var opt := PayOptimistic(snap, chatReport, iouReport, paymentMethodType, payAction, reportPreviewAction, clock);
    var fail := PayFailure(snap, chatReport, iouReport, payAction, reportPreviewAction, clock);
    PayOptimisticNextStepWrites(snap, chatReport, iouReport, paymentMethodType, payAction, reportPreviewAction, clock);
    PayFailureNextStepWrites(snap, chatReport, iouReport, payAction, reportPreviewAction, clock);
    NextStepRestored(s, snap, id, opt, fail);
  }

  lemma PayOptimisticNextStepWrites(snap: Snapshot, chatReport: Record, iouReport: Record, paymentMethodType: string,
                                    payAction: Record, reportPreviewAction: Option<Record>, clock: Clock)
    ensures var id := IdOf(Some(iouReport), "reportID");
            var opt := PayOptimistic(snap, chatReport, iouReport, paymentMethodType, payAction, reportPreviewAction, clock);
            (forall u :: u in NextStepOptimistic(snap, id) ==> u in opt)
            && (forall u :: u in opt && u.key == NextStepKey(id) ==> u in NextStepOptimistic(snap, id))
  {
    var id := IdOf(Some(iouReport), "reportID");
    var block := PayOptimisticBlock(chatReport, iouReport, paymentMethodType, payAction, clock);
    OnlyInMiddle(block, NextStepOptimistic(snap, id), PayPreviewOptimistic(chatReport, reportPreviewAction), NextStepKey(id));
  }

  lemma PayFailureNextStepWrites(snap: Snapshot, chatReport: Record, iouReport: Record,
                                 payAction: Record, reportPreviewAction: Option<Record>, clock: Clock)
    ensures var id := IdOf(Some(iouReport), "reportID");
            var fail := PayFailure(snap, chatReport, iouReport, payAction, reportPreviewAction, clock);
            (forall u :: u in NextStepFailure(snap, id) ==> u in fail)
            && (forall u :: u in fail && u.key == NextStepKey(id) ==> u in NextStepFailure(snap, id))
  {
    var id := IdOf(Some(iouReport), "reportID");
    var block := [PayActionFailed(iouReport, payAction, clock), ReportMergedBack(iouReport), ReportMergedBack(chatReport)];
    None3(block[0], block[1], block[2], NextStepKey(id));
    OnlyInMiddle(block, NextStepFailure(snap, id), PayPreviewFailure(chatReport, reportPreviewAction), NextStepKey(id));
  }
}
