/**
  Deleting a money request (`deleteMoneyRequest`): the decisions about the transaction thread,
  the IOU report and the preview action, and the three lists built from them.
*/
module IouDelete {
  import opened Wrappers
  import opened Onyx
  import opened IouData

  /**
    What the helpers this model does not contain return for one deletion: ReportActionsUtils
    (the preview action, the last visible action and message), TransactionUtils.getAmount with
    the expense-report sign, IOUUtils.updateIOUOwnerAndTotal and the translated preview text.
  */
  datatype DeleteContext = DeleteContext(
    reportPreviewAction: Option<Record>,
    lastVisibleAction: Option<Record>,
    iouReportLastMessageText: string,
    lastVisibleIsDeletedParent: bool,
    expenseAmount: int,
    updatedIOUOwnerAndTotal: Option<Record>,
    previewMessageText: string,
    chatLastMessageText: Option<Value>,
    chatLastVisibleActionCreated: Option<Value>)

  // ---------------------------------------------------------------- what is being deleted

  /** `reportAction.originalMessage.IOUReportID` for an IOU action, `''` otherwise. */
  function IOUReportIDOf(reportAction: Record): string {
    if FieldOf(reportAction, "actionName") == Some(Str(ACTION_TYPE_IOU)) then
      var m := FieldOf(reportAction, "originalMessage");
      IdOf(if m.Some? && m.value.Obj? then Some(m.value.fields) else None, "IOUReportID")
    else ""
  }

  function IOUReportOf(snap: Snapshot, reportAction: Record): Option<Record> {
    ReportOf(snap, IOUReportIDOf(reportAction))
  }

  function ChatReportOf(snap: Snapshot, reportAction: Record): Option<Record> {
    ReportOf(snap, IdOf(IOUReportOf(snap, reportAction), "chatReportID"))
  }

  /** `reportAction.childReportID`, when it is set. */
  function TransactionThreadID(reportAction: Record): Option<string> {
    var c := FieldOf(reportAction, "childReportID");
    if c.Some? && c.value.Str? && c.value.s != "" then Some(c.value.s) else None
  }

  /** `(reportAction.childVisibleActionCount ?? 0) === 0` */
  predicate NoVisibleThreadActions(reportAction: Record) {
    var c := FieldOf(reportAction, "childVisibleActionCount");
    c.None? || c.value.Null? || c.value == Num(0)
  }

  // ---------------------------------------------------------------- the decisions

  predicate ShouldDeleteTransactionThread(reportAction: Record) {
    if TransactionThreadID(reportAction).Some? then NoVisibleThreadActions(reportAction) else false
  }

  predicate ShouldShowDeletedRequestMessage(reportAction: Record) {
    TransactionThreadID(reportAction).Some? && !ShouldDeleteTransactionThread(reportAction)
  }

  /** The IOU report goes when nothing visible is left in it and the thread does not stay. */
  predicate ShouldDeleteIOUReport(reportAction: Record, ctx: DeleteContext) {
    |ctx.iouReportLastMessageText| == 0 && !ctx.lastVisibleIsDeletedParent
    && (TransactionThreadID(reportAction).None? || ShouldDeleteTransactionThread(reportAction))
  }

  /** The IOU action, rewritten as a deleted (or, with a thread kept, an edited) comment. */
  function UpdatedReportAction(reportAction: Record): Record {
    var show := ShouldShowDeletedRequestMessage(reportAction);
    map[IdOf(Some(reportAction), "reportActionID") := Obj(
      map["pendingAction" := if show then PENDING_UPDATE else PENDING_DELETE]
      + Entry("previousMessage", FieldOf(reportAction, "message"))
      + map["message" := List([Obj(map["type" := Str("COMMENT"), "html" := Str(""), "text" := Str(""),
                                       "isEdited" := Bool(true), "isDeletedParentAction" := Bool(show)])]),
            "originalMessage" := Obj(map["IOUTransactionID" := Null])])]
  }

  /** An expense report stores its total negated, so removing a request adds its amount back. */
  function ExpenseReportAfterDelete(iouReport: Record, amount: int): Record {
    var total := NumberOf(iouReport, "total");
    if total.Some? then iouReport["total" := Num(total.value + amount)] else iouReport
  }

  /** The IOU report with the request taken out, or `None` when there is nothing to update. */
  function UpdatedIOUReport(iouReport: Option<Record>, ctx: DeleteContext): Option<Record> {
    var base := if iouReport.Some? && IsExpenseReport(iouReport) then Some(ExpenseReportAfterDelete(iouReport.value, ctx.expenseAmount))
                else ctx.updatedIOUOwnerAndTotal;
    if base.Some? then
      Some((base.value - {"lastVisibleActionCreated"})
           + map["lastMessageText" := Str(ctx.iouReportLastMessageText)]
           + Entry("lastVisibleActionCreated", OptFieldOf(ctx.lastVisibleAction, "created")))
    else None
  }

  /** The preview's request count after the deletion: one less when it was positive. */
  function PreviewCountAfterDelete(reportPreviewAction: Option<Record>): Option<Value> {
    var c := OptFieldOf(reportPreviewAction, "childMoneyRequestCount");
    if c.Some? && c.value.Num? && c.value.n > 0 then Some(Num(c.value.n - 1)) else c
  }

  /**
    Sets the text and html of the first message. The preview is copied shallowly, so this write
    lands in the message object the cached preview shares.
  */
  function WithFirstMessageText(action: Record, text: string): Record {
    if "message" in action && action["message"].List? && |action["message"].items| > 0 && action["message"].items[0].Obj? then
      var items := action["message"].items;
      action["message" := List([Obj(items[0].fields + map["text" := Str(text), "html" := Str(text)])] + items[1..])]
    else action
  }

  /** The preview as the cached object reads after the in-place message edit. */
  function PreviewWithNewMessage(ctx: DeleteContext): Record {
    WithFirstMessageText(if ctx.reportPreviewAction.Some? then ctx.reportPreviewAction.value else map[], ctx.previewMessageText)
  }

  function UpdatedPreviewAction(reportAction: Record, ctx: DeleteContext): Record {
    var count := PreviewCountAfterDelete(ctx.reportPreviewAction);
    PreviewWithNewMessage(ctx) + map["pendingAction" := if ShouldDeleteIOUReport(reportAction, ctx) then PENDING_DELETE else PENDING_UPDATE]
    + (if count.Some? then map["childMoneyRequestCount" := count.value] else map[])
  }

  /** The preview's count reached 0 while the IOU report stays. */
  predicate LastRequestLeavesReport(reportAction: Record, ctx: DeleteContext) {
    !ShouldDeleteIOUReport(reportAction, ctx) && PreviewCountAfterDelete(ctx.reportPreviewAction) == Some(Num(0))
  }

  // ---------------------------------------------------------------- the three lists

  function IOUKeyID(snap: Snapshot, reportAction: Record): string { IdOf(IOUReportOf(snap, reportAction), "reportID") }
  function ChatKeyID(snap: Snapshot, reportAction: Record): string { IdOf(ChatReportOf(snap, reportAction), "reportID") }
  function PreviewID(ctx: DeleteContext): string {
    if ctx.reportPreviewAction.Some? then StrOr(ctx.reportPreviewAction.value, "reportActionID") else ""
  }

  function ThreadDeleted(reportAction: Record): seq<Update> {
    if ShouldDeleteTransactionThread(reportAction) then
      var t := TransactionThreadID(reportAction).value;
      [Set(ReportKey(t), Null), Set(ReportActionsKey(t), Null)]
    else []
  }

  function IOUReportDeletePatch(snap: Snapshot, reportAction: Record, ctx: DeleteContext): (u: Update)
    ensures u.Merge? && u.key == ReportKey(IOUKeyID(snap, reportAction))
    ensures UpdatedIOUReport(IOUReportOf(snap, reportAction), ctx).Some? ==> u.patch == UpdatedIOUReport(IOUReportOf(snap, reportAction), ctx).value
  {
    var u := UpdatedIOUReport(IOUReportOf(snap, reportAction), ctx);
    Merge(ReportKey(IOUKeyID(snap, reportAction)), if u.Some? then u.value else map[])
  }

  function ChatOutstandingCleared(snap: Snapshot, reportAction: Record): Update {
    Merge(ReportKey(ChatKeyID(snap, reportAction)), map["hasOutstandingChildRequest" := Bool(false)])
  }

  function ChatOutstandingRestored(snap: Snapshot, reportAction: Record): Update {
    Merge(ReportKey(ChatKeyID(snap, reportAction)), map["hasOutstandingChildRequest" := Bool(true)])
  }

  function ChatAfterIOUReportDeleted(snap: Snapshot, reportAction: Record, ctx: DeleteContext): Update {
    Merge(ReportKey(ChatKeyID(snap, reportAction)),
      map["hasOutstandingChildRequest" := Bool(false), "iouReportID" := Null]
      + Entry("lastMessageText", ctx.chatLastMessageText)
      + Entry("lastVisibleActionCreated", ctx.chatLastVisibleActionCreated))
  }

  /** The transaction, and its violations when the beta is on, are removed. */
  function TransactionDeleted(snap: Snapshot, transactionID: string): (us: seq<Update>)
    ensures forall x :: x in us ==> x.key == TransactionKey(transactionID) || x.key == TransactionViolationsKey(transactionID)
  {
    [Set(TransactionKey(transactionID), Null)]
    + (if snap.canUseViolations then [Set(TransactionViolationsKey(transactionID), Null)] else [])
  }

  /** The updates before the report writes: the transaction and the thread. */
  function OptimisticFront(snap: Snapshot, transactionID: string, reportAction: Record): (us: seq<Update>)
    ensures forall x :: x in us ==> x.key == TransactionKey(transactionID) || x.key == TransactionViolationsKey(transactionID)
                                    || (ShouldDeleteTransactionThread(reportAction)
                                        && (x.key == ReportKey(TransactionThreadID(reportAction).value)
                                            || x.key == ReportActionsKey(TransactionThreadID(reportAction).value)))
  {
    TransactionDeleted(snap, transactionID) + ThreadDeleted(reportAction)
  }

  function IOUActionDeleted(snap: Snapshot, reportAction: Record): Update {
    Merge(ReportActionsKey(IOUKeyID(snap, reportAction)), UpdatedReportAction(reportAction))
  }

  function PreviewUpdated(snap: Snapshot, reportAction: Record, ctx: DeleteContext): Update {
    Merge(ReportActionsKey(ChatKeyID(snap, reportAction)), map[PreviewID(ctx) := Obj(UpdatedPreviewAction(reportAction, ctx))])
  }

  /** The chat report's updates at the end of the optimistic list. */
  function OptimisticChatTail(snap: Snapshot, reportAction: Record, ctx: DeleteContext): (us: seq<Update>)
    ensures forall x :: x in us ==> x.key == ReportKey(ChatKeyID(snap, reportAction))
  {
    (if LastRequestLeavesReport(reportAction, ctx) then [ChatOutstandingCleared(snap, reportAction)] else [])
    + (if ShouldDeleteIOUReport(reportAction, ctx) then [ChatAfterIOUReportDeleted(snap, reportAction, ctx)] else [])
  }

  function DeleteOptimistic(snap: Snapshot, transactionID: string, reportAction: Record, ctx: DeleteContext): seq<Update> {
    OptimisticFront(snap, transactionID, reportAction)
    + [IOUActionDeleted(snap, reportAction), IOUReportDeletePatch(snap, reportAction, ctx), PreviewUpdated(snap, reportAction, ctx)]
    + OptimisticChatTail(snap, reportAction, ctx)
  }

  function DeleteSuccess(snap: Snapshot, reportAction: Record, ctx: DeleteContext): seq<Update> {
    var gone := ShouldDeleteIOUReport(reportAction, ctx);
    [ Merge(ReportActionsKey(IOUKeyID(snap, reportAction)),
        map[IdOf(Some(reportAction), "reportActionID") := if gone then Null else Obj(map["pendingAction" := Null])]),
      Merge(ReportActionsKey(ChatKeyID(snap, reportAction)),
        map[PreviewID(ctx) := if gone then Null else Obj(map["pendingAction" := Null, "errors" := Null])])]
    + (if gone then [Set(ReportKey(IOUKeyID(snap, reportAction)), Null)] else [])
  }

  /** A record as the value of a SET; `undefined` deletes the key like `null`. */
  function SetValue(r: Option<Record>): Value {
    if r.Some? then Obj(r.value) else Null
  }

  /**
    `{...reportPreviewAction, errors}`: the copy shares the message the optimistic preview
    rewrote in place, so it carries the new text.
  */
  function FailurePreviewAction(ctx: DeleteContext, clock: Clock): Record {
    PreviewWithNewMessage(ctx) + map["errors" := OnyxError(clock, Some("iou.error.genericDeleteFailureMessage"))]
  }

  function IOUReportRestored(snap: Snapshot, reportAction: Record, ctx: DeleteContext): Update {
    var iouReport := IOUReportOf(snap, reportAction);
    if ShouldDeleteIOUReport(reportAction, ctx) then Set(ReportKey(IOUKeyID(snap, reportAction)), SetValue(iouReport))
    else Merge(ReportKey(IOUKeyID(snap, reportAction)), if iouReport.Some? then iouReport.value else map[])
  }

  function TransactionRestored(snap: Snapshot, transactionID: string): Update {
    Set(TransactionKey(transactionID), SetValue(TransactionOf(snap, transactionID)))
  }

  function ThreadRestored(snap: Snapshot, reportAction: Record): Update
    requires ShouldDeleteTransactionThread(reportAction)
  {
    Set(ReportKey(TransactionThreadID(reportAction).value), SetValue(ReportOf(snap, TransactionThreadID(reportAction).value)))
  }

  function ViolationsRestored(snap: Snapshot, transactionID: string): (us: seq<Update>)
    ensures forall x :: x in us ==> x.key == TransactionViolationsKey(transactionID)
  {
    var violations := if transactionID in snap.transactionViolations then snap.transactionViolations[transactionID] else Null;
    if snap.canUseViolations then [Set(TransactionViolationsKey(transactionID), violations)] else []
  }

  /** The updates before the report writes: the transaction, its violations and the thread report. */
  function FailureFront(snap: Snapshot, transactionID: string, reportAction: Record): (us: seq<Update>)
    ensures forall x :: x in us ==> x.key == TransactionKey(transactionID) || x.key == TransactionViolationsKey(transactionID)
                                    || (ShouldDeleteTransactionThread(reportAction)
                                        && x.key == ReportKey(TransactionThreadID(reportAction).value))
  {
    [TransactionRestored(snap, transactionID)] + ViolationsRestored(snap, transactionID)
    + (if ShouldDeleteTransactionThread(reportAction) then [ThreadRestored(snap, reportAction)] else [])
  }

  function IOUActionFailed(snap: Snapshot, reportAction: Record, clock: Clock): Update {
    Merge(ReportActionsKey(IOUKeyID(snap, reportAction)),
      map[IdOf(Some(reportAction), "reportActionID") := Obj(reportAction + map["errors" := OnyxError(clock, Some("iou.error.genericDeleteFailureMessage"))])])
  }

  function PreviewFailed(snap: Snapshot, reportAction: Record, ctx: DeleteContext, clock: Clock): Update {
    Merge(ReportActionsKey(ChatKeyID(snap, reportAction)), map[PreviewID(ctx) := Obj(FailurePreviewAction(ctx, clock))])
  }

  /** The chat report's updates at the end of the failure list. */
  function FailureChatTail(snap: Snapshot, reportAction: Record, ctx: DeleteContext): (us: seq<Update>)
    ensures forall x :: x in us ==> x.key == ReportKey(ChatKeyID(snap, reportAction))
  {
    var chatReport := ChatReportOf(snap, reportAction);
    (if chatReport.Some? && ShouldDeleteIOUReport(reportAction, ctx) then
       [Merge(ReportKey(ChatKeyID(snap, reportAction)), chatReport.value)]
     else [])
    + (if LastRequestLeavesReport(reportAction, ctx) then [ChatOutstandingRestored(snap, reportAction)] else [])
  }

  function DeleteFailure(snap: Snapshot, transactionID: string, reportAction: Record, ctx: DeleteContext, clock: Clock): seq<Update> {
    FailureFront(snap, transactionID, reportAction)
    + [IOUActionFailed(snap, reportAction, clock), IOUReportRestored(snap, reportAction, ctx), PreviewFailed(snap, reportAction, ctx, clock)]
    + FailureChatTail(snap, reportAction, ctx)
  }

  function DeleteMoneyRequest(snap: Snapshot, transactionID: string, reportAction: Record, ctx: DeleteContext, clock: Clock): WriteRequest {
    WriteRequest("DeleteMoneyRequest",
      map["transactionID" := Str(transactionID)] + Entry("reportActionID", FieldOf(reportAction, "reportActionID")),
      OnyxData(
        DeleteOptimistic(snap, transactionID, reportAction, ctx),
        DeleteSuccess(snap, reportAction, ctx),
        DeleteFailure(snap, transactionID, reportAction, ctx, clock)))
  }

  // ---------------------------------------------------------------- the decisions, stated

  /**
    The thread is deleted exactly when there is one and it shows no action; the deleted-request
    message is shown exactly when there is one that shows actions. The two never hold together.
  */
  lemma DeleteThreadFlags(reportAction: Record)
    ensures ShouldDeleteTransactionThread(reportAction)
            <==> TransactionThreadID(reportAction).Some? && NoVisibleThreadActions(reportAction)
    ensures ShouldShowDeletedRequestMessage(reportAction)
            <==> TransactionThreadID(reportAction).Some? && !NoVisibleThreadActions(reportAction)
    ensures !(ShouldDeleteTransactionThread(reportAction) && ShouldShowDeletedRequestMessage(reportAction))
  {
  }

  /** A positive request count drops by one; any other count, or none, is kept as it was. */
  lemma PreviewCountDecrement(reportAction: Record, ctx: DeleteContext)
    ensures forall c: int :: OptFieldOf(ctx.reportPreviewAction, "childMoneyRequestCount") == Some(Num(c)) ==>
              UpdatedPreviewAction(reportAction, ctx)["childMoneyRequestCount"] == Num(if c > 0 then c - 1 else c)
    ensures OptFieldOf(ctx.reportPreviewAction, "childMoneyRequestCount").None? ==>
              "childMoneyRequestCount" !in UpdatedPreviewAction(reportAction, ctx)
  {
    var base := if ctx.reportPreviewAction.Some? then ctx.reportPreviewAction.value else map[];
    assert PreviewWithNewMessage(ctx).Keys == base.Keys;
  }

  /** The optimistic preview is marked DELETE exactly when the IOU report goes. */
  lemma PreviewPendingAction(reportAction: Record, ctx: DeleteContext)
    ensures UpdatedPreviewAction(reportAction, ctx)["pendingAction"]
            == if ShouldDeleteIOUReport(reportAction, ctx) then PENDING_DELETE else PENDING_UPDATE
  {
  }

  /** The rollback of the preview carries the rewritten message, not the one it had before. */
  lemma FailurePreviewKeepsNewMessage(ctx: DeleteContext, clock: Clock)
    requires ctx.reportPreviewAction.Some?
    requires MessageField(ctx.reportPreviewAction.value, "text").Some?
    ensures MessageField(FailurePreviewAction(ctx, clock), "text") == Some(Str(ctx.previewMessageText))
  {
  }

  /**
    An expense report's numeric total rises by `getAmount(transaction, true)` (the input
    `expenseAmount`), which on an expense report is the negation of the stored, negative amount.
  */
  lemma ExpenseTotalRestoredOnDelete(snap: Snapshot, reportAction: Record, ctx: DeleteContext, total: int)
    requires IsExpenseReport(IOUReportOf(snap, reportAction))
    requires NumberOf(IOUReportOf(snap, reportAction).value, "total") == Some(total)
    ensures UpdatedIOUReport(IOUReportOf(snap, reportAction), ctx).Some?
    ensures UpdatedIOUReport(IOUReportOf(snap, reportAction), ctx).value["total"] == Num(total + ctx.expenseAmount)
  {
  }

  // ---------------------------------------------------------------- the lists, on the store

  /** The reports the deletion writes are distinct keys. */
  predicate DistinctReports(snap: Snapshot, reportAction: Record) {
    IOUKeyID(snap, reportAction) != ChatKeyID(snap, reportAction)
    && (ShouldDeleteTransactionThread(reportAction) ==>
          TransactionThreadID(reportAction).value != IOUKeyID(snap, reportAction)
          && TransactionThreadID(reportAction).value != ChatKeyID(snap, reportAction))
  }

  lemma OptimisticFrontMisses(snap: Snapshot, transactionID: string, reportAction: Record, id: string)
    requires ShouldDeleteTransactionThread(reportAction) ==> id != TransactionThreadID(reportAction).value
    ensures NoUpdate(OptimisticFront(snap, transactionID, reportAction), ReportKey(id))
    ensures NoUpdate(OptimisticFront(snap, transactionID, reportAction), ReportActionsKey(id))
  {
  }

  lemma FailureFrontMisses(snap: Snapshot, transactionID: string, reportAction: Record, id: string)
    requires ShouldDeleteTransactionThread(reportAction) ==> id != TransactionThreadID(reportAction).value
    ensures NoUpdate(FailureFront(snap, transactionID, reportAction), ReportKey(id))
    ensures forall a :: NoUpdate(FailureFront(snap, transactionID, reportAction), ReportActionsKey(a))
  {
  }

  lemma ChatTailsMiss(snap: Snapshot, reportAction: Record, ctx: DeleteContext, k: Key)
    requires k != ReportKey(ChatKeyID(snap, reportAction))
    ensures NoUpdate(OptimisticChatTail(snap, reportAction, ctx), k)
    ensures NoUpdate(FailureChatTail(snap, reportAction, ctx), k)
  {
  }

  lemma OptimisticClearsOutstandingOnce(snap: Snapshot, transactionID: string, reportAction: Record, ctx: DeleteContext)
    requires LastRequestLeavesReport(reportAction, ctx) && DistinctReports(snap, reportAction)
    ensures SoleUpdate(DeleteOptimistic(snap, transactionID, reportAction, ctx), ChatOutstandingCleared(snap, reportAction))
  {
    var u := ChatOutstandingCleared(snap, reportAction);
    var front := OptimisticFront(snap, transactionID, reportAction);
    var block := [IOUActionDeleted(snap, reportAction), IOUReportDeletePatch(snap, reportAction, ctx), PreviewUpdated(snap, reportAction, ctx)];
    assert OptimisticChatTail(snap, reportAction, ctx) == [u];
    OptimisticFrontMisses(snap, transactionID, reportAction, ChatKeyID(snap, reportAction));
    None3(block[0], block[1], block[2], u.key);
    NoUpdateConcat(front, block, u.key);
    SoleUpdateConcat([u], front + block, u);
  }

  lemma FailureRestoresOutstandingOnce(snap: Snapshot, transactionID: string, reportAction: Record, ctx: DeleteContext, clock: Clock)
    requires LastRequestLeavesReport(reportAction, ctx) && DistinctReports(snap, reportAction)
    ensures SoleUpdate(DeleteFailure(snap, transactionID, reportAction, ctx, clock), ChatOutstandingRestored(snap, reportAction))
  {
    var u := ChatOutstandingRestored(snap, reportAction);
    var front := FailureFront(snap, transactionID, reportAction);
    var block := [IOUActionFailed(snap, reportAction, clock), IOUReportRestored(snap, reportAction, ctx), PreviewFailed(snap, reportAction, ctx, clock)];
    assert FailureChatTail(snap, reportAction, ctx) == [u];
    FailureFrontMisses(snap, transactionID, reportAction, ChatKeyID(snap, reportAction));
    None3(block[0], block[1], block[2], u.key);
    NoUpdateConcat(front, block, u.key);
    SoleUpdateConcat([u], front + block, u);
  }

  /**
    When the chat's last request goes but the IOU report stays, the chat no longer shows an
    outstanding request, and a rejected deletion shows it again.
  */
  lemma OutstandingChildRequestInLists(s: StoreState, snap: Snapshot, transactionID: string, reportAction: Record, ctx: DeleteContext, clock: Clock)
    requires LastRequestLeavesReport(reportAction, ctx) && DistinctReports(snap, reportAction)
    ensures FieldAt(ApplyAll(s, DeleteOptimistic(snap, transactionID, reportAction, ctx)),
                    ReportKey(ChatKeyID(snap, reportAction)), "hasOutstandingChildRequest") == Some(Bool(false))
    ensures FieldAt(ApplyAll(ApplyAll(s, DeleteOptimistic(snap, transactionID, reportAction, ctx)),
                             DeleteFailure(snap, transactionID, reportAction, ctx, clock)),
                    ReportKey(ChatKeyID(snap, reportAction)), "hasOutstandingChildRequest") == Some(Bool(true))
  {
    var opt := DeleteOptimistic(snap, transactionID, reportAction, ctx);
    var k := ReportKey(ChatKeyID(snap, reportAction));
    OptimisticClearsOutstandingOnce(snap, transactionID, reportAction, ctx);
    MergeFieldLands(s, opt, k, map["hasOutstandingChildRequest" := Bool(false)], "hasOutstandingChildRequest");
    FailureRestoresOutstandingOnce(snap, transactionID, reportAction, ctx, clock);
    MergeFieldLands(ApplyAll(s, opt), DeleteFailure(snap, transactionID, reportAction, ctx, clock), k,
                    map["hasOutstandingChildRequest" := Bool(true)], "hasOutstandingChildRequest");
  }

  lemma DeleteOutstandingChildRequest(s: StoreState, snap: Snapshot, transactionID: string, reportAction: Record, ctx: DeleteContext, clock: Clock)
    requires LastRequestLeavesReport(reportAction, ctx) && DistinctReports(snap, reportAction)
    ensures FieldAt(ApplyAll(s, DeleteMoneyRequest(snap, transactionID, reportAction, ctx, clock).onyxData.optimisticData),
                    ReportKey(ChatKeyID(snap, reportAction)), "hasOutstandingChildRequest") == Some(Bool(false))
    ensures FieldAt(AfterFailure(s, DeleteMoneyRequest(snap, transactionID, reportAction, ctx, clock).onyxData),
                    ReportKey(ChatKeyID(snap, reportAction)), "hasOutstandingChildRequest") == Some(Bool(true))
  {
    OutstandingChildRequestInLists(s, snap, transactionID, reportAction, ctx, clock);
  }

  lemma OptimisticWritesIOUReportOnce(snap: Snapshot, transactionID: string, reportAction: Record, ctx: DeleteContext)
    requires DistinctReports(snap, reportAction)
    ensures SoleUpdate(DeleteOptimistic(snap, transactionID, reportAction, ctx), IOUReportDeletePatch(snap, reportAction, ctx))
  {
    var u := IOUReportDeletePatch(snap, reportAction, ctx);
    Sole3(IOUActionDeleted(snap, reportAction), u, PreviewUpdated(snap, reportAction, ctx), u);
    OptimisticFrontMisses(snap, transactionID, reportAction, IOUKeyID(snap, reportAction));
    ChatTailsMiss(snap, reportAction, ctx, u.key);
    SoleInside(OptimisticFront(snap, transactionID, reportAction),
               [IOUActionDeleted(snap, reportAction), u, PreviewUpdated(snap, reportAction, ctx)],
               OptimisticChatTail(snap, reportAction, ctx), u);
  }

  lemma OptimisticExpenseTotal(s: StoreState, snap: Snapshot, transactionID: string, reportAction: Record, ctx: DeleteContext, total: int)
    requires IsExpenseReport(IOUReportOf(snap, reportAction))
    requires NumberOf(IOUReportOf(snap, reportAction).value, "total") == Some(total)
    requires DistinctReports(snap, reportAction)
    ensures FieldAt(ApplyAll(s, DeleteOptimistic(snap, transactionID, reportAction, ctx)),
                    ReportKey(IOUKeyID(snap, reportAction)), "total") == Some(Num(total + ctx.expenseAmount))
  {
    ExpenseTotalRestoredOnDelete(snap, reportAction, ctx, total);
    OptimisticWritesIOUReportOnce(snap, transactionID, reportAction, ctx);
    var u := IOUReportDeletePatch(snap, reportAction, ctx);
    MergeFieldLands(s, DeleteOptimistic(snap, transactionID, reportAction, ctx), u.key, u.patch, "total");
  }

  /** On an expense report, the optimistic list stores the total with the amount added back. */
  lemma DeleteRaisesExpenseTotal(s: StoreState, snap: Snapshot, transactionID: string, reportAction: Record, ctx: DeleteContext, clock: Clock, total: int)
    requires IsExpenseReport(IOUReportOf(snap, reportAction))
    requires NumberOf(IOUReportOf(snap, reportAction).value, "total") == Some(total)
    requires DistinctReports(snap, reportAction)
    ensures FieldAt(ApplyAll(s, DeleteMoneyRequest(snap, transactionID, reportAction, ctx, clock).onyxData.optimisticData),
                    ReportKey(IOUKeyID(snap, reportAction)), "total") == Some(Num(total + ctx.expenseAmount))
  {
    OptimisticExpenseTotal(s, snap, transactionID, reportAction, ctx, total);
  }

  function IOUReportGone(snap: Snapshot, reportAction: Record): Update {
    Set(ReportKey(IOUKeyID(snap, reportAction)), Null)
  }

  lemma SuccessRemovesIOUReportOnce(snap: Snapshot, reportAction: Record, ctx: DeleteContext)
    requires ShouldDeleteIOUReport(reportAction, ctx)
    ensures SoleUpdate(DeleteSuccess(snap, reportAction, ctx), IOUReportGone(snap, reportAction))
  {
  }

  lemma FailureRestoresIOUReportOnce(snap: Snapshot, transactionID: string, reportAction: Record, ctx: DeleteContext, clock: Clock)
    requires DistinctReports(snap, reportAction)
    ensures SoleUpdate(DeleteFailure(snap, transactionID, reportAction, ctx, clock), IOUReportRestored(snap, reportAction, ctx))
  {
    var u := IOUReportRestored(snap, reportAction, ctx);
    Sole3(IOUActionFailed(snap, reportAction, clock), u, PreviewFailed(snap, reportAction, ctx, clock), u);
    FailureFrontMisses(snap, transactionID, reportAction, IOUKeyID(snap, reportAction));
    ChatTailsMiss(snap, reportAction, ctx, u.key);
    SoleInside(FailureFront(snap, transactionID, reportAction),
               [IOUActionFailed(snap, reportAction, clock), u, PreviewFailed(snap, reportAction, ctx, clock)],
               FailureChatTail(snap, reportAction, ctx), u);
  }

  lemma SuccessRemovesIOUReport(s: StoreState, snap: Snapshot, reportAction: Record, ctx: DeleteContext)
    requires ShouldDeleteIOUReport(reportAction, ctx)
    ensures ReportKey(IOUKeyID(snap, reportAction)) !in ApplyAll(s, DeleteSuccess(snap, reportAction, ctx))
  {
    SuccessRemovesIOUReportOnce(snap, reportAction, ctx);
    SoleWriter(s, DeleteSuccess(snap, reportAction, ctx), IOUReportGone(snap, reportAction));
  }

  lemma FailureRestoresIOUReport(s: StoreState, snap: Snapshot, transactionID: string, reportAction: Record, ctx: DeleteContext, clock: Clock)
    requires ShouldDeleteIOUReport(reportAction, ctx)
    requires DistinctReports(snap, reportAction)
    requires IOUReportOf(snap, reportAction).Some? ==> NullFree(IOUReportOf(snap, reportAction).value)
    ensures Holds(ApplyAll(s, DeleteFailure(snap, transactionID, reportAction, ctx, clock)),
                  ReportKey(IOUKeyID(snap, reportAction)), IOUReportOf(snap, reportAction))
  {
    FailureRestoresIOUReportOnce(snap, transactionID, reportAction, ctx, clock);
    SetRestores(s, DeleteFailure(snap, transactionID, reportAction, ctx, clock), ReportKey(IOUKeyID(snap, reportAction)), IOUReportOf(snap, reportAction));
  }

  /**
    When the IOU report goes with its last request, an accepted deletion removes it and a
    rejected one puts back exactly what the report held.
  */
  lemma DeletedIOUReportRoundTrip(s: StoreState, snap: Snapshot, transactionID: string, reportAction: Record, ctx: DeleteContext, clock: Clock)
    requires ShouldDeleteIOUReport(reportAction, ctx)
    requires DistinctReports(snap, reportAction)
    requires IOUReportOf(snap, reportAction).Some? ==> NullFree(IOUReportOf(snap, reportAction).value)
    ensures ReportKey(IOUKeyID(snap, reportAction)) !in AfterSuccess(s, DeleteMoneyRequest(snap, transactionID, reportAction, ctx, clock).onyxData)
    ensures Holds(AfterFailure(s, DeleteMoneyRequest(snap, transactionID, reportAction, ctx, clock).onyxData),
                  ReportKey(IOUKeyID(snap, reportAction)), IOUReportOf(snap, reportAction))
  {
    var opt := DeleteOptimistic(snap, transactionID, reportAction, ctx);
    SuccessRemovesIOUReport(ApplyAll(s, opt), snap, reportAction, ctx);
    FailureRestoresIOUReport(ApplyAll(s, opt), snap, transactionID, reportAction, ctx, clock);
  }


  lemma FailureRestoresTransactionOnce(snap: Snapshot, transactionID: string, reportAction: Record, ctx: DeleteContext, clock: Clock)
    ensures SoleUpdate(DeleteFailure(snap, transactionID, reportAction, ctx, clock), TransactionRestored(snap, transactionID))
  {
    var u := TransactionRestored(snap, transactionID);
    var front := FailureFront(snap, transactionID, reportAction);
    var block := [IOUActionFailed(snap, reportAction, clock), IOUReportRestored(snap, reportAction, ctx), PreviewFailed(snap, reportAction, ctx, clock)];
    assert SoleUpdate(front, u);
    None3(block[0], block[1], block[2], u.key);
    ChatTailsMiss(snap, reportAction, ctx, u.key);
    SoleUpdateConcat(front, block, u);
    SoleUpdateConcat(front + block, FailureChatTail(snap, reportAction, ctx), u);
  }

  /** A SET of a null-free record leaves exactly that record at its key. */
  lemma SetRestores(s: StoreState, us: seq<Update>, k: Key, r: Option<Record>)
    requires SoleUpdate(us, Set(k, SetValue(r)))
    requires r.Some? ==> NullFree(r.value)
    ensures Holds(ApplyAll(s, us), k, r)
  {
    SoleWriter(s, us, Set(k, SetValue(r)));
    if r.Some? {
      assert StripNulls(r.value) == r.value;
    }
  }

  /** A rejected deletion puts back exactly the transaction the store held. */
  lemma DeleteFailureRestoresTransaction(s: StoreState, snap: Snapshot, transactionID: string, reportAction: Record, ctx: DeleteContext, clock: Clock)
    requires TransactionOf(snap, transactionID).Some? ==> NullFree(TransactionOf(snap, transactionID).value)
    ensures Holds(AfterFailure(s, DeleteMoneyRequest(snap, transactionID, reportAction, ctx, clock).onyxData),
                  TransactionKey(transactionID), TransactionOf(snap, transactionID))
  {
    FailureRestoresTransactionOnce(snap, transactionID, reportAction, ctx, clock);
    SetRestores(ApplyAll(s, DeleteOptimistic(snap, transactionID, reportAction, ctx)),
                DeleteFailure(snap, transactionID, reportAction, ctx, clock), TransactionKey(transactionID), TransactionOf(snap, transactionID));
  }

  function ThreadActionsGone(reportAction: Record): Update
    requires ShouldDeleteTransactionThread(reportAction)
  {
    Set(ReportActionsKey(TransactionThreadID(reportAction).value), Null)
  }


  lemma OptimisticRemovesThreadActionsOnce(snap: Snapshot, transactionID: string, reportAction: Record, ctx: DeleteContext)
    requires ShouldDeleteTransactionThread(reportAction) && DistinctReports(snap, reportAction)
    ensures SoleUpdate(DeleteOptimistic(snap, transactionID, reportAction, ctx), ThreadActionsGone(reportAction))
  {
    var u := ThreadActionsGone(reportAction);
    var front := OptimisticFront(snap, transactionID, reportAction);
    var block := [IOUActionDeleted(snap, reportAction), IOUReportDeletePatch(snap, reportAction, ctx), PreviewUpdated(snap, reportAction, ctx)];
    var t := TransactionThreadID(reportAction).value;
    Sole2(Set(ReportKey(t), Null), u, u);
    SoleUpdateConcat(ThreadDeleted(reportAction), TransactionDeleted(snap, transactionID), u);
    None3(block[0], block[1], block[2], u.key);
    ChatTailsMiss(snap, reportAction, ctx, u.key);
    SoleUpdateConcat(front, block, u);
    SoleUpdateConcat(front + block, OptimisticChatTail(snap, reportAction, ctx), u);
  }

  lemma FailureLeavesThreadActions(snap: Snapshot, transactionID: string, reportAction: Record, ctx: DeleteContext, clock: Clock)
    requires ShouldDeleteTransactionThread(reportAction) && DistinctReports(snap, reportAction)
    ensures NoUpdate(DeleteFailure(snap, transactionID, reportAction, ctx, clock), ReportActionsKey(TransactionThreadID(reportAction).value))
  {
    var k := ReportActionsKey(TransactionThreadID(reportAction).value);
    var front := FailureFront(snap, transactionID, reportAction);
    var block := [IOUActionFailed(snap, reportAction, clock), IOUReportRestored(snap, reportAction, ctx), PreviewFailed(snap, reportAction, ctx, clock)];
    FailureFrontMisses(snap, transactionID, reportAction, IOUKeyID(snap, reportAction));
    None3(block[0], block[1], block[2], k);
    ChatTailsMiss(snap, reportAction, ctx, k);
    NoUpdateConcat(front, block, k);
    NoUpdateConcat(front + block, FailureChatTail(snap, reportAction, ctx), k);
  }

  lemma FailureRestoresThreadOnce(snap: Snapshot, transactionID: string, reportAction: Record, ctx: DeleteContext, clock: Clock)
    requires ShouldDeleteTransactionThread(reportAction) && DistinctReports(snap, reportAction)
    ensures SoleUpdate(DeleteFailure(snap, transactionID, reportAction, ctx, clock), ThreadRestored(snap, reportAction))
  {
    var u := ThreadRestored(snap, reportAction);
    var front := FailureFront(snap, transactionID, reportAction);
    var block := [IOUActionFailed(snap, reportAction, clock), IOUReportRestored(snap, reportAction, ctx), PreviewFailed(snap, reportAction, ctx, clock)];
    assert SoleUpdate(front, u);
    None3(block[0], block[1], block[2], u.key);
    ChatTailsMiss(snap, reportAction, ctx, u.key);
    SoleUpdateConcat(front, block, u);
    SoleUpdateConcat(front + block, FailureChatTail(snap, reportAction, ctx), u);
  }

  /** A rejected deletion that had removed the thread puts the thread report back. */
  lemma DeletedThreadRestored(s: StoreState, snap: Snapshot, transactionID: string, reportAction: Record, ctx: DeleteContext, clock: Clock)
    requires ShouldDeleteTransactionThread(reportAction) && DistinctReports(snap, reportAction)
    requires ReportOf(snap, TransactionThreadID(reportAction).value).Some? ==> NullFree(ReportOf(snap, TransactionThreadID(reportAction).value).value)
    ensures Holds(AfterFailure(s, DeleteMoneyRequest(snap, transactionID, reportAction, ctx, clock).onyxData),
                  ReportKey(TransactionThreadID(reportAction).value), ReportOf(snap, TransactionThreadID(reportAction).value))
  {
    FailureRestoresThreadOnce(snap, transactionID, reportAction, ctx, clock);
    SetRestores(ApplyAll(s, DeleteOptimistic(snap, transactionID, reportAction, ctx)),
                DeleteFailure(snap, transactionID, reportAction, ctx, clock),
                ReportKey(TransactionThreadID(reportAction).value), ReportOf(snap, TransactionThreadID(reportAction).value));
  }

  /** The thread's actions, removed with the thread, stay removed: no failure update writes them. */
  lemma DeletedThreadActionsNotRestored(s: StoreState, snap: Snapshot, transactionID: string, reportAction: Record, ctx: DeleteContext, clock: Clock)
    requires ShouldDeleteTransactionThread(reportAction) && DistinctReports(snap, reportAction)
    ensures ReportActionsKey(TransactionThreadID(reportAction).value) !in AfterFailure(s, DeleteMoneyRequest(snap, transactionID, reportAction, ctx, clock).onyxData)
  {
    var opt := DeleteOptimistic(snap, transactionID, reportAction, ctx);
    OptimisticRemovesThreadActionsOnce(snap, transactionID, reportAction, ctx);
    SoleWriter(s, opt, ThreadActionsGone(reportAction));
    FailureLeavesThreadActions(snap, transactionID, reportAction, ctx, clock);
    Untouched(ApplyAll(s, opt), DeleteFailure(snap, transactionID, reportAction, ctx, clock), ReportActionsKey(TransactionThreadID(reportAction).value));
  }
}
