/**
  Editing a money request: the field-by-field edits (`getUpdateMoneyRequestParams`, behind the
  date, merchant, tag, billable, amount and distance editors) and the full edit of a regular
  request (`editRegularMoneyRequest`).

  `transactionChanges` is a record whose keys are the fields the user changed.
*/
module IouEdit {
  import opened Wrappers
  import opened Onyx
  import opened IouData

  const EDIT_FAILURE_MESSAGE: string := "iou.error.genericEditFailureMessage"

  // ---------------------------------------------------------------- the field maps

  /** Every changed field is marked pending UPDATE. */
  function PendingFields(changes: Record): (r: Record)
    ensures r.Keys == changes.Keys
    ensures forall f :: f in r ==> r[f] == PENDING_UPDATE
  {
    map f | f in changes :: PENDING_UPDATE
  }

  /** Every changed field's pending mark is cleared. */
  function ClearedPendingFields(changes: Record): (r: Record)
    ensures r.Keys == changes.Keys
    ensures forall f :: f in r ==> r[f].Null?
  {
    map f | f in changes :: Null
  }

  /** Every field marked pending carries the generic edit error, keyed by the current microsecond. */
  function ErrorFields(changes: Record, clock: Clock): (r: Record)
    ensures r.Keys == PendingFields(changes).Keys && r.Keys == changes.Keys
    ensures forall f :: f in r ==> r[f] == OnyxError(clock, Some(EDIT_FAILURE_MESSAGE))
  {
    var pending := PendingFields(changes);
    map f | f in pending :: OnyxError(clock, Some(EDIT_FAILURE_MESSAGE))
  }

  predicate IsWaypointEdit(changes: Record) {
    "waypoints" in changes
  }

  // ---------------------------------------------------------------- what the edit reads

  /**
    What an edit takes from helpers that are not part of this model:
    - `updatedTransaction`: `TransactionUtils.getUpdatedTransaction(transaction, changes, ...)`,
      used only when the transaction is cached;
    - `details`: `ReportUtils.getTransactionDetails(updatedTransaction)`, its waypoints already
      serialised by `JSON.stringify`;
    - `modifiedAction`: `ReportUtils.buildOptimisticModifiedExpenseReportAction(...)`;
    - `oldAmount`, `newAmount`: `TransactionUtils.getAmount(transaction, true)` and
      `TransactionUtils.getAmount(updatedTransaction, true)`;
    - `ownerUpdatedReport`: `IOUUtils.updateIOUOwnerAndTotal(...)` for a report that is not an
      expense report with a numeric total;
    - `cachedTotal`: `CurrencyUtils.convertToDisplayString` of the new total;
    - `recentCategories`, `recentTags`: `Policy.buildOptimisticPolicyRecentlyUsedCategories` and
      `Policy.buildOptimisticPolicyRecentlyUsedTags`.
  */
  datatype EditContext = EditContext(
    updatedTransaction: Record,
    details: Option<Record>,
    modifiedAction: Record,
    oldAmount: int,
    newAmount: int,
    ownerUpdatedReport: Record,
    cachedTotal: string,
    recentCategories: seq<Value>,
    recentTags: Record)

  function ThreadOf(snap: Snapshot, threadID: string): Option<Record> {
    ReportOf(snap, threadID)
  }

  /** The money-request report the thread hangs off. */
  function EditedReport(snap: Snapshot, threadID: string): Option<Record> {
    ReportOf(snap, IdOf(ThreadOf(snap, threadID), "parentReportID"))
  }

  function UpdatedTransaction(snap: Snapshot, transactionID: string, ctx: EditContext): Option<Record> {
    if TransactionOf(snap, transactionID).Some? then Some(ctx.updatedTransaction) else None
  }

  function ModifiedActionID(ctx: EditContext): string {
    IdOf(Some(ctx.modifiedAction), "reportActionID")
  }

  function Diff(ctx: EditContext): int {
    ctx.oldAmount - ctx.newAmount
  }

  /**
    The report total follows the edit only when the edited transaction's currency is the
    report's (both undefined counts as equal) and a new amount was set.
  */
  predicate TotalFollowsEdit(updated: Option<Record>, iouReport: Option<Record>) {
    var modifiedAmount := OptFieldOf(updated, "modifiedAmount");
    OptFieldOf(updated, "currency") == OptFieldOf(iouReport, "currency") && modifiedAmount.Some? && Truthy(modifiedAmount.value)
  }

  function RecordOr(r: Option<Record>): Record {
    if r.Some? then r.value else map[]
  }

  /**
    `updatedMoneyRequestReport`: an expense report with a numeric total has it moved by `diff`;
    any other report is what `updateIOUOwnerAndTotal` makes of it; no report gives `{}`. The
    display total is set in every case.
  */
  function ReportWithEditedTotal(iouReport: Option<Record>, diff: int, ctx: EditContext): (r: Record)
    ensures IsExpenseReport(iouReport) && NumberOf(iouReport.value, "total").Some? ==>
              NumberOf(r, "total") == Some(NumberOf(iouReport.value, "total").value + diff)
    ensures "cachedTotal" in r && r["cachedTotal"] == Str(ctx.cachedTotal)
  {
    var base := RecordOr(iouReport);
    var moved :=
      if IsExpenseReport(iouReport) && NumberOf(base, "total").Some? then base["total" := Num(base["total"].n + diff)]
      else if iouReport.Some? then ctx.ownerUpdatedReport
      else map[];
    moved["cachedTotal" := Str(ctx.cachedTotal)]
  }

  // ---------------------------------------------------------------- field edits: the updates

  function EditActionsKey(snap: Snapshot, threadID: string): Key {
    ReportActionsKey(IdOf(ThreadOf(snap, threadID), "reportID"))
  }

  function EditReportKey(snap: Snapshot, threadID: string): Key {
    ReportKey(IdOf(EditedReport(snap, threadID), "reportID"))
  }

  /** The modified-expense action, added to the thread. */
  function ModifiedActionAdded(snap: Snapshot, threadID: string, ctx: EditContext): (u: Update)
    ensures u.key == EditActionsKey(snap, threadID)
  {
    Merge(EditActionsKey(snap, threadID), map[ModifiedActionID(ctx) := Obj(ctx.modifiedAction)])
  }

  function EditReportPatch(snap: Snapshot, threadID: string, ctx: EditContext): (u: Update)
    ensures u.Merge? && u.key == EditReportKey(snap, threadID)
    ensures var iouReport := EditedReport(snap, threadID);
            IsExpenseReport(iouReport) && NumberOf(iouReport.value, "total").Some? ==>
              "total" in u.patch && u.patch["total"] == Num(NumberOf(iouReport.value, "total").value + Diff(ctx))
  {
    Merge(EditReportKey(snap, threadID), ReportWithEditedTotal(EditedReport(snap, threadID), Diff(ctx), ctx))
  }

  /** The action and, when the total follows the edit, the report; nothing for a waypoint edit. */
  function EditReportPart(snap: Snapshot, transactionID: string, threadID: string, changes: Record, ctx: EditContext): (us: seq<Update>)
    ensures forall x :: x in us ==> x.key == EditActionsKey(snap, threadID) || x.key == EditReportKey(snap, threadID)
  {
    if IsWaypointEdit(changes) then []
    else
      [ModifiedActionAdded(snap, threadID, ctx)]
      + (if TotalFollowsEdit(UpdatedTransaction(snap, transactionID, ctx), EditedReport(snap, threadID)) then [EditReportPatch(snap, threadID, ctx)] else [])
  }

  /** The edited transaction, its changed fields pending, loading exactly for a waypoint edit. */
  function EditedTransactionPatch(snap: Snapshot, transactionID: string, changes: Record, ctx: EditContext): (u: Update)
    ensures u.Merge? && u.key == TransactionKey(transactionID)
    ensures "pendingFields" in u.patch && u.patch["pendingFields"] == Obj(PendingFields(changes))
    ensures "isLoading" in u.patch && u.patch["isLoading"] == Bool(IsWaypointEdit(changes))
    ensures "errorFields" in u.patch && u.patch["errorFields"].Null?
  {
    Merge(TransactionKey(transactionID),
      RecordOr(UpdatedTransaction(snap, transactionID, ctx))
      + map["pendingFields" := Obj(PendingFields(changes)), "isLoading" := Bool(IsWaypointEdit(changes)), "errorFields" := Null])
  }

  /** The policy's recently used categories and tags, when the edit changes them. */
  function RecentlyUsedUpdates(iouReport: Option<Record>, changes: Record, ctx: EditContext): (us: seq<Update>)
    ensures forall x :: x in us ==> x.key.RecentlyUsedCategoriesKey? || x.key.RecentlyUsedTagsKey?
  {
    var policyID := IdOf(iouReport, "policyID");
    (if "category" in changes && |ctx.recentCategories| > 0 then [Set(RecentlyUsedCategoriesKey(policyID), List(ctx.recentCategories))] else [])
    + (if "tag" in changes && !IsEmptyObject(Some(Obj(ctx.recentTags))) then [Merge(RecentlyUsedTagsKey(policyID), ctx.recentTags)] else [])
  }

  function EditOptimistic(snap: Snapshot, transactionID: string, threadID: string, changes: Record, ctx: EditContext): seq<Update> {
    EditReportPart(snap, transactionID, threadID, changes, ctx)
    + [EditedTransactionPatch(snap, transactionID, changes, ctx)]
    + RecentlyUsedUpdates(EditedReport(snap, threadID), changes, ctx)
  }

  function EditReportCleared(snap: Snapshot, transactionID: string, threadID: string, changes: Record, ctx: EditContext): (us: seq<Update>)
    ensures forall x :: x in us ==> x.key == EditActionsKey(snap, threadID) || x.key == EditReportKey(snap, threadID)
  {
    if IsWaypointEdit(changes) then []
    else
      [ActionPendingCleared(IdOf(ThreadOf(snap, threadID), "reportID"), ModifiedActionID(ctx))]
      + (if TotalFollowsEdit(UpdatedTransaction(snap, transactionID, ctx), EditedReport(snap, threadID))
         then [Merge(EditReportKey(snap, threadID), map["pendingAction" := Null])] else [])
  }

  /** On success the pending marks are cleared, loading stops and the errors are removed. */
  function TransactionSettled(transactionID: string, changes: Record): (u: Update)
    ensures u.Merge? && u.key == TransactionKey(transactionID)
    ensures "pendingFields" in u.patch && u.patch["pendingFields"] == Obj(ClearedPendingFields(changes))
    ensures "isLoading" in u.patch && u.patch["isLoading"] == Bool(false)
    ensures "errorFields" in u.patch && u.patch["errorFields"].Null?
  {
    Merge(TransactionKey(transactionID),
      map["pendingFields" := Obj(ClearedPendingFields(changes)), "isLoading" := Bool(false), "errorFields" := Null])
  }

  function DraftDeleted(transactionID: string, changes: Record): (us: seq<Update>)
    ensures forall x :: x in us ==> x == Set(TransactionDraftKey(transactionID), Null)
  {
    if IsWaypointEdit(changes) then [Set(TransactionDraftKey(transactionID), Null)] else []
  }

  function EditSuccess(snap: Snapshot, transactionID: string, threadID: string, changes: Record, ctx: EditContext): seq<Update> {
    EditReportCleared(snap, transactionID, threadID, changes, ctx)
    + [TransactionSettled(transactionID, changes)]
    + DraftDeleted(transactionID, changes)
  }

  /** On failure the pending marks are cleared, loading stops and every changed field shows the error. */
  function TransactionFailed(transactionID: string, changes: Record, clock: Clock): (u: Update)
    ensures u.Merge? && u.key == TransactionKey(transactionID)
    ensures "pendingFields" in u.patch && u.patch["pendingFields"] == Obj(ClearedPendingFields(changes))
    ensures "isLoading" in u.patch && u.patch["isLoading"] == Bool(false)
    ensures "errorFields" in u.patch && u.patch["errorFields"] == Obj(ErrorFields(changes, clock))
  {
    Merge(TransactionKey(transactionID),
      map["pendingFields" := Obj(ClearedPendingFields(changes)), "isLoading" := Bool(false), "errorFields" := Obj(ErrorFields(changes, clock))])
  }

  function ModifiedActionFailed(snap: Snapshot, threadID: string, changes: Record, ctx: EditContext, clock: Clock): (us: seq<Update>)
    ensures forall x :: x in us ==> x.key == EditActionsKey(snap, threadID)
  {
    if IsWaypointEdit(changes) then []
    else [Merge(EditActionsKey(snap, threadID),
            map[ModifiedActionID(ctx) := Obj(ctx.modifiedAction + map["errors" := OnyxError(clock, Some(EDIT_FAILURE_MESSAGE))])])]
  }

  /** The report merged back as it was cached. */
  function ReportReset(iouReport: Option<Record>): (us: seq<Update>)
    ensures forall x :: x in us ==> iouReport.Some? && x == Merge(ReportKey(IdOf(iouReport, "reportID")), iouReport.value)
  {
    if iouReport.Some? then [Merge(ReportKey(IdOf(iouReport, "reportID")), iouReport.value)] else []
  }

  function EditFailure(snap: Snapshot, transactionID: string, threadID: string, changes: Record, ctx: EditContext, clock: Clock): seq<Update> {
    ModifiedActionFailed(snap, threadID, changes, ctx, clock)
    + [TransactionFailed(transactionID, changes, clock)]
    + ReportReset(EditedReport(snap, threadID))
  }

  // ---------------------------------------------------------------- field edits: the parameters

  /** The transaction details sent: only the changed ones, or all of them. */
  function DetailsSent(details: Option<Record>, changes: Record, onlyIncludeChangedFields: bool): (r: Record)
    ensures forall f :: f in r ==> f in RecordOr(details) && r[f] == RecordOr(details)[f]
    ensures forall f :: f in RecordOr(details) ==> (f in r <==> !onlyIncludeChangedFields || f in changes)
  {
    var d := RecordOr(details);
    if onlyIncludeChangedFields then map f | f in d && f in changes :: d[f] else d
  }

  predicate IsEditKey(f: string) {
    f == "reportID" || f == "transactionID" || f == "reportActionID"
  }

  /** `{...r, f: v}` as it is sent: an undefined `v` leaves `f` out. */
  function Assign(r: Record, f: string, v: Option<Value>): (r': Record)
    ensures f in r' <==> v.Some?
    ensures v.Some? ==> r'[f] == v.value
    ensures forall g :: g != f ==> (g in r' <==> g in r) && (g in r ==> r'[g] == r[g])
  {
    if v.Some? then r[f := v.value] else r - {f}
  }

  /**
    With `onlyIncludeChangedFields` the parameters hold the changed details and the three
    identifiers, nothing else; without it they hold every detail. The transaction ID is always
    sent, the report's ID when it has one, and the action's ID whenever the edit builds an action.
  */
  function UpdateParams(snap: Snapshot, transactionID: string, threadID: string, changes: Record,
                        onlyIncludeChangedFields: bool, ctx: EditContext): (params: Record)
    ensures onlyIncludeChangedFields ==> forall f :: f in params ==> f in changes || IsEditKey(f)
    ensures var details := RecordOr(ctx.details);
            forall f :: f in details && !IsEditKey(f) && (!onlyIncludeChangedFields || f in changes) ==> f in params && params[f] == details[f]
    ensures forall f :: f in params && !IsEditKey(f) ==> f in RecordOr(ctx.details) && (!onlyIncludeChangedFields || f in changes)
    ensures "transactionID" in params && params["transactionID"] == Str(transactionID)
    ensures "reportID" in params <==> OptFieldOf(EditedReport(snap, threadID), "reportID").Some?
    ensures !IsWaypointEdit(changes) ==> ("reportActionID" in params <==> "reportActionID" in ctx.modifiedAction)
  {
    var sent := DetailsSent(ctx.details, changes, onlyIncludeChangedFields);
    var base := Assign(Assign(sent, "reportID", OptFieldOf(EditedReport(snap, threadID), "reportID")), "transactionID", Some(Str(transactionID)));
    if IsWaypointEdit(changes) then base else Assign(base, "reportActionID", FieldOf(ctx.modifiedAction, "reportActionID"))
  }

  datatype UpdateMoneyRequestData = UpdateMoneyRequestData(params: Record, onyxData: OnyxData)

  /** `transactionID`, `transactionThreadReportID`, `transactionChanges` and `onlyIncludeChangedFields`, over the snapshot. */
  function GetUpdateMoneyRequestParams(snap: Snapshot, transactionID: string, threadID: string, changes: Record,
                                       onlyIncludeChangedFields: bool, ctx: EditContext, clock: Clock): UpdateMoneyRequestData
  {
    UpdateMoneyRequestData(
      UpdateParams(snap, transactionID, threadID, changes, onlyIncludeChangedFields, ctx),
      OnyxData(
        EditOptimistic(snap, transactionID, threadID, changes, ctx),
        EditSuccess(snap, transactionID, threadID, changes, ctx),
        EditFailure(snap, transactionID, threadID, changes, ctx, clock)))
  }

  // ---------------------------------------------------------------- field edits: properties

  /** A waypoint edit writes neither an action nor a report: only the transaction and the policy's lists. */
  lemma WaypointEditWritesNoReport(snap: Snapshot, transactionID: string, threadID: string, changes: Record, ctx: EditContext)
    requires IsWaypointEdit(changes)
    ensures forall u :: u in EditOptimistic(snap, transactionID, threadID, changes, ctx) ==> !u.key.ReportActionsKey? && !u.key.ReportKey?
  {
    assert EditReportPart(snap, transactionID, threadID, changes, ctx) == [];
  }

  /** Apart from waypoint edits, the report is written exactly when its total follows the edit. */
  lemma EditWritesReportIffTotalFollows(snap: Snapshot, transactionID: string, threadID: string, changes: Record, ctx: EditContext)
    requires !IsWaypointEdit(changes)
    ensures (exists u :: u in EditOptimistic(snap, transactionID, threadID, changes, ctx) && u.key.ReportKey?)
            <==> TotalFollowsEdit(UpdatedTransaction(snap, transactionID, ctx), EditedReport(snap, threadID))
  {
    if TotalFollowsEdit(UpdatedTransaction(snap, transactionID, ctx), EditedReport(snap, threadID)) {
      assert EditReportPatch(snap, threadID, ctx) in EditOptimistic(snap, transactionID, threadID, changes, ctx);
    }
  }

  lemma EditReportPartWritesReport(snap: Snapshot, transactionID: string, threadID: string, changes: Record, ctx: EditContext)
    requires !IsWaypointEdit(changes) && TotalFollowsEdit(UpdatedTransaction(snap, transactionID, ctx), EditedReport(snap, threadID))
    ensures SoleUpdate(EditReportPart(snap, transactionID, threadID, changes, ctx), EditReportPatch(snap, threadID, ctx))
  {
    var r := EditReportPatch(snap, threadID, ctx);
    Sole2(ModifiedActionAdded(snap, threadID, ctx), r, r);
  }

  lemma OptimisticWritesEditedReportOnce(snap: Snapshot, transactionID: string, threadID: string, changes: Record, ctx: EditContext)
    requires !IsWaypointEdit(changes) && TotalFollowsEdit(UpdatedTransaction(snap, transactionID, ctx), EditedReport(snap, threadID))
    ensures SoleUpdate(EditOptimistic(snap, transactionID, threadID, changes, ctx), EditReportPatch(snap, threadID, ctx))
  {
    var r := EditReportPatch(snap, threadID, ctx);
    EditReportPartWritesReport(snap, transactionID, threadID, changes, ctx);
    SoleInFront(EditReportPart(snap, transactionID, threadID, changes, ctx), [EditedTransactionPatch(snap, transactionID, changes, ctx)],
                RecentlyUsedUpdates(EditedReport(snap, threadID), changes, ctx), r);
  }

  /** When the total follows the edit, an expense report's total moves by `old - new` (expense amounts are stored negative). */
  lemma EditMovesExpenseTotal(s: StoreState, snap: Snapshot, transactionID: string, threadID: string, changes: Record, ctx: EditContext, total: int)
    requires !IsWaypointEdit(changes) && TotalFollowsEdit(UpdatedTransaction(snap, transactionID, ctx), EditedReport(snap, threadID))
    requires IsExpenseReport(EditedReport(snap, threadID)) && NumberOf(EditedReport(snap, threadID).value, "total") == Some(total)
    ensures FieldAt(ApplyAll(s, EditOptimistic(snap, transactionID, threadID, changes, ctx)), EditReportKey(snap, threadID), "total")
            == Some(Num(total + Diff(ctx)))
  {
    var r := EditReportPatch(snap, threadID, ctx);
    assert "total" in r.patch && r.patch["total"] == Num(total + Diff(ctx));
    OptimisticWritesEditedReportOnce(snap, transactionID, threadID, changes, ctx);
    MergeFieldLands(s, EditOptimistic(snap, transactionID, threadID, changes, ctx), r.key, r.patch, "total");
  }

  /** Otherwise the report is left as it was. */
  lemma EditLeavesReport(s: StoreState, snap: Snapshot, transactionID: string, threadID: string, changes: Record, ctx: EditContext)
    requires IsWaypointEdit(changes) || !TotalFollowsEdit(UpdatedTransaction(snap, transactionID, ctx), EditedReport(snap, threadID))
    ensures var k := EditReportKey(snap, threadID);
            Lookup(ApplyAll(s, EditOptimistic(snap, transactionID, threadID, changes, ctx)), k) == Lookup(s, k)
  {
    var k := EditReportKey(snap, threadID);
    var head := EditReportPart(snap, transactionID, threadID, changes, ctx);
    assert NoUpdate(head, k);
    NoUpdateConcat(head + [EditedTransactionPatch(snap, transactionID, changes, ctx)], RecentlyUsedUpdates(EditedReport(snap, threadID), changes, ctx), k);
    Untouched(s, EditOptimistic(snap, transactionID, threadID, changes, ctx), k);
  }

  /** The failure list merges the cached report back: every field it held is restored. */
  lemma EditFailureResetsReport(t: StoreState, snap: Snapshot, transactionID: string, threadID: string, changes: Record,
                                ctx: EditContext, clock: Clock)
    requires EditedReport(snap, threadID).Some?
    ensures var iouReport := EditedReport(snap, threadID).value;
            var after := ApplyAll(t, EditFailure(snap, transactionID, threadID, changes, ctx, clock));
            forall f :: f in iouReport && !iouReport[f].Null? ==> FieldAt(after, EditReportKey(snap, threadID), f) == Some(iouReport[f])
  {
    var iouReport := EditedReport(snap, threadID);
    var u := Merge(EditReportKey(snap, threadID), iouReport.value);
    var front := ModifiedActionFailed(snap, threadID, changes, ctx, clock) + [TransactionFailed(transactionID, changes, clock)];
    assert ReportReset(iouReport) == [u];
    SoleUpdateConcat([u], front, u);
    SoleMergeFields(t, EditFailure(snap, transactionID, threadID, changes, ctx, clock), u);
  }

  /** A rejected edit leaves the report's total where it was before the edit. */
  lemma EditFailureRestoresTotal(s: StoreState, snap: Snapshot, transactionID: string, threadID: string, changes: Record,
                                 ctx: EditContext, clock: Clock, total: int)
    requires EditedReport(snap, threadID).Some? && NumberOf(EditedReport(snap, threadID).value, "total") == Some(total)
    ensures var opt := ApplyAll(s, EditOptimistic(snap, transactionID, threadID, changes, ctx));
            FieldAt(ApplyAll(opt, EditFailure(snap, transactionID, threadID, changes, ctx, clock)), EditReportKey(snap, threadID), "total") == Some(Num(total))
  {
    EditFailureResetsReport(ApplyAll(s, EditOptimistic(snap, transactionID, threadID, changes, ctx)), snap, transactionID, threadID, changes, ctx, clock);
  }

  lemma OptimisticWritesEditedTransactionOnce(snap: Snapshot, transactionID: string, threadID: string, changes: Record, ctx: EditContext)
    ensures SoleUpdate(EditOptimistic(snap, transactionID, threadID, changes, ctx), EditedTransactionPatch(snap, transactionID, changes, ctx))
  {
    SoleInside(EditReportPart(snap, transactionID, threadID, changes, ctx), [EditedTransactionPatch(snap, transactionID, changes, ctx)],
               RecentlyUsedUpdates(EditedReport(snap, threadID), changes, ctx), EditedTransactionPatch(snap, transactionID, changes, ctx));
  }

  /** The edited transaction shows its changed fields pending, and is loading exactly for a waypoint edit. */
  lemma EditMarksTransactionPending(s: StoreState, snap: Snapshot, transactionID: string, threadID: string, changes: Record, ctx: EditContext)
    ensures var opt := ApplyAll(s, EditOptimistic(snap, transactionID, threadID, changes, ctx));
            var k := TransactionKey(transactionID);
            FieldAt(opt, k, "pendingFields") == Some(Obj(PendingFields(changes)))
            && FieldAt(opt, k, "isLoading") == Some(Bool(IsWaypointEdit(changes)))
            && FieldAt(opt, k, "errorFields") == None
  {
    OptimisticWritesEditedTransactionOnce(snap, transactionID, threadID, changes, ctx);
    SoleMergeFields(s, EditOptimistic(snap, transactionID, threadID, changes, ctx), EditedTransactionPatch(snap, transactionID, changes, ctx));
  }

  /** Once the server accepts, the pending marks and errors are cleared, loading stops, and a waypoint edit's draft is deleted. */
  lemma EditSuccessSettlesTransaction(t: StoreState, snap: Snapshot, transactionID: string, threadID: string, changes: Record, ctx: EditContext)
    ensures var after := ApplyAll(t, EditSuccess(snap, transactionID, threadID, changes, ctx));
            var k := TransactionKey(transactionID);
            FieldAt(after, k, "pendingFields") == Some(Obj(ClearedPendingFields(changes)))
            && FieldAt(after, k, "isLoading") == Some(Bool(false))
            && FieldAt(after, k, "errorFields") == None
            && (IsWaypointEdit(changes) ==> TransactionDraftKey(transactionID) !in after)
  {
    var us := EditSuccess(snap, transactionID, threadID, changes, ctx);
    var u := TransactionSettled(transactionID, changes);
    SoleInside(EditReportCleared(snap, transactionID, threadID, changes, ctx), [u], DraftDeleted(transactionID, changes), u);
    SoleMergeFields(t, us, u);
    if IsWaypointEdit(changes) {
      var del := Set(TransactionDraftKey(transactionID), Null);
      assert DraftDeleted(transactionID, changes) == [del];
      SoleUpdateConcat([del], EditReportCleared(snap, transactionID, threadID, changes, ctx) + [u], del);
      SoleWriter(t, us, del);
    }
  }

  /** A rejected edit clears the pending marks, stops loading and shows the edit error on every changed field. */
  lemma EditFailureFlagsTransaction(t: StoreState, snap: Snapshot, transactionID: string, threadID: string, changes: Record,
                                    ctx: EditContext, clock: Clock)
    ensures var after := ApplyAll(t, EditFailure(snap, transactionID, threadID, changes, ctx, clock));
            var k := TransactionKey(transactionID);
            FieldAt(after, k, "pendingFields") == Some(Obj(ClearedPendingFields(changes)))
            && FieldAt(after, k, "isLoading") == Some(Bool(false))
            && FieldAt(after, k, "errorFields") == Some(Obj(ErrorFields(changes, clock)))
  {
    var u := TransactionFailed(transactionID, changes, clock);
    SoleInside(ModifiedActionFailed(snap, threadID, changes, ctx, clock), [u], ReportReset(EditedReport(snap, threadID)), u);
    SoleMergeFields(t, EditFailure(snap, transactionID, threadID, changes, ctx, clock), u);
  }

  // ---------------------------------------------------------------- the full edit of a regular request

  /**
    What `editRegularMoneyRequest` takes on top of a field edit: the IOU report's new last
    message (`ReportUtils.getIOUReportActionMessage(...)[0]`), the chat's new last message (the
    translated "spent" or "owes" text), and whether the edited receipt is still being scanned.
  */
  datatype RegularEditContext = RegularEditContext(
    edit: EditContext,
    lastMessageText: Value,
    lastMessageHtml: Value,
    chatMessage: string,
    isScanning: bool)

  /** The fields whose pending marks the success list clears, and the details sent to the server. */
  const REGULAR_EDIT_FIELDS: set<string> := {"comment", "amount", "created", "currency", "merchant", "billable", "category", "tag"}

  /** The modified-expense fields the failure list keeps only when they were set. */
  const MODIFIED_FIELDS: set<string> := {"modifiedCreated", "modifiedAmount", "modifiedCurrency", "modifiedMerchant", "modifiedWaypoints"}

  function ChatOf(snap: Snapshot, threadID: string): Option<Record> {
    ReportOf(snap, IdOf(EditedReport(snap, threadID), "chatReportID"))
  }

  function ChatKey(snap: Snapshot, threadID: string): Key {
    ReportKey(IdOf(EditedReport(snap, threadID), "chatReportID"))
  }

  /** Here the total also has to change for the reports to follow the edit. */
  predicate RegularTotalFollows(snap: Snapshot, transactionID: string, threadID: string, ctx: RegularEditContext) {
    TotalFollowsEdit(UpdatedTransaction(snap, transactionID, ctx.edit), EditedReport(snap, threadID)) && Diff(ctx.edit) != 0
  }

  /** The report, merged whole; with the new total and last message when the total follows the edit. */
  function RegularReportPatch(snap: Snapshot, transactionID: string, threadID: string, ctx: RegularEditContext): (u: Update)
    ensures u.Merge? && u.key == EditReportKey(snap, threadID)
    ensures var iouReport := EditedReport(snap, threadID);
            IsExpenseReport(iouReport) && NumberOf(iouReport.value, "total").Some? ==>
              "total" in u.patch
              && u.patch["total"] == Num(NumberOf(iouReport.value, "total").value
                                        + if RegularTotalFollows(snap, transactionID, threadID, ctx) then Diff(ctx.edit) else 0)
  {
    var iouReport := EditedReport(snap, threadID);
    Merge(EditReportKey(snap, threadID),
      if RegularTotalFollows(snap, transactionID, threadID, ctx) then
        ReportWithEditedTotal(iouReport, Diff(ctx.edit), ctx.edit) + map["lastMessageText" := ctx.lastMessageText, "lastMessageHtml" := ctx.lastMessageHtml]
      else RecordOr(iouReport))
  }

  function RegularChatPatch(snap: Snapshot, transactionID: string, threadID: string, ctx: RegularEditContext): (u: Update)
    ensures u.key == ChatKey(snap, threadID)
  {
    Merge(ChatKey(snap, threadID),
      RecordOr(ChatOf(snap, threadID))
      + if RegularTotalFollows(snap, transactionID, threadID, ctx)
        then map["lastMessageText" := Str(ctx.chatMessage), "lastMessageHtml" := Str(ctx.chatMessage)] else map[])
  }

  function RegularTransactionPatch(snap: Snapshot, transactionID: string, ctx: RegularEditContext): (u: Update)
    ensures u.key == TransactionKey(transactionID)
  {
    Merge(TransactionKey(transactionID), RecordOr(UpdatedTransaction(snap, transactionID, ctx.edit)))
  }

  /** The thread is marked read up to now. */
  function ThreadRead(threadID: string, clock: Clock): (u: Update)
    ensures u.key == ReportKey(threadID)
  {
    Merge(ReportKey(threadID), map["lastReadTime" := Str(clock.dbTime), "lastVisibleActionCreated" := Str(clock.dbTime)])
  }

  /** `r?.f ?? ''` for an action ID. */
  function IdOrEmpty(r: Option<Record>, f: string): string {
    var v := OptFieldOf(r, f);
    if v.Some? && v.value.Str? then v.value.s else ""
  }

  function WhispersCleared(reportID: string, actionID: string): Update {
    Merge(ReportActionsKey(reportID), map[actionID := Obj(map["whisperedToAccountIDs" := List([])])])
  }

  /** Unless the receipt is being scanned, the request and preview actions are shown to everyone. */
  function WhispersToClear(snap: Snapshot, threadID: string, ctx: RegularEditContext): (us: seq<Update>)
    ensures forall x :: x in us ==> x.key.ReportActionsKey?
  {
    var iouReport := EditedReport(snap, threadID);
    if ctx.isScanning then []
    else [WhispersCleared(IdOf(iouReport, "reportID"), IdOrEmpty(ThreadOf(snap, threadID), "parentReportActionID")),
          WhispersCleared(IdOf(iouReport, "parentReportID"), IdOrEmpty(iouReport, "parentReportActionID"))]
  }

  function RegularOptimistic(snap: Snapshot, transactionID: string, threadID: string, changes: Record, ctx: RegularEditContext, clock: Clock): seq<Update> {
    [ ModifiedActionAdded(snap, threadID, ctx.edit),
      RegularTransactionPatch(snap, transactionID, ctx),
      RegularReportPatch(snap, transactionID, threadID, ctx),
      RegularChatPatch(snap, transactionID, threadID, ctx),
      ThreadRead(threadID, clock)]
    + WhispersToClear(snap, threadID, ctx)
    + RecentlyUsedUpdates(EditedReport(snap, threadID), changes, ctx.edit)
  }

  /** The fixed set of pending marks a regular edit clears. */
  function RegularPendingCleared(transactionID: string): (u: Update)
    ensures u.Merge? && u.key == TransactionKey(transactionID)
    ensures "pendingFields" in u.patch && u.patch["pendingFields"].Obj?
    ensures u.patch["pendingFields"].fields.Keys == REGULAR_EDIT_FIELDS
    ensures forall f :: f in u.patch["pendingFields"].fields ==> u.patch["pendingFields"].fields[f].Null?
  {
    Merge(TransactionKey(transactionID), map["pendingFields" := Obj(map f | f in REGULAR_EDIT_FIELDS :: Null)])
  }

  function RegularSuccess(snap: Snapshot, transactionID: string, threadID: string, ctx: RegularEditContext): seq<Update> {
    [ ActionPendingCleared(IdOf(ThreadOf(snap, threadID), "reportID"), ModifiedActionID(ctx.edit)),
      RegularPendingCleared(transactionID),
      Merge(EditReportKey(snap, threadID), map["pendingAction" := Null])]
  }

  /** `r?.f ? r.f : null` */
  function KeepIfSet(r: Option<Record>, f: string): Value {
    var v := OptFieldOf(r, f);
    if v.Some? && Truthy(v.value) then v.value else Null
  }

  /** The cached transaction merged back; modified fields that were not set, and the pending marks, removed. */
  function TransactionRestored(snap: Snapshot, transactionID: string): (u: Update)
    ensures u.Merge? && u.key == TransactionKey(transactionID)
    ensures var t := TransactionOf(snap, transactionID);
            && (forall f :: f in RecordOr(t) && f !in MODIFIED_FIELDS && f != "pendingFields" ==> f in u.patch && u.patch[f] == RecordOr(t)[f])
            && (forall f :: f in MODIFIED_FIELDS ==> f in u.patch && u.patch[f] == KeepIfSet(t, f))
            && "pendingFields" in u.patch && u.patch["pendingFields"].Null?
  {
    var t := TransactionOf(snap, transactionID);
    Merge(TransactionKey(transactionID), (RecordOr(t) + ModifiedKept(t))["pendingFields" := Null])
  }

  function ModifiedKept(t: Option<Record>): (r: Record)
    ensures r.Keys == MODIFIED_FIELDS
    ensures forall f :: f in r ==> r[f] == KeepIfSet(t, f)
  {
    map f | f in MODIFIED_FIELDS :: KeepIfSet(t, f)
  }

  /** The cached report merged back, its display total removed unless it was set. */
  function ReportRestored(snap: Snapshot, threadID: string): (u: Update)
    ensures u.Merge? && u.key == EditReportKey(snap, threadID)
    ensures var r := RecordOr(EditedReport(snap, threadID));
            && (forall f :: f in r && f != "cachedTotal" ==> f in u.patch && u.patch[f] == r[f])
            && "cachedTotal" in u.patch && u.patch["cachedTotal"] == KeepIfSet(EditedReport(snap, threadID), "cachedTotal")
  {
    Merge(EditReportKey(snap, threadID),
      RecordOr(EditedReport(snap, threadID)) + map["cachedTotal" := KeepIfSet(EditedReport(snap, threadID), "cachedTotal")])
  }

  function ThreadReadRestored(snap: Snapshot, threadID: string): (u: Update)
    ensures u.key == ReportKey(threadID)
  {
    var thread := ThreadOf(snap, threadID);
    Merge(ReportKey(threadID), Entry("lastReadTime", OptFieldOf(thread, "lastReadTime")) + Entry("lastVisibleActionCreated", OptFieldOf(thread, "lastVisibleActionCreated")))
  }

  function RegularFailure(snap: Snapshot, transactionID: string, threadID: string, ctx: RegularEditContext, clock: Clock): seq<Update> {
    [ Merge(EditActionsKey(snap, threadID), map[ModifiedActionID(ctx.edit) := Obj(map["errors" := OnyxError(clock, Some(EDIT_FAILURE_MESSAGE))])]),
      TransactionRestored(snap, transactionID),
      ReportRestored(snap, threadID),
      Merge(ChatKey(snap, threadID), RecordOr(ChatOf(snap, threadID))),
      ThreadReadRestored(snap, threadID)]
  }

  /** The parameters: the transaction and action IDs and the eight editable details of the edited transaction. */
  function RegularEditParams(transactionID: string, ctx: RegularEditContext): (params: Record)
    ensures forall f :: f in params ==> f in REGULAR_EDIT_FIELDS || f == "transactionID" || f == "reportActionID"
    ensures forall f :: f in REGULAR_EDIT_FIELDS ==> (f in params <==> f in RecordOr(ctx.edit.details)) && (f in params ==> params[f] == RecordOr(ctx.edit.details)[f])
    ensures "transactionID" in params && params["transactionID"] == Str(transactionID)
    ensures "reportActionID" in params <==> "reportActionID" in ctx.edit.modifiedAction
  {
    var sent := EditableDetails(RecordOr(ctx.edit.details));
    var withID := Assign(sent, "transactionID", Some(Str(transactionID)));
    assert "transactionID" !in REGULAR_EDIT_FIELDS && "reportActionID" !in REGULAR_EDIT_FIELDS;
    Assign(withID, "reportActionID", FieldOf(ctx.edit.modifiedAction, "reportActionID"))
  }

  function EditableDetails(details: Record): (r: Record)
    ensures forall f :: f in r <==> f in details && f in REGULAR_EDIT_FIELDS
    ensures forall f :: f in r ==> r[f] == details[f]
  {
    map f | f in details && f in REGULAR_EDIT_FIELDS :: details[f]
  }

  function EditRegularMoneyRequest(snap: Snapshot, transactionID: string, threadID: string, changes: Record,
                                   ctx: RegularEditContext, clock: Clock): WriteRequest
  {
    WriteRequest("EditMoneyRequest", RegularEditParams(transactionID, ctx),
      OnyxData(
        RegularOptimistic(snap, transactionID, threadID, changes, ctx, clock),
        RegularSuccess(snap, transactionID, threadID, ctx),
        RegularFailure(snap, transactionID, threadID, ctx, clock)))
  }

  /** The three reports an edit writes are distinct. */
  predicate DistinctReports(snap: Snapshot, threadID: string) {
    var iouID := IdOf(EditedReport(snap, threadID), "reportID");
    iouID != IdOf(EditedReport(snap, threadID), "chatReportID") && iouID != threadID
  }

  // ---------------------------------------------------------------- the full edit: properties

  lemma RegularOptimisticWritesReportOnce(snap: Snapshot, transactionID: string, threadID: string, changes: Record, ctx: RegularEditContext, clock: Clock)
    requires DistinctReports(snap, threadID)
    ensures SoleUpdate(RegularOptimistic(snap, transactionID, threadID, changes, ctx, clock), RegularReportPatch(snap, transactionID, threadID, ctx))
  {
    var r := RegularReportPatch(snap, transactionID, threadID, ctx);
    var head := [ModifiedActionAdded(snap, threadID, ctx.edit), RegularTransactionPatch(snap, transactionID, ctx), r,
                 RegularChatPatch(snap, transactionID, threadID, ctx), ThreadRead(threadID, clock)];
    Sole5(head[0], head[1], head[2], head[3], head[4], r);
    SoleInFront(head, WhispersToClear(snap, threadID, ctx), RecentlyUsedUpdates(EditedReport(snap, threadID), changes, ctx.edit), r);
  }

  /**
    An expense report's total moves by `old - new` when the currencies match, a new amount is
    set and the amount changed; otherwise it stays.
  */
  lemma RegularEditMovesExpenseTotal(s: StoreState, snap: Snapshot, transactionID: string, threadID: string, changes: Record,
                                     ctx: RegularEditContext, clock: Clock, total: int)
    requires DistinctReports(snap, threadID)
    requires IsExpenseReport(EditedReport(snap, threadID)) && NumberOf(EditedReport(snap, threadID).value, "total") == Some(total)
    ensures FieldAt(ApplyAll(s, RegularOptimistic(snap, transactionID, threadID, changes, ctx, clock)), EditReportKey(snap, threadID), "total")
            == Some(Num(if RegularTotalFollows(snap, transactionID, threadID, ctx) then total + Diff(ctx.edit) else total))
  {
    var r := RegularReportPatch(snap, transactionID, threadID, ctx);
    assert "total" in r.patch && r.patch["total"] == Num(if RegularTotalFollows(snap, transactionID, threadID, ctx) then total + Diff(ctx.edit) else total);
    RegularOptimisticWritesReportOnce(snap, transactionID, threadID, changes, ctx, clock);
    MergeFieldLands(s, RegularOptimistic(snap, transactionID, threadID, changes, ctx, clock), r.key, r.patch, "total");
  }

  lemma RegularFailureWritesOnce(snap: Snapshot, transactionID: string, threadID: string, ctx: RegularEditContext, clock: Clock)
    requires DistinctReports(snap, threadID)
    ensures SoleUpdate(RegularFailure(snap, transactionID, threadID, ctx, clock), TransactionRestored(snap, transactionID))
    ensures SoleUpdate(RegularFailure(snap, transactionID, threadID, ctx, clock), ReportRestored(snap, threadID))
  {
    var us := RegularFailure(snap, transactionID, threadID, ctx, clock);
    Sole5(us[0], us[1], us[2], us[3], us[4], us[1]);
    Sole5(us[0], us[1], us[2], us[3], us[4], us[2]);
  }

  /** A rejected edit merges the cached report back: its fields return, and its display total unless it had none. */
  lemma RegularFailureRestoresReport(t: StoreState, snap: Snapshot, transactionID: string, threadID: string, ctx: RegularEditContext, clock: Clock)
    requires DistinctReports(snap, threadID)
    ensures var r := RecordOr(EditedReport(snap, threadID));
            var after := ApplyAll(t, RegularFailure(snap, transactionID, threadID, ctx, clock));
            var k := EditReportKey(snap, threadID);
            && (forall f :: f in r && f != "cachedTotal" && !r[f].Null? ==> FieldAt(after, k, f) == Some(r[f]))
            && FieldAt(after, k, "cachedTotal") == (var c := KeepIfSet(EditedReport(snap, threadID), "cachedTotal"); if c.Null? then None else Some(c))
  {
    RegularFailureWritesOnce(snap, transactionID, threadID, ctx, clock);
    SoleMergeFields(t, RegularFailure(snap, transactionID, threadID, ctx, clock), ReportRestored(snap, threadID));
  }

  /**
    A rejected edit merges the cached transaction back: its fields return, each modified field
    returns only if it was set and is removed otherwise, and the pending marks are removed.
  */
  lemma RegularFailureRestoresTransaction(t: StoreState, snap: Snapshot, transactionID: string, threadID: string, ctx: RegularEditContext, clock: Clock)
    requires DistinctReports(snap, threadID)
    ensures var tx := TransactionOf(snap, transactionID);
            var after := ApplyAll(t, RegularFailure(snap, transactionID, threadID, ctx, clock));
            var k := TransactionKey(transactionID);
            && (forall f :: f in RecordOr(tx) && f !in MODIFIED_FIELDS && f != "pendingFields" && !RecordOr(tx)[f].Null? ==> FieldAt(after, k, f) == Some(RecordOr(tx)[f]))
            && (forall f :: f in MODIFIED_FIELDS ==> FieldAt(after, k, f) == (if KeepIfSet(tx, f).Null? then None else Some(KeepIfSet(tx, f))))
            && FieldAt(after, k, "pendingFields") == None
  {
    RegularFailureWritesOnce(snap, transactionID, threadID, ctx, clock);
    SoleMergeFields(t, RegularFailure(snap, transactionID, threadID, ctx, clock), TransactionRestored(snap, transactionID));
  }

  /** Once the server accepts, every one of the eight pending marks is cleared. */
  lemma RegularSuccessClearsPending(t: StoreState, snap: Snapshot, transactionID: string, threadID: string, ctx: RegularEditContext)
    ensures var after := ApplyAll(t, RegularSuccess(snap, transactionID, threadID, ctx));
            var p := FieldAt(after, TransactionKey(transactionID), "pendingFields");
            p.Some? && p.value.Obj? && p.value.fields.Keys == REGULAR_EDIT_FIELDS && forall f :: f in p.value.fields ==> p.value.fields[f].Null?
  {
    var us := RegularSuccess(snap, transactionID, threadID, ctx);
    var u := RegularPendingCleared(transactionID);
    Sole3(us[0], us[1], us[2], u);
    MergeFieldLands(t, us, u.key, u.patch, "pendingFields");
  }
}
