/**
  Shared vocabulary of the money-request action layer: the constants it writes, JavaScript
  truthiness, field access on loosely typed records, the clock and error values, and the
  snapshot of the store that the module-level `Onyx.connect` caches hold.

  CONST.ts is not part of this model. The constants below carry the values the app defines;
  the proofs only rely on their being distinct.
*/
module IouData {
  import opened Wrappers
  import opened Onyx

  // CONST.RED_BRICK_ROAD_PENDING_ACTION
  const PENDING_ADD: Value := Str("add")
  const PENDING_UPDATE: Value := Str("update")
  const PENDING_DELETE: Value := Str("delete")

  // CONST.REPORT.STATE_NUM
  const STATE_OPEN: int := 0
  const STATE_SUBMITTED: int := 1
  const STATE_APPROVED: int := 2

  // CONST.REPORT.STATUS_NUM
  const STATUS_OPEN: int := 0
  const STATUS_SUBMITTED: int := 1
  const STATUS_CLOSED: int := 2
  const STATUS_APPROVED: int := 3
  const STATUS_REIMBURSED: int := 4

  // CONST.IOU and CONST.POLICY
  const OPTIMISTIC_TRANSACTION_ID: string := "1"
  const REPORT_TYPE_EXPENSE: string := "expense"
  const POLICY_TYPE_FREE: string := "free"
  const RECEIPT_ERROR: string := "receiptError"
  const RECEIPT_STATE_OPEN: string := "OPEN"
  const REQUEST_TYPE_DISTANCE: string := "distance"
  const CURRENCY_USD: string := "USD"
  const PARTIAL_TRANSACTION_MERCHANT: string := "(none)"
  const ACTION_TYPE_IOU: string := "IOU"

  /** JavaScript truthiness of a JSON value. */
  predicate Truthy(v: Value) {
    match v
    case Null => false
    case Bool(b) => b
    case Num(n) => n != 0
    case Str(s) => s != ""
    case _ => true
  }

  /** `r.f`, with `None` for undefined. */
  function FieldOf(r: Record, f: string): Option<Value> {
    if f in r then Some(r[f]) else None
  }

  /** `r?.f` on a possibly missing record. */
  function OptFieldOf(r: Option<Record>, f: string): Option<Value> {
    if r.Some? then FieldOf(r.value, f) else None
  }

  /** `{f: v}` where an undefined `v` leaves the field out, as JSON serialisation does. */
  function Entry(f: string, v: Option<Value>): (r: Record)
    ensures forall g :: g in r ==> g == f
  {
    if v.Some? then map[f := v.value] else map[]
  }

  /** The text `${r?.f}` an Onyx key is built from: the string, or "undefined". */
  function IdOf(r: Option<Record>, f: string): string {
    var v := OptFieldOf(r, f);
    if v.Some? && v.value.Str? then v.value.s else "undefined"
  }

  /** `typeof r.f === 'number'`, with the number. */
  function NumberOf(r: Record, f: string): Option<int> {
    if f in r && r[f].Num? then Some(r[f].n) else None
  }

  /** `action.message?.[0].<f>` */
  function MessageField(action: Record, f: string): Option<Value> {
    if "message" in action && action["message"].List? && |action["message"].items| > 0
       && action["message"].items[0].Obj? && f in action["message"].items[0].fields
    then Some(action["message"].items[0].fields[f])
    else None
  }

  /** `isEmptyObject(v)`: undefined, null, or an object without own keys. */
  predicate IsEmptyObject(v: Option<Value>) {
    v.None? || v.value.Null? || (v.value.Obj? && |v.value.fields| == 0)
  }

  /** `ReportUtils.isExpenseReport(report)`: the report's type is `expense`. */
  predicate IsExpenseReport(r: Option<Record>) {
    OptFieldOf(r, "type") == Some(Str(REPORT_TYPE_EXPENSE))
  }

  /** The times an operation reads: `DateUtils.getDBTime()` and `DateUtils.getMicroseconds()`. */
  datatype Clock = Clock(dbTime: string, microseconds: string)

  /**
    `ErrorUtils.getMicroSecondOnyxError(key)`: one error keyed by the current microsecond time.
    The translated message is represented by its translation key; `None` stands for `null`.
  */
  function OnyxError(c: Clock, messageKey: Option<string>): Value {
    Obj(map[c.microseconds := if messageKey.Some? then Str(messageKey.value) else Null])
  }

  /** `ErrorUtils.getMicroSecondOnyxErrorObject(error)` */
  function OnyxErrorObject(c: Clock, error: Record): Value {
    Obj(map[c.microseconds := Obj(error)])
  }

  /**
    The store as the module-level `Onyx.connect` callbacks last saw it: collections by ID
    (without their key prefix), the session, and the betas reduced to the one permission read.
  */
  datatype Snapshot = Snapshot(
    reports: map<string, Record>,
    transactions: map<string, Record>,
    transactionDrafts: map<string, Record>,
    transactionViolations: map<string, Value>,
    draftSplitTransactions: map<string, Record>,
    nextSteps: map<string, Record>,
    personalDetails: map<int, Record>,
    canUseViolations: bool,
    userAccountID: int,
    currentUserEmail: string,
    currentUserPersonalAccountID: Option<int>,
    localCurrencyCode: Option<string>,
    currentDate: string)

  function ReportOf(snap: Snapshot, id: string): Option<Record> {
    if id in snap.reports then Some(snap.reports[id]) else None
  }

  function TransactionOf(snap: Snapshot, id: string): Option<Record> {
    if id in snap.transactions then Some(snap.transactions[id]) else None
  }

  function NextStepOf(snap: Snapshot, id: string): Option<Record> {
    if id in snap.nextSteps then Some(snap.nextSteps[id]) else None
  }

  /** The store holds, at `k`, what the snapshot records for it. */
  predicate Holds(s: StoreState, k: Key, r: Option<Record>) {
    Lookup(s, k) == if r.Some? then Some(Obj(r.value)) else None
  }

  /** `API.write(command, parameters, {optimisticData, successData, failureData})` */
  datatype WriteRequest = WriteRequest(command: string, parameters: Record, onyxData: OnyxData)

  /** `r.f ?? ''` for a string field. */
  function StrOr(r: Record, f: string): string {
    if f in r && r[f].Str? then r[f].s else ""
  }

  /** `value ?? ''` for an optional message field. */
  function OrEmpty(v: Option<Value>): Value {
    if v.Some? && !v.value.Null? then v.value else Str("")
  }

  // ---------------------------------------------------------------- report-action patches

  /** Adds an optimistic report action, marked pending ADD, under the report's actions. */
  function ActionAdded(reportID: string, action: Record): Update {
    Merge(ReportActionsKey(reportID), map[IdOf(Some(action), "reportActionID") := Obj(action + map["pendingAction" := PENDING_ADD])])
  }

  /** Clears the pending flag of the action once the server has accepted it. */
  function ActionPendingCleared(reportID: string, actionID: string): Update {
    Merge(ReportActionsKey(reportID), map[actionID := Obj(map["pendingAction" := Null])])
  }

  /** Attaches the generic `iou.error.other` error to the action. */
  function ActionFailed(reportID: string, actionID: string, clock: Clock): Update {
    Merge(ReportActionsKey(reportID), map[actionID := Obj(map["errors" := OnyxError(clock, Some("iou.error.other"))])])
  }
}
