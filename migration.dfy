/**
  The one-time migration CheckForPreviousReportActionID: when the first stored report action
  lacks `previousReportActionID`, every non-empty report-actions entry is reset to `{}`.

  The collection arrives as the Onyx callback delivers it, an object keyed by
  `reportActions_<reportID>`; it is modelled as the ordered list of its entries, because the
  decision depends on which entry comes first. An entry's value is the list of its actions'
  values in object order; an entry stored as `null` or `{}` has no actions (both are
  `_.isEmpty`).
*/
module ReportActionsMigration {
  import opened Wrappers
  import opened Onyx

  datatype Entry = Entry(key: string, actions: seq<Value>)

  type Collection = seq<Entry>

  /** Which of the four log messages the run ends with. */
  datatype Outcome = NoReportActions | NoValidReportActions | PreviousIDFound | Cleared

  /** `_.has(value, field)`: an own property, whatever its value. */
  predicate Has(v: Value, field: string) {
    v.Obj? && field in v.fields
  }

  predicate IsEmptyEntry(e: Entry) {
    |e.actions| == 0
  }

  ghost predicate DistinctKeys(all: Collection) {
    forall i, j :: 0 <= i < j < |all| ==> all[i].key != all[j].key
  }

  /** `_.find(_.values(all), (reportActions) => !_.isEmpty(reportActions))` */
  function FirstNonEmpty(all: Collection): (r: Option<nat>)
    ensures r.None? <==> forall i :: 0 <= i < |all| ==> IsEmptyEntry(all[i])
    ensures r.Some? ==> r.value < |all| && !IsEmptyEntry(all[r.value])
    ensures r.Some? ==> forall j :: 0 <= j < r.value ==> IsEmptyEntry(all[j])
  {
    if |all| == 0 then None
    else if !IsEmptyEntry(all[0]) then Some(0)
    else match FirstNonEmpty(all[1..])
      case None => None
      case Some(i) => Some(i + 1)
  }

  /** `_.find(_.values(reportActions), (data) => _.has(data, 'reportActionID'))` */
  function FirstWithReportActionID(actions: seq<Value>): (r: Option<nat>)
    ensures r.None? <==> forall i :: 0 <= i < |actions| ==> !Has(actions[i], "reportActionID")
    ensures r.Some? ==> r.value < |actions| && Has(actions[r.value], "reportActionID")
    ensures r.Some? ==> forall j :: 0 <= j < r.value ==> !Has(actions[j], "reportActionID")
  {
    if |actions| == 0 then None
    else if Has(actions[0], "reportActionID") then Some(0)
    else match FirstWithReportActionID(actions[1..])
      case None => None
      case Some(i) => Some(i + 1)
  }

  /** `firstValidValue`: looked for only inside the first non-empty entry. */
  function FirstValidValue(all: Collection): Option<Value> {
    match FirstNonEmpty(all)
    case None => None
    case Some(i) =>
      match FirstWithReportActionID(all[i].actions)
      case None => None
      case Some(j) => Some(all[i].actions[j])
  }

  /** The decision the migration takes, in the order of its early returns. */
  function Decide(all: Collection): Outcome {
    if |all| == 0 then NoReportActions
    else match FirstValidValue(all)
      case None => NoValidReportActions
      case Some(v) => if Has(v, "previousReportActionID") then PreviousIDFound else Cleared
  }

  /** The `onyxData` the `_.each` loop builds for the first `|all|` entries. */
  function ClearedWrites(all: Collection): map<string, Value>
    decreases |all|
  {
    if |all| == 0 then map[]
    else
      var w := ClearedWrites(all[..|all| - 1]);
      var e := all[|all| - 1];
      if IsEmptyEntry(e) then w else w[e.key := Obj(map[])]
  }

  /**
    The migration: the decision, then the write map handed to `Onyx.multiSet` (empty when the
    migration stops early).
  */
  method Migrate(all: Collection) returns (outcome: Outcome, writes: map<string, Value>)
    ensures outcome == Decide(all)
    ensures writes == if outcome == Cleared then ClearedWrites(all) else map[]
  {
    outcome := Decide(all);
    writes := map[];
    if outcome != Cleared {
      return;
    }
    var i := 0;
    while i < |all|
      invariant 0 <= i <= |all|
      invariant writes == ClearedWrites(all[..i])
    {
      assert all[..i + 1][..i] == all[..i];
      if !IsEmptyEntry(all[i]) {
        writes := writes[all[i].key := Obj(map[])];
      }
      i := i + 1;
    }
    assert all[..|all|] == all;
  }

  /** The collection after `Onyx.multiSet(writes)`: every written entry now holds `{}`. */
  function AfterMultiSet(all: Collection, writes: map<string, Value>): (r: Collection)
    ensures |r| == |all|
    ensures forall i :: 0 <= i < |all| ==> r[i].key == all[i].key
  {
    seq(|all|, i requires 0 <= i < |all| => if all[i].key in writes then Entry(all[i].key, []) else all[i])
  }

  /** One run of the migration on the stored collection, as the store sees it afterwards. */
  function Run(all: Collection): Collection {
    if Decide(all) == Cleared then AfterMultiSet(all, ClearedWrites(all)) else all
  }

  // ---------------------------------------------------------------- properties

  /** An empty collection is skipped and nothing is written. */
  lemma EmptyCollectionWritesNothing(all: Collection)
    requires |all| == 0
    ensures Decide(all) == NoReportActions
  {
  }

  /** With no action carrying `reportActionID` in a non-empty entry, nothing is written. */
  lemma NoValidActionWritesNothing(all: Collection)
    requires |all| > 0
    requires forall i, j :: 0 <= i < |all| && 0 <= j < |all[i].actions| ==> !Has(all[i].actions[j], "reportActionID")
    ensures Decide(all) == NoValidReportActions
  {
    match FirstNonEmpty(all)
    case None =>
    case Some(i) =>
      var r := FirstWithReportActionID(all[i].actions);
      assert r.None?;
  }

  /**
    Only the first non-empty entry is inspected: when it holds no action with `reportActionID`,
    the migration stops, whatever later entries hold.
  */
  lemma OnlyFirstEntryInspected(all: Collection, i: nat)
    requires i < |all| && !IsEmptyEntry(all[i])
    requires forall j :: 0 <= j < i ==> IsEmptyEntry(all[j])
    requires forall a :: a in all[i].actions ==> !Has(a, "reportActionID")
    ensures Decide(all) == NoValidReportActions
  {
    var r := FirstNonEmpty(all);
    assert r == Some(i);
    forall k | 0 <= k < |all[i].actions|
      ensures !Has(all[i].actions[k], "reportActionID")
    {
      assert all[i].actions[k] in all[i].actions;
    }
    assert FirstWithReportActionID(all[i].actions).None?;
  }

  /**
    Only the first action with `reportActionID` of that entry decides: it clears exactly when
    that action lacks `previousReportActionID`.
  */
  lemma FirstValidActionDecides(all: Collection, i: nat, j: nat)
    requires i < |all| && j < |all[i].actions|
    requires forall k :: 0 <= k < i ==> IsEmptyEntry(all[k])
    requires Has(all[i].actions[j], "reportActionID")
    requires forall k :: 0 <= k < j ==> !Has(all[i].actions[k], "reportActionID")
    ensures Decide(all) == if Has(all[i].actions[j], "previousReportActionID") then PreviousIDFound else Cleared
  {
    var r := FirstNonEmpty(all);
    assert r == Some(i);
    var q := FirstWithReportActionID(all[i].actions);
    assert q == Some(j);
  }

  /** The write map names every non-empty entry, with `{}`, and nothing else. */
  lemma {:induction false} ClearedWritesKeys(all: Collection)
    ensures forall k :: k in ClearedWrites(all) <==> exists i :: 0 <= i < |all| && all[i].key == k && !IsEmptyEntry(all[i])
    ensures forall k :: k in ClearedWrites(all) ==> ClearedWrites(all)[k] == Obj(map[])
    decreases |all|
  {
    if |all| > 0 {
      var init := all[..|all| - 1];
      ClearedWritesKeys(init);
      forall k | k in ClearedWrites(all)
        ensures exists i :: 0 <= i < |all| && all[i].key == k && !IsEmptyEntry(all[i])
      {
        if k !in ClearedWrites(init) {
          assert all[|all| - 1].key == k;
        } else {
          var i :| 0 <= i < |init| && init[i].key == k && !IsEmptyEntry(init[i]);
          assert all[i] == init[i];
        }
      }
      forall k | exists i :: 0 <= i < |all| && all[i].key == k && !IsEmptyEntry(all[i])
        ensures k in ClearedWrites(all)
      {
        var i :| 0 <= i < |all| && all[i].key == k && !IsEmptyEntry(all[i]);
        if i < |all| - 1 {
          assert init[i] == all[i];
        }
      }
    }
  }

  /** With distinct keys (as in a JavaScript object), an empty entry's key is never written. */
  lemma EmptyEntriesLeftOut(all: Collection, i: nat)
    requires DistinctKeys(all)
    requires i < |all| && IsEmptyEntry(all[i])
    ensures all[i].key !in ClearedWrites(all)
  {
    ClearedWritesKeys(all);
    forall j | 0 <= j < |all| && all[j].key == all[i].key
      ensures IsEmptyEntry(all[j])
    {
      assert j == i;
    }
  }

  /** After clearing, every entry is empty. */
  lemma ClearingEmptiesEveryEntry(all: Collection)
    ensures forall i :: 0 <= i < |all| ==> IsEmptyEntry(AfterMultiSet(all, ClearedWrites(all))[i])
  {
    ClearedWritesKeys(all);
    forall i | 0 <= i < |all|
      ensures IsEmptyEntry(AfterMultiSet(all, ClearedWrites(all))[i])
    {
      if !IsEmptyEntry(all[i]) {
        assert all[i].key in ClearedWrites(all);
      }
    }
  }

  /** The migration is idempotent: a second run finds nothing to clear and writes nothing. */
  lemma MigrationIdempotent(all: Collection)
    ensures Decide(Run(all)) != Cleared
    ensures Run(Run(all)) == Run(all)
  {
    if Decide(all) == Cleared {
      var after := Run(all);
      ClearingEmptiesEveryEntry(all);
      assert FirstNonEmpty(after).None?;
    }
  }
}
