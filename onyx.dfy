/**
  The key-value store the action layer writes to (react-native-onyx).

  The library itself is not part of this model; what follows states the simplified semantics
  every lemma about the action layer relies on:
  - a key holds one JSON-like value;
  - `Set(key, v)` replaces the value, and `Set(key, Null)` deletes the key;
  - `Merge(key, patch)` overlays the patch's top-level fields onto the stored object (a missing
    key or a non-object counts as `{}`); a field whose patch value is `Null` is removed. The
    merge is SHALLOW: a nested object in the patch replaces the stored nested object.
  Both writes drop top-level `Null` fields, so stored objects never hold a `Null` field.
*/
module Onyx {
  import opened Wrappers

  datatype Value =
    | Null
    | Bool(b: bool)
    | Num(n: int)
    | Str(s: string)
    | List(items: seq<Value>)
    | Obj(fields: map<string, Value>)

  type Record = map<string, Value>

  /** One constructor per collection prefix of ONYXKEYS that the action layer writes. */
  datatype Key =
    | ReportKey(reportID: string)
    | ReportActionsKey(reportID: string)
    | TransactionKey(transactionID: string)
    | TransactionDraftKey(transactionID: string)
    | SplitTransactionDraftKey(transactionID: string)
    | TransactionViolationsKey(transactionID: string)
    | NextStepKey(reportID: string)
    | RecentlyUsedCategoriesKey(policyID: string)
    | RecentlyUsedTagsKey(policyID: string)
    | PersonalDetailsListKey
    | LastPaymentMethodKey
    | IouKey

  type StoreState = map<Key, Value>

  /** An OnyxUpdate: `onyxMethod` SET or MERGE, a key and a value. */
  datatype Update = Set(key: Key, value: Value) | Merge(key: Key, patch: Record)

  /** The three lists every action hands to the network layer. */
  datatype OnyxData = OnyxData(optimisticData: seq<Update>, successData: seq<Update>, failureData: seq<Update>)

  ghost predicate NullFree(r: Record) {
    forall f :: f in r ==> !r[f].Null?
  }

  /** What a key may hold: never `Null`, and an object holds no `Null` field. */
  ghost predicate StoredValue(v: Value) {
    !v.Null? && (v.Obj? ==> NullFree(v.fields))
  }

  ghost predicate WellFormed(s: StoreState) {
    forall k :: k in s ==> StoredValue(s[k])
  }

  function StripNulls(r: Record): Record {
    map f | f in r && !r[f].Null? :: r[f]
  }

  /** The shallow merge: patch fields win, a `Null` patch field deletes, other fields stay. */
  function MergeRecord(base: Record, patch: Record): (r: Record)
    ensures NullFree(base) ==> NullFree(r)
  {
    map f | f in base.Keys + patch.Keys && !(f in patch && patch[f].Null?) ::
      if f in patch then patch[f] else base[f]
  }

  function Lookup(s: StoreState, k: Key): Option<Value> {
    if k in s then Some(s[k]) else None
  }

  /** The object a merge starts from: the stored object, or `{}`. */
  function Base(cur: Option<Value>): Record {
    if cur.Some? && cur.value.Obj? then cur.value.fields else map[]
  }

  /** The value a key holds after one update, given the value it held before. */
  function Step(cur: Option<Value>, u: Update): (r: Option<Value>)
    ensures r.Some? ==> !r.value.Null?
  {
    match u
    case Set(_, v) =>
      if v.Null? then None else if v.Obj? then Some(Obj(StripNulls(v.fields))) else Some(v)
    case Merge(_, p) => Some(Obj(MergeRecord(Base(cur), p)))
  }

  function ApplyOne(s: StoreState, u: Update): (s': StoreState)
    ensures Lookup(s', u.key) == Step(Lookup(s, u.key), u)
    ensures forall k :: k != u.key ==> Lookup(s', k) == Lookup(s, k)
  {
    match Step(Lookup(s, u.key), u)
    case None => s - {u.key}
    case Some(v) => s[u.key := v]
  }

  /** The store after applying the updates in order (defined on the last update). */
  function ApplyAll(s: StoreState, us: seq<Update>): StoreState
    decreases |us|
  {
    if |us| == 0 then s else ApplyOne(ApplyAll(s, us[..|us| - 1]), us[|us| - 1])
  }

  /** The store after an action whose server request was rejected. */
  function AfterFailure(s: StoreState, d: OnyxData): StoreState {
    ApplyAll(ApplyAll(s, d.optimisticData), d.failureData)
  }

  /** The store after an action whose server request was accepted. */
  function AfterSuccess(s: StoreState, d: OnyxData): StoreState {
    ApplyAll(ApplyAll(s, d.optimisticData), d.successData)
  }

  /** Every key a list of updates writes. */
  function KeysOf(us: seq<Update>): (ks: set<Key>)
    ensures forall u :: u in us ==> u.key in ks
    ensures forall k :: k in ks ==> exists u :: u in us && u.key == k
  {
    set u | u in us :: u.key
  }

  lemma Keys5(a: Update, b: Update, c: Update, d: Update, e: Update)
    ensures KeysOf([a, b, c, d, e]) == {a.key, b.key, c.key, d.key, e.key}
  {
    var us := [a, b, c, d, e];
    assert us[0] in us && us[1] in us && us[2] in us && us[3] in us && us[4] in us;
  }

  lemma KeysOfConcat(a: seq<Update>, b: seq<Update>)
    ensures KeysOf(a + b) == KeysOf(a) + KeysOf(b)
  {
    assert forall u :: u in a + b <==> u in a || u in b;
  }

  // ---------------------------------------------------------------- the store semantics

  /** Every write leaves a well-formed store well-formed. */
  lemma {:induction false} ApplyAllWellFormed(s: StoreState, us: seq<Update>)
    requires WellFormed(s)
    ensures WellFormed(ApplyAll(s, us))
    decreases |us|
  {
    if |us| > 0 {
      var init := us[..|us| - 1];
      var u := us[|us| - 1];
      ApplyAllWellFormed(s, init);
      var t := ApplyAll(s, init);
      var cur := Lookup(t, u.key);
      match u
      case Set(_, v) =>
      case Merge(_, p) =>
        assert cur.Some? ==> StoredValue(cur.value);
        assert NullFree(Base(cur));
    }
  }

  /** Applying two lists one after the other is applying their concatenation. */
  lemma {:induction false} ApplyAllAppend(s: StoreState, a: seq<Update>, b: seq<Update>)
    ensures ApplyAll(s, a + b) == ApplyAll(ApplyAll(s, a), b)
    decreases |b|
  {
    if |b| == 0 {
      assert a + b == a;
    } else {
      var ab := a + b;
      assert ab[..|ab| - 1] == a + b[..|b| - 1];
      assert ab[|ab| - 1] == b[|b| - 1];
      ApplyAllAppend(s, a, b[..|b| - 1]);
    }
  }

  /** A second identical write changes nothing. */
  lemma StepIdempotent(cur: Option<Value>, u: Update)
    ensures Step(Step(cur, u), u) == Step(cur, u)
  {
    match u
    case Set(_, v) =>
    case Merge(_, p) =>
      var m := MergeRecord(Base(cur), p);
      assert MergeRecord(m, p) == m;
  }

  /** A key that no update in the list names keeps its value. */
  lemma {:induction false} Untouched(s: StoreState, us: seq<Update>, k: Key)
    requires forall u :: u in us ==> u.key != k
    ensures Lookup(ApplyAll(s, us), k) == Lookup(s, k)
    decreases |us|
  {
    if |us| > 0 {
      assert forall u :: u in us[..|us| - 1] ==> u in us;
      Untouched(s, us[..|us| - 1], k);
    }
  }

  /**
    When the only update of the list that writes `u.key` is `u` (possibly repeated), the key ends
    up as one application of `u` to its old value.
  */
  lemma {:induction false} SoleWriter(s: StoreState, us: seq<Update>, u: Update)
    requires u in us
    requires forall x :: x in us && x.key == u.key ==> x == u
    ensures Lookup(ApplyAll(s, us), u.key) == Step(Lookup(s, u.key), u)
    decreases |us|
  {
    var init := us[..|us| - 1];
    var last := us[|us| - 1];
    assert us == init + [last];
    assert forall x :: x in init ==> x in us;
    if last.key != u.key {
      assert u in init;
      SoleWriter(s, init, u);
    } else if u in init {
      SoleWriter(s, init, u);
      StepIdempotent(Lookup(s, u.key), u);
    } else {
      Untouched(s, init, u.key);
    }
  }

  /** Applying a list whose writes to `k` is one update reads that update's result. */
  lemma SoleWriterValue(s: StoreState, us: seq<Update>, u: Update, v: Value)
    requires u in us
    requires forall x :: x in us && x.key == u.key ==> x == u
    requires Step(Lookup(s, u.key), u) == Some(v)
    ensures u.key in ApplyAll(s, us) && ApplyAll(s, us)[u.key] == v
  {
    SoleWriter(s, us, u);
  }

  /**
    Merging a null-free record back restores each of its fields, and restores the record
    exactly when nothing outside its fields is left over.
  */
  lemma {:induction false} MergeBackRestores(cur: Record, original: Record)
    requires NullFree(original)
    ensures forall f :: f in original ==> f in MergeRecord(cur, original) && MergeRecord(cur, original)[f] == original[f]
    ensures MergeRecord(cur, original) == original <==> cur.Keys <= original.Keys
  {
    var m := MergeRecord(cur, original);
    if cur.Keys <= original.Keys {
      assert m.Keys == original.Keys;
    } else {
      var f :| f in cur.Keys && f !in original.Keys;
      assert f in m;
    }
  }

  /** `u` is in the list, and every update of the list that writes `u.key` is `u`. */
  ghost predicate SoleUpdate(us: seq<Update>, u: Update) {
    u in us && forall x :: x in us && x.key == u.key ==> x == u
  }

  /** No update of the list writes `k`. */
  ghost predicate NoUpdate(us: seq<Update>, k: Key) {
    forall x :: x in us ==> x.key != k
  }

  /** The sole writer of a key in one list stays the sole writer when a list that misses the key is added. */
  lemma SoleUpdateConcat(a: seq<Update>, b: seq<Update>, u: Update)
    requires SoleUpdate(a, u) && NoUpdate(b, u.key)
    ensures SoleUpdate(a + b, u) && SoleUpdate(b + a, u)
  {
  }

  lemma NoUpdateConcat(a: seq<Update>, b: seq<Update>, k: Key)
    requires NoUpdate(a, k) && NoUpdate(b, k)
    ensures NoUpdate(a + b, k)
  {
  }

  /** `x` is `u`, or writes a key other than `u`'s. */
  predicate Apart(x: Update, u: Update) {
    x == u || x.key != u.key
  }

  // The sole writer of a key in a short list of updates given one by one.

  lemma Sole2(a: Update, b: Update, u: Update)
    requires u == a || u == b
    requires Apart(a, u) && Apart(b, u)
    ensures SoleUpdate([a, b], u)
  {
  }

  lemma Sole3(a: Update, b: Update, c: Update, u: Update)
    requires u == a || u == b || u == c
    requires Apart(a, u) && Apart(b, u) && Apart(c, u)
    ensures SoleUpdate([a, b, c], u)
  {
  }

  lemma Sole4(a: Update, b: Update, c: Update, d: Update, u: Update)
    requires u == a || u == b || u == c || u == d
    requires Apart(a, u) && Apart(b, u) && Apart(c, u) && Apart(d, u)
    ensures SoleUpdate([a, b, c, d], u)
  {
  }

  lemma Sole5(a: Update, b: Update, c: Update, d: Update, e: Update, u: Update)
    requires u == a || u == b || u == c || u == d || u == e
    requires Apart(a, u) && Apart(b, u) && Apart(c, u) && Apart(d, u) && Apart(e, u)
    ensures SoleUpdate([a, b, c, d, e], u)
  {
  }

  lemma Sole6(a: Update, b: Update, c: Update, d: Update, e: Update, f: Update, u: Update)
    requires u == a || u == b || u == c || u == d || u == e || u == f
    requires Apart(a, u) && Apart(b, u) && Apart(c, u) && Apart(d, u) && Apart(e, u) && Apart(f, u)
    ensures SoleUpdate([a, b, c, d, e, f], u)
  {
  }

  /** A list whose every update writes a key other than `k`. */
  lemma None3(a: Update, b: Update, c: Update, k: Key)
    requires a.key != k && b.key != k && c.key != k
    ensures NoUpdate([a, b, c], k)
  {
  }

  lemma None6(a: Update, b: Update, c: Update, d: Update, e: Update, f: Update, k: Key)
    requires a.key != k && b.key != k && c.key != k && d.key != k && e.key != k && f.key != k
    ensures NoUpdate([a, b, c, d, e, f], k)
  {
  }

  /** Splices a block holding the sole writer between two lists that miss its key. */
  lemma SoleInFront(front: seq<Update>, a: seq<Update>, b: seq<Update>, u: Update)
    requires SoleUpdate(front, u) && NoUpdate(a, u.key) && NoUpdate(b, u.key)
    ensures SoleUpdate(front + a + b, u)
  {
    SoleUpdateConcat(front, a, u);
    SoleUpdateConcat(front + a, b, u);
  }

  /** A key the outer segments do not write is written in the concatenation only by the middle one. */
  lemma OnlyInMiddle(head: seq<Update>, block: seq<Update>, tail: seq<Update>, k: Key)
    requires NoUpdate(head, k) && NoUpdate(tail, k)
    ensures forall u :: u in block ==> u in head + block + tail
    ensures forall u :: u in head + block + tail && u.key == k ==> u in block
  {
  }

  lemma OnlyAtEnd(head: seq<Update>, block: seq<Update>, k: Key)
    requires NoUpdate(head, k)
    ensures forall u :: u in block ==> u in head + block
    ensures forall u :: u in head + block && u.key == k ==> u in block
  {
  }

  lemma SoleInside(head: seq<Update>, block: seq<Update>, tail: seq<Update>, u: Update)
    requires NoUpdate(head, u.key) && SoleUpdate(block, u) && NoUpdate(tail, u.key)
    ensures SoleUpdate(head + block + tail, u)
  {
    SoleUpdateConcat(block, head, u);
    SoleUpdateConcat(head + block, tail, u);
  }

  /** The field `f` of the object stored at `k`, if there is one. */
  function FieldAt(s: StoreState, k: Key, f: string): Option<Value> {
    if k in s && s[k].Obj? && f in s[k].fields then Some(s[k].fields[f]) else None
  }

  /** A non-null field of the only merge a list makes into `k` is what `k` holds afterwards. */
  lemma MergeFieldLands(s: StoreState, us: seq<Update>, k: Key, p: Record, f: string)
    requires Merge(k, p) in us
    requires forall x :: x in us && x.key == k ==> x == Merge(k, p)
    requires f in p && !p[f].Null?
    ensures FieldAt(ApplyAll(s, us), k, f) == Some(p[f])
  {
    SoleWriter(s, us, Merge(k, p));
  }

  /** The only write of a key that sets a null-free record leaves exactly that record there. */
  lemma SetLands(s: StoreState, us: seq<Update>, k: Key, r: Record)
    requires SoleUpdate(us, Set(k, Obj(r))) && NullFree(r)
    ensures Lookup(ApplyAll(s, us), k) == Some(Obj(r))
  {
    SoleWriter(s, us, Set(k, Obj(r)));
    assert StripNulls(r) == r;
  }

  /** A non-null field of the only record a list sets into `k` is what `k` holds afterwards. */
  lemma SetFieldLands(s: StoreState, us: seq<Update>, k: Key, r: Record, f: string)
    requires SoleUpdate(us, Set(k, Obj(r))) && f in r && !r[f].Null?
    ensures FieldAt(ApplyAll(s, us), k, f) == Some(r[f])
  {
    SoleWriter(s, us, Set(k, Obj(r)));
  }

  /** Two non-null fields of the only merge a list makes into its key land together. */
  lemma MergeFieldsLand(s: StoreState, us: seq<Update>, u: Update, f: string, g: string)
    requires SoleUpdate(us, u) && u.Merge?
    requires f in u.patch && !u.patch[f].Null? && g in u.patch && !u.patch[g].Null?
    ensures FieldAt(ApplyAll(s, us), u.key, f) == Some(u.patch[f])
    ensures FieldAt(ApplyAll(s, us), u.key, g) == Some(u.patch[g])
  {
    SoleWriter(s, us, u);
  }

  /** Every field the only merge into its key names ends up as the patch says: set, or removed when `Null`. */
  lemma SoleMergeFields(s: StoreState, us: seq<Update>, u: Update)
    requires SoleUpdate(us, u) && u.Merge?
    ensures forall f :: f in u.patch ==> FieldAt(ApplyAll(s, us), u.key, f) == (if u.patch[f].Null? then None else Some(u.patch[f]))
  {
    SoleWriter(s, us, u);
  }

  /** A field the only merge into `k` does not name keeps its value. */
  lemma MergeKeepsOtherField(s: StoreState, us: seq<Update>, k: Key, p: Record, f: string)
    requires SoleUpdate(us, Merge(k, p))
    requires f !in p
    ensures FieldAt(ApplyAll(s, us), k, f) == FieldAt(s, k, f)
  {
    SoleWriter(s, us, Merge(k, p));
    var b := Base(Lookup(s, k));
    assert f in MergeRecord(b, p) <==> f in b;
  }

  // ---------------------------------------------------------------- the store object

  /** The store the application holds; `Apply` is what `Onyx.update` does with one list. */
  class Store {
    var state: StoreState

    constructor (initial: StoreState)
      ensures state == initial
    {
      state := initial;
    }

    /** Applies the updates one by one, in list order. */
    method Apply(us: seq<Update>)
      modifies this
      ensures state == ApplyAll(old(state), us)
    {
      var i := 0;
      while i < |us|
        invariant 0 <= i <= |us|
        invariant state == ApplyAll(old(state), us[..i])
      {
        assert us[..i + 1][..i] == us[..i];
        state := ApplyOne(state, us[i]);
        i := i + 1;
      }
      assert us[..|us|] == us;
    }

    /** `Onyx.set(key, value)`. */
    method SetKey(key: Key, value: Value)
      modifies this
      ensures state == ApplyOne(old(state), Set(key, value))
    {
      state := ApplyOne(state, Set(key, value));
    }

    /** `Onyx.merge(key, patch)`. */
    method MergeKey(key: Key, patch: Record)
      modifies this
      ensures state == ApplyOne(old(state), Merge(key, patch))
    {
      state := ApplyOne(state, Merge(key, patch));
    }
  }
}
