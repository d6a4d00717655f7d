/**
  Receipt operations on a stored transaction: detaching the receipt and replacing it with a new
  file. The file itself is only passed through to the server; the model keeps its `name`.
*/
module IouReceipt {
  import opened Wrappers
  import opened Onyx
  import opened IouData

  // ---------------------------------------------------------------- detach

  /** The transaction with its receipt removed, or `null` when the cache has no such transaction. */
  function DetachedTransaction(transaction: Option<Record>): Value {
    if transaction.Some? then Obj(transaction.value + map["filename" := Str(""), "receipt" := Obj(map[])]) else Null
  }

  function DetachReceipt(snap: Snapshot, transactionID: string): WriteRequest {
    var transaction := TransactionOf(snap, transactionID);
    WriteRequest("DetachReceipt", map["transactionID" := Str(transactionID)],
      OnyxData(
        [Set(TransactionKey(transactionID), DetachedTransaction(transaction))],
        [],
        [Merge(TransactionKey(transactionID), if transaction.Some? then transaction.value else map[])]))
  }

  /**
    Detaching leaves the transaction with an empty file name and an empty receipt, every other
    field as it was; with no cached transaction, the key is deleted.
  */
  lemma DetachClearsReceipt(s: StoreState, snap: Snapshot, transactionID: string)
    requires WellFormed(s) && Holds(s, TransactionKey(transactionID), TransactionOf(snap, transactionID))
    ensures var opt := ApplyAll(s, DetachReceipt(snap, transactionID).onyxData.optimisticData);
            var k := TransactionKey(transactionID);
            var transaction := TransactionOf(snap, transactionID);
            if transaction.Some? then
              FieldAt(opt, k, "filename") == Some(Str("")) && FieldAt(opt, k, "receipt") == Some(Obj(map[]))
              && forall f :: f in transaction.value && f != "filename" && f != "receipt" ==> FieldAt(opt, k, f) == Some(transaction.value[f])
            else k !in opt
  {
    var k := TransactionKey(transactionID);
    var transaction := TransactionOf(snap, transactionID);
    var u := Set(k, DetachedTransaction(transaction));
    SoleWriter(s, [u], u);
    if transaction.Some? {
      assert StoredValue(s[k]);
      var t := transaction.value + map["filename" := Str(""), "receipt" := Obj(map[])];
      assert StripNulls(t) == t;
    }
  }

  /** Setting the detached record and then merging the cached one back, on one key. */
  lemma DetachThenMergeBack(s: StoreState, k: Key, r: Record)
    requires NullFree(r)
    ensures var t := r + map["filename" := Str(""), "receipt" := Obj(map[])];
            var after := ApplyAll(ApplyAll(s, [Set(k, Obj(t))]), [Merge(k, r)]);
            (forall f :: f in r ==> FieldAt(after, k, f) == Some(r[f]))
            && (Lookup(after, k) == Some(Obj(r)) <==> "filename" in r && "receipt" in r)
  {
    var t := r + map["filename" := Str(""), "receipt" := Obj(map[])];
    SoleWriter(s, [Set(k, Obj(t))], Set(k, Obj(t)));
    assert StripNulls(t) == t;
    var opt := ApplyAll(s, [Set(k, Obj(t))]);
    SoleWriter(opt, [Merge(k, r)], Merge(k, r));
    MergeBackRestores(t, r);
    assert t.Keys <= r.Keys <==> "filename" in r && "receipt" in r;
  }

  /**
    The failure list merges the cached transaction back: every field it held is restored, and
    the transaction is restored exactly when it already had a `filename` and a `receipt`. With
    no cached transaction the key ends up holding an empty object.
  */
  lemma DetachFailureRestores(s: StoreState, snap: Snapshot, transactionID: string)
    requires WellFormed(s) && Holds(s, TransactionKey(transactionID), TransactionOf(snap, transactionID))
    ensures var after := AfterFailure(s, DetachReceipt(snap, transactionID).onyxData);
            var k := TransactionKey(transactionID);
            var transaction := TransactionOf(snap, transactionID);
            if transaction.Some? then
              (forall f :: f in transaction.value ==> FieldAt(after, k, f) == Some(transaction.value[f]))
              && (Holds(after, k, transaction) <==> "filename" in transaction.value && "receipt" in transaction.value)
            else Lookup(after, k) == Some(Obj(map[]))
  {
    var k := TransactionKey(transactionID);
    var transaction := TransactionOf(snap, transactionID);
    if transaction.Some? {
      assert StoredValue(s[k]);
      DetachThenMergeBack(s, k, transaction.value);
    } else {
      var u := Set(k, Null);
      SoleWriter(s, [u], u);
      var opt := ApplyAll(s, [u]);
      SoleWriter(opt, [Merge(k, map[])], Merge(k, map[]));
      assert MergeRecord(Base(Lookup(opt, k)), map[]) == map[];
    }
  }

  // ---------------------------------------------------------------- replace

  /** The optimistic receipt: the new source, in the OPEN state, under the new file's name. */
  function NewReceiptPatch(transactionID: string, file: Record, source: string): Update {
    Merge(TransactionKey(transactionID),
      map["receipt" := Obj(map["source" := Str(source), "state" := Str(RECEIPT_STATE_OPEN)])] + Entry("filename", FieldOf(file, "name")))
  }

  /** `transaction?.receipt ?? {}` */
  function OldReceipt(transaction: Option<Record>): Value {
    var r := OptFieldOf(transaction, "receipt");
    if r.Some? && !r.value.Null? then r.value else Obj(map[])
  }

  /** The failure patch: the old receipt and the old file name (left out when undefined). */
  function OldReceiptPatch(transactionID: string, transaction: Option<Record>): Update {
    Merge(TransactionKey(transactionID), map["receipt" := OldReceipt(transaction)] + Entry("filename", OptFieldOf(transaction, "filename")))
  }

  /**
    `replaceReceipt` as written: the transaction is read as `allTransactions.transactionID`, a
    property literally named `transactionID`. Every key of the transaction collection carries the
    collection prefix, so the read is always undefined.
  */
  function ReplaceReceiptAsWritten(transactionID: string, file: Record, source: string): WriteRequest {
    var transaction: Option<Record> := None;
    WriteRequest("ReplaceReceipt", map["transactionID" := Str(transactionID), "receipt" := Obj(file)],
      OnyxData([NewReceiptPatch(transactionID, file, source)], [], [OldReceiptPatch(transactionID, transaction)]))
  }

  /** `replaceReceipt` reading the transaction under its own key, as the failure patch needs. */
  function ReplaceReceipt(snap: Snapshot, transactionID: string, file: Record, source: string): WriteRequest {
    var transaction := TransactionOf(snap, transactionID);
    WriteRequest("ReplaceReceipt", map["transactionID" := Str(transactionID), "receipt" := Obj(file)],
      OnyxData([NewReceiptPatch(transactionID, file, source)], [], [OldReceiptPatch(transactionID, transaction)]))
  }

  /** Replacing puts the new source, OPEN, on the transaction, under the file's name. */
  lemma ReplaceReceiptSetsNewReceipt(s: StoreState, snap: Snapshot, transactionID: string, file: Record, source: string)
    requires "name" in file && file["name"].Str?
    ensures var opt := ApplyAll(s, ReplaceReceipt(snap, transactionID, file, source).onyxData.optimisticData);
            FieldAt(opt, TransactionKey(transactionID), "receipt") == Some(Obj(map["source" := Str(source), "state" := Str(RECEIPT_STATE_OPEN)]))
            && FieldAt(opt, TransactionKey(transactionID), "filename") == Some(file["name"])
  {
    var u := NewReceiptPatch(transactionID, file, source);
    MergeFieldLands(s, [u], u.key, u.patch, "receipt");
    MergeFieldLands(s, [u], u.key, u.patch, "filename");
  }

  /**
    As written, a failed replacement never brings the old receipt back: whatever the transaction
    held, it is left with an empty receipt and the new file's name.
  */
  lemma ReplaceReceiptAsWrittenLosesOldReceipt(s: StoreState, snap: Snapshot, transactionID: string, file: Record, source: string)
    requires "name" in file && file["name"].Str?
    requires TransactionOf(snap, transactionID).Some? && "receipt" in TransactionOf(snap, transactionID).value
    requires TransactionOf(snap, transactionID).value["receipt"] != Obj(map[])
    ensures var after := AfterFailure(s, ReplaceReceiptAsWritten(transactionID, file, source).onyxData);
            FieldAt(after, TransactionKey(transactionID), "receipt") == Some(Obj(map[]))
            && FieldAt(after, TransactionKey(transactionID), "receipt") != Some(TransactionOf(snap, transactionID).value["receipt"])
            && FieldAt(after, TransactionKey(transactionID), "filename") == Some(file["name"])
  {
    var u := NewReceiptPatch(transactionID, file, source);
    var v := OldReceiptPatch(transactionID, None);
    var opt := ApplyAll(s, [u]);
    MergeFieldLands(s, [u], u.key, u.patch, "filename");
    MergeFieldLands(opt, [v], v.key, v.patch, "receipt");
    MergeKeepsOtherField(opt, [v], v.key, v.patch, "filename");
  }

  /**
    Corrected, a failed replacement restores the receipt and the file name the cached
    transaction held; a transaction without a receipt gets back an empty one.
  */
  lemma ReplaceReceiptFailureRestores(s: StoreState, snap: Snapshot, transactionID: string, file: Record, source: string)
    requires TransactionOf(snap, transactionID).Some?
    requires NullFree(TransactionOf(snap, transactionID).value)
    ensures var after := AfterFailure(s, ReplaceReceipt(snap, transactionID, file, source).onyxData);
            var transaction := TransactionOf(snap, transactionID).value;
            var k := TransactionKey(transactionID);
            FieldAt(after, k, "receipt") == Some(if "receipt" in transaction then transaction["receipt"] else Obj(map[]))
            && ("filename" in transaction ==> FieldAt(after, k, "filename") == Some(transaction["filename"]))
  {
    var transaction := TransactionOf(snap, transactionID);
    var u := NewReceiptPatch(transactionID, file, source);
    var v := OldReceiptPatch(transactionID, transaction);
    var opt := ApplyAll(s, [u]);
    MergeFieldLands(opt, [v], v.key, v.patch, "receipt");
    if "filename" in transaction.value {
      MergeFieldLands(opt, [v], v.key, v.patch, "filename");
    }
  }
}
