/**
 * The chunk loader of Backend_Pipeline/ultra_fast_microdata.py: the two ways a chunk's
 * records reach the `survey_data` table (a COPY stream, or `execute_values` in batches)
 * and the choice between them. The database is a `Connection` whose rows are either
 * committed or pending in the open transaction.
 */
module Loader {
  import opened Wrappers
  import opened Transform
  import opened CopyFormat

  /** The database session: rows made durable by a commit and rows of the open transaction. */
  class Connection {
    ghost var committed: seq<Record>
    ghost var pending: seq<Record>

    constructor ()
      ensures committed == [] && pending == []
    {
      committed := [];
      pending := [];
    }

    /** An accepted INSERT or COPY: its rows join the open transaction. */
    method Append(records: seq<Record>)
      modifies this
      ensures pending == old(pending) + records && committed == old(committed)
    {
      pending := pending + records;
    }

    /** `conn.commit()`. */
    method Commit()
      modifies this
      ensures committed == old(committed) + old(pending) && pending == []
    {
      committed := committed + pending;
      pending := [];
    }

    /** `conn.rollback()`: the open transaction's rows are discarded. */
    method Rollback()
      modifies this
      ensures committed == old(committed) && pending == []
    {
      pending := [];
    }
  }

  /**
   * Which statement of a load the database refuses, counting from 0, if any. The COPY
   * path sends one statement; the `execute_values` path sends one per batch.
   */
  type Refusal = Option<nat>

  // ---------------------------------------------------------------------------------------
  // Batches

  function Concat(bs: seq<seq<Record>>): seq<Record> {
    if bs == [] then [] else bs[0] + Concat(bs[1..])
  }

  /** The slices `records[i:i + size]` for `i in range(0, len(records), size)`. */
  function Batches(records: seq<Record>, size: nat): (bs: seq<seq<Record>>)
    requires size > 0
    decreases |records|
  {
    if records == [] then []
    else if |records| <= size then [records]
    else [records[..size]] + Batches(records[size..], size)
  }

  /** Every batch is non-empty and at most `size` long; all but the last are exactly `size`. */
  lemma {:induction false} BatchSizes(records: seq<Record>, size: nat)
    requires size > 0
    ensures forall k :: 0 <= k < |Batches(records, size)| ==> 0 < |Batches(records, size)[k]| <= size
    ensures forall k :: 0 <= k < |Batches(records, size)| - 1 ==> |Batches(records, size)[k]| == size
    decreases |records|
  {
    if |records| > size {
      BatchSizes(records[size..], size);
      var bs := Batches(records, size);
      assert bs[1..] == Batches(records[size..], size);
    }
  }

  /** Concatenating the batches gives back the records, in order. */
  lemma {:induction false} BatchesConcat(records: seq<Record>, size: nat)
    requires size > 0
    ensures Concat(Batches(records, size)) == records
    decreases |records|
  {
    if |records| > size {
      BatchesConcat(records[size..], size);
      var bs := Batches(records, size);
      assert bs[0] == records[..size] && bs[1..] == Batches(records[size..], size);
      assert records[..size] + records[size..] == records;
    } else if records != [] {
      assert Batches(records, size) == [records];
      assert Batches(records, size)[1..] == [];
      assert records + [] == records;
    }
  }

  /** There are `ceil(|records| / size)` batches: just enough to hold every record. */
  lemma {:induction false} BatchCount(records: seq<Record>, size: nat)
    requires size > 0
    ensures |Batches(records, size)| * size >= |records|
    ensures records != [] ==> (|Batches(records, size)| - 1) * size < |records|
    decreases |records|
  {
    if |records| > size {
      var rest := records[size..];
      var n := |Batches(rest, size)|;
      BatchCount(rest, size);
      assert |Batches(records, size)| == n + 1;
      assert (n + 1) * size == n * size + size;
      assert n * size == (n - 1) * size + size;
    } else if records != [] {
      assert |Batches(records, size)| == 1;
    }
  }

  lemma {:induction false} ConcatSnoc(bs: seq<seq<Record>>, b: seq<Record>)
    ensures Concat(bs + [b]) == Concat(bs) + b
  {
    if bs != [] {
      assert (bs + [b])[1..] == bs[1..] + [b];
      ConcatSnoc(bs[1..], b);
    } else {
      assert [b][1..] == [];
    }
  }

  /** The loop's step: the batch starting at `i`, then the batches after it. */
  lemma BatchesFrom(records: seq<Record>, size: nat, i: nat, end: nat)
    requires size > 0 && i < |records|
    requires end == if i + size < |records| then i + size else |records|
    ensures Batches(records[i..], size) == [records[i..end]] + Batches(records[end..], size)
  {
    var r := records[i..];
    if |r| > size {
      assert r[..size] == records[i..end];
      assert r[size..] == records[end..];
    } else {
      assert r == records[i..end];
      assert records[end..] == [];
    }
  }

  /** The batches sent so far, the batch at `i`, and the batches after it make up all the batches. */
  lemma SendStep(records: seq<Record>, size: nat, i: nat, end: nat, sent: seq<seq<Record>>)
    requires size > 0 && i < |records|
    requires end == if i + size < |records| then i + size else |records|
    requires Batches(records, size) == sent + Batches(records[i..], size)
    ensures Batches(records, size) == (sent + [records[i..end]]) + Batches(records[end..], size)
    ensures Batches(records, size)[..|sent|] == sent
  {
    BatchesFrom(records, size, i, end);
    assert sent + ([records[i..end]] + Batches(records[end..], size)) == (sent + [records[i..end]]) + Batches(records[end..], size);
  }

  /** What the `execute_values` path sends before it stops, and whether it returns True. */
  function BulkEffect(records: seq<Record>, batchSize: int, refusal: Refusal): (seq<Record>, bool) {
    if batchSize == 0 then ([], false)         // range() raises ValueError, caught: False
    else if batchSize < 0 then ([], true)      // an empty range: nothing sent, True
    else
      var bs := Batches(records, batchSize);
      if refusal.Some? && refusal.value < |bs| then (Concat(bs[..refusal.value]), false)
      else (records, true)
  }

  /** `bulk_insert_with_execute_values` (ultra_fast_microdata.py:90-109). */
  method BulkInsert(conn: Connection, records: seq<Record>, batchSize: int, refusal: Refusal)
    returns (ok: bool)
    modifies conn
    ensures ok == BulkEffect(records, batchSize, refusal).1
    ensures conn.pending == old(conn.pending) + BulkEffect(records, batchSize, refusal).0
    ensures conn.committed == old(conn.committed)
  {
    if batchSize == 0 {
      return false;
    }
    if batchSize < 0 {
      return true;
    }
    ghost var sent: seq<seq<Record>> := [];
    var k := 0;
    var i := 0;
    while i < |records|
      invariant 0 <= i <= |records| && k == |sent|
      invariant Batches(records, batchSize) == sent + Batches(records[i..], batchSize)
      invariant refusal.None? || refusal.value >= k
      invariant conn.pending == old(conn.pending) + Concat(sent)
      invariant conn.committed == old(conn.committed)
      decreases |records| - i
    {
      var end := if i + batchSize < |records| then i + batchSize else |records|;
      var batch := records[i..end];
      SendStep(records, batchSize, i, end, sent);
      if refusal == Some(k) {
        return false;
      }
      conn.Append(batch);
      ConcatSnoc(sent, batch);
      sent := sent + [batch];
      k := k + 1;
      i := end;
    }
    assert records[i..] == [];
    assert Batches(records, batchSize) == sent;
    BatchesConcat(records, batchSize);
    assert Concat(sent) == records;
    ok := true;
  }

  /** A True return means every record was sent (for a positive batch size). */
  lemma BulkSuccessSendsAll(records: seq<Record>, batchSize: int, refusal: Refusal)
    requires batchSize > 0 && BulkEffect(records, batchSize, refusal).1
    ensures BulkEffect(records, batchSize, refusal).0 == records
  {
  }

  /**
   * A refused batch leaves exactly the batches before it sent: a proper prefix of the
   * records whose length is a whole number of batches.
   */
  lemma BulkFailureSendsPrefix(records: seq<Record>, batchSize: int, refusal: Refusal)
    requires batchSize > 0 && !BulkEffect(records, batchSize, refusal).1
    ensures BulkEffect(records, batchSize, refusal).0 <= records
    ensures |BulkEffect(records, batchSize, refusal).0| == refusal.value * batchSize < |records|
  {
    PrefixOfBatches(records, batchSize, refusal.value);
  }

  lemma {:induction false} PrefixOfBatches(records: seq<Record>, size: nat, k: nat)
    requires size > 0 && k < |Batches(records, size)|
    ensures k * size < |records|
    ensures Concat(Batches(records, size)[..k]) == records[..k * size]
    decreases k
  {
    var bs := Batches(records, size);
    if k > 0 {
      assert |records| > size;
      var rest := records[size..];
      assert bs[1..] == Batches(rest, size);
      PrefixOfBatches(rest, size, k - 1);
      assert bs[..k] == [records[..size]] + Batches(rest, size)[..k - 1];
      assert k * size == size + (k - 1) * size;
      assert records[..size] + rest[..(k - 1) * size] == records[..k * size];
    } else {
      assert bs[..0] == [];
    }
  }

  // ---------------------------------------------------------------------------------------
  // COPY

  /**
   * `ultra_fast_copy_insert` (ultra_fast_microdata.py:52-88): the records are written to a
   * buffer and streamed in one COPY statement, which the database applies whole or not at all.
   */
  method CopyInsert(conn: Connection, records: seq<Record>, refusal: Refusal) returns (ok: bool)
    modifies conn
    ensures ok == (refusal != Some(0))
    ensures conn.pending == old(conn.pending) + (if ok then records else [])
    ensures conn.committed == old(conn.committed)
  {
    var buffer := SerializeRecords(records);
    ok := refusal != Some(0);
    if ok {
      StreamRoundTrip(records);
      conn.Append(records);
    }
  }

  // ---------------------------------------------------------------------------------------
  // Choosing the path

  /** Records above which the COPY path is used (ultra_fast_microdata.py:272). */
  const CopyThreshold: nat := 1000

  datatype Strategy = CopyStream | ExecuteValues

  /** COPY exactly when it is enabled and the chunk has more than 1000 records. */
  function ChooseStrategy(useCopy: bool, count: nat): (s: Strategy)
    ensures s == CopyStream <==> useCopy && count > CopyThreshold
  {
    if useCopy && count > CopyThreshold then CopyStream else ExecuteValues
  }

  /** What a load sends to the open transaction, and whether it reports success. */
  function LoadEffect(s: Strategy, records: seq<Record>, batchSize: int, refusal: Refusal): (seq<Record>, bool) {
    match s
    case CopyStream => if refusal == Some(0) then ([], false) else (records, true)
    case ExecuteValues => BulkEffect(records, batchSize, refusal)
  }

  /** A load that reports success has sent all of the chunk's records (for a positive batch size). */
  lemma LoadSuccessSendsAll(s: Strategy, records: seq<Record>, batchSize: int, refusal: Refusal)
    requires batchSize > 0 && LoadEffect(s, records, batchSize, refusal).1
    ensures LoadEffect(s, records, batchSize, refusal).0 == records
  {
  }

  method Load(conn: Connection, s: Strategy, records: seq<Record>, batchSize: int, refusal: Refusal)
    returns (ok: bool)
    modifies conn
    ensures ok == LoadEffect(s, records, batchSize, refusal).1
    ensures conn.pending == old(conn.pending) + LoadEffect(s, records, batchSize, refusal).0
    ensures conn.committed == old(conn.committed)
  {
    if s == CopyStream {
      ok := CopyInsert(conn, records, refusal);
    } else {
      ok := BulkInsert(conn, records, batchSize, refusal);
    }
  }
}
