/**
 * The run of `ingest_microdata_ultra_fast` (Backend_Pipeline/ultra_fast_microdata.py:162-333):
 * every CSV file is read chunk by chunk, each chunk is transformed into records for the
 * fixed level `ASI_BLOCK_C` and loaded, with a commit every fifth chunk and at the end of
 * each file. A chunk that raises abandons its file; a chunk the database refuses ends the run.
 *
 * The run is specified by prefix folds (`FileFold`, `RunFold`) over the chunks of a file and
 * the files of a run; the methods `IngestFile` and `Ingest` are proved to reach the state
 * the folds describe, and the lemmas after them say what that state is.
 */
module FastDriver {
  import opened Wrappers
  import opened Values
  import opened Transform
  import opened Loader

  /** The level every file is mapped to (line 233). */
  const LevelName: string := "ASI_BLOCK_C"
  /** `BATCH_SIZE`, `USE_COPY_COMMAND` and `USE_TRANSACTION_BATCHING` (lines 25-28). */
  const BatchSize: nat := 25000
  const UseCopy: bool := true
  const UseTransactionBatching: bool := true
  /** A commit follows every chunk whose number is a multiple of this (line 284). */
  const CommitEvery: nat := 5

  /**
   * What reading the next chunk of a file gives: the chunk's rows, keyed by upper-cased
   * column name, together with which statement of its load the database refuses; or a
   * failure of the CSV reader, which raises inside the file's `try`.
   */
  datatype ChunkInput = Chunk(rows: seq<Row>, refusal: Refusal) | ReadFailure

  /** The database's rows and the run's two counters, `total_inserted` and `total_processed`. */
  datatype RunState = RunState(committed: seq<Record>, pending: seq<Record>, inserted: nat, processed: nat)

  /** How a chunk ends: go on, leave the file (`continue`), or leave the run (`return`). */
  datatype Flow = Next | FileAborted | RunEnded

  datatype Outcome = Completed | LoadFailed | NoSurvey | NoCsvDirectory | NoCsvFiles

  /** The session after `conn.commit()`. */
  function Committed(st: RunState): RunState {
    RunState(st.committed + st.pending, [], st.inserted, st.processed)
  }

  /** The session after `conn.rollback()`. */
  function RolledBack(st: RunState): RunState {
    RunState(st.committed, [], st.inserted, st.processed)
  }

  /** One pass of the chunk loop (lines 259-296); `count` is `chunk_count` after its increment. */
  function ChunkStep(st: RunState, count: nat, c: ChunkInput, t: Target, enc: Encoding): (RunState, Flow) {
    match c
    case ReadFailure => (RolledBack(st), FileAborted)
    case Chunk(rows, refusal) =>
      match ChunkRecords(rows, t, enc)
      case Failure(_) => (RolledBack(st), FileAborted)
      case Success(recs) =>
        if recs == [] then (RunState(st.committed, st.pending, st.inserted, st.processed + |rows|), Next)
        else
          var load := LoadEffect(ChooseStrategy(UseCopy, |recs|), recs, BatchSize, refusal);
          if !load.1 then (RolledBack(st), RunEnded)
          else
            var loaded := RunState(st.committed, st.pending + load.0, st.inserted + |recs|, st.processed);
            var after := if UseTransactionBatching && count % CommitEvery == 0 then Committed(loaded) else loaded;
            (RunState(after.committed, after.pending, after.inserted, st.processed + |rows|), Next)
  }

  /** The chunk loop over the first `|cs|` chunks of a file; it stops at the first chunk that does not go on. */
  function FileFold(st: RunState, cs: seq<ChunkInput>, t: Target, enc: Encoding): (RunState, Flow) {
    if cs == [] then (st, Next)
    else
      var prev := FileFold(st, cs[..|cs| - 1], t, enc);
      if prev.1 != Next then prev else ChunkStep(prev.0, |cs|, cs[|cs| - 1], t, enc)
  }

  /** A whole file: the chunk loop, then the commit at the end of the file (line 299). The flag says the run ends. */
  function FileEffect(st: RunState, cs: seq<ChunkInput>, t: Target, enc: Encoding): (RunState, bool) {
    var r := FileFold(st, cs, t, enc);
    match r.1
    case Next => (Committed(r.0), false)
    case FileAborted => (r.0, false)
    case RunEnded => (r.0, true)
  }

  /** The file loop over the first `|files|` files; a missing `ASI_BLOCK_C` level skips each file. */
  function RunFold(st: RunState, files: seq<seq<ChunkInput>>, surveyId: int, levels: map<string, LevelInfo>, enc: Encoding): (RunState, bool) {
    if files == [] then (st, false)
    else
      var prev := RunFold(st, files[..|files| - 1], surveyId, levels, enc);
      if prev.1 then prev
      else if LevelName !in levels then prev
      else
        var level := levels[LevelName];
        FileEffect(prev.0, files[|files| - 1], TargetOf(surveyId, level), enc)
  }

  /**
   * The whole run from a session with no open transaction and `committed0` in the table;
   * `dirExists` says whether the CSV directory exists (lines 213-216).
   */
  function RunEffect(committed0: seq<Record>, surveyId: Option<int>, levels: map<string, LevelInfo>,
                     dirExists: bool, files: seq<seq<ChunkInput>>, enc: Encoding): (RunState, Outcome) {
    var st0 := RunState(committed0, [], 0, 0);
    if surveyId.None? then (st0, NoSurvey)
    else if !dirExists then (st0, NoCsvDirectory)
    else if files == [] then (st0, NoCsvFiles)
    else
      var r := RunFold(st0, files, surveyId.value, levels, enc);
      if r.1 then (r.0, LoadFailed) else (Committed(r.0), Completed)
  }

  // ---------------------------------------------------------------------------------------
  // The loops

  lemma {:induction false} FileStopPersists(st: RunState, cs: seq<ChunkInput>, t: Target, enc: Encoding, k: nat)
    requires k <= |cs| && FileFold(st, cs[..k], t, enc).1 != Next
    ensures FileFold(st, cs, t, enc) == FileFold(st, cs[..k], t, enc)
    decreases |cs| - k
  {
    if k < |cs| {
      assert cs[..k + 1][..k] == cs[..k];
      FileStopPersists(st, cs, t, enc, k + 1);
    } else {
      assert cs[..k] == cs;
    }
  }

  lemma {:induction false} RunStopPersists(st: RunState, files: seq<seq<ChunkInput>>, surveyId: int,
                                           levels: map<string, LevelInfo>, enc: Encoding, k: nat)
    requires k <= |files| && RunFold(st, files[..k], surveyId, levels, enc).1
    ensures RunFold(st, files, surveyId, levels, enc) == RunFold(st, files[..k], surveyId, levels, enc)
    decreases |files| - k
  {
    if k < |files| {
      assert files[..k + 1][..k] == files[..k];
      RunStopPersists(st, files, surveyId, levels, enc, k + 1);
    } else {
      assert files[..k] == files;
    }
  }

  /** One pass of the chunk loop (lines 259-296) on the session and the counters. */
  method IngestChunk(conn: Connection, count: nat, c: ChunkInput, t: Target, enc: Encoding, inserted0: nat, processed0: nat)
    returns (flow: Flow, inserted: nat, processed: nat)
    modifies conn
    ensures (RunState(conn.committed, conn.pending, inserted, processed), flow)
         == ChunkStep(RunState(old(conn.committed), old(conn.pending), inserted0, processed0), count, c, t, enc)
  {
    inserted, processed := inserted0, processed0;
    if c.ReadFailure? {
      conn.Rollback();
      return FileAborted, inserted, processed;
    }
    var records := ProcessChunk(c.rows, t, enc);
    if records.Failure? {
      conn.Rollback();
      return FileAborted, inserted, processed;
    }
    var recs := records.value;
    if recs != [] {
      var strategy := ChooseStrategy(UseCopy, |recs|);
      var ok := Load(conn, strategy, recs, BatchSize, c.refusal);
      if !ok {
        conn.Rollback();
        return RunEnded, inserted, processed;
      }
      inserted := inserted + |recs|;
      if UseTransactionBatching && count % CommitEvery == 0 {
        conn.Commit();
      }
    }
    processed := processed + |c.rows|;
    flow := Next;
  }

  /** The body of the file loop for one file (lines 228-308), counters passed in and out. */
  method IngestFile(conn: Connection, file: seq<ChunkInput>, t: Target, enc: Encoding, inserted0: nat, processed0: nat)
    returns (ended: bool, inserted: nat, processed: nat)
    modifies conn
    ensures var e := FileEffect(RunState(old(conn.committed), old(conn.pending), inserted0, processed0), file, t, enc);
      ended == e.1 && RunState(conn.committed, conn.pending, inserted, processed) == e.0
  {
    ghost var st0 := RunState(conn.committed, conn.pending, inserted0, processed0);
    inserted, processed := inserted0, processed0;
    var chunkCount := 0;
    while chunkCount < |file|
      invariant 0 <= chunkCount <= |file|
      invariant FileFold(st0, file[..chunkCount], t, enc) == (RunState(conn.committed, conn.pending, inserted, processed), Next)
    {
      var c := file[chunkCount];
      chunkCount := chunkCount + 1;
      assert file[..chunkCount][..chunkCount - 1] == file[..chunkCount - 1];
      var flow;
      flow, inserted, processed := IngestChunk(conn, chunkCount, c, t, enc, inserted, processed);
      if flow != Next {
        FileStopPersists(st0, file, t, enc, chunkCount);
        return flow == RunEnded, inserted, processed;
      }
    }
    assert file[..chunkCount] == file;
    conn.Commit();
    ended := false;
  }

  /**
   * `ingest_microdata_ultra_fast`: the survey id looked up for ASI 2023 (None when there is
   * none), the levels of `survey_levels` by name, and the CSV files in directory order.
   */
  method Ingest(conn: Connection, surveyId: Option<int>, levels: map<string, LevelInfo>,
                dirExists: bool, files: seq<seq<ChunkInput>>, enc: Encoding)
    returns (outcome: Outcome, inserted: nat, processed: nat)
    requires conn.pending == []
    modifies conn
    ensures var e := RunEffect(old(conn.committed), surveyId, levels, dirExists, files, enc);
      outcome == e.1 && RunState(conn.committed, conn.pending, inserted, processed) == e.0
  {
    inserted, processed := 0, 0;
    if surveyId.None? {
      return NoSurvey, inserted, processed;
    }
    if !dirExists {
      return NoCsvDirectory, inserted, processed;
    }
    if files == [] {
      return NoCsvFiles, inserted, processed;
    }
    ghost var st0 := RunState(conn.committed, [], 0, 0);
    var i := 0;
    while i < |files|
      invariant 0 <= i <= |files|
      invariant RunFold(st0, files[..i], surveyId.value, levels, enc) == (RunState(conn.committed, conn.pending, inserted, processed), false)
    {
      assert files[..i + 1][..i] == files[..i];
      if LevelName in levels {
        var level := levels[LevelName];
        var t := TargetOf(surveyId.value, level);
        var ended;
        ended, inserted, processed := IngestFile(conn, files[i], t, enc, inserted, processed);
        if ended {
          RunStopPersists(st0, files, surveyId.value, levels, enc, i + 1);
          return LoadFailed, inserted, processed;
        }
      }
      i := i + 1;
    }
    assert files[..i] == files;
    conn.Commit();
    outcome := Completed;
  }

  // ---------------------------------------------------------------------------------------
  // What a run leaves behind

  /**
   * One chunk: committed rows are never taken back; a chunk that does not go on discards the
   * open transaction and leaves both counters alone; a chunk the database refuses is the only
   * one that ends the run; and the rows the session holds grow by no more than the
   * `inserted` counter does.
   */
  lemma ChunkStepProps(st: RunState, count: nat, c: ChunkInput, t: Target, enc: Encoding)
    ensures var r := ChunkStep(st, count, c, t, enc);
      st.committed <= r.0.committed
      && (r.1 != Next ==> r.0 == RolledBack(st))
      && (r.1 == RunEnded ==> c.Chunk? && c.refusal.Some?)
      && |r.0.committed| + |r.0.pending| <= |st.committed| + |st.pending| + r.0.inserted - st.inserted
      && r.0.inserted >= st.inserted
  {
    if c.Chunk? && ChunkRecords(c.rows, t, enc).Success? {
      var recs := ChunkRecords(c.rows, t, enc).value;
      if recs != [] {
        var s := ChooseStrategy(UseCopy, |recs|);
        if LoadEffect(s, recs, BatchSize, c.refusal).1 {
          LoadSuccessSendsAll(s, recs, BatchSize, c.refusal);
        }
      }
    }
  }

  /** Whatever the chunks, the session's rows never outgrow the counter and committed rows stay. */
  lemma {:induction false} FileFoldProps(st: RunState, cs: seq<ChunkInput>, t: Target, enc: Encoding)
    ensures var r := FileFold(st, cs, t, enc);
      st.committed <= r.0.committed
      && (r.1 != Next ==> r.0.pending == [])
      && |r.0.committed| + |r.0.pending| <= |st.committed| + |st.pending| + r.0.inserted - st.inserted
      && r.0.inserted >= st.inserted
  {
    if cs != [] {
      var prev := FileFold(st, cs[..|cs| - 1], t, enc);
      FileFoldProps(st, cs[..|cs| - 1], t, enc);
      if prev.1 == Next {
        ChunkStepProps(prev.0, |cs|, cs[|cs| - 1], t, enc);
      }
    }
  }

  lemma {:induction false} RunFoldProps(st: RunState, files: seq<seq<ChunkInput>>, surveyId: int,
                                        levels: map<string, LevelInfo>, enc: Encoding)
    requires st.pending == []
    ensures var r := RunFold(st, files, surveyId, levels, enc);
      st.committed <= r.0.committed && r.0.pending == []
      && |r.0.committed| <= |st.committed| + r.0.inserted - st.inserted
      && r.0.inserted >= st.inserted
  {
    if files != [] {
      var prev := RunFold(st, files[..|files| - 1], surveyId, levels, enc);
      RunFoldProps(st, files[..|files| - 1], surveyId, levels, enc);
      if !prev.1 && LevelName in levels {
        var level := levels[LevelName];
        var t := TargetOf(surveyId, level);
        FileFoldProps(prev.0, files[|files| - 1], t, enc);
      }
    }
  }

  /**
   * The exits before the file loop, in the order of lines 184-221: no survey, then no CSV
   * directory, then no CSV file. Each leaves the table and both counters as they were.
   */
  lemma EarlyExits(committed0: seq<Record>, surveyId: Option<int>, levels: map<string, LevelInfo>,
                   dirExists: bool, files: seq<seq<ChunkInput>>, enc: Encoding)
    ensures var e := RunEffect(committed0, surveyId, levels, dirExists, files, enc);
      (e.1 == NoSurvey <==> surveyId.None?)
      && (e.1 == NoCsvDirectory <==> surveyId.Some? && !dirExists)
      && (e.1 == NoCsvFiles <==> surveyId.Some? && dirExists && files == [])
      && (e.1 == NoSurvey || e.1 == NoCsvDirectory || e.1 == NoCsvFiles ==> e.0 == RunState(committed0, [], 0, 0))
  {
  }

  /**
   * However a run ends, the rows already in the table are still there, no transaction is left
   * open, and the rows it added are at most what `total_inserted` reports: a file abandoned
   * after some of its chunks were counted makes the counter overstate the table.
   */
  lemma RunKeepsCommittedAndNeverUndercounts(committed0: seq<Record>, surveyId: Option<int>,
                                             levels: map<string, LevelInfo>, dirExists: bool,
                                             files: seq<seq<ChunkInput>>, enc: Encoding)
    ensures var e := RunEffect(committed0, surveyId, levels, dirExists, files, enc);
      committed0 <= e.0.committed && e.0.pending == []
      && |e.0.committed| - |committed0| <= e.0.inserted
  {
    if surveyId.Some? && dirExists && files != [] {
      RunFoldProps(RunState(committed0, [], 0, 0), files, surveyId.value, levels, enc);
    }
  }

  // ---------------------------------------------------------------------------------------
  // A run in which nothing goes wrong

  /** A chunk that is read, transformed without an exception and accepted by the database. */
  predicate CleanChunk(c: ChunkInput, t: Target, enc: Encoding) {
    c.Chunk? && c.refusal.None? && ChunkRecords(c.rows, t, enc).Success?
  }

  predicate CleanFile(cs: seq<ChunkInput>, t: Target, enc: Encoding) {
    forall k :: 0 <= k < |cs| ==> CleanChunk(cs[k], t, enc)
  }

  /** The records a clean file yields, chunk after chunk. */
  function FileRecords(cs: seq<ChunkInput>, t: Target, enc: Encoding): seq<Record>
    requires CleanFile(cs, t, enc)
  {
    if cs == [] then [] else FileRecords(cs[..|cs| - 1], t, enc) + ChunkRecords(cs[|cs| - 1].rows, t, enc).value
  }

  /** The rows a file's chunks hold, `file_records`. */
  function FileRows(cs: seq<ChunkInput>): nat {
    if cs == [] then 0 else FileRows(cs[..|cs| - 1]) + (match cs[|cs| - 1] case Chunk(rows, _) => |rows| case ReadFailure => 0)
  }

  /**
   * In a clean file every chunk goes on, the session gains exactly the file's records in order
   * (some committed at every fifth chunk, the rest pending), `inserted` grows by their number
   * and `processed` by the number of rows read.
   */
  lemma CleanChunkStep(st: RunState, count: nat, c: ChunkInput, t: Target, enc: Encoding)
    requires CleanChunk(c, t, enc)
    ensures var r := ChunkStep(st, count, c, t, enc);
      var recs := ChunkRecords(c.rows, t, enc).value;
      r.1 == Next
      && r.0.committed + r.0.pending == st.committed + st.pending + recs
      && r.0.inserted == st.inserted + |recs|
      && r.0.processed == st.processed + |c.rows|
  {
    var recs := ChunkRecords(c.rows, t, enc).value;
    if recs != [] {
      LoadSuccessSendsAll(ChooseStrategy(UseCopy, |recs|), recs, BatchSize, c.refusal);
    } else {
      assert st.pending + recs == st.pending;
    }
  }

  lemma {:induction false} CleanFileFold(st: RunState, cs: seq<ChunkInput>, t: Target, enc: Encoding)
    requires CleanFile(cs, t, enc)
    ensures var r := FileFold(st, cs, t, enc);
      r.1 == Next
      && r.0.committed + r.0.pending == st.committed + st.pending + FileRecords(cs, t, enc)
      && r.0.inserted == st.inserted + |FileRecords(cs, t, enc)|
      && r.0.processed == st.processed + FileRows(cs)
  {
    if cs != [] {
      var init := cs[..|cs| - 1];
      assert CleanFile(init, t, enc) by {
        forall k | 0 <= k < |init| ensures CleanChunk(init[k], t, enc) {
          assert init[k] == cs[k];
        }
      }
      CleanFileFold(st, init, t, enc);
      var prev := FileFold(st, init, t, enc);
      var c := cs[|cs| - 1];
      CleanChunkStep(prev.0, |cs|, c, t, enc);
      var recs := ChunkRecords(c.rows, t, enc).value;
      assert FileRecords(cs, t, enc) == FileRecords(init, t, enc) + recs;
      assert FileRows(cs) == FileRows(init) + |c.rows|;
      assert st.committed + st.pending + FileRecords(init, t, enc) + recs
          == st.committed + st.pending + FileRecords(cs, t, enc);
    }
  }

  /** The records of a clean run, file after file. */
  function RunRecords(files: seq<seq<ChunkInput>>, t: Target, enc: Encoding): seq<Record>
    requires forall i :: 0 <= i < |files| ==> CleanFile(files[i], t, enc)
  {
    if files == [] then [] else RunRecords(files[..|files| - 1], t, enc) + FileRecords(files[|files| - 1], t, enc)
  }

  function RunRows(files: seq<seq<ChunkInput>>): nat {
    if files == [] then 0 else RunRows(files[..|files| - 1]) + FileRows(files[|files| - 1])
  }

  lemma {:induction false} CleanRunFold(st: RunState, files: seq<seq<ChunkInput>>, surveyId: int,
                                        levels: map<string, LevelInfo>, enc: Encoding)
    requires LevelName in levels && st.pending == []
    requires var level := levels[LevelName];
      forall i :: 0 <= i < |files| ==> CleanFile(files[i], TargetOf(surveyId, level), enc)
    ensures var level := levels[LevelName];
      var t := TargetOf(surveyId, level);
      var r := RunFold(st, files, surveyId, levels, enc);
      !r.1 && r.0.pending == []
      && r.0.committed == st.committed + RunRecords(files, t, enc)
      && r.0.inserted == st.inserted + |RunRecords(files, t, enc)|
      && r.0.processed == st.processed + RunRows(files)
  {
    if files != [] {
      var level := levels[LevelName];
      var t := TargetOf(surveyId, level);
      var init := files[..|files| - 1];
      assert forall i :: 0 <= i < |init| ==> init[i] == files[i];
      CleanRunFold(st, init, surveyId, levels, enc);
      var prev := RunFold(st, init, surveyId, levels, enc);
      var last := files[|files| - 1];
      CleanFileEffect(prev.0, last, t, enc);
      CleanRunStep(st.committed, RunRecords(init, t, enc), FileRecords(last, t, enc));
    }
  }

  /** A clean file, from a session with no open transaction, commits exactly its records. */
  lemma CleanFileEffect(st: RunState, cs: seq<ChunkInput>, t: Target, enc: Encoding)
    requires CleanFile(cs, t, enc) && st.pending == []
    ensures FileEffect(st, cs, t, enc)
         == (RunState(st.committed + FileRecords(cs, t, enc), [], st.inserted + |FileRecords(cs, t, enc)|, st.processed + FileRows(cs)), false)
  {
    CleanFileFold(st, cs, t, enc);
    assert st.committed + st.pending == st.committed;
  }

  lemma CleanRunStep(committed: seq<Record>, before: seq<Record>, recs: seq<Record>)
    ensures committed + before + recs == committed + (before + recs)
    ensures |before + recs| == |before| + |recs|
  {
  }

  /**
   * When the survey and the `ASI_BLOCK_C` level exist and every chunk of every file is clean,
   * the run completes, the table gains exactly the run's records in file and chunk order, and
   * both counters are exact.
   */
  lemma CleanRunLoadsEverything(committed0: seq<Record>, surveyId: int, levels: map<string, LevelInfo>,
                                files: seq<seq<ChunkInput>>, enc: Encoding)
    requires files != [] && LevelName in levels
    requires var level := levels[LevelName];
      forall i :: 0 <= i < |files| ==> CleanFile(files[i], TargetOf(surveyId, level), enc)
    ensures var level := levels[LevelName];
      var t := TargetOf(surveyId, level);
      var e := RunEffect(committed0, Some(surveyId), levels, true, files, enc);
      e.1 == Completed
      && e.0.committed == committed0 + RunRecords(files, t, enc)
      && e.0.inserted == |RunRecords(files, t, enc)|
      && e.0.processed == RunRows(files)
  {
    CleanRunFold(RunState(committed0, [], 0, 0), files, surveyId, levels, enc);
  }

  /** Without an `ASI_BLOCK_C` level every file is skipped: the run completes and changes nothing. */
  lemma {:induction false} MissingLevelSkipsEveryFile(st: RunState, files: seq<seq<ChunkInput>>, surveyId: int,
                                                      levels: map<string, LevelInfo>, enc: Encoding)
    requires LevelName !in levels
    ensures RunFold(st, files, surveyId, levels, enc) == (st, false)
  {
    if files != [] {
      MissingLevelSkipsEveryFile(st, files[..|files| - 1], surveyId, levels, enc);
    }
  }

  // ---------------------------------------------------------------------------------------
  // When commits happen, and what a failing chunk leaves

  /**
   * The commit cadence of line 284: an accepted chunk with records commits the whole session,
   * its own records included, exactly when its number is a multiple of five; any other
   * accepted chunk leaves the committed rows alone and its records pending.
   */
  lemma CommitCadence(st: RunState, count: nat, c: ChunkInput, t: Target, enc: Encoding)
    requires CleanChunk(c, t, enc)
    ensures var r := ChunkStep(st, count, c, t, enc);
      var recs := ChunkRecords(c.rows, t, enc).value;
      r.1 == Next
      && (recs != [] && count % CommitEvery == 0 ==>
            r.0.pending == [] && r.0.committed == st.committed + st.pending + recs)
      && (recs == [] || count % CommitEvery != 0 ==>
            r.0.committed == st.committed && r.0.pending == st.pending + recs)
  {
    var recs := ChunkRecords(c.rows, t, enc).value;
    if recs != [] {
      LoadSuccessSendsAll(ChooseStrategy(UseCopy, |recs|), recs, BatchSize, c.refusal);
    } else {
      assert st.pending + recs == st.pending;
    }
  }

  /** A chunk whose reading or transforming raises inside the file's `try`. */
  predicate ChunkRaises(c: ChunkInput, t: Target, enc: Encoding) {
    c.ReadFailure? || ChunkRecords(c.rows, t, enc).Failure?
  }

  /**
   * A file whose first `k` chunks are clean and whose next chunk raises (lines 305-308): the
   * table keeps exactly what the clean chunks had committed; the pending rest is rolled back,
   * yet both counters keep counting it, so `total_inserted` overstates the table.
   */
  lemma {:induction false} AbandonedFile(st: RunState, cs: seq<ChunkInput>, k: nat, t: Target, enc: Encoding)
    requires st.pending == [] && k < |cs| && CleanFile(cs[..k], t, enc) && ChunkRaises(cs[k], t, enc)
    ensures var before := FileFold(st, cs[..k], t, enc).0;
      var e := FileEffect(st, cs, t, enc);
      !e.1 && e.0.pending == [] && e.0.committed == before.committed
      && e.0.inserted == st.inserted + |FileRecords(cs[..k], t, enc)|
      && e.0.processed == st.processed + FileRows(cs[..k])
  {
    CleanFileFold(st, cs[..k], t, enc);
    RaisingChunkStops(st, cs, k, t, enc);
  }

  /** What an abandoned file leaves committed lies between the old table and all of its clean chunks' records. */
  lemma {:induction false} AbandonedFileKeepsPart(st: RunState, cs: seq<ChunkInput>, k: nat, t: Target, enc: Encoding)
    requires st.pending == [] && k < |cs| && CleanFile(cs[..k], t, enc) && ChunkRaises(cs[k], t, enc)
    ensures st.committed <= FileEffect(st, cs, t, enc).0.committed
    ensures FileEffect(st, cs, t, enc).0.committed <= st.committed + FileRecords(cs[..k], t, enc)
  {
    var prefix := cs[..k];
    AbandonedFile(st, cs, k, t, enc);
    var before := FileFold(st, prefix, t, enc).0;
    var records := FileRecords(prefix, t, enc);
    assert FileEffect(st, cs, t, enc).0.committed == before.committed;
    FileFoldProps(st, prefix, t, enc);
    CleanFileFold(st, prefix, t, enc);
    assert st.committed + st.pending == st.committed;
    assert before.committed + before.pending == st.committed + records;
    PrefixOfConcat(before.committed, before.pending);
  }

  lemma PrefixOfConcat<T>(a: seq<T>, b: seq<T>)
    ensures a <= a + b
  {
  }

  /** A chunk that raises while the loop is still going on ends the file with its transaction rolled back. */
  lemma RaisingChunkStops(st: RunState, cs: seq<ChunkInput>, k: nat, t: Target, enc: Encoding)
    requires k < |cs| && FileFold(st, cs[..k], t, enc).1 == Next && ChunkRaises(cs[k], t, enc)
    ensures FileEffect(st, cs, t, enc) == (RolledBack(FileFold(st, cs[..k], t, enc).0), false)
  {
    var before := FileFold(st, cs[..k], t, enc);
    assert cs[..k + 1][..k] == cs[..k];
    assert cs[..k + 1][k] == cs[k];
    assert FileFold(st, cs[..k + 1], t, enc) == (RolledBack(before.0), FileAborted);
    FileStopPersists(st, cs, t, enc, k + 1);
  }

  /** A clean file without its last chunk is clean, and its records are the shorter file's plus the last chunk's. */
  lemma CleanInit(cs: seq<ChunkInput>, t: Target, enc: Encoding)
    requires CleanFile(cs, t, enc) && |cs| > 0
    ensures CleanFile(cs[..|cs| - 1], t, enc) && CleanChunk(cs[|cs| - 1], t, enc)
    ensures FileRecords(cs, t, enc) == FileRecords(cs[..|cs| - 1], t, enc) + ChunkRecords(cs[|cs| - 1].rows, t, enc).value
  {
    var init := cs[..|cs| - 1];
    forall j | 0 <= j < |init| ensures CleanChunk(init[j], t, enc) {
      assert init[j] == cs[j];
    }
  }

  /** A clean run of chunks whose last one commits leaves all of their records committed and nothing pending. */
  lemma CommittingPrefix(st: RunState, cs: seq<ChunkInput>, t: Target, enc: Encoding)
    requires CleanFile(cs, t, enc) && |cs| > 0 && |cs| % CommitEvery == 0
    requires ChunkRecords(cs[|cs| - 1].rows, t, enc).value != []
    ensures FileFold(st, cs, t, enc).0.committed == st.committed + st.pending + FileRecords(cs, t, enc)
    ensures FileFold(st, cs, t, enc).0.pending == []
  {
    CleanInit(cs, t, enc);
    var init := cs[..|cs| - 1];
    var last := cs[|cs| - 1];
    var recs := ChunkRecords(last.rows, t, enc).value;
    CleanFileFold(st, init, t, enc);
    var mid := FileFold(st, init, t, enc);
    CommitCadence(mid.0, |cs|, last, t, enc);
    assert FileFold(st, cs, t, enc) == ChunkStep(mid.0, |cs|, last, t, enc);
    CleanRunStep(st.committed + st.pending, FileRecords(init, t, enc), recs);
  }

  /** A chunk that raises right after a committing chunk loses nothing: the clean chunks' records are all in the table. */
  lemma AbandonedAfterCommit(st: RunState, cs: seq<ChunkInput>, k: nat, t: Target, enc: Encoding)
    requires st.pending == [] && 0 < k < |cs| && CleanFile(cs[..k], t, enc) && ChunkRaises(cs[k], t, enc)
    requires k % CommitEvery == 0 && ChunkRecords(cs[k - 1].rows, t, enc).value != []
    ensures FileEffect(st, cs, t, enc).0.committed == st.committed + FileRecords(cs[..k], t, enc)
  {
    var prefix := cs[..k];
    AbandonedFile(st, cs, k, t, enc);
    var before := FileFold(st, prefix, t, enc).0;
    assert FileEffect(st, cs, t, enc).0.committed == before.committed;
    assert prefix[k - 1] == cs[k - 1];
    CommittingPrefix(st, prefix, t, enc);
    assert before.committed == st.committed + st.pending + FileRecords(prefix, t, enc);
    assert st.committed + st.pending == st.committed;
  }


  /** A file whose first chunk raises leaves the session and the counters as they were. */
  lemma FirstChunkRaises(st: RunState, cs: seq<ChunkInput>, t: Target, enc: Encoding)
    requires st.pending == [] && cs != [] && ChunkRaises(cs[0], t, enc)
    ensures FileEffect(st, cs, t, enc) == (st, false)
  {
    assert cs[..0] == [];
    AbandonedFile(st, cs, 0, t, enc);
  }

  lemma {:induction false} RaisingRunFold(st: RunState, files: seq<seq<ChunkInput>>, surveyId: int,
                                          levels: map<string, LevelInfo>, enc: Encoding)
    requires st.pending == [] && LevelName in levels
    requires forall i :: 0 <= i < |files| ==>
      files[i] != [] && ChunkRaises(files[i][0], TargetOf(surveyId, levels[LevelName]), enc)
    ensures RunFold(st, files, surveyId, levels, enc) == (st, false)
  {
    if files != [] {
      var init := files[..|files| - 1];
      assert forall i :: 0 <= i < |init| ==> init[i] == files[i];
      RaisingRunFold(st, init, surveyId, levels, enc);
      FirstChunkRaises(st, files[|files| - 1], TargetOf(surveyId, levels[LevelName]), enc);
    }
  }

  /**
   * The program as written: every chunk is read with `header=None`, so its transformation
   * raises at line 118 (`Transform.HeaderlessChunkRaises`). When every file's first chunk
   * raises, each file is rolled back and skipped, and the run still reports completion with
   * the table unchanged and both counters at zero.
   */
  lemma AsWrittenRunLoadsNothing(committed0: seq<Record>, surveyId: int, levels: map<string, LevelInfo>,
                                 files: seq<seq<ChunkInput>>, enc: Encoding)
    requires files != [] && LevelName in levels
    requires forall i :: 0 <= i < |files| ==>
      files[i] != [] && ChunkRaises(files[i][0], TargetOf(surveyId, levels[LevelName]), enc)
    ensures RunEffect(committed0, Some(surveyId), levels, true, files, enc) == (RunState(committed0, [], 0, 0), Completed)
  {
    RaisingRunFold(RunState(committed0, [], 0, 0), files, surveyId, levels, enc);
    assert committed0 + [] == committed0;
  }
}
