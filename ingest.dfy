/**
 * The file-at-a-time microdata loader of Data_Injection/03_ingest_microdata.py: each CSV file
 * of the directory is mapped to a level, read with or without a header row, turned into
 * records by the same row transformation as the chunked driver, inserted and committed as
 * one unit. Any failure stops the whole run, keeping the files committed before it.
 */
module Ingest {
  import opened Wrappers
  import opened Text
  import opened Values
  import opened Transform
  import opened Loader

  /**
   * The two per-file tables of the script: the level a file name maps to (with a `default`
   * entry) and the files read with a header row. The index of the header row only matters
   * to the CSV reader, which is outside the model.
   */
  datatype Config = Config(levelMap: map<string, string>, headerRows: map<string, int>)

  /** `CSV_FILE_TO_DB_LEVEL_NAME` and `CSV_HEADER_ROW_MAP` as shipped (lines 19-28). */
  const ShippedConfig: Config := Config(map["default" := "ASI_BLOCK_C"], map["blkC202223.CSV" := 0])

  /**
   * One directory entry: its name, the frame `pd.read_csv` returns for it with the header
   * option its name selects (None when reading raises), and whether the database accepts
   * the INSERT of its records.
   */
  datatype DirEntry = DirEntry(name: string, read: Option<Frame>, accepted: bool)

  /** How the run ends: normally, or at one of the script's `sys.exit(1)` calls. */
  datatype Exit =
    | Finished
    | NoSurvey | NoCsvDirectory | NoCsvFiles
    | NoLevelMapping | NoLevelMetadata | ColumnCountMismatch | FileFailed

  /** pandas frames are rectangular; the model takes that as given of every entry. */
  predicate WellRead(entries: seq<DirEntry>) {
    forall e :: e in entries && e.read.Some? ==> Rectangular(e.read.value)
  }

  predicate IsCsvName(name: string) {
    EndsWith(Lower(name), ".csv")
  }

  /** `[f for f in os.listdir(...) if f.lower().endswith('.csv')]`, keeping directory order. */
  function CsvFiles(entries: seq<DirEntry>): (r: seq<DirEntry>)
    ensures forall e :: e in r <==> e in entries && IsCsvName(e.name)
    ensures |r| <= |entries|
    ensures WellRead(entries) ==> WellRead(r)
  {
    if entries == [] then []
    else
      var init := CsvFiles(entries[..|entries| - 1]);
      var last := entries[|entries| - 1];
      assert entries == entries[..|entries| - 1] + [last];
      if IsCsvName(last.name) then init + [last] else init
  }

  /** The filter keeps directory order: it distributes over concatenation, entry by entry. */
  lemma {:induction false} CsvFilesAppend(a: seq<DirEntry>, b: seq<DirEntry>)
    ensures CsvFiles(a + b) == CsvFiles(a) + CsvFiles(b)
    decreases |b|
  {
    if b == [] {
      assert a + b == a;
    } else {
      var init := b[..|b| - 1];
      var last := b[|b| - 1];
      assert (a + b)[..|a + b| - 1] == a + init;
      assert (a + b)[|a + b| - 1] == last;
      CsvFilesAppend(a, init);
      if IsCsvName(last.name) {
        assert CsvFiles(a + b) == CsvFiles(a + init) + [last];
        assert CsvFiles(b) == CsvFiles(init) + [last];
      } else {
        assert CsvFiles(a + b) == CsvFiles(a + init);
        assert CsvFiles(b) == CsvFiles(init);
      }
    }
  }

  /**
   * The level name of a file (lines 84-87): its own entry if that is a non-empty name,
   * otherwise the `default` entry if that is; None when neither is, which ends the run.
   */
  function LevelFor(name: string, levelMap: map<string, string>): (r: Option<string>)
    ensures r.Some? ==> r.value != []
    ensures r.Some? && name in levelMap && levelMap[name] != [] ==> r.value == levelMap[name]
    ensures r.Some? && (name !in levelMap || levelMap[name] == []) ==> "default" in levelMap && r.value == levelMap["default"]
    ensures r.None? <==> (name !in levelMap || levelMap[name] == []) && ("default" !in levelMap || levelMap["default"] == [])
  {
    if name in levelMap && levelMap[name] != [] then Some(levelMap[name])
    else if "default" in levelMap && levelMap["default"] != [] then Some(levelMap["default"])
    else None
  }

  /** With the shipped table every file goes to `ASI_BLOCK_C`. */
  lemma ShippedLevelIsBlockC(name: string)
    ensures LevelFor(name, ShippedConfig.levelMap) == Some("ASI_BLOCK_C")
  {
  }

  function SchemaLabels(schema: seq<VariableDef>): (r: seq<Label>)
    ensures |r| == |schema| && forall i :: 0 <= i < |schema| ==> r[i] == Named(schema[i].name)
  {
    seq(|schema|, i requires 0 <= i < |schema| => Named(schema[i].name))
  }

  /**
   * The frame's column labels before upper-casing (lines 108-117): the header's labels for a
   * file listed in the header table; otherwise the schema's names, which must be exactly as
   * many as the frame's columns.
   */
  function Columns(name: string, f: Frame, schema: seq<VariableDef>, cfg: Config): (r: Result<seq<Label>, Exit>)
    ensures r.Success? ==> |r.value| == |f.labels|
    ensures r.Failure? <==> name !in cfg.headerRows && |schema| != |f.labels|
    ensures name in cfg.headerRows ==> r == Success(f.labels)
    ensures name !in cfg.headerRows && r.Success? ==> r.value == SchemaLabels(schema)
  {
    if name in cfg.headerRows then Success(f.labels)
    else if |schema| != |f.labels| then Failure(ColumnCountMismatch)
    else Success(SchemaLabels(schema))
  }

  /** What one file contributes: the records it commits, or the exit it causes. */
  function FileOutcome(e: DirEntry, surveyId: int, levels: map<string, LevelInfo>, cfg: Config, enc: Encoding): Result<seq<Record>, Exit>
    requires e.read.Some? ==> Rectangular(e.read.value)
  {
    match LevelFor(e.name, cfg.levelMap)
    case None => Failure(NoLevelMapping)
    case Some(levelName) =>
      if levelName !in levels then Failure(NoLevelMetadata)
      else if e.read.None? then Failure(FileFailed)
      else
        var level := levels[levelName];
        var f := e.read.value;
        match Columns(e.name, f, level.schema, cfg)
        case Failure(x) => Failure(x)
        case Success(labels) => FrameOutcome(labels, f, TargetOf(surveyId, level), enc, e.accepted)
  }

  /** What a frame whose column labels are settled contributes: its records, or a failed file. */
  function FrameOutcome(labels: seq<Label>, f: Frame, t: Target, enc: Encoding, accepted: bool): Result<seq<Record>, Exit>
    requires Rectangular(f) && |labels| == |f.labels|
  {
    match UpperLabels(labels)
    case Failure(_) => Failure(FileFailed)
    case Success(names) =>
      match ChunkRecords(RowMaps(names, f.rows), t, enc)
      case Failure(_) => Failure(FileFailed)
      case Success(recs) => if recs != [] && !accepted then Failure(FileFailed) else Success(recs)
  }

  /** The file loop over the first `|files|` files: the table's rows and the exit, if one was reached. */
  function RunFold(committed: seq<Record>, files: seq<DirEntry>, surveyId: int, levels: map<string, LevelInfo>,
                   cfg: Config, enc: Encoding): (seq<Record>, Option<Exit>)
    requires WellRead(files)
  {
    if files == [] then (committed, None)
    else
      var init := files[..|files| - 1];
      Extend(RunFold(committed, init, surveyId, levels, cfg, enc), FileOutcome(files[|files| - 1], surveyId, levels, cfg, enc))
  }

  /** The run so far followed by one more file, unless the run has already exited. */
  function Extend(prev: (seq<Record>, Option<Exit>), o: Result<seq<Record>, Exit>): (seq<Record>, Option<Exit>) {
    if prev.1.Some? then prev
    else
      match o
      case Failure(x) => (prev.0, Some(x))
      case Success(recs) => (prev.0 + recs, None)
  }

  /** `ingest_microdata_from_csv`, from the rows already in the table. */
  function RunEffect(committed0: seq<Record>, surveyId: Option<int>, levels: map<string, LevelInfo>,
                     dirExists: bool, entries: seq<DirEntry>, cfg: Config, enc: Encoding): (seq<Record>, Exit)
    requires WellRead(entries)
  {
    if surveyId.None? then (committed0, NoSurvey)
    else if !dirExists then (committed0, NoCsvDirectory)
    else
      var files := CsvFiles(entries);
      if files == [] then (committed0, NoCsvFiles)
      else
        var r := RunFold(committed0, files, surveyId.value, levels, cfg, enc);
        (r.0, if r.1.Some? then r.1.value else Finished)
  }

  // ---------------------------------------------------------------------------------------
  // The loops

  /**
   * The per-row loop of lines 122-161 with its counters: every row that raises nothing counts
   * towards `total`, a row with an incomplete identifier also towards `skipped`, and every
   * other row becomes a record, so the records number `total - skipped`.
   */
  method TransformRows(rows: seq<Row>, t: Target, enc: Encoding)
    returns (r: Result<seq<Record>, Exception>, total: nat, skipped: nat)
    ensures r == ChunkRecords(rows, t, enc)
    ensures r.Success? ==> total == |rows| && skipped == SkippedRows(rows, t, enc)
    ensures r.Success? ==> |r.value| == total - skipped
  {
    var data: seq<Record> := [];
    total, skipped := 0, 0;
    var i := 0;
    while i < |rows|
      invariant 0 <= i <= |rows|
      invariant ChunkRecords(rows[..i], t, enc) == Success(data)
      invariant total == i && skipped == SkippedRows(rows[..i], t, enc)
    {
      assert rows[..i + 1][..i] == rows[..i];
      var outcome := ProcessRow(rows[i], t.schema, |t.commonIdentifiers|, enc.num);
      if outcome.Failure? {
        ChunkFailurePersists(rows, t, enc, i + 1);
        return Failure(outcome.error), total, skipped;
      }
      total := total + 1;
      if outcome.value.Skip? {
        skipped := skipped + 1;
      } else {
        data := data + [Record(t.surveyId, t.levelId, outcome.value.unitIdentifier, enc.toJson(outcome.value.payload))];
      }
      i := i + 1;
    }
    assert rows[..i] == rows;
    r := Success(data);
    ChunkAccounting(rows, t, enc);
  }

  /** One pass of the file loop (lines 80-178); the session has no open transaction before or after. */
  method IngestFile(conn: Connection, e: DirEntry, surveyId: int, levels: map<string, LevelInfo>, cfg: Config, enc: Encoding)
    returns (exit: Option<Exit>)
    requires conn.pending == [] && (e.read.Some? ==> Rectangular(e.read.value))
    modifies conn
    ensures conn.pending == []
    ensures var o := FileOutcome(e, surveyId, levels, cfg, enc);
      if o.Success? then exit.None? && conn.committed == old(conn.committed) + o.value
      else exit == Some(o.error) && conn.committed == old(conn.committed)
  {
    var levelName := LevelFor(e.name, cfg.levelMap);
    if levelName.None? {
      return Some(NoLevelMapping);
    }
    if levelName.value !in levels {
      return Some(NoLevelMetadata);
    }
    var level := levels[levelName.value];
    if e.read.None? {
      conn.Rollback();
      return Some(FileFailed);
    }
    var f := e.read.value;
    var labels: seq<Label>;
    if e.name !in cfg.headerRows {
      if |level.schema| != |f.labels| {
        return Some(ColumnCountMismatch);
      }
      labels := SchemaLabels(level.schema);
    } else {
      labels := f.labels;
    }
    exit := LoadFrame(conn, labels, f, TargetOf(surveyId, level), enc, e.accepted);
  }

  /** Lines 118-178 for one frame: upper-case the labels, transform the rows, insert and commit. */
  method LoadFrame(conn: Connection, labels: seq<Label>, f: Frame, t: Target, enc: Encoding, accepted: bool)
    returns (exit: Option<Exit>)
    requires conn.pending == [] && Rectangular(f) && |labels| == |f.labels|
    modifies conn
    ensures conn.pending == []
    ensures var o := FrameOutcome(labels, f, t, enc, accepted);
      if o.Success? then exit.None? && conn.committed == old(conn.committed) + o.value
      else exit == Some(o.error) && conn.committed == old(conn.committed)
  {
    var names := UpperLabels(labels);
    if names.Failure? {
      conn.Rollback();
      return Some(FileFailed);
    }
    var records, total, skipped := TransformRows(RowMaps(names.value, f.rows), t, enc);
    if records.Failure? {
      conn.Rollback();
      return Some(FileFailed);
    }
    var recs := records.value;
    if recs != [] {
      if !accepted {
        conn.Rollback();
        return Some(FileFailed);
      }
      conn.Append(recs);
      conn.Commit();
    }
    exit := None;
  }

  lemma {:induction false} RunStopPersists(committed: seq<Record>, files: seq<DirEntry>, surveyId: int,
                                           levels: map<string, LevelInfo>, cfg: Config, enc: Encoding, k: nat)
    requires WellRead(files) && k <= |files|
    requires WellRead(files[..k]) && RunFold(committed, files[..k], surveyId, levels, cfg, enc).1.Some?
    ensures RunFold(committed, files, surveyId, levels, cfg, enc) == RunFold(committed, files[..k], surveyId, levels, cfg, enc)
    decreases |files| - k
  {
    if k < |files| {
      assert files[..k + 1][..k] == files[..k];
      RunStopPersists(committed, files, surveyId, levels, cfg, enc, k + 1);
    } else {
      assert files[..k] == files;
    }
  }

  /** `ingest_microdata_from_csv(csv_dir_path)` on a fresh session. */
  method IngestMicrodata(conn: Connection, surveyId: Option<int>, levels: map<string, LevelInfo>,
                         dirExists: bool, entries: seq<DirEntry>, cfg: Config, enc: Encoding)
    returns (exit: Exit)
    requires conn.pending == [] && WellRead(entries)
    modifies conn
    ensures conn.pending == []
    ensures (conn.committed, exit) == RunEffect(old(conn.committed), surveyId, levels, dirExists, entries, cfg, enc)
  {
    if surveyId.None? {
      return NoSurvey;
    }
    if !dirExists {
      return NoCsvDirectory;
    }
    var files := CsvFiles(entries);
    if files == [] {
      return NoCsvFiles;
    }
    var stop := IngestFiles(conn, files, surveyId.value, levels, cfg, enc);
    exit := if stop.Some? then stop.value else Finished;
  }

  /** The file loop (lines 79-178). */
  method IngestFiles(conn: Connection, files: seq<DirEntry>, surveyId: int, levels: map<string, LevelInfo>, cfg: Config, enc: Encoding)
    returns (stop: Option<Exit>)
    requires conn.pending == [] && WellRead(files)
    modifies conn
    ensures conn.pending == []
    ensures (conn.committed, stop) == RunFold(old(conn.committed), files, surveyId, levels, cfg, enc)
  {
    ghost var committed0 := conn.committed;
    var i := 0;
    while i < |files|
      invariant 0 <= i <= |files| && conn.pending == []
      invariant WellRead(files[..i])
      invariant RunFold(committed0, files[..i], surveyId, levels, cfg, enc) == (conn.committed, None)
    {
      stop := IngestNext(conn, committed0, files, surveyId, levels, cfg, enc, i);
      if stop.Some? {
        return stop;
      }
      i := i + 1;
    }
    assert files[..i] == files;
    stop := None;
  }

  /** The run over the first `i + 1` files is the run over the first `i` extended by file `i`. */
  lemma RunFoldStep(committed: seq<Record>, files: seq<DirEntry>, surveyId: int, levels: map<string, LevelInfo>,
                    cfg: Config, enc: Encoding, i: nat)
    requires WellRead(files) && i < |files|
    ensures WellRead(files[..i]) && WellRead(files[..i + 1])
    ensures RunFold(committed, files[..i + 1], surveyId, levels, cfg, enc)
         == Extend(RunFold(committed, files[..i], surveyId, levels, cfg, enc), FileOutcome(files[i], surveyId, levels, cfg, enc))
  {
    assert files[..i + 1][..i] == files[..i];
    assert files[..i + 1][i] == files[i];
  }

  /** One pass of the file loop, from the run over the first `i` files: the run ends here or goes on to file `i + 1`. */
  method IngestNext(conn: Connection, ghost committed0: seq<Record>, files: seq<DirEntry>, surveyId: int,
                    levels: map<string, LevelInfo>, cfg: Config, enc: Encoding, i: nat)
    returns (stop: Option<Exit>)
    requires conn.pending == [] && WellRead(files) && i < |files|
    requires WellRead(files[..i]) && RunFold(committed0, files[..i], surveyId, levels, cfg, enc) == (conn.committed, None)
    modifies conn
    ensures conn.pending == [] && WellRead(files[..i + 1])
    ensures stop.Some? ==> (conn.committed, stop) == RunFold(committed0, files, surveyId, levels, cfg, enc)
    ensures stop.None? ==> RunFold(committed0, files[..i + 1], surveyId, levels, cfg, enc) == (conn.committed, None)
  {
    RunFoldStep(committed0, files, surveyId, levels, cfg, enc, i);
    ghost var before := conn.committed;
    stop := IngestFile(conn, files[i], surveyId, levels, cfg, enc);
    ExtendBy(before, FileOutcome(files[i], surveyId, levels, cfg, enc), conn.committed, stop);
    if stop.Some? {
      RunStopPersists(committed0, files, surveyId, levels, cfg, enc, i + 1);
    }
  }

  /** A file that commits its records, or exits with nothing committed, extends the run as `Extend` says. */
  lemma ExtendBy(before: seq<Record>, o: Result<seq<Record>, Exit>, after: seq<Record>, stop: Option<Exit>)
    requires o.Success? ==> stop.None? && after == before + o.value
    requires o.Failure? ==> stop == Some(o.error) && after == before
    ensures Extend((before, None), o) == (after, stop)
  {
  }

  // ---------------------------------------------------------------------------------------
  // What a run leaves behind

  /** The records of files that all succeed, file after file. */
  function AllRecords(files: seq<DirEntry>, surveyId: int, levels: map<string, LevelInfo>, cfg: Config, enc: Encoding): seq<Record>
    requires WellRead(files)
    requires forall e :: e in files ==> FileOutcome(e, surveyId, levels, cfg, enc).Success?
  {
    if files == [] then []
    else
      var init := files[..|files| - 1];
      AllRecords(init, surveyId, levels, cfg, enc) + FileOutcome(files[|files| - 1], surveyId, levels, cfg, enc).value
  }

  /**
   * Files are committed whole and in order: if the first `k` files succeed and file `k` (if
   * there is one) fails, the table gains exactly the first `k` files' records and the run
   * exits with file `k`'s failure, whatever the files after it hold.
   */
  lemma {:induction false} FirstFailureDecides(committed: seq<Record>, files: seq<DirEntry>, surveyId: int,
                                               levels: map<string, LevelInfo>, cfg: Config, enc: Encoding, k: nat)
    requires WellRead(files) && k <= |files|
    requires forall i :: 0 <= i < k ==> FileOutcome(files[i], surveyId, levels, cfg, enc).Success?
    requires k < |files| ==> FileOutcome(files[k], surveyId, levels, cfg, enc).Failure?
    ensures WellRead(files[..k])
    ensures RunFold(committed, files, surveyId, levels, cfg, enc)
         == (committed + AllRecords(files[..k], surveyId, levels, cfg, enc),
             if k < |files| then Some(FileOutcome(files[k], surveyId, levels, cfg, enc).error) else None)
  {
    AllSucceed(committed, files[..k], surveyId, levels, cfg, enc);
    if k < |files| {
      assert files[..k + 1][..k] == files[..k];
      RunStopPersists(committed, files, surveyId, levels, cfg, enc, k + 1);
    } else {
      assert files[..k] == files;
    }
  }

  lemma {:induction false} AllSucceed(committed: seq<Record>, files: seq<DirEntry>, surveyId: int,
                                      levels: map<string, LevelInfo>, cfg: Config, enc: Encoding)
    requires WellRead(files)
    requires forall e :: e in files ==> FileOutcome(e, surveyId, levels, cfg, enc).Success?
    ensures RunFold(committed, files, surveyId, levels, cfg, enc) == (committed + AllRecords(files, surveyId, levels, cfg, enc), None)
  {
    if files != [] {
      var init := files[..|files| - 1];
      assert forall e :: e in init ==> e in files;
      AllSucceed(committed, init, surveyId, levels, cfg, enc);
      var o := FileOutcome(files[|files| - 1], surveyId, levels, cfg, enc);
      assert o.Success? by { assert files[|files| - 1] in files; }
      var before := AllRecords(init, surveyId, levels, cfg, enc);
      ExtendSuccess(committed, before, o.value);
    } else {
      assert committed + [] == committed;
    }
  }

  /** A successful file appends its records to a run that has not exited. */
  lemma ExtendSuccess(committed: seq<Record>, before: seq<Record>, recs: seq<Record>)
    ensures Extend((committed + before, None), Success(recs)) == (committed + (before + recs), None)
  {
    assert committed + before + recs == committed + (before + recs);
  }

  /** When every CSV file succeeds the run finishes normally, having committed every file's records in directory order. */
  lemma FinishedWhenAllSucceed(committed0: seq<Record>, surveyId: int, levels: map<string, LevelInfo>,
                               entries: seq<DirEntry>, cfg: Config, enc: Encoding)
    requires WellRead(entries) && CsvFiles(entries) != []
    requires forall e :: e in CsvFiles(entries) ==> FileOutcome(e, surveyId, levels, cfg, enc).Success?
    ensures RunEffect(committed0, Some(surveyId), levels, true, entries, cfg, enc)
         == (committed0 + AllRecords(CsvFiles(entries), surveyId, levels, cfg, enc), Finished)
  {
    AllSucceed(committed0, CsvFiles(entries), surveyId, levels, cfg, enc);
  }

  /** When some CSV file fails the run exits with that file's reason instead of finishing. */
  lemma ExitsWhenOneFails(committed0: seq<Record>, surveyId: int, levels: map<string, LevelInfo>,
                          entries: seq<DirEntry>, cfg: Config, enc: Encoding)
    requires WellRead(entries)
    requires exists e :: e in CsvFiles(entries) && FileOutcome(e, surveyId, levels, cfg, enc).Failure?
    ensures RunEffect(committed0, Some(surveyId), levels, true, entries, cfg, enc).1 != Finished
  {
    var files := CsvFiles(entries);
    var k := FirstFailing(files, surveyId, levels, cfg, enc);
    FirstFailureDecides(committed0, files, surveyId, levels, cfg, enc, k);
  }

  /** The run finishes normally exactly when the survey, the directory and a CSV file exist and every CSV file succeeds. */
  lemma FinishedIff(committed0: seq<Record>, surveyId: Option<int>, levels: map<string, LevelInfo>,
                    dirExists: bool, entries: seq<DirEntry>, cfg: Config, enc: Encoding)
    requires WellRead(entries)
    ensures var files := CsvFiles(entries);
      RunEffect(committed0, surveyId, levels, dirExists, entries, cfg, enc).1 == Finished
      <==> surveyId.Some? && dirExists && files != []
           && forall e :: e in files ==> FileOutcome(e, surveyId.value, levels, cfg, enc).Success?
  {
    var files := CsvFiles(entries);
    if surveyId.Some? && dirExists && files != [] {
      if forall e :: e in files ==> FileOutcome(e, surveyId.value, levels, cfg, enc).Success? {
        FinishedWhenAllSucceed(committed0, surveyId.value, levels, entries, cfg, enc);
      } else {
        ExitsWhenOneFails(committed0, surveyId.value, levels, entries, cfg, enc);
      }
    }
  }

  /** The index of the first file that does not succeed. */
  lemma FirstFailing(files: seq<DirEntry>, surveyId: int, levels: map<string, LevelInfo>, cfg: Config, enc: Encoding)
    returns (k: nat)
    requires WellRead(files)
    requires exists e :: e in files && FileOutcome(e, surveyId, levels, cfg, enc).Failure?
    ensures k < |files| && FileOutcome(files[k], surveyId, levels, cfg, enc).Failure?
    ensures forall i :: 0 <= i < k ==> FileOutcome(files[i], surveyId, levels, cfg, enc).Success?
  {
    var ok := seq(|files|, i requires 0 <= i < |files| && files[i] in files => FileOutcome(files[i], surveyId, levels, cfg, enc).Success?);
    var failing :| failing in files && FileOutcome(failing, surveyId, levels, cfg, enc).Failure?;
    var j :| 0 <= j < |files| && files[j] == failing;
    k := FirstFalse(ok, j);
    forall i | 0 <= i < k ensures FileOutcome(files[i], surveyId, levels, cfg, enc).Success? {
      assert ok[i];
    }
  }

  /** The first `false` of `ok`, given that the one at `j` is. */
  lemma FirstFalse(ok: seq<bool>, j: nat) returns (k: nat)
    requires j < |ok| && !ok[j]
    ensures k <= j && !ok[k] && forall i :: 0 <= i < k ==> ok[i]
  {
    k := 0;
    while ok[k]
      invariant k <= j && forall i :: 0 <= i < k ==> ok[i]
      decreases j - k
    {
      k := k + 1;
    }
  }

  // ---------------------------------------------------------------------------------------
  // Reading a file without a header row

  /** `row.to_dict()` finds each column's cell under its name when no later column shares the name. */
  lemma {:induction false} RowMapAt(names: seq<string>, cells: seq<Option<string>>, j: nat)
    requires |names| == |cells| && j < |names|
    requires forall i :: j < i < |names| ==> names[i] != names[j]
    ensures names[j] in RowMap(names, cells) && RowMap(names, cells)[names[j]] == cells[j]
  {
    var n := |names|;
    if j < n - 1 {
      RowMapAt(names[..n - 1], cells[..n - 1], j);
    }
  }

  /**
   * A file read without a header takes the schema's names as its columns, so when the
   * schema's upper-cased names are distinct, each variable reads exactly the cell in its
   * own position: the columns line up with the schema by order.
   */
  lemma PositionalCellsLineUp(schema: seq<VariableDef>, cells: seq<Option<string>>, j: nat)
    requires |cells| == |schema| && j < |schema|
    requires forall a, b :: 0 <= a < b < |schema| ==> Upper(schema[a].name) != Upper(schema[b].name)
    ensures UpperLabels(SchemaLabels(schema)).Success?
    ensures var names := UpperLabels(SchemaLabels(schema)).value;
      Cell(RowMap(names, cells), schema[j]) == cells[j]
  {
    var ns := seq(|schema|, i requires 0 <= i < |schema| => schema[i].name);
    assert SchemaLabels(schema) == seq(|ns|, i requires 0 <= i < |ns| => Named(ns[i]));
    NamedLabelsUpper(ns);
    var names := UpperAll(ns);
    RowMapAt(names, cells, j);
  }
}
