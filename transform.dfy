/**
 * The record transformer: one raw row plus a level's schema becomes either a record
 * (`unit_identifier` and a JSON payload) or a skip. Both ingestion scripts run the same
 * per-variable loop (Backend_Pipeline/ultra_fast_microdata.py:121-158 and
 * Data_Injection/03_ingest_microdata.py:125-161); it is specified once here by `Scan`
 * and `TransformRow`, and carried out by the method `ProcessRow`.
 */
module Transform {
  import opened Wrappers
  import opened Text
  import opened Values

  /** A source row keyed by upper-cased column label; a `None` cell is a NaN. */
  type Row = map<string, Option<string>>

  /** A Python dict in insertion order: each key once, at the place it was first assigned. */
  type Payload = seq<(string, Value)>

  function Keys(d: Payload): set<string> {
    if d == [] then {} else {d[0].0} + Keys(d[1..])
  }

  predicate DistinctKeys(d: Payload) {
    d == [] || (d[0].0 !in Keys(d[1..]) && DistinctKeys(d[1..]))
  }

  /** `d.get(k)`. */
  function Get(d: Payload, k: string): (r: Option<Value>)
    ensures r.Some? <==> k in Keys(d)
  {
    if d == [] then None else if d[0].0 == k then Some(d[0].1) else Get(d[1..], k)
  }

  /** `d[k] = v`: the value of an existing key is replaced where it stands, a new key goes last. */
  function Put(d: Payload, k: string, v: Value): (r: Payload)
    ensures Keys(r) == Keys(d) + {k}
    ensures Get(r, k) == Some(v)
    ensures forall k' :: k' != k ==> Get(r, k') == Get(d, k')
    ensures DistinctKeys(d) ==> DistinctKeys(r)
    ensures |r| == if k in Keys(d) then |d| else |d| + 1
  {
    if d == [] then [(k, v)]
    else if d[0].0 == k then [(k, v)] + d[1..]
    else [d[0]] + Put(d[1..], k, v)
  }

  /** `row.get(name)`: a missing column reads as a NaN cell. */
  function Lookup(row: Row, name: string): Option<string> {
    if name in row then row[name] else None
  }

  /** The raw cell of variable `def` in `row`, found by its upper-cased name. */
  function Cell(row: Row, def: VariableDef): Option<string> {
    Lookup(row, Upper(def.name))
  }

  /** `pd.isna(raw) or str(raw).strip() == ''`. */
  predicate IsBlank(raw: Option<string>) {
    raw.None? || Trim(raw.value) == []
  }

  /**
   * Type coercion of one cell. A blank cell is null whatever the declared type; a value
   * that does not parse falls back to the stripped text; only an INTEGER cell whose
   * `int(float(...))` overflows raises, because only ValueError (and TypeError) is caught.
   */
  function Coerce(raw: Option<string>, typeName: string, num: NumberSyntax): (r: Result<Value, Exception>)
    ensures r == Success(Null) <==> IsBlank(raw)
    ensures r.Failure? ==> r.error == OverflowError && typeName == "INTEGER" && !IsBlank(raw)
    ensures r.Success? && r.value.Str? ==> raw.Some? && r.value.s == Trim(raw.value) && r.value.s != []
    ensures !IsBlank(raw) && typeName != "INTEGER" && typeName != "NUMERIC" ==> r == Success(Str(Trim(raw.value)))
  {
    if IsBlank(raw) then Success(Null)
    else if typeName == "INTEGER" then
      match num.toIntViaFloat(raw.value)
      case Parsed(i) => Success(Int(i))
      case Invalid => Success(Str(Trim(raw.value)))
      case Overflows => Failure(OverflowError)
    else if typeName == "NUMERIC" then
      match num.toFloat(raw.value)
      case Some(f) => Success(Num(f))
      case None => Success(Str(Trim(raw.value)))
    else Success(Str(Trim(raw.value)))
  }

  /**
   * What a non-blank cell converts to: INTEGER is `int(float(cell))`, falling back to the
   * stripped text on ValueError, with OverflowError escaping; NUMERIC is `float(cell)`, falling
   * back to the stripped text.
   */
  lemma CoerceConverts(raw: Option<string>, typeName: string, num: NumberSyntax)
    requires !IsBlank(raw)
    ensures typeName == "INTEGER" ==>
      Coerce(raw, typeName, num)
        == match num.toIntViaFloat(raw.value)
           case Parsed(i) => Success(Int(i))
           case Invalid => Success(Str(Trim(raw.value)))
           case Overflows => Failure(OverflowError)
    ensures typeName == "NUMERIC" ==>
      Coerce(raw, typeName, num)
        == match num.toFloat(raw.value)
           case Some(f) => Success(Num(f))
           case None => Success(Str(Trim(raw.value)))
  {
  }

  /** Python's `str(v)` of a coerced value, the text of an identifier part. */
  function Render(v: Value, num: NumberSyntax): string {
    match v
    case Null => "None"
    case Int(i) => Dec(i)
    case Num(f) => num.floatStr(f)
    case Str(s) => s
  }

  /** The payload and identifier parts built so far by the per-variable loop. */
  datatype Acc = Acc(payload: Payload, parts: seq<string>)

  /** One iteration of the per-variable loop. */
  function Step(acc: Acc, row: Row, def: VariableDef, num: NumberSyntax): Result<Acc, Exception> {
    var name := Upper(def.name);
    match Coerce(Lookup(row, name), def.typeName, num)
    case Failure(e) => Failure(e)
    case Success(v) =>
      Success(Acc(Put(acc.payload, name, v),
                  if def.isCommonId && !v.Null? then acc.parts + [Render(v, num)] else acc.parts))
  }

  /** The per-variable loop over `schema` in order, stopping at the first exception. */
  function Scan(row: Row, schema: seq<VariableDef>, num: NumberSyntax): Result<Acc, Exception>
    decreases |schema|
  {
    if schema == [] then Success(Acc([], []))
    else
      match Scan(row, schema[..|schema| - 1], num)
      case Failure(e) => Failure(e)
      case Success(acc) => Step(acc, row, schema[|schema| - 1], num)
  }

  /** What happens to a row: a record with its identifier and payload, or a skip with the parts found. */
  datatype RowResult = Keep(unitIdentifier: string, payload: Payload) | Skip(expected: nat, found: seq<string>)

  /** The identifier check after the loop (ultra_fast_microdata.py:151, 03_ingest_microdata.py:154). */
  function Decide(acc: Acc, commonCount: nat): RowResult {
    if |acc.parts| == commonCount && forall p :: p in acc.parts ==> p != [] then
      Keep(Join("_", acc.parts), acc.payload)
    else
      Skip(commonCount, acc.parts)
  }

  function TransformRow(row: Row, schema: seq<VariableDef>, commonCount: nat, num: NumberSyntax): Result<RowResult, Exception> {
    match Scan(row, schema, num)
    case Failure(e) => Failure(e)
    case Success(acc) => Success(Decide(acc, commonCount))
  }

  /** An exception in the first `k` variables is the exception of the whole loop. */
  lemma {:induction false} ScanFailurePersists(row: Row, schema: seq<VariableDef>, k: nat, num: NumberSyntax)
    requires k <= |schema| && Scan(row, schema[..k], num).Failure?
    ensures Scan(row, schema, num) == Scan(row, schema[..k], num)
    decreases |schema| - k
  {
    if k < |schema| {
      var n := |schema|;
      assert schema[..n - 1][..k] == schema[..k];
      ScanFailurePersists(row, schema[..n - 1], k, num);
    } else {
      assert schema[..k] == schema;
    }
  }

  /** One more variable extends the loop by one `Step`. */
  lemma ScanStep(row: Row, schema: seq<VariableDef>, i: nat, num: NumberSyntax, acc: Acc)
    requires i < |schema| && Scan(row, schema[..i], num) == Success(acc)
    ensures Scan(row, schema[..i + 1], num) == Step(acc, row, schema[i], num)
  {
    assert schema[..i + 1][..i] == schema[..i];
  }

  /** The per-variable loop of one row, as the scripts write it. */
  method ProcessRow(row: Row, schema: seq<VariableDef>, commonCount: nat, num: NumberSyntax)
    returns (r: Result<RowResult, Exception>)
    ensures r == TransformRow(row, schema, commonCount, num)
  {
    var payload: Payload := [];
    var parts: seq<string> := [];
    var i := 0;
    while i < |schema|
      invariant 0 <= i <= |schema|
      invariant Scan(row, schema[..i], num) == Success(Acc(payload, parts))
    {
      var def := schema[i];
      var name := Upper(def.name);
      ScanStep(row, schema, i, num, Acc(payload, parts));
      var coerced := Coerce(Lookup(row, name), def.typeName, num);
      if coerced.Failure? {
        ScanFailurePersists(row, schema, i + 1, num);
        return Failure(coerced.error);
      }
      var v := coerced.value;
      payload := Put(payload, name, v);
      if def.isCommonId && !v.Null? {
        parts := parts + [Render(v, num)];
      }
      i := i + 1;
    }
    assert schema[..i] == schema;
    r := Success(Decide(Acc(payload, parts), commonCount));
  }

  // ---------------------------------------------------------------------------------------
  // Properties of the payload

  /** The upper-cased names of a schema's variables. */
  function UpperNames(schema: seq<VariableDef>): set<string> {
    set j | 0 <= j < |schema| :: Upper(schema[j].name)
  }

  /** The loop over a non-empty schema: the last variable's coerced value is stored under its upper-cased name. */
  lemma ScanPayloadSnoc(row: Row, schema: seq<VariableDef>, num: NumberSyntax)
    requires schema != [] && Scan(row, schema, num).Success?
    ensures Scan(row, schema[..|schema| - 1], num).Success?
    ensures Coerce(Cell(row, schema[|schema| - 1]), schema[|schema| - 1].typeName, num).Success?
    ensures Scan(row, schema, num).value.payload
         == Put(Scan(row, schema[..|schema| - 1], num).value.payload, Upper(schema[|schema| - 1].name),
                Coerce(Cell(row, schema[|schema| - 1]), schema[|schema| - 1].typeName, num).value)
  {
  }

  /** The loop over a non-empty schema leaves every key other than the last variable's as the shorter loop left it. */
  lemma ScanPayloadOther(row: Row, schema: seq<VariableDef>, num: NumberSyntax, key: string)
    requires schema != [] && Scan(row, schema, num).Success?
    requires key != Upper(schema[|schema| - 1].name)
    ensures Scan(row, schema[..|schema| - 1], num).Success?
    ensures Get(Scan(row, schema, num).value.payload, key) == Get(Scan(row, schema[..|schema| - 1], num).value.payload, key)
  {
    ScanPayloadSnoc(row, schema, num);
  }

  /** The payload has exactly one key per distinct upper-cased schema name, and no other. */
  lemma {:induction false} PayloadKeys(row: Row, schema: seq<VariableDef>, num: NumberSyntax)
    requires Scan(row, schema, num).Success?
    ensures DistinctKeys(Scan(row, schema, num).value.payload)
    ensures Keys(Scan(row, schema, num).value.payload) == UpperNames(schema)
  {
    if schema != [] {
      var n := |schema|;
      ScanPayloadSnoc(row, schema, num);
      PayloadKeys(row, schema[..n - 1], num);
      assert UpperNames(schema) == UpperNames(schema[..n - 1]) + {Upper(schema[n - 1].name)} by {
        forall x | x in UpperNames(schema) ensures x in UpperNames(schema[..n - 1]) + {Upper(schema[n - 1].name)} {
          var j :| 0 <= j < n && x == Upper(schema[j].name);
          if j < n - 1 {
            assert x == Upper(schema[..n - 1][j].name);
          }
        }
        forall x | x in UpperNames(schema[..n - 1]) ensures x in UpperNames(schema) {
          var j :| 0 <= j < n - 1 && x == Upper(schema[..n - 1][j].name);
          assert x == Upper(schema[j].name);
        }
      }
    } else {
      assert UpperNames(schema) == {};
    }
  }

  /** No later variable shares `def`'s upper-cased name: this holds for the shorter schema, and the last variable differs. */
  lemma LaterNamesDiffer(schema: seq<VariableDef>, prefix: seq<VariableDef>, j: nat, def: VariableDef)
    requires j < |schema| - 1 && prefix == schema[..|schema| - 1]
    requires forall k :: j < k < |schema| ==> Upper(schema[k].name) != Upper(def.name)
    ensures forall k :: j < k < |prefix| ==> Upper(prefix[k].name) != Upper(def.name)
    ensures Upper(schema[|schema| - 1].name) != Upper(def.name)
  {
    assert forall k :: 0 <= k < |prefix| ==> prefix[k] == schema[k];
  }

  /**
   * Under a variable's upper-cased name the payload holds that variable's coerced value,
   * provided no later variable has the same upper-cased name (a later one overwrites it).
   */
  lemma {:induction false} PayloadLookup(row: Row, schema: seq<VariableDef>, num: NumberSyntax, j: nat, def: VariableDef)
    requires Scan(row, schema, num).Success? && j < |schema| && schema[j] == def
    requires forall k :: j < k < |schema| ==> Upper(schema[k].name) != Upper(def.name)
    ensures Coerce(Cell(row, def), def.typeName, num).Success?
    ensures Get(Scan(row, schema, num).value.payload, Upper(def.name))
         == Some(Coerce(Cell(row, def), def.typeName, num).value)
  {
    var n := |schema|;
    var prefix := schema[..n - 1];
    if j < n - 1 {
      LaterNamesDiffer(schema, prefix, j, def);
      ScanPayloadOther(row, schema, num, Upper(def.name));
      assert prefix[j] == def;
      PayloadLookup(row, prefix, num, j, def);
    } else {
      assert schema[n - 1] == def;
      ScanPayloadSnoc(row, schema, num);
    }
  }

  // ---------------------------------------------------------------------------------------
  // Properties of the unit identifier

  /** How many common-id variables of `schema` satisfy `has`. */
  function CommonWith(schema: seq<VariableDef>, has: VariableDef -> bool): nat {
    if schema == [] then 0
    else
      var last := schema[|schema| - 1];
      CommonWith(schema[..|schema| - 1], has) + (if last.isCommonId && has(last) then 1 else 0)
  }

  /** How many common-id variables of `schema` have a non-blank cell in `row`. */
  function PresentCommonIds(row: Row, schema: seq<VariableDef>): nat {
    CommonWith(schema, d => !IsBlank(Cell(row, d)))
  }

  /** At most every common-id variable satisfies `has`, and all of them do exactly when the count reaches their number. */
  lemma {:induction false} CommonWithAtMost(schema: seq<VariableDef>, has: VariableDef -> bool)
    ensures CommonWith(schema, has) <= |CommonDefs(schema)|
    ensures CommonWith(schema, has) == |CommonDefs(schema)|
        <==> forall i :: 0 <= i < |schema| && schema[i].isCommonId ==> has(schema[i])
  {
    if schema != [] {
      var n := |schema|;
      var init := schema[..n - 1];
      var last := schema[n - 1];
      CommonWithAtMost(init, has);
      assert |CommonDefs(schema)| == |CommonDefs(init)| + (if last.isCommonId then 1 else 0);
      assert forall i :: 0 <= i < |init| ==> init[i] == schema[i];
    }
  }

  /** The common-id variables of a schema, in schema order. */
  function CommonDefs(schema: seq<VariableDef>): (r: seq<VariableDef>)
    ensures |r| <= |schema|
  {
    if schema == [] then []
    else
      var last := schema[|schema| - 1];
      CommonDefs(schema[..|schema| - 1]) + (if last.isCommonId then [last] else [])
  }

  /** The common-id variables are variables of the schema, each flagged as a common id. */
  lemma {:induction false} CommonDefsAreCommon(schema: seq<VariableDef>)
    ensures forall d :: d in CommonDefs(schema) ==> d in schema && d.isCommonId
  {
    if schema != [] {
      var init := schema[..|schema| - 1];
      CommonDefsAreCommon(init);
      assert forall d :: d in init ==> d in schema;
    }
  }

  /** The identifier text a present variable contributes: `str()` of its coerced value. */
  function PartOf(row: Row, def: VariableDef, num: NumberSyntax): string {
    match Coerce(Cell(row, def), def.typeName, num)
    case Success(v) => Render(v, num)
    case Failure(_) => ""
  }

  function PartsOf(row: Row, defs: seq<VariableDef>, num: NumberSyntax): (r: seq<string>)
    ensures |r| == |defs|
  {
    if defs == [] then [] else PartsOf(row, defs[..|defs| - 1], num) + [PartOf(row, defs[|defs| - 1], num)]
  }

  /** Every collected part is non-empty, and there is one per common-id variable with a value. */
  lemma {:induction false} PartsCount(row: Row, schema: seq<VariableDef>, num: NumberSyntax)
    requires WellFormed(num) && Scan(row, schema, num).Success?
    ensures |Scan(row, schema, num).value.parts| == PresentCommonIds(row, schema)
    ensures forall p :: p in Scan(row, schema, num).value.parts ==> p != []
  {
    if schema != [] {
      var n := |schema|;
      PartsCount(row, schema[..n - 1], num);
      var last := schema[n - 1];
      var c := Coerce(Cell(row, last), last.typeName, num);
      assert c.Success?;
      if c.value.Int? {
        assert Render(c.value, num) == Dec(c.value.i);
      }
    }
  }

  /** One accepted variable adds its part exactly when it is a common id, given that its cell has a value. */
  lemma StepParts(acc: Acc, row: Row, def: VariableDef, num: NumberSyntax)
    requires Step(acc, row, def, num).Success?
    requires def.isCommonId ==> !IsBlank(Cell(row, def))
    ensures Step(acc, row, def, num).value.parts
         == acc.parts + (if def.isCommonId then [PartOf(row, def, num)] else [])
  {
  }

  /** Appending a variable to the schema appends its part to the common-id texts exactly when it is a common id. */
  lemma PartsOfCommonSnoc(row: Row, schema: seq<VariableDef>, num: NumberSyntax)
    requires schema != []
    ensures PartsOf(row, CommonDefs(schema), num)
         == PartsOf(row, CommonDefs(schema[..|schema| - 1]), num)
          + (if schema[|schema| - 1].isCommonId then [PartOf(row, schema[|schema| - 1], num)] else [])
  {
    var prefix := schema[..|schema| - 1];
    var cds := CommonDefs(schema);
    var last := schema[|schema| - 1];
    if last.isCommonId {
      assert cds == CommonDefs(prefix) + [last];
      assert cds[..|cds| - 1] == CommonDefs(prefix) && cds[|cds| - 1] == last;
    } else {
      assert cds == CommonDefs(prefix);
    }
  }

  /** When every common-id cell has a value, the parts are those values' texts in schema order. */
  lemma {:induction false} PartsWhenComplete(row: Row, schema: seq<VariableDef>, num: NumberSyntax)
    requires Scan(row, schema, num).Success?
    requires forall i :: 0 <= i < |schema| && schema[i].isCommonId ==> !IsBlank(Cell(row, schema[i]))
    ensures Scan(row, schema, num).value.parts == PartsOf(row, CommonDefs(schema), num)
  {
    if schema != [] {
      var n := |schema|;
      var prefix := schema[..n - 1];
      var last := schema[n - 1];
      assert Scan(row, prefix, num).Success?;
      assert forall i :: 0 <= i < |prefix| && prefix[i].isCommonId ==> !IsBlank(Cell(row, prefix[i])) by {
        assert forall i :: 0 <= i < |prefix| ==> prefix[i] == schema[i];
      }
      PartsWhenComplete(row, prefix, num);
      var acc := Scan(row, prefix, num).value;
      assert Scan(row, schema, num) == Step(acc, row, last, num);
      StepParts(acc, row, last, num);
      PartsOfCommonSnoc(row, schema, num);
    }
  }

  lemma PresentAtMostCommon(row: Row, schema: seq<VariableDef>)
    ensures PresentCommonIds(row, schema) <= |CommonDefs(schema)|
    ensures PresentCommonIds(row, schema) == |CommonDefs(schema)|
        <==> forall i :: 0 <= i < |schema| && schema[i].isCommonId ==> !IsBlank(Cell(row, schema[i]))
  {
    CommonWithAtMost(schema, d => !IsBlank(Cell(row, d)));
  }

  /**
   * The identifier invariant: a row that raises nothing is kept exactly when the number
   * of common-id variables with a value equals the length of `common_identifiers`.
   */
  lemma KeepIff(row: Row, schema: seq<VariableDef>, commonCount: nat, num: NumberSyntax)
    requires WellFormed(num) && Scan(row, schema, num).Success?
    ensures TransformRow(row, schema, commonCount, num).value.Keep?
        <==> PresentCommonIds(row, schema) == commonCount
  {
    PartsCount(row, schema, num);
  }

  /**
   * When `common_identifiers` lists each common-id variable once and every one of them
   * has a value, the row is kept and its identifier is their texts `_`-joined in schema order.
   */
  lemma KeepWhenComplete(row: Row, schema: seq<VariableDef>, commonCount: nat, num: NumberSyntax)
    requires WellFormed(num) && Scan(row, schema, num).Success?
    requires commonCount == |CommonDefs(schema)|
    requires forall i :: 0 <= i < |schema| && schema[i].isCommonId ==> !IsBlank(Cell(row, schema[i]))
    ensures TransformRow(row, schema, commonCount, num)
         == Success(Keep(Join("_", PartsOf(row, CommonDefs(schema), num)), Scan(row, schema, num).value.payload))
  {
    PartsCount(row, schema, num);
    PartsWhenComplete(row, schema, num);
    PresentAtMostCommon(row, schema);
  }

  /** A row missing any common-id value is skipped and never becomes a record. */
  lemma SkipWhenMissing(row: Row, schema: seq<VariableDef>, commonCount: nat, num: NumberSyntax, j: nat)
    requires WellFormed(num) && Scan(row, schema, num).Success?
    requires commonCount == |CommonDefs(schema)|
    requires j < |schema| && schema[j].isCommonId && IsBlank(Cell(row, schema[j]))
    ensures TransformRow(row, schema, commonCount, num).value.Skip?
  {
    PresentAtMostCommon(row, schema);
    KeepIff(row, schema, commonCount, num);
  }

  // ---------------------------------------------------------------------------------------
  // Chunks of rows

  /** Where the records of a level go: `(asi_survey_id, level_id)` and the level's schema. */
  datatype Target = Target(surveyId: int, levelId: int, schema: seq<VariableDef>, commonIdentifiers: seq<string>)

  /** A row of `survey_levels`: the level's id, its schema and its common identifiers. */
  datatype LevelInfo = LevelInfo(levelId: int, schema: seq<VariableDef>, commonIdentifiers: seq<string>)

  function TargetOf(surveyId: int, level: LevelInfo): Target {
    Target(surveyId, level.levelId, level.schema, level.commonIdentifiers)
  }

  /** The row tuple `(survey_id, level_id, unit_identifier, json.dumps(payload))`. */
  datatype Record = Record(surveyId: int, levelId: int, unitIdentifier: string, dataPayload: string)

  /** Number formats and `json.dumps`, both outside the model. */
  datatype Encoding = Encoding(num: NumberSyntax, toJson: Payload -> string)

  function RowOutcome(row: Row, t: Target, enc: Encoding): Result<RowResult, Exception> {
    TransformRow(row, t.schema, |t.commonIdentifiers|, enc.num)
  }

  /** The records a chunk yields, in row order, or the exception that escapes the chunk. */
  function ChunkRecords(rows: seq<Row>, t: Target, enc: Encoding): Result<seq<Record>, Exception>
    decreases |rows|
  {
    if rows == [] then Success([])
    else
      match ChunkRecords(rows[..|rows| - 1], t, enc)
      case Failure(e) => Failure(e)
      case Success(recs) =>
        match RowOutcome(rows[|rows| - 1], t, enc)
        case Failure(e) => Failure(e)
        case Success(Keep(id, p)) => Success(recs + [Record(t.surveyId, t.levelId, id, enc.toJson(p))])
        case Success(Skip(_, _)) => Success(recs)
  }

  /** How many rows of a chunk are skipped for an incomplete identifier. */
  function SkippedRows(rows: seq<Row>, t: Target, enc: Encoding): nat {
    if rows == [] then 0
    else
      var o := RowOutcome(rows[|rows| - 1], t, enc);
      SkippedRows(rows[..|rows| - 1], t, enc) + (if o.Success? && o.value.Skip? then 1 else 0)
  }

  /**
   * Every row of a chunk that raises nothing is either a record or a skip, so the records
   * number `|rows| - skipped`.
   */
  lemma {:induction false} ChunkAccounting(rows: seq<Row>, t: Target, enc: Encoding)
    requires ChunkRecords(rows, t, enc).Success?
    ensures |ChunkRecords(rows, t, enc).value| + SkippedRows(rows, t, enc) == |rows|
  {
    if rows != [] {
      ChunkAccounting(rows[..|rows| - 1], t, enc);
    }
  }

  /** A record of level `t` whose identifier `_`-joins as many non-empty parts as the level has common identifiers. */
  ghost predicate IdentifiedRecord(r: Record, t: Target) {
    r.surveyId == t.surveyId && r.levelId == t.levelId
    && exists parts: seq<string> :: |parts| == |t.commonIdentifiers| && (forall p :: p in parts ==> p != [])
         && r.unitIdentifier == Join("_", parts)
  }

  lemma KeptRowIdentified(row: Row, t: Target, enc: Encoding)
    requires RowOutcome(row, t, enc).Success? && RowOutcome(row, t, enc).value.Keep?
    ensures var o := RowOutcome(row, t, enc).value;
      IdentifiedRecord(Record(t.surveyId, t.levelId, o.unitIdentifier, enc.toJson(o.payload)), t)
  {
    var acc := Scan(row, t.schema, enc.num).value;
    assert RowOutcome(row, t, enc).value.unitIdentifier == Join("_", acc.parts);
  }

  /** Every record of a chunk carries the chunk's survey and level and a complete identifier. */
  lemma {:induction false} ChunkRecordsIdentified(rows: seq<Row>, t: Target, enc: Encoding)
    requires ChunkRecords(rows, t, enc).Success?
    ensures var recs := ChunkRecords(rows, t, enc).value;
      forall i :: 0 <= i < |recs| ==> IdentifiedRecord(recs[i], t)
  {
    if rows != [] {
      var n := |rows|;
      ChunkRecordsIdentified(rows[..n - 1], t, enc);
      var o := RowOutcome(rows[n - 1], t, enc);
      if o.value.Keep? {
        KeptRowIdentified(rows[n - 1], t, enc);
      }
    }
  }

  /** `process_csv_chunk_optimized` over name-keyed rows. */
  method ProcessChunk(rows: seq<Row>, t: Target, enc: Encoding) returns (r: Result<seq<Record>, Exception>)
    ensures r == ChunkRecords(rows, t, enc)
  {
    var processed: seq<Record> := [];
    var i := 0;
    while i < |rows|
      invariant 0 <= i <= |rows|
      invariant ChunkRecords(rows[..i], t, enc) == Success(processed)
    {
      assert rows[..i + 1][..i] == rows[..i];
      var outcome := ProcessRow(rows[i], t.schema, |t.commonIdentifiers|, enc.num);
      if outcome.Failure? {
        ChunkFailurePersists(rows, t, enc, i + 1);
        return Failure(outcome.error);
      }
      if outcome.value.Keep? {
        processed := processed + [Record(t.surveyId, t.levelId, outcome.value.unitIdentifier, enc.toJson(outcome.value.payload))];
      }
      i := i + 1;
    }
    assert rows[..i] == rows;
    r := Success(processed);
  }

  lemma {:induction false} ChunkFailurePersists(rows: seq<Row>, t: Target, enc: Encoding, k: nat)
    requires k <= |rows| && ChunkRecords(rows[..k], t, enc).Failure?
    ensures ChunkRecords(rows, t, enc) == ChunkRecords(rows[..k], t, enc)
    decreases |rows| - k
  {
    if k < |rows| {
      var n := |rows|;
      assert rows[..n - 1][..k] == rows[..k];
      ChunkFailurePersists(rows[..n - 1], t, enc, k);
    } else {
      assert rows[..k] == rows;
    }
  }

  // ---------------------------------------------------------------------------------------
  // Column labels: how a data frame becomes name-keyed rows

  /** A pandas column label: an integer position (a frame read with `header=None`) or a name. */
  datatype Label = Position(index: nat) | Named(name: string)

  /** A frame as pandas reads it: one label per column and one cell per column in each row. */
  datatype Frame = Frame(labels: seq<Label>, rows: seq<seq<Option<string>>>)

  predicate Rectangular(f: Frame) {
    forall i :: 0 <= i < |f.rows| ==> |f.rows[i]| == |f.labels|
  }

  /** `[col.upper() for col in df.columns]`: an integer label has no `upper` and raises. */
  function UpperLabels(labels: seq<Label>): (r: Result<seq<string>, Exception>)
    ensures r.Success? ==> |r.value| == |labels|
    ensures r.Failure? <==> exists i :: 0 <= i < |labels| && labels[i].Position?
  {
    if labels == [] then Success([])
    else if labels[0].Position? then Failure(AttributeError)
    else
      match UpperLabels(labels[1..])
      case Failure(e) => Failure(e)
      case Success(rest) => Success([Upper(labels[0].name)] + rest)
  }

  /**
   * The cells of a row by label, as `row.to_dict()` gives them: for a label that occurs twice
   * the later column wins. The fast loader reads through it only names that label one column.
   */
  function RowMap(names: seq<string>, cells: seq<Option<string>>): Row
    requires |names| == |cells|
  {
    if names == [] then map[]
    else RowMap(names[..|names| - 1], cells[..|cells| - 1])[names[|names| - 1] := cells[|cells| - 1]]
  }

  function RowMaps(names: seq<string>, rows: seq<seq<Option<string>>>): (r: seq<Row>)
    requires forall i :: 0 <= i < |rows| ==> |rows[i]| == |names|
    ensures |r| == |rows|
  {
    seq(|rows|, i requires 0 <= i < |rows| => RowMap(names, rows[i]))
  }

  /** The frames `range(n)` column labels of a frame read without a header row. */
  function Positions(n: nat): (r: seq<Label>)
    ensures |r| == n && forall i :: 0 <= i < n ==> r[i] == Position(i)
  {
    seq(n, i requires 0 <= i < n => Position(i))
  }

  /** How many columns carry the label `n`. */
  function Occurrences(names: seq<string>, n: string): nat {
    if names == [] then 0
    else Occurrences(names[..|names| - 1], n) + (if names[|names| - 1] == n then 1 else 0)
  }

  /**
   * The first schema variable whose upper-cased name labels two or more columns. For such a
   * name `row.get` returns a Series, not a cell, and `pd.isna(raw_value) or ...` raises
   * ValueError outside the `try` (ultra_fast_microdata.py:130-132).
   */
  function FirstAmbiguous(names: seq<string>, schema: seq<VariableDef>): (r: Option<nat>)
    ensures r.Some? ==> r.value < |schema| && Occurrences(names, Upper(schema[r.value].name)) >= 2
    ensures r.Some? ==> forall k :: 0 <= k < r.value ==> Occurrences(names, Upper(schema[k].name)) < 2
    ensures r.None? <==> forall k :: 0 <= k < |schema| ==> Occurrences(names, Upper(schema[k].name)) < 2
  {
    if schema == [] then None
    else if Occurrences(names, Upper(schema[0].name)) >= 2 then Some(0)
    else
      match FirstAmbiguous(names, schema[1..])
      case None => None
      case Some(j) => Some(j + 1)
  }

  /**
   * `process_csv_chunk_optimized` as written, on the chunk frame it is given: it first
   * upper-cases the column labels (ultra_fast_microdata.py:118). When a schema name labels
   * two columns, the first row raises ValueError on reaching that variable, unless an earlier
   * variable of that row has already raised.
   */
  function ProcessChunkAsWritten(f: Frame, t: Target, enc: Encoding): Result<seq<Record>, Exception>
    requires Rectangular(f)
  {
    match UpperLabels(f.labels)
    case Failure(e) => Failure(e)
    case Success(names) =>
      var rows := RowMaps(names, f.rows);
      match FirstAmbiguous(names, t.schema)
      case None => ChunkRecords(rows, t, enc)
      case Some(j) =>
        if rows == [] then Success([])
        else
          match Scan(rows[0], t.schema[..j], enc.num)
          case Failure(e) => Failure(e)
          case Success(_) => Failure(ValueError)
  }

  /**
   * The driver reads every file with `header=None` (ultra_fast_microdata.py:247-253), so its
   * chunks have integer labels and every chunk raises AttributeError before any row is read.
   */
  lemma HeaderlessChunkRaises(rows: seq<seq<Option<string>>>, width: nat, t: Target, enc: Encoding)
    requires width >= 1 && forall i :: 0 <= i < |rows| ==> |rows[i]| == width
    ensures ProcessChunkAsWritten(Frame(Positions(width), rows), t, enc) == Failure(AttributeError)
  {
    assert Positions(width)[0].Position?;
  }

  /**
   * With name labels, none of which is shared after upper-casing by a schema variable's name,
   * the same chunk is processed row by row like the name-keyed model.
   */
  lemma NamedChunkIsProcessed(names: seq<string>, rows: seq<seq<Option<string>>>, t: Target, enc: Encoding)
    requires forall i :: 0 <= i < |rows| ==> |rows[i]| == |names|
    requires FirstAmbiguous(UpperAll(names), t.schema).None?
    ensures ProcessChunkAsWritten(Frame(NamedLabels(names), rows), t, enc)
         == ChunkRecords(RowMaps(UpperAll(names), rows), t, enc)
  {
    NamedLabelsUpper(names);
  }

  /**
   * With name labels of which two coincide after upper-casing with a schema variable's name,
   * a chunk with rows yields no records: its first row raises ValueError at the first such
   * variable, or the OverflowError of an earlier variable.
   */
  lemma AmbiguousLabelRaises(names: seq<string>, rows: seq<seq<Option<string>>>, t: Target, enc: Encoding)
    requires forall i :: 0 <= i < |rows| ==> |rows[i]| == |names|
    requires rows != [] && FirstAmbiguous(UpperAll(names), t.schema).Some?
    ensures var r := ProcessChunkAsWritten(Frame(NamedLabels(names), rows), t, enc);
      r.Failure? && (r.error == ValueError || r.error == OverflowError)
    ensures var j := FirstAmbiguous(UpperAll(names), t.schema).value;
      ProcessChunkAsWritten(Frame(NamedLabels(names), rows), t, enc) == Failure(ValueError)
      <==> Scan(RowMap(UpperAll(names), rows[0]), t.schema[..j], enc.num).Success?
  {
    NamedLabelsUpper(names);
    var j := FirstAmbiguous(UpperAll(names), t.schema).value;
    ScanRaisesOverflow(RowMap(UpperAll(names), rows[0]), t.schema[..j], enc.num);
  }

  /** The only exception the per-variable loop raises is OverflowError. */
  lemma {:induction false} ScanRaisesOverflow(row: Row, schema: seq<VariableDef>, num: NumberSyntax)
    ensures Scan(row, schema, num).Failure? ==> Scan(row, schema, num).error == OverflowError
  {
    if schema != [] {
      ScanRaisesOverflow(row, schema[..|schema| - 1], num);
    }
  }

  /** Two columns `id` and `ID` and a schema variable `id`: the first row raises ValueError. */
  lemma CaseCollisionRaises(cells: seq<Option<string>>, t: Target, enc: Encoding)
    requires |cells| == 2 && t.schema != [] && t.schema[0].name == "id"
    ensures ProcessChunkAsWritten(Frame([Named("id"), Named("ID")], [cells]), t, enc) == Failure(ValueError)
  {
    var names := ["id", "ID"];
    assert NamedLabels(names) == [Named("id"), Named("ID")];
    assert Upper("id") == "ID" by { assert UpperChar('i') == 'I' && UpperChar('d') == 'D'; }
    assert Upper("ID") == "ID" by { assert UpperChar('I') == 'I' && UpperChar('D') == 'D'; }
    assert UpperAll(names) == ["ID", "ID"];
    assert Occurrences(["ID", "ID"], "ID") == 2 by {
      assert ["ID", "ID"][..1] == ["ID"];
      assert ["ID"][..0] == [];
    }
    NamedLabelsUpper(names);
    assert t.schema[..0] == [];
  }

  /** Name labels as a frame carries them. */
  function NamedLabels(names: seq<string>): (r: seq<Label>)
    ensures |r| == |names| && forall i :: 0 <= i < |names| ==> r[i] == Named(names[i])
  {
    seq(|names|, i requires 0 <= i < |names| => Named(names[i]))
  }

  function UpperAll(names: seq<string>): (r: seq<string>)
    ensures |r| == |names|
  {
    seq(|names|, i requires 0 <= i < |names| => Upper(names[i]))
  }

  lemma {:induction false} NamedLabelsUpper(names: seq<string>)
    ensures UpperLabels(NamedLabels(names)) == Success(UpperAll(names))
  {
    if names != [] {
      var ls := NamedLabels(names);
      assert ls[1..] == seq(|names| - 1, i requires 0 <= i < |names| - 1 => Named(names[1..][i]));
      NamedLabelsUpper(names[1..]);
      assert [Upper(names[0])] + UpperAll(names[1..]) == UpperAll(names);
    }
  }
}
