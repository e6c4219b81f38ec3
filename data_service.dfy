/**
 * The read path of the API gateway's data service (API_Gateway/services/dataService.js):
 * the parameterised query `findMicrodata` builds from a filter object, and the lookup of
 * one record by its unit identifier. Running a query is not modelled; a query is the SQL
 * skeleton as a list of clauses with `$n` placeholders and the parameter list bound to them.
 */
module DataService {
  import opened Wrappers
  import opened Text
  import opened JsNumber

  /**
   * A JavaScript value as `JSON.parse` produces it, plus `undefined`. An object's members
   * are listed in JavaScript's property enumeration order, each key once.
   */
  datatype JsValue =
    | Undefined
    | JNull
    | JBool(b: bool)
    | JNumber(n: real)
    | JString(s: string)
    | JArray(items: seq<JsValue>)
    | JObject(members: seq<(string, JsValue)>)

  /**
   * The pairs `for (const key in filters)` visits. Each is an own member, so
   * `filters.hasOwnProperty(key)` holds whenever that call does not throw.
   */
  function Entries(filters: JsValue): (r: seq<(string, JsValue)>)
    ensures filters.JObject? ==> r == filters.members
    ensures filters.JArray? ==> |r| == |filters.items| && forall i :: 0 <= i < |r| ==> r[i] == (NatDec(i), filters.items[i])
    ensures !filters.JObject? && !filters.JArray? && !filters.JString? ==> r == []
  {
    match filters
    case JObject(members) => members
    case JArray(items) => seq(|items|, i requires 0 <= i < |items| => (NatDec(i), items[i]))
    case JString(s) => seq(|s|, i requires 0 <= i < |s| => (NatDec(i), JString([s[i]])))
    case _ => []
  }

  /** `typeof value === "object" && value !== null`. */
  predicate IsObject(v: JsValue) {
    v.JArray? || v.JObject?
  }

  /** `Object.keys(value)[0]`: None for `undefined`, when the object or array is empty. */
  function FirstKey(v: JsValue): Option<string>
    requires IsObject(v)
  {
    match v
    case JObject(ms) => if ms == [] then None else Some(ms[0].0)
    case JArray(items) => if items == [] then None else Some("0")
  }

  /** The value a filter entry is compared with: `value[operator]` for an object or array, else the value itself. */
  function Operand(v: JsValue): JsValue {
    match v
    case JObject(ms) => if ms == [] then Undefined else ms[0].1
    case JArray(items) => if items == [] then Undefined else items[0]
    case _ => v
  }

  datatype Comparison = Gt | Lt | Ge | Le | Ne

  function SqlOperator(c: Comparison): string {
    match c
    case Gt => ">"
    case Lt => "<"
    case Ge => ">="
    case Le => "<="
    case Ne => "!="
  }

  /** The `switch (operator)`: the five comparison operators and nothing else select a comparison, which keeps its spelling. */
  function ComparisonOf(operator: Option<string>): (r: Option<Comparison>)
    ensures r.Some? <==> operator.Some? && operator.value in [">", "<", ">=", "<=", "!="]
    ensures r.Some? ==> operator == Some(SqlOperator(r.value))
  {
    match operator
    case Some(">") => Some(Gt)
    case Some("<") => Some(Lt)
    case Some(">=") => Some(Ge)
    case Some("<=") => Some(Le)
    case Some("!=") => Some(Ne)
    case _ => None
  }

  datatype Cast = CastNumeric | CastText

  /** A WHERE condition; the `nat`s are placeholder numbers, `$1` being the first parameter. */
  datatype Clause =
    | ColumnEquals(column: string, ref: nat)
    | PayloadCompare(keyRef: nat, cast: Cast, op: Comparison, valueRef: nat)
    | PayloadEquals(keyRef: nat, valueRef: nat)

  function Placeholder(n: nat): string {
    "$" + NatDec(n)
  }

  function ClauseSql(c: Clause): string {
    match c
    case ColumnEquals(column, ref) => column + " = " + Placeholder(ref)
    case PayloadCompare(k, cast, op, v) =>
      "(data_payload->>" + Placeholder(k) + ")::" + (if cast == CastNumeric then "numeric" else "text")
      + " " + SqlOperator(op) + " " + Placeholder(v)
    case PayloadEquals(k, v) => "data_payload->>" + Placeholder(k) + " = " + Placeholder(v)
  }

  function ClauseSqls(cs: seq<Clause>): seq<string> {
    if cs == [] then [] else ClauseSqls(cs[..|cs| - 1]) + [ClauseSql(cs[|cs| - 1])]
  }

  /** The placeholders a clause mentions. */
  function Refs(c: Clause): set<nat> {
    match c
    case ColumnEquals(_, ref) => {ref}
    case PayloadCompare(k, _, _, v) => {k, v}
    case PayloadEquals(k, v) => {k, v}
  }

  /** The parameter bound to the placeholder that names the payload key a clause inspects. */
  function KeyParam(c: Clause, params: seq<JsValue>): Option<JsValue> {
    if c.ColumnEquals? || !(1 <= c.keyRef <= |params|) then None else Some(params[c.keyRef - 1])
  }

  /** The parameter bound to the placeholder a clause compares with. */
  function ValueParam(c: Clause, params: seq<JsValue>): Option<JsValue> {
    var v := if c.ColumnEquals? then c.ref else c.valueRef;
    if 1 <= v <= |params| then Some(params[v - 1]) else None
  }

  // ---------------------------------------------------------------------------------------
  // The query of findMicrodata (lines 15-102)

  const BaseClauses: seq<Clause> := [ColumnEquals("survey_id", 1), ColumnEquals("level_id", 2)]

  function Num(n: int): JsValue {
    JNumber(n as real)
  }

  /** The clause and the parameter one filter entry adds at placeholder `index`, as written: the key is not used. */
  function FilterClause(value: JsValue, index: nat): (Clause, JsValue) {
    if IsObject(value) then
      var operand := Operand(value);
      match ComparisonOf(FirstKey(value))
      case Some(op) => (PayloadCompare(index, if operand.JNumber? then CastNumeric else CastText, op, index), operand)
      case None => (PayloadEquals(index, index), operand)
    else (PayloadEquals(index, index), value)
  }

  /** The clauses and parameters of the filter entries, the first at placeholder `start`. */
  function FilterPlan(entries: seq<(string, JsValue)>, start: nat): (r: (seq<Clause>, seq<JsValue>))
    ensures |r.0| == |r.1| == |entries|
  {
    if entries == [] then ([], [])
    else
      var p := FilterPlan(entries[..|entries| - 1], start);
      var c := FilterClause(entries[|entries| - 1].1, start + |entries| - 1);
      (p.0 + [c.0], p.1 + [c.1])
  }

  /**
   * A data query and its count query: the WHERE clauses, the data query's parameters, the
   * placeholders of LIMIT and OFFSET, and the count query's parameters.
   */
  datatype Query = Query(clauses: seq<Clause>, whereSql: string, params: seq<JsValue>, limitRef: nat, offsetRef: nat, countParams: seq<JsValue>)

  function WhereSql(clauses: seq<Clause>): string {
    if |clauses| > 0 then "WHERE " + Join(" AND ", ClauseSqls(clauses)) else ""
  }

  /** The query around given filter clauses and parameters: LIMIT and OFFSET are bound last, and the count query leaves them off. */
  function Assemble(surveyId: int, levelId: int, limit: int, offset: int, filterClauses: seq<Clause>, filterParams: seq<JsValue>): Query {
    var clauses := BaseClauses + filterClauses;
    var params := [Num(surveyId), Num(levelId)] + filterParams;
    var paramIndex := |params| + 1;
    var all := params + [Num(limit), Num(offset)];
    Query(clauses, WhereSql(clauses), all, paramIndex, paramIndex + 1, all[..paramIndex - 1])
  }

  function MicrodataQuery(surveyId: int, levelId: int, limit: int, offset: int, filters: JsValue): Query {
    var plan := FilterPlan(Entries(filters), 3);
    Assemble(surveyId, levelId, limit, offset, plan.0, plan.1)
  }

  lemma FilterPlanSnoc(entries: seq<(string, JsValue)>, i: nat, start: nat)
    requires i < |entries|
    ensures var p := FilterPlan(entries[..i], start);
      var c := FilterClause(entries[i].1, start + i);
      FilterPlan(entries[..i + 1], start) == (p.0 + [c.0], p.1 + [c.1])
  {
    assert entries[..i + 1][..i] == entries[..i];
  }

  /** The body of the filter loop: the `switch` on the first key of an object value, or equality for a scalar. */
  method FilterCondition(value: JsValue, paramIndex: nat) returns (clause: Clause, param: JsValue)
    ensures (clause, param) == FilterClause(value, paramIndex)
  {
    if IsObject(value) {
      var filterValue := Operand(value);
      var cast := if filterValue.JNumber? then CastNumeric else CastText;
      match ComparisonOf(FirstKey(value)) {
        case Some(op) => clause := PayloadCompare(paramIndex, cast, op, paramIndex);
        case None => clause := PayloadEquals(paramIndex, paramIndex);
      }
      param := filterValue;
    } else {
      clause := PayloadEquals(paramIndex, paramIndex);
      param := value;
    }
  }

  /**
   * An object to which `JSON.parse` gave its own member `hasOwnProperty`: that member, never a
   * function, hides `Object.prototype.hasOwnProperty`, so `filters.hasOwnProperty(key)` throws.
   */
  predicate ShadowsHasOwnProperty(filters: JsValue) {
    filters.JObject? && exists i :: 0 <= i < |filters.members| && filters.members[i].0 == "hasOwnProperty"
  }

  const HasOwnPropertyTypeError := "TypeError: filters.hasOwnProperty is not a function"

  /**
   * `findMicrodata`'s query building: the filter loop over `whereClauses`, `params` and
   * `paramIndex`. A shadowed `hasOwnProperty` throws TypeError at the loop's first pass.
   */
  method FindMicrodata(surveyId: int, levelId: int, limit: int, offset: int, filters: JsValue)
    returns (r: Result<Query, string>)
    ensures r.Failure? <==> ShadowsHasOwnProperty(filters)
    ensures r.Failure? ==> r.error == HasOwnPropertyTypeError
    ensures r.Success? ==> r.value == MicrodataQuery(surveyId, levelId, limit, offset, filters)
  {
    var whereClauses := BaseClauses;
    var params := [Num(surveyId), Num(levelId)];
    var paramIndex := 3;
    var entries := Entries(filters);
    var shadowed := ShadowsHasOwnProperty(filters);
    if shadowed {
      ShadowedHasEntries(filters);
    }
    for i := 0 to |entries|
      invariant shadowed ==> i == 0
      invariant paramIndex == 3 + i && |params| == paramIndex - 1
      invariant whereClauses == BaseClauses + FilterPlan(entries[..i], 3).0
      invariant params == [Num(surveyId), Num(levelId)] + FilterPlan(entries[..i], 3).1
    {
      if shadowed {
        return Failure(HasOwnPropertyTypeError);
      }
      FilterPlanSnoc(entries, i, 3);
      var clause, param := FilterCondition(entries[i].1, paramIndex);
      whereClauses := whereClauses + [clause];
      params := params + [param];
      paramIndex := paramIndex + 1;
    }
    assert entries[..|entries|] == entries;
    var whereClause := WhereSql(whereClauses);
    params := params + [Num(limit), Num(offset)];
    var countParams := params[..paramIndex - 1];
    r := Success(Query(whereClauses, whereClause, params, paramIndex, paramIndex + 1, countParams));
  }

  /** A filter object that shadows `hasOwnProperty` has that member, so the filter loop makes at least one pass. */
  lemma ShadowedHasEntries(filters: JsValue)
    requires ShadowsHasOwnProperty(filters)
    ensures Entries(filters) != []
  {
    var i :| 0 <= i < |filters.members| && filters.members[i].0 == "hasOwnProperty";
  }

  /** Filter entry `k` gets one clause and one parameter, both at placeholder `start + k`: the parameter is its operand. */
  lemma {:induction false} FilterPlanShape(entries: seq<(string, JsValue)>, start: nat)
    ensures var p := FilterPlan(entries, start);
      |p.0| == |p.1| == |entries|
      && forall k :: 0 <= k < |entries| ==>
        !p.0[k].ColumnEquals? && p.0[k].keyRef == p.0[k].valueRef == start + k && p.1[k] == Operand(entries[k].1)
  {
    if entries != [] {
      FilterPlanShape(entries[..|entries| - 1], start);
    }
  }

  /** A filter clause compares with a cast to numeric exactly when its operand is a number, and with the operator the filter names. */
  lemma {:induction false} FilterPlanOperators(entries: seq<(string, JsValue)>, start: nat, k: nat)
    requires k < |entries|
    ensures var c := FilterPlan(entries, start).0[k];
      var v := entries[k].1;
      (c.PayloadCompare? <==> IsObject(v) && ComparisonOf(FirstKey(v)).Some?)
      && (c.PayloadCompare? ==> FirstKey(v) == Some(SqlOperator(c.op)) && (c.cast == CastNumeric <==> Operand(v).JNumber?))
    decreases |entries|
  {
    FilterPlanShape(entries, start);
    if k < |entries| - 1 {
      FilterPlanOperators(entries[..|entries| - 1], start, k);
    }
  }

  /** Placeholders `lo` to `hi` of the filter clauses are all bound once the base parameters precede them. */
  predicate RefsWithin(cs: seq<Clause>, lo: nat, hi: nat) {
    forall c :: c in cs ==> forall r :: r in Refs(c) ==> lo <= r <= hi
  }

  /**
   * Every placeholder of the WHERE clause has a parameter in both queries; LIMIT and OFFSET
   * use the two placeholders after them, bound to the last two parameters, which the count
   * query leaves out.
   */
  lemma AssembleBindsEverything(surveyId: int, levelId: int, limit: int, offset: int, cs: seq<Clause>, ps: seq<JsValue>)
    requires RefsWithin(cs, 3, 2 + |ps|)
    ensures var q := Assemble(surveyId, levelId, limit, offset, cs, ps);
      RefsWithin(q.clauses, 1, |q.countParams|)
      && |q.params| == |q.countParams| + 2 && q.countParams == q.params[..|q.params| - 2]
      && q.limitRef == |q.params| - 1 && q.offsetRef == |q.params|
      && q.params[q.limitRef - 1] == Num(limit) && q.params[q.offsetRef - 1] == Num(offset)
  {
  }

  lemma MicrodataQueryBindsEverything(surveyId: int, levelId: int, limit: int, offset: int, filters: JsValue)
    ensures var q := MicrodataQuery(surveyId, levelId, limit, offset, filters);
      RefsWithin(q.clauses, 1, |q.countParams|) && |q.clauses| == |q.countParams| == 2 + |Entries(filters)|
      && q.countParams == q.params[..|q.params| - 2]
      && q.limitRef == |q.params| - 1 && q.offsetRef == |q.params|
  {
    var plan := FilterPlan(Entries(filters), 3);
    FilterPlanShape(Entries(filters), 3);
    forall c | c in plan.0 ensures forall r :: r in Refs(c) ==> 3 <= r <= 2 + |plan.1| {
      var k :| 0 <= k < |plan.0| && plan.0[k] == c;
    }
    AssembleBindsEverything(surveyId, levelId, limit, offset, plan.0, plan.1);
  }

  /**
   * As written, a filter clause looks up the payload under the same parameter it compares
   * with: the key placeholder is bound to the filter's operand, never to its key.
   */
  lemma FilterLooksUpItsOwnValue(surveyId: int, levelId: int, limit: int, offset: int, filters: JsValue, k: nat)
    requires k < |Entries(filters)|
    ensures var q := MicrodataQuery(surveyId, levelId, limit, offset, filters);
      2 + k < |q.clauses|
      && KeyParam(q.clauses[2 + k], q.params) == ValueParam(q.clauses[2 + k], q.params) == Some(Operand(Entries(filters)[k].1))
  {
    var plan := FilterPlan(Entries(filters), 3);
    FilterPlanShape(Entries(filters), 3);
    AssembledLookup(surveyId, levelId, limit, offset, plan.0, plan.1, k);
  }

  /** The filter `{"Gender": "Male"}` inspects the payload's `Male` member, not its `Gender` member. */
  lemma GenderFilterInspectsValue(surveyId: int, levelId: int, limit: int, offset: int)
    ensures var q := MicrodataQuery(surveyId, levelId, limit, offset, JObject([("Gender", JString("Male"))]));
      |q.clauses| == 3 && KeyParam(q.clauses[2], q.params) == Some(JString("Male")) != Some(JString("Gender"))
  {
    FilterLooksUpItsOwnValue(surveyId, levelId, limit, offset, JObject([("Gender", JString("Male"))]), 0);
  }

  // ---------------------------------------------------------------------------------------
  // The filter with its key bound

  /** The clause and the two parameters a filter entry adds when its key is bound at `index` and its operand at `index + 1`. */
  function BoundFilterClause(key: string, value: JsValue, index: nat): (Clause, seq<JsValue>) {
    var c := FilterClause(value, index + 1);
    var clause := match c.0
      case PayloadCompare(_, cast, op, v) => PayloadCompare(index, cast, op, v)
      case _ => PayloadEquals(index, index + 1);
    (clause, [JString(key), c.1])
  }

  function BoundFilterPlan(entries: seq<(string, JsValue)>, start: nat): (r: (seq<Clause>, seq<JsValue>))
    ensures |r.0| == |entries| && |r.1| == 2 * |entries|
  {
    if entries == [] then ([], [])
    else
      var p := BoundFilterPlan(entries[..|entries| - 1], start);
      var c := BoundFilterClause(entries[|entries| - 1].0, entries[|entries| - 1].1, start + 2 * (|entries| - 1));
      (p.0 + [c.0], p.1 + c.1)
  }

  function BoundMicrodataQuery(surveyId: int, levelId: int, limit: int, offset: int, filters: JsValue): Query {
    var plan := BoundFilterPlan(Entries(filters), 3);
    Assemble(surveyId, levelId, limit, offset, plan.0, plan.1)
  }

  /** Entry `k` binds its key at `start + 2k` and its operand at `start + 2k + 1`, and its clause uses those two placeholders. */
  lemma {:induction false} BoundFilterPlanAt(entries: seq<(string, JsValue)>, start: nat, k: nat)
    requires k < |entries|
    ensures var p := BoundFilterPlan(entries, start);
      !p.0[k].ColumnEquals? && p.0[k].keyRef == start + 2 * k && p.0[k].valueRef == start + 2 * k + 1
      && p.1[2 * k] == JString(entries[k].0) && p.1[2 * k + 1] == Operand(entries[k].1)
  {
    var init := entries[..|entries| - 1];
    if k < |entries| - 1 {
      BoundFilterPlanAt(init, start, k);
      var p := BoundFilterPlan(init, start);
      assert BoundFilterPlan(entries, start).0[k] == p.0[k];
      assert BoundFilterPlan(entries, start).1[2 * k] == p.1[2 * k];
      assert BoundFilterPlan(entries, start).1[2 * k + 1] == p.1[2 * k + 1];
    }
  }

  /** Where the parts of an assembled query sit. */
  lemma AssembleAt(surveyId: int, levelId: int, limit: int, offset: int, cs: seq<Clause>, ps: seq<JsValue>)
    ensures var q := Assemble(surveyId, levelId, limit, offset, cs, ps);
      |q.clauses| == 2 + |cs| && |q.params| == 4 + |ps|
      && (forall j :: 0 <= j < |cs| ==> q.clauses[2 + j] == cs[j])
      && (forall j :: 0 <= j < |ps| ==> q.params[2 + j] == ps[j])
  {
    var q := Assemble(surveyId, levelId, limit, offset, cs, ps);
    var ids := [Num(surveyId), Num(levelId)];
    assert q.clauses == BaseClauses + cs && |BaseClauses| == 2;
    assert q.params == (ids + ps) + [Num(limit), Num(offset)];
    forall j | 0 <= j < |ps| ensures q.params[2 + j] == ps[j] {
      assert (ids + ps)[2 + j] == ps[j];
    }
  }

  /** A clause whose placeholders fall after the two id parameters finds its key and operand among the filter parameters. */
  lemma ParamsAt(c: Clause, ids: seq<JsValue>, ps: seq<JsValue>, tail: seq<JsValue>)
    requires |ids| == 2 && !c.ColumnEquals?
    requires 3 <= c.keyRef <= 2 + |ps| && 3 <= c.valueRef <= 2 + |ps|
    ensures KeyParam(c, ids + ps + tail) == Some(ps[c.keyRef - 3])
    ensures ValueParam(c, ids + ps + tail) == Some(ps[c.valueRef - 3])
  {
    assert (ids + ps + tail)[c.keyRef - 1] == ps[c.keyRef - 3];
    assert (ids + ps + tail)[c.valueRef - 1] == ps[c.valueRef - 3];
  }

  /** Filter clause `j` of an assembled query reads the parameters its placeholders name, counted past the two ids. */
  lemma AssembledLookup(surveyId: int, levelId: int, limit: int, offset: int, cs: seq<Clause>, ps: seq<JsValue>, j: nat)
    requires j < |cs| && !cs[j].ColumnEquals?
    requires 3 <= cs[j].keyRef <= 2 + |ps| && 3 <= cs[j].valueRef <= 2 + |ps|
    ensures var q := Assemble(surveyId, levelId, limit, offset, cs, ps);
      2 + j < |q.clauses| && q.clauses[2 + j] == cs[j]
      && KeyParam(q.clauses[2 + j], q.params) == Some(ps[cs[j].keyRef - 3])
      && ValueParam(q.clauses[2 + j], q.params) == Some(ps[cs[j].valueRef - 3])
  {
    AssembleAt(surveyId, levelId, limit, offset, cs, ps);
    ParamsAt(cs[j], [Num(surveyId), Num(levelId)], ps, [Num(limit), Num(offset)]);
  }

  /**
   * With the key bound, filter entry `k` inspects the payload member the entry names and
   * compares it with the entry's operand.
   */
  lemma BoundFilterLooksUpKey(surveyId: int, levelId: int, limit: int, offset: int, filters: JsValue, k: nat)
    requires k < |Entries(filters)|
    ensures var q := BoundMicrodataQuery(surveyId, levelId, limit, offset, filters);
      2 + k < |q.clauses|
      && KeyParam(q.clauses[2 + k], q.params) == Some(JString(Entries(filters)[k].0))
      && ValueParam(q.clauses[2 + k], q.params) == Some(Operand(Entries(filters)[k].1))
  {
    var entries := Entries(filters);
    var plan := BoundFilterPlan(entries, 3);
    BoundFilterPlanAt(entries, 3, k);
    var c := plan.0[k];
    assert c.keyRef - 3 == 2 * k && c.valueRef - 3 == 2 * k + 1;
    AssembledLookup(surveyId, levelId, limit, offset, plan.0, plan.1, k);
  }

  /** Binding the keys keeps every placeholder of the WHERE clause bound in both queries. */
  lemma BoundMicrodataQueryBindsEverything(surveyId: int, levelId: int, limit: int, offset: int, filters: JsValue)
    ensures var q := BoundMicrodataQuery(surveyId, levelId, limit, offset, filters);
      RefsWithin(q.clauses, 1, |q.countParams|) && |q.countParams| == 2 + 2 * |Entries(filters)|
      && q.countParams == q.params[..|q.params| - 2]
  {
    var entries := Entries(filters);
    var plan := BoundFilterPlan(entries, 3);
    forall c | c in plan.0 ensures forall r :: r in Refs(c) ==> 3 <= r <= 2 + |plan.1| {
      var j :| 0 <= j < |plan.0| && plan.0[j] == c;
      BoundFilterPlanAt(entries, 3, j);
    }
    AssembleBindsEverything(surveyId, levelId, limit, offset, plan.0, plan.1);
  }

  // ---------------------------------------------------------------------------------------
  // The page result and the lookup by unit identifier (lines 109-132)

  /** `parseInt(countResult.rows[0].total_count)`: the count column's text read as an integer, NaN as None. */
  function TotalCount(countText: string): Option<int> {
    JsParseInt(countText)
  }

  /** The count PostgreSQL prints reaches the caller unchanged. */
  lemma TotalCountReadsCount(n: nat)
    ensures TotalCount(NatDec(n)) == Some(n)
  {
    JsNumber.DecRoundTrip(n, "");
    assert NatDec(n) + "" == NatDec(n);
  }

  /** A stored `survey_data` row. */
  datatype StoredRow = StoredRow(dataId: int, surveyId: int, levelId: int, unitIdentifier: string, payload: JsValue)

  predicate Matches(r: StoredRow, surveyId: int, levelId: int, unitIdentifier: string) {
    r.surveyId == surveyId && r.levelId == levelId && r.unitIdentifier == unitIdentifier
  }

  /** The rows the lookup query selects, in table order. */
  function Selected(table: seq<StoredRow>, surveyId: int, levelId: int, unitIdentifier: string): (r: seq<StoredRow>)
    ensures forall x :: x in r <==> x in table && Matches(x, surveyId, levelId, unitIdentifier)
  {
    if table == [] then []
    else
      var rest := Selected(table[..|table| - 1], surveyId, levelId, unitIdentifier);
      var last := table[|table| - 1];
      assert table == table[..|table| - 1] + [last];
      if Matches(last, surveyId, levelId, unitIdentifier) then rest + [last] else rest
  }

  /** `rows[0] || null`. */
  function FirstRow(rows: seq<StoredRow>): Option<StoredRow> {
    if rows == [] then None else Some(rows[0])
  }

  /**
   * `findMicrodataByUnitIdentifier`: a row of the table with the survey, level and unit
   * identifier asked for, or null exactly when the table has none.
   */
  function FindByUnitIdentifier(table: seq<StoredRow>, surveyId: int, levelId: int, unitIdentifier: string): (r: Option<StoredRow>)
    ensures r.Some? ==> r.value in table && Matches(r.value, surveyId, levelId, unitIdentifier)
    ensures r.None? <==> forall x :: x in table ==> !Matches(x, surveyId, levelId, unitIdentifier)
  {
    var rows := Selected(table, surveyId, levelId, unitIdentifier);
    assert rows != [] ==> rows[0] in rows;
    FirstRow(rows)
  }
}
