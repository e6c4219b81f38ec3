/**
 * The metadata preparer of Data_Injection/01_prepare_metadata_from_csv.py: a CSV export of
 * the survey layout is read line by line, split into sections at the `LEVEL ... File Name:`
 * lines, and each section's data lines are split on commas (honouring double quotes) into
 * the fields from which a level's variable schema is built.
 */
module Metadata {
  import opened Wrappers
  import opened Text
  import opened Values

  // ---------------------------------------------------------------------------------------
  // The quote-aware comma splitter (lines 92-105)

  /** The splitter's state: the fields closed so far (unstripped), the open field, the quote flag. */
  datatype SplitState = SplitState(fields: seq<string>, current: string, inQuotes: bool)

  function SplitStep(st: SplitState, c: char): SplitState {
    if c == '"' then st.(inQuotes := !st.inQuotes)
    else if c == ',' && !st.inQuotes then SplitState(st.fields + [st.current], "", false)
    else st.(current := st.current + [c])
  }

  /** The splitter's state after the characters of `s`. */
  function SplitScan(s: string): SplitState {
    if s == [] then SplitState([], "", false) else SplitStep(SplitScan(s[..|s| - 1]), s[|s| - 1])
  }

  /** The fields before stripping, the open one included. */
  function RawFields(s: string): seq<string> {
    SplitScan(s).fields + [SplitScan(s).current]
  }

  /** `f` applied to every string of `xs`. */
  function MapAll(xs: seq<string>, f: string -> string): (r: seq<string>)
    ensures |r| == |xs|
  {
    if xs == [] then [] else MapAll(xs[..|xs| - 1], f) + [f(xs[|xs| - 1])]
  }

  lemma {:induction false} MapAllAt(xs: seq<string>, f: string -> string, i: nat)
    requires i < |xs|
    ensures MapAll(xs, f)[i] == f(xs[i])
  {
    var init := xs[..|xs| - 1];
    if i < |init| {
      MapAllAt(init, f, i);
      assert init[i] == xs[i];
    }
  }

  /** The fields of a line as `process_section` has them: every raw field stripped. */
  function Fields(s: string): seq<string> {
    MapAll(RawFields(s), Trim)
  }

  lemma ScanSnoc(line: string, i: nat)
    requires i < |line|
    ensures SplitScan(line[..i + 1]) == SplitStep(SplitScan(line[..i]), line[i])
  {
    assert line[..i + 1][..i] == line[..i];
  }

  /** The character loop of lines 92-105. */
  method SplitFields(line: string) returns (fields: seq<string>)
    ensures fields == Fields(line)
  {
    fields := [];
    var currentField := "";
    var inQuotes := false;
    ghost var raw: seq<string> := [];
    for i := 0 to |line|
      invariant SplitScan(line[..i]) == SplitState(raw, currentField, inQuotes)
      invariant fields == MapAll(raw, Trim)
    {
      ScanSnoc(line, i);
      var c := line[i];
      if c == '"' {
        inQuotes := !inQuotes;
      } else if c == ',' && !inQuotes {
        fields := fields + [Trim(currentField)];
        raw := raw + [currentField];
        currentField := "";
      } else {
        currentField := currentField + [c];
      }
    }
    assert line[..|line|] == line;
    fields := fields + [Trim(currentField)];
  }

  /** The number of double quotes in `s`. */
  function Quotes(s: string): nat {
    if s == [] then 0 else Quotes(s[..|s| - 1]) + (if s[|s| - 1] == '"' then 1 else 0)
  }

  /** The commas of `s` that follow an even number of quotes, that is, that stand outside quotes. */
  function UnquotedCommas(s: string): nat {
    if s == [] then 0
    else UnquotedCommas(s[..|s| - 1]) + (if s[|s| - 1] == ',' && Quotes(s[..|s| - 1]) % 2 == 0 then 1 else 0)
  }

  /** `s` with its double quotes removed. */
  function Unquoted(s: string): string {
    if s == [] then [] else Unquoted(s[..|s| - 1]) + (if s[|s| - 1] == '"' then [] else [s[|s| - 1]])
  }

  lemma {:induction false} ScanCounts(s: string)
    ensures SplitScan(s).inQuotes <==> Quotes(s) % 2 == 1
    ensures |SplitScan(s).fields| == UnquotedCommas(s)
  {
    if s != [] {
      ScanCounts(s[..|s| - 1]);
    }
  }

  /** A line has one field more than it has commas outside quotes. */
  lemma FieldCount(s: string)
    ensures |Fields(s)| == UnquotedCommas(s) + 1
  {
    ScanCounts(s);
  }

  /** Joining the raw fields with commas gives back the line without its quotes: nothing else is lost. */
  lemma {:induction false} FieldsJoinBack(s: string)
    ensures Join(",", RawFields(s)) == Unquoted(s)
  {
    if s != [] {
      var p := s[..|s| - 1];
      var c := s[|s| - 1];
      var st := SplitScan(p);
      FieldsJoinBack(p);
      if c == '"' {
      } else if c == ',' && !st.inQuotes {
        JoinSnoc(",", st.fields + [st.current], "");
        assert RawFields(s) == (st.fields + [st.current]) + [""];
      } else if st.fields == [] {
        assert RawFields(s) == [st.current + [c]];
        assert RawFields(p) == [st.current];
      } else {
        JoinSnoc(",", st.fields, st.current);
        JoinSnoc(",", st.fields, st.current + [c]);
      }
    }
  }

  lemma {:induction false} UnquotedWithoutQuotes(s: string)
    requires '"' !in s
    ensures Unquoted(s) == s
  {
    if s != [] {
      assert '"' !in s[..|s| - 1];
      UnquotedWithoutQuotes(s[..|s| - 1]);
    }
  }

  lemma {:induction false} NoQuotesNoCommaInFields(s: string)
    requires '"' !in s
    ensures !SplitScan(s).inQuotes && ',' !in SplitScan(s).current
    ensures forall i :: 0 <= i < |SplitScan(s).fields| ==> ',' !in SplitScan(s).fields[i]
  {
    if s != [] {
      assert '"' !in s[..|s| - 1];
      NoQuotesNoCommaInFields(s[..|s| - 1]);
    }
  }

  /** On a line without quotes the splitter is plain `line.split(',')`. */
  lemma NoQuotesIsPlainSplit(s: string)
    requires '"' !in s
    ensures RawFields(s) == Split(s, ',')
  {
    NoQuotesNoCommaInFields(s);
    FieldsJoinBack(s);
    UnquotedWithoutQuotes(s);
    var raw := RawFields(s);
    assert forall i :: 0 <= i < |raw| ==> ',' !in raw[i];
    SplitJoin(raw, ',');
  }

  // ---------------------------------------------------------------------------------------
  // The regular expressions of process_section, as `re.search` evaluates them

  /** The length of the longest run of characters satisfying `f` starting at `p`. */
  function Span(s: string, p: nat, f: char -> bool): (n: nat)
    requires p <= |s|
    ensures p + n <= |s| && (forall i :: p <= i < p + n ==> f(s[i])) && (p + n == |s| || !f(s[p + n]))
    decreases |s| - p
  {
    if p < |s| && f(s[p]) then 1 + Span(s, p + 1, f) else 0
  }

  /** `\s*` followed by the literal `c`: the position after `c`, if it is there. */
  function SpaceThen(s: string, p: nat, c: char): (r: Option<nat>)
    requires p <= |s|
    ensures r.Some? ==> p < r.value <= |s| && s[r.value - 1] == c
  {
    var k := p + Span(s, p, IsSpace);
    if k < |s| && s[k] == c then Some(k + 1) else None
  }

  predicate IsWordChar(c: char) {
    'a' <= c <= 'z' || 'A' <= c <= 'Z' || IsDigit(c) || c == '_'
  }

  predicate IsNameChar(c: char) {
    c != ',' && !IsSpace(c)
  }

  /** The first position from `p` on where `at` matches, scanning left to right as `re.search` does. */
  function SearchFrom<T>(s: string, p: nat, at: nat -> Option<T>): (r: Option<nat>)
    requires p <= |s|
    ensures r.Some? ==> p <= r.value <= |s| && at(r.value).Some?
    ensures forall q :: p <= q <= |s| && (r.None? || q < r.value) ==> at(q).None?
    decreases |s| - p
  {
    if at(p).Some? then Some(p) else if p == |s| then None else SearchFrom(s, p + 1, at)
  }

  /** A position where the pattern matches, with no match before it, is the one the search finds. */
  lemma SearchFindsLeftmost<T>(s: string, at: nat -> Option<T>, p: nat)
    requires p <= |s| && at(p).Some?
    requires forall q :: 0 <= q < p ==> at(q).None?
    ensures SearchFrom(s, 0, at) == Some(p)
  {
    var found := SearchFrom(s, 0, at);
    assert found.Some? && found.value <= p;
  }

  /** The groups of the leftmost match, if any. */
  function FirstMatch<T>(s: string, at: nat -> Option<T>): Option<T> {
    match SearchFrom(s, 0, at)
    case None => None
    case Some(q) => at(q)
  }

  /** `\d*` at `p`: the run of digits there, possibly empty. */
  function DigitsAt(s: string, p: nat): (d: string)
    requires p <= |s|
    ensures p + |d| <= |s| && d == s[p..p + |d|] && AllDigits(d)
    ensures p + |d| == |s| || !IsDigit(s[p + |d|])
  {
    var n := Span(s, p, IsDigit);
    var d := s[p..p + n];
    assert forall i :: 0 <= i < n ==> d[i] == s[p + i];
    d
  }

  /** `\s*,\s*-\s*,\s*` at `p`: the position after it, if it is there. */
  function DashSeparatorAt(s: string, p: nat): (r: Option<nat>)
    requires p <= |s|
    ensures r.Some? ==> p < r.value <= |s|
  {
    match SpaceThen(s, p, ',')
    case None => None
    case Some(q1) =>
      match SpaceThen(s, q1, '-')
      case None => None
      case Some(q2) =>
        match SpaceThen(s, q2, ',')
        case None => None
        case Some(q3) => Some(q3 + Span(s, q3, IsSpace))
  }

  /** `\d+\.?\d*` at `p`: the number there, or the empty string when no digit is there. */
  function DecimalAt(s: string, p: nat): (d: string)
    requires p <= |s|
    ensures p + |d| <= |s| && d == s[p..p + |d|]
    ensures d != [] <==> p < |s| && IsDigit(s[p])
  {
    var e := p + Span(s, p, IsDigit);
    if e == p then []
    else
      var last := if e < |s| && s[e] == '.' then e + 1 + Span(s, e + 1, IsDigit) else e;
      s[p..last]
  }

  /** `(\d+)\s*,\s*-\s*,\s*(\d+\.?\d*)` matched at `p`: its two groups. */
  function BytePosAt(s: string, p: nat): (r: Option<(string, string)>)
    ensures r.Some? ==> r.value.0 != [] && AllDigits(r.value.0) && r.value.1 != [] && IsDigit(r.value.1[0])
  {
    if p > |s| then None
    else
      var d1 := DigitsAt(s, p);
      if d1 == [] then None
      else
        match DashSeparatorAt(s, p + |d1|)
        case None => None
        case Some(q) =>
          var d2 := DecimalAt(s, q);
          if d2 == [] then None else Some((d1, d2))
  }

  /** `LEVEL\s*-\s*(\d+)` matched at `p`. */
  function LevelAt(s: string, p: nat): (r: Option<string>)
    ensures r.Some? ==> r.value != [] && AllDigits(r.value)
  {
    if p + 5 > |s| || s[p..p + 5] != "LEVEL" then None
    else
      match SpaceThen(s, p + 5, '-')
      case None => None
      case Some(q) =>
        var k := q + Span(s, q, IsSpace);
        var d := Span(s, k, IsDigit);
        if d == 0 then None else Some(s[k..k + d])
  }

  /** `Ques\.\s*(\w+)` matched at `p`. */
  function QuesAt(s: string, p: nat): (r: Option<string>)
    ensures r.Some? ==> r.value != []
  {
    if p + 5 > |s| || s[p..p + 5] != "Ques." then None
    else
      var k := p + 5 + Span(s, p + 5, IsSpace);
      var w := Span(s, k, IsWordChar);
      if w == 0 then None else Some(s[k..k + w])
  }

  /** `File Name:\s*([^,\s]+)` matched at `p`. */
  function FileNameAt(s: string, p: nat): (r: Option<string>)
    ensures r.Some? ==> r.value != [] && ',' !in r.value
  {
    if p + 10 > |s| || s[p..p + 10] != "File Name:" then None
    else
      var k := p + 10 + Span(s, p + 10, IsSpace);
      var w := Span(s, k, IsNameChar);
      if w == 0 then None else Some(s[k..k + w])
  }

  /** Python's `str.zfill(2)` on a string without a sign. */
  function ZeroPad2(s: string): (r: string)
    ensures |r| >= 2 && |r| >= |s| && r[|r| - |s|..] == s
    ensures forall i :: 0 <= i < |r| - |s| ==> r[i] == '0'
  {
    if |s| >= 2 then s else if |s| == 1 then "0" + s else "00"
  }

  // ---------------------------------------------------------------------------------------
  // infer_data_type (lines 184-202)

  const IdKeywords: seq<string> := ["code", "no.", "serial", "id"]

  predicate HasIdKeyword(lowerName: string) {
    exists k :: k in IdKeywords && Contains(lowerName, k)
  }

  predicate HasNumericKeyword(lowerName: string, lowerRemarks: string) {
    Contains(lowerName, "multiplier") || Contains(lowerName, "value") || Contains(lowerName, "amount")
    || Contains(lowerRemarks, "rs.")
  }

  /**
   * The declared type of a variable. The first rule that applies wins: an identifier-like
   * name makes it INTEGER whatever its length; then a numeric-looking name or remarks make
   * it NUMERIC; only then does the length decide.
   */
  function InferDataType(name: string, length: int, remarks: string): (r: string)
    ensures r == "INTEGER" || r == "NUMERIC" || r == "TEXT"
    ensures HasIdKeyword(Lower(name)) ==> r == "INTEGER"
    ensures r == "NUMERIC" <==> !HasIdKeyword(Lower(name)) && HasNumericKeyword(Lower(name), Lower(remarks))
    ensures r == "TEXT" <==> !HasIdKeyword(Lower(name)) && !HasNumericKeyword(Lower(name), Lower(remarks)) && length > 4
  {
    var lowerName := Lower(name);
    var lowerRemarks := Lower(remarks);
    if exists k :: k in IdKeywords && Contains(lowerName, k) then "INTEGER"
    else if Contains(lowerName, "multiplier") then "NUMERIC"
    else if Contains(lowerName, "value") || Contains(lowerName, "amount") || Contains(lowerRemarks, "rs.") then "NUMERIC"
    else if length <= 4 then "INTEGER"
    else "TEXT"
  }

  // ---------------------------------------------------------------------------------------
  // One variable from one data line (lines 87-169)

  /** The byte-position pattern, tried at each position of a field. */
  function BytePosPattern(field: string): nat -> Option<(string, string)> {
    (p: nat) => BytePosAt(field, p)
  }

  /**
   * The start and end of a byte-position field: both None when the pattern does not match;
   * None overall when `int(float(end))` raises, which skips the line.
   */
  function BytePositions(field: string, num: NumberSyntax): (r: Option<(Option<int>, Option<int>)>)
    ensures r.Some? ==> (r.value.0.Some? <==> r.value.1.Some?)
    ensures r.Some? && r.value.0.Some? ==> r.value.0.value >= 0
  {
    match FirstMatch(field, BytePosPattern(field))
    case None => Some((None, None))
    case Some(groups) =>
      match num.toIntViaFloat(groups.1)
      case Parsed(e) => Some((Some(DigitsValue(groups.0)), Some(e)))
      case _ => None
  }

  /** Both positions are None exactly when the pattern matches nowhere in the field. */
  lemma BytePositionsNoMatch(field: string, num: NumberSyntax)
    ensures BytePositions(field, num) == Some((None, None))
        <==> forall p :: 0 <= p <= |field| ==> BytePosAt(field, p).None?
  {
    var at := BytePosPattern(field);
    var found := SearchFrom(field, 0, at);
    if found.Some? {
      assert at(found.value) == BytePosAt(field, found.value);
    } else {
      forall p | 0 <= p <= |field| ensures BytePosAt(field, p).None? {
        assert at(p) == BytePosAt(field, p);
      }
    }
  }

  /**
   * The byte positions come from the leftmost match of the pattern: the start is the first
   * group read as a decimal number and the end is `int(float(...))` of the second; when that
   * conversion raises, the line is skipped.
   */
  lemma BytePositionsAtMatch(field: string, num: NumberSyntax, p: nat)
    requires p <= |field| && BytePosAt(field, p).Some?
    requires forall q :: 0 <= q < p ==> BytePosAt(field, q).None?
    ensures var g := BytePosAt(field, p).value;
      BytePositions(field, num)
        == (if num.toIntViaFloat(g.1).Parsed?
            then Some((Some(DigitsValue(g.0)), Some(num.toIntViaFloat(g.1).value)))
            else None)
  {
    var at := BytePosPattern(field);
    forall q | 0 <= q < p ensures at(q).None? {
      assert at(q) == BytePosAt(field, q);
    }
    assert at(p) == BytePosAt(field, p);
    SearchFindsLeftmost(field, at, p);
  }

  /**
   * The variable a line's fields describe, or None when the line is skipped: fewer than six
   * fields, no header row yet (`headers.lower()` raises and the handler skips the line), an
   * empty name, length or byte position, a length `int(float(...))` rejects, or an end
   * position it rejects.
   */
  function VariableFromFields(fields: seq<string>, headers: Option<string>, num: NumberSyntax): (r: Option<VariableDef>)
    ensures r.Some? ==> |fields| >= 7 && headers.Some?
    ensures r.Some? ==> r.value.name == fields[1] != [] && r.value.description == (if |fields| > 9 then fields[9] else "")
    ensures r.Some? ==> num.toIntViaFloat(fields[5]) == Parsed(r.value.length)
    ensures r.Some? ==> r.value.typeName in {"INTEGER", "NUMERIC", "TEXT"}
    ensures r.Some? ==> (r.value.isCommonId <==> Contains(r.value.description, "**Common-ID**") || Contains(r.value.name, "Common-ID"))
    ensures r.Some? ==> fields[5] != [] && fields[6] != []
    ensures r.Some? ==> BytePositions(fields[6], num) == Some((r.value.startPosition, r.value.endPosition))
    ensures r.Some? ==> r.value.typeName == InferDataType(r.value.name, r.value.length, r.value.description)
    // the converse: a line that passes every skip rule yields a variable
    ensures (|fields| >= 7 && headers.Some? && fields[1] != [] && fields[5] != [] && fields[6] != []
             && num.toIntViaFloat(fields[5]).Parsed? && BytePositions(fields[6], num).Some?) ==> r.Some?
  {
    if |fields| < 6 || headers.None? then None
    else
      var name := fields[1];
      var lengthStr := fields[5];
      var bytePos := if |fields| > 6 then fields[6] else "";
      var remarks := if |fields| > 9 then fields[9] else "";
      if name == [] || lengthStr == [] || bytePos == [] then None
      else
        match num.toIntViaFloat(lengthStr)
        case Parsed(length) =>
          (match BytePositions(bytePos, num)
           case None => None
           case Some(pos) =>
             var isCommonId := Contains(remarks, "**Common-ID**") || Contains(name, "Common-ID");
             Some(VariableDef(name, remarks, length, pos.0, pos.1, InferDataType(name, length, remarks), isCommonId)))
        case _ => None
  }

  function VariableOf(line: string, headers: Option<string>, num: NumberSyntax): Option<VariableDef> {
    if Trim(line) == [] then None else VariableFromFields(Fields(line), headers, num)
  }

  // ---------------------------------------------------------------------------------------
  // One section (process_section, lines 63-182)

  /** What `process_section` returns; the common identifiers are a set, as `list(set(...))` leaves their order unspecified. */
  datatype LevelMetadata = LevelMetadata(
    levelName: string,
    levelNumber: string,
    questionnaireType: string,
    fileName: string,
    variableSchema: seq<VariableDef>,
    commonIdentifiers: set<string>)

  /** The variables of a section's data lines, in line order. */
  function SchemaOf(lines: seq<string>, headers: Option<string>, num: NumberSyntax): seq<VariableDef> {
    if lines == [] then []
    else
      var init := SchemaOf(lines[..|lines| - 1], headers, num);
      match VariableOf(lines[|lines| - 1], headers, num)
      case None => init
      case Some(v) => init + [v]
  }

  /** The names of the common-id variables in schema order, repeats kept, as the loop appends them. */
  function CommonIdList(schema: seq<VariableDef>): seq<string> {
    if schema == [] then []
    else CommonIdList(schema[..|schema| - 1]) + (if schema[|schema| - 1].isCommonId then [schema[|schema| - 1].name] else [])
  }

  lemma CommonIdSnoc(schema: seq<VariableDef>, v: VariableDef)
    ensures CommonIdList(schema + [v]) == CommonIdList(schema) + (if v.isCommonId then [v.name] else [])
  {
    assert (schema + [v])[..|schema|] == schema;
  }

  /** `list(set(common_identifiers))`, whose order is unspecified. */
  function CommonNames(schema: seq<VariableDef>): set<string> {
    set x | x in CommonIdList(schema)
  }

  function LevelNumberOf(h: string): string {
    match FirstMatch(h, p => LevelAt(h, p)) case None => "UNKNOWN" case Some(n) => n
  }

  function QuestionnaireOf(h: string): string {
    match FirstMatch(h, p => QuesAt(h, p)) case None => "UNKNOWN" case Some(q) => q
  }

  function FileNameOf(h: string): string {
    match FirstMatch(h, p => FileNameAt(h, p))
    case None => "asi23_lvl_" + ZeroPad2(LevelNumberOf(h)) + ".txt"
    case Some(f) => f
  }

  function SectionSpec(h: string, lines: seq<string>, headers: Option<string>, num: NumberSyntax): LevelMetadata {
    var levelNum := LevelNumberOf(h);
    var ques := QuestionnaireOf(h);
    var schema := SchemaOf(lines, headers, num);
    LevelMetadata("LEVEL_" + levelNum + "_" + ques, levelNum, ques, FileNameOf(h), schema, CommonNames(schema))
  }

  lemma SchemaSnoc(lines: seq<string>, i: nat, headers: Option<string>, num: NumberSyntax)
    requires i < |lines|
    ensures SchemaOf(lines[..i + 1], headers, num) ==
      match VariableOf(lines[i], headers, num)
      case None => SchemaOf(lines[..i], headers, num)
      case Some(v) => SchemaOf(lines[..i], headers, num) + [v]
  {
    assert lines[..i + 1][..i] == lines[..i];
  }

  /** `process_section`: the naming from the section line, then the loop over its data lines. */
  method ProcessSection(h: string, lines: seq<string>, headers: Option<string>, num: NumberSyntax) returns (m: LevelMetadata)
    ensures m == SectionSpec(h, lines, headers, num)
  {
    var levelNum := LevelNumberOf(h);
    var ques := QuestionnaireOf(h);
    var fileName := FileNameOf(h);
    var schema: seq<VariableDef> := [];
    var commonIds: seq<string> := [];
    for i := 0 to |lines|
      invariant schema == SchemaOf(lines[..i], headers, num)
      invariant commonIds == CommonIdList(schema)
    {
      SchemaSnoc(lines, i, headers, num);
      var line := lines[i];
      if Trim(line) == [] {
        continue;
      }
      var fields := SplitFields(line);
      var v := VariableFromFields(fields, headers, num);
      if v.None? {
        continue;
      }
      CommonIdSnoc(schema, v.value);
      schema := schema + [v.value];
      if v.value.isCommonId {
        commonIds := commonIds + [v.value.name];
      }
    }
    assert lines[..|lines|] == lines;
    m := LevelMetadata("LEVEL_" + levelNum + "_" + ques, levelNum, ques, fileName, schema, set x | x in commonIds);
  }

  /** A section read before any header row has no variables: every line's `headers.lower()` raises. */
  lemma {:induction false} NoHeaderRowNoVariables(lines: seq<string>, num: NumberSyntax)
    ensures SchemaOf(lines, None, num) == []
  {
    if lines != [] {
      NoHeaderRowNoVariables(lines[..|lines| - 1], num);
    }
  }

  /** Every variable of a section comes from one of its lines and is well formed. */
  lemma {:induction false} SchemaShape(lines: seq<string>, headers: Option<string>, num: NumberSyntax)
    ensures |SchemaOf(lines, headers, num)| <= |lines|
    ensures forall d :: d in SchemaOf(lines, headers, num) ==>
      d.name != [] && d.typeName in {"INTEGER", "NUMERIC", "TEXT"}
      && (d.isCommonId <==> Contains(d.description, "**Common-ID**") || Contains(d.name, "Common-ID"))
  {
    if lines != [] {
      SchemaShape(lines[..|lines| - 1], headers, num);
    }
  }

  lemma {:induction false} CommonIdListFlagged(schema: seq<VariableDef>)
    ensures forall n :: n in CommonIdList(schema) <==> exists d :: d in schema && d.isCommonId && d.name == n
  {
    if schema != [] {
      var init := schema[..|schema| - 1];
      CommonIdListFlagged(init);
      assert schema == init + [schema[|schema| - 1]];
    }
  }

  /** The common identifiers are exactly the names of the schema's common-id variables. */
  lemma CommonIdentifiersAreFlaggedNames(h: string, lines: seq<string>, headers: Option<string>, num: NumberSyntax)
    ensures var m := SectionSpec(h, lines, headers, num);
      forall n :: n in m.commonIdentifiers <==> exists d :: d in m.variableSchema && d.isCommonId && d.name == n
  {
    CommonIdListFlagged(SchemaOf(lines, headers, num));
  }

  // ---------------------------------------------------------------------------------------
  // Sections (parse_metadata_csv, lines 10-61)

  const HeaderKeywords: seq<string> := ["Sl.No.", "srl. no.", "Item", "Length", "Byte Position"]

  datatype LineKind = SectionHeader | HeaderRow | DataLine | Ignored

  /** The kind of a stripped line; the tests are tried in this order. */
  function Classify(line: string): LineKind {
    if Contains(line, "LEVEL") && Contains(line, "File Name:") then SectionHeader
    else if exists k :: k in HeaderKeywords && Contains(line, k) then HeaderRow
    else if line != [] && line[0] != ',' && !Contains(line, "NOTE") then DataLine
    else Ignored
  }

  /** The loop's variables: the finished levels, the open section's line, its data lines and its header row. */
  datatype ParseState = ParseState(levels: seq<LevelMetadata>, section: Option<string>, data: seq<string>, headers: Option<string>)

  /** The levels once the open section is processed, if it is set and has data lines. */
  function Flush(st: ParseState, num: NumberSyntax): seq<LevelMetadata> {
    if st.section.Some? && st.data != [] then st.levels + [SectionSpec(st.section.value, st.data, st.headers, num)]
    else st.levels
  }

  function LineStep(st: ParseState, raw: string, num: NumberSyntax): ParseState {
    var line := Trim(raw);
    match Classify(line)
    case SectionHeader => ParseState(Flush(st, num), Some(line), [], None)
    case HeaderRow => ParseState(st.levels, st.section, st.data, Some(line))
    case DataLine => ParseState(st.levels, st.section, st.data + [line], st.headers)
    case Ignored => st
  }

  function ParseFold(lines: seq<string>, num: NumberSyntax): ParseState {
    if lines == [] then ParseState([], None, [], None)
    else LineStep(ParseFold(lines[..|lines| - 1], num), lines[|lines| - 1], num)
  }

  /** `parse_metadata_csv`: None stands for a file that cannot be read, for which it returns `[]`. */
  function ParseSpec(input: Option<seq<string>>, num: NumberSyntax): seq<LevelMetadata> {
    match input
    case None => []
    case Some(lines) => Flush(ParseFold(lines, num), num)
  }

  method ParseMetadataCsv(input: Option<seq<string>>, num: NumberSyntax) returns (levels: seq<LevelMetadata>)
    ensures levels == ParseSpec(input, num)
  {
    if input.None? {
      return [];
    }
    var lines := input.value;
    levels := [];
    var currentSection: Option<string> := None;
    var currentData: seq<string> := [];
    var currentHeaders: Option<string> := None;
    for i := 0 to |lines|
      invariant ParseFold(lines[..i], num) == ParseState(levels, currentSection, currentData, currentHeaders)
    {
      ParseFoldSnoc(lines, i, num);
      levels, currentSection, currentData, currentHeaders := ParseLine(levels, currentSection, currentData, currentHeaders, lines[i], num);
    }
    assert lines[..|lines|] == lines;
    if currentSection.Some? && currentData != [] {
      var m := ProcessSection(currentSection.value, currentData, currentHeaders, num);
      levels := levels + [m];
    }
  }

  lemma ParseFoldSnoc(lines: seq<string>, i: nat, num: NumberSyntax)
    requires i < |lines|
    ensures ParseFold(lines[..i + 1], num) == LineStep(ParseFold(lines[..i], num), lines[i], num)
  {
    assert lines[..i + 1][..i] == lines[..i];
  }

  /** One line of the loop of `parse_metadata_csv`: a section line closes the open section, a header line or a data line is kept. */
  method ParseLine(levels: seq<LevelMetadata>, section: Option<string>, data: seq<string>, headers: Option<string>,
                   raw: string, num: NumberSyntax)
    returns (levels': seq<LevelMetadata>, section': Option<string>, data': seq<string>, headers': Option<string>)
    ensures ParseState(levels', section', data', headers') == LineStep(ParseState(levels, section, data, headers), raw, num)
  {
    levels', section', data', headers' := levels, section, data, headers;
    var line := Trim(raw);
    var kind := Classify(line);
    if kind == SectionHeader {
      if section.Some? && data != [] {
        var m := ProcessSection(section.value, data, headers, num);
        levels' := levels + [m];
      }
      section' := Some(line);
      data' := [];
      headers' := None;
    } else if kind == HeaderRow {
      headers' := Some(line);
    } else if kind == DataLine {
      data' := data + [line];
    }
  }

  /** The number of section lines among the first `|lines|` lines. */
  function SectionLines(lines: seq<string>): nat {
    if lines == [] then 0
    else SectionLines(lines[..|lines| - 1]) + (if Classify(Trim(lines[|lines| - 1])) == SectionHeader then 1 else 0)
  }

  lemma FlushCount(st: ParseState, num: NumberSyntax)
    ensures |Flush(st, num)| <= |st.levels| + (if st.section.Some? then 1 else 0)
    ensures st.section.None? ==> Flush(st, num) == st.levels
  {
  }

  /** How many levels the fold has closed or holds open, against the section lines it has seen. */
  predicate Counted(st: ParseState, sections: nat) {
    |st.levels| + (if st.section.Some? then 1 else 0) <= sections && (st.section.None? ==> st.levels == [])
  }

  lemma StepCount(st: ParseState, raw: string, num: NumberSyntax, sections: nat)
    requires Counted(st, sections)
    ensures Counted(LineStep(st, raw, num), sections + (if Classify(Trim(raw)) == SectionHeader then 1 else 0))
  {
    var line := Trim(raw);
    var kind := Classify(line);
    var next := LineStep(st, raw, num);
    if kind == SectionHeader {
      FlushCount(st, num);
      assert next == ParseState(Flush(st, num), Some(line), [], None);
    } else if kind == HeaderRow {
      assert next == ParseState(st.levels, st.section, st.data, Some(line));
    } else if kind == DataLine {
      assert next == ParseState(st.levels, st.section, st.data + [line], st.headers);
    } else {
      assert next == st;
    }
  }

  lemma {:induction false} FoldCount(lines: seq<string>, num: NumberSyntax)
    ensures Counted(ParseFold(lines, num), SectionLines(lines))
  {
    if lines != [] {
      var init := lines[..|lines| - 1];
      FoldCount(init, num);
      StepCount(ParseFold(init, num), lines[|lines| - 1], num, SectionLines(init));
    }
  }

  /**
   * Each level comes from its own section line, so there are never more levels than section
   * lines; a file without one yields no level at all.
   */
  lemma LevelsAtMostSections(lines: seq<string>, num: NumberSyntax)
    ensures |ParseSpec(Some(lines), num)| <= SectionLines(lines)
    ensures SectionLines(lines) == 0 ==> ParseSpec(Some(lines), num) == []
  {
    FoldCount(lines, num);
    FlushCount(ParseFold(lines, num), num);
  }
}
