/**
 * The text that `ultra_fast_copy_insert` streams to PostgreSQL's `COPY ... FROM` in text
 * format (Backend_Pipeline/ultra_fast_microdata.py:58-83): one line per record, fields
 * separated by a tab, `\N` for null, and backslash, tab and newline escaped inside a field.
 * A decoder for the same format states what the database reads back.
 */
module CopyFormat {
  import opened Wrappers
  import opened Text
  import opened Transform

  /** The null sentinel, `null='\\N'`. */
  const NullMarker: string := "\\N"

  /** `s.replace(c, repl)` for a one-character pattern. */
  function ReplaceChar(s: string, c: char, repl: string): string {
    if s == [] then [] else (if s[0] == c then repl else [s[0]]) + ReplaceChar(s[1..], c, repl)
  }

  /** Line 69: backslash doubled first, then tab and newline written as `\t` and `\n`. */
  function Escape(s: string): string {
    ReplaceChar(ReplaceChar(ReplaceChar(s, '\\', "\\\\"), '\t', "\\t"), '\n', "\\n")
  }

  /** How one field of a record is written: the null sentinel or the escaped text. */
  function EncodeField(v: Option<string>): string {
    match v
    case None => NullMarker
    case Some(s) => Escape(s)
  }

  /** `str(value)` of each element of the tuple `(survey_id, level_id, unit_identifier, payload)`. */
  function RecordFields(r: Record): seq<Option<string>> {
    [Some(Dec(r.surveyId)), Some(Dec(r.levelId)), Some(r.unitIdentifier), Some(r.dataPayload)]
  }

  function EncodeFields(fields: seq<Option<string>>): (r: seq<string>)
    ensures |r| == |fields| && forall k :: 0 <= k < |fields| ==> r[k] == EncodeField(fields[k])
  {
    seq(|fields|, k requires 0 <= k < |fields| => EncodeField(fields[k]))
  }

  /** A record's line without its terminating newline. */
  function LineBody(r: Record): string {
    Join("\t", EncodeFields(RecordFields(r)))
  }

  /** The whole stream: every record's line followed by `\n`, in record order. */
  function CopyText(records: seq<Record>): string {
    if records == [] then "" else CopyText(records[..|records| - 1]) + LineBody(records[|records| - 1]) + "\n"
  }

  /** Writes the stream record by record into a buffer, as the loop at lines 61-72 does. */
  method SerializeRecords(records: seq<Record>) returns (buffer: string)
    ensures buffer == CopyText(records)
  {
    buffer := "";
    for i := 0 to |records|
      invariant buffer == CopyText(records[..i])
    {
      var fields := RecordFields(records[i]);
      var rowValues: seq<string> := [];
      for j := 0 to |fields|
        invariant rowValues == EncodeFields(fields[..j])
      {
        if fields[j].None? {
          rowValues := rowValues + [NullMarker];
        } else {
          rowValues := rowValues + [Escape(fields[j].value)];
        }
      }
      assert fields[..|fields|] == fields;
      assert records[..i + 1][..i] == records[..i];
      buffer := buffer + Join("\t", rowValues) + "\n";
    }
    assert records[..|records|] == records;
  }

  // ---------------------------------------------------------------------------------------
  // The escaping, one character at a time

  function EscapeChar(c: char): string {
    if c == '\\' then "\\\\" else if c == '\t' then "\\t" else if c == '\n' then "\\n" else [c]
  }

  function EscapeEach(s: string): string {
    if s == [] then [] else EscapeChar(s[0]) + EscapeEach(s[1..])
  }

  lemma {:induction false} ReplaceCharAppend(a: string, b: string, c: char, repl: string)
    ensures ReplaceChar(a + b, c, repl) == ReplaceChar(a, c, repl) + ReplaceChar(b, c, repl)
  {
    if a == [] {
      assert a + b == b;
    } else {
      assert (a + b)[0] == a[0] && (a + b)[1..] == a[1..] + b;
      ReplaceCharAppend(a[1..], b, c, repl);
    }
  }

  /** The three chained replacements amount to escaping each character on its own. */
  lemma {:induction false} EscapeIsPerChar(s: string)
    ensures Escape(s) == EscapeEach(s)
  {
    if s != [] {
      var c := s[0];
      var t := s[1..];
      var a1, b1 := ReplaceChar([c], '\\', "\\\\"), ReplaceChar(t, '\\', "\\\\");
      assert ReplaceChar(s, '\\', "\\\\") == a1 + b1 by {
        assert s == [c] + t;
        ReplaceCharAppend([c], t, '\\', "\\\\");
      }
      var a2, b2 := ReplaceChar(a1, '\t', "\\t"), ReplaceChar(b1, '\t', "\\t");
      ReplaceCharAppend(a1, b1, '\t', "\\t");
      ReplaceCharAppend(a2, b2, '\n', "\\n");
      EscapeIsPerChar(t);
      EscapeOneChar(c);
    }
  }

  lemma EscapeOneChar(c: char)
    ensures Escape([c]) == EscapeChar(c)
  {
    ReplaceOne(c, '\\', "\\\\");
    var r1 := ReplaceChar([c], '\\', "\\\\");
    if c == '\\' {
      ReplaceAbsent(r1, '\t', "\\t");
      ReplaceAbsent(r1, '\n', "\\n");
    } else {
      ReplaceOne(c, '\t', "\\t");
      var r2 := ReplaceChar([c], '\t', "\\t");
      if c == '\t' {
        ReplaceAbsent(r2, '\n', "\\n");
      } else {
        ReplaceOne(c, '\n', "\\n");
      }
    }
  }

  lemma ReplaceOne(c: char, x: char, repl: string)
    ensures ReplaceChar([c], x, repl) == if c == x then repl else [c]
  {
    assert [c][1..] == [];
  }

  /** Replacing a character that does not occur changes nothing. */
  lemma {:induction false} ReplaceAbsent(s: string, x: char, repl: string)
    requires x !in s
    ensures ReplaceChar(s, x, repl) == s
  {
    if s != [] {
      assert x !in s[1..];
      ReplaceAbsent(s[1..], x, repl);
      assert s == [s[0]] + s[1..];
    }
  }

  lemma {:induction false} EscapeEachHasNo(s: string, c: char)
    requires c == '\t' || c == '\n'
    ensures c !in EscapeEach(s)
  {
    if s != [] {
      EscapeEachHasNo(s[1..], c);
    }
  }

  /** No encoded field contains a raw tab or newline, so fields and lines stay apart. */
  lemma EncodedFieldIsClean(v: Option<string>)
    ensures '\t' !in EncodeField(v) && '\n' !in EncodeField(v)
  {
    if v.Some? {
      EscapeIsPerChar(v.value);
      EscapeEachHasNo(v.value, '\t');
      EscapeEachHasNo(v.value, '\n');
    }
  }

  /** An escaped value never reads as the null sentinel: only a real `None` becomes `\N`. */
  lemma EscapedIsNotNull(s: string)
    ensures Escape(s) != NullMarker
  {
    EscapeIsPerChar(s);
    if s != [] {
      var e := EscapeEach(s);
      assert e == EscapeChar(s[0]) + EscapeEach(s[1..]);
      if s[0] == '\\' || s[0] == '\t' || s[0] == '\n' {
        assert e[1] != 'N';
      } else {
        assert e[0] != '\\';
      }
    }
  }

  // ---------------------------------------------------------------------------------------
  // Reading the stream back, as COPY's text format does

  /** The character a backslash sequence stands for. */
  function BackslashChar(c: char): char {
    if c == 'n' then '\n' else if c == 't' then '\t' else if c == 'r' then '\r'
    else if c == 'b' then '\U{0008}' else if c == 'f' then '\U{000C}' else if c == 'v' then '\U{000B}'
    else c
  }

  function Unescape(s: string): string {
    if s == [] then []
    else if s[0] == '\\' && |s| >= 2 then [BackslashChar(s[1])] + Unescape(s[2..])
    else [s[0]] + Unescape(s[1..])
  }

  function DecodeField(f: string): Option<string> {
    if f == NullMarker then None else Some(Unescape(f))
  }

  function DecodeLine(line: string): seq<Option<string>> {
    var fs := Split(line, '\t');
    seq(|fs|, k requires 0 <= k < |fs| => DecodeField(fs[k]))
  }

  /** The rows of a stream: every newline-terminated line, decoded. */
  function DecodeStream(text: string): seq<seq<Option<string>>> {
    var lines := Split(text, '\n');
    seq(|lines| - 1, k requires 0 <= k < |lines| - 1 => DecodeLine(lines[k]))
  }

  lemma {:induction false} UnescapeEscape(s: string)
    ensures Unescape(EscapeEach(s)) == s
  {
    if s != [] {
      var rest := EscapeEach(s[1..]);
      UnescapeEscape(s[1..]);
      var e := EscapeChar(s[0]) + rest;
      if s[0] == '\\' || s[0] == '\t' || s[0] == '\n' {
        assert e[0] == '\\' && e[2..] == rest;
      } else {
        assert e[1..] == rest;
      }
    }
  }

  /** Each field decodes to what was encoded, null included. */
  lemma FieldRoundTrip(v: Option<string>)
    ensures DecodeField(EncodeField(v)) == v
  {
    if v.Some? {
      EscapedIsNotNull(v.value);
      EscapeIsPerChar(v.value);
      UnescapeEscape(v.value);
    }
  }

  /** A line decodes to the fields it was written from. */
  lemma LineRoundTrip(fields: seq<Option<string>>)
    requires |fields| >= 1
    ensures DecodeLine(Join("\t", EncodeFields(fields))) == fields
  {
    var enc := EncodeFields(fields);
    forall k | 0 <= k < |enc| ensures '\t' !in enc[k] {
      EncodedFieldIsClean(fields[k]);
    }
    SplitJoin(enc, '\t');
    forall k | 0 <= k < |fields| ensures DecodeField(enc[k]) == fields[k] {
      FieldRoundTrip(fields[k]);
    }
  }

  function Bodies(records: seq<Record>): (r: seq<string>)
    ensures |r| == |records| && forall k :: 0 <= k < |records| ==> r[k] == LineBody(records[k])
  {
    seq(|records|, k requires 0 <= k < |records| => LineBody(records[k]))
  }

  lemma {:induction false} CopyTextIsJoin(records: seq<Record>)
    ensures CopyText(records) == Join("\n", Bodies(records) + [""])
  {
    if records != [] {
      var n := |records|;
      var a := Bodies(records[..n - 1]);
      var b := LineBody(records[n - 1]);
      CopyTextIsJoin(records[..n - 1]);
      BodiesSnoc(records);
      SnocJoinEmpty(a, b);
    }
  }

  lemma BodiesSnoc(records: seq<Record>)
    requires records != []
    ensures Bodies(records) == Bodies(records[..|records| - 1]) + [LineBody(records[|records| - 1])]
  {
    var init := records[..|records| - 1];
    assert forall k :: 0 <= k < |init| ==> init[k] == records[k];
  }

  lemma SnocJoinEmpty(a: seq<string>, b: string)
    ensures Join("\n", a + [""]) + b + "\n" == Join("\n", (a + [b]) + [""])
  {
    JoinSnoc("\n", a + [b], "");
    if a != [] {
      JoinSnoc("\n", a, "");
      JoinSnoc("\n", a, b);
    } else {
      assert a + [""] == [""];
      assert a + [b] == [b];
    }
  }

  lemma BodiesAreClean(records: seq<Record>)
    ensures forall k :: 0 <= k < |Bodies(records) + [""]| ==> '\n' !in (Bodies(records) + [""])[k]
  {
    var bodies := Bodies(records);
    forall k | 0 <= k < |bodies| ensures '\n' !in bodies[k] {
      var enc := EncodeFields(RecordFields(records[k]));
      forall j | 0 <= j < |enc| ensures '\n' !in enc[j] {
        EncodedFieldIsClean(RecordFields(records[k])[j]);
      }
      NotInJoin(enc, "\t", '\n');
    }
  }

  /**
   * The stream is lossless: the database reads back, line by line, exactly the fields
   * of every record, in order.
   */
  lemma StreamRoundTrip(records: seq<Record>)
    ensures |DecodeStream(CopyText(records))| == |records|
    ensures forall k :: 0 <= k < |records| ==> DecodeStream(CopyText(records))[k] == RecordFields(records[k])
  {
    var bodies := Bodies(records);
    CopyTextIsJoin(records);
    BodiesAreClean(records);
    SplitJoin(bodies + [""], '\n');
    var lines := Split(CopyText(records), '\n');
    assert lines == bodies + [""];
    forall k | 0 <= k < |records| ensures DecodeStream(CopyText(records))[k] == RecordFields(records[k]) {
      assert lines[k] == LineBody(records[k]);
      LineRoundTrip(RecordFields(records[k]));
    }
  }
}
