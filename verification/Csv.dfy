/** The CSV export, the CSV import, and what of a table survives the way through both. */
module Csv {
  import opened Basics

  /** A cell's display text; None is a null cell. */
  type Cell = Option<string>

  // ---------- the export ----------

  /** Every quote doubled. */
  function Doubled(v: string): string {
    if v == "" then "" else (if v[0] == '"' then "\"\"" else [v[0]]) + Doubled(v[1..])
  }

  function Escaped(c: Cell): string {
    if c.None? then "" else "\"" + Doubled(c.value) + "\""
  }

  function EscapedAll(cells: seq<Cell>): seq<string> {
    if cells == [] then [] else [Escaped(cells[0])] + EscapedAll(cells[1..])
  }

  function Line(cells: seq<Cell>): string {
    Join(EscapedAll(cells), ",")
  }

  function Lines(rows: seq<seq<Cell>>): seq<string> {
    if rows == [] then [] else [Line(rows[0])] + Lines(rows[1..])
  }

  function Named(names: seq<string>): seq<Cell> {
    if names == [] then [] else [Some(names[0])] + Named(names[1..])
  }

  function BuildCsv(names: seq<string>, rows: seq<seq<Cell>>): string {
    Join(Lines([Named(names)] + rows), "\n")
  }

  // ---------- the import ----------

  /** What `trim` strips. */
  predicate IsSpace(c: char) {
    || '\t' <= c <= '\r' || c == ' ' || c == '\U{a0}' || c == '\U{1680}' || '\U{2000}' <= c <= '\U{200a}'
    || c == '\U{2028}' || c == '\U{2029}' || c == '\U{202f}' || c == '\U{205f}' || c == '\U{3000}' || c == '\U{feff}'
  }

  predicate IsBlank(line: string) {
    forall i :: 0 <= i < |line| ==> IsSpace(line[i])
  }

  function IndexOf(s: string, c: char): (n: nat)
    ensures n <= |s|
    ensures forall i :: 0 <= i < n ==> s[i] != c
    ensures n < |s| ==> s[n] == c
  {
    if s == "" || s[0] == c then 0 else 1 + IndexOf(s[1..], c)
  }

  /** `split(/\r?\n/)`. */
  function SplitLines(text: string): seq<string>
    decreases |text|
  {
    var k := IndexOf(text, '\n');
    if k == |text| then [text]
    else [if k > 0 && text[k - 1] == '\r' then text[..k - 1] else text[..k]] + SplitLines(text[k + 1..])
  }

  /** The rest of a quoted field, and what follows it. */
  function Quoted(s: string): (r: (string, string))
    ensures |r.1| <= |s|
    decreases |s|
  {
    if s == "" then ("", "")
    else if "\"\"" <= s then
      var (field, rest) := Quoted(s[2..]);
      ("\"" + field, rest)
    else if s[0] == '"' then ("", s[1..])
    else
      var (field, rest) := Quoted(s[1..]);
      ([s[0]] + field, rest)
  }

  function AfterComma(s: string): (r: string)
    ensures |r| <= |s|
  {
    if "," <= s then s[1..] else s
  }

  function Fields(line: string): seq<string>
    decreases |line|
  {
    if line == "" then []
    else if line[0] == '"' then
      var (field, rest) := Quoted(line[1..]);
      [field] + Fields(AfterComma(rest))
    else
      var k := IndexOf(line, ',');
      if k == |line| then [line] else [line[..k]] + Fields(line[k + 1..])
  }

  function Parsed(lines: seq<string>): seq<seq<string>> {
    if lines == [] then []
    else
      var k := |lines| - 1;
      Parsed(lines[..k]) + if IsBlank(lines[k]) then [] else [Fields(lines[k])]
  }

  /** Reads on from behind an opening quote to behind the closing one. */
  method ParseQuoted(line: string, start: nat) returns (field: string, j: nat)
    requires start <= |line|
    ensures start <= j <= |line| && Quoted(line[start..]) == (field, line[j..])
  {
    hide Quoted;
    j, field := start, "";
    ghost var whole := Quoted(line[start..]);
    assert "" + whole.0 == whole.0;
    while j < |line|
      invariant start <= j <= |line|
      invariant whole == (field + Quoted(line[j..]).0, Quoted(line[j..]).1)
    {
      ghost var before, tail := field, line[j..];
      Tail(line, j, tail);
      QuotedStep(tail);
      if line[j] == '"' && j + 1 < |line| && line[j + 1] == '"' {
        field := field + "\"";
        j := j + 2;
        Assoc(before, "\"", Quoted(line[j..]).0);
      } else if line[j] == '"' {
        j := j + 1;
        Assoc(before, "", "");
        return;
      } else {
        field := field + [line[j]];
        j := j + 1;
        Assoc(before, [tail[0]], Quoted(line[j..]).0);
      }
    }
    QuotedStep(line[j..]);
    Assoc(field, "", "");
  }

  lemma Assoc(a: string, b: string, c: string)
    ensures a + (b + c) == (a + b) + c && b + "" == b && a + "" == a
  {
  }

  lemma Tail(line: string, j: nat, tail: string)
    requires j < |line| && tail == line[j..]
    ensures tail[0] == line[j] && tail[1..] == line[j + 1..]
    ensures j + 1 < |line| ==> tail[1] == line[j + 1] && tail[2..] == line[j + 2..]
  {
  }

  lemma QuotedStep(s: string)
    ensures s == "" ==> Quoted(s) == ("", "")
    ensures s != "" && s[0] == '"' && |s| > 1 && s[1] == '"' ==>
              Quoted(s) == ("\"" + Quoted(s[2..]).0, Quoted(s[2..]).1)
    ensures s != "" && s[0] == '"' && !(|s| > 1 && s[1] == '"') ==> Quoted(s) == ("", s[1..])
    ensures s != "" && s[0] != '"' ==> Quoted(s) == ([s[0]] + Quoted(s[1..]).0, Quoted(s[1..]).1)
  {
    assert "\"\"" <= s <==> |s| > 1 && s[0] == '"' && s[1] == '"';
  }

  method ParseLine(line: string) returns (fields: seq<string>)
    ensures fields == Fields(line)
  {
    hide Quoted, Fields, AfterComma;
    fields := [];
    var i := 0;
    assert line[0..] == line && [] + Fields(line) == Fields(line);
    while i < |line|
      invariant 0 <= i <= |line|
      invariant fields + Fields(line[i..]) == Fields(line)
    {
      ghost var done, tail := fields, line[i..];
      assert tail[0] == line[i];
      if line[i] == '"' {
        var field, j := ParseQuoted(line, i + 1);
        assert tail[1..] == line[i + 1..];
        QuotedField(tail);
        SkipComma(line, j);
        fields := fields + [field];
        i := j;
        if i < |line| && line[i] == ',' { i := i + 1; }
        assert done + ([field] + Fields(line[i..])) == fields + Fields(line[i..]);
      } else {
        BareField(tail);
        var end := IndexOf(line[i..], ',');
        if end == |line| - i {
          fields := fields + [line[i..]];
          return;
        }
        var field := line[i..i + end];
        assert tail[..end] == field && tail[end + 1..] == line[i + end + 1..];
        fields := fields + [field];
        i := i + end + 1;
        assert done + ([field] + Fields(line[i..])) == fields + Fields(line[i..]);
      }
    }
    NoFields(line[i..]);
    assert fields + [] == fields;
  }

  lemma NoFields(s: string)
    requires |s| == 0
    ensures Fields(s) == []
  {
    hide Quoted, AfterComma, IndexOf;
  }

  lemma BareField(s: string)
    requires s != "" && s[0] != '"'
    ensures var k := IndexOf(s, ','); Fields(s) == if k == |s| then [s] else [s[..k]] + Fields(s[k + 1..])
  {
    hide Quoted, AfterComma, IndexOf;
  }

  lemma SkipComma(line: string, j: nat)
    requires j <= |line|
    ensures AfterComma(line[j..]) == line[if j < |line| && line[j] == ',' then j + 1 else j..]
  {
    if j < |line| { assert line[j..][0] == line[j] && line[j..][1..] == line[j + 1..]; }
  }

  method ParseCsv(text: string) returns (records: seq<seq<string>>)
    ensures records == Parsed(SplitLines(text))
  {
    var lines := SplitLines(text);
    records := [];
    var i := 0;
    while i < |lines|
      invariant 0 <= i <= |lines|
      invariant records == Parsed(lines[..i])
    {
      assert lines[..i + 1][..i] == lines[..i];
      if !IsBlank(lines[i]) {
        var fields := ParseLine(lines[i]);
        records := records + [fields];
      }
      i := i + 1;
    }
    assert lines[..i] == lines;
  }

  /** The importer reads a missing cell as empty. */
  function Padded(record: seq<string>, n: nat): (r: seq<string>)
    ensures |r| == n
  {
    seq(n, i requires 0 <= i < n => if i < |record| then record[i] else "")
  }

  /** The inherited accessor of a plain object, which takes no text. */
  const PROTO := "__proto__"

  /**
    One imported row: its texts by header, where a later column of the same header replaces an earlier
    one, and a text assigned under `__proto__` is dropped.
   */
  function Imported(headers: seq<string>, record: seq<string>): map<string, string> {
    if headers == [] then map[]
    else
      var i := |headers| - 1;
      var before := Imported(headers[..i], record);
      if headers[i] == PROTO then before else before[headers[i] := if i < |record| then record[i] else ""]
  }

  method ImportRow(headers: seq<string>, record: seq<string>) returns (obj: map<string, string>)
    ensures obj == Imported(headers, record)
  {
    obj := map[];
    for i := 0 to |headers|
      invariant obj == Imported(headers[..i], record)
    {
      assert headers[..i + 1][..i] == headers[..i];
      if headers[i] != PROTO { obj := obj[headers[i] := if i < |record| then record[i] else ""]; }
    }
    assert headers[..|headers|] == headers;
  }

  // ---------- quoting ----------

  /** Section 2 of RFC 4180: a quoted field is read back as it was, whatever quotes and commas it holds. */
  lemma {:induction false} QuotedInverse(v: string, rest: string)
    requires rest == "" || rest[0] != '"'
    ensures Quoted(Doubled(v) + "\"" + rest) == (v, rest)
  {
    hide Quoted;
    var s := Doubled(v) + "\"" + rest;
    QuotedStep(s);
    if v == "" {
      assert s == "\"" + rest && s[1..] == rest;
    } else {
      var tail := Doubled(v[1..]) + "\"" + rest;
      QuotedInverse(v[1..], rest);
      if v[0] == '"' {
        assert s == "\"\"" + tail;
        assert s[2..] == tail;
      } else {
        assert s == [v[0]] + tail;
        assert s[1..] == tail;
      }
      assert [v[0]] + v[1..] == v;
    }
  }

  function Text(c: Cell): string {
    if c.None? then "" else c.value
  }

  /** The texts the reader gets back from a line: a null cell at the end leaves no field. */
  function Readable(cells: seq<Cell>): (r: seq<string>)
    ensures |r| <= |cells|
  {
    if cells == [] || (|cells| == 1 && cells[0].None?) then [] else [Text(cells[0])] + Readable(cells[1..])
  }

  lemma LineCons(cells: seq<Cell>)
    requires cells != []
    ensures Line(cells) == Escaped(cells[0]) + if |cells| == 1 then "" else "," + Line(cells[1..])
  {
    assert EscapedAll(cells)[1..] == EscapedAll(cells[1..]);
  }

  lemma {:induction false} FieldsOfLine(cells: seq<Cell>)
    ensures Fields(Line(cells)) == Readable(cells)
    decreases |cells|
  {
    if cells != [] {
      hide Line, Escaped, EscapedAll, Quoted, Doubled;
      LineCons(cells);
      FieldsOfLine(cells[1..]);
      FirstField(cells[0], if |cells| == 1 then "" else "," + Line(cells[1..]));
      if |cells| == 1 { NoLine(cells[1..]); } else { assert ("," + Line(cells[1..]))[1..] == Line(cells[1..]); }
    }
  }

  lemma NoLine(cells: seq<Cell>)
    requires |cells| == 0
    ensures Line(cells) == "" && Fields("") == [] && Readable(cells) == []
  {
  }

  lemma FirstField(c: Cell, rest: string)
    requires rest == "" || rest[0] == ','
    ensures Fields(Escaped(c) + rest) == if c.None? && rest == "" then [] else [Text(c)] + Fields(AfterComma(rest))
  {
    hide Quoted, Doubled, Fields, AfterComma;
    var s := Escaped(c) + rest;
    if c.None? {
      assert s == rest;
      if rest != "" { EmptyField(rest); } else { NoFields(rest); }
    } else {
      assert s[0] == '"' && s[1..] == Doubled(c.value) + "\"" + rest;
      QuotedField(s);
      QuotedInverse(c.value, rest);
    }
  }

  lemma EmptyField(s: string)
    requires s != "" && s[0] == ','
    ensures Fields(s) == [""] + Fields(AfterComma(s))
  {
    hide Fields;
    BareField(s);
    assert s[..0] == "";
  }

  lemma QuotedField(s: string)
    requires s != "" && s[0] == '"'
    ensures Fields(s) == [Quoted(s[1..]).0] + Fields(AfterComma(Quoted(s[1..]).1))
  {
    hide Quoted, AfterComma, IndexOf;
  }

  // ---------- lines ----------

  /** A line the splitter gives back as it is. */
  predicate Plain(line: string) {
    '\n' !in line && (line == "" || line[|line| - 1] != '\r')
  }

  lemma FirstFeed(line: string, rest: string)
    requires '\n' !in line
    ensures IndexOf(line + "\n" + rest, '\n') == |line|
  {
    var s := line + "\n" + rest;
    assert s[|line|] == '\n';
    var k := IndexOf(s, '\n');
    assert forall i :: 0 <= i < |line| ==> s[i] == line[i] && line[i] in line;
  }

  lemma SplitFirst(line: string, rest: string)
    requires Plain(line)
    ensures SplitLines(line + "\n" + rest) == [line] + SplitLines(rest)
  {
    hide IndexOf;
    FirstFeed(line, rest);
    var s := line + "\n" + rest;
    assert s[|line| + 1..] == rest && s[..|line|] == line;
    if line != "" { assert s[|line| - 1] == line[|line| - 1]; }
  }

  lemma SplitLast(line: string)
    requires '\n' !in line
    ensures SplitLines(line) == [line]
  {
    hide IndexOf;
  }

  lemma {:induction false} SplitJoin(lines: seq<string>)
    requires lines != [] && forall l :: l in lines ==> Plain(l)
    ensures SplitLines(Join(lines, "\n")) == lines
    decreases |lines|
  {
    hide SplitLines;
    assert lines[0] in lines;
    if |lines| == 1 {
      SplitLast(lines[0]);
    } else {
      SplitJoin(lines[1..]);
      SplitFirst(lines[0], Join(lines[1..], "\n"));
      assert [lines[0]] + lines[1..] == lines;
    }
  }

  predicate NoFeeds(cells: seq<Cell>) {
    forall i :: 0 <= i < |cells| ==> '\n' !in Text(cells[i])
  }

  lemma {:induction false} DoubledHasNone(v: string)
    requires '\n' !in v
    ensures '\n' !in Doubled(v)
  {
    if v != "" {
      assert v[0] in v && forall c :: c in v[1..] ==> c in v;
      DoubledHasNone(v[1..]);
    }
  }

  lemma EscapedIs(c: Cell)
    requires '\n' !in Text(c)
    ensures '\n' !in Escaped(c)
    ensures c.None? ==> Escaped(c) == ""
    ensures c.Some? ==> var e := Escaped(c); e != "" && e[0] == '"' && e[|e| - 1] == '"'
  {
    if c.Some? {
      DoubledHasNone(c.value);
      assert forall x :: x in Escaped(c) ==> x == '"' || x in Doubled(c.value);
    }
  }

  lemma PlainAppend(a: string, b: string)
    requires '\n' !in a && Plain(b) && (b == "" ==> Plain(a))
    ensures Plain(a + b)
  {
    assert b == "" ==> a + b == a;
    assert forall x :: x in a + b ==> x in a || x in b;
  }

  /** A line has neither feeds nor a return at its end, and is blank only for a single null cell. */
  lemma {:induction false} LineIsPlain(cells: seq<Cell>)
    requires NoFeeds(cells)
    ensures Plain(Line(cells))
    ensures IsBlank(Line(cells)) <==> cells == [] || (|cells| == 1 && cells[0].None?)
    decreases |cells|
  {
    hide Line, EscapedAll, Escaped, Plain;
    if cells == [] {
      NoLine(cells);
      EmptyIsPlain("");
    } else {
      LineCons(cells);
      LineIsPlain(cells[1..]);
      var rest := if |cells| == 1 then "" else "," + Line(cells[1..]);
      assert '\n' !in Text(cells[0]);
      EscapedIs(cells[0]);
      EmptyIsPlain(rest);
      EmptyIsPlain(Escaped(cells[0]));
      if |cells| > 1 { PlainAppend(",", Line(cells[1..])); }
      PlainAppend(Escaped(cells[0]), rest);
      if cells[0].Some? || |cells| > 1 { assert Line(cells)[0] == '"' || Line(cells)[0] == ','; }
    }
  }

  lemma EmptyIsPlain(line: string)
    ensures line == "" || (line[|line| - 1] == '"' && '\n' !in line) ==> Plain(line)
    ensures Plain(",")
  {
  }

  // ---------- the round trip ----------

  predicate Survives(row: seq<Cell>) {
    !(row == [] || (|row| == 1 && row[0].None?))
  }

  function ReadRows(rows: seq<seq<Cell>>): seq<seq<string>> {
    if rows == [] then []
    else
      var k := |rows| - 1;
      ReadRows(rows[..k]) + if Survives(rows[k]) then [Readable(rows[k])] else []
  }

  lemma {:induction false} LinesAt(rows: seq<seq<Cell>>)
    ensures |Lines(rows)| == |rows|
    ensures forall i :: 0 <= i < |rows| ==> Lines(rows)[i] == Line(rows[i])
  {
    if rows != [] { LinesAt(rows[1..]); }
  }

  lemma {:induction false} ParsedLines(rows: seq<seq<Cell>>, lines: seq<string>)
    requires |lines| == |rows| && forall i :: 0 <= i < |rows| ==> lines[i] == Line(rows[i]) && NoFeeds(rows[i])
    ensures Parsed(lines) == ReadRows(rows)
    decreases |rows|
  {
    hide Line, Fields, NoFeeds, IsBlank, Readable;
    if rows != [] {
      var k := |rows| - 1;
      ParsedLines(rows[..k], lines[..k]);
      LineIsPlain(rows[k]);
      FieldsOfLine(rows[k]);
    }
  }

  /** What the import reads from any exported table without line feeds in its texts. */
  lemma ParseOfBuild(names: seq<string>, rows: seq<seq<Cell>>)
    requires NoFeeds(Named(names)) && forall i :: 0 <= i < |rows| ==> NoFeeds(rows[i])
    ensures Parsed(SplitLines(BuildCsv(names, rows))) == ReadRows([Named(names)] + rows)
  {
    hide Line, NoFeeds, Plain, Parsed, ReadRows, SplitLines, Join, Lines;
    var all := [Named(names)] + rows;
    var lines := Lines(all);
    LinesAt(all);
    assert forall i :: 0 <= i < |all| ==> NoFeeds(all[i]) by {
      assert forall i :: 1 <= i < |all| ==> all[i] == rows[i - 1];
    }
    forall l | l in lines ensures Plain(l) {
      var i :| 0 <= i < |lines| && lines[i] == l;
      LineIsPlain(all[i]);
    }
    SplitJoin(lines);
    ParsedLines(all, lines);
  }

  lemma {:induction false} NamedReads(names: seq<string>)
    ensures Readable(Named(names)) == names && |Named(names)| == |names|
  {
    if names != [] {
      NamedReads(names[1..]);
      assert [names[0]] + names[1..] == names;
    }
  }

  lemma {:induction false} ReadableAt(cells: seq<Cell>, i: nat)
    requires i < |cells|
    ensures i < |Readable(cells)| ==> Readable(cells)[i] == Text(cells[i])
    ensures i >= |Readable(cells)| ==> Text(cells[i]) == ""
    decreases |cells|
  {
    if i > 0 { ReadableAt(cells[1..], i - 1); }
  }

  function Texts(row: seq<Cell>): (r: seq<string>)
    ensures |r| == |row|
  {
    seq(|row|, i requires 0 <= i < |row| => Text(row[i]))
  }

  lemma PaddedIsTexts(row: seq<Cell>)
    ensures Padded(Readable(row), |row|) == Texts(row)
  {
    forall i | 0 <= i < |row| ensures Padded(Readable(row), |row|)[i] == Texts(row)[i] {
      ReadableAt(row, i);
    }
  }

  function PaddedAll(records: seq<seq<string>>, n: nat): (r: seq<seq<string>>)
    ensures |r| == |records|
  {
    seq(|records|, i requires 0 <= i < |records| => Padded(records[i], n))
  }

  function TextsAll(rows: seq<seq<Cell>>): (r: seq<seq<string>>)
    ensures |r| == |rows|
  {
    seq(|rows|, i requires 0 <= i < |rows| => Texts(rows[i]))
  }

  lemma {:induction false} ReadRowsLength(rows: seq<seq<Cell>>)
    ensures |ReadRows(rows)| <= |rows|
    ensures |ReadRows(rows)| == |rows| <==> forall i :: 0 <= i < |rows| ==> Survives(rows[i])
    ensures |ReadRows(rows)| == |rows| ==> forall i :: 0 <= i < |rows| ==> ReadRows(rows)[i] == Readable(rows[i])
  {
    hide Survives, Readable;
    if rows != [] {
      var k := |rows| - 1;
      ReadRowsLength(rows[..k]);
      assert forall i :: 0 <= i < k ==> rows[..k][i] == rows[i];
      if |ReadRows(rows)| == |rows| { assert Survives(rows[k]); }
    }
  }

  /** The round trip: headers and every cell text come back exactly if no row is a single null cell. */
  lemma RoundTrip(names: seq<string>, rows: seq<seq<Cell>>)
    requires names != [] && forall i :: 0 <= i < |rows| ==> |rows[i]| == |names|
    requires NoFeeds(Named(names)) && forall i :: 0 <= i < |rows| ==> NoFeeds(rows[i])
    ensures var records := Parsed(SplitLines(BuildCsv(names, rows)));
            && records != [] && records[0] == names
            && (PaddedAll(records[1..], |names|) == TextsAll(rows) <==> |names| > 1 || forall i :: 0 <= i < |rows| ==>
                rows[i][0].Some?)
  {
    hide NoFeeds, BuildCsv, Parsed, SplitLines, Readable, ReadRows, PaddedAll, TextsAll;
    ParseOfBuild(names, rows);
    ReadHeader(names, rows);
    RowsReadIff(rows, |names|);
    assert ReadRows([Named(names)] + rows)[1..] == ReadRows(rows);
  }

  lemma RowsReadIff(rows: seq<seq<Cell>>, n: nat)
    requires forall i :: 0 <= i < |rows| ==> |rows[i]| == n
    ensures PaddedAll(ReadRows(rows), n) == TextsAll(rows) <==> forall i :: 0 <= i < |rows| ==> Survives(rows[i])
  {
    hide Readable, Survives, ReadRows, Padded, Texts;
    ReadRowsLength(rows);
    if |ReadRows(rows)| == |rows| {
      forall i | 0 <= i < |rows| ensures PaddedAll(ReadRows(rows), n)[i] == TextsAll(rows)[i] {
        PaddedIsTexts(rows[i]);
      }
    }
  }

  lemma {:induction false} ReadHeader(names: seq<string>, rows: seq<seq<Cell>>)
    requires names != []
    ensures ReadRows([Named(names)] + rows) == [names] + ReadRows(rows)
    decreases |rows|
  {
    hide Readable;
    NamedReads(names);
    var all := [Named(names)] + rows;
    if rows == [] {
      assert all == [Named(names)] && all[..0] == [];
      assert Survives(Named(names));
    } else {
      var k := |rows| - 1;
      assert all[..k + 1] == [Named(names)] + rows[..k];
      ReadHeader(names, rows[..k]);
    }
  }

  // ---------- the import by header ----------

  /** A header gives the text of its last column. */
  lemma {:induction false} ImportedAt(headers: seq<string>, record: seq<string>, i: nat) returns (j: nat)
    requires i < |headers| && headers[i] != PROTO
    ensures i <= j < |headers| && headers[j] == headers[i]
    ensures headers[i] in Imported(headers, record)
    ensures Imported(headers, record)[headers[i]] == Padded(record, |headers|)[j]
  {
    var n := |headers| - 1;
    if headers[n] == headers[i] {
      j := n;
    } else {
      j := ImportedAt(headers[..n], record, i);
    }
  }

  lemma {:induction false} NeverUnderProto(headers: seq<string>, record: seq<string>)
    ensures PROTO !in Imported(headers, record)
  {
    if headers != [] { NeverUnderProto(headers[..|headers| - 1], record); }
  }

  /** Columns of the same header carry the same text. */
  predicate SameUnderSame(names: seq<string>, row: seq<Cell>)
    requires |row| == |names|
  {
    forall i, j :: 0 <= i < j < |names| && names[i] == names[j] ==> Text(row[i]) == Text(row[j])
  }

  /** Every cell's text is found under its header. */
  predicate Found(names: seq<string>, row: seq<Cell>, obj: map<string, string>)
    requires |row| == |names|
  {
    forall i :: 0 <= i < |names| ==> names[i] in obj && obj[names[i]] == Text(row[i])
  }

  lemma LastOfHeader(names: seq<string>, row: seq<Cell>, i: nat) returns (j: nat)
    requires |row| == |names| && i < |names| && names[i] != PROTO
    ensures i <= j < |names| && names[j] == names[i]
    ensures var obj := Imported(names, Readable(row)); names[i] in obj && obj[names[i]] == Text(row[j])
  {
    hide Imported, Readable, Padded;
    j := ImportedAt(names, Readable(row), i);
    PaddedIsTexts(row);
    assert Texts(row)[j] == Text(row[j]);
  }

  lemma RowFoundIff(names: seq<string>, row: seq<Cell>)
    requires |row| == |names|
    ensures Found(names, row, Imported(names, Readable(row))) <==> PROTO !in names && SameUnderSame(names, row)
  {
    hide Imported, Readable;
    NeverUnderProto(names, Readable(row));
    if PROTO !in names && SameUnderSame(names, row) {
      forall i | 0 <= i < |names|
        ensures var obj := Imported(names, Readable(row)); names[i] in obj && obj[names[i]] == Text(row[i])
      {
        var j := LastOfHeader(names, row, i);
      }
    }
  }

  /** Two columns of one header with different texts: one of the texts is lost. */
  lemma SameHeaderLosesText(name: string, x: string, y: string)
    requires x != y
    ensures !Found([name, name], [Some(x), Some(y)], Imported([name, name], Readable([Some(x), Some(y)])))
  {
    hide Imported, Readable, Found;
    RowFoundIff([name, name], [Some(x), Some(y)]);
    var row := [Some(x), Some(y)];
    assert Text(row[0]) != Text(row[1]) && [name, name][0] == [name, name][1];
  }

  function ImportedAll(headers: seq<string>, records: seq<seq<string>>): (r: seq<map<string, string>>)
    ensures |r| == |records|
  {
    seq(|records|, i requires 0 <= i < |records| => Imported(headers, records[i]))
  }

  /** Every row comes back, with every cell's text under its header. */
  predicate AllFound(names: seq<string>, rows: seq<seq<Cell>>, objs: seq<map<string, string>>)
    requires forall i :: 0 <= i < |rows| ==> |rows[i]| == |names|
  {
    |objs| == |rows| && forall i :: 0 <= i < |rows| ==> Found(names, rows[i], objs[i])
  }

  predicate AllSurvive(rows: seq<seq<Cell>>) {
    forall i :: 0 <= i < |rows| ==> Survives(rows[i])
  }

  predicate AllSame(names: seq<string>, rows: seq<seq<Cell>>)
    requires forall i :: 0 <= i < |rows| ==> |rows[i]| == |names|
  {
    forall i :: 0 <= i < |rows| ==> SameUnderSame(names, rows[i])
  }

  lemma RowsFoundIff(names: seq<string>, rows: seq<seq<Cell>>)
    requires forall i :: 0 <= i < |rows| ==> |rows[i]| == |names|
    ensures AllFound(names, rows, ImportedAll(names, ReadRows(rows))) <==>
            AllSurvive(rows) && (rows == [] || PROTO !in names) && AllSame(names, rows)
  {
    hide Readable, Imported, Found, SameUnderSame, Survives, ReadRows;
    ReadRowsLength(rows);
    var objs := ImportedAll(names, ReadRows(rows));
    if |ReadRows(rows)| == |rows| {
      forall i | 0 <= i < |rows|
        ensures Found(names, rows[i], objs[i]) <==> PROTO !in names && SameUnderSame(names, rows[i])
      {
        RowFoundIff(names, rows[i]);
      }
      if AllFound(names, rows, objs) && rows != [] { assert Found(names, rows[0], objs[0]); }
    }
  }

  lemma SurviveIff(rows: seq<seq<Cell>>, n: nat)
    requires n > 0 && forall i :: 0 <= i < |rows| ==> |rows[i]| == n
    ensures AllSurvive(rows) <==> n > 1 || forall i :: 0 <= i < |rows| ==> rows[i][0].Some?
  {
    if n == 1 && AllSurvive(rows) {
      forall i | 0 <= i < |rows| ensures rows[i][0].Some? { assert Survives(rows[i]); }
    }
  }

  /**
    The whole way: an exported table is imported with every text under its header exactly if no row
    is a single null cell, no column is called `__proto__`, and columns of the same header agree in
    every row.
   */
  lemma ImportOfExport(names: seq<string>, rows: seq<seq<Cell>>)
    requires names != [] && forall i :: 0 <= i < |rows| ==> |rows[i]| == |names|
    requires NoFeeds(Named(names)) && forall i :: 0 <= i < |rows| ==> NoFeeds(rows[i])
    ensures var records := Parsed(SplitLines(BuildCsv(names, rows)));
            && records != [] && records[0] == names
            && (AllFound(names, rows, ImportedAll(records[0], records[1..])) <==>
                  && (|names| > 1 || forall i :: 0 <= i < |rows| ==> rows[i][0].Some?)
                  && (rows == [] || PROTO !in names)
                  && AllSame(names, rows))
  {
    hide NoFeeds, BuildCsv, Parsed, SplitLines, AllFound, ImportedAll, AllSame, AllSurvive, ReadRows;
    ParseOfBuild(names, rows);
    ReadHeader(names, rows);
    RowsFoundIff(names, rows);
    SurviveIff(rows, |names|);
    assert ReadRows([Named(names)] + rows)[1..] == ReadRows(rows);
  }

  lemma DistinctAgree(names: seq<string>, row: seq<Cell>)
    requires |row| == |names| && forall i, j :: 0 <= i < j < |names| ==> names[i] != names[j]
    ensures SameUnderSame(names, row)
  {
  }

  /** A table with distinct column names comes back whole but for single null cells and the name `__proto__`. */
  lemma ImportOfDistinct(names: seq<string>, rows: seq<seq<Cell>>)
    requires names != [] && forall i :: 0 <= i < |rows| ==> |rows[i]| == |names|
    requires NoFeeds(Named(names)) && forall i :: 0 <= i < |rows| ==> NoFeeds(rows[i])
    requires forall i, j :: 0 <= i < j < |names| ==> names[i] != names[j]
    ensures var records := Parsed(SplitLines(BuildCsv(names, rows)));
            && records != []
            && (AllFound(names, rows, ImportedAll(records[0], records[1..])) <==>
                  && (|names| > 1 || forall i :: 0 <= i < |rows| ==> rows[i][0].Some?)
                  && (rows == [] || PROTO !in names))
  {
    hide NoFeeds, BuildCsv, Parsed, SplitLines, AllFound, ImportedAll, SameUnderSame;
    ImportOfExport(names, rows);
    forall i | 0 <= i < |rows| ensures SameUnderSame(names, rows[i]) { DistinctAgree(names, rows[i]); }
  }

  /** A text under `__proto__` is lost, which no other column makes good. */
  lemma ProtoLosesText(names: seq<string>, row: seq<Cell>)
    requires |row| == |names| && PROTO in names
    ensures !Found(names, row, Imported(names, Readable(row)))
  {
    hide Imported, Readable, Found;
    RowFoundIff(names, row);
  }
}
