/**
  The migration runner's SQL splitter: a loop over one character at a time with six modes, proved
  against a lexer that reads whole tokens.
 */
module SqlSplit {

  /** The lexer's modes; `Quoted` serves string literals and quoted identifiers. */
  datatype Mode = Top | LineComment | BlockComment | Quoted(quote: char) | Dollar(tag: string)

  // ---------- characters and lines, as Python's str sees them ----------

  predicate IsLineBreak(c: char) {
    '\n' <= c <= '\r' || '\U{1c}' <= c <= '\U{1e}' || c == '\U{85}' || c == '\U{2028}' || c == '\U{2029}'
  }

  predicate IsSpace(c: char) {
    || IsLineBreak(c) || c == '\t' || c == '\U{1f}' || c == ' ' || c == '\U{a0}' || c == '\U{1680}'
    || '\U{2000}' <= c <= '\U{200a}' || c == '\U{202f}' || c == '\U{205f}' || c == '\U{3000}'
  }

  predicate IsWord(c: char) {
    'A' <= c <= 'Z' || 'a' <= c <= 'z' || '0' <= c <= '9' || c == '_'
  }

  function LStrip(s: string): string {
    if s != "" && IsSpace(s[0]) then LStrip(s[1..]) else s
  }

  function RStrip(s: string): string {
    if s != "" && IsSpace(s[|s| - 1]) then RStrip(s[..|s| - 1]) else s
  }

  function Strip(s: string): string {
    RStrip(LStrip(s))
  }

  function LineLength(s: string): (n: nat)
    ensures n <= |s|
  {
    if s == "" || IsLineBreak(s[0]) then 0 else 1 + LineLength(s[1..])
  }

  /** `splitlines`: "\r\n" is one break, and a break at the end starts no line. */
  function SplitLines(s: string): seq<string> {
    if s == "" then []
    else
      var n := LineLength(s);
      if n == |s| then [s]
      else [s[..n]] + SplitLines(s[n + (if "\r\n" <= s[n..] then 2 else 1)..])
  }

  /** A line with something on it that is not a line comment. */
  predicate IsCode(line: string) {
    Strip(line) != "" && !("--" <= Strip(line))
  }

  /** The pieces worth running. */
  predicate Keeps(stmt: string) {
    exists i :: 0 <= i < |SplitLines(stmt)| && IsCode(SplitLines(stmt)[i])
  }

  // ---------- the reference lexer ----------

  function WordLength(s: string): (n: nat)
    ensures n <= |s|
  {
    if s == "" || !IsWord(s[0]) then 0 else 1 + WordLength(s[1..])
  }

  /** The length of the dollar tag `s` begins with, or 0. */
  function TagLength(s: string): (n: nat)
    ensures n <= |s| && n != 1
  {
    if s == "" || s[0] != '$' then 0
    else
      var k := WordLength(s[1..]);
      if 1 + k < |s| && s[1 + k] == '$' then k + 2 else 0
  }

  /** What the text opens at top level, and the length of the opener. */
  function Opens(s: string): (r: (Mode, nat))
    requires s != ""
    ensures 0 < r.1 <= |s| && (r.0.Dollar? ==> |r.0.tag| > 0)
  {
    if "--" <= s then (LineComment, 2)
    else if "/*" <= s then (BlockComment, 2)
    else if s[0] == '\'' || s[0] == '"' then (Quoted(s[0]), 1)
    else if TagLength(s) > 0 then (Dollar(s[..TagLength(s)]), TagLength(s))
    else (Top, 1)
  }

  /** The length of the text up to and including what ends the mode; all of it if nothing does. */
  function Span(mode: Mode, s: string): (n: nat)
    ensures n <= |s|
    decreases |s|
  {
    if s == "" then 0
    else
      match mode
      case Top => 0
      case LineComment => if s[0] == '\n' then 1 else 1 + Span(mode, s[1..])
      case BlockComment => if "*/" <= s then 2 else 1 + Span(mode, s[1..])
      case Quoted(q) =>
        if [q, q] <= s then 2 + Span(mode, s[2..]) else if s[0] == q then 1 else 1 + Span(mode, s[1..])
      case Dollar(tag) => if tag <= s then |tag| else 1 + Span(mode, s[1..])
  }

  /** One token: a comment, a literal, a dollar block, or a single character. */
  function TokenLength(s: string): (n: nat)
    requires s != ""
    ensures 0 < n <= |s|
  {
    var (mode, k) := Opens(s);
    k + Span(mode, s[k..])
  }

  function Front(prefix: string, pieces: seq<string>): (r: seq<string>)
    requires pieces != []
    ensures |r| == |pieces|
  {
    [prefix + pieces[0]] + pieces[1..]
  }

  /** The text cut at the semicolons that are tokens of their own. */
  function Pieces(s: string): (r: seq<string>)
    ensures r != []
    decreases |s|
  {
    if s == "" then [""]
    else if s[0] == ';' then [""] + Pieces(s[1..])
    else Front(s[..TokenLength(s)], Pieces(s[TokenLength(s)..]))
  }

  function Emit(statements: seq<string>, piece: string): seq<string> {
    if Keeps(Strip(piece)) then statements + [Strip(piece)] else statements
  }

  function Emitted(pieces: seq<string>): seq<string> {
    if pieces == [] then [] else Emit(Emitted(pieces[..|pieces| - 1]), pieces[|pieces| - 1])
  }

  /** What `split_sql` returns. */
  function Statements(sql: string): seq<string> {
    Emitted(Pieces(sql))
  }

  // ---------- the one-pass lexer ----------

  /** One turn of the loop: the mode after it and the characters it takes. */
  function Turn(mode: Mode, s: string): (r: (Mode, nat))
    requires s != "" && (mode.Dollar? ==> mode.tag != "")
    ensures 0 < r.1 <= |s| && (r.0.Dollar? ==> r.0.tag != "")
  {
    match mode
    case Top => Opens(s)
    case LineComment => (if s[0] == '\n' then Top else mode, 1)
    case BlockComment => if "*/" <= s then (Top, 2) else (mode, 1)
    case Quoted(q) => if [q, q] <= s then (mode, 2) else if s[0] == q then (Top, 1) else (mode, 1)
    case Dollar(tag) => if tag <= s then (Top, |tag|) else (mode, 1)
  }

  /** The pieces of the text that follows when the lexer is in `mode`. */
  function Rest(mode: Mode, s: string): (r: seq<string>)
    ensures r != []
  {
    Front(s[..Span(mode, s)], Pieces(s[Span(mode, s)..]))
  }

  lemma FrontFront(a: string, b: string, pieces: seq<string>)
    requires pieces != []
    ensures Front(a, Front(b, pieces)) == Front(a + b, pieces)
  {
    assert a + (b + pieces[0]) == a + b + pieces[0];
  }

  lemma RestTop(s: string)
    ensures Rest(Top, s) == Pieces(s)
  {
    assert s[..0] == "" && s[0..] == s;
    assert "" + Pieces(s)[0] == Pieces(s)[0];
  }

  lemma TakeTake(s: string, k: nat, m: nat)
    requires k + m <= |s|
    ensures s[..k] + s[k..][..m] == s[..k + m] && s[k..][m..] == s[k + m..]
  {
  }

  /** A turn inside a token shortens what is left of it. */
  lemma SpanStep(mode: Mode, s: string)
    requires s != "" && !mode.Top? && (mode.Dollar? ==> mode.tag != "")
    ensures var (next, k) := Turn(mode, s); Span(mode, s) == k + Span(next, s[k..])
  {
  }

  lemma PiecesOfToken(s: string)
    requires s != "" && s[0] != ';'
    ensures Pieces(s) == Front(s[..TokenLength(s)], Pieces(s[TokenLength(s)..]))
  {
    hide TokenLength;
  }

  /** A turn of the loop is a step through a token. */
  lemma TurnStep(mode: Mode, s: string)
    requires s != "" && (mode.Dollar? ==> mode.tag != "") && !(mode.Top? && s[0] == ';')
    ensures var (next, k) := Turn(mode, s);
            Rest(mode, s) == Front(s[..k], Rest(next, s[k..]))
  {
    hide Pieces, Span, Opens;
    var (next, k) := Turn(mode, s);
    var m := Span(next, s[k..]);
    TakeTake(s, k, m);
    FrontFront(s[..k], s[k..][..m], Pieces(s[k + m..]));
    if mode.Top? {
      RestTop(s);
      PiecesOfToken(s);
    } else {
      SpanStep(mode, s);
    }
  }

  lemma Consume(sql: string, i: nat, current: string, mode: Mode)
    requires i < |sql| && (mode.Dollar? ==> mode.tag != "") && !(mode.Top? && sql[i] == ';')
    ensures var (next, k) := Turn(mode, sql[i..]);
            && i + k <= |sql|
            && Front(current, Rest(mode, sql[i..])) == Front(current + sql[i..i + k], Rest(next, sql[i + k..]))
  {
    hide Span, Pieces, Rest, Turn, Front;
    var s := sql[i..];
    var (next, k) := Turn(mode, s);
    TurnStep(mode, s);
    assert s[..k] == sql[i..i + k] && s[k..] == sql[i + k..];
    FrontFront(current, s[..k], Rest(next, s[k..]));
  }

  /** A semicolon at top level ends the piece that `current` holds. */
  lemma Cut(sql: string, i: nat, current: string)
    requires i < |sql| && sql[i] == ';'
    ensures Front(current, Rest(Top, sql[i..])) == [current] + Front("", Rest(Top, sql[i + 1..]))
  {
    hide Span, Rest, TokenLength;
    RestTop(sql[i..]);
    RestTop(sql[i + 1..]);
    assert sql[i..][1..] == sql[i + 1..];
    assert current + "" == current;
    assert "" + Pieces(sql[i + 1..])[0] == Pieces(sql[i + 1..])[0];
  }

  function ModeOf(inDollar: bool, dollarTag: string, inSq: bool, inDq: bool, inLine: bool, inBlock: bool): Mode {
    if inLine then LineComment
    else if inBlock then BlockComment
    else if inSq then Quoted('\'')
    else if inDq then Quoted('"')
    else if inDollar then Dollar(dollarTag)
    else Top
  }

  lemma FrontEmpty(pieces: seq<string>)
    requires pieces != []
    ensures Front("", pieces) == pieces
  {
    assert "" + pieces[0] == pieces[0];
  }

  lemma Start(sql: string)
    ensures [] + Front("", Rest(Top, sql)) == Pieces(sql)
  {
    hide Pieces, Span, Rest, Front;
    RestTop(sql);
    FrontEmpty(Pieces(sql));
  }

  lemma EmittedNone()
    ensures Emitted([]) == []
  {
  }

  lemma EmittedSnoc(raw: seq<string>, piece: string)
    ensures Emitted(raw + [piece]) == Emit(Emitted(raw), piece)
  {
    assert (raw + [piece])[..|raw|] == raw;
  }

  /** The last piece is whatever the lexer still holds, in whatever mode it stops. */
  lemma Finish(current: string, mode: Mode, s: string)
    requires |s| == 0
    ensures Front(current, Rest(mode, s)) == [current]
  {
    hide Pieces, Span, Front;
    NothingLeft(mode, s);
    assert s[..0] == s && s[0..] == s;
    FrontOne(s, s);
    FrontOne(current, s);
  }

  lemma NothingLeft(mode: Mode, s: string)
    requires |s| == 0
    ensures Span(mode, s) == 0 && Pieces(s) == [s]
  {
    hide TokenLength, Front;
  }

  lemma FrontOne(current: string, s: string)
    requires |s| == 0
    ensures Front(current, [s]) == [current]
  {
    assert current + s == current;
  }

  /**
    The loop is at `i`: the pieces cut so far, what is held, and what the rest will give make up the
    pieces of the whole.
   */
  predicate At(sql: string, raw: seq<string>, current: string, mode: Mode, i: nat) {
    i <= |sql| && raw + Front(current, Rest(mode, sql[i..])) == Pieces(sql)
  }

  lemma AtNext(sql: string, raw: seq<string>, current: string, mode: Mode, i: nat, ch: char, nxt: string)
    requires At(sql, raw, current, mode, i) && i < |sql|
    requires (mode.Dollar? ==> mode.tag != "") && !(mode.Top? && sql[i] == ';')
    requires ch == sql[i] && nxt == (if i + 1 < |sql| then sql[i + 1..i + 2] else "")
    ensures var (next, k) := Turn(mode, sql[i..]);
            && i + k <= |sql|
            && At(sql, raw, current + sql[i..i + k], next, i + k)
            && (k == 1 ==> current + sql[i..i + k] == current + [ch])
            && (k == 2 ==> current + sql[i..i + k] == current + [ch] + nxt)
            && sql[i..i + k] == sql[i..][..k]
            && Ahead(sql[i..], ch, nxt)
  {
    hide Span, Pieces, Rest, Turn, Front;
    Consume(sql, i, current, mode);
    LookAhead(sql, i);
  }

  lemma AtCut(sql: string, raw: seq<string>, current: string, i: nat)
    requires At(sql, raw, current, Top, i) && i < |sql| && sql[i] == ';'
    ensures At(sql, raw + [current], "", Top, i + 1)
  {
    hide Span, Pieces, Rest, Front;
    Cut(sql, i, current);
    var rest := Front("", Rest(Top, sql[i + 1..]));
    assert raw + ([current] + rest) == (raw + [current]) + rest;
  }

  lemma AtStart(sql: string)
    ensures At(sql, [], "", Top, 0)
  {
    hide Span, Pieces, Rest, Front;
    assert sql[0..] == sql;
    Start(sql);
  }

  lemma AtEnd(sql: string, raw: seq<string>, current: string, mode: Mode)
    requires At(sql, raw, current, mode, |sql|)
    ensures raw + [current] == Pieces(sql)
  {
    hide Span, Pieces, Rest, Front;
    Finish(current, mode, sql[|sql|..]);
  }

  // A turn of the loop in each mode, in terms of the character at hand and the one after it.

  predicate Ahead(s: string, ch: char, nxt: string) {
    s != "" && ch == s[0] && nxt == (if |s| > 1 then [s[1]] else "")
  }

  lemma LookAhead(sql: string, i: nat)
    requires i < |sql|
    ensures Ahead(sql[i..], sql[i], if i + 1 < |sql| then sql[i + 1..i + 2] else "")
    ensures sql[i..i + 1] == [sql[i]]
    ensures i + 1 < |sql| ==> sql[i..i + 2] == [sql[i]] + sql[i + 1..i + 2]
  {
    if i + 1 < |sql| {
      assert sql[i..][1] == sql[i + 1];
      assert sql[i + 1..i + 2] == [sql[i + 1]];
    }
  }

  lemma TurnInLine(s: string, ch: char, nxt: string)
    requires Ahead(s, ch, nxt)
    ensures Turn(LineComment, s) == (if ch == '\n' then Top else LineComment, 1)
  {
  }

  lemma TurnInBlock(s: string, ch: char, nxt: string)
    requires Ahead(s, ch, nxt)
    ensures Turn(BlockComment, s) == if ch == '*' && nxt == "/" then (Top, 2) else (BlockComment, 1)
  {
    assert "*/" <= s <==> ch == '*' && nxt == "/";
  }

  lemma TurnInQuotes(q: char, s: string, ch: char, nxt: string)
    requires Ahead(s, ch, nxt)
    ensures Turn(Quoted(q), s) == if ch == q && nxt == [q] then (Quoted(q), 2)
                                  else if ch == q then (Top, 1) else (Quoted(q), 1)
  {
    assert [q, q] <= s <==> ch == q && nxt == [q];
  }

  lemma TurnInDollar(tag: string, s: string)
    requires s != "" && tag != ""
    ensures Turn(Dollar(tag), s) == if tag <= s then (Top, |tag|) else (Dollar(tag), 1)
  {
  }

  lemma TurnAtTop(s: string, ch: char, nxt: string)
    requires Ahead(s, ch, nxt)
    ensures Turn(Top, s) == if ch == '-' && nxt == "-" then (LineComment, 2)
                            else if ch == '/' && nxt == "*" then (BlockComment, 2)
                            else if ch == '\'' || ch == '"' then (Quoted(ch), 1)
                            else if TagLength(s) > 0 then (Dollar(s[..TagLength(s)]), TagLength(s))
                            else (Top, 1)
    ensures ch == ';' ==> TagLength(s) == 0
  {
    hide WordLength;
    assert "--" <= s <==> ch == '-' && nxt == "-";
    assert "/*" <= s <==> ch == '/' && nxt == "*";
  }

  method SplitSql(sql: string) returns (statements: seq<string>)
    ensures statements == Statements(sql)
  {
    hide Span, Pieces, Rest, Front, Emit, Emitted, Turn, Opens, TagLength, Ahead, At;
    EmittedNone();
    statements := [];
    var current := "";
    var inDollar, dollarTag := false, "";
    var inSq, inDq, inLine, inBlock := false, false, false, false;
    var n, i := |sql|, 0;
    ghost var raw: seq<string> := [];
    AtStart(sql);
    while i < n
      invariant 0 <= i <= n
      invariant inDollar ==> dollarTag != "" && !inSq && !inDq && !inLine && !inBlock
      invariant inSq ==> !inDq && !inLine && !inBlock
      invariant inDq ==> !inLine && !inBlock
      invariant inLine ==> !inBlock
      invariant statements == Emitted(raw)
      invariant At(sql, raw, current, ModeOf(inDollar, dollarTag, inSq, inDq, inLine, inBlock), i)
    {
      var ch := sql[i];
      var nxt := if i + 1 < n then sql[i + 1..i + 2] else "";
      ghost var mode := ModeOf(inDollar, dollarTag, inSq, inDq, inLine, inBlock);
      ghost var (next, k) := Turn(mode, sql[i..]);
      if !(mode.Top? && ch == ';') { AtNext(sql, raw, current, mode, i, ch, nxt); }
      if inLine {
        TurnInLine(sql[i..], ch, nxt);
        current := current + [ch];
        if ch == '\n' { inLine := false; }
        i := i + 1;
      } else if inBlock {
        TurnInBlock(sql[i..], ch, nxt);
        current := current + [ch];
        if ch == '*' && nxt == "/" {
          current := current + nxt;
          inBlock := false;
          i := i + 2;
        } else {
          i := i + 1;
        }
      } else if inSq {
        TurnInQuotes('\'', sql[i..], ch, nxt);
        current := current + [ch];
        if ch == '\'' && nxt == "'" {
          current := current + nxt;
          i := i + 2;
        } else {
          if ch == '\'' { inSq := false; }
          i := i + 1;
        }
      } else if inDq {
        TurnInQuotes('"', sql[i..], ch, nxt);
        current := current + [ch];
        if ch == '"' && nxt == "\"" {
          current := current + nxt;
          i := i + 2;
        } else {
          if ch == '"' { inDq := false; }
          i := i + 1;
        }
      } else if inDollar {
        TurnInDollar(dollarTag, sql[i..]);
        if dollarTag <= sql[i..] {
          assert sql[i..][..|dollarTag|] == dollarTag;
          current := current + dollarTag;
          i := i + |dollarTag|;
          inDollar, dollarTag := false, "";
        } else {
          current := current + [ch];
          i := i + 1;
        }
      } else if ch == '-' && nxt == "-" {
        TurnAtTop(sql[i..], ch, nxt);
        current := current + [ch] + nxt;
        inLine := true;
        i := i + 2;
      } else if ch == '/' && nxt == "*" {
        TurnAtTop(sql[i..], ch, nxt);
        current := current + [ch] + nxt;
        inBlock := true;
        i := i + 2;
      } else if ch == '\'' {
        TurnAtTop(sql[i..], ch, nxt);
        current := current + [ch];
        inSq := true;
        i := i + 1;
      } else if ch == '"' {
        TurnAtTop(sql[i..], ch, nxt);
        current := current + [ch];
        inDq := true;
        i := i + 1;
      } else {
        LookAhead(sql, i);
        TurnAtTop(sql[i..], ch, nxt);
        var m := TagLength(sql[i..]);
        if m > 0 {
          dollarTag := sql[i..i + m];
          inDollar := true;
          current := current + dollarTag;
          i := i + m;
        } else if ch == ';' {
          AtCut(sql, raw, current, i);
          EmittedSnoc(raw, current);
          raw := raw + [current];
          statements := Emit(statements, current);
          current := "";
          i := i + 1;
        } else {
          current := current + [ch];
          i := i + 1;
        }
      }
    }
    AtEnd(sql, raw, current, ModeOf(inDollar, dollarTag, inSq, inDq, inLine, inBlock));
    EmittedSnoc(raw, current);
    statements := Emit(statements, current);
  }
}
