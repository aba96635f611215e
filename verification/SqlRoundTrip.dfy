/** What the SQL splitter's pieces are: nothing lost, nothing left to cut, and stable when split again. */
module SqlRoundTrip {
  import opened Basics
  import opened SqlSplit

  // ---------- nothing is lost ----------

  lemma JoinFront(prefix: string, pieces: seq<string>, sep: string)
    requires pieces != []
    ensures Join(Front(prefix, pieces), sep) == prefix + Join(pieces, sep)
  {
    assert Front(prefix, pieces)[1..] == pieces[1..];
  }

  // ---------- complete tokens ----------

  /** Whether what ends the mode is there; a line comment may run to the end of the text. */
  predicate Ends(mode: Mode, s: string)
    decreases |s|
  {
    mode.Top? || mode.LineComment? ||
    (s != "" &&
     match mode
     case BlockComment => "*/" <= s || Ends(mode, s[1..])
     case Quoted(q) => if [q, q] <= s then Ends(mode, s[2..]) else s[0] == q || Ends(mode, s[1..])
     case Dollar(tag) => tag <= s || Ends(mode, s[1..])
     case _ => true)
  }

  predicate ClosedToken(s: string)
    requires s != ""
  {
    var (mode, k) := Opens(s);
    Ends(mode, s[k..])
  }

  /** The lexer stops at top level or in a line comment. */
  predicate Closed(s: string)
    decreases |s|
  {
    s == "" || (ClosedToken(s) && Closed(s[TokenLength(s)..]))
  }

  /** Neither a semicolon nor white space is part of an opener or of what ends a mode. */
  predicate Separates(s: string) {
    s == "" || s[0] == ';' || IsSpace(s[0])
  }

  predicate Lexed(mode: Mode) {
    match mode
    case Dollar(tag) => tag != "" && tag[|tag| - 1] == '$'
    case Quoted(q) => q == '\'' || q == '"'
    case _ => true
  }

  lemma {:induction false} WordPrefix(a: string, b: string)
    requires Separates(b)
    ensures WordLength(a + b) == WordLength(a)
  {
    if a == "" {
      assert a + b == b;
    } else {
      assert (a + b)[1..] == a[1..] + b;
      WordPrefix(a[1..], b);
    }
  }

  lemma OpensPrefix(a: string, b: string)
    requires a != "" && Separates(b)
    ensures Opens(a + b) == Opens(a) && Lexed(Opens(a).0)
  {
    assert (a + b)[1..] == a[1..] + b;
    WordPrefix(a[1..], b);
    hide WordLength;
    assert TagLength(a + b) == TagLength(a);
    assert (a + b)[..TagLength(a)] == a[..TagLength(a)];
  }

  lemma {:induction false} EndsLong(tag: string, s: string)
    requires Ends(Dollar(tag), s)
    ensures |tag| <= |s|
    decreases |s|
  {
    if !(tag <= s) {
      EndsLong(tag, s[1..]);
    }
  }

  // A mode that ends inside `a` ends there whatever follows, and whatever followed is cut off.

  lemma {:induction false} BlockPrefix(a: string, b: string)
    requires Separates(b)
    ensures Ends(BlockComment, a) ==> Ends(BlockComment, a + b) && Span(BlockComment, a + b) == Span(BlockComment, a)
    ensures Span(BlockComment, a + b) <= |a| ==>
              Span(BlockComment, a) == Span(BlockComment, a + b) && (b != "" ==> Ends(BlockComment, a))
    decreases |a|
  {
    if b == "" {
      assert a + b == a;
    } else if a != "" && !("*/" <= a) {
      assert (a + b)[1..] == a[1..] + b;
      BlockPrefix(a[1..], b);
    }
  }

  lemma PairPrefix(q: char, a: string, b: string)
    requires (q == '\'' || q == '"') && Separates(b) && a != ""
    ensures [q, q] <= a + b <==> [q, q] <= a
  {
    assert b != "" ==> b[0] != q;
    if |a| == 1 && b != "" {
      assert (a + b)[1] == b[0];
    }
  }

  lemma {:induction false} QuotedPrefix(q: char, a: string, b: string)
    requires q == '\'' || q == '"'
    requires Separates(b)
    ensures Ends(Quoted(q), a) ==> Ends(Quoted(q), a + b) && Span(Quoted(q), a + b) == Span(Quoted(q), a)
    ensures Span(Quoted(q), a + b) <= |a| ==>
              Span(Quoted(q), a) == Span(Quoted(q), a + b) && (b != "" ==> Ends(Quoted(q), a))
    decreases |a|
  {
    if b == "" {
      assert a + b == a;
    } else if a != "" {
      var n := if [q, q] <= a then 2 else 1;
      PairPrefix(q, a, b);
      assert (a + b)[n..] == a[n..] + b;
      QuotedPrefix(q, a[n..], b);
    }
  }

  lemma {:induction false} DollarPrefix(tag: string, a: string, b: string)
    requires tag != ""
    requires Separates(b)
    ensures Ends(Dollar(tag), a) ==> Ends(Dollar(tag), a + b) && Span(Dollar(tag), a + b) == Span(Dollar(tag), a)
    ensures Span(Dollar(tag), a + b) <= |a| ==>
              Span(Dollar(tag), a) == Span(Dollar(tag), a + b) && (b != "" ==> Ends(Dollar(tag), a))
    decreases |a|
  {
    if b == "" {
      assert a + b == a;
    } else if a != "" && !(tag <= a) {
      assert (a + b)[1..] == a[1..] + b;
      DollarPrefix(tag, a[1..], b);
      if Ends(Dollar(tag), a[1..]) {
        EndsLong(tag, a[1..]);
      }
    }
  }

  lemma SpanPrefix(mode: Mode, a: string, b: string)
    requires Separates(b) && Lexed(mode) && !mode.LineComment?
    ensures Ends(mode, a) ==> Ends(mode, a + b) && Span(mode, a + b) == Span(mode, a)
    ensures Span(mode, a + b) <= |a| ==> Span(mode, a) == Span(mode, a + b) && (b != "" ==> Ends(mode, a))
  {
    hide Separates;
    match mode
    case BlockComment => BlockPrefix(a, b);
    case Quoted(q) => QuotedPrefix(q, a, b);
    case Dollar(tag) => DollarPrefix(tag, a, b);
    case Top =>
  }

  /** A line comment runs on until a line feed. */
  lemma {:induction false} LinePrefix(a: string, b: string)
    ensures '\n' in a ==> Span(LineComment, a + b) == Span(LineComment, a) <= |a| && a[Span(LineComment, a) - 1] == '\n'
    ensures '\n' !in a ==> Span(LineComment, a) == |a| && Span(LineComment, a + b) == |a| + Span(LineComment, b)
    decreases |a|
  {
    if a == "" {
      assert a + b == b;
    } else {
      assert (a + b)[1..] == a[1..] + b;
      LinePrefix(a[1..], b);
    }
  }

  predicate OpenLine(a: string)
    requires a != ""
  {
    Opens(a).0.LineComment? && '\n' !in a[2..]
  }

  lemma TokenPrefix(a: string, b: string)
    requires a != "" && Separates(b)
    ensures Opens(a + b) == Opens(a)
    ensures ClosedToken(a) && !OpenLine(a) ==> ClosedToken(a + b) && TokenLength(a + b) == TokenLength(a)
    ensures OpenLine(a) ==> TokenLength(a) == |a| && TokenLength(a + b) == |a| + Span(LineComment, b)
    ensures TokenLength(a + b) <= |a| ==> TokenLength(a) == TokenLength(a + b) && (b != "" ==> ClosedToken(a))
  {
    hide Separates, Span, Ends, Opens;
    OpensPrefix(a, b);
    var (mode, k) := Opens(a);
    LineOpener(a);
    assert (a + b)[k..] == a[k..] + b;
    if mode.LineComment? {
      EndsLine(a[k..]);
      EndsLine(a[k..] + b);
      LinePrefix(a[k..], b);
      if '\n' !in a[k..] { SpanNothing(b); }
    } else {
      SpanPrefix(mode, a[k..], b);
    }
  }

  lemma LineOpener(a: string)
    requires a != ""
    ensures Opens(a).0.LineComment? ==> Opens(a).1 == 2
    ensures Opens(a).0.Top? ==> Opens(a).1 == 1
  {
  }

  lemma EndsLine(s: string)
    ensures Ends(LineComment, s)
  {
  }

  lemma SpanNothing(b: string)
    ensures Span(LineComment, b) == 0 ==> b == ""
  {
  }

  // ---------- nothing is left to cut ----------

  predicate Uncut(s: string) {
    Pieces(s) == [s]
  }

  /** A text the lexer does not cut, and leaves at top level or in a line comment. */
  predicate Whole(s: string) {
    Uncut(s) && Closed(s)
  }

  lemma UncutToken(s: string)
    requires s != ""
    ensures Uncut(s) <==> s[0] != ';' && Uncut(s[TokenLength(s)..])
  {
    var n := TokenLength(s);
    assert s == s[..n] + s[n..];
    hide TokenLength;
    if s[0] == ';' {
      assert Pieces(s) == [""] + Pieces(s[1..]);
      assert Pieces(s)[0] == "";
    } else {
      assert Pieces(s) == Front(s[..n], Pieces(s[n..]));
      if Pieces(s) == [s] {
        assert Pieces(s)[0] == s[..n] + Pieces(s[n..])[0];
        assert s[n..] == Pieces(s[n..])[0];
        assert |Pieces(s[n..])| == 1;
      }
    }
  }

  lemma SingleToken(s: string)
    requires s != "" && (s[0] == ';' || IsSpace(s[0]))
    ensures TokenLength(s) == 1 && ClosedToken(s) && !OpenLine(s)
  {
  }

  lemma PiecesCut(s: string)
    requires s != "" && s[0] == ';'
    ensures Pieces(s) == [""] + Pieces(s[1..])
  {
    hide TokenLength;
  }

  /** The raw pieces, joined with semicolons, give back the input. */
  lemma {:induction false} JoinPieces(s: string)
    ensures Join(Pieces(s), ";") == s
    decreases |s|
  {
    hide Pieces, TokenLength, Closed;
    if s == "" {
      NoPiece(s);
    } else if s[0] == ';' {
      PiecesCut(s);
      JoinPieces(s[1..]);
      assert ([""] + Pieces(s[1..]))[1..] == Pieces(s[1..]);
      assert s == ";" + s[1..];
    } else {
      var n := TokenLength(s);
      PiecesOfToken(s);
      JoinPieces(s[n..]);
      JoinFront(s[..n], Pieces(s[n..]), ";");
    }
  }

  lemma NoPiece(s: string)
    requires |s| == 0
    ensures Pieces(s) == [s] && Closed(s)
  {
    hide TokenLength, ClosedToken;
  }

  /** No piece can be cut again, and only the last, if any, ends inside a token. */
  predicate WholePieces(ps: seq<string>, closed: bool)
    requires ps != []
  {
    && (forall j :: 0 <= j < |ps| ==> Uncut(ps[j]))
    && (forall j :: 0 <= j < |ps| - 1 ==> Closed(ps[j]))
    && (closed ==> Closed(ps[|ps| - 1]))
  }

  lemma {:induction false} PiecesAreWhole(s: string)
    ensures WholePieces(Pieces(s), Closed(s))
    decreases |s|
  {
    hide TokenLength, ClosedToken, Pieces, Closed;
    if s == "" {
      NoPiece(s);
    } else if s[0] == ';' {
      SingleToken(s);
      ClosedNext(s);
      PiecesAreWhole(s[1..]);
      PiecesCut(s);
      NoPiece("");
    } else {
      PiecesAreWhole(s[TokenLength(s)..]);
      PiecesOfToken(s);
      FirstPiece(s);
      ClosedNext(s);
    }
  }

  lemma ClosedNext(s: string)
    requires s != ""
    ensures Closed(s) <==> ClosedToken(s) && Closed(s[TokenLength(s)..])
  {
    hide ClosedToken, TokenLength;
  }

  /** What follows the first piece is a semicolon and the other pieces. */
  lemma FirstTail(s: string)
    ensures Pieces(s)[0] <= s
    ensures |Pieces(s)| > 1 ==> |Pieces(s)[0]| < |s| && s[|Pieces(s)[0]|] == ';'
    ensures |Pieces(s)| == 1 ==> Pieces(s)[0] == s
  {
    hide Pieces;
    JoinPieces(s);
    var p := Pieces(s)[0];
    if |Pieces(s)| > 1 {
      var rest := Join(Pieces(s)[1..], ";");
      assert s == p + ";" + rest;
    }
  }

  lemma FirstPiece(s: string)
    requires s != "" && s[0] != ';'
    requires WholePieces(Pieces(s[TokenLength(s)..]), Closed(s[TokenLength(s)..]))
    ensures Uncut(Pieces(s)[0])
    ensures |Pieces(s)| > 1 ==> Closed(Pieces(s)[0])
    ensures |Pieces(s)| == 1 && Closed(s) ==> Closed(Pieces(s)[0])
  {
    hide TokenLength, ClosedToken, Pieces, Opens, OpenLine, Closed, Uncut;
    var n := TokenLength(s);
    var ps := Pieces(s[n..]);
    var p := s[..n] + ps[0];
    PiecesOfToken(s);
    FirstTail(s[n..]);
    var tail := s[|p|..];
    assert s == p + tail;
    assert p[n..] == ps[0];
    if |ps| == 1 { assert tail == "" && p == s; } else { assert tail[0] == s[n..][|ps[0]|] == ';'; }
    TokenPrefix(p, tail);
    UncutToken(p);
    ClosedNext(p);
  }

  /** Appending a line feed and a semicolon to a whole text ends exactly that text's piece. */
  lemma {:induction false} WholeThenCut(a: string, rest: string)
    requires Whole(a)
    ensures Pieces(a + "\n;" + rest) == [a + "\n"] + Pieces(rest)
    decreases |a|
  {
    hide TokenLength, ClosedToken, Opens, Pieces, Closed, Uncut, OpenLine;
    var t := "\n;" + rest;
    assert a + "\n;" + rest == a + t;
    FeedThenCut(t, rest);
    if a == "" {
      assert a + t == t && a + "\n" == "\n";
    } else {
      var n := TokenLength(a + t);
      UncutToken(a);
      ClosedNext(a);
      TokenPrefix(a, t);
      assert (a + t)[0] == a[0];
      PiecesOfToken(a + t);
      if OpenLine(a) {
        assert (a + t)[..n] == a + "\n" && (a + t)[n..] == t[1..];
        assert a + "\n" + "" == a + "\n";
      } else {
        assert a[n..] + t == a[n..] + "\n;" + rest;
        assert (a + t)[..n] == a[..n] && (a + t)[n..] == a[n..] + t;
        WholeThenCut(a[n..], rest);
        assert a[..n] + (a[n..] + "\n") == a + "\n";
      }
    }
  }

  lemma FeedThenCut(t: string, rest: string)
    requires t == "\n;" + rest
    ensures Separates(t) && Span(LineComment, t) == 1
    ensures Pieces(t[1..]) == [""] + Pieces(rest)
    ensures Pieces(t) == ["\n"] + Pieces(rest)
  {
    hide TokenLength, Pieces;
    LineOnce(t);
    SingleToken(t);
    assert t[1..] == ";" + rest && t[1..][1..] == rest;
    PiecesCut(t[1..]);
    PiecesOfToken(t);
    assert t[..1] == "\n" && "\n" + "" == "\n";
  }

  lemma LineOnce(t: string)
    requires t != "" && t[0] == '\n'
    ensures Span(LineComment, t) == 1
  {
  }

  // ---------- white space at the ends of a piece ----------

  lemma {:induction false} EndsNotInSpace(mode: Mode, y: string)
    requires (mode.BlockComment? || mode.Quoted? || mode.Dollar?) && Lexed(mode)
    requires Ends(mode, y) && Span(mode, y) == |y|
    ensures y != "" && !IsSpace(y[|y| - 1])
    decreases |y|
  {
    match mode
    case BlockComment => if !("*/" <= y) { EndsNotInSpace(mode, y[1..]); }
    case Quoted(q) =>
      if [q, q] <= y { EndsNotInSpace(mode, y[2..]); } else if y[0] != q { EndsNotInSpace(mode, y[1..]); }
    case Dollar(tag) => if !(tag <= y) { EndsNotInSpace(mode, y[1..]); }
  }

  lemma {:induction false} Unended(mode: Mode, y: string)
    ensures !Ends(mode, y) ==> Span(mode, y) == |y|
    decreases |y|
  {
    if y != "" {
      Unended(mode, y[1..]);
      if |y| > 1 { Unended(mode, y[2..]); }
    }
  }

  /** The token that reaches the space at the end of a text still reaches the end without it. */
  lemma LastToken(q: string, w: char)
    requires q != "" && IsSpace(w) && TokenLength(q + [w]) == |q| + 1
    ensures TokenLength(q) == |q|
    ensures ClosedToken(q + [w]) ==> ClosedToken(q)
  {
    hide Ends, Span, Opens;
    var (mode, k) := Opens(q);
    OpensPrefix(q, [w]);
    TokenPrefix(q, [w]);
    var y := (q + [w])[k..];
    assert y[|y| - 1] == w;
    LineOpener(q);
    EndsLine(q[k..]);
    Unended(mode, q[k..]);
    SpanTop(y);
    assert y == q[k..] + [w];
    LinePrefix(q[k..], [w]);
    if !OpenLine(q) && ClosedToken(q + [w]) {
      if mode.LineComment? {
        assert false;
      } else {
        EndsNotInSpace(mode, y);
      }
    }
  }

  lemma SpanTop(s: string)
    ensures Span(Top, s) == 0
  {
  }

  lemma {:induction false} TrimRight(q: string, w: char)
    requires IsSpace(w)
    ensures Uncut(q + [w]) ==> Uncut(q)
    ensures Closed(q + [w]) ==> Closed(q)
    decreases |q|
  {
    hide TokenLength, ClosedToken, Opens, IsSpace, Pieces;
    if q == "" {
      NoPiece(q);
    } else {
      var s := q + [w];
      var n := TokenLength(s);
      UncutToken(s);
      UncutToken(q);
      if n <= |q| {
        assert Separates([w]);
        TokenPrefix(q, [w]);
        assert s[n..] == q[n..] + [w];
        TrimRight(q[n..], w);
      } else {
        LastToken(q, w);
        NoPiece(q[|q|..]);
      }
    }
  }

  lemma {:induction false} RStripWhole(s: string)
    ensures Uncut(s) ==> Uncut(RStrip(s))
    ensures Closed(s) ==> Closed(RStrip(s))
    decreases |s|
  {
    hide Uncut, Closed, IsSpace;
    if s != "" && IsSpace(s[|s| - 1]) {
      var q := s[..|s| - 1];
      assert s == q + [s[|s| - 1]];
      TrimRight(q, s[|s| - 1]);
      RStripWhole(q);
    }
  }

  lemma {:induction false} LStripWhole(s: string)
    ensures Uncut(s) ==> Uncut(LStrip(s))
    ensures Closed(s) ==> Closed(LStrip(s))
    decreases |s|
  {
    hide Uncut, TokenLength, ClosedToken, IsSpace;
    if s != "" && IsSpace(s[0]) {
      SingleToken(s);
      UncutToken(s);
      LStripWhole(s[1..]);
    }
  }

  predicate Bare(s: string) {
    s == "" || (!IsSpace(s[0]) && !IsSpace(s[|s| - 1]))
  }

  lemma {:induction false} LStripBare(s: string)
    ensures LStrip(s) == "" || !IsSpace(LStrip(s)[0])
    decreases |s|
  {
    if s != "" && IsSpace(s[0]) { LStripBare(s[1..]); }
  }

  lemma {:induction false} RStripBare(s: string)
    ensures RStrip(s) <= s
    ensures RStrip(s) == "" || !IsSpace(RStrip(s)[|RStrip(s)| - 1])
    decreases |s|
  {
    if s != "" && IsSpace(s[|s| - 1]) { RStripBare(s[..|s| - 1]); }
  }

  lemma StripBare(s: string)
    ensures Bare(Strip(s))
  {
    LStripBare(s);
    RStripBare(LStrip(s));
  }

  lemma StripOfBare(st: string)
    requires Bare(st)
    ensures Strip(st) == st && (st != "" ==> Strip(st + "\n") == st)
  {
    if st != "" {
      assert (st + "\n")[|st|] == '\n' && (st + "\n")[..|st|] == st;
    }
  }

  // ---------- splitting again ----------

  /** A statement that splits to itself. */
  predicate Settled(st: string) {
    Uncut(st) && Bare(st) && Keeps(st)
  }

  predicate AllSettled(sts: seq<string>) {
    forall j :: 0 <= j < |sts| ==> Settled(sts[j])
  }

  predicate AllClosed(sts: seq<string>) {
    forall j :: 0 <= j < |sts| ==> Closed(sts[j])
  }

  predicate AllUncut(sts: seq<string>) {
    forall j :: 0 <= j < |sts| ==> Uncut(sts[j])
  }

  lemma {:induction false} EmittedSettled(ps: seq<string>)
    requires AllUncut(ps)
    ensures AllSettled(Emitted(ps))
    ensures AllClosed(ps) ==> AllClosed(Emitted(ps))
  {
    hide Uncut, Closed, Keeps, Bare, Strip;
    if ps != [] {
      var k := |ps| - 1;
      EmittedSettled(ps[..k]);
      StripWhole(ps[k]);
      StripBare(ps[k]);
    }
  }

  lemma StripWhole(s: string)
    ensures Uncut(s) ==> Uncut(Strip(s))
    ensures Closed(s) ==> Closed(Strip(s))
  {
    hide Uncut, Closed;
    LStripWhole(s);
    RStripWhole(LStrip(s));
  }

  lemma {:induction false} EmittedCons(p: string, ps: seq<string>)
    ensures Emitted([p] + ps) == Emit([], p) + Emitted(ps)
    decreases |ps|
  {
    hide Keeps, Strip;
    if ps == [] {
      assert ([p] + ps)[..0] == [];
    } else {
      var k := |ps| - 1;
      assert ([p] + ps)[..k + 1] == [p] + ps[..k];
      EmittedCons(p, ps[..k]);
    }
  }

  /** Settled statements, all but the last closed, are what their joined text splits into. */
  lemma {:induction false} JoinedSettled(sts: seq<string>)
    requires AllSettled(sts)
    requires sts == [] || AllClosed(sts[..|sts| - 1])
    ensures Statements(Join(sts, "\n;")) == sts
  {
    hide Closed, Keeps, Bare, Strip, Pieces, Emitted;
    if sts == [] {
      NoStatement("");
    } else {
      var st := sts[0];
      assert Settled(st);
      NotEmpty(st);
      StripOfBare(st);
      if |sts| == 1 {
        OneStatement(st);
      } else {
        var rest := sts[1..];
        assert rest[..|rest| - 1] == sts[1..|sts| - 1];
        JoinedSettled(rest);
        assert Closed(sts[..|sts| - 1][0]);
        WholeThenCut(st, Join(rest, "\n;"));
        EmittedCons(st + "\n", Pieces(Join(rest, "\n;")));
      }
    }
  }

  lemma NotEmpty(st: string)
    requires Keeps(st)
    ensures st != ""
  {
  }

  lemma NoStatement(s: string)
    requires |s| == 0
    ensures Statements(s) == []
  {
    hide TokenLength;
    StripOfBare(s);
    assert SplitLines(s) == [];
    assert !Keeps(s);
    assert Pieces(s) == [s];
    EmittedNone();
    EmittedSnoc([], s);
    assert [] + [s] == [s];
  }

  lemma OneStatement(st: string)
    requires Uncut(st) && Strip(st) == st && Keeps(st)
    ensures Statements(st) == [st]
  {
    hide Keeps, Strip, Pieces;
    EmittedNone();
    EmittedSnoc([], st);
    assert [] + [st] == [st];
  }

  /** Joining the statements and splitting again returns the same statements, for every input. */
  lemma SplitAgain(sql: string)
    ensures Statements(Join(Statements(sql), "\n;")) == Statements(sql)
  {
    hide Uncut, Closed, Keeps, Bare, Strip, Pieces;
    var ps := Pieces(sql);
    var k := |ps| - 1;
    PiecesAreWhole(sql);
    assert forall j :: 0 <= j < |ps| ==> Uncut(ps[j]);
    assert AllUncut(ps) && AllUncut(ps[..k]) && AllClosed(ps[..k]);
    EmittedSettled(ps);
    EmittedSettled(ps[..k]);
    var sts := Emitted(ps);
    if sts != [] {
      assert sts[..|sts| - 1] <= Emitted(ps[..k]);
    }
    JoinedSettled(sts);
  }

  // ---------- what is dropped ----------

  /** Nothing but white space and line comments. */
  predicate Blank(s: string)
    decreases |s|
  {
    s == "" || ((IsSpace(s[0]) || "--" <= s) && Blank(s[TokenLength(s)..]))
  }

  /** "\n" is the only line break in the text. */
  predicate FeedsOnly(s: string) {
    forall i :: 0 <= i < |s| && IsLineBreak(s[i]) ==> s[i] == '\n'
  }

  predicate CodeIn(lines: seq<string>) {
    exists i :: 0 <= i < |lines| && IsCode(lines[i])
  }

  lemma CodeCons(line: string, lines: seq<string>)
    ensures CodeIn([line] + lines) <==> IsCode(line) || CodeIn(lines)
  {
    hide IsCode;
    if IsCode(line) { assert ([line] + lines)[0] == line; }
    if i :| 0 <= i < |lines| && IsCode(lines[i]) { assert ([line] + lines)[i + 1] == lines[i]; }
    if i :| 0 <= i < |[line] + lines| && IsCode(([line] + lines)[i]) {
      assert i > 0 ==> lines[i - 1] == ([line] + lines)[i];
    }
  }

  lemma CodeOfSpace(line: string)
    requires line != "" && IsSpace(line[0])
    ensures IsCode(line) <==> IsCode(line[1..])
  {
  }

  lemma KeepsLines(s: string)
    ensures Keeps(s) <==> CodeIn(SplitLines(s))
  {
    hide IsCode, SplitLines;
  }

  lemma Lines(s: string)
    requires s != ""
    ensures var n := LineLength(s);
            SplitLines(s) == if n == |s| then [s]
                             else [s[..n]] + SplitLines(s[n + (if "\r\n" <= s[n..] then 2 else 1)..])
    ensures LineLength(s) < |s| ==> IsLineBreak(s[LineLength(s)])
    decreases |s|
  {
    if !IsLineBreak(s[0]) && |s| > 1 { Lines(s[1..]); }
  }

  /** Leading white space makes no difference to whether a text is kept. */
  lemma KeepsSpace(s: string)
    requires s != "" && IsSpace(s[0])
    ensures Keeps(s) <==> Keeps(s[1..])
  {
    hide IsCode, CodeIn, SplitLines, Keeps;
    KeepsLines(s);
    KeepsLines(s[1..]);
    NoCode("");
    Lines(s);
    var t := s[1..];
    var n := LineLength(s);
    if t != "" { Lines(t); }
    if IsLineBreak(s[0]) {
      var k := if "\r\n" <= s then 2 else 1;
      assert s[0..] == s;
      assert s[..0] == "";
      CodeCons("", SplitLines(s[k..]));
      if k == 2 {
        assert t[..0] == "" && t[0..] == t && t[1..] == s[2..];
        CodeCons("", SplitLines(t[1..]));
      }
    } else {
      CodeOfSpace(s[..n]);
      assert s[..n][1..] == t[..n - 1];
      CodeCons(s[..n], []);
      CodeCons(t[..n - 1], []);
      assert [s[..n]] + [] == [s[..n]] && [t[..n - 1]] + [] == [t[..n - 1]];
      if n == |s| {
        assert s[..n] == s && t[..n - 1] == t;
      } else {
        var k := n + (if "\r\n" <= s[n..] then 2 else 1);
        assert t[n - 1..] == s[n..] && t[k - 1..] == s[k..];
        CodeCons(s[..n], SplitLines(s[k..]));
        CodeCons(t[..n - 1], SplitLines(s[k..]));
      }
    }
  }

  lemma NoCode(s: string)
    requires |s| == 0
    ensures !IsCode(s) && SplitLines(s) == [] && !CodeIn([]) && !Keeps(s)
  {
  }

  lemma {:induction false} RStripKeeps(line: string, k: nat)
    requires k < |line| && !IsSpace(line[k])
    ensures |RStrip(line)| > k
    decreases |line|
  {
    if IsSpace(line[|line| - 1]) { RStripKeeps(line[..|line| - 1], k); }
  }

  lemma SolidLine(line: string)
    requires line != "" && !IsSpace(line[0])
    ensures IsCode(line) <==> !("--" <= line)
  {
    RStripBare(line);
    RStripKeeps(line, 0);
    if "--" <= line { RStripKeeps(line, 1); }
    var r := RStrip(line);
    assert r[0] == line[0] && (|r| > 1 ==> r[1] == line[1]);
  }

  /** After a line feed a new line starts. */
  lemma {:induction false} KeepsAfter(s: string, n: nat)
    requires 0 < n <= |s| && s[n - 1] == '\n'
    ensures Keeps(s[n..]) ==> Keeps(s)
    decreases |s|
  {
    hide IsCode, CodeIn, SplitLines, Keeps;
    KeepsLines(s);
    Lines(s);
    LineStops(s, n - 1);
    var k := LineLength(s);
    var m := k + (if "\r\n" <= s[k..] then 2 else 1);
    assert s[k..][0] == s[k];
    KeepsLines(s[m..]);
    CodeCons(s[..k], SplitLines(s[m..]));
    if m < n {
      DropDrop(s, m, n);
      KeepsAfter(s[m..], n - m);
    }
  }

  lemma DropDrop(s: string, m: nat, n: nat)
    requires m < n <= |s|
    ensures s[m..][n - m..] == s[n..] && s[m..][n - m - 1] == s[n - 1]
  {
  }

  lemma {:induction false} LineStops(s: string, k: nat)
    requires k < |s| && IsLineBreak(s[k])
    ensures LineLength(s) <= k
  {
    if k > 0 && !IsLineBreak(s[0]) { LineStops(s[1..], k - 1); }
  }

  lemma {:induction false} FeedLine(s: string)
    requires FeedsOnly(s)
    ensures var n := LineLength(s); Span(LineComment, s) == if n == |s| then n else n + 1
  {
    if s != "" {
      assert forall i :: 0 <= i < |s| - 1 ==> s[1..][i] == s[i + 1];
      FeedLine(s[1..]);
    }
  }

  lemma CommentLine(s: string)
    requires "--" <= s
    ensures TokenLength(s) == 2 + Span(LineComment, s[2..]) == Span(LineComment, s)
    ensures TokenLength(s) == |s| || s[TokenLength(s) - 1] == '\n'
  {
    hide Span;
    SpanNext(s);
    SpanNext(s[1..]);
    assert s[1..][1..] == s[2..];
    EndsAtFeed(s);
  }

  lemma SpanNext(s: string)
    requires s != "" && s[0] != '\n'
    ensures Span(LineComment, s) == 1 + Span(LineComment, s[1..])
  {
  }

  lemma {:induction false} EndsAtFeed(s: string)
    requires s != ""
    ensures Span(LineComment, s) > 0
    ensures Span(LineComment, s) == |s| || s[Span(LineComment, s) - 1] == '\n'
  {
    if |s| > 1 { EndsAtFeed(s[1..]); }
  }

  /** A comment at the start of a text makes no difference to whether it is kept, unless it holds other line breaks. */
  lemma KeepsComment(s: string)
    requires "--" <= s
    ensures Keeps(s[TokenLength(s)..]) ==> Keeps(s)
    ensures FeedsOnly(s) ==> (Keeps(s) <==> Keeps(s[TokenLength(s)..]))
  {
    hide IsCode, CodeIn, SplitLines, Keeps, TokenLength, Span;
    CommentLine(s);
    NoCode("");
    var n := TokenLength(s);
    if n == |s| { assert s[n..] == ""; }
    if s[n - 1] == '\n' { KeepsAfter(s, n); }
    if FeedsOnly(s) {
      FeedLine(s);
      Lines(s);
      KeepsLines(s);
      var k := LineLength(s);
      CommentStart(s);
      SolidLine(s[..k]);
      KeepsLines(s[n..]);
      CodeCons(s[..k], []);
      assert [s[..k]] + [] == [s[..k]];
      if k == |s| {
        assert s[..k] == s;
      } else {
        assert s[k..][0] == s[k];
        CodeCons(s[..k], SplitLines(s[n..]));
      }
    }
  }

  lemma CommentStart(s: string)
    requires "--" <= s
    ensures "--" <= s[..LineLength(s)]
  {
    assert LineLength(s) == 1 + LineLength(s[1..]) && LineLength(s[1..]) == 1 + LineLength(s[1..][1..]);
  }

  /** A text that is not kept is only white space and line comments. */
  lemma {:induction false} UnkeptIsBlank(s: string)
    ensures !Keeps(s) ==> Blank(s)
    ensures FeedsOnly(s) && Blank(s) ==> !Keeps(s)
    decreases |s|
  {
    hide Keeps, TokenLength, IsSpace;
    if s == "" {
      NoCode(s);
    } else {
      var n := TokenLength(s);
      assert FeedsOnly(s) ==> FeedsOnly(s[n..]) by {
        assert forall i :: 0 <= i < |s| - n ==> s[n..][i] == s[i + n];
      }
      UnkeptIsBlank(s[n..]);
      if IsSpace(s[0]) {
        SingleToken(s);
        KeepsSpace(s);
      } else if "--" <= s {
        KeepsComment(s);
      } else {
        SolidKept(s);
      }
    }
  }

  lemma SolidKept(s: string)
    requires s != "" && !IsSpace(s[0]) && !("--" <= s)
    ensures Keeps(s)
  {
    hide IsCode, CodeIn, SplitLines, Keeps;
    Lines(s);
    KeepsLines(s);
    var n := LineLength(s);
    SolidLine(s[..n]);
    CodeCons(s[..n], []);
    assert [s[..n]] + [] == [s[..n]];
    if n == |s| {
      assert s[..n] == s;
    } else {
      CodeCons(s[..n], SplitLines(s[n + (if "\r\n" <= s[n..] then 2 else 1)..]));
    }
  }

  lemma {:induction false} BlankSnoc(q: string, w: char)
    requires IsSpace(w)
    ensures Blank(q + [w]) <==> Blank(q)
    decreases |q|
  {
    hide TokenLength, ClosedToken, Opens, IsSpace, OpenLine;
    var s := q + [w];
    var n := TokenLength(s);
    assert Separates([w]);
    if q == "" {
      SingleToken(s);
      assert Blank(s[1..]);
    } else {
      assert "--" <= s <==> "--" <= q by { assert |q| == 1 ==> s[1] == w; SpaceIsNoDash(w); }
      TokenPrefix(q, [w]);
      if n <= |q| {
        assert s[n..] == q[n..] + [w];
        BlankSnoc(q[n..], w);
      } else {
        LastToken(q, w);
        assert s[n..] == "" && q[|q|..] == "";
      }
    }
  }

  lemma SpaceIsNoDash(w: char)
    requires IsSpace(w)
    ensures w != '-'
  {
  }

  lemma {:induction false} BlankStrip(s: string)
    ensures Blank(LStrip(s)) <==> Blank(s)
    ensures Blank(RStrip(s)) <==> Blank(s)
    decreases |s|
  {
    hide IsSpace, TokenLength;
    if s != "" {
      if IsSpace(s[0]) {
        SingleToken(s);
        BlankStrip(s[1..]);
      }
      var k := |s| - 1;
      if IsSpace(s[k]) {
        assert s == s[..k] + [s[k]];
        BlankSnoc(s[..k], s[k]);
        BlankStrip(s[..k]);
      }
    }
  }

  // ---------- exactly what is dropped ----------

  /** White space and line comments, where any line break ends a comment. */
  predicate Quiet(s: string)
    decreases |s|
  {
    s == "" || (IsSpace(s[0]) && Quiet(s[1..]))
        || ("--" <= s && Quiet(s[if LineLength(s) > 0 then LineLength(s) else 1..]))
  }

  lemma QuietCases(s: string)
    requires s != ""
    ensures IsSpace(s[0]) ==> (Quiet(s) <==> Quiet(s[1..]))
    ensures "--" <= s ==> LineLength(s) >= 2 && (Quiet(s) <==> Quiet(s[LineLength(s)..]))
    ensures !IsSpace(s[0]) && !("--" <= s) ==> !Quiet(s)
  {
    if "--" <= s { CommentStart(s); }
  }

  /** The first line of a comment makes no difference to whether the text is kept. */
  lemma KeepsFirstLine(s: string)
    requires "--" <= s
    ensures Keeps(s) <==> Keeps(s[LineLength(s)..])
  {
    hide IsCode, CodeIn, SplitLines, Keeps;
    var n := LineLength(s);
    CommentStart(s);
    Lines(s);
    KeepsLines(s);
    SolidLine(s[..n]);
    if n == |s| {
      NoCode(s[n..]);
      CodeCons(s[..n], []);
      assert [s[..n]] + [] == [s[..n]] && s[..n] == s;
      NoCode("");
    } else {
      var t := s[n..];
      var k := if "\r\n" <= t then 2 else 1;
      assert t[0] == s[n];
      BreakFirst(t);
      assert t[k..] == s[n + k..];
      CodeCons(s[..n], SplitLines(s[n + k..]));
      CodeCons("", SplitLines(t[k..]));
      KeepsLines(t);
      NoCode("");
    }
  }

  lemma BreakFirst(t: string)
    requires t != "" && IsLineBreak(t[0])
    ensures SplitLines(t) == [""] + SplitLines(t[if "\r\n" <= t then 2 else 1..])
  {
    Lines(t);
    assert t[0..] == t && t[..0] == "";
  }

  /** A text is kept exactly if something in it is neither white space nor in a comment that any line break ends. */
  lemma {:induction false} KeepsIff(s: string)
    ensures Keeps(s) <==> !Quiet(s)
    decreases |s|
  {
    hide Keeps, Quiet, IsSpace;
    if s == "" {
      NoCode(s);
      assert Quiet(s) by { NothingQuiet(s); }
    } else {
      QuietCases(s);
      if IsSpace(s[0]) {
        KeepsSpace(s);
        KeepsIff(s[1..]);
      } else if "--" <= s {
        KeepsFirstLine(s);
        KeepsIff(s[LineLength(s)..]);
      } else {
        SolidKept(s);
      }
    }
  }

  lemma NothingQuiet(s: string)
    requires |s| == 0
    ensures Quiet(s)
  {
  }

  lemma {:induction false} LineSnoc(q: string, w: char)
    ensures LineLength(q) < |q| ==> LineLength(q + [w]) == LineLength(q)
    ensures LineLength(q) == |q| ==> LineLength(q + [w]) == if IsLineBreak(w) then |q| else |q| + 1
  {
    if q != "" && !IsLineBreak(q[0]) {
      assert (q + [w])[1..] == q[1..] + [w];
      LineSnoc(q[1..], w);
    }
  }

  lemma {:induction false} QuietSnoc(q: string, w: char)
    requires IsSpace(w)
    ensures Quiet(q + [w]) <==> Quiet(q)
    decreases |q|
  {
    hide Quiet, IsSpace;
    var s := q + [w];
    NothingQuiet("");
    QuietCases(s);
    if q == "" {
      assert s[1..] == "";
      NothingQuiet(q);
    } else {
      assert s[1..] == q[1..] + [w];
      QuietCases(q);
      SpaceIsNoDash(w);
      assert "--" <= s <==> "--" <= q by { assert |q| == 1 ==> s[1] == w; }
      if IsSpace(q[0]) {
        QuietSnoc(q[1..], w);
      } else if "--" <= q {
        QuietAfterLine(q, w);
      }
    }
  }

  lemma QuietAfterLine(q: string, w: char)
    requires IsSpace(w) && "--" <= q
    ensures LineLength(q) >= 2
    ensures LineLength(q) < |q| ==> (q + [w])[LineLength(q + [w])..] == q[LineLength(q)..] + [w]
    ensures Quiet((q + [w])[LineLength(q + [w])..]) <==> Quiet(q[LineLength(q)..])
    decreases |q|, 0
  {
    hide Quiet, IsSpace;
    var s := q + [w];
    var n := LineLength(q);
    CommentStart(q);
    LineSnoc(q, w);
    NothingQuiet("");
    if n < |q| {
      assert s[n..] == q[n..] + [w];
      QuietSnoc(q[n..], w);
    } else {
      assert q[n..] == "";
      if IsLineBreak(w) {
        assert s[n..] == [w];
        QuietCases([w]);
        assert [w][1..] == "";
      } else {
        assert s[n + 1..] == "";
      }
    }
  }

  lemma {:induction false} QuietRStrip(s: string)
    ensures Quiet(RStrip(s)) <==> Quiet(s)
    decreases |s|
  {
    hide Quiet, IsSpace;
    if s != "" && IsSpace(s[|s| - 1]) {
      var q := s[..|s| - 1];
      assert s == q + [s[|s| - 1]];
      QuietSnoc(q, s[|s| - 1]);
      QuietRStrip(q);
    }
  }

  lemma {:induction false} QuietLStrip(s: string)
    ensures Quiet(LStrip(s)) <==> Quiet(s)
    decreases |s|
  {
    hide Quiet, IsSpace;
    if s != "" && IsSpace(s[0]) {
      QuietCases(s);
      QuietLStrip(s[1..]);
    }
  }

  /** A piece is dropped exactly if it is quiet; then it is only white space and line comments. */
  lemma DroppedPiece(piece: string)
    ensures Emit([], piece) == [] <==> Quiet(piece)
    ensures Emit([], piece) == [] ==> Blank(piece)
    ensures FeedsOnly(piece) ==> (Emit([], piece) == [] <==> Blank(piece))
  {
    hide Keeps, Blank, Quiet, LStrip, RStrip, FeedsOnly;
    StripFeeds(piece);
    KeepsIff(Strip(piece));
    QuietLStrip(piece);
    QuietRStrip(LStrip(piece));
    UnkeptIsBlank(Strip(piece));
    BlankOfStrip(piece);
  }

  lemma BlankOfStrip(s: string)
    ensures Blank(Strip(s)) <==> Blank(s)
  {
    hide Blank;
    BlankStrip(s);
    BlankStrip(LStrip(s));
  }

  lemma {:induction false} LStripFeeds(s: string)
    ensures FeedsOnly(s) ==> FeedsOnly(LStrip(s))
  {
    if s != "" && IsSpace(s[0]) {
      assert forall i :: 0 <= i < |s| - 1 ==> s[1..][i] == s[i + 1];
      LStripFeeds(s[1..]);
    }
  }

  lemma StripFeeds(s: string)
    ensures FeedsOnly(s) ==> FeedsOnly(Strip(s))
  {
    LStripFeeds(s);
    RStripBare(LStrip(s));
  }

  /**
    The lexer ends a line comment at a line feed only, `splitlines` ends a line at others too, such
    as a form feed: a piece that is a single comment with text behind such a break is kept.
   */
  lemma CommentKept(b: char, piece: string)
    requires IsLineBreak(b) && b != '\n' && piece == "--" + [b] + "x"
    ensures Blank(piece) && TokenLength(piece) == |piece|
    ensures !Quiet(piece) && Emit([], piece) == [piece]
  {
    hide Keeps, TokenLength, Span, Opens, Emit, Quiet, IsSpace, FeedsOnly;
    CommentLine(piece);
    assert piece[TokenLength(piece) - 1] != '\n';
    assert piece[|piece|..] == "";
    assert Blank("");
    CommentNotQuiet(b, piece);
    DroppedPiece(piece);
    BareComment(b, piece);
    KeptAsItIs(piece);
  }

  lemma BareComment(b: char, piece: string)
    requires piece == "--" + [b] + "x"
    ensures Bare(piece)
  {
    assert piece[0] == '-' && piece[|piece| - 1] == 'x';
  }

  lemma CommentNotQuiet(b: char, piece: string)
    requires IsLineBreak(b) && piece == "--" + [b] + "x"
    ensures !Quiet(piece)
  {
    hide Quiet;
    LineStops(piece, 2);
    QuietCases(piece);
    var rest := piece[2..];
    assert rest == [b] + "x" && rest[1..] == "x";
    QuietCases(rest);
    QuietCases("x");
  }

  lemma KeptAsItIs(piece: string)
    requires Bare(piece) && Emit([], piece) != []
    ensures Emit([], piece) == [piece]
  {
    hide Keeps;
    StripOfBare(piece);
  }

  /** A form feed survives reading the file, as a carriage return does not. */
  lemma FormFeedKept(piece: string)
    requires piece == "--" + ['\U{0c}'] + "x"
    ensures Blank(piece) && Emit([], piece) == [piece]
  {
    hide Blank, Emit, Quiet, TokenLength;
    CommentKept('\U{0c}', piece);
  }
}
