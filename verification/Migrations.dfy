/**
  The migration runner: pending files run one transaction each, and a ledger row is committed with
  every file's statements. Any call may fail, and a commit may fail after it took effect.
 */
module Migrations {
  import opened SqlSplit

  /** A migration file; its version is the number its name starts with. */
  datatype File = File(name: string, version: nat, content: string)

  /** The ledger's checksums by file name, and every statement in effect, in the order they ran. */
  datatype Store = Store(ledger: map<string, string>, history: seq<string>)

  /** What goes wrong at a call; `Late` is a commit that took effect before its connection was lost. */
  datatype Fault = None | Fails | Late

  datatype Outcome = Done | UnknownApplied(names: set<string>) | Mismatch(name: string) | Failed

  // ---------- a file's statements ----------

  /** The length of the leading white space up to and including its last line feed. */
  function LastFeed(s: string): (n: nat)
    ensures n <= |s|
  {
    if s == "" || !IsSpace(s[0]) then 0
    else
      var m := LastFeed(s[1..]);
      if m > 0 then m + 1 else if s[0] == '\n' then 1 else 0
  }

  /** The file without its "-- upgrade" line. */
  function Body(content: string): string {
    var k := |"-- upgrade"|;
    if "-- upgrade" <= content && LastFeed(content[k..]) > 0 then content[k + LastFeed(content[k..])..] else content
  }

  lemma FeedInSpace(s: string)
    requires LastFeed(s) > 0
    ensures s != "" && IsSpace(s[0]) && LastFeed(s[1..]) >= LastFeed(s) - 1
  {
  }

  lemma {:induction false} SpacesUpFront(s: string, n: nat)
    requires n <= LastFeed(s)
    ensures Pieces(s) == Front(s[..n], Pieces(s[n..]))
    decreases n
  {
    hide Pieces, Front, IsSpace, LastFeed;
    if n == 0 {
      assert s[..0] == "" && s[0..] == s;
      FrontEmpty(Pieces(s));
    } else {
      FeedInSpace(s);
      SingleSpace(s);
      SpacesUpFront(s[1..], n - 1);
      TakeTake(s, 1, n - 1);
      FrontFront(s[..1], s[1..][..n - 1], Pieces(s[n..]));
    }
  }

  lemma SpaceToken(s: string)
    requires s != "" && IsSpace(s[0])
    ensures s[0] != ';' && TokenLength(s) == 1
  {
    hide WordLength;
  }

  lemma SingleSpace(s: string)
    requires s != "" && IsSpace(s[0])
    ensures Pieces(s) == Front(s[..1], Pieces(s[1..]))
  {
    hide Pieces, Front, IsSpace, TokenLength;
    SpaceToken(s);
    PiecesOfToken(s);
  }

  /** White space that holds a line feed ends a line comment at its first one. */
  lemma {:induction false} CommentEnds(s: string)
    requires LastFeed(s) > 0
    ensures 0 < Span(LineComment, s) <= LastFeed(s)
    ensures LastFeed(s[Span(LineComment, s)..]) == LastFeed(s) - Span(LineComment, s)
  {
    if s[0] == '\n' {
      assert LastFeed(s) == 1 + LastFeed(s[1..]);
    } else {
      CommentEnds(s[1..]);
      assert s[1..][Span(LineComment, s[1..])..] == s[Span(LineComment, s)..];
    }
  }

  lemma HeaderToken(content: string)
    requires "-- upgrade" <= content && LastFeed(content[10..]) > 0
    ensures TokenLength(content) == 10 + Span(LineComment, content[10..])
  {
    assert content[0] == '-' && content[1] == '-' && content[2..10] == " upgrade";
    CommentSkips(content, 2);
  }

  lemma {:induction false} CommentSkips(s: string, i: nat)
    requires 2 <= i <= 10 <= |s| && '\n' !in s[2..10]
    ensures Span(LineComment, s[i..]) == 10 - i + Span(LineComment, s[10..])
    decreases 10 - i
  {
    if i < 10 {
      assert s[i] == s[2..10][i - 2];
      assert s[i..][1..] == s[i + 1..];
      CommentSkips(s, i + 1);
    }
  }

  /** The header line is only a comment: without it the text is cut in the same places. */
  lemma BodyCutsAlike(content: string)
    ensures |Body(content)| <= |content| && Body(content) == content[|content| - |Body(content)|..]
    ensures Pieces(content) == Front(content[..|content| - |Body(content)|], Pieces(Body(content)))
    ensures |Body(content)| < |content| ==> "-- upgrade" <= content && content[|content| - |Body(content)| - 1] == '\n'
  {
    hide Pieces, Front, LastFeed;
    if "-- upgrade" <= content && LastFeed(content[10..]) > 0 {
      FeedAtEnd(content[10..]);
      HeaderCutsAlike(content);
    } else {
      assert content[..0] == "" && content[0..] == content;
      FrontEmpty(Pieces(content));
    }
  }

  lemma HeaderCutsAlike(content: string)
    requires "-- upgrade" <= content && LastFeed(content[10..]) > 0
    ensures var n := 10 + LastFeed(content[10..]); Pieces(content) == Front(content[..n], Pieces(content[n..]))
  {
    hide Pieces, Front, LastFeed, Span, TokenLength;
    var rest := content[10..];
    HeaderToken(content);
    CommentEnds(rest);
    var k := 10 + Span(LineComment, rest);
    var after := content[k..];
    assert after == rest[k - 10..];
    var n := LastFeed(after);
    SpacesUpFront(after, n);
    PiecesOfToken(content);
    TakeTake(content, k, n);
    FrontFront(content[..k], after[..n], Pieces(after[n..]));
  }

  lemma {:induction false} FeedAtEnd(s: string)
    ensures LastFeed(s) > 0 ==> s[LastFeed(s) - 1] == '\n'
  {
    if s != "" && IsSpace(s[0]) { FeedAtEnd(s[1..]); }
  }

  function Script(f: File): seq<string> {
    Statements(Body(f.content))
  }

  function Scripts(files: seq<File>): seq<string> {
    if files == [] then [] else Scripts(files[..|files| - 1]) + Script(files[|files| - 1])
  }

  function Names(files: seq<File>): set<string> {
    set f | f in files :: f.name
  }

  predicate Distinct(files: seq<File>) {
    forall i, j :: 0 <= i < j < |files| ==> files[i].name != files[j].name
  }

  // ---------- what a run does ----------

  /** The file's checksum differs from the one recorded when it was applied. */
  predicate Mismatched(hash: string -> string, s: Store, f: File) {
    f.name in s.ledger && s.ledger[f.name] != "" && s.ledger[f.name] != hash(f.content)
  }

  /** One file's committed transaction. */
  function Process(hash: string -> string, s: Store, f: File): Store {
    if f.name !in s.ledger then Store(s.ledger[f.name := hash(f.content)], s.history + Script(f))
    else if s.ledger[f.name] == "" then s.(ledger := s.ledger[f.name := hash(f.content)])
    else s
  }

  function Advance(hash: string -> string, s: Store, files: seq<File>): Store {
    if files == [] then s
    else Process(hash, Advance(hash, s, files[..|files| - 1]), files[|files| - 1])
  }

  function Pending(s: Store, files: seq<File>): seq<File> {
    if files == [] then []
    else
      var f := files[|files| - 1];
      Pending(s, files[..|files| - 1]) + if f.name in s.ledger then [] else [f]
  }

  /** A run over the files can get through the first `n` of them. */
  predicate Reaches(hash: string -> string, s: Store, files: seq<File>, n: nat) {
    && n <= |files|
    && (forall i :: 0 <= i < n ==> !Mismatched(hash, s, files[i]))
    && (n > 0 ==> s.ledger.Keys <= Names(files))
  }

  /** A database connection: the committed store and what the open transaction sees. */
  class Database {
    var committed: Store
    var working: Store
    var faults: seq<Fault>

    constructor (s: Store, faults: seq<Fault>)
      ensures committed == working == s && this.faults == faults
    {
      committed, working, this.faults := s, s, faults;
    }

    /** What goes wrong at the next call; nothing once the list is used up. */
    method Next() returns (fault: Fault)
      modifies this`faults
      ensures old(faults) == [] ==> fault == None && faults == []
    {
      fault := None;
      if faults != [] { fault, faults := faults[0], faults[1..]; }
    }

    method Applied() returns (ok: bool, names: set<string>)
      modifies this`faults
      ensures old(faults) == [] ==> ok && faults == []
      ensures ok ==> names == working.ledger.Keys
    {
      var fault := Next();
      ok, names := fault.None?, working.ledger.Keys;
    }

    method Select(name: string) returns (ok: bool, found: bool, checksum: string)
      modifies this`faults
      ensures old(faults) == [] ==> ok && faults == []
      ensures ok ==> found == (name in working.ledger) && (found ==> checksum == working.ledger[name])
    {
      var fault := Next();
      ok := fault.None?;
      found := name in working.ledger;
      checksum := if found then working.ledger[name] else "";
    }

    method Execute(statement: string) returns (ok: bool)
      modifies this`working, this`faults
      ensures old(faults) == [] ==> ok && faults == []
      ensures ok ==> working == old(working).(history := old(working).history + [statement])
    {
      var fault := Next();
      ok := fault.None?;
      if ok { working := working.(history := working.history + [statement]); }
    }

    method Record(name: string, checksum: string) returns (ok: bool)
      modifies this`working, this`faults
      ensures old(faults) == [] ==> ok && faults == []
      ensures ok ==> working == old(working).(ledger := old(working).ledger[name := checksum])
    {
      var fault := Next();
      ok := fault.None?;
      if ok { working := working.(ledger := working.ledger[name := checksum]); }
    }

    method Commit() returns (ok: bool)
      modifies this
      ensures old(faults) == [] ==> ok && faults == []
      ensures ok ==> committed == old(working)
      ensures committed == old(working) || committed == old(committed)
      ensures working == committed
    {
      var fault := Next();
      ok := fault.None?;
      if ok || fault.Late? { committed := working; }
      working := committed;
    }

    method Rollback()
      modifies this`working
      ensures working == committed
    {
      working := committed;
    }
  }

  /** One pending file: all its statements and its ledger row are committed, or nothing is. */
  method RunFile(hash: string -> string, db: Database, f: File) returns (ok: bool)
    requires db.working == db.committed && f.name !in db.committed.ledger
    modifies db
    ensures db.working == db.committed
    ensures db.committed == Process(hash, old(db.committed), f) || (!ok && db.committed == old(db.committed))
    ensures old(db.faults) == [] ==> ok && db.faults == []
  {
    hide Statements;
    var statements := SplitSql(Body(f.content));
    ghost var before := db.committed;
    ok := true;
    var i := 0;
    assert before.history + statements[..0] == before.history;
    while ok && i < |statements|
      invariant 0 <= i <= |statements|
      invariant db.committed == before
      invariant ok ==> db.working == before.(history := before.history + statements[..i])
      invariant old(db.faults) == [] ==> ok && db.faults == []
      decreases |statements| - i, ok
    {
      ok := db.Execute(statements[i]);
      assert statements[..i + 1] == statements[..i] + [statements[i]];
      assert before.history + statements[..i] + [statements[i]] == before.history + statements[..i + 1];
      if ok { i := i + 1; }
    }
    assert ok ==> statements[..i] == statements;
    if ok { ok := db.Record(f.name, hash(f.content)); }
    if ok { ok := db.Commit(); }
    if !ok { db.Rollback(); }
  }

  lemma {:induction false} LedgerAfter(hash: string -> string, s: Store, files: seq<File>, name: string)
    requires Distinct(files)
    ensures name !in Names(files) ==>
              && (name in Advance(hash, s, files).ledger <==> name in s.ledger)
              && (name in s.ledger ==> Advance(hash, s, files).ledger[name] == s.ledger[name])
  {
    if files != [] {
      var k := |files| - 1;
      assert forall f :: f in files[..k] ==> f in files;
      assert files[k] in files;
      LedgerAfter(hash, s, files[..k], name);
    }
  }

  /** The next file is judged by what the store held before the run. */
  lemma Further(hash: string -> string, s: Store, files: seq<File>, n: nat)
    requires Distinct(files) && n < |files|
    ensures Advance(hash, s, files[..n + 1]) == Process(hash, Advance(hash, s, files[..n]), files[n])
    ensures Mismatched(hash, Advance(hash, s, files[..n]), files[n]) <==> Mismatched(hash, s, files[n])
  {
    assert files[..n + 1][..n] == files[..n];
    assert files[n].name !in Names(files[..n]);
    LedgerAfter(hash, s, files[..n], files[n].name);
  }

  /** One file: its transaction is committed, or nothing is; a changed applied file is refused. */
  method ApplyFile(hash: string -> string, db: Database, f: File) returns (ok: bool, refused: bool)
    requires db.working == db.committed
    modifies db
    ensures db.working == db.committed
    ensures db.committed == Process(hash, old(db.committed), f) || (!ok && db.committed == old(db.committed))
    ensures refused ==> !ok && Mismatched(hash, old(db.committed), f) && db.committed == old(db.committed)
    ensures ok ==> !Mismatched(hash, old(db.committed), f)
    ensures db.committed != old(db.committed) ==> !Mismatched(hash, old(db.committed), f)
    ensures old(db.faults) == [] ==> (ok || refused) && db.faults == []
  {
    hide Script;
    var csum := hash(f.content);
    var found, stored;
    ok, found, stored := db.Select(f.name);
    refused := ok && found && stored != "" && stored != csum;
    if !ok || refused {
      db.Rollback();
      ok := false;
    } else if found && stored == "" {
      ok := db.Record(f.name, csum);
      if ok { ok := db.Commit(); }
      if !ok { db.Rollback(); }
    } else if found {
      db.Rollback();
    } else {
      ok := RunFile(hash, db, f);
    }
  }

  method ApplyInOrder(hash: string -> string, db: Database, files: seq<File>) returns (r: Outcome, ghost n: nat)
    requires Distinct(files) && db.working == db.committed
    modifies db
    ensures Reaches(hash, old(db.committed), files, n)
    ensures db.working == db.committed == Advance(hash, old(db.committed), files[..n])
    ensures r.Done? ==> n == |files| && old(db.committed).ledger.Keys <= Names(files)
    ensures r.UnknownApplied? ==> n == 0 && r.names == old(db.committed).ledger.Keys - Names(files) != {}
    ensures r.Mismatch? ==> n < |files| && r.name == files[n].name && Mismatched(hash, old(db.committed), files[n])
    ensures old(db.faults) == [] ==> !r.Failed?
  {
    hide Advance, Process, Mismatched;
    n := 0;
    ghost var before := db.committed;
    AdvanceNone(hash, before, files[..0]);
    var ok, applied := db.Applied();
    if !ok { return Failed, 0; }
    var names := set f | f in files :: f.name;
    assert names == Names(files);
    if applied - names != {} { return UnknownApplied(applied - names), 0; }
    assert applied <= names by { assert forall x :: x in applied && x !in names ==> x in applied - names; }
    var i, refused := 0, false;
    while i < |files|
      invariant i == n <= |files|
      invariant Reaches(hash, before, files, n)
      invariant db.working == db.committed == Advance(hash, before, files[..n])
      invariant old(db.faults) == [] ==> db.faults == []
    {
      Further(hash, before, files, n);
      ghost var reached := db.committed;
      ok, refused := ApplyFile(hash, db, files[i]);
      if ok || db.committed != reached { n := n + 1; }
      if refused { return Mismatch(files[i].name), n; }
      if !ok { return Failed, n; }
      i := i + 1;
    }
    r := Done;
  }

  /** `sorted` by version: a file goes behind those of no greater version. */
  function InsertFile(files: seq<File>, f: File): seq<File> {
    if files == [] || files[|files| - 1].version <= f.version then files + [f]
    else InsertFile(files[..|files| - 1], f) + [files[|files| - 1]]
  }

  function SortFiles(listing: seq<File>): seq<File> {
    if listing == [] then [] else InsertFile(SortFiles(listing[..|listing| - 1]), listing[|listing| - 1])
  }

  lemma OrderSnoc(files: seq<File>, f: File)
    ensures InVersionOrder(files + [f]) <==> InVersionOrder(files) && forall g :: g in files ==> g.version <= f.version
  {
    var more := files + [f];
    assert forall i :: 0 <= i < |files| ==> more[i] == files[i] && files[i] in files;
    assert more[|files|] == f;
  }

  lemma {:induction false} InsertFileSorts(files: seq<File>, f: File)
    requires InVersionOrder(files)
    ensures InVersionOrder(InsertFile(files, f))
    ensures multiset(InsertFile(files, f)) == multiset(files) + multiset{f}
  {
    hide InVersionOrder;
    if files == [] {
      OrderSnoc(files, f);
    } else {
      var k := |files| - 1;
      assert files == files[..k] + [files[k]];
      OrderSnoc(files[..k], files[k]);
      if files[k].version <= f.version {
        assert forall g :: g in files <==> g in files[..k] || g == files[k];
        OrderSnoc(files, f);
      } else {
        InsertFileSorts(files[..k], f);
        var front := InsertFile(files[..k], f);
        forall g | g in front ensures g.version <= files[k].version {
          assert g in multiset(front);
          assert g in files[..k] || g == f;
        }
        OrderSnoc(front, files[k]);
      }
    }
  }

  lemma {:induction false} SortFilesSorts(listing: seq<File>)
    ensures InVersionOrder(SortFiles(listing)) && multiset(SortFiles(listing)) == multiset(listing)
  {
    if listing != [] {
      var k := |listing| - 1;
      assert listing == listing[..k] + [listing[k]];
      SortFilesSorts(listing[..k]);
      InsertFileSorts(SortFiles(listing[..k]), listing[k]);
    }
  }

  lemma NamesSnoc(files: seq<File>, f: File)
    ensures Names(files + [f]) == Names(files) + {f.name}
    ensures Distinct(files + [f]) <==> Distinct(files) && f.name !in Names(files)
  {
    var more := files + [f];
    assert forall g :: g in more <==> g in files || g == f;
    assert forall i :: 0 <= i < |files| ==> more[i] == files[i] && files[i] in files;
    assert more[|files|] == f;
    if f.name in Names(files) {
      var g :| g in files && g.name == f.name;
      var i :| 0 <= i < |files| && files[i] == g;
      assert more[i].name == more[|files|].name;
    }
  }

  /** Names are distinct if there are as many as files. */
  lemma {:induction false} DistinctCount(files: seq<File>)
    ensures |Names(files)| <= |files|
    ensures |Names(files)| == |files| <==> Distinct(files)
  {
    if files != [] {
      var k := |files| - 1;
      DistinctCount(files[..k]);
      NamesSnoc(files[..k], files[k]);
      assert files[..k] + [files[k]] == files;
    }
  }

  lemma SortKeepsDistinct(listing: seq<File>)
    requires Distinct(listing)
    ensures Distinct(SortFiles(listing)) && Names(SortFiles(listing)) == Names(listing)
  {
    var files := SortFiles(listing);
    SortFilesSorts(listing);
    assert forall g :: g in files <==> g in multiset(files);
    assert forall g :: g in listing <==> g in multiset(listing);
    assert Names(files) == Names(listing);
    assert |files| == |multiset(files)| && |listing| == |multiset(listing)|;
    DistinctCount(listing);
    DistinctCount(files);
  }

  /**
    A run takes the files of the directory by version, gets through some first part of them, and
    stops only for a reason it reports.
   */
  method ApplyMigrations(hash: string -> string, db: Database, listing: seq<File>)
    returns (r: Outcome, ghost files: seq<File>, ghost n: nat)
    requires Distinct(listing) && db.working == db.committed
    modifies db
    ensures InVersionOrder(files) && multiset(files) == multiset(listing) && Distinct(files)
    ensures Reaches(hash, old(db.committed), files, n)
    ensures db.working == db.committed == Advance(hash, old(db.committed), files[..n])
    ensures r.Done? ==> n == |files| && old(db.committed).ledger.Keys <= Names(listing)
    ensures r.UnknownApplied? ==> n == 0 && r.names == old(db.committed).ledger.Keys - Names(listing) != {}
    ensures r.Mismatch? ==> n < |files| && r.name == files[n].name && Mismatched(hash, old(db.committed), files[n])
    ensures old(db.faults) == [] ==> !r.Failed?
  {
    hide Advance, Mismatched, Reaches, InVersionOrder, SortFiles;
    SortFilesSorts(listing);
    SortKeepsDistinct(listing);
    var sorted := SortFiles(listing);
    files := sorted;
    r, n := ApplyInOrder(hash, db, sorted);
  }

  lemma AdvanceNone(hash: string -> string, s: Store, files: seq<File>)
    requires |files| == 0
    ensures Advance(hash, s, files) == s
  {
  }

  // ---------- the ledger is what is in effect ----------

  /** From `s` to `t` exactly the files of `log` took effect, in that order, each once, and each has its ledger row. */
  predicate Grew(hash: string -> string, s: Store, t: Store, log: seq<File>) {
    && t.history == s.history + Scripts(log)
    && Distinct(log)
    && s.ledger.Keys !! Names(log)
    && t.ledger.Keys == s.ledger.Keys + Names(log)
    && (forall f :: f in log ==> t.ledger[f.name] == hash(f.content))
    && (forall name :: name in s.ledger && s.ledger[name] != "" ==> t.ledger[name] == s.ledger[name])
  }

  ghost predicate NeverBlank(hash: string -> string) {
    forall content :: hash(content) != ""
  }

  predicate InVersionOrder(files: seq<File>) {
    forall i, j :: 0 <= i < j < |files| ==> files[i].version <= files[j].version
  }

  lemma LogSnoc(log: seq<File>, f: File)
    requires Distinct(log) && f.name !in Names(log)
    ensures Distinct(log + [f]) && Names(log + [f]) == Names(log) + {f.name}
    ensures Scripts(log + [f]) == Scripts(log) + Script(f)
  {
    hide Script;
    var more := log + [f];
    assert more[..|log|] == log;
    assert forall g :: g in log ==> g.name in Names(log);
    assert forall g :: g in more <==> g in log || g == f;
    assert f in more;
  }

  lemma NewGrows(hash: string -> string, s: Store, t: Store, f: File, log: seq<File>)
    requires Grew(hash, s, t, log) && f.name !in t.ledger
    ensures Grew(hash, s, Store(t.ledger[f.name := hash(f.content)], t.history + Script(f)), log + [f])
  {
    hide Script, Scripts, Distinct;
    LogSnoc(log, f);
    assert s.history + Scripts(log) + Script(f) == s.history + (Scripts(log) + Script(f));
    assert forall g :: g in log ==> g.name in Names(log);
  }

  lemma FillGrows(hash: string -> string, s: Store, t: Store, f: File, log: seq<File>)
    requires NeverBlank(hash) && Grew(hash, s, t, log) && f.name in t.ledger && t.ledger[f.name] == ""
    ensures Grew(hash, s, t.(ledger := t.ledger[f.name := hash(f.content)]), log)
  {
    hide Script, Scripts, Distinct;
    assert forall g :: g in log ==> t.ledger[g.name] == hash(g.content) && hash(g.content) != "";
    assert f.name !in Names(log);
  }

  lemma ProcessGrows(hash: string -> string, s: Store, t: Store, f: File, log: seq<File>)
    requires NeverBlank(hash) && Grew(hash, s, t, log)
    ensures Grew(hash, s, Process(hash, t, f), if f.name in t.ledger then log else log + [f])
  {
    hide Grew;
    if f.name !in t.ledger {
      NewGrows(hash, s, t, f, log);
    } else if t.ledger[f.name] == "" {
      FillGrows(hash, s, t, f, log);
    }
  }

  /** A run's files are a prefix of the pending ones, in version order, and the ledger gains exactly their rows. */
  lemma {:induction false} RunGrows(hash: string -> string, s: Store, t: Store, log: seq<File>, files: seq<File>,
                                    n: nat)
    requires NeverBlank(hash) && Grew(hash, s, t, log) && Distinct(files) && n <= |files|
    ensures Grew(hash, s, Advance(hash, t, files[..n]), log + Pending(t, files[..n]))
    ensures Pending(t, files[..n]) <= Pending(t, files)
    ensures InVersionOrder(files) ==> InVersionOrder(Pending(t, files[..n]))
    decreases |files|, n
  {
    hide Grew, Process, Pending, Advance, InVersionOrder, NeverBlank, Mismatched;
    PendingPrefix(t, files, n);
    PendingInOrder(t, files[..n]);
    InOrderPrefix(files, n);
    if n == 0 {
      AdvanceNone(hash, t, files[..n]);
      PendingNone(t, files[..n]);
      assert log + [] == log;
    } else {
      var k := n - 1;
      var f := files[k];
      RunGrows(hash, s, t, log, files, k);
      PendingNext(t, files, k);
      Further(hash, t, files, k);
      assert f.name !in Names(files[..k]);
      LedgerAfter(hash, t, files[..k], f.name);
      ProcessGrows(hash, s, Advance(hash, t, files[..k]), f, log + Pending(t, files[..k]));
      assert log + Pending(t, files[..k]) + [f] == log + (Pending(t, files[..k]) + [f]);
      assert Pending(t, files[..k]) + [] == Pending(t, files[..k]);
    }
  }

  lemma PendingNone(s: Store, files: seq<File>)
    requires |files| == 0
    ensures Pending(s, files) == []
  {
  }

  lemma PendingNext(s: Store, files: seq<File>, k: nat)
    requires k < |files|
    ensures Pending(s, files[..k + 1]) == Pending(s, files[..k]) + if files[k].name in s.ledger then [] else [files[k]]
  {
    assert files[..k + 1][..k] == files[..k];
  }

  lemma InOrderPrefix(files: seq<File>, n: nat)
    requires n <= |files|
    ensures InVersionOrder(files) ==> InVersionOrder(files[..n])
  {
  }

  lemma {:induction false} PendingPrefix(s: Store, files: seq<File>, n: nat)
    requires n <= |files|
    ensures Pending(s, files[..n]) <= Pending(s, files)
  {
    if n < |files| {
      var rest := files[..|files| - 1];
      PendingPrefix(s, rest, n);
      assert rest[..n] == files[..n];
    } else {
      assert files[..n] == files;
    }
  }

  lemma {:induction false} PendingInOrder(s: Store, files: seq<File>)
    ensures forall f :: f in Pending(s, files) ==> f in files
    ensures InVersionOrder(files) ==> InVersionOrder(Pending(s, files))
  {
    if files != [] {
      var rest := files[..|files| - 1];
      PendingInOrder(s, rest);
      assert forall g :: g in rest && InVersionOrder(files) ==> g.version <= files[|files| - 1].version;
    }
  }

  /** One run: its files and how many of them it got through. */
  datatype Run = Run(files: seq<File>, n: nat)

  predicate CanRun(hash: string -> string, s: Store, run: Run) {
    Distinct(run.files) && Reaches(hash, s, run.files, run.n)
  }

  function After(hash: string -> string, s: Store, run: Run): Store
    requires run.n <= |run.files|
  {
    Advance(hash, s, run.files[..run.n])
  }

  predicate CanRunAll(hash: string -> string, s: Store, runs: seq<Run>)
    decreases |runs|
  {
    runs == [] || (CanRun(hash, s, runs[0]) && CanRunAll(hash, After(hash, s, runs[0]), runs[1..]))
  }

  function AfterAll(hash: string -> string, s: Store, runs: seq<Run>): Store
    requires CanRunAll(hash, s, runs)
    decreases |runs|
  {
    if runs == [] then s else AfterAll(hash, After(hash, s, runs[0]), runs[1..])
  }

  /** The files that took effect over the runs. */
  function Log(hash: string -> string, s: Store, runs: seq<Run>): seq<File>
    requires CanRunAll(hash, s, runs)
    decreases |runs|
  {
    if runs == [] then []
    else Pending(s, runs[0].files[..runs[0].n]) + Log(hash, After(hash, s, runs[0]), runs[1..])
  }

  /** Whatever the runs, their failures and the files of each: the ledger is exactly what is in effect. */
  lemma {:induction false} RunsGrow(hash: string -> string, s: Store, t: Store, log: seq<File>, runs: seq<Run>)
    requires NeverBlank(hash) && Grew(hash, s, t, log) && CanRunAll(hash, t, runs)
    ensures Grew(hash, s, AfterAll(hash, t, runs), log + Log(hash, t, runs))
    decreases |runs|
  {
    hide Grew, Advance, Pending;
    if runs == [] {
      assert log + [] == log;
    } else {
      var run := runs[0];
      var pending := Pending(t, run.files[..run.n]);
      RunGrows(hash, s, t, log, run.files, run.n);
      RunsGrow(hash, s, After(hash, t, run), log + pending, runs[1..]);
      assert log + pending + Log(hash, After(hash, t, run), runs[1..])
          == log + (pending + Log(hash, After(hash, t, run), runs[1..]));
    }
  }

  /** On a fresh database every statement in effect belongs to a file whose checksum is in the ledger. */
  lemma LedgerIsEffect(hash: string -> string, s: Store, runs: seq<Run>)
    requires NeverBlank(hash) && CanRunAll(hash, s, runs)
    requires s.ledger == map[] && s.history == []
    ensures var (t, log) := (AfterAll(hash, s, runs), Log(hash, s, runs));
            && t.history == Scripts(log) && Distinct(log) && t.ledger.Keys == Names(log)
            && (forall f :: f in log ==> t.ledger[f.name] == hash(f.content))
  {
    hide Advance, Pending, CanRunAll, AfterAll, Log, Script, Distinct, NeverBlank;
    NothingGrew(hash, s, []);
    RunsGrow(hash, s, s, [], runs);
    var log := Log(hash, s, runs);
    assert [] + log == log;
    FromNothing(hash, s, AfterAll(hash, s, runs), log);
  }

  lemma FromNothing(hash: string -> string, s: Store, t: Store, log: seq<File>)
    requires Grew(hash, s, t, log) && s.ledger == map[] && s.history == []
    ensures t.history == Scripts(log) && Distinct(log) && t.ledger.Keys == Names(log)
    ensures forall f :: f in log ==> t.ledger[f.name] == hash(f.content)
  {
    hide Scripts, Distinct;
    assert [] + Scripts(log) == Scripts(log);
  }

  lemma NothingGrew(hash: string -> string, s: Store, log: seq<File>)
    requires |log| == 0
    ensures Grew(hash, s, s, log)
  {
    assert s.history + [] == s.history;
  }

  // ---------- failed and repeated runs ----------

  function Max(a: nat, b: nat): nat {
    if a < b then b else a
  }

  lemma ProcessSettles(hash: string -> string, s: Store, f: File)
    requires NeverBlank(hash)
    ensures var t := Process(hash, s, f); f.name in t.ledger && t.ledger[f.name] != "" && Process(hash, t, f) == t
  {
  }

  lemma ProcessKeeps(hash: string -> string, s: Store, f: File, g: File)
    requires f.name in s.ledger && s.ledger[f.name] != "" && g.name != f.name
    ensures var t := Process(hash, s, g); f.name in t.ledger && t.ledger[f.name] != "" && Process(hash, t, f) == t
  {
    hide Script;
  }

  lemma {:induction false} ProcessedStays(hash: string -> string, s: Store, files: seq<File>, i: nat)
    requires NeverBlank(hash) && Distinct(files) && i < |files|
    ensures var t := Advance(hash, s, files);
            files[i].name in t.ledger && t.ledger[files[i].name] != "" && Process(hash, t, files[i]) == t
  {
    hide Process, NeverBlank;
    var k := |files| - 1;
    if i < k {
      ProcessedStays(hash, s, files[..k], i);
      assert files[..k][i] == files[i];
      ProcessKeeps(hash, Advance(hash, s, files[..k]), files[i], files[k]);
    } else {
      ProcessSettles(hash, Advance(hash, s, files[..k]), files[k]);
    }
  }

  lemma PrefixDistinct(files: seq<File>, n: nat)
    requires Distinct(files) && n <= |files|
    ensures Distinct(files[..n])
  {
  }

  /** Running again over the same files resumes where the furthest run stopped. */
  lemma {:induction false} Resume(hash: string -> string, s: Store, files: seq<File>, j: nat, k: nat)
    requires NeverBlank(hash) && Distinct(files) && j <= |files| && k <= |files|
    ensures Advance(hash, Advance(hash, s, files[..j]), files[..k]) == Advance(hash, s, files[..Max(j, k)])
  {
    hide Advance, Process, Mismatched, NeverBlank, Distinct;
    var t := Advance(hash, s, files[..j]);
    if k == 0 {
      AdvanceNone(hash, t, files[..k]);
    } else {
      Resume(hash, s, files, j, k - 1);
      Further(hash, t, files, k - 1);
      if k <= j {
        assert Distinct(files[..j]) by { PrefixDistinct(files, j); }
        ProcessedStays(hash, s, files[..j], k - 1);
      } else {
        Further(hash, s, files, k - 1);
      }
    }
  }

  /** What an earlier run got through does not open what was closed. */
  lemma ReachesAgain(hash: string -> string, s: Store, files: seq<File>, j: nat, k: nat)
    requires Distinct(files) && Reaches(hash, s, files, j) && Reaches(hash, Advance(hash, s, files[..j]), files, k)
    ensures Reaches(hash, s, files, Max(j, k))
  {
    hide Advance;
    forall i | j <= i < k ensures !Mismatched(hash, s, files[i]) {
      LedgerAfter(hash, s, files[..j], files[i].name);
    }
    if j == 0 { AdvanceNone(hash, s, files[..j]); }
  }

  function Furthest(runs: seq<Run>): nat {
    if runs == [] then 0 else Max(runs[0].n, Furthest(runs[1..]))
  }

  /** Over fixed files, any sequence of failed and repeated runs is one run as far as the furthest of them. */
  lemma {:induction false} RunsAreOne(hash: string -> string, s: Store, files: seq<File>, runs: seq<Run>)
    requires NeverBlank(hash) && Distinct(files) && CanRunAll(hash, s, runs)
    requires forall run :: run in runs ==> run.files == files
    ensures CanRun(hash, s, Run(files, Furthest(runs)))
    ensures AfterAll(hash, s, runs) == After(hash, s, Run(files, Furthest(runs)))
    decreases |runs|
  {
    hide Advance, Mismatched;
    if runs == [] {
      AdvanceNone(hash, s, files[..0]);
    } else {
      var t := After(hash, s, runs[0]);
      assert runs[0].files == files;
      RunsAreOne(hash, t, files, runs[1..]);
      Resume(hash, s, files, runs[0].n, Furthest(runs[1..]));
      ReachesAgain(hash, s, files, runs[0].n, Furthest(runs[1..]));
    }
  }

  /** Once one run succeeds, the state is that of a single uninterrupted run. */
  lemma SuccessIsOneRun(hash: string -> string, s: Store, files: seq<File>, runs: seq<Run>, i: nat)
    requires NeverBlank(hash) && Distinct(files) && CanRunAll(hash, s, runs)
    requires forall run :: run in runs ==> run.files == files
    requires i < |runs| && runs[i].n == |files|
    ensures CanRun(hash, s, Run(files, |files|))
    ensures AfterAll(hash, s, runs) == Advance(hash, s, files)
  {
    hide Advance, Mismatched;
    RunsAreOne(hash, s, files, runs);
    FurthestIs(runs, i);
    assert files[..|files|] == files;
  }

  lemma {:induction false} FurthestIs(runs: seq<Run>, i: nat)
    requires i < |runs|
    ensures runs[i].n <= Furthest(runs)
  {
    if i > 0 { FurthestIs(runs[1..], i - 1); }
  }

  /** A file changed after it was applied stops every later run before it. */
  lemma ChangedFileStops(hash: string -> string, s: Store, files: seq<File>, runs: seq<Run>, m: nat)
    requires NeverBlank(hash) && Distinct(files) && CanRunAll(hash, s, runs)
    requires forall run :: run in runs ==> run.files == files
    requires m < |files| && Mismatched(hash, s, files[m])
    ensures forall i :: 0 <= i < |runs| ==> runs[i].n <= m
  {
    hide Advance, Mismatched, CanRunAll, AfterAll;
    RunsAreOne(hash, s, files, runs);
    forall i | 0 <= i < |runs| ensures runs[i].n <= m {
      FurthestIs(runs, i);
    }
  }
}
