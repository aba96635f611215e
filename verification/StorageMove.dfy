/**
  The move of the archived, name-keyed table storage into the identity-keyed one: what the copy
  does to any state of the new storage, and what its verification accepts.
 */
module StorageMove {
  import opened Basics

  /** A table's name within its workspace: the archive's key. */
  datatype Name = Name(workspace: nat, table: string)

  datatype Meta = Meta(createdBy: Option<nat>, updatedBy: Option<nat>, createdAt: int, updatedAt: int)

  datatype Column = Column(id: string, kind: string)
  datatype Config = Config(columns: seq<Column>, rest: string)

  datatype OldTable = OldTable(name: Name, config: Config, meta: Meta)
  datatype OldRow = OldRow(table: Name, row: int, data: string, meta: Meta)
  datatype OldView = OldView(table: Name, view: int, config: string, meta: Meta)
  datatype OldCounter = OldCounter(table: Name, last: int)
  datatype OldBlob = OldBlob(key: string, table: Name, row: int, column: string)

  /** The frozen archive, each relation in the order a scan returns it. */
  datatype Archive = Archive(tables: seq<OldTable>, rows: seq<OldRow>, views: seq<OldView>,
                             counters: seq<OldCounter>, blobs: seq<OldBlob>)

  datatype NewTable = NewTable(id: nat, config: Config, meta: Meta)
  datatype Record = Record(data: string, meta: Meta)
  datatype Cell = Cell(table: nat, row: int, column: string)

  type Key = (nat, int)

  /** The new storage; `indexes` holds the indexed columns. */
  datatype Storage = Storage(tables: map<Name, NewTable>, nextId: nat, rows: map<Key, Record>, views: map<Key, Record>,
                             counters: map<nat, int>, blobs: map<string, Cell>, indexes: set<(nat, string)>)

  /** The archive's primary keys, and its foreign keys to its tables. */
  predicate ValidArchive(a: Archive) {
    && (forall i, j :: 0 <= i < j < |a.tables| ==> a.tables[i].name != a.tables[j].name)
    && (forall i, j :: 0 <= i < j < |a.rows| ==> (a.rows[i].table, a.rows[i].row) != (a.rows[j].table, a.rows[j].row))
    && (forall i, j :: 0 <= i < j < |a.views| ==>
        (a.views[i].table, a.views[i].view) != (a.views[j].table, a.views[j].view))
    && (forall i, j :: 0 <= i < j < |a.blobs| ==> a.blobs[i].key != a.blobs[j].key)
    && (forall r :: r in a.rows ==> r.table in OldNames(a.tables))
    && (forall v :: v in a.views ==> v.table in OldNames(a.tables))
    && (forall c :: c in a.counters ==> c.table in OldNames(a.tables))
    && (forall b :: b in a.blobs ==> b.table in OldNames(a.tables))
  }

  predicate ValidStorage(s: Storage) {
    && (forall n :: n in s.tables ==> s.tables[n].id < s.nextId)
    && (forall n, o :: n in s.tables && o in s.tables && s.tables[n].id == s.tables[o].id ==> n == o)
  }

  function OldNames(tables: seq<OldTable>): set<Name> {
    set t | t in tables :: t.name
  }

  // ---------- upserts ----------

  /** ON CONFLICT DO UPDATE. */
  function PutAll<K, V>(m: map<K, V>, entries: seq<(K, V)>): map<K, V> {
    if entries == [] then m
    else
      var k := |entries| - 1;
      PutAll(m, entries[..k])[entries[k].0 := entries[k].1]
  }

  /** ON CONFLICT DO NOTHING. */
  function KeepAll<K, V>(m: map<K, V>, entries: seq<(K, V)>): map<K, V> {
    if entries == [] then m
    else
      var k := |entries| - 1;
      var n := KeepAll(m, entries[..k]);
      if entries[k].0 in n then n else n[entries[k].0 := entries[k].1]
  }

  /** ON CONFLICT DO UPDATE to the greatest. */
  function Raise(m: map<nat, int>, id: nat, mark: int): map<nat, int> {
    if id in m && m[id] >= mark then m else m[id := mark]
  }

  function RaiseAll(m: map<nat, int>, marks: seq<(nat, int)>): map<nat, int> {
    if marks == [] then m
    else
      var k := |marks| - 1;
      Raise(RaiseAll(m, marks[..k]), marks[k].0, marks[k].1)
  }

  // ---------- the move ----------

  /** Tables whose name is already there are left as they are; the others get the next identities. */
  function InsertTables(tables: seq<OldTable>, s: Storage): Storage {
    if tables == [] then s
    else
      var k := |tables| - 1;
      var p := InsertTables(tables[..k], s);
      var t := tables[k];
      if t.name in p.tables then p
      else p.(tables := p.tables[t.name := NewTable(p.nextId, t.config, t.meta)], nextId := p.nextId + 1)
  }

  function Mapping(a: Archive, tables: map<Name, NewTable>): map<Name, nat> {
    map n | n in OldNames(a.tables) && n in tables :: tables[n].id
  }

  /** The entries a scan joined to the mapping yields. */
  function Joined<X, E>(xs: seq<X>, entry: X -> Option<E>): seq<E> {
    if xs == [] then []
    else
      var e := entry(xs[|xs| - 1]);
      Joined(xs[..|xs| - 1], entry) + if e.Some? then [e.value] else []
  }

  function RowEntry(m: map<Name, nat>): OldRow -> Option<(Key, Record)> {
    (r: OldRow) => if r.table in m then Some(((m[r.table], r.row), Record(r.data, r.meta))) else None
  }

  /** What the row trigger raises a counter to. */
  function RowMark(m: map<Name, nat>): OldRow -> Option<(nat, int)> {
    (r: OldRow) => if r.table in m then Some((m[r.table], r.row)) else None
  }

  function ViewEntry(m: map<Name, nat>): OldView -> Option<(Key, Record)> {
    (v: OldView) => if v.table in m then Some(((m[v.table], v.view), Record(v.config, v.meta))) else None
  }

  function CounterMark(m: map<Name, nat>): OldCounter -> Option<(nat, int)> {
    (c: OldCounter) => if c.table in m then Some((m[c.table], c.last)) else None
  }

  function BlobEntry(m: map<Name, nat>): OldBlob -> Option<(string, Cell)> {
    (b: OldBlob) => if b.table in m then Some((b.key, Cell(m[b.table], b.row, b.column))) else None
  }

  const SEED_CONFIG := "{\"name\": \"announcement\", \"type\": \"table\"}"

  /** The view that migration V70 seeded at the recorded instant, and no archived view claims. */
  predicate Seeded(a: Archive, m: map<Name, nat>, applied: Option<int>, k: Key, v: Record) {
    && applied.Some? && v.meta.createdAt == applied.value && v.data == SEED_CONFIG
    && k.0 in m.Values
    && !(exists o :: o in a.views && o.table in m && (m[o.table], o.view) == k)
  }

  predicate NoneSeeded(a: Archive, m: map<Name, nat>, applied: Option<int>, views: map<Key, Record>) {
    forall k :: k in views ==> !Seeded(a, m, applied, k, views[k])
  }

  function DropSeeded(a: Archive, m: map<Name, nat>, applied: Option<int>, views: map<Key, Record>): map<Key, Record> {
    map k | k in views && !Seeded(a, m, applied, k, views[k]) :: views[k]
  }

  predicate Indexable(kind: string) {
    kind in {"number", "date", "datetime", "text", "string", "select", "tags", "email", "url", "phone", "checkbox"}
  }

  function IndexKeys(tables: map<Name, NewTable>, m: map<Name, nat>): set<(nat, string)> {
    set n, c | n in tables && tables[n].id in m.Values && c in tables[n].config.columns && Indexable(c.kind)
      :: (tables[n].id, c.id)
  }

  function Moved(a: Archive, applied: Option<int>, s: Storage): Storage {
    var t := InsertTables(a.tables, s);
    var m := Mapping(a, t.tables);
    Storage(t.tables, t.nextId,
            PutAll(s.rows, Joined(a.rows, RowEntry(m))),
            PutAll(DropSeeded(a, m, applied, s.views), Joined(a.views, ViewEntry(m))),
            RaiseAll(RaiseAll(s.counters, Joined(a.rows, RowMark(m))), Joined(a.counters, CounterMark(m))),
            KeepAll(s.blobs, Joined(a.blobs, BlobEntry(m))),
            s.indexes + IndexKeys(t.tables, m))
  }

  /** The mapping the copy uses. */
  function MovedIds(a: Archive, s: Storage): map<Name, nat> {
    Mapping(a, InsertTables(a.tables, s).tables)
  }

  // ---------- the script ----------

  function CountBad<T>(xs: seq<T>, bad: T -> bool): nat {
    if xs == [] then 0 else CountBad(xs[..|xs| - 1], bad) + if bad(xs[|xs| - 1]) then 1 else 0
  }

  datatype Claim = Claim(text: string, n: nat)

  function Checks(a: Archive, s: Storage): seq<Claim> {
    var m := Mapping(a, s.tables);
    [Claim("archived tables without a copy", CountBad(a.tables, Unmapped(s))),
     Claim("row content/identity drift", CountBad(a.rows, RowDrift(m, s))),
     Claim("view config drift", CountBad(a.views, ViewDrift(m, s))),
     Claim("row-id counter drift", CountBad(a.counters, CounterDrift(m, s))),
     Claim("blob ownership missing", CountBad(a.blobs, BlobDrift(m, s)))]
  }

  function Unmapped(s: Storage): OldTable -> bool {
    (t: OldTable) => t.name !in s.tables
  }

  function RowDrift(m: map<Name, nat>, s: Storage): OldRow -> bool {
    (r: OldRow) => r.table in m && !RowCopied(m, s, r)
  }

  function ViewDrift(m: map<Name, nat>, s: Storage): OldView -> bool {
    (v: OldView) => v.table in m && !ViewCopied(m, s, v)
  }

  function CounterDrift(m: map<Name, nat>, s: Storage): OldCounter -> bool {
    (c: OldCounter) => c.table in m && !CounterKept(m, s, c)
  }

  function BlobDrift(m: map<Name, nat>, s: Storage): OldBlob -> bool {
    (b: OldBlob) => b.table in m && !BlobOwned(m, s, b)
  }

  predicate RowCopied(m: map<Name, nat>, s: Storage, r: OldRow)
    requires r.table in m
  {
    (m[r.table], r.row) in s.rows && s.rows[(m[r.table], r.row)] == Record(r.data, r.meta)
  }

  predicate ViewCopied(m: map<Name, nat>, s: Storage, v: OldView)
    requires v.table in m
  {
    (m[v.table], v.view) in s.views && s.views[(m[v.table], v.view)].data == v.config
  }

  predicate CounterKept(m: map<Name, nat>, s: Storage, c: OldCounter)
    requires c.table in m
  {
    m[c.table] in s.counters && s.counters[m[c.table]] >= c.last
  }

  predicate BlobOwned(m: map<Name, nat>, s: Storage, b: OldBlob)
    requires b.table in m
  {
    b.key in s.blobs && s.blobs[b.key] == Cell(m[b.table], b.row, b.column)
  }

  /** Everything archived is in the new storage. */
  predicate Faithful(a: Archive, s: Storage) {
    var m := Mapping(a, s.tables);
    && (forall t :: t in a.tables ==> t.name in s.tables)
    && (forall r :: r in a.rows ==> r.table in m && RowCopied(m, s, r))
    && (forall v :: v in a.views ==> v.table in m && ViewCopied(m, s, v))
    && (forall c :: c in a.counters ==> c.table in m && CounterKept(m, s, c))
    && (forall b :: b in a.blobs ==> b.table in m && BlobOwned(m, s, b))
  }

  lemma {:induction false} CountsAll<T>(xs: seq<T>, bad: T -> bool)
    ensures CountBad(xs, bad) == 0 <==> forall x :: x in xs ==> !bad(x)
  {
    if xs != [] {
      var k := |xs| - 1;
      CountsAll(xs[..k], bad);
      assert forall x :: x in xs <==> x in xs[..k] || x == xs[k];
    }
  }

  /** The verification passes exactly if everything archived is in the new storage. */
  lemma ChecksFaithful(a: Archive, s: Storage)
    requires ValidArchive(a)
    ensures (forall c :: c in Checks(a, s) ==> c.n == 0) <==> Faithful(a, s)
  {
    hide RowCopied, ViewCopied, CounterKept, BlobOwned, Mapping, ValidArchive, CountBad;
    var m := Mapping(a, s.tables);
    CountsAll(a.tables, Unmapped(s));
    CountsAll(a.rows, RowDrift(m, s));
    CountsAll(a.views, ViewDrift(m, s));
    CountsAll(a.counters, CounterDrift(m, s));
    CountsAll(a.blobs, BlobDrift(m, s));
    FiveClaims(Checks(a, s));
    AllMapped(a, s.tables);
  }

  lemma FiveClaims(cs: seq<Claim>)
    requires |cs| == 5
    ensures (forall c :: c in cs ==> c.n == 0) <==>
              cs[0].n == 0 && cs[1].n == 0 && cs[2].n == 0 && cs[3].n == 0 && cs[4].n == 0
  {
  }

  lemma AllMapped(a: Archive, tables: map<Name, NewTable>)
    requires ValidArchive(a)
    ensures (forall t :: t in a.tables ==> t.name in tables) ==> Mapping(a, tables).Keys == OldNames(a.tables)
    ensures (forall t :: t in a.tables ==> t.name in tables) ==>
              && (forall r :: r in a.rows ==> r.table in Mapping(a, tables))
              && (forall v :: v in a.views ==> v.table in Mapping(a, tables))
              && (forall c :: c in a.counters ==> c.table in Mapping(a, tables))
              && (forall b :: b in a.blobs ==> b.table in Mapping(a, tables))
  {
  }

  /** The script's connection: one transaction, committed only if the verification passes. */
  class Connection {
    var committed: Storage
    var working: Storage

    constructor (s: Storage)
      ensures committed == working == s
    {
      committed, working := s, s;
    }

    method CopyTables(a: Archive)
      modifies this`working
      ensures working == InsertTables(a.tables, old(working))
    {
      var i := 0;
      while i < |a.tables|
        invariant 0 <= i <= |a.tables|
        invariant working == InsertTables(a.tables[..i], old(working))
      {
        var t := a.tables[i];
        assert a.tables[..i + 1][..i] == a.tables[..i];
        if t.name !in working.tables {
          working := working.(tables := working.tables[t.name := NewTable(working.nextId, t.config, t.meta)],
                              nextId := working.nextId + 1);
        }
        i := i + 1;
      }
      assert a.tables[..i] == a.tables;
    }

    /** The trigger raises the counter of every row offered; a row that already matches is not written. */
    method CopyRows(a: Archive, m: map<Name, nat>) returns (written: nat)
      modifies this`working
      ensures working == old(working).(rows := PutAll(old(working).rows, Joined(a.rows, RowEntry(m))),
                                       counters := RaiseAll(old(working).counters, Joined(a.rows, RowMark(m))))
      ensures written == 0 ==> working.rows == old(working).rows
    {
      var i := 0;
      written := 0;
      ghost var was := working;
      while i < |a.rows|
        invariant 0 <= i <= |a.rows|
        invariant working == was.(rows := PutAll(was.rows, Joined(a.rows[..i], RowEntry(m))),
                                  counters := RaiseAll(was.counters, Joined(a.rows[..i], RowMark(m))))
        invariant written == 0 ==> working.rows == was.rows
      {
        var r := a.rows[i];
        RowNext(a.rows, i, m, was.rows, was.counters);
        if r.table in m {
          var k := (m[r.table], r.row);
          var record := Record(r.data, r.meta);
          working := working.(counters := Raise(working.counters, m[r.table], r.row));
          if k !in working.rows || working.rows[k] != record {
            working := working.(rows := working.rows[k := record]);
            written := written + 1;
          } else {
            assert working.rows[k := record] == working.rows;
          }
        }
        i := i + 1;
      }
      assert a.rows[..i] == a.rows;
    }

    method DropSeededViews(a: Archive, m: map<Name, nat>, applied: Option<int>)
      modifies this`working
      ensures working == old(working).(views := DropSeeded(a, m, applied, old(working).views))
    {
      var kept := map k | k in working.views && !Seeded(a, m, applied, k, working.views[k]) :: working.views[k];
      working := working.(views := kept);
    }

    method CopyViews(a: Archive, m: map<Name, nat>)
      modifies this`working
      ensures working == old(working).(views := PutAll(old(working).views, Joined(a.views, ViewEntry(m))))
    {
      var i := 0;
      while i < |a.views|
        invariant 0 <= i <= |a.views|
        invariant working == old(working).(views := PutAll(old(working).views, Joined(a.views[..i], ViewEntry(m))))
      {
        var v := a.views[i];
        JoinedNext(a.views, i, ViewEntry(m));
        if v.table in m {
          PutNext(old(working).views, Joined(a.views[..i], ViewEntry(m)), (m[v.table], v.view),
              Record(v.config, v.meta));
          working := working.(views := working.views[(m[v.table], v.view) := Record(v.config, v.meta)]);
        }
        i := i + 1;
      }
      assert a.views[..i] == a.views;
    }

    method CopyCounters(a: Archive, m: map<Name, nat>)
      modifies this`working
      ensures working == old(working).(counters := RaiseAll(old(working).counters, Joined(a.counters, CounterMark(m))))
    {
      var i := 0;
      while i < |a.counters|
        invariant 0 <= i <= |a.counters|
        invariant var raised := RaiseAll(old(working).counters, Joined(a.counters[..i], CounterMark(m)));
                  working == old(working).(counters := raised)
      {
        var c := a.counters[i];
        JoinedNext(a.counters, i, CounterMark(m));
        if c.table in m {
          RaiseNext(old(working).counters, Joined(a.counters[..i], CounterMark(m)), m[c.table], c.last);
          working := working.(counters := Raise(working.counters, m[c.table], c.last));
        }
        i := i + 1;
      }
      assert a.counters[..i] == a.counters;
    }

    method CopyBlobs(a: Archive, m: map<Name, nat>)
      modifies this`working
      ensures working == old(working).(blobs := KeepAll(old(working).blobs, Joined(a.blobs, BlobEntry(m))))
    {
      var i := 0;
      while i < |a.blobs|
        invariant 0 <= i <= |a.blobs|
        invariant working == old(working).(blobs := KeepAll(old(working).blobs, Joined(a.blobs[..i], BlobEntry(m))))
      {
        var b := a.blobs[i];
        JoinedNext(a.blobs, i, BlobEntry(m));
        if b.table in m {
          KeepNext(old(working).blobs, Joined(a.blobs[..i], BlobEntry(m)), b.key, Cell(m[b.table], b.row, b.column));
          if b.key !in working.blobs {
            working := working.(blobs := working.blobs[b.key := Cell(m[b.table], b.row, b.column)]);
          }
        }
        i := i + 1;
      }
      assert a.blobs[..i] == a.blobs;
    }

    method Apply(a: Archive, applied: Option<int>)
      modifies this`working
      ensures working == Moved(a, applied, old(working))
    {
      hide InsertTables, PutAll, KeepAll, RaiseAll, Joined, DropSeeded, IndexKeys, Mapping;
      InsertTablesOnly(a.tables, working);
      CopyTables(a);
      var m := Mapping(a, working.tables);
      var _ := CopyRows(a, m);
      DropSeededViews(a, m, applied);
      CopyViews(a, m);
      CopyCounters(a, m);
      CopyBlobs(a, m);
      working := working.(indexes := working.indexes + IndexKeys(working.tables, m));
    }

    method Verify(a: Archive) returns (ok: bool)
      requires ValidArchive(a)
      ensures ok <==> Faithful(a, working)
    {
      hide Checks, Faithful, ValidArchive;
      ok := true;
      var checks := Checks(a, working);
      ChecksFaithful(a, working);
      for i := 0 to |checks|
        invariant ok <==> forall j :: 0 <= j < i ==> checks[j].n == 0
      {
        if checks[i].n > 0 { ok := false; }
      }
    }

    /** The whole move is committed if it is faithful, and otherwise nothing is. */
    method Run(a: Archive, applied: Option<int>) returns (status: nat)
      requires ValidArchive(a) && working == committed
      modifies this
      ensures status == 0 <==> Faithful(a, Moved(a, applied, old(committed)))
      ensures working == committed == if status == 0 then Moved(a, applied, old(committed)) else old(committed)
    {
      Apply(a, applied);
      var ok := Verify(a);
      if !ok {
        working := committed;
        return 1;
      }
      committed := working;
      status := 0;
    }
  }

  lemma JoinedNext<X, E>(xs: seq<X>, i: nat, entry: X -> Option<E>)
    requires i < |xs|
    ensures entry(xs[i]).Some? ==> Joined(xs[..i + 1], entry) == Joined(xs[..i], entry) + [entry(xs[i]).value]
    ensures entry(xs[i]).None? ==> Joined(xs[..i + 1], entry) == Joined(xs[..i], entry)
  {
    assert xs[..i + 1][..i] == xs[..i];
  }

  lemma PutNext<K, V>(m: map<K, V>, entries: seq<(K, V)>, k: K, v: V)
    ensures PutAll(m, entries + [(k, v)]) == PutAll(m, entries)[k := v]
  {
    assert (entries + [(k, v)])[..|entries|] == entries;
  }

  lemma KeepNext<K, V>(m: map<K, V>, entries: seq<(K, V)>, k: K, v: V)
    ensures KeepAll(m, entries + [(k, v)]) ==
            if k in KeepAll(m, entries) then KeepAll(m, entries) else KeepAll(m, entries)[k := v]
  {
    assert (entries + [(k, v)])[..|entries|] == entries;
  }

  lemma RaiseNext(m: map<nat, int>, marks: seq<(nat, int)>, id: nat, mark: int)
    ensures RaiseAll(m, marks + [(id, mark)]) == Raise(RaiseAll(m, marks), id, mark)
  {
    assert (marks + [(id, mark)])[..|marks|] == marks;
  }

  lemma RowNext(rows: seq<OldRow>, i: nat, m: map<Name, nat>, was: map<Key, Record>, counters: map<nat, int>)
    requires i < |rows|
    ensures var r := rows[i];
            && PutAll(was, Joined(rows[..i + 1], RowEntry(m))) ==
               (if r.table in m
                   then PutAll(was, Joined(rows[..i], RowEntry(m)))[(m[r.table], r.row) := Record(r.data, r.meta)]
                else PutAll(was, Joined(rows[..i], RowEntry(m))))
            && RaiseAll(counters, Joined(rows[..i + 1], RowMark(m))) ==
               (if r.table in m then Raise(RaiseAll(counters, Joined(rows[..i], RowMark(m))), m[r.table], r.row)
                else RaiseAll(counters, Joined(rows[..i], RowMark(m))))
  {
    hide PutAll, RaiseAll, Raise;
    var r := rows[i];
    JoinedNext(rows, i, RowEntry(m));
    JoinedNext(rows, i, RowMark(m));
    if r.table in m {
      PutNext(was, Joined(rows[..i], RowEntry(m)), (m[r.table], r.row), Record(r.data, r.meta));
      RaiseNext(counters, Joined(rows[..i], RowMark(m)), m[r.table], r.row);
    }
  }

  lemma {:induction false} InsertTablesOnly(tables: seq<OldTable>, s: Storage)
    ensures var t := InsertTables(tables, s); t == s.(tables := t.tables, nextId := t.nextId)
  {
    if tables != [] {
      InsertTablesOnly(tables[..|tables| - 1], s);
    }
  }

  // ---------- what the upserts do ----------

  ghost predicate DistinctKeys<K, V>(entries: seq<(K, V)>) {
    forall i, j :: 0 <= i < j < |entries| ==> entries[i].0 != entries[j].0
  }

  ghost predicate Touches<K, V>(entries: seq<(K, V)>, k: K) {
    exists e :: e in entries && e.0 == k
  }

  ghost predicate Holds<K, V>(m: map<K, V>, entries: seq<(K, V)>) {
    forall e :: e in entries ==> e.0 in m && m[e.0] == e.1
  }

  lemma Snoc<X>(xs: seq<X>)
    requires xs != []
    ensures forall x :: x in xs <==> x in xs[..|xs| - 1] || x == xs[|xs| - 1]
  {
  }

  lemma LastIsNew<K, V>(entries: seq<(K, V)>)
    requires entries != [] && DistinctKeys(entries)
    ensures DistinctKeys(entries[..|entries| - 1]) && !Touches(entries[..|entries| - 1], entries[|entries| - 1].0)
  {
    var n := |entries| - 1;
    forall e | e in entries[..n] ensures e.0 != entries[n].0 {
      var i :| 0 <= i < n && entries[..n][i] == e;
      assert entries[i] == e;
    }
  }

  /** Every entry is there afterwards, and no other key is touched. */
  lemma {:induction false} PutHolds<K, V>(m: map<K, V>, entries: seq<(K, V)>)
    requires DistinctKeys(entries)
    ensures Holds(PutAll(m, entries), entries)
    ensures forall k :: !Touches(entries, k) ==> (k in PutAll(m, entries) <==> k in m)
    ensures forall k :: !Touches(entries, k) && k in m ==> PutAll(m, entries)[k] == m[k]
  {
    if entries != [] {
      Snoc(entries);
      LastIsNew(entries);
      PutHolds(m, entries[..|entries| - 1]);
    }
  }

  lemma {:induction false} PutSame<K, V>(m: map<K, V>, entries: seq<(K, V)>)
    requires Holds(m, entries)
    ensures PutAll(m, entries) == m
  {
    if entries != [] {
      Snoc(entries);
      PutSame(m, entries[..|entries| - 1]);
    }
  }

  /** Every key is there afterwards; it holds its entry unless it already held something else. */
  lemma {:induction false} KeepHolds<K, V>(m: map<K, V>, entries: seq<(K, V)>)
    requires DistinctKeys(entries)
    ensures forall e :: e in entries ==>
              e.0 in KeepAll(m, entries) && KeepAll(m, entries)[e.0] == if e.0 in m then m[e.0] else e.1
    ensures forall k :: !Touches(entries, k) ==> (k in KeepAll(m, entries) <==> k in m)
    ensures forall k :: k in m ==> k in KeepAll(m, entries) && KeepAll(m, entries)[k] == m[k]
  {
    if entries != [] {
      Snoc(entries);
      LastIsNew(entries);
      KeepHolds(m, entries[..|entries| - 1]);
    }
  }

  lemma {:induction false} KeepSame<K, V>(m: map<K, V>, entries: seq<(K, V)>)
    requires forall e :: e in entries ==> e.0 in m
    ensures KeepAll(m, entries) == m
  {
    if entries != [] {
      Snoc(entries);
      KeepSame(m, entries[..|entries| - 1]);
    }
  }

  predicate Reached(m: map<nat, int>, marks: seq<(nat, int)>) {
    forall e :: e in marks ==> e.0 in m && m[e.0] >= e.1
  }

  /** No counter falls, and every mark is reached. */
  lemma {:induction false} RaiseReaches(m: map<nat, int>, marks: seq<(nat, int)>)
    ensures Reached(RaiseAll(m, marks), marks)
    ensures forall id :: id in m ==> id in RaiseAll(m, marks) && RaiseAll(m, marks)[id] >= m[id]
    ensures forall id :: !Touches(marks, id) ==> (id in RaiseAll(m, marks) <==> id in m)
    ensures forall id :: !Touches(marks, id) && id in m ==> RaiseAll(m, marks)[id] == m[id]
  {
    if marks != [] {
      Snoc(marks);
      RaiseReaches(m, marks[..|marks| - 1]);
    }
  }

  lemma {:induction false} RaiseSame(m: map<nat, int>, marks: seq<(nat, int)>)
    requires Reached(m, marks)
    ensures RaiseAll(m, marks) == m
  {
    if marks != [] {
      Snoc(marks);
      RaiseSame(m, marks[..|marks| - 1]);
    }
  }

  lemma {:induction false} JoinedHas<X, E>(xs: seq<X>, entry: X -> Option<E>)
    ensures forall x :: x in xs && entry(x).Some? ==> entry(x).value in Joined(xs, entry)
    ensures forall e :: e in Joined(xs, entry) ==> exists x :: x in xs && entry(x) == Some(e)
  {
    if xs != [] {
      Snoc(xs);
      JoinedHas(xs[..|xs| - 1], entry);
    }
  }

  lemma {:induction false} JoinedDistinct<X, K, V>(xs: seq<X>, entry: X -> Option<(K, V)>)
    requires forall i, j :: 0 <= i < j < |xs| && entry(xs[i]).Some? && entry(xs[j]).Some? ==>
              entry(xs[i]).value.0 != entry(xs[j]).value.0
    ensures DistinctKeys(Joined(xs, entry))
  {
    if xs != [] {
      var k := |xs| - 1;
      JoinedDistinct(xs[..k], entry);
      JoinedHas(xs[..k], entry);
      if entry(xs[k]).Some? {
        forall e | e in Joined(xs[..k], entry) ensures e.0 != entry(xs[k]).value.0 {
          var x :| x in xs[..k] && entry(x) == Some(e);
          var i :| 0 <= i < k && xs[i] == x;
        }
      }
    }
  }

  // ---------- the tables ----------

  /** `t` is `s` with more tables, under identities that were not in use. */
  predicate MoreTables(s: Storage, t: Storage) {
    && ValidStorage(t) && t == s.(tables := t.tables, nextId := t.nextId) && t.nextId >= s.nextId
    && (forall n :: n in s.tables ==> n in t.tables && t.tables[n] == s.tables[n])
    && (forall n :: n in t.tables && n !in s.tables ==> t.tables[n].id >= s.nextId)
  }

  lemma OneMoreTable(s: Storage, p: Storage, name: Name, config: Config, meta: Meta)
    requires MoreTables(s, p) && name !in p.tables
    ensures MoreTables(s, p.(tables := p.tables[name := NewTable(p.nextId, config, meta)], nextId := p.nextId + 1))
  {
  }

  lemma {:induction false} InsertTablesAdds(tables: seq<OldTable>, s: Storage)
    requires ValidStorage(s)
    ensures MoreTables(s, InsertTables(tables, s))
  {
    hide MoreTables;
    if tables == [] {
      assert MoreTables(s, s) by { NoMoreTables(s); }
    } else {
      var k := |tables| - 1;
      InsertTablesAdds(tables[..k], s);
      var p := InsertTables(tables[..k], s);
      if tables[k].name !in p.tables { OneMoreTable(s, p, tables[k].name, tables[k].config, tables[k].meta); }
    }
  }

  lemma NoMoreTables(s: Storage)
    requires ValidStorage(s)
    ensures MoreTables(s, s)
  {
  }

  lemma {:induction false} InsertTablesNames(tables: seq<OldTable>, s: Storage)
    ensures InsertTables(tables, s).tables.Keys == s.tables.Keys + OldNames(tables)
    ensures OldNames(tables) <= s.tables.Keys ==> InsertTables(tables, s) == s
  {
    if tables != [] {
      var k := |tables| - 1;
      InsertTablesNames(tables[..k], s);
      Snoc(tables);
      assert OldNames(tables) == OldNames(tables[..k]) + {tables[k].name};
    }
  }

  /** A table that is new gets its archived definition. */
  lemma {:induction false} InsertedTable(tables: seq<OldTable>, s: Storage, i: nat)
    requires i < |tables| && tables[i].name !in s.tables
    requires forall j, k :: 0 <= j < k < |tables| ==> tables[j].name != tables[k].name
    ensures var t := InsertTables(tables, s).tables;
            tables[i].name in t && t[tables[i].name].config == tables[i].config
                && t[tables[i].name].meta == tables[i].meta
  {
    var k := |tables| - 1;
    if i < k {
      InsertedTable(tables[..k], s, i);
      assert tables[..k][i] == tables[i];
    } else {
      InsertTablesNames(tables[..k], s);
      assert tables[k].name !in OldNames(tables[..k]);
    }
  }

  predicate Injective(m: map<Name, nat>) {
    forall n, o :: n in m && o in m && m[n] == m[o] ==> n == o
  }

  /** The copy maps every archived table, each to its own identity. */
  lemma MappingFacts(a: Archive, s: Storage)
    requires ValidStorage(s)
    ensures Injective(MovedIds(a, s)) && MovedIds(a, s).Keys == OldNames(a.tables)
    ensures MoreTables(s, InsertTables(a.tables, s))
  {
    InsertTablesAdds(a.tables, s);
    InsertTablesNames(a.tables, s);
  }

  lemma EntriesDistinct(a: Archive, m: map<Name, nat>)
    requires ValidArchive(a) && Injective(m)
    ensures DistinctKeys(Joined(a.rows, RowEntry(m)))
    ensures DistinctKeys(Joined(a.views, ViewEntry(m)))
    ensures DistinctKeys(Joined(a.blobs, BlobEntry(m)))
  {
    hide Joined, DistinctKeys;
    JoinedDistinct(a.rows, RowEntry(m));
    JoinedDistinct(a.views, ViewEntry(m));
    JoinedDistinct(a.blobs, BlobEntry(m));
  }

  // ---------- convergence ----------

  /** A storage the move leaves as it is. */
  ghost predicate Settled(a: Archive, applied: Option<int>, s: Storage) {
    var m := Mapping(a, s.tables);
    && OldNames(a.tables) <= s.tables.Keys
    && Holds(s.rows, Joined(a.rows, RowEntry(m)))
    && Holds(s.views, Joined(a.views, ViewEntry(m)))
    && Reached(s.counters, Joined(a.rows, RowMark(m))) && Reached(s.counters, Joined(a.counters, CounterMark(m)))
    && (forall e :: e in Joined(a.blobs, BlobEntry(m)) ==> e.0 in s.blobs)
    && NoneSeeded(a, m, applied, s.views)
    && IndexKeys(s.tables, m) <= s.indexes
  }

  lemma SettledStays(a: Archive, applied: Option<int>, s: Storage)
    requires Settled(a, applied, s)
    ensures Moved(a, applied, s) == s
  {
    hide InsertTables, PutAll, KeepAll, RaiseAll, Joined, Holds, Reached, Mapping, IndexKeys, Seeded, OldNames;
    var m := Mapping(a, s.tables);
    InsertTablesNames(a.tables, s);
    PutSame(s.rows, Joined(a.rows, RowEntry(m)));
    assert DropSeeded(a, m, applied, s.views) == s.views;
    PutSame(s.views, Joined(a.views, ViewEntry(m)));
    RaiseSame(s.counters, Joined(a.rows, RowMark(m)));
    RaiseSame(s.counters, Joined(a.counters, CounterMark(m)));
    KeepSame(s.blobs, Joined(a.blobs, BlobEntry(m)));
    assert s.indexes + IndexKeys(s.tables, m) == s.indexes;
  }

  lemma MovedSettles(a: Archive, applied: Option<int>, s: Storage)
    requires ValidArchive(a) && ValidStorage(s)
    ensures Settled(a, applied, Moved(a, applied, s))
  {
    hide InsertTables, PutAll, KeepAll, RaiseAll, Joined, DistinctKeys, IndexKeys, Injective, MoreTables;
    hide ValidArchive, OldNames, Holds, Seeded;
    var m := MovedIds(a, s);
    InsertTablesNames(a.tables, s);
    MappingFacts(a, s);
    EntriesDistinct(a, m);
    PutHolds(s.rows, Joined(a.rows, RowEntry(m)));
    var kept := DropSeeded(a, m, applied, s.views);
    PutHolds(kept, Joined(a.views, ViewEntry(m)));
    var raised := RaiseAll(s.counters, Joined(a.rows, RowMark(m)));
    RaiseReaches(s.counters, Joined(a.rows, RowMark(m)));
    RaiseReaches(raised, Joined(a.counters, CounterMark(m)));
    KeepHolds(s.blobs, Joined(a.blobs, BlobEntry(m)));
    NotSeededAgain(a, applied, m, kept);
  }

  lemma NotSeededAgain(a: Archive, applied: Option<int>, m: map<Name, nat>, kept: map<Key, Record>)
    requires NoneSeeded(a, m, applied, kept)
    requires DistinctKeys(Joined(a.views, ViewEntry(m)))
    ensures NoneSeeded(a, m, applied, PutAll(kept, Joined(a.views, ViewEntry(m))))
  {
    hide PutAll, Joined, DistinctKeys;
    var views := PutAll(kept, Joined(a.views, ViewEntry(m)));
    PutHolds(kept, Joined(a.views, ViewEntry(m)));
    JoinedHas(a.views, ViewEntry(m));
    forall k | k in views ensures !Seeded(a, m, applied, k, views[k]) {
      if Touches(Joined(a.views, ViewEntry(m)), k) {
        var e :| e in Joined(a.views, ViewEntry(m)) && e.0 == k;
        var v :| v in a.views && ViewEntry(m)(v) == Some(e);
      }
    }
  }

  /** The same archive, scanned in any order. */
  ghost predicate SameArchive(a: Archive, b: Archive) {
    && (forall x :: x in a.tables <==> x in b.tables)
    && (forall x :: x in a.rows <==> x in b.rows)
    && (forall x :: x in a.views <==> x in b.views)
    && (forall x :: x in a.counters <==> x in b.counters)
    && (forall x :: x in a.blobs <==> x in b.blobs)
  }

  lemma JoinedSame<X, E>(xs: seq<X>, ys: seq<X>, entry: X -> Option<E>)
    requires forall x :: x in xs <==> x in ys
    ensures forall e :: e in Joined(xs, entry) <==> e in Joined(ys, entry)
  {
    hide Joined;
    JoinedHas(xs, entry);
    JoinedHas(ys, entry);
  }

  lemma SettledEitherWay(a: Archive, b: Archive, applied: Option<int>, s: Storage)
    requires SameArchive(a, b) && Settled(a, applied, s)
    ensures Settled(b, applied, s)
  {
    hide Joined, IndexKeys;
    assert OldNames(a.tables) == OldNames(b.tables);
    var m := Mapping(a, s.tables);
    assert Mapping(b, s.tables) == m;
    JoinedSame(a.rows, b.rows, RowEntry(m));
    JoinedSame(a.views, b.views, ViewEntry(m));
    JoinedSame(a.rows, b.rows, RowMark(m));
    JoinedSame(a.counters, b.counters, CounterMark(m));
    JoinedSame(a.blobs, b.blobs, BlobEntry(m));
    assert NoneSeeded(b, m, applied, s.views) by {
      forall k | k in s.views ensures !Seeded(b, m, applied, k, s.views[k]) {
        SeededSame(a, b, m, applied, k, s.views[k]);
      }
    }
    assert Holds(s.rows, Joined(b.rows, RowEntry(m)));
    assert Holds(s.views, Joined(b.views, ViewEntry(m)));
    assert Reached(s.counters, Joined(b.rows, RowMark(m)));
    assert Reached(s.counters, Joined(b.counters, CounterMark(m)));
    assert forall e :: e in Joined(b.blobs, BlobEntry(m)) ==> e.0 in s.blobs;
  }

  lemma SeededSame(a: Archive, b: Archive, m: map<Name, nat>, applied: Option<int>, k: Key, v: Record)
    requires SameArchive(a, b)
    ensures Seeded(b, m, applied, k, v) ==> Seeded(a, m, applied, k, v)
  {
  }

  /** From any state of the new storage, a second move changes nothing, in whatever order it scans the archive. */
  lemma MoveIsIdempotent(a: Archive, b: Archive, applied: Option<int>, s: Storage)
    requires ValidArchive(a) && ValidStorage(s) && SameArchive(a, b)
    ensures Moved(b, applied, Moved(a, applied, s)) == Moved(a, applied, s)
  {
    hide Moved, Settled, SameArchive, ValidArchive, ValidStorage;
    MovedSettles(a, applied, s);
    SettledEitherWay(a, b, applied, Moved(a, applied, s));
    SettledStays(b, applied, Moved(a, applied, s));
  }

  /** No archived blob key already belongs to another cell. */
  predicate NoBlobTaken(a: Archive, s: Storage) {
    var m := MovedIds(a, s);
    forall b :: b in a.blobs && b.key in s.blobs && b.table in m ==> s.blobs[b.key] == Cell(m[b.table], b.row, b.column)
  }

  /** From any state the move passes its own verification, and so commits, exactly if no archived blob key is taken. */
  lemma MoveIsFaithfulIff(a: Archive, applied: Option<int>, s: Storage)
    requires ValidArchive(a) && ValidStorage(s)
    ensures Faithful(a, Moved(a, applied, s)) <==> NoBlobTaken(a, s)
  {
    hide InsertTables, PutAll, KeepAll, RaiseAll, Joined, DistinctKeys, IndexKeys, Injective, MoreTables;
    hide DropSeeded, Seeded;
    var t := Moved(a, applied, s);
    var m := MovedIds(a, s);
    InsertTablesNames(a.tables, s);
    AllMapped(a, t.tables);
    MovedSettles(a, applied, s);
    MappingFacts(a, s);
    EntriesDistinct(a, m);
    KeepHolds(s.blobs, Joined(a.blobs, BlobEntry(m)));
    JoinedHas(a.rows, RowEntry(m));
    JoinedHas(a.views, ViewEntry(m));
    JoinedHas(a.counters, CounterMark(m));
    JoinedHas(a.blobs, BlobEntry(m));
    SettledCopies(a, applied, t);
    forall b | b in a.blobs
      ensures BlobOwned(m, t, b) <==> (b.key in s.blobs ==> s.blobs[b.key] == Cell(m[b.table], b.row, b.column))
    {
      assert BlobEntry(m)(b).Some?;
    }
  }

  lemma SettledCopies(a: Archive, applied: Option<int>, t: Storage)
    requires ValidArchive(a) && Settled(a, applied, t)
    ensures var m := Mapping(a, t.tables);
            && (forall r :: r in a.rows ==> r.table in m && RowCopied(m, t, r))
            && (forall v :: v in a.views ==> v.table in m && ViewCopied(m, t, v))
            && (forall c :: c in a.counters ==> c.table in m && CounterKept(m, t, c))
  {
    hide Joined, Seeded, IndexKeys;
    var m := Mapping(a, t.tables);
    JoinedHas(a.rows, RowEntry(m));
    JoinedHas(a.views, ViewEntry(m));
    JoinedHas(a.counters, CounterMark(m));
    forall r | r in a.rows ensures r.table in m && RowCopied(m, t, r) { assert RowEntry(m)(r).Some?; }
    forall v | v in a.views ensures v.table in m && ViewCopied(m, t, v) { assert ViewEntry(m)(v).Some?; }
    forall c | c in a.counters ensures c.table in m && CounterKept(m, t, c) { assert CounterMark(m)(c).Some?; }
  }

  // ---------- what stays ----------

  /** An archived row has this key. */
  predicate IsArchivedRow(a: Archive, m: map<Name, nat>, k: Key) {
    exists r :: r in a.rows && r.table in m && (m[r.table], r.row) == k
  }

  /** An archived view has this key. */
  predicate IsArchivedView(a: Archive, m: map<Name, nat>, k: Key) {
    exists v :: v in a.views && v.table in m && (m[v.table], v.view) == k
  }

  /** Tables already there stay, and only archived names are added. */
  lemma MoveKeepsTables(a: Archive, applied: Option<int>, s: Storage)
    requires ValidStorage(s)
    ensures var t := Moved(a, applied, s);
            && ValidStorage(t)
            && (forall n :: n in s.tables ==> n in t.tables && t.tables[n] == s.tables[n])
            && t.tables.Keys == s.tables.Keys + OldNames(a.tables)
            && s.indexes <= t.indexes
  {
    hide InsertTables, PutAll, KeepAll, RaiseAll, Joined, IndexKeys, DropSeeded;
    InsertTablesNames(a.tables, s);
    InsertTablesAdds(a.tables, s);
  }

  /** A row no archived row names is unchanged, and so is a view no archived view names, but for the seeded one. */
  lemma MoveKeepsTheRest(a: Archive, applied: Option<int>, s: Storage, k: Key)
    requires ValidArchive(a) && ValidStorage(s)
    ensures var t := Moved(a, applied, s);
            var m := MovedIds(a, s);
            && (!IsArchivedRow(a, m, k) ==>
                  && (k in t.rows <==> k in s.rows)
                  && (k in s.rows ==> t.rows[k] == s.rows[k]))
            && (!IsArchivedView(a, m, k) ==>
                  && (k in t.views <==> k in s.views && !Seeded(a, m, applied, k, s.views[k]))
                  && (k in t.views ==> t.views[k] == s.views[k]))
  {
    hide InsertTables, PutAll, KeepAll, RaiseAll, Joined, DistinctKeys, IndexKeys, Injective, Seeded, ValidArchive;
    hide IsArchivedRow, IsArchivedView, Mapping, MoreTables;
    var m := MovedIds(a, s);
    MappingFacts(a, s);
    EntriesDistinct(a, m);
    PutHolds(s.rows, Joined(a.rows, RowEntry(m)));
    PutHolds(DropSeeded(a, m, applied, s.views), Joined(a.views, ViewEntry(m)));
    TouchedIsArchived(a, m);
  }

  /** No counter falls, those of other tables do not change, and every archived row and mark is covered. */
  lemma MoveRaisesCounters(a: Archive, applied: Option<int>, s: Storage)
    requires ValidArchive(a) && ValidStorage(s)
    ensures var t := Moved(a, applied, s);
            var m := MovedIds(a, s);
            && (forall id :: id in s.counters ==> id in t.counters && t.counters[id] >= s.counters[id])
            && (forall id :: id in s.counters && id !in m.Values ==> t.counters[id] == s.counters[id])
            && (forall r :: r in a.rows ==> r.table in m && m[r.table] in t.counters && t.counters[m[r.table]] >= r.row)
            && (forall c :: c in a.counters ==>
                c.table in m && m[c.table] in t.counters && t.counters[m[c.table]] >= c.last)
  {
    hide InsertTables, PutAll, KeepAll, RaiseAll, Joined, DistinctKeys, IndexKeys, Injective, Mapping;
    hide MoreTables, DropSeeded, Touches;
    var m := MovedIds(a, s);
    var marks, tops := Joined(a.rows, RowMark(m)), Joined(a.counters, CounterMark(m));
    MappingFacts(a, s);
    RaiseReaches(s.counters, marks);
    RaiseReaches(RaiseAll(s.counters, marks), tops);
    TouchedIsArchived(a, m);
    JoinedHas(a.rows, RowMark(m));
    JoinedHas(a.counters, CounterMark(m));
    forall r | r in a.rows ensures RowMark(m)(r) == Some((m[r.table], r.row)) { assert r.table in m; }
    forall c | c in a.counters ensures CounterMark(m)(c) == Some((m[c.table], c.last)) { assert c.table in m; }
  }

  /** Every column of a moved table that the application queries is indexed under the new identity. */
  lemma MoveBuildsIndexes(a: Archive, applied: Option<int>, s: Storage, t: OldTable, c: Column)
    requires ValidStorage(s) && t in a.tables
    ensures var moved := Moved(a, applied, s);
            && t.name in moved.tables
            && (c in moved.tables[t.name].config.columns && Indexable(c.kind) ==>
                (moved.tables[t.name].id, c.id) in moved.indexes)
  {
    hide InsertTables, PutAll, KeepAll, RaiseAll, Joined, DropSeeded, Indexable;
    InsertTablesNames(a.tables, s);
    var m := MovedIds(a, s);
    assert t.name in m;
  }

  /** A blob object keeps the owner it has. */
  lemma MoveKeepsOwners(a: Archive, applied: Option<int>, s: Storage)
    requires ValidArchive(a) && ValidStorage(s)
    ensures forall key :: key in s.blobs ==>
              key in Moved(a, applied, s).blobs && Moved(a, applied, s).blobs[key] == s.blobs[key]
  {
    hide InsertTables, PutAll, KeepAll, RaiseAll, Joined, DistinctKeys, IndexKeys, Injective, Mapping;
    hide MoreTables, DropSeeded, ValidArchive;
    MappingFacts(a, s);
    EntriesDistinct(a, MovedIds(a, s));
    KeepHolds(s.blobs, Joined(a.blobs, BlobEntry(MovedIds(a, s))));
  }

  lemma TouchedIsArchived(a: Archive, m: map<Name, nat>)
    ensures forall k :: Touches(Joined(a.rows, RowEntry(m)), k) ==> IsArchivedRow(a, m, k)
    ensures forall k :: Touches(Joined(a.views, ViewEntry(m)), k) ==> IsArchivedView(a, m, k)
    ensures forall id ::
              Touches(Joined(a.rows, RowMark(m)), id) || Touches(Joined(a.counters, CounterMark(m)), id) ==>
                  id in m.Values
  {
    hide Joined;
    JoinedHas(a.rows, RowEntry(m));
    JoinedHas(a.views, ViewEntry(m));
    JoinedHas(a.rows, RowMark(m));
    JoinedHas(a.counters, CounterMark(m));
  }

  // ---------- what the verification overlooks ----------

  // The archived entry that the new storage would give back.

  function TableBack(t: NewTable, name: Name): OldTable {
    OldTable(name, t.config, t.meta)
  }

  function RowBack(r: Record, table: Name, row: int): OldRow {
    OldRow(table, row, r.data, r.meta)
  }

  function ViewBack(v: Record, table: Name, view: int): OldView {
    OldView(table, view, v.data, v.meta)
  }

  /** Every archived table, row and view can be read back as it was, and no mark or blob owner is lost. */
  predicate Exact(a: Archive, s: Storage) {
    var m := Mapping(a, s.tables);
    && (forall t :: t in a.tables ==> t.name in s.tables && TableBack(s.tables[t.name], t.name) == t)
    && (forall r :: r in a.rows ==>
          r.table in m && (m[r.table], r.row) in s.rows && RowBack(s.rows[(m[r.table], r.row)], r.table, r.row) == r)
    && (forall v :: v in a.views ==>
          v.table in m && (m[v.table], v.view) in s.views
              && ViewBack(s.views[(m[v.table], v.view)], v.table, v.view) == v)
    && (forall c :: c in a.counters ==> c.table in m && CounterKept(m, s, c))
    && (forall b :: b in a.blobs ==> b.table in m && BlobOwned(m, s, b))
  }

  /** No table is already there under an archived name with another definition. */
  predicate NoTableDiffers(a: Archive, s: Storage) {
    forall t :: t in a.tables && t.name in s.tables ==>
      s.tables[t.name].config == t.config && s.tables[t.name].meta == t.meta
  }

  /** No view is already there under an archived number with another author or time. */
  predicate NoViewAuthorDiffers(a: Archive, s: Storage) {
    var m := Mapping(a, s.tables);
    forall v :: v in a.views && v.table in m && (m[v.table], v.view) in s.views ==>
      s.views[(m[v.table], v.view)].meta == v.meta
  }

  /** What passes the verification is the archive exactly if neither of these differs: it compares neither. */
  lemma FaithfulIsExactIff(a: Archive, s: Storage)
    requires Faithful(a, s)
    ensures Exact(a, s) <==> NoTableDiffers(a, s) && NoViewAuthorDiffers(a, s)
  {
    var m := Mapping(a, s.tables);
    forall r | r in a.rows ensures r.table in m && RowCopied(m, s, r) {}
    forall v | v in a.views ensures v.table in m && ViewCopied(m, s, v) {}
    if Exact(a, s) {
      forall t | t in a.tables ensures s.tables[t.name].config == t.config && s.tables[t.name].meta == t.meta {
        assert TableBack(s.tables[t.name], t.name) == t;
      }
      forall v | v in a.views ensures s.views[(m[v.table], v.view)].meta == v.meta {
        assert ViewBack(s.views[(m[v.table], v.view)], v.table, v.view) == v;
      }
    }
  }

  /** The move overwrites the authors and times of archived views, whatever the storage held. */
  lemma MoveRestoresViews(a: Archive, applied: Option<int>, s: Storage)
    requires ValidArchive(a) && ValidStorage(s)
    ensures NoViewAuthorDiffers(a, Moved(a, applied, s))
  {
    hide Moved, Mapping, Seeded, IndexKeys, Joined, Reached;
    MovedSettles(a, applied, s);
    var t := Moved(a, applied, s);
    var m := Mapping(a, t.tables);
    JoinedHas(a.views, ViewEntry(m));
    forall v | v in a.views && v.table in m && (m[v.table], v.view) in t.views
      ensures t.views[(m[v.table], v.view)].meta == v.meta
    {
      assert ViewEntry(m)(v).Some?;
      assert ViewEntry(m)(v).value in Joined(a.views, ViewEntry(m));
    }
  }

  /** Tables that were there keep their definitions, and the others get the archived ones. */
  lemma MoveDefines(a: Archive, applied: Option<int>, s: Storage)
    requires ValidArchive(a) && ValidStorage(s)
    ensures NoTableDiffers(a, Moved(a, applied, s)) <==> NoTableDiffers(a, s)
  {
    hide Moved, Mapping;
    MoveKeepsTables(a, applied, s);
    var t := Moved(a, applied, s);
    MovedTables(a, applied, s);
    forall x | x in a.tables && x.name !in s.tables
      ensures x.name in t.tables && t.tables[x.name].config == x.config && t.tables[x.name].meta == x.meta
    {
      var i :| 0 <= i < |a.tables| && a.tables[i] == x;
      InsertedTable(a.tables, s, i);
    }
  }

  lemma MovedTables(a: Archive, applied: Option<int>, s: Storage)
    ensures Moved(a, applied, s).tables == InsertTables(a.tables, s).tables
  {
    hide InsertTables, PutAll, KeepAll, RaiseAll, Joined, DropSeeded, IndexKeys;
  }

  /** The move reproduces the archive exactly if no archived blob key is taken and no table of that name differs. */
  lemma MoveIsExactIff(a: Archive, applied: Option<int>, s: Storage)
    requires ValidArchive(a) && ValidStorage(s)
    ensures Exact(a, Moved(a, applied, s)) <==> NoBlobTaken(a, s) && NoTableDiffers(a, s)
  {
    hide Moved, NoBlobTaken, NoTableDiffers, NoViewAuthorDiffers, ValidArchive, ValidStorage, Exact;
    MoveIsFaithfulIff(a, applied, s);
    MoveDefines(a, applied, s);
    MoveRestoresViews(a, applied, s);
    var t := Moved(a, applied, s);
    if Faithful(a, t) { FaithfulIsExactIff(a, t); }
    ExactIsFaithful(a, t);
  }

  lemma ExactIsFaithful(a: Archive, s: Storage)
    ensures Exact(a, s) ==> Faithful(a, s)
  {
    if Exact(a, s) {
      var m := Mapping(a, s.tables);
      forall r | r in a.rows ensures r.table in m && RowCopied(m, s, r) {
        assert RowBack(s.rows[(m[r.table], r.row)], r.table, r.row) == r;
      }
      forall v | v in a.views ensures v.table in m && ViewCopied(m, s, v) {
        assert ViewBack(s.views[(m[v.table], v.view)], v.table, v.view) == v;
      }
    }
  }

  /** One archived table, already there under its name with other columns: the move commits, and the columns differ. */
  lemma MoveCommitsOtherTable(name: Name, config: Config, other: Config, meta: Meta, applied: Option<int>)
    requires config != other
    ensures var a := Archive([OldTable(name, config, meta)], [], [], [], []);
            var s := Storage(map[name := NewTable(0, other, meta)], 1, map[], map[], map[], map[], {});
            && ValidArchive(a) && ValidStorage(s)
            && Faithful(a, Moved(a, applied, s))
            && Moved(a, applied, s).tables[name].config == other && !Exact(a, Moved(a, applied, s))
  {
    hide Moved, Exact, NoBlobTaken;
    var t := OldTable(name, config, meta);
    var a := Archive([t], [], [], [], []);
    var s := Storage(map[name := NewTable(0, other, meta)], 1, map[], map[], map[], map[], {});
    assert t in a.tables && t.name in s.tables;
    assert !NoTableDiffers(a, s);
    assert NoBlobTaken(a, s) by { NothingTaken(a, s); }
    MoveIsFaithfulIff(a, applied, s);
    MoveIsExactIff(a, applied, s);
    MoveKeepsTables(a, applied, s);
  }

  lemma NothingTaken(a: Archive, s: Storage)
    requires a.blobs == []
    ensures NoBlobTaken(a, s)
  {
  }

  /** One archived view, there with another author: a verification without a move passes. */
  lemma VerifyPassesOtherView(name: Name, config: Config, view: string, meta: Meta, other: Meta)
    requires meta != other
    ensures var a := Archive([OldTable(name, config, meta)], [], [OldView(name, 1, view, meta)], [], []);
            var s := Storage(map[name := NewTable(0, config, meta)], 1, map[], map[(0, 1) := Record(view, other)],
                             map[], map[], {});
            ValidArchive(a) && ValidStorage(s) && Faithful(a, s) && !Exact(a, s)
  {
    var v := OldView(name, 1, view, meta);
    var a := Archive([OldTable(name, config, meta)], [], [v], [], []);
    var views := map[(0, 1) := Record(view, other)];
    var s := Storage(map[name := NewTable(0, config, meta)], 1, map[], views, map[], map[], {});
    assert OldTable(name, config, meta) in a.tables;
    var m := Mapping(a, s.tables);
    assert name in m && m[name] == 0;
    assert ViewCopied(m, s, v);
    assert v in a.views && ViewBack(s.views[(0, 1)], name, 1) != v;
  }

  /** A table already there under an archived name keeps its own columns, and the verification does not compare them. */
  lemma TableConfigNotCompared(a: Archive, s: Storage, name: Name, config: Config)
    requires Faithful(a, s) && name in s.tables
    ensures Faithful(a, s.(tables := s.tables[name := s.tables[name].(config := config)]))
  {
    var t := s.(tables := s.tables[name := s.tables[name].(config := config)]);
    assert Mapping(a, t.tables) == Mapping(a, s.tables);
  }
}
