/** Sorting, grouping and rendering of the table's rows. */
module TableView {
  import opened Basics
  import opened Decimals

  datatype Row = Row(id: nat, cells: map<string, string>)

  // ---------- sorting ----------

  datatype Dir = Asc | Desc

  /** What a sort compares: row ids, positions among a select column's choices, instants, or text by a collation. */
  datatype Sort =
    | ByRowId
    | ByChoice(rank: Row -> nat)
    | ByInstant(instant: Row -> Option<int>)
    | ByText(collate: (Row, Row) -> int)

  function Directed(dir: Dir, cmp: int): int {
    if dir.Asc? then cmp else -cmp
  }

  function Compare(sort: Sort, dir: Dir, a: Row, b: Row): int {
    match sort
    case ByRowId => if dir.Asc? then a.id - b.id else b.id - a.id
    case ByChoice(rank) => Directed(dir, rank(a) - rank(b))
    case ByInstant(instant) =>
      if instant(a).None? || instant(b).None? then
        if instant(a).None? && instant(b).None? then 0 else if instant(a).None? then 1 else -1
      else Directed(dir, instant(a).value - instant(b).value)
    case ByText(collate) => Directed(dir, collate(a, b))
  }

  /** A comparison that orders every two rows, the same way whichever comes first, and transitively. */
  ghost predicate TotalPreorder(cmp: (Row, Row) -> int) {
    && (forall a, b :: cmp(a, b) <= 0 <==> cmp(b, a) >= 0)
    && (forall a, b, c :: cmp(a, b) <= 0 && cmp(b, c) <= 0 ==> cmp(a, c) <= 0)
  }

  function Comparison(sort: Sort, dir: Dir): (Row, Row) -> int {
    (a, b) => Compare(sort, dir, a, b)
  }

  /** Every sort is one, if the collation is. */
  lemma SortsAreOrders(sort: Sort, dir: Dir)
    requires sort.ByText? ==> TotalPreorder(sort.collate)
    ensures TotalPreorder(Comparison(sort, dir))
  {
    var cmp := Comparison(sort, dir);
    forall a, b ensures cmp(a, b) <= 0 <==> cmp(b, a) >= 0 {
      if sort.ByText? { assert sort.collate(a, b) <= 0 <==> sort.collate(b, a) >= 0; }
      if sort.ByText? { assert sort.collate(b, a) <= 0 <==> sort.collate(a, b) >= 0; }
    }
    forall a, b, c | cmp(a, b) <= 0 && cmp(b, c) <= 0 ensures cmp(a, c) <= 0 {
      if sort.ByText? {
        if dir.Asc? {
          assert sort.collate(a, b) <= 0 && sort.collate(b, c) <= 0;
        } else {
          assert sort.collate(b, a) <= 0 && sort.collate(c, b) <= 0;
          assert sort.collate(c, a) <= 0;
        }
      }
    }
  }

  /** Where a row goes in an ordered list: behind everything not greater. */
  function Insert(rows: seq<Row>, r: Row, cmp: (Row, Row) -> int): seq<Row> {
    if rows == [] || cmp(rows[|rows| - 1], r) <= 0 then rows + [r]
    else Insert(rows[..|rows| - 1], r, cmp) + [rows[|rows| - 1]]
  }

  /** The stable sort. */
  function Sorted(rows: seq<Row>, cmp: (Row, Row) -> int): seq<Row> {
    if rows == [] then [] else Insert(Sorted(rows[..|rows| - 1], cmp), rows[|rows| - 1], cmp)
  }

  function SortRows(rows: seq<Row>, config: Option<(Sort, Dir)>): seq<Row> {
    if config.None? then rows else Sorted(rows, Comparison(config.value.0, config.value.1))
  }

  predicate Ordered(rows: seq<Row>, cmp: (Row, Row) -> int) {
    forall i, j :: 0 <= i < j < |rows| ==> cmp(rows[i], rows[j]) <= 0
  }

  /** The rows that compare equal to `r`, in order. */
  function Peers(rows: seq<Row>, r: Row, cmp: (Row, Row) -> int): seq<Row> {
    if rows == [] then []
    else Peers(rows[..|rows| - 1], r, cmp) + if cmp(rows[|rows| - 1], r) == 0 then [rows[|rows| - 1]] else []
  }

  ghost predicate SamePeers(xs: seq<Row>, ys: seq<Row>, cmp: (Row, Row) -> int) {
    forall r :: Peers(xs, r, cmp) == Peers(ys, r, cmp)
  }

  lemma PeersSnoc(rows: seq<Row>, x: Row, r: Row, cmp: (Row, Row) -> int)
    ensures Peers(rows + [x], r, cmp) == Peers(rows, r, cmp) + if cmp(x, r) == 0 then [x] else []
  {
    assert (rows + [x])[..|rows|] == rows;
  }

  lemma OrderedSnoc(rows: seq<Row>, x: Row, cmp: (Row, Row) -> int)
    requires Ordered(rows, cmp) && forall y :: y in rows ==> cmp(y, x) <= 0
    ensures Ordered(rows + [x], cmp)
  {
    var more := rows + [x];
    forall i, j | 0 <= i < j < |more| ensures cmp(more[i], more[j]) <= 0 {
      assert rows[i] in rows;
    }
  }

  lemma LastIsGreatest(rows: seq<Row>, x: Row, cmp: (Row, Row) -> int)
    requires TotalPreorder(cmp) && Ordered(rows, cmp) && rows != [] && cmp(rows[|rows| - 1], x) <= 0
    ensures forall y :: y in rows ==> cmp(y, x) <= 0
  {
    forall y | y in rows ensures cmp(y, x) <= 0 {
      var i :| 0 <= i < |rows| && rows[i] == y;
      assert i < |rows| - 1 ==> cmp(rows[i], rows[|rows| - 1]) <= 0;
    }
  }

  lemma Either(a: Row, b: Row, r: Row, cmp: (Row, Row) -> int)
    requires TotalPreorder(cmp)
    ensures cmp(a, b) <= 0 || cmp(b, a) <= 0
    ensures cmp(a, r) == 0 && cmp(b, r) == 0 ==> cmp(a, b) <= 0
  {
    assert cmp(b, r) == 0 ==> cmp(r, b) <= 0;
  }

  lemma {:induction false} InsertPermutes(rows: seq<Row>, x: Row, cmp: (Row, Row) -> int)
    ensures multiset(Insert(rows, x, cmp)) == multiset(rows) + multiset{x}
  {
    if rows != [] {
      var k := |rows| - 1;
      assert rows == rows[..k] + [rows[k]];
      if cmp(rows[k], x) > 0 { InsertPermutes(rows[..k], x, cmp); }
    }
  }

  lemma InsertedBelow(front: seq<Row>, rows: seq<Row>, x: Row, last: Row, cmp: (Row, Row) -> int)
    requires multiset(front) == multiset(rows) + multiset{x}
    requires cmp(x, last) <= 0 && forall y :: y in rows ==> cmp(y, last) <= 0
    ensures forall y :: y in front ==> cmp(y, last) <= 0
  {
    forall y | y in front ensures cmp(y, last) <= 0 {
      assert y in multiset(front);
    }
  }

  lemma {:induction false} InsertOrders(rows: seq<Row>, x: Row, cmp: (Row, Row) -> int)
    requires TotalPreorder(cmp) && Ordered(rows, cmp)
    ensures Ordered(Insert(rows, x, cmp), cmp)
    ensures multiset(Insert(rows, x, cmp)) == multiset(rows) + multiset{x}
  {
    hide TotalPreorder, Ordered;
    InsertPermutes(rows, x, cmp);
    if rows == [] {
      NoneOrdered(rows, cmp);
      OrderedSnoc(rows, x, cmp);
    } else {
      var k := |rows| - 1;
      if cmp(rows[k], x) <= 0 {
        LastIsGreatest(rows, x, cmp);
        OrderedSnoc(rows, x, cmp);
      } else {
        var front := Insert(rows[..k], x, cmp);
        assert rows == rows[..k] + [rows[k]];
        OrderedPrefix(rows[..k], rows[k], cmp);
        InsertOrders(rows[..k], x, cmp);
        Either(x, rows[k], x, cmp);
        InsertedBelow(front, rows[..k], x, rows[k], cmp);
        OrderedSnoc(front, rows[k], cmp);
      }
    }
  }

  lemma NoneOrdered(rows: seq<Row>, cmp: (Row, Row) -> int)
    requires |rows| == 0
    ensures Ordered(rows, cmp)
  {
  }

  lemma OrderedPrefix(rows: seq<Row>, last: Row, cmp: (Row, Row) -> int)
    requires Ordered(rows + [last], cmp)
    ensures Ordered(rows, cmp) && forall y :: y in rows ==> cmp(y, last) <= 0
  {
    var more := rows + [last];
    assert forall i :: 0 <= i < |rows| ==> more[i] == rows[i];
    assert more[|rows|] == last;
  }

  lemma {:induction false} InsertKeepsPeers(rows: seq<Row>, x: Row, r: Row, cmp: (Row, Row) -> int)
    requires TotalPreorder(cmp)
    ensures Peers(Insert(rows, x, cmp), r, cmp) == Peers(rows, r, cmp) + if cmp(x, r) == 0 then [x] else []
  {
    hide TotalPreorder;
    if rows == [] || cmp(rows[|rows| - 1], x) <= 0 {
      PeersSnoc(rows, x, r, cmp);
    } else {
      var k := |rows| - 1;
      InsertKeepsPeers(rows[..k], x, r, cmp);
      PeersSnoc(Insert(rows[..k], x, cmp), rows[k], r, cmp);
      Either(rows[k], x, r, cmp);
    }
  }

  /** Sorting is a stable permutation into order. */
  lemma {:induction false} SortedIsStable(rows: seq<Row>, cmp: (Row, Row) -> int)
    requires TotalPreorder(cmp)
    ensures Ordered(Sorted(rows, cmp), cmp)
    ensures multiset(Sorted(rows, cmp)) == multiset(rows)
    ensures SamePeers(Sorted(rows, cmp), rows, cmp)
  {
    hide TotalPreorder;
    if rows != [] {
      var k := |rows| - 1;
      assert rows == rows[..k] + [rows[k]];
      SortedIsStable(rows[..k], cmp);
      InsertOrders(Sorted(rows[..k], cmp), rows[k], cmp);
      forall r ensures Peers(Sorted(rows, cmp), r, cmp) == Peers(rows, r, cmp) {
        InsertKeepsPeers(Sorted(rows[..k], cmp), rows[k], r, cmp);
      }
    }
  }

  lemma Middle(rows: seq<Row>, k: nat)
    requires 0 < k <= |rows|
    ensures rows[..k][1..] == rows[1..][..k - 1]
  {
    var (a, b) := (rows[..k][1..], rows[1..][..k - 1]);
    assert |a| == |b|;
    assert forall i :: 0 <= i < |a| ==> a[i] == rows[i + 1] && b[i] == rows[i + 1];
  }

  lemma {:induction false} PeersHead(rows: seq<Row>, r: Row, cmp: (Row, Row) -> int)
    ensures rows != [] ==>
              Peers(rows, r, cmp) == (if cmp(rows[0], r) == 0 then [rows[0]] else []) + Peers(rows[1..], r, cmp)
    ensures Peers(rows, r, cmp) != [] ==> exists x :: x in rows && cmp(x, r) == 0
  {
    if rows != [] {
      var k := |rows| - 1;
      PeersHead(rows[..k], r, cmp);
      if k > 0 { Middle(rows, k); }
      assert cmp(rows[k], r) == 0 ==> rows[k] in rows;
    }
  }

  /** Any stable permutation into order is this one: the result does not depend on the sorting algorithm. */
  lemma {:induction false} StableSortIsUnique(xs: seq<Row>, ys: seq<Row>, cmp: (Row, Row) -> int)
    requires TotalPreorder(cmp) && Ordered(xs, cmp) && Ordered(ys, cmp) && SamePeers(xs, ys, cmp)
    ensures xs == ys
    decreases |xs| + |ys|
  {
    if xs == [] && ys == [] {
    } else if xs == [] {
      NoPeers(xs, ys, cmp);
    } else if ys == [] {
      NoPeers(ys, xs, cmp);
    } else {
      SameHead(xs, ys, cmp);
      forall r ensures Peers(xs[1..], r, cmp) == Peers(ys[1..], r, cmp) {
        PeersHead(xs, r, cmp);
        PeersHead(ys, r, cmp);
        var head := if cmp(xs[0], r) == 0 then [xs[0]] else [];
        assert (head + Peers(xs[1..], r, cmp))[|head|..] == Peers(xs[1..], r, cmp);
        assert (head + Peers(ys[1..], r, cmp))[|head|..] == Peers(ys[1..], r, cmp);
      }
      StableSortIsUnique(xs[1..], ys[1..], cmp);
    }
  }

  lemma NoPeers(xs: seq<Row>, ys: seq<Row>, cmp: (Row, Row) -> int)
    requires TotalPreorder(cmp) && SamePeers(xs, ys, cmp) && |xs| == 0
    ensures ys == []
  {
    if ys != [] {
      Reflexive(ys[0], cmp);
      PeersHead(ys, ys[0], cmp);
    }
  }

  lemma Reflexive(a: Row, cmp: (Row, Row) -> int)
    requires TotalPreorder(cmp)
    ensures cmp(a, a) == 0
  {
    assert cmp(a, a) <= 0 <==> cmp(a, a) >= 0;
  }

  lemma SameHead(xs: seq<Row>, ys: seq<Row>, cmp: (Row, Row) -> int)
    requires TotalPreorder(cmp) && Ordered(xs, cmp) && Ordered(ys, cmp) && SamePeers(xs, ys, cmp)
    requires xs != [] && ys != []
    ensures xs[0] == ys[0]
  {
    var (a, b) := (xs[0], ys[0]);
    assert cmp(a, a) == 0 && cmp(b, b) == 0;
    PeersHead(xs, a, cmp);
    PeersHead(ys, a, cmp);
    PeersHead(xs, b, cmp);
    PeersHead(ys, b, cmp);
    assert Peers(xs, a, cmp)[0] == a && Peers(ys, b, cmp)[0] == b;
    var x :| x in ys && cmp(x, a) == 0;
    var y :| y in xs && cmp(y, b) == 0;
    HeadIsLeast(ys, x, cmp);
    HeadIsLeast(xs, y, cmp);
    assert cmp(b, a) <= 0 && cmp(a, b) <= 0;
    assert Peers(ys, a, cmp)[0] == b;
  }

  lemma HeadIsLeast(xs: seq<Row>, x: Row, cmp: (Row, Row) -> int)
    requires TotalPreorder(cmp) && Ordered(xs, cmp) && x in xs
    ensures cmp(xs[0], x) <= 0
  {
    var i :| 0 <= i < |xs| && xs[i] == x;
    assert cmp(x, x) <= 0;
  }

  /** Rows without an instant come last, whichever the direction. */
  lemma EmptiesLast(rows: seq<Row>, instant: Row -> Option<int>, dir: Dir, i: nat, j: nat)
    requires i < j < |Sorted(rows, Comparison(ByInstant(instant), dir))|
    requires instant(Sorted(rows, Comparison(ByInstant(instant), dir))[i]).None?
    ensures instant(Sorted(rows, Comparison(ByInstant(instant), dir))[j]).None?
  {
    var cmp := Comparison(ByInstant(instant), dir);
    SortsAreOrders(ByInstant(instant), dir);
    SortedIsStable(rows, cmp);
    var sorted := Sorted(rows, cmp);
    assert cmp(sorted[i], sorted[j]) <= 0;
  }

  // ---------- grouping ----------

  datatype Group = Group(key: string, rows: seq<Row>)

  /** The group keys in the order they first appear. */
  function Keys(rows: seq<Row>, key: Row -> string): seq<string> {
    if rows == [] then []
    else
      var ks := Keys(rows[..|rows| - 1], key);
      var k := key(rows[|rows| - 1]);
      if k in ks then ks else ks + [k]
  }

  function Having(rows: seq<Row>, key: Row -> string, k: string): seq<Row> {
    if rows == [] then []
    else Having(rows[..|rows| - 1], key, k) + if key(rows[|rows| - 1]) == k then [rows[|rows| - 1]] else []
  }

  function GroupsFor(ks: seq<string>, rows: seq<Row>, key: Row -> string, config: Option<(Sort, Dir)>): seq<Group> {
    if ks == [] then []
    else
      var k := ks[|ks| - 1];
      GroupsFor(ks[..|ks| - 1], rows, key, config) + [Group(k, SortRows(Having(rows, key, k), config))]
  }

  function Grouped(rows: seq<Row>, key: Row -> string, config: Option<(Sort, Dir)>): seq<Group> {
    GroupsFor(Keys(rows, key), rows, key, config)
  }

  /** The map built so far holds each key's rows. */
  ghost predicate Collected(keyMap: map<string, seq<Row>>, keyOrder: seq<string>, rows: seq<Row>, key: Row -> string) {
    && keyOrder == Keys(rows, key)
    && (forall k :: k in keyMap <==> k in keyOrder)
    && (forall k :: k in keyMap ==> keyMap[k] == Having(rows, key, k))
  }

  lemma NoneHaving(rows: seq<Row>, key: Row -> string, k: string)
    requires k !in Keys(rows, key)
    ensures Having(rows, key, k) == []
  {
    if rows != [] { NoneHaving(rows[..|rows| - 1], key, k); }
  }

  lemma CollectNext(keyMap: map<string, seq<Row>>, keyOrder: seq<string>, rows: seq<Row>, r: Row, key: Row -> string)
    requires Collected(keyMap, keyOrder, rows, key)
    ensures var k := key(r);
            Collected(keyMap[k := (if k in keyMap then keyMap[k] else []) + [r]],
                      if k in keyMap then keyOrder else keyOrder + [k],
                      rows + [r], key)
  {
    var k := key(r);
    assert (rows + [r])[..|rows|] == rows;
    if k !in keyMap { NoneHaving(rows, key, k); }
    forall j ensures Having(rows + [r], key, j) == Having(rows, key, j) + if j == k then [r] else [] {
    }
  }

  method BuildGroupedRows(rows: seq<Row>, key: Row -> string, config: Option<(Sort, Dir)>) returns (groups: seq<Group>)
    ensures groups == Grouped(rows, key, config)
  {
    hide SortRows, Keys, Having, Collected, GroupsFor;
    var keyOrder: seq<string> := [];
    var keyMap: map<string, seq<Row>> := map[];
    NothingCollected(rows[..0], key);
    for i := 0 to |rows|
      invariant Collected(keyMap, keyOrder, rows[..i], key)
    {
      CollectNext(keyMap, keyOrder, rows[..i], rows[i], key);
      assert rows[..i] + [rows[i]] == rows[..i + 1];
      var k := key(rows[i]);
      ghost var before := keyMap;
      if k !in keyMap {
        keyMap := keyMap[k := []];
        keyOrder := keyOrder + [k];
      }
      keyMap := keyMap[k := keyMap[k] + [rows[i]]];
      assert keyMap == before[k := (if k in before then before[k] else []) + [rows[i]]];
    }
    assert rows[..|rows|] == rows;
    CollectedIs(keyMap, keyOrder, rows, key);
    groups := [];
    NoGroups(keyOrder[..0], rows, key, config);
    for j := 0 to |keyOrder|
      invariant groups == GroupsFor(keyOrder[..j], rows, key, config)
    {
      GroupsNext(keyOrder[..j], keyOrder[j], rows, key, config);
      assert keyOrder[..j] + [keyOrder[j]] == keyOrder[..j + 1];
      groups := groups + [Group(keyOrder[j], SortRows(keyMap[keyOrder[j]], config))];
    }
    assert keyOrder[..|keyOrder|] == keyOrder;
  }

  lemma NothingCollected(rows: seq<Row>, key: Row -> string)
    requires |rows| == 0
    ensures Collected(map[], [], rows, key)
  {
  }

  lemma CollectedIs(keyMap: map<string, seq<Row>>, keyOrder: seq<string>, rows: seq<Row>, key: Row -> string)
    requires Collected(keyMap, keyOrder, rows, key)
    ensures keyOrder == Keys(rows, key)
    ensures forall j :: 0 <= j < |keyOrder| ==>
              keyOrder[j] in keyMap && keyMap[keyOrder[j]] == Having(rows, key, keyOrder[j])
  {
  }

  lemma NoGroups(ks: seq<string>, rows: seq<Row>, key: Row -> string, config: Option<(Sort, Dir)>)
    requires |ks| == 0
    ensures GroupsFor(ks, rows, key, config) == []
  {
  }

  lemma GroupsNext(ks: seq<string>, k: string, rows: seq<Row>, key: Row -> string, config: Option<(Sort, Dir)>)
    ensures GroupsFor(ks + [k], rows, key, config) ==
              GroupsFor(ks, rows, key, config) + [Group(k, SortRows(Having(rows, key, k), config))]
  {
    assert (ks + [k])[..|ks|] == ks;
  }

  predicate DistinctKeys(ks: seq<string>) {
    forall i, j :: 0 <= i < j < |ks| ==> ks[i] != ks[j]
  }

  /** Every key is some row's, no key comes twice, and keys come in the order of their first rows. */
  lemma {:induction false} KeysFacts(rows: seq<Row>, key: Row -> string)
    ensures DistinctKeys(Keys(rows, key))
    ensures forall r :: r in rows ==> key(r) in Keys(rows, key)
    ensures forall k :: k in Keys(rows, key) ==> exists r :: r in rows && key(r) == k
  {
    if rows != [] {
      var n := |rows| - 1;
      KeysFacts(rows[..n], key);
      assert forall r :: r in rows <==> r in rows[..n] || r == rows[n];
    }
  }

  /** Earlier rows' keys come first: the keys of a prefix are a prefix of the keys. */
  lemma {:induction false} KeysInOrder(rows: seq<Row>, key: Row -> string, n: nat)
    requires n <= |rows|
    ensures Keys(rows[..n], key) <= Keys(rows, key)
    decreases |rows|
  {
    if n < |rows| {
      var k := |rows| - 1;
      assert rows[..k][..n] == rows[..n];
      KeysInOrder(rows[..k], key, n);
    } else {
      assert rows[..n] == rows;
    }
  }

  lemma {:induction false} HavingIs(rows: seq<Row>, key: Row -> string, k: string)
    ensures forall r :: multiset(Having(rows, key, k))[r] == if key(r) == k then multiset(rows)[r] else 0
  {
    if rows != [] {
      var n := |rows| - 1;
      assert rows == rows[..n] + [rows[n]];
      HavingIs(rows[..n], key, k);
    }
  }

  function AllRows(groups: seq<Group>): seq<Row> {
    if groups == [] then [] else AllRows(groups[..|groups| - 1]) + groups[|groups| - 1].rows
  }

  ghost predicate ValidConfig(config: Option<(Sort, Dir)>) {
    config.Some? && config.value.0.ByText? ==> TotalPreorder(config.value.0.collate)
  }

  lemma SortRowsPermutes(rows: seq<Row>, config: Option<(Sort, Dir)>)
    requires ValidConfig(config)
    ensures multiset(SortRows(rows, config)) == multiset(rows)
  {
    if config.Some? {
      SortsAreOrders(config.value.0, config.value.1);
      SortedIsStable(rows, Comparison(config.value.0, config.value.1));
    }
  }

  lemma {:induction false} GroupsForFacts(ks: seq<string>, rows: seq<Row>, key: Row -> string,
                                          config: Option<(Sort, Dir)>)
    requires ValidConfig(config) && DistinctKeys(ks)
    ensures |GroupsFor(ks, rows, key, config)| == |ks|
    ensures forall i :: 0 <= i < |ks| ==>
              GroupsFor(ks, rows, key, config)[i] == Group(ks[i], SortRows(Having(rows, key, ks[i]), config))
    ensures forall r :: multiset(AllRows(GroupsFor(ks, rows, key, config)))[r] ==
              if key(r) in ks then multiset(rows)[r] else 0
  {
    hide SortRows, ValidConfig;
    if ks != [] {
      var n := |ks| - 1;
      GroupsForFacts(ks[..n], rows, key, config);
      SortRowsPermutes(Having(rows, key, ks[n]), config);
      HavingIs(rows, key, ks[n]);
      var before := GroupsFor(ks[..n], rows, key, config);
      var groups := GroupsFor(ks, rows, key, config);
      assert groups[..n] == before;
      assert forall k :: k in ks <==> k in ks[..n] || k == ks[n];
      assert ks[n] !in ks[..n];
    }
  }

  /** The groups partition the rows by key: one group a key, holding all its rows, sorted, and no others. */
  lemma GroupsPartition(rows: seq<Row>, key: Row -> string, config: Option<(Sort, Dir)>)
    requires ValidConfig(config)
    ensures var groups := Grouped(rows, key, config);
            && multiset(AllRows(groups)) == multiset(rows)
            && |groups| == |Keys(rows, key)|
            && (forall i :: 0 <= i < |groups| ==>
                  groups[i].key == Keys(rows, key)[i]
                      && groups[i].rows == SortRows(Having(rows, key, groups[i].key), config))
  {
    hide SortRows, ValidConfig, Keys, Having, GroupsFor, AllRows, DistinctKeys;
    KeysFacts(rows, key);
    GroupsForFacts(Keys(rows, key), rows, key, config);
    var groups := Grouped(rows, key, config);
    var all := AllRows(groups);
    forall r ensures multiset(all)[r] == multiset(rows)[r] {
      assert r in rows ==> key(r) in Keys(rows, key);
    }
    assert multiset(all) == multiset(rows);
  }

  // ---------- rendering ----------

  datatype Item = Header(key: string, count: nat) | Data(row: Row, index: nat) | Add(key: string)

  function DataItems(rows: seq<Row>): seq<Item> {
    if rows == [] then [] else DataItems(rows[..|rows| - 1]) + [Data(rows[|rows| - 1], |rows| - 1)]
  }

  function Block(g: Group, collapsed: set<string>): seq<Item> {
    [Header(g.key, |g.rows|)] + if g.key in collapsed then [] else DataItems(g.rows) + [Add(g.key)]
  }

  function Blocks(groups: seq<Group>, collapsed: set<string>): seq<Item> {
    if groups == [] then [] else Blocks(groups[..|groups| - 1], collapsed) + Block(groups[|groups| - 1], collapsed)
  }

  function Rendered(rows: seq<Row>, groups: Option<seq<Group>>, collapsed: set<string>): seq<Item> {
    if groups.None? then DataItems(rows) else Blocks(groups.value, collapsed)
  }

  method BuildRenderItems(rows: seq<Row>, groups: Option<seq<Group>>, collapsed: set<string>) returns (items: seq<Item>)
    ensures items == Rendered(rows, groups, collapsed)
  {
    if groups.None? { return DataItems(rows); }
    items := [];
    for i := 0 to |groups.value|
      invariant items == Blocks(groups.value[..i], collapsed)
    {
      var group := groups.value[i];
      ghost var before := items;
      assert groups.value[..i + 1][..i] == groups.value[..i];
      items := items + [Header(group.key, |group.rows|)];
      if group.key !in collapsed {
        ghost var header := items;
        for j := 0 to |group.rows|
          invariant items == header + DataItems(group.rows[..j])
        {
          assert group.rows[..j + 1][..j] == group.rows[..j];
          items := items + [Data(group.rows[j], j)];
        }
        assert group.rows[..|group.rows|] == group.rows;
        items := items + [Add(group.key)];
      }
      assert items == before + Block(group, collapsed);
    }
    assert groups.value[..|groups.value|] == groups.value;
  }

  // ---------- render keys ----------

  function ItemKey(item: Item): string {
    match item
    case Data(row, _) => "row-" + Decimal(row.id)
    case Header(key, _) => "group-header" + "-" + key
    case Add(key) => "group-add" + "-" + key
  }

  /** What an item's key stands for. */
  datatype Tag = RowTag(id: nat) | HeaderTag(key: string) | AddTag(key: string)

  function TagOf(item: Item): Tag {
    match item
    case Data(row, _) => RowTag(row.id)
    case Header(key, _) => HeaderTag(key)
    case Add(key) => AddTag(key)
  }

  lemma ItemKeyInjective(a: Item, b: Item)
    requires ItemKey(a) == ItemKey(b)
    ensures TagOf(a) == TagOf(b)
  {
    var (s, t) := (ItemKey(a), ItemKey(b));
    assert s[0] == t[0];
    assert a.Data? <==> s[0] == 'r';
    assert b.Data? <==> t[0] == 'r';
    if a.Data? {
      assert s[4..] == Decimal(a.row.id) && t[4..] == Decimal(b.row.id);
      DecimalInjective(a.row.id, b.row.id);
    } else {
      assert s[6] == t[6];
      assert a.Header? <==> s[6] == 'h';
      assert b.Header? <==> t[6] == 'h';
      if a.Header? {
        assert s[13..] == a.key && t[13..] == b.key;
      } else {
        assert s[10..] == a.key && t[10..] == b.key;
      }
    }
  }

  predicate DistinctIds(rows: seq<Row>) {
    DistinctBy(rows, (r: Row) => r.id)
  }

  function Ids(rows: seq<Row>): set<nat> {
    set r | r in rows :: r.id
  }

  lemma IdsSnoc(rows: seq<Row>, r: Row)
    ensures Ids(rows + [r]) == Ids(rows) + {r.id}
    ensures DistinctIds(rows + [r]) <==> DistinctIds(rows) && r.id !in Ids(rows)
  {
    var more := rows + [r];
    assert forall x :: x in more <==> x in rows || x == r;
    assert forall i :: 0 <= i < |rows| ==> more[i] == rows[i] && rows[i] in rows;
    assert more[|rows|] == r;
    if r.id in Ids(rows) {
      var x :| x in rows && x.id == r.id;
      var i :| 0 <= i < |rows| && rows[i] == x;
      assert more[i].id == more[|rows|].id;
    }
  }

  lemma {:induction false} DistinctIdsCount(rows: seq<Row>)
    ensures |Ids(rows)| <= |rows|
    ensures |Ids(rows)| == |rows| <==> DistinctIds(rows)
  {
    if rows != [] {
      var k := |rows| - 1;
      DistinctIdsCount(rows[..k]);
      IdsSnoc(rows[..k], rows[k]);
      assert rows[..k] + [rows[k]] == rows;
    }
  }

  lemma PermutedIds(xs: seq<Row>, ys: seq<Row>)
    requires multiset(xs) == multiset(ys) && DistinctIds(ys)
    ensures DistinctIds(xs)
  {
    DistinctIdsCount(xs);
    DistinctIdsCount(ys);
    assert |xs| == |multiset(xs)| == |multiset(ys)| == |ys|;
    assert forall r :: r in xs <==> r in multiset(xs);
    assert forall r :: r in ys <==> r in multiset(ys);
    assert Ids(xs) == Ids(ys);
  }

  predicate DistinctTags(items: seq<Item>) {
    forall i, j :: 0 <= i < j < |items| ==> TagOf(items[i]) != TagOf(items[j])
  }

  lemma DistinctAppend(xs: seq<Item>, ys: seq<Item>)
    requires DistinctTags(xs) && DistinctTags(ys)
    requires forall x, y :: x in xs && y in ys ==> TagOf(x) != TagOf(y)
    ensures DistinctTags(xs + ys)
  {
    var all := xs + ys;
    forall i, j | 0 <= i < j < |all| ensures TagOf(all[i]) != TagOf(all[j]) {
      if i < |xs| <= j { assert xs[i] in xs && ys[j - |xs|] in ys; }
    }
  }

  lemma {:induction false} DataTags(rows: seq<Row>)
    ensures forall x :: x in DataItems(rows) ==> x.Data? && x.row in rows
    ensures DistinctIds(rows) ==> DistinctTags(DataItems(rows))
    decreases |rows|
  {
    if rows != [] {
      var k := |rows| - 1;
      DataTags(rows[..k]);
      assert forall r :: r in rows[..k] ==> r in rows;
      if DistinctIds(rows) {
        forall x, y | x in DataItems(rows[..k]) && y in [Data(rows[k], k)] ensures TagOf(x) != TagOf(y) {
          var i :| 0 <= i < k && rows[..k][i] == x.row;
          assert rows[i] == x.row;
        }
        DistinctAppend(DataItems(rows[..k]), [Data(rows[k], k)]);
      }
    }
  }

  /** The block's items stand for the group's rows and its key. */
  predicate BelongsTo(t: Tag, rows: seq<Row>, keys: set<string>) {
    match t
    case RowTag(id) => id in Ids(rows)
    case HeaderTag(k) => k in keys
    case AddTag(k) => k in keys
  }

  lemma BlockTags(g: Group, collapsed: set<string>)
    requires DistinctIds(g.rows)
    ensures DistinctTags(Block(g, collapsed))
    ensures forall x :: x in Block(g, collapsed) ==> BelongsTo(TagOf(x), g.rows, {g.key})
  {
    DataTags(g.rows);
    if g.key !in collapsed {
      DistinctAppend(DataItems(g.rows), [Add(g.key)]);
      DistinctAppend([Header(g.key, |g.rows|)], DataItems(g.rows) + [Add(g.key)]);
    }
  }

  function GroupKeys(groups: seq<Group>): set<string> {
    set g | g in groups :: g.key
  }

  lemma {:induction false} BlocksTags(groups: seq<Group>, collapsed: set<string>)
    requires DistinctIds(AllRows(groups))
    requires forall i, j :: 0 <= i < j < |groups| ==> groups[i].key != groups[j].key
    ensures DistinctTags(Blocks(groups, collapsed))
    ensures forall x :: x in Blocks(groups, collapsed) ==> BelongsTo(TagOf(x), AllRows(groups), GroupKeys(groups))
  {
    hide Block, DistinctIds, DistinctTags;
    if groups == [] {
      assert DistinctTags([]) by { NoTags([]); }
    } else {
      var k := |groups| - 1;
      var rest := groups[..k];
      var g := groups[k];
      SplitIds(AllRows(rest), g.rows);
      BlocksTags(rest, collapsed);
      BlockTags(g, collapsed);
      assert forall h :: h in groups <==> h in rest || h == g;
      assert g.key !in GroupKeys(rest);
      forall x, y | x in Blocks(rest, collapsed) && y in Block(g, collapsed) ensures TagOf(x) != TagOf(y) {
        assert BelongsTo(TagOf(x), AllRows(rest), GroupKeys(rest));
        assert BelongsTo(TagOf(y), g.rows, {g.key});
      }
      DistinctAppend(Blocks(rest, collapsed), Block(g, collapsed));
      assert Ids(AllRows(groups)) == Ids(AllRows(rest)) + Ids(g.rows);
    }
  }

  lemma NoTags(items: seq<Item>)
    requires |items| == 0
    ensures DistinctTags(items)
  {
  }

  lemma SplitIds(xs: seq<Row>, ys: seq<Row>)
    requires DistinctIds(xs + ys)
    ensures DistinctIds(xs) && DistinctIds(ys) && Ids(xs) !! Ids(ys)
  {
    var all := xs + ys;
    assert forall i :: 0 <= i < |xs| ==> all[i] == xs[i];
    assert forall j :: 0 <= j < |ys| ==> all[|xs| + j] == ys[j];
    forall x, y | x in xs && y in ys ensures x.id != y.id {
      var i :| 0 <= i < |xs| && xs[i] == x;
      var j :| 0 <= j < |ys| && ys[j] == y;
    }
  }

  lemma GroupedTagsDistinct(rows: seq<Row>, key: Row -> string, config: Option<(Sort, Dir)>, collapsed: set<string>)
    requires DistinctIds(rows) && ValidConfig(config)
    ensures DistinctTags(Blocks(Grouped(rows, key, config), collapsed))
  {
    hide Blocks, Grouped, DistinctIds, AllRows, SortRows, Having, Keys, DistinctTags;
    var groups := Grouped(rows, key, config);
    GroupsPartition(rows, key, config);
    KeysFacts(rows, key);
    PermutedIds(AllRows(groups), rows);
    BlocksTags(groups, collapsed);
  }

  /** What the table shows: its sorted rows, or its groups. */
  function Screen(rows: seq<Row>, grouping: Option<Row -> string>, config: Option<(Sort, Dir)>,
                  collapsed: set<string>): seq<Item> {
    Rendered(SortRows(rows, config),
             if grouping.None? then None else Some(Grouped(rows, grouping.value, config)),
             collapsed)
  }

  /** All render keys are pairwise distinct, grouped or not and whatever is collapsed. */
  lemma RenderKeysDistinct(rows: seq<Row>, grouping: Option<Row -> string>, config: Option<(Sort, Dir)>,
                           collapsed: set<string>, i: nat, j: nat)
    requires DistinctIds(rows) && ValidConfig(config)
    requires i < j < |Screen(rows, grouping, config, collapsed)|
    ensures var items := Screen(rows, grouping, config, collapsed); ItemKey(items[i]) != ItemKey(items[j])
  {
    hide Blocks, Grouped, DistinctIds, ItemKey, SortRows, DataItems;
    var items := Screen(rows, grouping, config, collapsed);
    if grouping.Some? {
      GroupedTagsDistinct(rows, grouping.value, config, collapsed);
    } else {
      SortRowsPermutes(rows, config);
      PermutedIds(SortRows(rows, config), rows);
      DataTags(SortRows(rows, config));
    }
    if ItemKey(items[i]) == ItemKey(items[j]) {
      ItemKeyInjective(items[i], items[j]);
    }
  }

  // ---------- nothing is lost on the screen ----------

  function Shown(items: seq<Item>): seq<Row> {
    if items == [] then []
    else Shown(items[..|items| - 1]) + if items[|items| - 1].Data? then [items[|items| - 1].row] else []
  }

  function Expanded(groups: seq<Group>, collapsed: set<string>): seq<Group> {
    if groups == [] then []
    else
      var g := groups[|groups| - 1];
      Expanded(groups[..|groups| - 1], collapsed) + if g.key in collapsed then [] else [g]
  }

  lemma {:induction false} ShownAppend(xs: seq<Item>, ys: seq<Item>)
    ensures Shown(xs + ys) == Shown(xs) + Shown(ys)
    decreases |ys|
  {
    if ys == [] {
      assert xs + ys == xs;
    } else {
      var k := |ys| - 1;
      assert (xs + ys)[..|xs| + k] == xs + ys[..k];
      ShownAppend(xs, ys[..k]);
    }
  }

  lemma {:induction false} ShownData(rows: seq<Row>)
    ensures Shown(DataItems(rows)) == rows
  {
    if rows != [] {
      var k := |rows| - 1;
      ShownData(rows[..k]);
      assert DataItems(rows)[..|DataItems(rows)| - 1] == DataItems(rows[..k]);
      assert rows[..k] + [rows[k]] == rows;
    }
  }

  lemma ShownBlock(g: Group, collapsed: set<string>)
    ensures Shown(Block(g, collapsed)) == if g.key in collapsed then [] else g.rows
  {
    ShownAppend([Header(g.key, |g.rows|)], DataItems(g.rows) + [Add(g.key)]);
    ShownAppend(DataItems(g.rows), [Add(g.key)]);
    ShownData(g.rows);
  }

  lemma {:induction false} ShownBlocks(groups: seq<Group>, collapsed: set<string>)
    ensures Shown(Blocks(groups, collapsed)) == AllRows(Expanded(groups, collapsed))
  {
    hide Block, Shown;
    if groups == [] {
      NoneShown([]);
    } else {
      var k := |groups| - 1;
      var before := Expanded(groups[..k], collapsed);
      ShownBlocks(groups[..k], collapsed);
      ShownAppend(Blocks(groups[..k], collapsed), Block(groups[k], collapsed));
      ShownBlock(groups[k], collapsed);
      assert (before + [groups[k]])[..|before|] == before;
      assert before + [] == before;
    }
  }

  lemma NoneShown(items: seq<Item>)
    requires |items| == 0
    ensures Shown(items) == []
  {
  }

  lemma {:induction false} ExpandedCounts(ks: seq<string>, rows: seq<Row>, key: Row -> string,
                                          config: Option<(Sort, Dir)>, collapsed: set<string>)
    requires ValidConfig(config) && DistinctKeys(ks)
    ensures forall r :: multiset(AllRows(Expanded(GroupsFor(ks, rows, key, config), collapsed)))[r]
                        == if key(r) in ks && key(r) !in collapsed then multiset(rows)[r] else 0
  {
    hide SortRows, ValidConfig, Having;
    if ks != [] {
      var n := |ks| - 1;
      ExpandedCounts(ks[..n], rows, key, config, collapsed);
      SortRowsPermutes(Having(rows, key, ks[n]), config);
      HavingIs(rows, key, ks[n]);
      var groups := GroupsFor(ks, rows, key, config);
      var before := Expanded(GroupsFor(ks[..n], rows, key, config), collapsed);
      assert groups[..|groups| - 1] == GroupsFor(ks[..n], rows, key, config);
      assert (before + [groups[|groups| - 1]])[..|before|] == before && before + [] == before;
      assert forall k :: k in ks <==> k in ks[..n] || k == ks[n];
      assert ks[n] !in ks[..n];
    }
  }

  lemma GroupedRowsShown(rows: seq<Row>, key: Row -> string, config: Option<(Sort, Dir)>, collapsed: set<string>,
                         r: Row)
    requires ValidConfig(config)
    ensures multiset(Shown(Blocks(Grouped(rows, key, config), collapsed)))[r]
            == if key(r) in collapsed then 0 else multiset(rows)[r]
  {
    hide Blocks, Shown, AllRows, Expanded, GroupsFor, Keys, DistinctKeys, ValidConfig;
    KeysFacts(rows, key);
    ShownBlocks(Grouped(rows, key, config), collapsed);
    ExpandedCounts(Keys(rows, key), rows, key, config, collapsed);
    assert r in rows ==> key(r) in Keys(rows, key);
  }

  /** The screen shows every row once, but for those of collapsed groups; without groups it shows the sorted rows. */
  lemma RowsShown(rows: seq<Row>, grouping: Option<Row -> string>, config: Option<(Sort, Dir)>, collapsed: set<string>,
                  r: Row)
    requires ValidConfig(config)
    ensures multiset(Shown(Screen(rows, grouping, config, collapsed)))[r]
            == if grouping.Some? && grouping.value(r) in collapsed then 0 else multiset(rows)[r]
    ensures grouping.None? ==> Shown(Screen(rows, grouping, config, collapsed)) == SortRows(rows, config)
  {
    hide Blocks, Shown, Grouped, SortRows, DataItems;
    if grouping.Some? {
      GroupedRowsShown(rows, grouping.value, config, collapsed, r);
    } else {
      SortRowsPermutes(rows, config);
      ShownData(SortRows(rows, config));
    }
  }

  /** A header's count is the number of rows with its key. */
  lemma {:induction false} HeaderCounts(groups: seq<Group>, collapsed: set<string>, rows: seq<Row>, key: Row -> string)
    requires forall g :: g in groups ==> |g.rows| == |Having(rows, key, g.key)|
    ensures forall x :: x in Blocks(groups, collapsed) && x.Header? ==> x.count == |Having(rows, key, x.key)|
  {
    if groups != [] {
      var k := |groups| - 1;
      assert forall g :: g in groups[..k] ==> g in groups;
      HeaderCounts(groups[..k], collapsed, rows, key);
      DataTags(groups[k].rows);
      assert groups[k] in groups;
    }
  }

  lemma GroupSizes(rows: seq<Row>, key: Row -> string, config: Option<(Sort, Dir)>, collapsed: set<string>)
    requires ValidConfig(config)
    ensures forall x :: x in Rendered(rows, Some(Grouped(rows, key, config)), collapsed) && x.Header? ==>
              x.count == |Having(rows, key, x.key)|
  {
    hide Blocks, Having, Keys, SortRows, Grouped, AllRows;
    var groups := Grouped(rows, key, config);
    GroupsPartition(rows, key, config);
    forall g | g in groups ensures |g.rows| == |Having(rows, key, g.key)| {
      var i :| 0 <= i < |groups| && groups[i] == g;
      SortRowsPermutes(Having(rows, key, g.key), config);
      SameSize(g.rows, Having(rows, key, g.key));
    }
    HeaderCounts(groups, collapsed, rows, key);
  }

  lemma SameSize(xs: seq<Row>, ys: seq<Row>)
    requires multiset(xs) == multiset(ys)
    ensures |xs| == |ys|
  {
    assert |multiset(xs)| == |xs| && |multiset(ys)| == |ys|;
  }
}
