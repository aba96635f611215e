/** The workflow graph stored in table rows: its edges, and what deleting a node or an edge does to them. */
module Workflow {
  import opened Basics
  import opened Decimals

  /** A `nexts` cell: the list its JSON holds, or anything the code reads as no list. */
  datatype Nexts = List(ids: seq<string>) | NoList

  /** An empty `graph` belongs to every graph. */
  datatype Row = Row(id: nat, graph: string, nexts: Nexts, trueNext: string, falseNext: string)

  /** Which of the three reference columns the table has. */
  datatype Columns = Columns(nexts: bool, trueNext: bool, falseNext: bool)

  datatype Edge = Edge(id: string, source: string, handle: Option<string>, target: string)

  function IdsOf(rows: seq<Row>): set<string> {
    set r | r in rows :: Decimal(r.id)
  }

  function ListOf(n: Nexts): seq<string> {
    if n.List? then n.ids else []
  }

  function EdgeId(source: string, handle: Option<string>, target: string): string {
    "e-" + source + "-" + (if handle.Some? then handle.value + "-" else "") + target
  }

  function MakeEdge(source: string, handle: Option<string>, target: string): Edge {
    Edge(EdgeId(source, handle, target), source, handle, target)
  }

  function ListEdges(source: string, targets: seq<string>, ids: set<string>): seq<Edge> {
    if targets == [] then []
    else
      var t := targets[|targets| - 1];
      ListEdges(source, targets[..|targets| - 1], ids) + if t in ids then [MakeEdge(source, None, t)] else []
  }

  function OneEdge(source: string, handle: string, target: string, ids: set<string>): seq<Edge> {
    if target != "" && target in ids then [MakeEdge(source, Some(handle), target)] else []
  }

  /** The edges a row stores. */
  function RowEdges(row: Row, ids: set<string>, cols: Columns): seq<Edge> {
    var source := Decimal(row.id);
    (if cols.nexts then ListEdges(source, ListOf(row.nexts), ids) else [])
    + (if cols.trueNext then OneEdge(source, "true", row.trueNext, ids) else [])
    + (if cols.falseNext then OneEdge(source, "false", row.falseNext, ids) else [])
  }

  function EdgesOver(rows: seq<Row>, ids: set<string>, cols: Columns): seq<Edge> {
    if rows == [] then [] else EdgesOver(rows[..|rows| - 1], ids, cols) + RowEdges(rows[|rows| - 1], ids, cols)
  }

  function Edges(rows: seq<Row>, cols: Columns): seq<Edge> {
    EdgesOver(rows, IdsOf(rows), cols)
  }

  method PushRowEdges(row: Row, ids: set<string>, cols: Columns) returns (edges: seq<Edge>)
    ensures edges == RowEdges(row, ids, cols)
  {
    edges := [];
    var source := Decimal(row.id);
    if cols.nexts {
      var arr := ListOf(row.nexts);
      for j := 0 to |arr|
        invariant edges == ListEdges(source, arr[..j], ids)
      {
        assert arr[..j + 1][..j] == arr[..j];
        if arr[j] in ids { edges := edges + [MakeEdge(source, None, arr[j])]; }
      }
      assert arr[..|arr|] == arr;
    }
    if cols.trueNext && row.trueNext != "" && row.trueNext in ids {
      edges := edges + [MakeEdge(source, Some("true"), row.trueNext)];
    }
    if cols.falseNext && row.falseNext != "" && row.falseNext in ids {
      edges := edges + [MakeEdge(source, Some("false"), row.falseNext)];
    }
  }

  method DeriveEdges(rows: seq<Row>, cols: Columns) returns (edges: seq<Edge>)
    ensures edges == Edges(rows, cols)
  {
    hide RowEdges;
    var ids := set r | r in rows :: Decimal(r.id);
    edges := [];
    for i := 0 to |rows|
      invariant edges == EdgesOver(rows[..i], ids, cols)
    {
      assert rows[..i + 1][..i] == rows[..i];
      var pushed := PushRowEdges(rows[i], ids, cols);
      edges := edges + pushed;
    }
    assert rows[..|rows|] == rows;
  }

  // ---------- deleting a node ----------

  function Without(ids: seq<string>, target: string): seq<string> {
    if ids == [] then []
    else Without(ids[..|ids| - 1], target) + if ids[|ids| - 1] == target then [] else [ids[|ids| - 1]]
  }

  function Cleaned(row: Row, target: string, cols: Columns): Row {
    row.(nexts := if cols.nexts && target in ListOf(row.nexts) then List(Without(ListOf(row.nexts), target))
                  else row.nexts,
         trueNext := if cols.trueNext && row.trueNext == target then "" else row.trueNext,
         falseNext := if cols.falseNext && row.falseNext == target then "" else row.falseNext)
  }

  function Deleted(rows: seq<Row>, id: nat, cols: Columns): seq<Row> {
    if rows == [] then []
    else
      var r := rows[|rows| - 1];
      Deleted(rows[..|rows| - 1], id, cols) + if r.id == id then [] else [Cleaned(r, Decimal(id), cols)]
  }

  predicate DistinctIds(rows: seq<Row>) {
    DistinctBy(rows, (r: Row) => r.id)
  }

  function Updated(rows: seq<Row>, row: Row): seq<Row> {
    seq(|rows|, i requires 0 <= i < |rows| => if rows[i].id == row.id then row else rows[i])
  }

  function WithoutRow(rows: seq<Row>, id: nat): seq<Row> {
    if rows == [] then []
    else WithoutRow(rows[..|rows| - 1], id) + if rows[|rows| - 1].id == id then [] else [rows[|rows| - 1]]
  }

  /** The shared row snapshot, which every response of the backend updates. */
  class RowStore {
    var rows: seq<Row>

    method UpdateRow(row: Row)
      modifies this
      ensures rows == Updated(old(rows), row)
    {
      rows := Updated(rows, row);
    }

    method DeleteRow(id: nat)
      modifies this
      ensures rows == WithoutRow(old(rows), id)
    {
      rows := WithoutRow(rows, id);
    }

    method DeleteNode(cols: Columns, id: nat)
      requires DistinctIds(rows)
      modifies this
      ensures rows == Deleted(old(rows), id, cols)
    {
      hide Cleaned;
      var target := Decimal(id);
      var snapshot := rows;
      assert AlmostDeleted(snapshot, 0, id, cols) == rows;
      for i := 0 to |snapshot|
        invariant rows == AlmostDeleted(snapshot, i, id, cols)
      {
        var row := snapshot[i];
        if row.id != id {
          var patched := row;
          if cols.nexts {
            var arr := ListOf(row.nexts);
            if target in arr { patched := patched.(nexts := List(Without(arr, target))); }
          }
          if cols.trueNext && row.trueNext == target { patched := patched.(trueNext := ""); }
          if cols.falseNext && row.falseNext == target { patched := patched.(falseNext := ""); }
          assert patched == Cleaned(row, target, cols) by { CleanedIs(row, target, cols); }
          if patched != row { UpdateRow(patched); }
        }
        NextCleaned(snapshot, i, id, cols);
      }
      DeletedRest(snapshot, id, cols);
      DeleteRow(id);
    }

    method RemoveEdgeByParts(cols: Columns, source: nat, handle: Option<string>, target: string)
      requires DistinctIds(rows)
      modifies this
      ensures rows == Removed(old(rows), cols, source, handle, target)
    {
      var i := 0;
      while i < |rows| && rows[i].id != source
        invariant 0 <= i <= |rows|
        invariant rows == old(rows)
        invariant forall j :: 0 <= j < i ==> rows[j].id != source
      {
        i := i + 1;
      }
      if i == |rows| {
        assert Removed(rows, cols, source, handle, target) == rows;
        return;
      }
      var row := rows[i];
      if handle == Some("true") && cols.trueNext {
        row := row.(trueNext := "");
      } else if handle == Some("false") && cols.falseNext {
        row := row.(falseNext := "");
      } else if cols.nexts {
        row := row.(nexts := List(Without(ListOf(row.nexts), target)));
      }
      UpdateRow(row);
      assert Updated(old(rows), row) == Removed(old(rows), cols, source, handle, target);
    }
  }

  lemma CleanedIs(row: Row, target: string, cols: Columns)
    ensures Cleaned(row, target, cols) ==
            Row(row.id, row.graph,
                if cols.nexts && target in ListOf(row.nexts) then List(Without(ListOf(row.nexts), target))
                else row.nexts,
                if cols.trueNext && row.trueNext == target then "" else row.trueNext,
                if cols.falseNext && row.falseNext == target then "" else row.falseNext)
    ensures Cleaned(row, target, cols).id == row.id && Cleaned(row, target, cols).graph == row.graph
  {
  }

  /** The rows with the first `n` cleaned and the node still there. */
  function AlmostDeleted(rows: seq<Row>, n: nat, id: nat, cols: Columns): (r: seq<Row>)
    ensures |r| == |rows|
  {
    seq(|rows|, i requires 0 <= i < |rows| =>
      if i < n && rows[i].id != id then Cleaned(rows[i], Decimal(id), cols) else rows[i])
  }

  lemma NextCleaned(rows: seq<Row>, i: nat, id: nat, cols: Columns)
    requires DistinctIds(rows) && i < |rows|
    ensures rows[i].id == id ==> AlmostDeleted(rows, i + 1, id, cols) == AlmostDeleted(rows, i, id, cols)
    ensures rows[i].id != id && Cleaned(rows[i], Decimal(id), cols) == rows[i] ==>
              AlmostDeleted(rows, i + 1, id, cols) == AlmostDeleted(rows, i, id, cols)
    ensures rows[i].id != id ==>
              AlmostDeleted(rows, i + 1, id, cols) ==
                  Updated(AlmostDeleted(rows, i, id, cols), Cleaned(rows[i], Decimal(id), cols))
  {
    forall j | 0 <= j < |rows| ensures Cleaned(rows[j], Decimal(id), cols).id == rows[j].id {
      CleanedIs(rows[j], Decimal(id), cols);
    }
  }

  lemma {:induction false} DeletedRest(rows: seq<Row>, id: nat, cols: Columns)
    ensures WithoutRow(AlmostDeleted(rows, |rows|, id, cols), id) == Deleted(rows, id, cols)
  {
    if rows != [] {
      var k := |rows| - 1;
      DeletedRest(rows[..k], id, cols);
      assert AlmostDeleted(rows, |rows|, id, cols)[..k] == AlmostDeleted(rows[..k], k, id, cols);
      CleanedIs(rows[k], Decimal(id), cols);
    }
  }

  function NotTouching(edges: seq<Edge>, node: string): seq<Edge> {
    if edges == [] then []
    else
      var e := edges[|edges| - 1];
      NotTouching(edges[..|edges| - 1], node) + if e.source == node || e.target == node then [] else [e]
  }

  lemma NotTouchingSnoc(edges: seq<Edge>, e: Edge, node: string)
    ensures NotTouching(edges + [e], node) ==
              NotTouching(edges, node) + if e.source == node || e.target == node then [] else [e]
    ensures edges + [] == edges
  {
    assert (edges + [e])[..|edges|] == edges;
  }

  lemma {:induction false} NotTouchingAppend(xs: seq<Edge>, ys: seq<Edge>, node: string)
    ensures NotTouching(xs + ys, node) == NotTouching(xs, node) + NotTouching(ys, node)
    decreases |ys|
  {
    if ys == [] {
      assert xs + ys == xs;
    } else {
      var k := |ys| - 1;
      assert (xs + ys)[..|xs| + k] == xs + ys[..k];
      NotTouchingAppend(xs, ys[..k], node);
    }
  }

  lemma {:induction false} ListEdgesCleaned(source: string, targets: seq<string>, ids: set<string>, node: string)
    ensures source != node ==>
              ListEdges(source, Without(targets, node), ids - {node}) ==
                  NotTouching(ListEdges(source, targets, ids), node)
    ensures source == node ==> NotTouching(ListEdges(source, targets, ids), node) == []
  {
    if targets != [] {
      var k := |targets| - 1;
      ListEdgesCleaned(source, targets[..k], ids, node);
      var shorter := Without(targets[..k], node);
      assert (shorter + [targets[k]])[..|shorter|] == shorter && shorter + [] == shorter;
      assert ListEdges(source, shorter, ids - {node}) + [] == ListEdges(source, shorter, ids - {node});
      NotTouchingSnoc(ListEdges(source, targets[..k], ids), MakeEdge(source, None, targets[k]), node);
    }
  }

  lemma {:induction false} WithoutNothing(ids: seq<string>, target: string)
    ensures target !in Without(ids, target)
    ensures target !in ids ==> Without(ids, target) == ids
  {
    if ids != [] {
      var k := |ids| - 1;
      WithoutNothing(ids[..k], target);
      assert ids[..k] + [ids[k]] == ids;
    }
  }

  lemma OneEdgeCleaned(source: string, handle: string, target: string, ids: set<string>, node: string)
    requires node != ""
    ensures source != node ==>
              OneEdge(source, handle, if target == node then "" else target, ids - {node}) ==
                  NotTouching(OneEdge(source, handle, target, ids), node)
    ensures source == node ==> NotTouching(OneEdge(source, handle, target, ids), node) == []
  {
    var e := MakeEdge(source, Some(handle), target);
    assert [e][..0] == [];
  }

  /** A cleaned row stores exactly its old edges but for those that touch the node. */
  lemma RowEdgesCleaned(row: Row, ids: set<string>, cols: Columns, node: string)
    requires node != ""
    ensures Decimal(row.id) != node ==>
              RowEdges(Cleaned(row, node, cols), ids - {node}, cols) == NotTouching(RowEdges(row, ids, cols), node)
    ensures Decimal(row.id) == node ==> NotTouching(RowEdges(row, ids, cols), node) == []
  {
    hide ListEdges, OneEdge, NotTouching, Without;
    var source := Decimal(row.id);
    var n := if cols.nexts then ListEdges(source, ListOf(row.nexts), ids) else [];
    var t := if cols.trueNext then OneEdge(source, "true", row.trueNext, ids) else [];
    var f := if cols.falseNext then OneEdge(source, "false", row.falseNext, ids) else [];
    NotTouchingAppend(n + t, f, node);
    NotTouchingAppend(n, t, node);
    NoneTouching([], node);
    ListEdgesCleaned(source, ListOf(row.nexts), ids, node);
    WithoutNothing(ListOf(row.nexts), node);
    OneEdgeCleaned(source, "true", row.trueNext, ids, node);
    OneEdgeCleaned(source, "false", row.falseNext, ids, node);
  }

  lemma NoneTouching(edges: seq<Edge>, node: string)
    requires |edges| == 0
    ensures NotTouching(edges, node) == []
  {
  }

  lemma NoneLeft(xs: seq<Edge>, ys: seq<Edge>, node: string)
    requires NotTouching(ys, node) == []
    ensures NotTouching(xs + ys, node) == NotTouching(xs, node)
  {
    NotTouchingAppend(xs, ys, node);
  }

  lemma {:induction false} EdgesOverCleaned(rows: seq<Row>, ids: set<string>, cols: Columns, id: nat)
    ensures EdgesOver(Deleted(rows, id, cols), ids - {Decimal(id)}, cols) ==
              NotTouching(EdgesOver(rows, ids, cols), Decimal(id))
  {
    hide RowEdges, Cleaned;
    var node := Decimal(id);
    if rows != [] {
      var k := |rows| - 1;
      EdgesOverCleaned(rows[..k], ids, cols, id);
      NotTouchingAppend(EdgesOver(rows[..k], ids, cols), RowEdges(rows[k], ids, cols), node);
      RowEdgesCleaned(rows[k], ids, cols, node);
      var before := Deleted(rows[..k], id, cols);
      if rows[k].id != id {
        if Decimal(rows[k].id) == node { DecimalInjective(rows[k].id, id); }
        assert (before + [Cleaned(rows[k], node, cols)])[..|before|] == before;
      } else {
        assert before + [] == before;
        NoneLeft(EdgesOver(rows[..k], ids, cols), RowEdges(rows[k], ids, cols), node);
      }
    }
  }

  lemma NodesSnoc(rows: seq<Row>, r: Row)
    ensures IdsOf(rows + [r]) == IdsOf(rows) + {Decimal(r.id)} && rows + [] == rows
  {
    assert forall x :: x in rows + [r] <==> x in rows || x == r;
  }

  lemma {:induction false} IdsAfterDelete(rows: seq<Row>, id: nat, cols: Columns)
    ensures IdsOf(Deleted(rows, id, cols)) == IdsOf(rows) - {Decimal(id)}
  {
    if rows != [] {
      hide Cleaned, IdsOf, Decimal;
      var k := |rows| - 1;
      var node := Decimal(id);
      var before := Deleted(rows[..k], id, cols);
      IdsAfterDelete(rows[..k], id, cols);
      CleanedIs(rows[k], node, cols);
      NodesSnoc(rows[..k], rows[k]);
      NodesSnoc(before, Cleaned(rows[k], node, cols));
      assert rows[..k] + [rows[k]] == rows;
      if Decimal(rows[k].id) == node { DecimalInjective(rows[k].id, id); }
    } else {
      assert IdsOf([]) == {};
    }
  }

  /** Deleting a node leaves exactly the old edges, in order, but for those touching it. */
  lemma DeleteKeepsOtherEdges(rows: seq<Row>, id: nat, cols: Columns)
    ensures Edges(Deleted(rows, id, cols), cols) == NotTouching(Edges(rows, cols), Decimal(id))
  {
    IdsAfterDelete(rows, id, cols);
    EdgesOverCleaned(rows, IdsOf(rows), cols, id);
  }

  predicate Refers(row: Row, target: string, cols: Columns) {
    || (cols.nexts && target in ListOf(row.nexts))
    || (cols.trueNext && row.trueNext == target)
    || (cols.falseNext && row.falseNext == target)
  }

  /** No stored reference to a deleted node is left, shown as an edge or not. */
  lemma {:induction false} DeleteLeavesNoReference(rows: seq<Row>, id: nat, cols: Columns)
    ensures forall r :: r in Deleted(rows, id, cols) ==> r.id != id && !Refers(r, Decimal(id), cols)
  {
    if rows != [] {
      var k := |rows| - 1;
      DeleteLeavesNoReference(rows[..k], id, cols);
      WithoutNothing(ListOf(rows[k].nexts), Decimal(id));
    }
  }

  /** The rows a graph's tab shows. */
  function GraphRows(rows: seq<Row>, graph: string): seq<Row> {
    if rows == [] then []
    else
      var r := rows[|rows| - 1];
      GraphRows(rows[..|rows| - 1], graph) + if r.graph == "" || r.graph == graph then [r] else []
  }

  lemma DeletedSnoc(rows: seq<Row>, r: Row, id: nat, cols: Columns)
    ensures Deleted(rows + [r], id, cols) ==
              Deleted(rows, id, cols) + if r.id == id then [] else [Cleaned(r, Decimal(id), cols)]
  {
    assert (rows + [r])[..|rows|] == rows;
  }

  lemma GraphSnoc(rows: seq<Row>, r: Row, graph: string)
    ensures GraphRows(rows + [r], graph) ==
              GraphRows(rows, graph) + if r.graph == "" || r.graph == graph then [r] else []
    ensures rows + [] == rows
  {
    assert (rows + [r])[..|rows|] == rows;
  }

  lemma {:induction false} GraphOfDeleted(rows: seq<Row>, id: nat, cols: Columns, graph: string)
    ensures GraphRows(Deleted(rows, id, cols), graph) == Deleted(GraphRows(rows, graph), id, cols)
  {
    if rows != [] {
      hide Cleaned, Deleted, GraphRows;
      var k := |rows| - 1;
      var (r, c) := (rows[k], Cleaned(rows[k], Decimal(id), cols));
      assert rows[..k] + [r] == rows;
      GraphOfDeleted(rows[..k], id, cols, graph);
      CleanedIs(r, Decimal(id), cols);
      DeletedSnoc(rows[..k], r, id, cols);
      GraphSnoc(rows[..k], r, graph);
      DeletedSnoc(GraphRows(rows[..k], graph), r, id, cols);
      GraphSnoc(Deleted(rows[..k], id, cols), c, graph);
      GraphSnoc(GraphRows(rows[..k], graph), r, graph);
      assert Deleted(GraphRows(rows[..k], graph), id, cols) + [] == Deleted(GraphRows(rows[..k], graph), id, cols);
    }
  }

  /** On the tab of any graph too: the edges shown are those shown before, but for the ones touching the node. */
  lemma DeleteOnGraph(rows: seq<Row>, id: nat, cols: Columns, graph: string)
    ensures Edges(GraphRows(Deleted(rows, id, cols), graph), cols) ==
              NotTouching(Edges(GraphRows(rows, graph), cols), Decimal(id))
  {
    GraphOfDeleted(rows, id, cols, graph);
    DeleteKeepsOtherEdges(GraphRows(rows, graph), id, cols);
  }

  // ---------- removing an edge ----------

  function RemovedFrom(row: Row, cols: Columns, handle: Option<string>, target: string): Row {
    if handle == Some("true") && cols.trueNext then row.(trueNext := "")
    else if handle == Some("false") && cols.falseNext then row.(falseNext := "")
    else if cols.nexts then row.(nexts := List(Without(ListOf(row.nexts), target)))
    else row
  }

  function Removed(rows: seq<Row>, cols: Columns, source: nat, handle: Option<string>, target: string): seq<Row> {
    seq(|rows|, i requires 0 <= i < |rows| =>
      if rows[i].id == source then RemovedFrom(rows[i], cols, handle, target) else rows[i])
  }

  function FindEdge(edges: seq<Edge>, id: string): (e: Option<Edge>)
    ensures e.Some? ==> e.value in edges && e.value.id == id
    ensures e.None? ==> forall x :: x in edges ==> x.id != id
  {
    if edges == [] then None else if edges[0].id == id then Some(edges[0]) else FindEdge(edges[1..], id)
  }

  predicate IsNumeral(s: string) {
    s != "" && forall i :: 0 <= i < |s| ==> IsDigit(s[i])
  }

  function Number(s: string): nat {
    if IsNumeral(s) then Parse(s) else 0
  }

  function ParseEdgeId(edges: seq<Edge>, edgeId: string): Option<(nat, Option<string>, string)> {
    match FindEdge(edges, edgeId)
    case None => None
    case Some(e) => Some((Number(e.source), e.handle, e.target))
  }

  function NotNamed(edges: seq<Edge>, id: string): seq<Edge> {
    if edges == [] then []
    else
      var e := edges[|edges| - 1];
      NotNamed(edges[..|edges| - 1], id) + if e.id == id then [] else [e]
  }

  predicate Formed(e: Edge) {
    && e.id == EdgeId(e.source, e.handle, e.target)
    && IsNumeral(e.source) && IsNumeral(e.target)
    && (e.handle.Some? ==> e.handle.value == "true" || e.handle.value == "false")
  }

  predicate AllFormed(edges: seq<Edge>, source: string) {
    forall e :: e in edges ==> Formed(e) && e.source == source
  }

  function Rest(e: Edge): string {
    (if e.handle.Some? then e.handle.value + "-" else "") + e.target
  }

  lemma IdIs(e: Edge)
    requires Formed(e)
    ensures e.id == ("e-" + e.source + "-") + Rest(e)
  {
  }

  lemma NumeralDigits(s: string)
    requires IsNumeral(s)
    ensures forall i :: 0 <= i < |s| ==> IsDigit(s[i])
  {
  }

  lemma IdParts(e: Edge)
    requires Formed(e)
    ensures var n := |e.source|;
            && |e.id| == n + 3 + |Rest(e)|
            && e.id[2..2 + n] == e.source && e.id[2 + n] == '-' && e.id[3 + n..] == Rest(e)
            && forall i :: 2 <= i < 2 + n ==> IsDigit(e.id[i])
  {
    hide Rest, IsNumeral;
    IdIs(e);
    var head := "e-" + e.source + "-";
    assert e.id[..3 + |e.source|] == head && e.id[3 + |e.source|..] == Rest(e);
    assert head[2..2 + |e.source|] == e.source;
    NumeralDigits(e.source);
    assert forall i :: 2 <= i < 2 + |e.source| ==> e.id[i] == e.source[i - 2];
  }

  lemma AfterSource(a: Edge, b: Edge)
    requires Formed(a) && Formed(b) && a.id == b.id
    ensures |a.source| <= |b.source|
  {
    hide Formed, Rest;
    IdParts(a);
    IdParts(b);
    assert forall i :: 2 <= i < 2 + |a.source| ==> a.id[i] != '-';
    assert a.id[2 + |b.source|] == '-';
  }

  /** An edge's id says its source, its handle and its target. */
  lemma EdgeIdInjective(a: Edge, b: Edge)
    requires Formed(a) && Formed(b) && a.id == b.id
    ensures a == b
  {
    hide Formed, EdgeId;
    AfterSource(a, b);
    AfterSource(b, a);
    IdParts(a);
    IdParts(b);
    assert Rest(a) == Rest(b);
    FirstOfRest(a);
    FirstOfRest(b);
    FormedIs(a);
    FormedIs(b);
    assert a.handle == b.handle;
    var k := if a.handle.Some? then |a.handle.value| + 1 else 0;
    assert Rest(a)[k..] == a.target && Rest(b)[k..] == b.target;
  }

  lemma FirstOfRest(e: Edge)
    requires Formed(e)
    ensures Rest(e) != ""
    ensures e.handle == None <==> IsDigit(Rest(e)[0])
    ensures e.handle == Some("true") <==> Rest(e)[0] == 't'
    ensures e.handle == Some("false") <==> Rest(e)[0] == 'f'
  {
    if e.handle.None? { assert Rest(e) == e.target; }
  }

  predicate AllNumerals(ids: set<string>) {
    forall s :: s in ids ==> IsNumeral(s)
  }

  lemma {:induction false} ListEdgesFormed(source: string, targets: seq<string>, ids: set<string>)
    requires IsNumeral(source) && AllNumerals(ids)
    ensures forall e :: e in ListEdges(source, targets, ids) ==>
              Formed(e) && e.source == source && e.handle == None && e.target in targets
  {
    if targets != [] {
      ListEdgesFormed(source, targets[..|targets| - 1], ids);
      assert forall t :: t in targets[..|targets| - 1] ==> t in targets;
    }
  }

  lemma RowEdgesFormed(row: Row, ids: set<string>, cols: Columns)
    requires AllNumerals(ids)
    ensures AllFormed(RowEdges(row, ids, cols), Decimal(row.id))
    ensures forall e :: e in RowEdges(row, ids, cols) ==>
              && (e.handle == None ==> cols.nexts)
              && (e.handle == Some("true") ==> cols.trueNext && e.target == row.trueNext)
              && (e.handle == Some("false") ==> cols.falseNext && e.target == row.falseNext)
  {
    ListEdgesFormed(Decimal(row.id), ListOf(row.nexts), ids);
  }

  lemma {:induction false} NotNamedAll(edges: seq<Edge>, id: string)
    requires forall i :: 0 <= i < |edges| ==> edges[i].id != id
    ensures NotNamed(edges, id) == edges
  {
    if edges != [] {
      var k := |edges| - 1;
      NotNamedAll(edges[..k], id);
      assert edges[..k] + [edges[k]] == edges;
    }
  }

  lemma {:induction false} NotNamedAppend(xs: seq<Edge>, ys: seq<Edge>, id: string)
    ensures NotNamed(xs + ys, id) == NotNamed(xs, id) + NotNamed(ys, id)
    decreases |ys|
  {
    if ys == [] {
      assert xs + ys == xs;
    } else {
      var k := |ys| - 1;
      assert (xs + ys)[..|xs| + k] == xs + ys[..k];
      NotNamedAppend(xs, ys[..k], id);
    }
  }

  lemma {:induction false} ListEdgesRemoved(source: string, targets: seq<string>, ids: set<string>, target: string)
    requires IsNumeral(source) && AllNumerals(ids) && target in ids
    ensures ListEdges(source, Without(targets, target), ids) ==
              NotNamed(ListEdges(source, targets, ids), EdgeId(source, None, target))
  {
    hide EdgeId, IsNumeral;
    if targets != [] {
      var k := |targets| - 1;
      var t := targets[k];
      var id := EdgeId(source, None, target);
      ListEdgesRemoved(source, targets[..k], ids, target);
      var shorter := Without(targets[..k], target);
      assert (shorter + [t])[..|shorter|] == shorter && shorter + [] == shorter;
      var before := ListEdges(source, targets[..k], ids);
      assert (before + [MakeEdge(source, None, t)])[..|before|] == before && before + [] == before;
      assert NotNamed(before, id) + [] == NotNamed(before, id);
      if t in ids && MakeEdge(source, None, t).id == id {
        EdgeIdInjective(MakeEdge(source, None, t), MakeEdge(source, None, target));
      }
    }
  }

  lemma OneEdgeNotNamed(source: string, handle: string, target: string, ids: set<string>, e: Edge)
    requires IsNumeral(source) && AllNumerals(ids) && Formed(e) && (handle == "true" || handle == "false")
    ensures e == MakeEdge(source, Some(handle), target) ==> NotNamed(OneEdge(source, handle, target, ids), e.id) == []
    ensures e != MakeEdge(source, Some(handle), target) ==>
              NotNamed(OneEdge(source, handle, target, ids), e.id) == OneEdge(source, handle, target, ids)
  {
    var x := MakeEdge(source, Some(handle), target);
    assert [x][..0] == [];
    if target in ids && x.id == e.id { EdgeIdInjective(x, e); }
  }

  /** The row of the edge loses exactly the edges of that id. */
  lemma RowEdgesRemoved(row: Row, ids: set<string>, cols: Columns, e: Edge)
    requires AllNumerals(ids) && e in RowEdges(row, ids, cols) && e.target in ids
    ensures RowEdges(RemovedFrom(row, cols, e.handle, e.target), ids, cols) == NotNamed(RowEdges(row, ids, cols), e.id)
  {
    hide ListEdges, NotNamed, Without, Formed, IsNumeral, EdgeId;
    RowEdgesFormed(row, ids, cols);
    var source := Decimal(row.id);
    SourceIsNumeral(row.id);
    var n := if cols.nexts then ListEdges(source, ListOf(row.nexts), ids) else [];
    var t := if cols.trueNext then OneEdge(source, "true", row.trueNext, ids) else [];
    var f := if cols.falseNext then OneEdge(source, "false", row.falseNext, ids) else [];
    NotNamedAppend(n + t, f, e.id);
    NotNamedAppend(n, t, e.id);
    NotNamedAll([], e.id);
    ListEdgesFormed(source, ListOf(row.nexts), ids);
    OneEdgeNotNamed(source, "true", row.trueNext, ids, e);
    OneEdgeNotNamed(source, "false", row.falseNext, ids, e);
    FormedIs(e);
    if e.handle == None {
      ListEdgesRemoved(source, ListOf(row.nexts), ids, e.target);
    } else {
      forall i | 0 <= i < |n| ensures n[i].id != e.id {
        assert n[i] in n;
        if n[i].id == e.id { EdgeIdInjective(n[i], e); }
      }
      NotNamedAll(n, e.id);
    }
  }

  lemma FormedIs(e: Edge)
    requires Formed(e)
    ensures e == MakeEdge(e.source, e.handle, e.target)
    ensures e.handle == None || e.handle == Some("true") || e.handle == Some("false")
  {
  }

  lemma SourceIsNumeral(id: nat)
    ensures IsNumeral(Decimal(id))
  {
  }

  /** A row other than the edge's source has no edge of its id. */
  lemma OtherRowNotNamed(row: Row, ids: set<string>, cols: Columns, e: Edge, source: nat)
    requires AllNumerals(ids) && Formed(e) && e.source == Decimal(source) && row.id != source
    ensures NotNamed(RowEdges(row, ids, cols), e.id) == RowEdges(row, ids, cols)
  {
    hide RowEdges, NotNamed, Formed;
    RowEdgesFormed(row, ids, cols);
    var edges := RowEdges(row, ids, cols);
    forall i | 0 <= i < |edges| ensures edges[i].id != e.id {
      assert edges[i] in edges;
      if edges[i].id == e.id {
        EdgeIdInjective(edges[i], e);
        DecimalInjective(row.id, source);
      }
    }
    NotNamedAll(edges, e.id);
  }

  lemma {:induction false} EdgesOverRemoved(rows: seq<Row>, ids: set<string>, cols: Columns, e: Edge, source: nat)
    requires AllNumerals(ids) && Formed(e) && e.target in ids && e.source == Decimal(source)
    requires forall r :: r in rows && r.id == source ==> e in RowEdges(r, ids, cols)
    ensures EdgesOver(Removed(rows, cols, source, e.handle, e.target), ids, cols) ==
              NotNamed(EdgesOver(rows, ids, cols), e.id)
  {
    hide RowEdges, RemovedFrom, Formed, IsNumeral, NotNamed, Decimal;
    if rows == [] {
      NotNamedAll([], e.id);
    } else {
      var k := |rows| - 1;
      var removed := Removed(rows, cols, source, e.handle, e.target);
      assert forall r :: r in rows[..k] ==> r in rows;
      EdgesOverRemoved(rows[..k], ids, cols, e, source);
      assert removed[..k] == Removed(rows[..k], cols, source, e.handle, e.target);
      NotNamedAppend(EdgesOver(rows[..k], ids, cols), RowEdges(rows[k], ids, cols), e.id);
      if rows[k].id == source {
        assert rows[k] in rows;
        RowEdgesRemoved(rows[k], ids, cols, e);
      } else {
        RowEdgesFormed(rows[k], ids, cols);
        OtherRowNotNamed(rows[k], ids, cols, e, source);
      }
    }
  }

  lemma {:induction false} EdgeHasRow(rows: seq<Row>, ids: set<string>, cols: Columns, e: Edge) returns (i: nat)
    requires AllNumerals(ids) && e in EdgesOver(rows, ids, cols)
    ensures i < |rows| && e in RowEdges(rows[i], ids, cols) && Formed(e) && e.source == Decimal(rows[i].id)
              && e.target in ids
  {
    hide RowEdges, Formed;
    var k := |rows| - 1;
    if e in RowEdges(rows[k], ids, cols) {
      i := k;
      RowEdgesFormed(rows[k], ids, cols);
      TargetsAreIds(rows[k], ids, cols, e);
    } else {
      i := EdgeHasRow(rows[..k], ids, cols, e);
    }
  }

  lemma {:induction false} ListTargets(source: string, targets: seq<string>, ids: set<string>)
    ensures forall e :: e in ListEdges(source, targets, ids) ==> e.target in ids
  {
    if targets != [] { ListTargets(source, targets[..|targets| - 1], ids); }
  }

  lemma TargetsAreIds(row: Row, ids: set<string>, cols: Columns, e: Edge)
    requires e in RowEdges(row, ids, cols)
    ensures e.target in ids
  {
    ListTargets(Decimal(row.id), ListOf(row.nexts), ids);
  }

  lemma {:induction false} IdsAfterRemove(rows: seq<Row>, cols: Columns, source: nat, handle: Option<string>,
                                          target: string)
    ensures IdsOf(Removed(rows, cols, source, handle, target)) == IdsOf(rows)
  {
    var removed := Removed(rows, cols, source, handle, target);
    forall s ensures s in IdsOf(removed) <==> s in IdsOf(rows) {
      if s in IdsOf(rows) {
        var r :| r in rows && Decimal(r.id) == s;
        var i :| 0 <= i < |rows| && rows[i] == r;
        assert removed[i] in removed && removed[i].id == r.id;
      }
      if s in IdsOf(removed) {
        var r :| r in removed && Decimal(r.id) == s;
        var i :| 0 <= i < |rows| && removed[i] == r;
        assert rows[i] in rows && rows[i].id == r.id;
      }
    }
  }

  /** Removing the edge that an id names leaves exactly the old edges, in order, but for those bearing that id. */
  lemma RemoveKeepsOtherEdges(rows: seq<Row>, cols: Columns, edgeId: string)
    requires DistinctIds(rows) && ParseEdgeId(Edges(rows, cols), edgeId).Some?
    ensures var (source, handle, target) := ParseEdgeId(Edges(rows, cols), edgeId).value;
            Edges(Removed(rows, cols, source, handle, target), cols) == NotNamed(Edges(rows, cols), edgeId)
  {
    hide RowEdges, EdgesOver, Removed;
    var ids := IdsOf(rows);
    assert AllNumerals(ids) by {
      forall s | s in ids ensures IsNumeral(s) { var r :| r in rows && Decimal(r.id) == s; }
    }
    var e := FindEdge(Edges(rows, cols), edgeId).value;
    var i := EdgeHasRow(rows, ids, cols, e);
    var source := rows[i].id;
    ParseDecimal(source);
    forall r | r in rows && r.id == source ensures e in RowEdges(r, ids, cols) {
      var j :| 0 <= j < |rows| && rows[j] == r;
      assert i == j;
    }
    IdsAfterRemove(rows, cols, source, e.handle, e.target);
    EdgesOverRemoved(rows, ids, cols, e, source);
  }
}
