/** Loading all rows page by page while other clients append. */
module Paging {

  datatype Row = Row(id: nat, data: string)

  predicate Ascending(rows: seq<Row>) {
    forall i, j :: 0 <= i < j < |rows| ==> rows[i].id < rows[j].id
  }

  /** Rows appended later have greater ids. */
  predicate Growing(rows: seq<Row>, batches: seq<seq<Row>>)
    decreases |batches|
  {
    Ascending(rows) && (batches != [] ==> Growing(rows + batches[0], batches[1..]))
  }

  function Total(batches: seq<seq<Row>>): nat {
    if batches == [] then 0 else |batches[0]| + Total(batches[1..])
  }

  function Min(a: int, b: int): int {
    if a < b then a else b
  }

  function Reversed(rows: seq<Row>): (r: seq<Row>)
    ensures |r| == |rows|
  {
    if rows == [] then [] else Reversed(rows[1..]) + [rows[0]]
  }

  /** The server's rows by ascending id, and what will have been appended by each request to come. */
  class Server {
    var rows: seq<Row>
    var batches: seq<seq<Row>>

    constructor (rows: seq<Row>, batches: seq<seq<Row>>)
      ensures this.rows == rows && this.batches == batches
    {
      this.rows, this.batches := rows, batches;
    }

    /** One page, as the server's rows stand when the request arrives. */
    method ListByTable(offset: nat, limit: nat) returns (page: seq<Row>)
      requires Growing(rows, batches)
      modifies this
      ensures Growing(rows, batches)
      ensures old(rows) <= rows && |rows| + Total(batches) == |old(rows)| + Total(old(batches))
      ensures old(batches) == [] ==> rows == old(rows) && batches == []
      ensures page == if offset >= |rows| then [] else rows[offset..Min(offset + limit, |rows|)]
    {
      if batches != [] {
        rows, batches := rows + batches[0], batches[1..];
      }
      page := if offset >= |rows| then [] else rows[offset..if offset + limit < |rows| then offset + limit else |rows|];
    }

    /** The snapshot is the server's list at the last request, newest first: no row is missing and none comes twice. */
    method FetchAllRows() returns (all: seq<Row>)
      requires Growing(rows, batches)
      modifies this
      ensures all == Reversed(rows)
      ensures old(rows) <= rows && Growing(rows, batches)
      ensures old(batches) == [] ==> rows == old(rows) && batches == []
    {
      hide Reversed, Total, Growing, Min;
      all := [];
      var page := [];
      var more := true;
      while more
        invariant Growing(rows, batches) && old(rows) <= rows
        invariant old(batches) == [] ==> batches == [] && rows == old(rows)
        invariant |all| <= |rows| && all == rows[..|all|]
        invariant !more ==> |all| == |rows|
        decreases |rows| + Total(batches) - |all|, more
      {
        ghost var before := rows;
        page := ListByTable(|all|, 100);
        NextPage(before, rows, |all|, 100, page);
        all := all + page;
        more := |page| == 100;
      }
      assert rows[..|all|] == rows;
      all := Reversed(all);
    }
  }

  /** A page continues what was read before it, whatever was appended in between. */
  lemma NextPage(before: seq<Row>, rows: seq<Row>, n: nat, limit: nat, page: seq<Row>)
    requires before <= rows && n <= |before|
    requires page == if n >= |rows| then [] else rows[n..Min(n + limit, |rows|)]
    ensures n + |page| <= |rows| && |page| <= limit
    ensures before[..n] + page == rows[..n + |page|]
    ensures |page| < limit ==> n + |page| == |rows|
  {
    assert before[..n] == rows[..n];
  }

  lemma {:induction false} ReversedAt(rows: seq<Row>, k: nat)
    requires k < |rows|
    ensures Reversed(rows)[k] == rows[|rows| - 1 - k]
  {
    if k < |rows| - 1 { ReversedAt(rows[1..], k); }
  }

  /** The snapshot shows the newest row first and no id twice. */
  lemma NewestFirst(rows: seq<Row>, i: nat, j: nat)
    requires Ascending(rows) && i < j < |rows|
    ensures Reversed(rows)[i].id > Reversed(rows)[j].id
  {
    ReversedAt(rows, i);
    ReversedAt(rows, j);
  }
}
