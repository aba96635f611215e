/**
  Exactly which schedules leak an object when the retire trigger's insert leaves a queued record
  alone: a worker that found the key referenced before its last reference went, and a writer that
  dropped that reference behind a record the worker then deleted.
 */
module BlobRace {
  import opened Basics
  import opened BlobProtocol
  import opened BlobSafety
  import opened BlobLeak

  // ---------- a worker that passes a key as referenced ----------

  /** Batches name each record once, and only earlier jobs are settled. */
  predicate InOrder(s: State) {
    forall w :: w in s.procs && s.procs[w].task.Cleanup? ==> JobsInOrder(s.procs[w].task, s.procs[w].txn)
  }

  predicate JobsInOrder(t: Task, txn: Txn)
    requires t.Cleanup?
  {
    && (forall i, j :: 0 <= i < j < |t.batch| ==> t.batch[i] != t.batch[j])
    && (forall i :: t.next <= i < |t.batch| ==> t.batch[i] !in txn.settled)
  }

  lemma StepKeepsOrder(s: State, a: Action)
    requires InOrder(s) && Enabled(s, a)
    ensures InOrder(Next(s, a))
  {
    hide Enabled, Next, JobsInOrder;
    StepFrame(s, a);
    forall w | w in Next(s, a).procs && Next(s, a).procs[w].task.Cleanup?
      ensures JobsInOrder(Next(s, a).procs[w].task, Next(s, a).procs[w].txn)
    {
      if ActsFor(a, w) {
        WorkersAct(s, a, w);
        WorkerKeepsOrder(s, a, w);
      } else {
        assert s.procs[w] == Next(s, a).procs[w];
      }
    }
  }

  lemma WorkerKeepsOrder(s: State, a: Action, w: nat)
    requires InOrder(s) && Enabled(s, a) && ActsFor(a, w) && ByWorker(a)
    ensures w in Next(s, a).procs && TaskAt(Next(s, a), w).Cleanup?
    ensures JobsInOrder(TaskAt(Next(s, a), w), Next(s, a).procs[w].txn)
  {
    hide Enabled, Next;
    WorkersTask(s, a);
    if a.Settle? {
      SettlingKeepsOrder(s, a);
    } else if a.Claim? {
      ClaimIsInOrder(s, a);
    } else {
      assert JobsInOrder(TaskAt(s, w), s.procs[w].txn);
      SettledMoves(s, a);
    }
  }

  lemma SettlingKeepsOrder(s: State, a: Action)
    requires InOrder(s) && Enabled(s, a) && a.Settle?
    ensures a.p in Next(s, a).procs && TaskAt(Next(s, a), a.p).Cleanup?
    ensures JobsInOrder(TaskAt(Next(s, a), a.p), Next(s, a).procs[a.p].txn)
  {
    assert JobsInOrder(TaskAt(s, a.p), s.procs[a.p].txn);
    hide InOrder;
  }

  lemma ClaimIsInOrder(s: State, a: Action)
    requires Enabled(s, a) && a.Claim?
    ensures a.p in Next(s, a).procs && TaskAt(Next(s, a), a.p).Cleanup?
    ensures JobsInOrder(TaskAt(Next(s, a), a.p), Next(s, a).procs[a.p].txn)
  {
    hide RecordUnlocked;
  }

  /** A worker moves on in its batch, and settles by settling only. */
  lemma SettledMoves(s: State, a: Action)
    requires Enabled(s, a) && ByWorker(a) && !a.Claim? && !a.Settle? && a.p in s.procs && TaskAt(s, a.p).Cleanup?
    ensures a.p in Next(s, a).procs && TaskAt(Next(s, a), a.p).Cleanup?
    ensures Next(s, a).procs[a.p].txn.settled == s.procs[a.p].txn.settled
    ensures TaskAt(Next(s, a), a.p).batch == TaskAt(s, a.p).batch && TaskAt(Next(s, a), a.p).next >= TaskAt(s, a.p).next
  {
    hide KeyFree, Referenced;
  }

  // ---------- who acts ----------

  lemma WritersAct(s: State, a: Action)
    requires Enabled(s, a) && ByWriter(a)
    ensures a.p in s.procs && Writer(TaskAt(s, a.p)) && a.p in Next(s, a).procs && Writer(TaskAt(Next(s, a), a.p))
    ensures TaskAt(Next(s, a), a.p).Upload? ==>
              TaskAt(s, a.p).Upload? && TaskAt(Next(s, a), a.p).descriptor == TaskAt(s, a.p).descriptor
  {
    hide RowFree, KeyFree, MayQueue, Retired, RetiredBy, Image, WriteOf, Edited, Live, HoldsKey, IsBlobColumn;
    hide ReadyToWrite, TouchesNoBlob, CurrentKey, StagedTxn, RowOf;
  }

  lemma WorkersTask(s: State, a: Action)
    requires Enabled(s, a) && ByWorker(a)
    ensures a.Claim? <==> a.p !in s.procs
    ensures !a.Claim? ==> TaskAt(s, a.p).Cleanup?
    ensures a.p in Next(s, a).procs && TaskAt(Next(s, a), a.p).Cleanup?
  {
    hide KeyFree, RecordUnlocked, Referenced;
  }

  lemma ReadersAct(s: State, a: Action)
    requires Enabled(s, a) && ByReader(a)
    ensures a.p in s.procs && TaskAt(s, a.p).Download?
    ensures a.p in Next(s, a).procs && TaskAt(Next(s, a), a.p).Download?
  {
    hide NotExclusive, CellValue;
  }

  lemma BeginnersTask(s: State, a: Action)
    requires Enabled(s, a) && a.Begin?
    ensures a.p in Next(s, a).procs && TaskAt(Next(s, a), a.p) == a.task && !a.task.Cleanup?
    ensures a.p !in s.procs && Next(s, a).procs[a.p].txn.write == NoWrite
    ensures a.task.Upload? ==> a.task.descriptor.key !in s.db.minted
    ensures s.db.minted.Keys <= Next(s, a).db.minted.Keys
  {
  }

  lemma EndedIsGone(s: State, a: Action)
    requires Enabled(s, a) && (a.Commit? || a.Rollback?)
    ensures a.p in s.procs && a.p !in Next(s, a).procs
  {
  }

  /** Only a worker's own actions make or move a worker. */
  lemma WorkersAct(s: State, a: Action, w: nat)
    requires Enabled(s, a) && ActsFor(a, w) && w in Next(s, a).procs && TaskAt(Next(s, a), w).Cleanup?
    ensures ByWorker(a)
  {
    hide Enabled, Next;
    if ByWriter(a) {
      WritersAct(s, a);
    } else if ByReader(a) {
      ReadersAct(s, a);
    } else if a.Begin? {
      BeginnersTask(s, a);
    } else if a.Commit? || a.Rollback? {
      EndedIsGone(s, a);
    }
  }

  lemma WorkerActs(s: State, a: Action, w: nat)
    requires Enabled(s, a) && ActsFor(a, w) && !Ends(a, w) && w in s.procs && TaskAt(s, w).Cleanup?
    ensures ByWorker(a)
  {
    hide Enabled, Next;
    if ByWriter(a) {
      WritersAct(s, a);
    } else if ByReader(a) {
      ReadersAct(s, a);
    } else if a.Begin? {
      BeginnersTask(s, a);
    }
  }

  /** The worker has found the key referenced and keeps it locked, and the object is there. */
  predicate Spares(s: State, w: nat, k: Key) {
    && w in s.procs && s.procs[w].task.Cleanup?
    && k in s.db.objects && k in s.procs[w].txn.exclusive
    && (k in s.procs[w].txn.settled || (CleansIn(s, w, Kept) && Job(s, w) == k))
  }

  /** The worker's query finds the key referenced. */
  predicate FindsReference(s: State, a: Action, w: nat, k: Key) {
    a == Check(w) && CleansIn(s, w, Locked) && Job(s, w) == k && Referenced(s.db.rows, k)
  }

  predicate Ends(a: Action, p: nat) {
    (a.Commit? || a.Rollback?) && a.p == p
  }

  // ---------- a writer that drops a key ----------

  /** The writer has staged a row image without the key. */
  predicate Dropping(s: State, p: nat, k: Key) {
    && p in s.procs && Writer(TaskAt(s, p)) && s.procs[p].txn.write != NoWrite
    && Drops(s.db, TaskAt(s, p), k)
  }

  predicate StagesDrop(s: State, a: Action, p: nat, k: Key) {
    a == StageWrite(p) && p in s.procs && Drops(s.db, TaskAt(s, p), k)
  }

  // ---------- traces ----------

  /** The states of a run. */
  ghost predicate Traced(ss: seq<State>, acts: seq<Action>) {
    && |ss| == |acts| + 1
    && (forall i :: 0 <= i < |acts| ==> Enabled(ss[i], acts[i]) && ss[i + 1] == Next(ss[i], acts[i]))
    && (forall i :: 0 <= i < |ss| ==> Inv(ss[i]) && Records(ss[i]) && InOrder(ss[i]) && !ss[i].holdRecords)
  }

  ghost function States(s: State, acts: seq<Action>): (ss: seq<State>)
    requires Run(s, acts)
    ensures |ss| == |acts| + 1 && ss[0] == s
    decreases |acts|
  {
    if acts == [] then [s] else [s] + States(Next(s, acts[0]), acts[1..])
  }

  /** The process goes on from `i` to `j`. */
  predicate GoesOn(acts: seq<Action>, p: nat, i: nat, j: nat) {
    forall n :: i < n < j && n < |acts| ==> !Ends(acts[n], p)
  }

  /**
    A worker finds the key referenced at `c` and commits at `u`; a writer stages its drop at `st`
    and commits at `cm`; the finding comes before the drop's commit, and the staging before the
    worker's.
   */
  ghost predicate Race(ss: seq<State>, acts: seq<Action>, k: Key, w: nat, c: nat, u: nat, p: nat, st: nat, cm: nat)
    requires |ss| == |acts| + 1
  {
    && c < u < |acts| && st < cm < |acts| && c < cm && st < u
    && FindsReference(ss[c], acts[c], w, k) && acts[u] == Commit(w) && GoesOn(acts, w, c, u)
    && StagesDrop(ss[st], acts[st], p, k) && acts[cm] == Commit(p) && GoesOn(acts, p, st, cm)
  }

  // ---------- steps ----------

  lemma FindingSpares(s: State, a: Action, w: nat, k: Key)
    requires Inv(s) && Enabled(s, a) && FindsReference(s, a, w, k)
    ensures Live(s.db.rows, k) && Spares(Next(s, a), w, k)
  {
    ReferencedIsLive(s.db, k);
    assert ProcOk(s.db, s.procs[w]);
    assert CellOk(s.db, k.cell.at, k.cell.column, s.db.rows[k.cell.at][k.cell.column].descriptor);
  }

  /** Only an upload that holds the key's lock brings an object into the store. */
  lemma NewObject(s: State, a: Action, k: Key)
    requires Inv(s) && Enabled(s, a) && k in Next(s, a).db.objects && k !in s.db.objects
    ensures (a.PutObject? || a.CopyObject?) && Uploads(s, a.p) && k in s.procs[a.p].txn.exclusive
  {
    hide Enabled, Next;
    StepFrame(s, a);
    if a.PutObject? || a.CopyObject? {
      UploadersLock(s, a, k);
    } else if a.DeleteObject? || a.DeleteFails? {
      DeletesOne(s, a);
    }
  }

  lemma UploadersLock(s: State, a: Action, k: Key)
    requires Inv(s) && Enabled(s, a) && (a.PutObject? || a.CopyObject?)
    requires k in Next(s, a).db.objects && k !in s.db.objects
    ensures Uploads(s, a.p) && k in s.procs[a.p].txn.exclusive
  {
    assert ProcOk(s.db, s.procs[a.p]);
    hide RowsOk, StoresOk, AllCompatible, ProcsOk;
  }

  lemma SparedByOthers(s: State, a: Action, w: nat, k: Key)
    requires Inv(s) && Enabled(s, a) && Spares(Next(s, a), w, k) && !ActsFor(a, w)
    ensures Spares(s, w, k)
  {
    hide Next, Enabled, RowsOk, StoresOk, ProcsOk;
    StepLeavesOthers(s, a, w);
    if k !in s.db.objects {
      NewObject(s, a, k);
    }
  }

  lemma SparedByOwn(s: State, a: Action, w: nat, k: Key)
    requires Inv(s) && Enabled(s, a) && Spares(Next(s, a), w, k) && ActsFor(a, w)
    ensures Spares(s, w, k) || FindsReference(s, a, w, k)
    ensures !Ends(a, w)
  {
    hide Enabled, Next, Spares, FindsReference;
    SparersTask(Next(s, a), w, k);
    WorkersAct(s, a, w);
    SparedByWorker(s, a, w, k);
  }

  lemma SparersTask(s: State, w: nat, k: Key)
    requires Spares(s, w, k)
    ensures w in s.procs && TaskAt(s, w).Cleanup?
  {
  }

  lemma SparedByWorker(s: State, a: Action, w: nat, k: Key)
    requires Inv(s) && Enabled(s, a) && Spares(Next(s, a), w, k) && ActsFor(a, w) && ByWorker(a)
    ensures Spares(s, w, k) || FindsReference(s, a, w, k)
  {
    hide Enabled, Next, Inv, FindsReference;
    if a.Settle? {
      SparedBySettling(s, a, w, k);
    } else if a.Claim? || a.TryLock? {
      SparedByLocking(s, a, w, k);
    } else {
      SparedByChecking(s, a, w, k);
    }
  }

  lemma SparedBySettling(s: State, a: Action, w: nat, k: Key)
    requires Inv(s) && Enabled(s, a) && Spares(Next(s, a), w, k) && ActsFor(a, w) && a.Settle?
    ensures Spares(s, w, k)
  {
    assert ProcOk(s.db, s.procs[w]);
    hide RowsOk, StoresOk, AllCompatible, ProcsOk, Live;
  }

  lemma SparedByLocking(s: State, a: Action, w: nat, k: Key)
    requires Inv(s) && Enabled(s, a) && Spares(Next(s, a), w, k) && ActsFor(a, w) && (a.Claim? || a.TryLock?)
    ensures Spares(s, w, k)
  {
    if w in s.procs { assert ProcOk(s.db, s.procs[w]); }
    hide RowsOk, StoresOk, AllCompatible, ProcsOk, Live, KeyFree, RecordUnlocked;
  }

  lemma SparedByChecking(s: State, a: Action, w: nat, k: Key)
    requires Enabled(s, a) && Spares(Next(s, a), w, k) && ActsFor(a, w)
    requires a.Check? || a.DeleteObject? || a.DeleteFails? || a.Forget?
    ensures Spares(s, w, k) || FindsReference(s, a, w, k)
  {
    hide Referenced;
  }

  /** A worker spares a key it spared before, or has just found referenced. */
  lemma SparedBefore(s: State, a: Action, w: nat, k: Key)
    requires Inv(s) && Enabled(s, a) && Spares(Next(s, a), w, k)
    ensures Spares(s, w, k) || FindsReference(s, a, w, k)
    ensures !Ends(a, w)
  {
    hide Inv, Next, Enabled, Spares, FindsReference;
    if ActsFor(a, w) { SparedByOwn(s, a, w, k); } else { SparedByOthers(s, a, w, k); }
  }

  /** Only the worker with the key's lock takes an object out of the store, and only its current job's. */
  lemma LostObject(s: State, a: Action, k: Key)
    requires Inv(s) && Enabled(s, a) && k in s.db.objects && k !in Next(s, a).db.objects
    ensures (a.DeleteObject? || a.DeleteFails?) && CleansIn(s, a.p, Condemned) && Job(s, a.p) == k
    ensures k in s.procs[a.p].txn.exclusive && !Live(s.db.rows, k)
  {
    hide Enabled, Next;
    StepFrame(s, a);
    if a.PutObject? || a.CopyObject? {
      AddsOne(s, a);
    } else {
      DeletesOne(s, a);
      assert ProcOk(s.db, s.procs[a.p]);
    }
  }

  lemma SpareKeptByOthers(s: State, a: Action, w: nat, k: Key)
    requires Inv(s) && Enabled(s, a) && Spares(s, w, k) && !ActsFor(a, w)
    ensures Spares(Next(s, a), w, k)
  {
    hide Next, Enabled, RowsOk, StoresOk, ProcsOk;
    StepLeavesOthers(s, a, w);
    if k !in Next(s, a).db.objects {
      LostObject(s, a, k);
    }
  }

  lemma SpareKeptByOwn(s: State, a: Action, w: nat, k: Key)
    requires Inv(s) && InOrder(s) && Enabled(s, a) && Spares(s, w, k) && ActsFor(a, w) && !Ends(a, w)
    ensures Spares(Next(s, a), w, k)
  {
    hide Enabled, Next, Spares;
    SparersTask(s, w, k);
    WorkerActs(s, a, w);
    SpareKeptByWorker(s, a, w, k);
  }

  lemma SpareKeptByWorker(s: State, a: Action, w: nat, k: Key)
    requires Inv(s) && InOrder(s) && Enabled(s, a) && Spares(s, w, k) && ActsFor(a, w) && ByWorker(a)
    ensures Spares(Next(s, a), w, k)
  {
    hide KeyFree, RecordUnlocked, Referenced, Live;
    assert ProcOk(s.db, s.procs[w]) && JobsInOrder(s.procs[w].task, s.procs[w].txn);
    hide RowsOk, StoresOk, AllCompatible, ProcsOk, InOrder;
  }

  /** A worker goes on sparing a key until its transaction ends. */
  lemma SparesOn(s: State, a: Action, w: nat, k: Key)
    requires Inv(s) && InOrder(s) && Enabled(s, a) && Spares(s, w, k) && !Ends(a, w)
    ensures Spares(Next(s, a), w, k)
  {
    hide Inv, Next, Enabled, Spares;
    if ActsFor(a, w) { SpareKeptByOwn(s, a, w, k); } else { SpareKeptByOthers(s, a, w, k); }
  }

  /** What a process may count on from its row lock: its row, and the key it drops. */
  lemma RowStays(s: State, a: Action, p: nat)
    requires Inv(s) && Enabled(s, a) && p in s.procs && Writer(TaskAt(s, p))
              && s.procs[p].txn.rowLock == Some(RowOf(TaskAt(s, p)))
    requires !ActsFor(a, p)
    ensures var at := RowOf(TaskAt(s, p));
            (at in Next(s, a).db.rows <==> at in s.db.rows)
                && (at in s.db.rows ==> Next(s, a).db.rows[at] == s.db.rows[at])
  {
    if a.Commit? {
      CommitElsewhere(s, a.p, p);
    } else if !a.CreateRow? {
      StepKeepsRows(s, a);
    } else {
      assert ProcOk(s.db, s.procs[p]);
    }
  }

  lemma CommitElsewhere(s: State, q: nat, p: nat)
    requires Inv(s) && CanCommit(s, q) && p in s.procs && p != q && Writer(TaskAt(s, p))
    requires s.procs[p].txn.rowLock == Some(RowOf(TaskAt(s, p)))
    ensures var at := RowOf(TaskAt(s, p));
            var rows := DoCommit(s, q).db.rows;
            (at in rows <==> at in s.db.rows) && (at in s.db.rows ==> rows[at] == s.db.rows[at])
  {
    assert ProcOk(s.db, s.procs[q]) && Compatible(s.procs[p], s.procs[q]) && Compatible(s.procs[q], s.procs[p]);
    if Writer(TaskAt(s, q)) { CommittedRow(s.db, s.procs[q]); }
    hide RowsOk, StoresOk, AllCompatible, ProcsOk;
  }

  lemma DroppingLocks(s: State, p: nat, k: Key)
    requires Inv(s) && Dropping(s, p, k)
    ensures s.procs[p].txn.rowLock == Some(RowOf(TaskAt(s, p))) && RowOf(TaskAt(s, p)) in s.db.rows
    ensures Live(s.db.rows, k) && k in s.db.objects && k in s.db.minted
  {
    assert ProcOk(s.db, s.procs[p]);
    assert CellOk(s.db, k.cell.at, k.cell.column, s.db.rows[k.cell.at][k.cell.column].descriptor);
  }

  /** What a writer drops is read off its row and its task alone. */
  lemma DropsByRow(db: Stores, db': Stores, t: Task, k: Key)
    requires Writer(t) && db'.blobColumns == db.blobColumns
    requires (RowOf(t) in db'.rows <==> RowOf(t) in db.rows)
              && (RowOf(t) in db.rows ==> db'.rows[RowOf(t)] == db.rows[RowOf(t)])
    ensures Drops(db, t, k) <==> Drops(db', t, k)
  {
  }

  lemma DroppingByOthers(s: State, a: Action, p: nat, k: Key)
    requires Inv(s) && Enabled(s, a) && !ActsFor(a, p)
    ensures Dropping(s, p, k) ==> Dropping(Next(s, a), p, k) && Next(s, a).procs[p] == s.procs[p]
    ensures Dropping(Next(s, a), p, k) ==> Dropping(s, p, k)
  {
    hide Next, Enabled, Drops, RowsOk, StoresOk, AllCompatible;
    StepLeavesOthers(s, a, p);
    StepKeepsHistory(s, a);
    if p in s.procs && Writer(TaskAt(s, p)) && s.procs[p].txn.write != NoWrite {
      assert ProcOk(s.db, s.procs[p]);
      RowStays(s, a, p);
      DropsByRow(s.db, Next(s, a).db, TaskAt(s, p), k);
    }
  }

  lemma DropsAtStep(db: Stores, t: Task, n: nat, k: Key)
    requires Writer(t)
    ensures Drops(db, AtStep(t, n), k) <==> Drops(db, t, k)
  {
  }

  /** Apart from staging, a writer's own steps change neither what it staged nor its task, but for its progress. */
  lemma OwnProgress(s: State, a: Action, p: nat) returns (n: nat)
    requires Enabled(s, a) && ActsFor(a, p) && !Ends(a, p) && !a.StageWrite? && p in s.procs && Writer(TaskAt(s, p))
    ensures p in Next(s, a).procs && TaskAt(Next(s, a), p) == AtStep(TaskAt(s, p), n)
    ensures Next(s, a).procs[p].txn.write == s.procs[p].txn.write
              && Next(s, a).procs[p].txn.queued == s.procs[p].txn.queued
    ensures Next(s, a).db.rows == s.db.rows && Next(s, a).db.blobColumns == s.db.blobColumns
  {
    hide RowFree, KeyFree, NotExclusive, RecordUnlocked, MayQueue, Retired, RetiredBy, Image, WriteOf, Edited;
    hide Fresh, Minted;
    hide Live, HoldsKey, Referenced, IsBlobColumn, ReadyToWrite, Applied, Remaining, TouchesNoBlob;
    n := TaskAt(Next(s, a), p).step;
  }

  lemma Staging(s: State, p: nat, k: Key)
    requires Inv(s) && CanStageWrite(s, p)
    ensures Dropping(DoStageWrite(s, p), p, k) <==> Drops(s.db, TaskAt(s, p), k)
    ensures !Dropping(s, p, k)
  {
    var t := TaskAt(s, p);
    DropsAtStep(s.db, t, if t.Upload? then STAGED else WRITTEN, k);
    assert ProcOk(s.db, s.procs[p]);
    hide RowsOk, StoresOk, AllCompatible, Drops, Retired, RowFree, MayQueue;
  }

  lemma NewcomerDropsNothing(s: State, a: Action, p: nat, k: Key)
    requires Enabled(s, a) && ActsFor(a, p) && p !in s.procs
    ensures !Dropping(Next(s, a), p, k)
  {
    hide Enabled, Next, Drops;
    if a.Begin? {
      BeginnersTask(s, a);
    } else if ByWorker(a) {
      WorkersTask(s, a);
    } else if ByWriter(a) {
      WritersAct(s, a);
    } else if ByReader(a) {
      ReadersAct(s, a);
    } else {
      EndedIsGone(s, a);
    }
  }

  lemma OthersStayOther(s: State, a: Action, p: nat)
    requires Enabled(s, a) && ActsFor(a, p) && p in s.procs && !Writer(TaskAt(s, p))
    ensures p in Next(s, a).procs ==> !Writer(TaskAt(Next(s, a), p))
    ensures !a.StageWrite?
  {
    hide Enabled, Next;
    if a.Begin? {
      BeginnersTask(s, a);
    } else if ByWorker(a) {
      WorkersTask(s, a);
    } else if ByWriter(a) {
      WritersAct(s, a);
    } else if ByReader(a) {
      ReadersAct(s, a);
    } else {
      EndedIsGone(s, a);
    }
  }

  lemma DroppingByOwn(s: State, a: Action, p: nat, k: Key)
    requires Inv(s) && Enabled(s, a) && ActsFor(a, p)
    ensures Dropping(s, p, k) && !Ends(a, p) ==>
              Dropping(Next(s, a), p, k) && Next(s, a).procs[p].txn.queued == s.procs[p].txn.queued
    ensures Dropping(Next(s, a), p, k) ==> Dropping(s, p, k) || StagesDrop(s, a, p, k)
    ensures StagesDrop(s, a, p, k) ==> Dropping(Next(s, a), p, k)
    ensures Dropping(Next(s, a), p, k) ==> !Ends(a, p)
  {
    hide Enabled, Next, Drops, Inv;
    if p !in s.procs {
      NewcomerDropsNothing(s, a, p, k);
    } else if Ends(a, p) {
      EndedIsGone(s, a);
    } else if !Writer(TaskAt(s, p)) {
      OthersStayOther(s, a, p);
    } else if a.StageWrite? {
      StageEnabled(s, a);
      Staging(s, p, k);
    } else {
      var n := OwnProgress(s, a, p);
      DropsByRow(s.db, Next(s, a).db, TaskAt(s, p), k);
      DropsAtStep(Next(s, a).db, TaskAt(s, p), n, k);
    }
  }

  lemma StageEnabled(s: State, a: Action)
    requires Enabled(s, a) && a.StageWrite?
    ensures CanStageWrite(s, a.p) && Next(s, a) == DoStageWrite(s, a.p)
  {
  }

  /** A writer drops a key until it ends, and only from its staging on. */
  lemma DroppingSteps(s: State, a: Action, p: nat, k: Key)
    requires Inv(s) && Enabled(s, a)
    ensures Dropping(s, p, k) && !Ends(a, p) ==>
              Dropping(Next(s, a), p, k) && Next(s, a).procs[p].txn.queued == s.procs[p].txn.queued
    ensures Dropping(Next(s, a), p, k) ==> Dropping(s, p, k) || StagesDrop(s, a, p, k)
    ensures StagesDrop(s, a, p, k) ==> Dropping(Next(s, a), p, k)
    ensures Dropping(Next(s, a), p, k) ==> !Ends(a, p)
  {
    hide Inv, Next, Enabled, Drops;
    if ActsFor(a, p) { DroppingByOwn(s, a, p, k); } else { DroppingByOthers(s, a, p, k); }
  }

  // ---------- the queue ----------

  /** A record leaves the queue only by the commit of a worker that settled it. */
  lemma LeavesQueue(s: State, a: Action, k: Key)
    requires Inv(s) && Enabled(s, a) && k in s.queue && k !in Next(s, a).queue
    ensures a.Commit? && a.p in s.procs && TaskAt(s, a.p).Cleanup? && k in s.procs[a.p].txn.settled
    ensures k in s.procs[a.p].txn.exclusive
  {
    hide Enabled, Next;
    StepFrame(s, a);
    if a.Register? {
      RegistersOne(s, a);
    } else {
      CommitEnabled(s, a);
      CommitTakes(s, a.p, k);
    }
  }

  lemma CommitTakes(s: State, p: nat, k: Key)
    requires Inv(s) && CanCommit(s, p) && k in s.queue && k !in DoCommit(s, p).queue
    ensures TaskAt(s, p).Cleanup? && k in s.procs[p].txn.settled && k in s.procs[p].txn.exclusive
  {
    assert ProcOk(s.db, s.procs[p]);
    hide RowsOk, StoresOk, AllCompatible, ProcsOk;
  }

  /** A record joins the queue by a registration or by the commit of a writer that queued it. */
  lemma JoinsQueue(s: State, a: Action, k: Key)
    requires Enabled(s, a) && k !in s.queue && k in Next(s, a).queue
    ensures (a.Register? && Uploads(s, a.p) && k == CurrentKey(TaskAt(s, a.p)))
            || (a.Commit? && a.p in s.procs && k in s.procs[a.p].txn.queued)
  {
    hide Enabled, Next;
    StepFrame(s, a);
    if a.Register? { RegistersOne(s, a); } else { CommitEnabled(s, a); }
  }

  lemma RegistersNoLive(s: State, p: nat)
    requires Inv(s) && CanRegister(s, p)
    ensures !Live(s.db.rows, CurrentKey(TaskAt(s, p)))
  {
    var k := CurrentKey(TaskAt(s, p));
    assert ProcOk(s.db, s.procs[p]);
    LiveIsNotPending(s, k);
    hide RowsOk, StoresOk, AllCompatible, Live;
  }

  lemma LiveIsNotPending(s: State, k: Key)
    requires Inv(s)
    ensures Live(s.db.rows, k) ==> !k.pending && k in s.db.objects && k in s.db.minted
  {
    if Live(s.db.rows, k) {
      assert CellOk(s.db, k.cell.at, k.cell.column, s.db.rows[k.cell.at][k.cell.column].descriptor);
    }
  }

  lemma QueuersLock(s: State, q: nat, k: Key)
    requires Inv(s) && Records(s) && CanCommit(s, q) && k in s.procs[q].txn.queued
    ensures Writer(TaskAt(s, q)) && k.cell.at == RowOf(TaskAt(s, q)) && s.procs[q].txn.rowLock == Some(k.cell.at)
  {
    assert ProcOk(s.db, s.procs[q]) && RecordsOf(s.holdRecords, s.db, s.queue, s.procs[q]);
    hide RowsOk, StoresOk, AllCompatible, HeldApart, Live, WriteOf;
  }

  /** While a writer drops a key that has no record, none is made but by the writer's own commit. */
  lemma StaysOutside(s: State, a: Action, p: nat, k: Key)
    requires Inv(s) && Records(s) && Enabled(s, a) && Dropping(s, p, k) && k !in s.queue && !Ends(a, p)
    ensures k !in Next(s, a).queue
  {
    hide Next, Enabled, Drops, Records, RowsOk, StoresOk, ProcsOk, CurrentKey;
    DroppingLocks(s, p, k);
    DropsAt(s.db, TaskAt(s, p), k);
    if k in Next(s, a).queue {
      JoinsQueue(s, a, k);
      if a.Register? {
        RegisterEnabled(s, a);
        RegistersNoLive(s, a.p);
      } else {
        CommitEnabled(s, a);
        QueuersLock(s, a.p, k);
      }
    }
  }

  lemma DropsAt(db: Stores, t: Task, k: Key)
    requires Drops(db, t, k)
    ensures k.cell.at == RowOf(t)
  {
  }

  lemma RegisterEnabled(s: State, a: Action)
    requires Enabled(s, a) && a.Register?
    ensures CanRegister(s, a.p)
  {
  }

  // ---------- a key whose time is over ----------

  /** The key was published once and is published no more. */
  predicate Spent(s: State, k: Key) {
    && k in s.db.minted && !Live(s.db.rows, k)
    && forall p :: p in s.procs && TaskAt(s, p).Upload? ==> TaskAt(s, p).descriptor.key != k
  }

  lemma SpentTasks(s: State, a: Action, k: Key)
    requires Spent(s, k) && Enabled(s, a)
    ensures k in Next(s, a).db.minted
    ensures forall p :: p in Next(s, a).procs && TaskAt(Next(s, a), p).Upload? ==>
              TaskAt(Next(s, a), p).descriptor.key != k
  {
    hide Enabled, Next, Live;
    StepFrame(s, a);
    if a.Begin? { BeginnersTask(s, a); }
    var t := Next(s, a);
    forall p | p in t.procs && TaskAt(t, p).Upload? ensures TaskAt(t, p).descriptor.key != k {
      if !ActsFor(a, p) {
        assert t.procs[p] == s.procs[p];
      } else if ByWriter(a) {
        WritersAct(s, a);
      } else if ByWorker(a) {
        WorkersTask(s, a);
      } else if ByReader(a) {
        ReadersAct(s, a);
      } else if !a.Begin? {
        EndedIsGone(s, a);
      }
    }
  }

  lemma SpentStays(s: State, a: Action, k: Key)
    requires Inv(s) && Enabled(s, a) && Spent(s, k)
    ensures Spent(Next(s, a), k)
  {
    SpentTasks(s, a, k);
    hide Inv, Live;
    if a.Commit? {
      CommitEnabled(s, a);
      if Live(Next(s, a).db.rows, k) { CommitPublishes(s, a.p, k); }
    } else if a.CreateRow? {
      CreatedKeepsLive(s, a, k);
    } else {
      StepKeepsRows(s, a);
    }
  }

  /** The commit of a writer that drops a key spends it. */
  lemma DropSpends(s: State, p: nat, k: Key)
    requires Inv(s) && CanCommit(s, p) && Dropping(s, p, k)
    ensures Spent(DoCommit(s, p), k)
    ensures k in DoCommit(s, p).db.objects
    ensures forall w :: w in DoCommit(s, p).procs ==> w in s.procs && DoCommit(s, p).procs[w] == s.procs[w]
  {
    DroppingLocks(s, p, k);
    assert ProcOk(s.db, s.procs[p]);
    DroppedIsGone(s.db, s.procs[p], k);
    forall q | q in s.procs && TaskAt(s, q).Upload? ensures TaskAt(s, q).descriptor.key != k {
      assert ProcOk(s.db, s.procs[q]);
    }
  }

  // ---------- the step that leaks ----------

  /**
    An object is leaked by a writer's commit that drops it without a record, or by a worker's that takes
    its record.
   */
  lemma LeakingStep(s: State, a: Action, k: Key)
    requires Inv(s) && Records(s) && Enabled(s, a) && !Leaked(s, k) && Leaked(Next(s, a), k)
    ensures a.Commit? && a.p in s.procs
    ensures Writer(TaskAt(s, a.p)) ==> Dropping(s, a.p, k) && k !in s.queue && k !in s.procs[a.p].txn.queued
    ensures !Writer(TaskAt(s, a.p)) ==> Spares(s, a.p, k) && k in s.queue && !Live(s.db.rows, k)
  {
    if a.Commit? {
      CommitEnabled(s, a);
      LeakingCommit(s, a.p, k);
    } else {
      LeakIsByCommit(s, a, k);
    }
  }

  lemma LeakIsByCommit(s: State, a: Action, k: Key)
    requires Inv(s) && Records(s) && Enabled(s, a) && !a.Commit? && Leaked(Next(s, a), k)
    ensures Leaked(s, k)
  {
    hide Next, Enabled, Live, RecordsOf, RowsOk, StoresOk, AllCompatible;
    if k in s.queue { LeavesQueue(s, a, k); }
    if !a.CreateRow? { StepKeepsRows(s, a); } else if Live(s.db.rows, k) { CreatedKeepsLive(s, a, k); }
    if k !in s.db.objects {
      NewObject(s, a, k);
      StoredHasRecord(s, a, k);
    }
  }

  lemma StoredHasRecord(s: State, a: Action, k: Key)
    requires Inv(s) && Records(s) && Enabled(s, a) && (a.PutObject? || a.CopyObject?)
    requires k !in s.db.objects && k in Next(s, a).db.objects
    ensures k in Next(s, a).queue
  {
    assert ProcOk(s.db, s.procs[a.p]) && RecordsOf(s.holdRecords, s.db, s.queue, s.procs[a.p]);
    hide RowFree, KeyFree, NotExclusive, RecordUnlocked, MayQueue, Retired, RetiredBy, Image, WriteOf, Edited;
    hide Fresh, Minted;
    hide Live, HoldsKey, Referenced, IsBlobColumn, ReadyToWrite, Applied, Remaining, TouchesNoBlob, RowsOk;
    hide StoresOk, AllCompatible, HeldApart;
  }

  lemma LeakingCommit(s: State, p: nat, k: Key)
    requires Inv(s) && Records(s) && CanCommit(s, p) && !Leaked(s, k) && Leaked(DoCommit(s, p), k)
    ensures Writer(TaskAt(s, p)) ==> Dropping(s, p, k) && k !in s.queue && k !in s.procs[p].txn.queued
    ensures !Writer(TaskAt(s, p)) ==> Spares(s, p, k) && k in s.queue && !Live(s.db.rows, k)
  {
    var me := s.procs[p];
    assert ProcOk(s.db, me);
    if Writer(me.task) {
      WriterLeak(s, p, k);
    } else {
      WorkerLeak(s, p, k);
    }
  }

  lemma WriterLeak(s: State, p: nat, k: Key)
    requires Inv(s) && CanCommit(s, p) && Writer(TaskAt(s, p)) && !Leaked(s, k) && Leaked(DoCommit(s, p), k)
    ensures Dropping(s, p, k) && k !in s.queue && k !in s.procs[p].txn.queued
  {
    var me := s.procs[p];
    assert ProcOk(s.db, me);
    hide RowsOk, StoresOk, AllCompatible, Live, Drops, WriteOf;
    assert k in s.db.objects && k !in s.queue;
    CommitDrops(s.db, me, k);
  }

  lemma WorkerLeak(s: State, p: nat, k: Key)
    requires Inv(s) && CanCommit(s, p) && !Writer(TaskAt(s, p)) && !Leaked(s, k) && Leaked(DoCommit(s, p), k)
    ensures Spares(s, p, k) && k in s.queue && !Live(s.db.rows, k)
  {
    assert ProcOk(s.db, s.procs[p]);
    hide RowsOk, StoresOk, AllCompatible, Live;
  }

  // ---------- along a trace ----------

  ghost predicate At(ss: seq<State>, acts: seq<Action>, i: nat) {
    && |ss| == |acts| + 1 && i < |acts|
    && Enabled(ss[i], acts[i]) && ss[i + 1] == Next(ss[i], acts[i])
    && Good(ss[i]) && Good(ss[i + 1])
  }

  ghost predicate Good(s: State) {
    Inv(s) && Records(s) && InOrder(s) && !s.holdRecords
  }

  lemma TraceAt(ss: seq<State>, acts: seq<Action>, i: nat)
    requires Traced(ss, acts) && i < |acts|
    ensures At(ss, acts, i)
  {
    hide Inv, Records, InOrder, Enabled, Next;
  }

  /** A key that a worker spares was found referenced by that worker, in the same pass. */
  lemma {:induction false} FindFinding(ss: seq<State>, acts: seq<Action>, w: nat, k: Key, i: nat) returns (c: nat)
    requires Traced(ss, acts) && i < |ss| && ss[0].procs == map[] && Spares(ss[i], w, k)
    ensures c < i && FindsReference(ss[c], acts[c], w, k) && GoesOn(acts, w, c, i)
    decreases i
  {
    hide Traced, Inv, Records, InOrder, Enabled, Next, Ends, FindsReference;
    assert |ss| == |acts| + 1 by { TraceLength(ss, acts); }
    assert i > 0;
    TraceAt(ss, acts, i - 1);
    SparedBefore(ss[i - 1], acts[i - 1], w, k);
    if FindsReference(ss[i - 1], acts[i - 1], w, k) {
      c := i - 1;
    } else {
      c := FindFinding(ss, acts, w, k, i - 1);
    }
  }

  lemma TraceLength(ss: seq<State>, acts: seq<Action>)
    requires Traced(ss, acts)
    ensures |ss| == |acts| + 1
  {
  }

  /** A drop was staged by the same transaction, whose queued keys have not changed since. */
  lemma {:induction false} FindStaging(ss: seq<State>, acts: seq<Action>, p: nat, k: Key, i: nat) returns (st: nat)
    requires Traced(ss, acts) && i < |ss| && ss[0].procs == map[] && Dropping(ss[i], p, k)
    ensures st < i && StagesDrop(ss[st], acts[st], p, k) && GoesOn(acts, p, st, i)
    ensures forall n :: st < n <= i ==> Dropping(ss[n], p, k) && ss[n].procs[p].txn.queued == ss[i].procs[p].txn.queued
    decreases i
  {
    hide Traced, Inv, Records, InOrder, Enabled, Next, Ends, StagesDrop, Drops;
    TraceLength(ss, acts);
    assert i > 0;
    TraceAt(ss, acts, i - 1);
    DroppingSteps(ss[i - 1], acts[i - 1], p, k);
    if Dropping(ss[i - 1], p, k) {
      st := FindStaging(ss, acts, p, k, i - 1);
    } else {
      st := i - 1;
    }
  }

  /** A key that was referenced and is no longer was dropped by a commit in between. */
  lemma {:induction false} FindDrop(ss: seq<State>, acts: seq<Action>, k: Key, i: nat, j: nat) returns (cm: nat)
    requires Traced(ss, acts) && i < j < |ss| && Live(ss[i].db.rows, k) && !Live(ss[j].db.rows, k)
    ensures i <= cm < j && cm < |acts| && acts[cm].Commit? && Dropping(ss[cm], acts[cm].p, k)
    decreases j
  {
    hide Traced, Inv, Records, InOrder, Enabled, Next, Live, Drops;
    TraceLength(ss, acts);
    TraceAt(ss, acts, j - 1);
    if Live(ss[j - 1].db.rows, k) {
      cm := j - 1;
      LiveEnds(ss[j - 1], acts[j - 1], k);
    } else {
      cm := FindDrop(ss, acts, k, i, j - 1);
    }
  }

  lemma LiveEnds(s: State, a: Action, k: Key)
    requires Inv(s) && Enabled(s, a) && Live(s.db.rows, k) && !Live(Next(s, a).db.rows, k)
    ensures a.Commit? && Dropping(s, a.p, k)
  {
    hide Inv, Enabled, Next, Live, Drops;
    if a.CreateRow? {
      CreatedKeepsLive(s, a, k);
    } else if !a.Commit? {
      StepKeepsRows(s, a);
    } else {
      CommitEnabled(s, a);
      LiveEndsByCommit(s, a.p, k);
    }
  }

  lemma LiveEndsByCommit(s: State, p: nat, k: Key)
    requires Inv(s) && CanCommit(s, p) && Live(s.db.rows, k) && !Live(DoCommit(s, p).db.rows, k)
    ensures Dropping(s, p, k)
  {
    assert ProcOk(s.db, s.procs[p]);
    hide RowsOk, StoresOk, AllCompatible, Live, Drops, WriteOf;
    if Writer(TaskAt(s, p)) { CommitDrops(s.db, s.procs[p], k); }
  }

  /** A record that is gone was taken by a worker's commit in between. */
  lemma {:induction false} FindTaking(ss: seq<State>, acts: seq<Action>, k: Key, i: nat, j: nat) returns (u: nat)
    requires Traced(ss, acts) && i < j < |ss| && k in ss[i].queue && k !in ss[j].queue
    ensures i <= u < j && u < |acts| && acts[u].Commit? && acts[u].p in ss[u].procs && TaskAt(ss[u], acts[u].p).Cleanup?
    ensures k in ss[u].procs[acts[u].p].txn.settled && k in ss[u].procs[acts[u].p].txn.exclusive
    decreases j
  {
    hide Traced, Inv, Records, InOrder, Enabled, Next;
    TraceLength(ss, acts);
    TraceAt(ss, acts, j - 1);
    if k in ss[j - 1].queue {
      u := j - 1;
      LeavesQueue(ss[j - 1], acts[j - 1], k);
    } else {
      u := FindTaking(ss, acts, k, i, j - 1);
    }
  }

  // ---------- every leak is a race ----------

  lemma {:induction false} FindLeak(ss: seq<State>, acts: seq<Action>, k: Key, j: nat) returns (i: nat)
    requires |ss| == |acts| + 1 && j < |ss| && !Leaked(ss[0], k) && Leaked(ss[j], k)
    ensures i < j && i < |acts| && !Leaked(ss[i], k) && Leaked(ss[i + 1], k)
    decreases j
  {
    hide Leaked;
    if Leaked(ss[j - 1], k) { i := FindLeak(ss, acts, k, j - 1); } else { i := j - 1; }
  }

  /** Under ON CONFLICT DO NOTHING a dropped key is queued exactly if it has no record yet. */
  lemma StagedIsQueued(s: State, a: Action, p: nat, k: Key)
    requires Inv(s) && !s.holdRecords && Enabled(s, a) && StagesDrop(s, a, p, k)
    ensures p in Next(s, a).procs && (k in Next(s, a).procs[p].txn.queued <==> k !in s.queue)
    ensures Next(s, a).queue == s.queue
  {
    RetiredIsDropped(s.db, TaskAt(s, p), k);
    hide Inv, Drops, RetiredBy, MayQueue;
  }

  lemma SparesOfRecord(s: State, w: nat, k: Key)
    requires w in s.procs && TaskAt(s, w).Cleanup? && k in s.procs[w].txn.settled && k in s.procs[w].txn.exclusive
    requires k in s.db.objects
    ensures Spares(s, w, k)
  {
  }

  ghost predicate FromNothing(ss: seq<State>, acts: seq<Action>) {
    Traced(ss, acts) && Init(ss[0])
  }

  lemma WriterLeakIsRace(ss: seq<State>, acts: seq<Action>, k: Key, cm: nat)
    returns (w: nat, c: nat, u: nat, p: nat, st: nat)
    requires FromNothing(ss, acts) && |ss| == |acts| + 1 && cm < |acts| && acts[cm].Commit?
              && Dropping(ss[cm], acts[cm].p, k)
    requires k !in ss[cm].queue && k !in ss[cm].procs[acts[cm].p].txn.queued
    ensures Race(ss, acts, k, w, c, u, p, st, cm)
  {
    hide Inv, Records, InOrder, Enabled, Next, Drops, StagesDrop, FindsReference, Ends;
    p := acts[cm].p;
    st := FindStaging(ss, acts, p, k, cm);
    TraceAt(ss, acts, st);
    assert Dropping(ss[st + 1], p, k);
    StagedIsQueued(ss[st], acts[st], p, k);
    u := FindTaking(ss, acts, k, st, cm);
    StagesIs(ss[st], acts[st], p, k);
    w := acts[u].p;
    DroppingLocks(ss[u], p, k);
    SparesOfRecord(ss[u], w, k);
    c := FindFinding(ss, acts, w, k, u);
  }

  lemma StagesIs(s: State, a: Action, p: nat, k: Key)
    requires StagesDrop(s, a, p, k)
    ensures a == StageWrite(p)
  {
  }

  lemma FindsIs(s: State, a: Action, w: nat, k: Key)
    requires FindsReference(s, a, w, k)
    ensures a == Check(w)
  {
  }

  lemma WorkerLeakIsRace(ss: seq<State>, acts: seq<Action>, k: Key, u: nat)
    returns (c: nat, p: nat, st: nat, cm: nat)
    requires FromNothing(ss, acts) && |ss| == |acts| + 1 && u < |acts| && acts[u].Commit?
    requires Spares(ss[u], acts[u].p, k) && !Live(ss[u].db.rows, k)
    ensures Race(ss, acts, k, acts[u].p, c, u, p, st, cm)
  {
    hide Inv, Records, InOrder, Enabled, Next, Drops, StagesDrop, FindsReference, Ends, Live;
    var w := acts[u].p;
    c := FindFinding(ss, acts, w, k, u);
    FindingSpares(ss[c], acts[c], w, k);
    FindsIs(ss[c], acts[c], w, k);
    cm := FindDrop(ss, acts, k, c, u);
    p := acts[cm].p;
    st := FindStaging(ss, acts, p, k, cm);
  }

  lemma LeakIsRace(ss: seq<State>, acts: seq<Action>, k: Key)
    returns (w: nat, c: nat, u: nat, p: nat, st: nat, cm: nat)
    requires FromNothing(ss, acts) && |ss| == |acts| + 1 && Leaked(ss[|acts|], k)
    ensures Race(ss, acts, k, w, c, u, p, st, cm)
  {
    hide Inv, Records, InOrder, Enabled, Next, Drops, Live, Race;
    NoneLeakedAtFirst(ss[0], k);
    var i := FindLeak(ss, acts, k, |acts|);
    LeakingStep(ss[i], acts[i], k);
    if Writer(TaskAt(ss[i], acts[i].p)) {
      cm := i;
      w, c, u, p, st := WriterLeakIsRace(ss, acts, k, cm);
    } else {
      u, w := i, acts[i].p;
      c, p, st, cm := WorkerLeakIsRace(ss, acts, k, u);
    }
  }

  lemma NoneLeakedAtFirst(s: State, k: Key)
    requires Init(s)
    ensures !Leaked(s, k)
  {
  }

  // ---------- every race is a leak ----------

  lemma {:induction false} SparesUntil(ss: seq<State>, acts: seq<Action>, w: nat, k: Key, i: nat, j: nat)
    requires Traced(ss, acts) && i < j < |ss| && GoesOn(acts, w, i, j) && Spares(ss[i + 1], w, k)
    ensures Spares(ss[j], w, k)
    decreases j
  {
    hide Inv, Records, InOrder, Enabled, Next, Spares, Ends;
    if i + 1 < j {
      SparesUntil(ss, acts, w, k, i, j - 1);
      SparesOn(ss[j - 1], acts[j - 1], w, k);
    }
  }

  lemma {:induction false} DroppingUntil(ss: seq<State>, acts: seq<Action>, p: nat, k: Key, i: nat, j: nat)
    requires Traced(ss, acts) && i < j < |ss| && GoesOn(acts, p, i, j) && Dropping(ss[i + 1], p, k)
    ensures Dropping(ss[j], p, k) && ss[j].procs[p].txn.queued == ss[i + 1].procs[p].txn.queued
    decreases j
  {
    hide Inv, Records, InOrder, Enabled, Next, Drops, Ends;
    if i + 1 < j {
      DroppingUntil(ss, acts, p, k, i, j - 1);
      DroppingSteps(ss[j - 1], acts[j - 1], p, k);
    }
  }

  lemma {:induction false} OutsideUntil(ss: seq<State>, acts: seq<Action>, p: nat, k: Key, st: nat, i: nat, j: nat)
    requires Traced(ss, acts) && st < i <= j < |ss| && GoesOn(acts, p, st, j) && Dropping(ss[st + 1], p, k)
    requires k !in ss[i].queue
    ensures k !in ss[j].queue
    decreases j
  {
    hide Inv, Records, InOrder, Enabled, Next, Dropping, Ends;
    if i < j {
      OutsideUntil(ss, acts, p, k, st, i, j - 1);
      DroppingUntil(ss, acts, p, k, st, j - 1);
      StaysOutside(ss[j - 1], acts[j - 1], p, k);
    }
  }

  lemma {:induction false} SpentUntil(ss: seq<State>, acts: seq<Action>, k: Key, i: nat, j: nat)
    requires Traced(ss, acts) && i <= j < |ss| && Spent(ss[i], k)
    ensures Spent(ss[j], k)
    decreases j
  {
    hide Inv, Records, InOrder, Enabled, Next, Spent;
    if i < j {
      SpentUntil(ss, acts, k, i, j - 1);
      SpentStays(ss[j - 1], acts[j - 1], k);
    }
  }

  lemma {:induction false} LeakedUntil(ss: seq<State>, acts: seq<Action>, k: Key, i: nat, j: nat)
    requires Traced(ss, acts) && i <= j < |ss| && Leaked(ss[i], k)
    ensures Leaked(ss[j], k)
    decreases j
  {
    hide Inv, Records, InOrder, Enabled, Next, Leaked;
    if i < j {
      LeakedUntil(ss, acts, k, i, j - 1);
      StepKeepsLeak(ss[j - 1], acts[j - 1], k);
    }
  }

  lemma WorkerTakes(s: State, w: nat, k: Key)
    requires Inv(s) && CanCommit(s, w) && Spares(s, w, k)
    ensures k !in DoCommit(s, w).queue && k in DoCommit(s, w).db.objects
    ensures Live(DoCommit(s, w).db.rows, k) <==> Live(s.db.rows, k)
  {
    assert ProcOk(s.db, s.procs[w]);
    hide RowsOk, StoresOk, AllCompatible, Live;
  }

  /** While a worker spares a key it has its record. */
  lemma SparedHasRecord(s: State, w: nat, k: Key)
    requires Inv(s) && Records(s) && Spares(s, w, k)
    ensures k in s.queue
  {
    assert RecordsOf(s.holdRecords, s.db, s.queue, s.procs[w]);
    hide Inv, HeldApart;
  }

  lemma FindingHasRecord(s: State, a: Action, w: nat, k: Key)
    requires Inv(s) && Records(s) && FindsReference(s, a, w, k)
    ensures k in s.queue
  {
    assert RecordsOf(s.holdRecords, s.db, s.queue, s.procs[w]);
    hide Inv, HeldApart;
  }

  /** The drop's commit comes first: the worker then takes the record of a key that is spent. */
  lemma DropFirstLeaks(ss: seq<State>, acts: seq<Action>, k: Key, w: nat, c: nat, u: nat, p: nat, st: nat, cm: nat)
    requires Traced(ss, acts) && |ss| == |acts| + 1 && Race(ss, acts, k, w, c, u, p, st, cm) && cm < u
    ensures Leaked(ss[u + 1], k)
  {
    hide Inv, Records, InOrder, Enabled, Next, Spares, FindsReference, StagesDrop, Dropping, Live, Ends;
    hide DoCommit, CanCommit;
    FindingSpares(ss[c], acts[c], w, k);
    SparesUntil(ss, acts, w, k, c, u);
    DroppingSteps(ss[st], acts[st], p, k);
    DroppingUntil(ss, acts, p, k, st, cm);
    CommitEnabled(ss[cm], acts[cm]);
    DropSpends(ss[cm], p, k);
    SpentUntil(ss, acts, k, cm + 1, u);
    CommitEnabled(ss[u], acts[u]);
    WorkerTakes(ss[u], w, k);
  }

  /** Where the writer staged its drop the key had a record, so the drop made none. */
  lemma StagedBehindRecord(ss: seq<State>, acts: seq<Action>, k: Key, w: nat, c: nat, u: nat, p: nat, st: nat, cm: nat)
    requires Traced(ss, acts) && |ss| == |acts| + 1 && Race(ss, acts, k, w, c, u, p, st, cm) && u < cm
    ensures k in ss[st].queue
  {
    hide Inv, Records, InOrder, Enabled, Next, Spares, FindsReference, StagesDrop, Dropping, Live, Ends;
    FindingSpares(ss[c], acts[c], w, k);
    FindingHasRecord(ss[c], acts[c], w, k);
    FindsIs(ss[c], acts[c], w, k);
    StagesIs(ss[st], acts[st], p, k);
    if c < st {
      SparesUntil(ss, acts, w, k, c, st);
      SparedHasRecord(ss[st], w, k);
    } else if k !in ss[st].queue {
      DroppingSteps(ss[st], acts[st], p, k);
      StagedIsQueued(ss[st], acts[st], p, k);
      OutsideUntil(ss, acts, p, k, st, st + 1, c);
    }
  }

  /** The worker's commit comes first: it takes the record behind which the drop was staged. */
  lemma WorkerFirstLeaks(ss: seq<State>, acts: seq<Action>, k: Key, w: nat, c: nat, u: nat, p: nat, st: nat, cm: nat)
    requires Traced(ss, acts) && |ss| == |acts| + 1 && Race(ss, acts, k, w, c, u, p, st, cm) && u < cm
    ensures Leaked(ss[cm + 1], k)
  {
    hide Inv, Records, InOrder, Enabled, Next, Spares, FindsReference, StagesDrop, Dropping, Live, Ends, CanCommit;
    StagedBehindRecord(ss, acts, k, w, c, u, p, st, cm);
    StagedIsQueued(ss[st], acts[st], p, k);
    DroppingSteps(ss[st], acts[st], p, k);
    DroppingUntil(ss, acts, p, k, st, cm);
    FindingSpares(ss[c], acts[c], w, k);
    SparesUntil(ss, acts, w, k, c, u);
    CommitEnabled(ss[u], acts[u]);
    WorkerTakes(ss[u], w, k);
    OutsideUntil(ss, acts, p, k, st, u + 1, cm);
    CommitEnabled(ss[cm], acts[cm]);
    DropSpends(ss[cm], p, k);
  }

  lemma RaceIsLeak(ss: seq<State>, acts: seq<Action>, k: Key, w: nat, c: nat, u: nat, p: nat, st: nat, cm: nat)
    requires Traced(ss, acts) && |ss| == |acts| + 1 && Race(ss, acts, k, w, c, u, p, st, cm)
    ensures Leaked(ss[|acts|], k)
  {
    hide Inv, Records, InOrder, Enabled, Next, Leaked;
    if cm < u {
      DropFirstLeaks(ss, acts, k, w, c, u, p, st, cm);
      LeakedUntil(ss, acts, k, u + 1, |acts|);
    } else {
      Apart(ss, acts, k, w, c, u, p, st, cm);
      WorkerFirstLeaks(ss, acts, k, w, c, u, p, st, cm);
      LeakedUntil(ss, acts, k, cm + 1, |acts|);
    }
  }

  lemma Apart(ss: seq<State>, acts: seq<Action>, k: Key, w: nat, c: nat, u: nat, p: nat, st: nat, cm: nat)
    requires Traced(ss, acts) && |ss| == |acts| + 1 && Race(ss, acts, k, w, c, u, p, st, cm)
    ensures cm != u
  {
    hide Inv, Records, InOrder, Enabled, Next, FindsReference, StagesDrop, Drops, Live, Ends;
    FindingSpares(ss[c], acts[c], w, k);
    SparesUntil(ss, acts, w, k, c, u);
    DroppingSteps(ss[st], acts[st], p, k);
    DroppingUntil(ss, acts, p, k, st, cm);
  }

  // ---------- runs ----------

  lemma {:induction false} StatesTraced(s: State, acts: seq<Action>)
    requires Run(s, acts) && Inv(s) && Records(s) && InOrder(s) && !s.holdRecords
    ensures Traced(States(s, acts), acts) && States(s, acts)[|acts|] == After(s, acts)
    decreases |acts|
  {
    hide Inv, Records, InOrder, Enabled, Next;
    if acts != [] {
      var t := Next(s, acts[0]);
      StepKeepsInv(s, acts[0]);
      StepKeepsRecords(s, acts[0]);
      StepKeepsOrder(s, acts[0]);
      StepKeepsHold(s, acts[0]);
      StatesTraced(t, acts[1..]);
      var ss := States(s, acts);
      forall i | 0 <= i < |acts| ensures Enabled(ss[i], acts[i]) && ss[i + 1] == Next(ss[i], acts[i]) {
        if i > 0 { assert ss[i] == States(t, acts[1..])[i - 1] && acts[i] == acts[1..][i - 1]; }
      }
      forall i | 0 <= i < |ss| ensures Inv(ss[i]) && Records(ss[i]) && InOrder(ss[i]) && !ss[i].holdRecords {
        if i > 0 { assert ss[i] == States(t, acts[1..])[i - 1]; }
      }
    }
  }

  lemma StepKeepsHold(s: State, a: Action)
    requires Enabled(s, a)
    ensures Next(s, a).holdRecords == s.holdRecords
  {
    hide Enabled, Next;
    StepFrame(s, a);
  }

  lemma InitIsGood(s: State)
    requires Init(s)
    ensures Inv(s) && Records(s) && InOrder(s)
  {
  }

  ghost predicate Races(s: State, acts: seq<Action>, k: Key)
    requires Run(s, acts)
  {
    exists w, c, u, p, st, cm :: Race(States(s, acts), acts, k, w, c, u, p, st, cm)
  }

  /** Under ON CONFLICT DO NOTHING, a run leaks a key exactly if its schedule holds a race for it. */
  lemma LeaksIffRaces(s: State, acts: seq<Action>, k: Key)
    requires Init(s) && !s.holdRecords && Run(s, acts)
    ensures Leaked(After(s, acts), k) <==> Races(s, acts, k)
  {
    hide Inv, Records, InOrder, Enabled, Next, Leaked, Run, After, States, Race, Init;
    InitIsGood(s);
    StatesTraced(s, acts);
    var ss := States(s, acts);
    if Leaked(After(s, acts), k) {
      var w, c, u, p, st, cm := LeakIsRace(ss, acts, k);
    }
    if w, c, u, p, st, cm :| Race(ss, acts, k, w, c, u, p, st, cm) {
      RaceIsLeak(ss, acts, k, w, c, u, p, st, cm);
    }
  }

  // ---------- only workers left ----------

  predicate CleanupAction(a: Action) {
    ByWorker(a) || a.Commit? || a.Rollback?
  }

  /** What a worker passed over is referenced, and what it settled is referenced or no longer stored. */
  predicate HonestWorker(db: Stores, me: Proc) {
    && me.task.Cleanup?
    && (forall k :: k in me.txn.settled ==> k !in db.objects || Live(db.rows, k))
    && (me.task.phase.Kept? && me.task.next < |me.task.batch| ==> Live(db.rows, me.task.batch[me.task.next]))
  }

  predicate Honest(s: State) {
    forall w :: w in s.procs ==> HonestWorker(s.db, s.procs[w])
  }

  lemma WorkersShrink(s: State, a: Action)
    requires Inv(s) && Honest(s) && Enabled(s, a) && CleanupAction(a)
    ensures Next(s, a).db.rows == s.db.rows && Next(s, a).db.objects.Keys <= s.db.objects.Keys
  {
    hide Enabled, Next;
    StepFrame(s, a);
    if a.Commit? {
      CommitEnabled(s, a);
      assert ProcOk(s.db, s.procs[a.p]) && HonestWorker(s.db, s.procs[a.p]);
    } else if a.DeleteObject? || a.DeleteFails? {
      DeletesOne(s, a);
    }
  }

  lemma WorkerStaysHonest(s: State, a: Action)
    requires Inv(s) && Honest(s) && Enabled(s, a) && ByWorker(a)
    ensures a.p in Next(s, a).procs && HonestWorker(Next(s, a).db, Next(s, a).procs[a.p])
  {
    hide Enabled, Next, Inv;
    if a.Settle? {
      SettlingIsHonest(s, a);
    } else if a.Check? {
      CheckingIsHonest(s, a);
    } else if a.Claim? || a.TryLock? {
      LockingIsHonest(s, a);
    } else {
      DeletingIsHonest(s, a);
    }
  }

  lemma SettlingIsHonest(s: State, a: Action)
    requires Inv(s) && Honest(s) && Enabled(s, a) && a.Settle?
    ensures a.p in Next(s, a).procs && HonestWorker(Next(s, a).db, Next(s, a).procs[a.p])
  {
    assert ProcOk(s.db, s.procs[a.p]) && HonestWorker(s.db, s.procs[a.p]);
    hide RowsOk, StoresOk, ProcsOk, AllCompatible, Honest, Live;
  }

  lemma CheckingIsHonest(s: State, a: Action)
    requires Inv(s) && Honest(s) && Enabled(s, a) && a.Check?
    ensures a.p in Next(s, a).procs && HonestWorker(Next(s, a).db, Next(s, a).procs[a.p])
  {
    assert HonestWorker(s.db, s.procs[a.p]);
    ReferencedIsLive(s.db, Job(s, a.p));
    hide Inv, Honest, Live, Referenced;
  }

  lemma LockingIsHonest(s: State, a: Action)
    requires Honest(s) && Enabled(s, a) && (a.Claim? || a.TryLock?)
    ensures a.p in Next(s, a).procs && HonestWorker(Next(s, a).db, Next(s, a).procs[a.p])
  {
    if a.p in s.procs { assert HonestWorker(s.db, s.procs[a.p]); }
    hide Honest, Live, KeyFree, RecordUnlocked;
  }

  lemma DeletingIsHonest(s: State, a: Action)
    requires Honest(s) && Enabled(s, a) && (a.DeleteObject? || a.DeleteFails? || a.Forget?)
    ensures a.p in Next(s, a).procs && HonestWorker(Next(s, a).db, Next(s, a).procs[a.p])
  {
    assert HonestWorker(s.db, s.procs[a.p]);
    hide Honest, Live;
  }

  lemma StepKeepsHonest(s: State, a: Action)
    requires Inv(s) && Honest(s) && Enabled(s, a) && CleanupAction(a)
    ensures Honest(Next(s, a))
  {
    hide Enabled, Next, Inv, HonestWorker;
    WorkersShrink(s, a);
    StepFrame(s, a);
    if ByWorker(a) { WorkerStaysHonest(s, a); } else { EndedIsGone(s, a); }
    forall w | w in Next(s, a).procs ensures HonestWorker(Next(s, a).db, Next(s, a).procs[w]) {
      if !ActsFor(a, w) { HonestyShrinks(s.db, Next(s, a).db, s.procs[w]); }
    }
  }

  lemma HonestyShrinks(db: Stores, db': Stores, me: Proc)
    requires HonestWorker(db, me) && db'.rows == db.rows && db'.objects.Keys <= db.objects.Keys
    ensures HonestWorker(db', me)
  {
    hide Live;
  }

  lemma WorkersStepLeaksNothing(s: State, a: Action, k: Key)
    requires Inv(s) && Records(s) && Honest(s) && Enabled(s, a) && CleanupAction(a)
    ensures Leaked(Next(s, a), k) <==> Leaked(s, k)
  {
    hide Enabled, Next, Inv, Records, Live;
    WorkersShrink(s, a);
    if Leaked(s, k) {
      StepKeepsLeak(s, a, k);
    } else if Leaked(Next(s, a), k) && k in s.queue {
      LeavesQueue(s, a, k);
    }
  }

  /**
    Once only workers are left, any number of them, interleaved in any way and failing at will, leak
    nothing: what was leaked stays so, and nothing else becomes so.
   */
  lemma {:induction false} WorkersLeakNothing(s: State, acts: seq<Action>, k: Key)
    requires Inv(s) && Records(s) && Honest(s) && Run(s, acts) && forall a :: a in acts ==> CleanupAction(a)
    ensures After(s, acts).db.rows == s.db.rows
    ensures Leaked(After(s, acts), k) <==> Leaked(s, k)
    decreases |acts|
  {
    hide Enabled, Next, Inv, Records, Honest, Leaked;
    if acts != [] {
      var (a, rest) := (acts[0], acts[1..]);
      assert a in acts;
      WorkersShrink(s, a);
      WorkersStepLeaksNothing(s, a, k);
      StepKeepsInv(s, a);
      StepKeepsRecords(s, a);
      StepKeepsHonest(s, a);
      WorkersLeakNothing(Next(s, a), rest, k);
    }
  }

  /**
    Collection is right: when the workers, with whatever failures, have emptied the queue, the stored
    objects are exactly the referenced ones, if and only if none was leaked when they were left alone.
   */
  lemma CollectionIsExactIff(s: State, first: seq<Action>, rest: seq<Action>)
    requires Init(s) && Run(s, first) && After(s, first).procs == map[]
    requires Run(After(s, first), rest) && (forall a :: a in rest ==> CleanupAction(a))
    requires After(After(s, first), rest).queue == {}
    ensures var t := After(After(s, first), rest);
            && t.db.rows == After(s, first).db.rows
            && (forall k :: k in t.db.objects <==>
                  k in After(s, first).db.objects && (Live(t.db.rows, k) || k !in After(s, first).queue))
            && ((forall k :: k in t.db.objects <==> Live(t.db.rows, k)) <==> NoLeak(After(s, first)))
  {
    hide Enabled, Next, Inv, Records, Run, After, Live, Init, Honest;
    var u := After(s, first);
    var t := After(u, rest);
    InitIsGood(s);
    RunKeepsInv(s, first);
    RunKeepsRecords(s, first);
    RunKeepsInv(u, rest);
    NobodyIsHonest(u);
    forall k ensures Leaked(t, k) <==> Leaked(u, k) { WorkersLeakNothing(u, rest, k); }
    WorkersLeakNothing(u, rest, Key(Cell(RowId(0, 0), 0), false, 0));
    forall k ensures Live(t.db.rows, k) ==> k in t.db.objects && k in u.db.objects {
      LiveIsNotPending(t, k);
      LiveIsNotPending(u, k);
    }
    assert forall k :: k in t.db.objects <==> k in u.db.objects && (Live(t.db.rows, k) || k !in u.queue) by {
      forall k ensures k in t.db.objects <==> k in u.db.objects && (Live(t.db.rows, k) || k !in u.queue) {
        assert Leaked(t, k) <==> Leaked(u, k);
      }
    }
    hide Leaked, NoLeak;
    NoLeakIsNone(u);
    NoLeakIsNone(t);
    EmptyQueueIsExactIff(t);
  }

  lemma EmptyQueueIsExactIff(s: State)
    requires s.queue == {} && forall k :: Live(s.db.rows, k) ==> k in s.db.objects
    ensures (forall k :: k in s.db.objects <==> Live(s.db.rows, k)) <==> NoLeak(s)
  {
    hide Live;
  }

  lemma NobodyIsHonest(s: State)
    requires s.procs == map[]
    ensures Honest(s)
  {
  }

  lemma NoLeakIsNone(s: State)
    ensures NoLeak(s) <==> forall k :: !Leaked(s, k)
  {
    hide Live;
    if forall k :: !Leaked(s, k) {
      forall k | k in s.db.objects ensures Live(s.db.rows, k) || k in s.queue { assert !Leaked(s, k); }
    }
  }

  lemma {:induction false} RunKeepsRecords(s: State, acts: seq<Action>)
    requires Inv(s) && Records(s) && Run(s, acts)
    ensures Records(After(s, acts))
    decreases |acts|
  {
    hide Enabled, Next, Inv, Records;
    if acts != [] {
      StepKeepsInv(s, acts[0]);
      StepKeepsRecords(s, acts[0]);
      RunKeepsRecords(Next(s, acts[0]), acts[1..]);
    }
  }
}
