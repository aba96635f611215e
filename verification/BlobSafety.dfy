/**
  Safety of the blob protocol: in every reachable state each committed blob cell names a stored
  object holding the published bytes, and a validated download cannot lose its object.
 */
module BlobSafety {
  import opened Basics
  import opened BlobProtocol

  // ---------- the invariant ----------

  predicate CellOk(db: Stores, at: RowId, c: nat, d: Descriptor) {
    && d.key.cell == Cell(at, c) && !d.key.pending
    && IsBlobColumn(db.blobColumns, at.table, c)
    && d.key in db.minted && db.minted[d.key].descriptor == d
    && d.key in db.objects
    && d.key in db.owners
  }

  ghost predicate RowsOk(db: Stores) {
    forall at, c :: at in db.rows && c in db.rows[at] && db.rows[at][c].Blob? ==>
      CellOk(db, at, c, db.rows[at][c].descriptor)
  }

  predicate StoresOk(db: Stores) {
    && (forall k :: k in db.objects ==> k in db.minted && db.objects[k] == db.minted[k].bytes)
    && (forall k :: k in db.owners ==> k in db.minted && db.owners[k] == k.cell)
  }

  predicate UploadOk(db: Stores, d: Descriptor, pending: Key, bytes: Bytes, step: nat, txn: Txn) {
    var at := d.key.cell.at;
    && step <= PROMOTED
    && d.key.cell == pending.cell && !d.key.pending && pending.pending
    && IsBlobColumn(db.blobColumns, at.table, d.key.cell.column)
    && d.key in db.minted && db.minted[d.key] == Publication(d, bytes)
    && pending in db.minted && db.minted[pending] == Publication(d, bytes)
    && !Live(db.rows, d.key)
    && txn.shared == {} && txn.forgotten == {} && txn.settled == {}
    && (if step < PENDING_LOCKED then txn.exclusive == {}
        else if step < KEY_LOCKED then txn.exclusive == {pending}
        else txn.exclusive == {pending, d.key})
    && (if step >= ROW_LOCKED then txn.rowLock == Some(at) && at in db.rows else txn.rowLock == None)
    && (step >= KEY_REGISTERED ==> d.key in db.owners)
    && (if step >= STAGED
        then txn.write == PutRow(at, db.rows[at][d.key.cell.column := Blob(d)])
        else txn.write == NoWrite && txn.queued == {})
    && (step >= UPLOADED ==> pending in db.objects)
    && (step >= PROMOTED ==> d.key in db.objects)
  }

  predicate WriterOk(db: Stores, t: Task, txn: Txn)
    requires Writer(t)
  {
    && t.step <= WRITTEN
    && txn.exclusive == {} && txn.shared == {} && txn.forgotten == {} && txn.settled == {}
    && (if t.step >= ROW_LOCKED then txn.rowLock == Some(RowOf(t)) && RowOf(t) in db.rows else txn.rowLock == None)
    && (if t.step == WRITTEN
        then txn.write == WriteOf(db.blobColumns, db.rows, t)
            && ReadyToWrite(db.blobColumns, db.rows, AtStep(t, ROW_LOCKED))
        else txn.write == NoWrite && txn.queued == {})
  }

  predicate Gone(db: Stores, k: Key) {
    k !in db.objects && !Live(db.rows, k)
  }

  predicate CleanupOk(db: Stores, batch: seq<Key>, next: nat, phase: CleanupPhase, txn: Txn) {
    && txn.rowLock == None && txn.write == NoWrite && txn.queued == {} && txn.shared == {}
    && next <= |batch|
    && txn.settled <= txn.exclusive && txn.forgotten <= txn.exclusive
    && (forall k :: k in txn.forgotten ==> Gone(db, k))
    && (!phase.Scan? ==> next < |batch| && batch[next] in txn.exclusive)
    && (phase.Condemned? ==> !Live(db.rows, batch[next]))
    && (phase.Deleted? || phase.Forgotten? ==> Gone(db, batch[next]))
  }

  predicate DownloadOk(db: Stores, stage: DownloadPhase, txn: Txn) {
    && txn.rowLock == None && txn.write == NoWrite && txn.queued == {}
    && txn.exclusive == {} && txn.forgotten == {} && txn.settled == {}
    && (stage.Protected? ==> stage.descriptor.key in txn.shared)
    && (stage.Valid? || stage.Got? ==> Protects(db, stage.descriptor, txn))
    && (stage.Got? ==> stage.bytes == db.minted[stage.descriptor.key].bytes)
  }

  /** The reader's shared lock covers a stored object published under `d`. */
  predicate Protects(db: Stores, d: Descriptor, txn: Txn) {
    && d.key in txn.shared && d.key in db.objects
    && d.key in db.minted && db.minted[d.key].descriptor == d
  }

  predicate ProcOk(db: Stores, proc: Proc) {
    match proc.task
    case Upload(d, pending, bytes, step) => UploadOk(db, d, pending, bytes, step, proc.txn)
    case Cleanup(batch, next, phase) => CleanupOk(db, batch, next, phase, proc.txn)
    case Download(_, _, stage) => DownloadOk(db, stage, proc.txn)
    case _ => WriterOk(db, proc.task, proc.txn)
  }

  predicate UploadsApart(a: Task, b: Task) {
    a.Upload? && b.Upload? ==> a.descriptor.key != b.descriptor.key && a.pending != b.pending
  }

  predicate Compatible(a: Proc, b: Proc) {
    && a.txn.exclusive !! b.txn.exclusive
    && a.txn.exclusive !! b.txn.shared
    && (a.txn.rowLock == None || a.txn.rowLock != b.txn.rowLock)
    && UploadsApart(a.task, b.task)
  }

  predicate ProcsOk(db: Stores, procs: map<nat, Proc>) {
    forall p :: p in procs ==> ProcOk(db, procs[p])
  }

  predicate AllCompatible(procs: map<nat, Proc>) {
    forall p, q :: p in procs && q in procs && p != q ==> Compatible(procs[p], procs[q])
  }

  ghost predicate Inv(s: State) {
    RowsOk(s.db) && StoresOk(s.db) && ProcsOk(s.db, s.procs) && AllCompatible(s.procs)
  }

  // ---------- steps ----------

  /** The query over all rows asks no more than the cell the key was made for. */
  lemma ReferencedIsLive(db: Stores, k: Key)
    requires RowsOk(db)
    ensures Referenced(db.rows, k) <==> Live(db.rows, k)
  {
    if Referenced(db.rows, k) {
      var at :| at in db.rows && exists c :: c in db.rows[at] && HoldsKey(db.rows[at], c, k);
      var c :| c in db.rows[at] && HoldsKey(db.rows[at], c, k);
      assert CellOk(db, at, c, db.rows[at][c].descriptor);
    }
  }

  /** A process that is in order and shares no lock with the others may take its next place. */
  lemma Rejoin(s: State, p: nat, proc: Proc)
    requires Inv(s) && ProcOk(s.db, proc)
    requires forall q :: q in s.procs && q != p ==> Compatible(proc, s.procs[q]) && Compatible(s.procs[q], proc)
    ensures Inv(Become(s, p, proc))
  {
    var t := Become(s, p, proc);
    forall q | q in t.procs
      ensures ProcOk(t.db, t.procs[q])
    {
      assert q != p ==> ProcOk(s.db, s.procs[q]);
    }
  }

  lemma FinishKeepsInv(s: State, p: nat)
    requires Inv(s)
    ensures Inv(Finish(s, p))
  {
    var t := Finish(s, p);
    forall q | q in t.procs
      ensures ProcOk(t.db, t.procs[q])
    {
      assert ProcOk(s.db, s.procs[q]);
    }
  }

  // ---------- steps that change only their own process ----------

  lemma LockRowKeepsInv(s: State, p: nat)
    requires Inv(s) && CanLockRow(s, p)
    ensures Inv(DoLockRow(s, p))
  {
    assert ProcOk(s.db, s.procs[p]);
    Rejoin(s, p, DoLockRow(s, p).procs[p]);
  }

  lemma StageWriteKeepsInv(s: State, p: nat)
    requires Inv(s) && CanStageWrite(s, p)
    ensures Inv(DoStageWrite(s, p))
  {
    assert ProcOk(s.db, s.procs[p]);
    Rejoin(s, p, DoStageWrite(s, p).procs[p]);
  }

  lemma LockKeyKeepsInv(s: State, p: nat)
    requires Inv(s) && CanLockKey(s, p)
    ensures Inv(DoLockKey(s, p))
  {
    assert ProcOk(s.db, s.procs[p]);
    Rejoin(s, p, DoLockKey(s, p).procs[p]);
  }

  lemma TryLockKeepsInv(s: State, p: nat)
    requires Inv(s) && CleansIn(s, p, Scan)
    ensures Inv(DoTryLock(s, p))
  {
    var (t, txn, k) := (TaskAt(s, p), s.procs[p].txn, Job(s, p));
    assert s.procs[p] == Proc(t, txn);
    LockingIsOk(s.db, t, txn);
    if KeyFree(s, p, k) { LockingIsApart(s, p, k); }
    hide ProcOk, RowsOk, StoresOk, ProcsOk, KeyFree;
    Rejoin(s, p, DoTryLock(s, p).procs[p]);
  }

  lemma LockingIsOk(db: Stores, t: Task, txn: Txn)
    requires ProcOk(db, Proc(t, txn)) && t.Cleanup? && t.next < |t.batch| && t.phase.Scan?
    ensures ProcOk(db, Proc(InPhase(t, Locked), txn.(exclusive := txn.exclusive + {t.batch[t.next]})))
    ensures ProcOk(db, Proc(NextJob(t), txn))
  {
  }

  lemma LockingIsApart(s: State, p: nat, k: Key)
    requires AllCompatible(s.procs) && p in s.procs && TaskAt(s, p).Cleanup? && KeyFree(s, p, k)
    ensures var txn := s.procs[p].txn;
            var me := Proc(InPhase(TaskAt(s, p), Locked), txn.(exclusive := txn.exclusive + {k}));
            forall q :: q in s.procs && q != p ==> Compatible(me, s.procs[q]) && Compatible(s.procs[q], me)
  {
    forall q | q in s.procs && q != p ensures Compatible(s.procs[p], s.procs[q]) && Compatible(s.procs[q], s.procs[p]) {
    }
    hide AllCompatible;
  }

  lemma CheckKeepsInv(s: State, p: nat)
    requires Inv(s) && CleansIn(s, p, Locked)
    ensures Inv(DoCheck(s, p))
  {
    assert ProcOk(s.db, s.procs[p]);
    ReferencedIsLive(s.db, Job(s, p));
    Rejoin(s, p, DoCheck(s, p).procs[p]);
  }

  lemma ForgetKeepsInv(s: State, p: nat)
    requires Inv(s) && CleansIn(s, p, Deleted)
    ensures Inv(DoForget(s, p))
  {
    assert ProcOk(s.db, s.procs[p]);
    Rejoin(s, p, DoForget(s, p).procs[p]);
  }

  lemma SettleKeepsInv(s: State, p: nat)
    requires Inv(s) && (CleansIn(s, p, Kept) || CleansIn(s, p, Forgotten))
    ensures Inv(DoSettle(s, p))
  {
    assert ProcOk(s.db, s.procs[p]);
    Rejoin(s, p, DoSettle(s, p).procs[p]);
  }

  lemma ReadCellKeepsInv(s: State, p: nat)
    requires Inv(s) && CanReadCell(s, p)
    ensures Inv(DoReadCell(s, p))
  {
    assert ProcOk(s.db, s.procs[p]);
    Rejoin(s, p, DoReadCell(s, p).procs[p]);
  }

  lemma CheckOwnerKeepsInv(s: State, p: nat)
    requires Inv(s) && CanCheckOwner(s, p)
    ensures Inv(DoCheckOwner(s, p))
  {
    assert ProcOk(s.db, s.procs[p]);
    Rejoin(s, p, DoCheckOwner(s, p).procs[p]);
  }

  lemma LockSharedKeepsInv(s: State, p: nat)
    requires Inv(s) && CanLockShared(s, p)
    ensures Inv(DoLockShared(s, p))
  {
    assert ProcOk(s.db, s.procs[p]);
    Rejoin(s, p, DoLockShared(s, p).procs[p]);
  }

  lemma RecheckKeepsInv(s: State, p: nat)
    requires Inv(s) && CanRecheck(s, p)
    ensures Inv(DoRecheck(s, p))
  {
    assert ProcOk(s.db, s.procs[p]);
    Rejoin(s, p, DoRecheck(s, p).procs[p]);
  }

  lemma GetObjectKeepsInv(s: State, p: nat)
    requires Inv(s) && CanGetObject(s, p)
    ensures Inv(DoGetObject(s, p))
  {
    assert ProcOk(s.db, s.procs[p]);
    Rejoin(s, p, DoGetObject(s, p).procs[p]);
  }

  // ---------- steps that change a store ----------

  lemma OwnersGrow(db: Stores, owners: map<Key, Cell>, proc: Proc)
    requires ProcOk(db, proc) && db.owners.Keys <= owners.Keys
    ensures ProcOk(db.(owners := owners), proc)
  {
  }

  lemma MintedGrows(db: Stores, minted: map<Key, Publication>, proc: Proc)
    requires ProcOk(db, proc) && forall k :: k in db.minted ==> k in minted && minted[k] == db.minted[k]
    ensures ProcOk(db.(minted := minted), proc)
  {
  }

  lemma RowAdded(db: Stores, at: RowId, row: Row, proc: Proc)
    requires ProcOk(db, proc) && at !in db.rows && TouchesNoBlob(db.blobColumns, at.table, row)
    ensures ProcOk(db.(rows := db.rows[at := row]), proc)
  {
  }

  lemma ObjectStored(db: Stores, k: Key, bytes: Bytes, proc: Proc)
    requires ProcOk(db, proc) && k !in proc.txn.exclusive
    ensures ProcOk(db.(objects := db.objects[k := bytes]), proc)
  {
  }

  lemma ObjectDeleted(db: Stores, k: Key, proc: Proc)
    requires ProcOk(db, proc) && k !in proc.txn.exclusive && k !in proc.txn.shared
    ensures ProcOk(Without(db, k), proc)
  {
  }

  lemma RegisterKeepsInv(s: State, p: nat)
    requires Inv(s) && CanRegister(s, p)
    ensures Inv(DoRegister(s, p))
  {
    var t := DoRegister(s, p);
    forall q | q in t.procs
      ensures ProcOk(t.db, t.procs[q])
    {
      assert ProcOk(s.db, s.procs[q]);
      OwnersGrow(s.db, t.db.owners, s.procs[q]);
    }
  }

  /** Only the holder of a key's exclusive lock writes its object. */
  lemma PutObjectKeepsInv(s: State, p: nat)
    requires Inv(s) && CanPutObject(s, p)
    ensures Inv(DoPutObject(s, p))
  {
    var t := DoPutObject(s, p);
    var task := TaskAt(s, p);
    assert ProcOk(s.db, s.procs[p]);
    forall q | q in t.procs
      ensures ProcOk(t.db, t.procs[q])
    {
      if q != p {
        assert ProcOk(s.db, s.procs[q]) && Compatible(s.procs[p], s.procs[q]);
        ObjectStored(s.db, task.pending, task.bytes, s.procs[q]);
      }
    }
  }

  lemma CopyObjectKeepsInv(s: State, p: nat)
    requires Inv(s) && CanCopyObject(s, p)
    ensures Inv(DoCopyObject(s, p))
  {
    var t := DoCopyObject(s, p);
    var task := TaskAt(s, p);
    assert ProcOk(s.db, s.procs[p]);
    forall q | q in t.procs
      ensures ProcOk(t.db, t.procs[q])
    {
      if q != p {
        assert ProcOk(s.db, s.procs[q]) && Compatible(s.procs[p], s.procs[q]);
        ObjectStored(s.db, task.descriptor.key, task.bytes, s.procs[q]);
      }
    }
  }

  /** Only the holder of a key's exclusive lock deletes its object. */
  lemma StoresWithout(db: Stores, k: Key)
    requires RowsOk(db) && StoresOk(db) && !Live(db.rows, k)
    ensures RowsOk(Without(db, k)) && StoresOk(Without(db, k))
  {
  }

  lemma LosingObjectKeepsInv(s: State, p: nat, after: Task)
    requires Inv(s) && CleansIn(s, p, Condemned)
    requires after == InPhase(TaskAt(s, p), Deleted) || after == NextJob(TaskAt(s, p))
    ensures Inv(Advance(s, p, after).(db := Without(s.db, Job(s, p))))
  {
    hide RowsOk, StoresOk;
    var t := Advance(s, p, after).(db := Without(s.db, Job(s, p)));
    assert ProcOk(s.db, s.procs[p]);
    StoresWithout(s.db, Job(s, p));
    forall q | q in t.procs
      ensures ProcOk(t.db, t.procs[q])
    {
      if q != p {
        assert ProcOk(s.db, s.procs[q]) && Compatible(s.procs[p], s.procs[q]);
        ObjectDeleted(s.db, Job(s, p), s.procs[q]);
      }
    }
  }

  lemma DeleteFailsKeepsInv(s: State, p: nat, lost: bool)
    requires Inv(s) && CleansIn(s, p, Condemned)
    ensures Inv(DoDeleteFails(s, p, lost))
  {
    if lost {
      LosingObjectKeepsInv(s, p, NextJob(TaskAt(s, p)));
    } else {
      assert ProcOk(s.db, s.procs[p]);
      Rejoin(s, p, DoDeleteFails(s, p, lost).procs[p]);
    }
  }

  lemma CreateRowKeepsInv(s: State, at: RowId, data: Row)
    requires Inv(s) && CanCreateRow(s, at, data)
    ensures Inv(DoCreateRow(s, at, data))
  {
    forall q | q in s.procs
      ensures ProcOk(DoCreateRow(s, at, data).db, s.procs[q])
    {
      RowAdded(s.db, at, data, s.procs[q]);
    }
  }

  lemma StoresMinted(db: Stores, task: Task)
    requires RowsOk(db) && StoresOk(db) && Initial(db, task)
    ensures var grown := db.(minted := Minted(db, task)); RowsOk(grown) && StoresOk(grown)
  {
  }

  lemma NewcomerApart(db: Stores, task: Task, proc: Proc)
    requires ProcOk(db, proc) && Initial(db, task)
    ensures Compatible(Proc(task, NEW_TXN), proc) && Compatible(proc, Proc(task, NEW_TXN))
  {
  }

  lemma BeginKeepsInv(s: State, p: nat, task: Task)
    requires Inv(s) && CanBegin(s, p, task)
    ensures Inv(DoBegin(s, p, task))
  {
    hide ProcOk, Compatible, RowsOk, StoresOk, Initial, Minted;
    StoresMinted(s.db, task);
    BeginIsOk(s, p, task);
    var t := DoBegin(s, p, task);
    forall q | q in s.procs
      ensures ProcOk(t.db, s.procs[q])
      ensures Compatible(t.procs[p], s.procs[q]) && Compatible(s.procs[q], t.procs[p])
    {
      BeginMints(s, p, task, s.procs[q]);
      NewcomerApart(s.db, task, s.procs[q]);
    }
  }

  lemma BeginMints(s: State, p: nat, task: Task, proc: Proc)
    requires ProcOk(s.db, proc) && CanBegin(s, p, task)
    ensures ProcOk(DoBegin(s, p, task).db, proc)
  {
    hide ProcOk;
    MintedGrows(s.db, DoBegin(s, p, task).db.minted, proc);
  }

  lemma BeginIsOk(s: State, p: nat, task: Task)
    requires Inv(s) && CanBegin(s, p, task)
    ensures ProcOk(DoBegin(s, p, task).db, DoBegin(s, p, task).procs[p])
  {
  }

  // ---------- commits ----------

  /** The only key a commit can bring into the rows is the one an upload publishes. */
  lemma CommitPublishes(s: State, p: nat, k: Key)
    requires Inv(s) && CanCommit(s, p) && Live(DoCommit(s, p).db.rows, k)
    ensures Live(s.db.rows, k) || (TaskAt(s, p).Upload? && k == TaskAt(s, p).descriptor.key)
  {
    assert ProcOk(s.db, s.procs[p]);
    ImagePublishes(s.db, s.procs[p], k);
  }

  lemma ImagePublishes(db: Stores, me: Proc, k: Key)
    requires ProcOk(db, me) && ReadyToCommit(me.task) && Live(Applied(db.rows, me.txn.write), k)
    ensures Live(db.rows, k) || (me.task.Upload? && k == me.task.descriptor.key)
  {
  }

  lemma UploadCommitKeepsRows(s: State, p: nat)
    requires Inv(s) && CanCommit(s, p) && TaskAt(s, p).Upload?
    ensures RowsOk(DoCommit(s, p).db)
  {
    assert ProcOk(s.db, s.procs[p]);
  }

  /** A row image whose blob cells are all the row's own. */
  lemma RowKept(db: Stores, rows: Rows, at: RowId)
    requires RowsOk(db) && at in rows && at in db.rows && rows == db.rows[at := rows[at]]
    requires forall c :: c in rows[at] && rows[at][c].Blob? ==> c in db.rows[at] && rows[at][c] == db.rows[at][c]
    ensures RowsOk(db.(rows := rows))
  {
  }

  lemma OwnersKept(db: Stores, owners: map<Key, Cell>)
    requires RowsOk(db)
    requires forall k :: k in db.owners && Live(db.rows, k) ==> k in owners
    ensures RowsOk(db.(owners := owners))
  {
    var t := db.(owners := owners);
    forall at, c | at in t.rows && c in t.rows[at] && t.rows[at][c].Blob?
      ensures CellOk(t, at, c, t.rows[at][c].descriptor)
    {
      assert CellOk(db, at, c, db.rows[at][c].descriptor);
    }
  }

  lemma WriterCommitKeepsRows(s: State, p: nat)
    requires Inv(s) && CanCommit(s, p) && (TaskAt(s, p).Clear? || TaskAt(s, p).Edit?)
    ensures RowsOk(DoCommit(s, p).db)
  {
    assert ProcOk(s.db, s.procs[p]);
    var txn := s.procs[p].txn;
    var rows := Applied(s.db.rows, txn.write);
    assert Remaining(s.db.owners, txn) == s.db.owners;
    RowKept(s.db, rows, RowOf(TaskAt(s, p)));
  }

  lemma DropCommitKeepsRows(s: State, p: nat)
    requires Inv(s) && CanCommit(s, p) && TaskAt(s, p).Drop?
    ensures RowsOk(DoCommit(s, p).db)
  {
    assert ProcOk(s.db, s.procs[p]);
  }

  lemma CleanupCommitKeepsRows(s: State, p: nat)
    requires Inv(s) && CanCommit(s, p) && TaskAt(s, p).Cleanup?
    ensures RowsOk(DoCommit(s, p).db)
  {
    assert ProcOk(s.db, s.procs[p]);
    OwnersKept(s.db, Remaining(s.db.owners, s.procs[p].txn));
  }

  lemma CommitKeepsRows(s: State, p: nat)
    requires Inv(s) && CanCommit(s, p)
    ensures RowsOk(DoCommit(s, p).db)
  {
    hide Inv, RowsOk, DoCommit;
    match TaskAt(s, p)
    case Upload(_, _, _, _) => UploadCommitKeepsRows(s, p);
    case Clear(_, _) => WriterCommitKeepsRows(s, p);
    case Edit(_, _, _, _) => WriterCommitKeepsRows(s, p);
    case Drop(_, _) => DropCommitKeepsRows(s, p);
    case Cleanup(_, _, _) => CleanupCommitKeepsRows(s, p);
    case Download(_, _, _) =>
  }

  /** A process that does not lock the row and none of the keys is not affected by a change to it. */
  lemma RowChanged(db: Stores, rows: Rows, owners: map<Key, Cell>, at: RowId, published: set<Key>, proc: Proc)
    requires ProcOk(db, proc) && proc.txn.rowLock != Some(at)
    requires forall r :: r != at ==> (r in rows <==> r in db.rows) && (r in rows ==> rows[r] == db.rows[r])
    requires forall k :: Live(rows, k) ==> Live(db.rows, k) || k in published
    requires published !! proc.txn.exclusive && (proc.task.Upload? ==> proc.task.descriptor.key !in published)
    requires proc.task.Upload? && proc.task.step >= KEY_REGISTERED ==> proc.task.descriptor.key in owners
    ensures ProcOk(db.(rows := rows, owners := owners), proc)
  {
  }

  /** A commit changes another process's world only where that process holds no lock. */
  lemma CommitKeepsOther(s: State, p: nat, q: nat)
    requires Inv(s) && CanCommit(s, p) && q in s.procs && q != p
    ensures ProcOk(DoCommit(s, p).db, s.procs[q])
  {
    var task := TaskAt(s, p);
    assert ProcOk(s.db, s.procs[p]) && ProcOk(s.db, s.procs[q]);
    assert Compatible(s.procs[p], s.procs[q]) && Compatible(s.procs[q], s.procs[p]);
    if Writer(task) {
      WriterCommitKeepsOther(s, p, q);
    } else {
      CleanupCommitKeepsOther(s, p, q);
    }
  }

  lemma WriterCommitKeepsOther(s: State, p: nat, q: nat)
    requires Inv(s) && CanCommit(s, p) && Writer(TaskAt(s, p)) && q in s.procs && q != p
    requires ProcOk(s.db, s.procs[q]) && Compatible(s.procs[p], s.procs[q]) && Compatible(s.procs[q], s.procs[p])
    ensures ProcOk(DoCommit(s, p).db, s.procs[q])
  {
    var (db, me, task) := (DoCommit(s, p).db, s.procs[p], TaskAt(s, p));
    var published := if task.Upload? then {task.descriptor.key} else {};
    forall k | Live(db.rows, k) ensures Live(s.db.rows, k) || k in published { CommitPublishes(s, p, k); }
    CommittedRow(s.db, me);
    OwnerStays(s.db, me, s.procs[q]);
    hide ProcOk, Inv, Live, Applied, Remaining;
    RowChanged(s.db, db.rows, db.owners, RowOf(task), published, s.procs[q]);
  }

  lemma CommittedRow(db: Stores, me: Proc)
    requires ProcOk(db, me) && Writer(me.task) && ReadyToCommit(me.task)
    ensures me.txn.rowLock == Some(RowOf(me.task))
    ensures me.task.Upload? ==> me.task.descriptor.key in me.txn.exclusive
    ensures var rows := Applied(db.rows, me.txn.write);
            forall r :: r != RowOf(me.task) ==> (r in rows <==> r in db.rows) && (r in rows ==> rows[r] == db.rows[r])
  {
  }

  lemma OwnerStays(db: Stores, me: Proc, other: Proc)
    requires ProcOk(db, me) && Writer(me.task) && ReadyToCommit(me.task) && ProcOk(db, other) && Compatible(me, other)
    requires StoresOk(db)
    ensures other.task.Upload? && other.task.step >= KEY_REGISTERED ==>
              other.task.descriptor.key in Remaining(db.owners, me.txn)
  {
  }

  lemma CleanupCommitKeepsOther(s: State, p: nat, q: nat)
    requires Inv(s) && CanCommit(s, p) && TaskAt(s, p).Cleanup? && q in s.procs && q != p
    ensures ProcOk(DoCommit(s, p).db, s.procs[q])
  {
    assert ProcOk(s.db, s.procs[p]) && ProcOk(s.db, s.procs[q]);
    assert Compatible(s.procs[p], s.procs[q]) && Compatible(s.procs[q], s.procs[p]);
  }

  lemma CommitKeepsInv(s: State, p: nat)
    requires Inv(s) && CanCommit(s, p)
    ensures Inv(DoCommit(s, p))
  {
    CommitKeepsRows(s, p);
    var t := DoCommit(s, p);
    forall q | q in t.procs
      ensures ProcOk(t.db, t.procs[q])
    {
      CommitKeepsOther(s, p, q);
    }
  }

  lemma StepKeepsInv(s: State, a: Action)
    requires Inv(s) && Enabled(s, a)
    ensures Inv(Next(s, a))
  {
    hide Inv, CanCreateRow, CanBegin, CanCommit, CanLockRow, CanStageWrite, CanLockKey, CanRegister;
    hide CanPutObject, CanCopyObject, CanReadCell, CanCheckOwner, CanLockShared, CanRecheck, CanGetObject;
    match a
    case CreateRow(at, data) => CreateRowKeepsInv(s, at, data);
    case Begin(p, task) => BeginKeepsInv(s, p, task);
    case Claim(p, batch) => Rejoin(s, p, DoClaim(s, p, batch).procs[p]);
    case Commit(p) => CommitKeepsInv(s, p);
    case Rollback(p) => FinishKeepsInv(s, p);
    case LockRow(p) => LockRowKeepsInv(s, p);
    case StageWrite(p) => StageWriteKeepsInv(s, p);
    case LockKey(p) => LockKeyKeepsInv(s, p);
    case Register(p) => RegisterKeepsInv(s, p);
    case PutObject(p) => PutObjectKeepsInv(s, p);
    case CopyObject(p) => CopyObjectKeepsInv(s, p);
    case TryLock(p) => TryLockKeepsInv(s, p);
    case Check(p) => CheckKeepsInv(s, p);
    case DeleteObject(p) => LosingObjectKeepsInv(s, p, InPhase(TaskAt(s, p), Deleted));
    case DeleteFails(p, lost) => DeleteFailsKeepsInv(s, p, lost);
    case Forget(p) => ForgetKeepsInv(s, p);
    case Settle(p) => SettleKeepsInv(s, p);
    case ReadCell(p) => ReadCellKeepsInv(s, p);
    case CheckOwner(p) => CheckOwnerKeepsInv(s, p);
    case LockShared(p) => LockSharedKeepsInv(s, p);
    case Recheck(p) => RecheckKeepsInv(s, p);
    case GetObject(p) => GetObjectKeepsInv(s, p);
  }

  lemma {:induction false} RunKeepsInv(s: State, acts: seq<Action>)
    requires Inv(s) && Run(s, acts)
    ensures Inv(After(s, acts))
    decreases |acts|
  {
    if acts != [] {
      StepKeepsInv(s, acts[0]);
      RunKeepsInv(Next(s, acts[0]), acts[1..]);
    }
  }

  // ---------- what every run guarantees ----------

  /** Every committed blob cell names a stored object: the bytes its upload published. */
  lemma CommittedBlobIsStored(s: State, acts: seq<Action>, cell: Cell)
    requires Init(s) && Run(s, acts) && HasBlob(After(s, acts).db.rows, cell)
    ensures var db := After(s, acts).db;
            var d := CellValue(db.rows, cell).value.descriptor;
            && d.key in db.objects && d.key in db.minted
            && db.minted[d.key] == Publication(d, db.objects[d.key])
            && OwnedByCell(db.owners, d.key, cell)
  {
    RunKeepsInv(s, acts);
    var db := After(s, acts).db;
    assert CellOk(db, cell.at, cell.column, CellValue(db.rows, cell).value.descriptor);
  }

  /** Nobody else touches a process. */
  lemma StepLeavesOthers(s: State, a: Action, p: nat)
    requires Enabled(s, a) && !ActsFor(a, p)
    ensures p in s.procs ==> p in Next(s, a).procs && Next(s, a).procs[p] == s.procs[p]
    ensures p !in s.procs ==> p !in Next(s, a).procs
  {
    hide Enabled, Next;
    StepFrame(s, a);
  }

  /** History is never rewritten, and the schema is fixed. */
  lemma StepKeepsHistory(s: State, a: Action)
    requires Enabled(s, a)
    ensures forall k :: k in s.db.minted ==> k in Next(s, a).db.minted && Next(s, a).db.minted[k] == s.db.minted[k]
    ensures Next(s, a).db.blobColumns == s.db.blobColumns
  {
    hide Enabled, Next;
    StepFrame(s, a);
    if a.Begin? { BeginKeepsHistory(s, a); }
  }

  lemma BeginKeepsHistory(s: State, a: Action)
    requires Enabled(s, a) && a.Begin?
    ensures forall k :: k in s.db.minted ==> k in Next(s, a).db.minted && Next(s, a).db.minted[k] == s.db.minted[k]
  {
  }

  predicate Holding(s: State, p: nat, d: Descriptor) {
    && Downloads(s, p)
    && (TaskAt(s, p).stage.Valid? || TaskAt(s, p).stage.Got?)
    && TaskAt(s, p).stage.descriptor == d
  }

  /**
    A download that left its retry loop keeps its object, with the published bytes, through any
    later actions of the other processes, until its own transaction ends.
   */
  lemma {:induction false} ValidatedObjectStays(s: State, acts: seq<Action>, p: nat, d: Descriptor)
    requires Inv(s) && Run(s, acts) && Holding(s, p, d) && Rollback(p) !in acts
    ensures var t := After(s, acts);
            && Holding(t, p, d)
            && d.key in t.db.objects && d.key in t.db.minted && d.key in s.db.minted
            && t.db.minted[d.key] == Publication(d, t.db.objects[d.key]) == s.db.minted[d.key]
            && (TaskAt(t, p).stage.Got? ==> TaskAt(t, p).stage.bytes == t.db.objects[d.key])
    decreases |acts|
  {
    assert ProcOk(s.db, s.procs[p]);
    if acts != [] {
      var t := Next(s, acts[0]);
      StepKeepsInv(s, acts[0]);
      if !ActsFor(acts[0], p) {
        StepLeavesOthers(s, acts[0], p);
        StepKeepsHistory(s, acts[0]);
      }
      ValidatedObjectStays(t, acts[1..], p, d);
    }
  }

  /** What a commit may put in a blob cell. */
  predicate Published(db: Stores, t: Task, cell: Cell, after: Option<Value>) {
    match t
    case Upload(d, _, bytes, _) =>
      cell == d.key.cell && after == Some(Blob(d)) && d.key in db.objects && db.objects[d.key] == bytes
    case Clear(c, _) => cell == c && after == Some(Cleared)
    case Drop(at, _) => cell.at == at && after == None
    case _ => false
  }

  lemma CommitShowsOldOrNew(s: State, p: nat, cell: Cell)
    requires Inv(s) && CanCommit(s, p) && IsBlobColumn(s.db.blobColumns, cell.at.table, cell.column)
    ensures var after := CellValue(DoCommit(s, p).db.rows, cell);
            after == CellValue(s.db.rows, cell) || Published(s.db, TaskAt(s, p), cell, after)
  {
    assert ProcOk(s.db, s.procs[p]);
    ImageShows(s.db, s.procs[p], cell);
  }

  lemma ImageShows(db: Stores, me: Proc, cell: Cell)
    requires ProcOk(db, me) && ReadyToCommit(me.task) && IsBlobColumn(db.blobColumns, cell.at.table, cell.column)
    requires StoresOk(db)
    ensures var after := CellValue(Applied(db.rows, me.txn.write), cell);
            after == CellValue(db.rows, cell) || Published(db, me.task, cell, after)
  {
  }

  /**
    One step shows a reader the cell as it was, or exactly what one commit was for: the whole new
    descriptor with its object stored, the cleared cell, or no row. An edit of the row's other
    columns, by patch or put, never shows in a blob cell.
   */
  lemma StepShowsOldOrNew(s: State, a: Action, cell: Cell)
    requires Inv(s) && Enabled(s, a) && IsBlobColumn(s.db.blobColumns, cell.at.table, cell.column)
    ensures var before := CellValue(s.db.rows, cell);
            var after := CellValue(Next(s, a).db.rows, cell);
            after == before || (a.Commit? && Published(s.db, TaskAt(s, a.p), cell, after))
  {
    if a.Commit? {
      CommitShowsOldOrNew(s, a.p, cell);
    } else {
      StepKeepsCells(s, a, cell);
    }
  }

  lemma StepKeepsCells(s: State, a: Action, cell: Cell)
    requires Enabled(s, a) && !a.Commit? && IsBlobColumn(s.db.blobColumns, cell.at.table, cell.column)
    ensures CellValue(Next(s, a).db.rows, cell) == CellValue(s.db.rows, cell)
  {
    if !a.CreateRow? {
      StepKeepsRows(s, a);
    }
  }

  lemma StepKeepsRows(s: State, a: Action)
    requires Enabled(s, a) && !a.Commit? && !a.CreateRow?
    ensures Next(s, a).db.rows == s.db.rows
  {
    hide Enabled, Next;
    StepFrame(s, a);
  }
}
