/**
  Does every stored object stay reachable for the cleanup worker? The answer depends on what the
  retire trigger's insert does with a record that is already queued: see `State.holdRecords`.
 */
module BlobLeak {
  import opened Basics
  import opened BlobProtocol
  import opened BlobSafety

  /** Every stored object is referenced by a committed cell or has a queue record. */
  predicate NoLeak(s: State) {
    forall k :: k in s.db.objects ==> Live(s.db.rows, k) || k in s.queue
  }

  predicate Leaked(s: State, k: Key) {
    k in s.db.objects && !Live(s.db.rows, k) && k !in s.queue
  }

  /** The keys a staged write takes out of the rows. */
  predicate Drops(db: Stores, t: Task, k: Key) {
    && Writer(t) && RowOf(t) in db.rows && k.cell.at == RowOf(t)
    && Live(db.rows, k)
    && !HoldsKey(Image(WriteOf(db.blobColumns, db.rows, t)), k.cell.column, k)
  }

  /** The trigger's join with the ownership table finds exactly the dropped keys. */
  lemma RetiredIsDropped(db: Stores, t: Task, k: Key)
    requires RowsOk(db) && StoresOk(db) && Writer(t) && RowOf(t) in db.rows
    ensures k in RetiredBy(db, t) <==> Drops(db, t, k)
  {
    var row := db.rows[RowOf(t)];
    if k in RetiredBy(db, t) {
      var c :| c in row && row[c].Blob? && row[c].descriptor.key == k && db.owners[k] == Cell(RowOf(t), c)
               && !HoldsKey(Image(WriteOf(db.blobColumns, db.rows, t)), c, k);
      assert CellOk(db, RowOf(t), c, row[c].descriptor);
    }
    if Drops(db, t, k) {
      assert CellOk(db, RowOf(t), k.cell.column, row[k.cell.column].descriptor);
    }
  }

  // ---------- what the queue records stand for ----------

  predicate UploadRecords(db: Stores, queue: set<Key>, t: Task)
    requires t.Upload?
  {
    && (t.step >= PENDING_REGISTERED ==> t.pending in queue)
    && (t.step >= KEY_REGISTERED ==> t.descriptor.key in queue)
    && (t.step < UPLOADED ==> t.pending !in db.objects)
    && (t.step < PROMOTED ==> t.descriptor.key !in db.objects)
  }

  ghost predicate WriterRecords(hold: bool, db: Stores, t: Task, txn: Txn)
    requires Writer(t)
  {
    && (forall k :: k in txn.queued ==> k.cell.at == RowOf(t) && Live(db.rows, k))
    && (if hold && txn.write != NoWrite
        then forall k :: Drops(db, t, k) ==> k in txn.queued && k in txn.held
        else txn.held == {})
  }

  predicate CleanupRecords(hold: bool, db: Stores, queue: set<Key>, t: Task, txn: Txn)
    requires t.Cleanup?
  {
    && (forall k :: k in t.batch ==> k in queue && k in txn.held)
    && txn.settled <= txn.held && txn.exclusive <= txn.held
    && (forall k :: k in txn.held ==> k in t.batch)
    && (hold ==> forall k :: k in txn.settled ==> k !in db.objects || Live(db.rows, k))
    && (hold && t.phase.Kept? && t.next < |t.batch| ==> Live(db.rows, t.batch[t.next]))
  }

  ghost predicate RecordsOf(hold: bool, db: Stores, queue: set<Key>, proc: Proc) {
    match proc.task
    case Cleanup(_, _, _) => CleanupRecords(hold, db, queue, proc.task, proc.txn)
    case Download(_, _, _) => proc.txn.held == {}
    case Upload(_, _, _, _) => UploadRecords(db, queue, proc.task) && WriterRecords(hold, db, proc.task, proc.txn)
    case _ => WriterRecords(hold, db, proc.task, proc.txn)
  }

  ghost predicate AllRecords(s: State) {
    forall p :: p in s.procs ==> RecordsOf(s.holdRecords, s.db, s.queue, s.procs[p])
  }

  predicate HeldApart(procs: map<nat, Proc>) {
    forall p, q :: p in procs && q in procs && p != q ==> procs[p].txn.held !! procs[q].txn.held
  }

  ghost predicate Records(s: State) {
    AllRecords(s) && HeldApart(s.procs)
  }

  // ---------- steps ----------

  /** What the others may change without disturbing a process's records. */
  ghost predicate Undisturbed(hold: bool, db: Stores, queue: set<Key>, db': Stores, queue': set<Key>, proc: Proc) {
    && db'.blobColumns == db.blobColumns
    && (forall at :: proc.txn.rowLock == Some(at) ==>
          (at in db'.rows <==> at in db.rows) && (at in db.rows ==> db'.rows[at] == db.rows[at]))
    && (hold ==> forall k :: Live(db.rows, k) && !Live(db'.rows, k) ==> k !in proc.txn.held)
    && (forall k :: k in db'.objects && k !in db.objects ==>
          k !in proc.txn.exclusive && (proc.task.Upload? ==> k != proc.task.pending && k != proc.task.descriptor.key))
    && (forall k :: k in queue && k !in queue' ==> k !in proc.txn.exclusive && k !in proc.txn.held)
  }

  lemma RecordsFrame(hold: bool, db: Stores, queue: set<Key>, db': Stores, queue': set<Key>, proc: Proc)
    requires ProcOk(db, proc) && RecordsOf(hold, db, queue, proc)
    requires Undisturbed(hold, db, queue, db', queue', proc)
    ensures RecordsOf(hold, db', queue', proc)
  {
  }

  lemma RecordsRejoin(s: State, p: nat, proc: Proc)
    requires Records(s) && RecordsOf(s.holdRecords, s.db, s.queue, proc)
    requires forall q :: q in s.procs && q != p ==> proc.txn.held !! s.procs[q].txn.held
    ensures Records(Become(s, p, proc))
  {
  }

  lemma LockRowKeepsRecords(s: State, p: nat)
    requires Inv(s) && Records(s) && CanLockRow(s, p)
    ensures Records(DoLockRow(s, p))
  {
    assert ProcOk(s.db, s.procs[p]) && RecordsOf(s.holdRecords, s.db, s.queue, s.procs[p]);
    RecordsRejoin(s, p, DoLockRow(s, p).procs[p]);
  }

  lemma StagedRecords(hold: bool, db: Stores, queue: set<Key>, t: Task, txn: Txn)
    requires RowsOk(db) && StoresOk(db) && Writer(t) && RowOf(t) in db.rows
    requires ReadyToWrite(db.blobColumns, db.rows, t) && txn.write == NoWrite
    requires RecordsOf(hold, db, queue, Proc(t, txn))
    ensures RecordsOf(hold, db, queue,
                      Proc(AtStep(t, if t.Upload? then STAGED else WRITTEN), StagedTxn(hold, db, queue, t, txn)))
  {
    var staged := AtStep(t, if t.Upload? then STAGED else WRITTEN);
    forall k
      ensures k in RetiredBy(db, t) <==> Drops(db, t, k)
      ensures Drops(db, t, k) <==> Drops(db, staged, k)
    {
      RetiredIsDropped(db, t, k);
    }
  }

  lemma StageWriteKeepsRecords(s: State, p: nat)
    requires Inv(s) && Records(s) && CanStageWrite(s, p)
    ensures Records(DoStageWrite(s, p))
  {
    var proc := s.procs[p];
    assert ProcOk(s.db, proc) && RecordsOf(s.holdRecords, s.db, s.queue, proc);
    StagedRecords(s.holdRecords, s.db, s.queue, proc.task, proc.txn);
    RecordsRejoin(s, p, DoStageWrite(s, p).procs[p]);
  }

  lemma LockKeyKeepsRecords(s: State, p: nat)
    requires Inv(s) && Records(s) && CanLockKey(s, p)
    ensures Records(DoLockKey(s, p))
  {
    assert ProcOk(s.db, s.procs[p]) && RecordsOf(s.holdRecords, s.db, s.queue, s.procs[p]);
    RecordsRejoin(s, p, DoLockKey(s, p).procs[p]);
  }

  lemma ClaimKeepsRecords(s: State, p: nat, batch: seq<Key>)
    requires Inv(s) && Records(s) && CanClaim(s, p, batch)
    ensures Records(DoClaim(s, p, batch))
  {
    var proc := DoClaim(s, p, batch).procs[p];
    forall q | q in s.procs && q != p
      ensures proc.txn.held !! s.procs[q].txn.held
    {
      assert forall k :: k in batch ==> RecordUnlocked(s, k);
    }
    RecordsRejoin(s, p, proc);
  }

  lemma TryLockKeepsRecords(s: State, p: nat)
    requires Inv(s) && Records(s) && CleansIn(s, p, Scan)
    ensures Records(DoTryLock(s, p))
  {
    var (t, txn) := (TaskAt(s, p), s.procs[p].txn);
    assert s.procs[p] == Proc(t, txn) && RecordsOf(s.holdRecords, s.db, s.queue, s.procs[p]);
    LockingRecords(s.holdRecords, s.db, s.queue, t, txn);
    hide RecordsOf, Inv;
    RecordsRejoin(s, p, DoTryLock(s, p).procs[p]);
  }

  lemma LockingRecords(hold: bool, db: Stores, queue: set<Key>, t: Task, txn: Txn)
    requires RecordsOf(hold, db, queue, Proc(t, txn)) && t.Cleanup? && t.next < |t.batch|
    ensures RecordsOf(hold, db, queue,
                      Proc(InPhase(t, Locked), txn.(exclusive := txn.exclusive + {t.batch[t.next]})))
    ensures RecordsOf(hold, db, queue, Proc(NextJob(t), txn))
  {
  }

  lemma CheckKeepsRecords(s: State, p: nat)
    requires Inv(s) && Records(s) && CleansIn(s, p, Locked)
    ensures Records(DoCheck(s, p))
  {
    assert RecordsOf(s.holdRecords, s.db, s.queue, s.procs[p]);
    ReferencedIsLive(s.db, Job(s, p));
    RecordsRejoin(s, p, DoCheck(s, p).procs[p]);
  }

  lemma ForgetKeepsRecords(s: State, p: nat)
    requires Inv(s) && Records(s) && CleansIn(s, p, Deleted)
    ensures Records(DoForget(s, p))
  {
    assert RecordsOf(s.holdRecords, s.db, s.queue, s.procs[p]);
    RecordsRejoin(s, p, DoForget(s, p).procs[p]);
  }

  lemma SettleKeepsRecords(s: State, p: nat)
    requires Inv(s) && Records(s) && (CleansIn(s, p, Kept) || CleansIn(s, p, Forgotten))
    ensures Records(DoSettle(s, p))
  {
    assert ProcOk(s.db, s.procs[p]) && RecordsOf(s.holdRecords, s.db, s.queue, s.procs[p]);
    RecordsRejoin(s, p, DoSettle(s, p).procs[p]);
  }

  /** A download holds no queue record. */
  lemma DownloadKeepsRecords(s: State, p: nat, proc: Proc)
    requires Inv(s) && Records(s) && Downloads(s, p) && proc.task.Download? && proc.txn.held == s.procs[p].txn.held
    ensures Records(Become(s, p, proc))
  {
    assert RecordsOf(s.holdRecords, s.db, s.queue, s.procs[p]);
    RecordsRejoin(s, p, proc);
  }

  // ---------- steps that change a store or the queue ----------

  /** The others' records survive what one process does to the stores. */
  lemma RecordsShared(s: State, t: State, p: nat)
    requires ProcsOk(s.db, s.procs) && Records(s) && t.holdRecords == s.holdRecords
    requires forall q :: q in t.procs && q != p ==> q in s.procs && t.procs[q] == s.procs[q]
    requires forall q :: q in s.procs && q != p ==> Undisturbed(s.holdRecords, s.db, s.queue, t.db, t.queue, s.procs[q])
    requires p in t.procs ==> RecordsOf(t.holdRecords, t.db, t.queue, t.procs[p])
    requires p in t.procs ==> p in s.procs && t.procs[p].txn.held == s.procs[p].txn.held
    ensures Records(t)
  {
    forall q | q in t.procs && q != p
      ensures RecordsOf(t.holdRecords, t.db, t.queue, t.procs[q])
    {
      RecordsFrame(s.holdRecords, s.db, s.queue, t.db, t.queue, s.procs[q]);
    }
  }

  lemma StoringUndisturbed(hold: bool, db: Stores, queue: set<Key>, k: Key, bytes: Bytes, me: Proc, other: Proc)
    requires Compatible(me, other) && k in me.txn.exclusive && me.task.Upload?
    requires k == me.task.pending || k == me.task.descriptor.key
    requires ProcOk(db, me) && ProcOk(db, other)
    ensures Undisturbed(hold, db, queue, db.(objects := db.objects[k := bytes]), queue, other)
  {
  }

  lemma RegisteringUndisturbed(hold: bool, db: Stores, queue: set<Key>, owners: map<Key, Cell>, k: Key, other: Proc)
    ensures Undisturbed(hold, db, queue, db.(owners := owners), queue + {k}, other)
  {
  }

  lemma CreatingUndisturbed(hold: bool, db: Stores, queue: set<Key>, at: RowId, row: Row, other: Proc)
    requires at !in db.rows && ProcOk(db, other)
    ensures Undisturbed(hold, db, queue, db.(rows := db.rows[at := row]), queue, other)
  {
  }

  lemma RegisterKeepsRecords(s: State, p: nat)
    requires Inv(s) && Records(s) && CanRegister(s, p)
    ensures Records(DoRegister(s, p))
  {
    assert RecordsOf(s.holdRecords, s.db, s.queue, s.procs[p]) && ProcOk(s.db, s.procs[p]);
    forall q | q in s.procs && q != p
      ensures Undisturbed(s.holdRecords, s.db, s.queue, DoRegister(s, p).db, DoRegister(s, p).queue, s.procs[q])
    {
      RegisteringUndisturbed(s.holdRecords, s.db, s.queue, DoRegister(s, p).db.owners, CurrentKey(TaskAt(s, p)),
          s.procs[q]);
    }
    RecordsShared(s, DoRegister(s, p), p);
  }

  /** The upload's own records, when it stores its object. */
  lemma StoredRecords(hold: bool, db: Stores, queue: set<Key>, t: Task, txn: Txn, k: Key, bytes: Bytes)
    requires t.Upload? && ProcOk(db, Proc(t, txn)) && RecordsOf(hold, db, queue, Proc(t, txn))
    requires (t.step == STAGED && k == t.pending) || (t.step == UPLOADED && k == t.descriptor.key)
    ensures RecordsOf(hold, db.(objects := db.objects[k := bytes]), queue, Proc(AtStep(t, t.step + 1), txn))
  {
    hide RowsOk, StoresOk;
  }

  lemma StoringHolds(s: State, p: nat, k: Key)
    requires Inv(s) && Uploads(s, p)
    requires var t := TaskAt(s, p);
             (t.step == STAGED && k == t.pending) || (t.step == UPLOADED && k == t.descriptor.key)
    ensures ProcOk(s.db, s.procs[p]) && k in s.procs[p].txn.exclusive
  {
    assert ProcOk(s.db, s.procs[p]);
  }

  lemma StoringKeepsRecords(s: State, p: nat, k: Key, bytes: Bytes)
    requires Inv(s) && Records(s) && Uploads(s, p)
    requires var t := TaskAt(s, p);
             (t.step == STAGED && k == t.pending) || (t.step == UPLOADED && k == t.descriptor.key)
    ensures var next := Advance(s, p, AtStep(TaskAt(s, p), TaskAt(s, p).step + 1));
            Records(next.(db := s.db.(objects := s.db.objects[k := bytes])))
  {
    hide RowsOk, StoresOk, RecordsOf, Undisturbed, ProcOk, Compatible, HeldApart;
    var db := s.db.(objects := s.db.objects[k := bytes]);
    var me := s.procs[p];
    StoringHolds(s, p, k);
    StoredRecords(s.holdRecords, s.db, s.queue, me.task, me.txn, k, bytes);
    forall q | q in s.procs && q != p
      ensures Undisturbed(s.holdRecords, s.db, s.queue, db, s.queue, s.procs[q])
    {
      StoringUndisturbed(s.holdRecords, s.db, s.queue, k, bytes, me, s.procs[q]);
    }
    RecordsShared(s, Advance(s, p, AtStep(me.task, me.task.step + 1)).(db := db), p);
  }

  lemma PutObjectKeepsRecords(s: State, p: nat)
    requires Inv(s) && Records(s) && CanPutObject(s, p)
    ensures Records(DoPutObject(s, p))
  {
    hide Inv, Records;
    StoringKeepsRecords(s, p, TaskAt(s, p).pending, TaskAt(s, p).bytes);
  }

  lemma CopyObjectKeepsRecords(s: State, p: nat)
    requires Inv(s) && Records(s) && CanCopyObject(s, p)
    ensures Records(DoCopyObject(s, p))
  {
    hide Inv, Records;
    StoringKeepsRecords(s, p, TaskAt(s, p).descriptor.key, s.db.objects[TaskAt(s, p).pending]);
  }

  lemma RecordsWithout(hold: bool, db: Stores, queue: set<Key>, k: Key, proc: Proc)
    requires RecordsOf(hold, db, queue, proc)
    ensures RecordsOf(hold, Without(db, k), queue, proc)
  {
  }

  lemma LosingObjectKeepsRecords(s: State, p: nat, after: Task)
    requires Inv(s) && Records(s) && CleansIn(s, p, Condemned)
    requires after == InPhase(TaskAt(s, p), Deleted) || after == NextJob(TaskAt(s, p))
    ensures Records(Advance(s, p, after).(db := Without(s.db, Job(s, p))))
    ensures Records(Advance(s, p, after))
  {
    hide Inv, WriterRecords, UploadRecords;
    assert RecordsOf(s.holdRecords, s.db, s.queue, s.procs[p]);
    var t := Advance(s, p, after);
    RecordsRejoin(s, p, t.procs[p]);
    forall q | q in t.procs
      ensures RecordsOf(s.holdRecords, Without(s.db, Job(s, p)), s.queue, t.procs[q])
    {
      RecordsWithout(s.holdRecords, s.db, s.queue, Job(s, p), t.procs[q]);
    }
  }

  lemma CreateRowKeepsRecords(s: State, at: RowId, data: Row)
    requires Inv(s) && Records(s) && CanCreateRow(s, at, data)
    ensures Records(DoCreateRow(s, at, data))
  {
    var t := DoCreateRow(s, at, data);
    forall q | q in s.procs
      ensures RecordsOf(t.holdRecords, t.db, t.queue, t.procs[q])
    {
      CreatingUndisturbed(s.holdRecords, s.db, s.queue, at, data, s.procs[q]);
      RecordsFrame(s.holdRecords, s.db, s.queue, t.db, t.queue, s.procs[q]);
    }
  }

  lemma BeginKeepsRecords(s: State, p: nat, task: Task)
    requires Inv(s) && Records(s) && CanBegin(s, p, task)
    ensures Records(DoBegin(s, p, task))
  {
    var t := DoBegin(s, p, task);
    forall q | q in s.procs
      ensures RecordsOf(t.holdRecords, t.db, t.queue, t.procs[q])
    {
      RecordsFrame(s.holdRecords, s.db, s.queue, t.db, t.queue, s.procs[q]);
    }
  }

  lemma CommitKeepsRecords(s: State, p: nat)
    requires Inv(s) && Records(s) && CanCommit(s, p)
    ensures Records(DoCommit(s, p))
  {
    var t := DoCommit(s, p);
    assert RecordsOf(s.holdRecords, s.db, s.queue, s.procs[p]) && ProcOk(s.db, s.procs[p]);
    forall q | q in s.procs && q != p
      ensures Undisturbed(s.holdRecords, s.db, s.queue, t.db, t.queue, s.procs[q])
    {
      assert ProcOk(s.db, s.procs[q]) && Compatible(s.procs[p], s.procs[q]);
      if Writer(TaskAt(s, p)) {
        WriterCommitUndisturbed(s.holdRecords, s.db, s.queue, s.procs[p], s.procs[q]);
      } else {
        CleanupCommitUndisturbed(s.holdRecords, s.db, s.queue, s.procs[p], s.procs[q]);
      }
    }
    RecordsShared(s, t, p);
  }

  /** A cleanup commit takes from the queue only what it holds and has locked. */
  lemma CleanupCommitUndisturbed(hold: bool, db: Stores, queue: set<Key>, me: Proc, other: Proc)
    requires ProcOk(db, me) && RecordsOf(hold, db, queue, me) && me.task.Cleanup?
    requires Compatible(me, other) && me.txn.held !! other.txn.held
    ensures Undisturbed(hold, db, queue, CommittedStores(db, me.txn), CommittedQueue(queue, me.txn), other)
  {
  }

  /** What a writer's commit takes out of the rows, it had dropped. */
  lemma CommitDrops(db: Stores, me: Proc, k: Key)
    requires ProcOk(db, me) && Writer(me.task) && ReadyToCommit(me.task)
    requires Live(db.rows, k) && !Live(CommittedStores(db, me.txn).rows, k)
    ensures Drops(db, me.task, k)
  {
  }

  lemma WriterCommitUndisturbed(hold: bool, db: Stores, queue: set<Key>, me: Proc, other: Proc)
    requires ProcOk(db, me) && RecordsOf(hold, db, queue, me) && Writer(me.task) && ReadyToCommit(me.task)
    requires Compatible(me, other) && me.txn.held !! other.txn.held
    ensures Undisturbed(hold, db, queue, CommittedStores(db, me.txn), CommittedQueue(queue, me.txn), other)
  {
    var rows := CommittedStores(db, me.txn).rows;
    forall k | Live(db.rows, k) && !Live(rows, k)
      ensures Drops(db, me.task, k)
    {
      CommitDrops(db, me, k);
    }
  }

  lemma StepKeepsRecords(s: State, a: Action)
    requires Inv(s) && Records(s) && Enabled(s, a)
    ensures Records(Next(s, a))
  {
    hide Inv, Records, CanCreateRow, CanBegin, CanCommit, CanLockRow, CanStageWrite, CanLockKey, CanRegister;
    hide CanPutObject, CanCopyObject, CanReadCell, CanCheckOwner, CanLockShared, CanRecheck, CanGetObject;
    match a
    case CreateRow(at, data) => CreateRowKeepsRecords(s, at, data);
    case Begin(p, task) => BeginKeepsRecords(s, p, task);
    case Claim(p, batch) => ClaimKeepsRecords(s, p, batch);
    case Commit(p) => CommitKeepsRecords(s, p);
    case Rollback(p) => FinishKeepsRecords(s, p);
    case LockRow(p) => LockRowKeepsRecords(s, p);
    case StageWrite(p) => StageWriteKeepsRecords(s, p);
    case LockKey(p) => LockKeyKeepsRecords(s, p);
    case Register(p) => RegisterKeepsRecords(s, p);
    case PutObject(p) => PutObjectKeepsRecords(s, p);
    case CopyObject(p) => CopyObjectKeepsRecords(s, p);
    case TryLock(p) => TryLockKeepsRecords(s, p);
    case Check(p) => CheckKeepsRecords(s, p);
    case DeleteObject(p) => LosingObjectKeepsRecords(s, p, InPhase(TaskAt(s, p), Deleted));
    case DeleteFails(p, _) => LosingObjectKeepsRecords(s, p, NextJob(TaskAt(s, p)));
    case Forget(p) => ForgetKeepsRecords(s, p);
    case Settle(p) => SettleKeepsRecords(s, p);
    case ReadCell(_) => ReaderKeepsRecords(s, a);
    case CheckOwner(_) => ReaderKeepsRecords(s, a);
    case LockShared(_) => ReaderKeepsRecords(s, a);
    case Recheck(_) => ReaderKeepsRecords(s, a);
    case GetObject(_) => ReaderKeepsRecords(s, a);
  }

  lemma FinishKeepsRecords(s: State, p: nat)
    requires Records(s)
    ensures Records(Finish(s, p))
  {
  }

  lemma ReaderKeepsRecords(s: State, a: Action)
    requires Inv(s) && Records(s) && Enabled(s, a) && ByReader(a)
    ensures Records(Next(s, a))
  {
    hide Inv, Records, NotExclusive, CellValue;
    match a
    case ReadCell(p) => DownloadKeepsRecords(s, p, DoReadCell(s, p).procs[p]);
    case CheckOwner(p) => DownloadKeepsRecords(s, p, DoCheckOwner(s, p).procs[p]);
    case LockShared(p) => DownloadKeepsRecords(s, p, DoLockShared(s, p).procs[p]);
    case Recheck(p) => DownloadKeepsRecords(s, p, DoRecheck(s, p).procs[p]);
    case GetObject(p) => DownloadKeepsRecords(s, p, DoGetObject(s, p).procs[p]);
  }

  // ---------- exactly when an object is leaked ----------

  /**
    A writer's commit is safe when each key it drops has a record: its own, or one still in the
    queue. A cleanup commit is safe when each stored object whose record it removes is still
    referenced.
   */
  ghost predicate SafeCommit(s: State, p: nat)
    requires p in s.procs
  {
    var me := s.procs[p];
    if Writer(me.task) then forall k :: Drops(s.db, me.task, k) ==> k in me.txn.queued || k in s.queue
    else forall k :: k in me.txn.settled && k in s.db.objects ==> Live(s.db.rows, k)
  }

  lemma CommitLeaksIff(s: State, p: nat)
    requires Inv(s) && NoLeak(s) && CanCommit(s, p)
    ensures NoLeak(DoCommit(s, p)) <==> SafeCommit(s, p)
  {
    var me := s.procs[p];
    var t := DoCommit(s, p);
    assert ProcOk(s.db, me);
    if Writer(me.task) {
      forall k | k in s.db.objects && Live(s.db.rows, k) && !Live(t.db.rows, k)
        ensures Drops(s.db, me.task, k)
      {
        CommitDrops(s.db, me, k);
      }
      forall k | Drops(s.db, me.task, k)
        ensures k in t.db.objects && !Live(t.db.rows, k)
      {
        assert CellOk(s.db, k.cell.at, k.cell.column, s.db.rows[k.cell.at][k.cell.column].descriptor);
        DroppedIsGone(s.db, me, k);
      }
    }
  }

  lemma DroppedIsGone(db: Stores, me: Proc, k: Key)
    requires ProcOk(db, me) && Writer(me.task) && ReadyToCommit(me.task) && Drops(db, me.task, k)
    ensures !Live(CommittedStores(db, me.txn).rows, k)
  {
  }

  lemma StoringKeepsNoLeak(s: State, a: Action)
    requires Inv(s) && Records(s) && NoLeak(s) && Enabled(s, a) && (a.PutObject? || a.CopyObject?)
    ensures NoLeak(Next(s, a))
  {
    assert ProcOk(s.db, s.procs[a.p]) && RecordsOf(s.holdRecords, s.db, s.queue, s.procs[a.p]);
  }

  lemma OtherStepKeepsNoLeak(s: State, a: Action)
    requires NoLeak(s) && Enabled(s, a) && !a.Commit? && !a.PutObject? && !a.CopyObject?
    ensures NoLeak(Next(s, a))
  {
    hide Enabled, Next;
    StepFrame(s, a);
    if a.CreateRow? {
      forall k | Live(s.db.rows, k) ensures Live(Next(s, a).db.rows, k) { CreatedKeepsLive(s, a, k); }
    } else if a.Register? {
      RegistersOne(s, a);
    } else if a.DeleteObject? || a.DeleteFails? {
      DeletesOne(s, a);
    }
  }

  lemma CreatedKeepsLive(s: State, a: Action, k: Key)
    requires Enabled(s, a) && a.CreateRow?
    ensures Live(Next(s, a).db.rows, k) <==> Live(s.db.rows, k)
  {
  }

  lemma RegistersOne(s: State, a: Action)
    requires Enabled(s, a) && a.Register?
    ensures Uploads(s, a.p) && Next(s, a).queue == s.queue + {CurrentKey(TaskAt(s, a.p))}
  {
  }

  lemma DeletesOne(s: State, a: Action)
    requires Enabled(s, a) && (a.DeleteObject? || a.DeleteFails?)
    ensures CleansIn(s, a.p, Condemned)
    ensures Next(s, a).db.objects == s.db.objects || Next(s, a).db.objects == s.db.objects - {Job(s, a.p)}
  {
  }

  lemma AddsOne(s: State, a: Action)
    requires Enabled(s, a) && (a.PutObject? || a.CopyObject?)
    ensures s.db.objects.Keys <= Next(s, a).db.objects.Keys
  {
  }

  lemma StepLeaksIff(s: State, a: Action)
    requires Inv(s) && Records(s) && NoLeak(s) && Enabled(s, a)
    ensures NoLeak(Next(s, a)) <==> (a.Commit? ==> SafeCommit(s, a.p))
  {
    hide Enabled, Next;
    if a.Commit? {
      CommitEnabled(s, a);
      CommitLeaksIff(s, a.p);
    } else if a.PutObject? || a.CopyObject? {
      StoringKeepsNoLeak(s, a);
    } else {
      OtherStepKeepsNoLeak(s, a);
    }
  }

  // ---------- a leak is for ever ----------

  lemma CommitKeepsLeak(s: State, p: nat, k: Key)
    requires Inv(s) && Records(s) && Leaked(s, k) && CanCommit(s, p)
    ensures Leaked(DoCommit(s, p), k)
  {
    assert ProcOk(s.db, s.procs[p]) && RecordsOf(s.holdRecords, s.db, s.queue, s.procs[p]);
    if Live(DoCommit(s, p).db.rows, k) {
      CommitPublishes(s, p, k);
    }
  }

  lemma StepKeepsLeak(s: State, a: Action, k: Key)
    requires Inv(s) && Records(s) && Leaked(s, k) && Enabled(s, a)
    ensures Leaked(Next(s, a), k)
  {
    hide Enabled, Next;
    StepFrame(s, a);
    if a.Commit? {
      CommitEnabled(s, a);
      CommitKeepsLeak(s, a.p, k);
    } else if a.CreateRow? {
      CreatedKeepsLive(s, a, k);
    } else if a.Register? {
      RegistersStored(s, a, k);
    } else if a.PutObject? || a.CopyObject? {
      AddsOne(s, a);
    } else if a.DeleteObject? || a.DeleteFails? {
      DeletesOne(s, a);
      assert RecordsOf(s.holdRecords, s.db, s.queue, s.procs[a.p]);
    }
  }

  lemma CommitEnabled(s: State, a: Action)
    requires Enabled(s, a) && a.Commit?
    ensures CanCommit(s, a.p) && Next(s, a) == DoCommit(s, a.p)
  {
  }

  /** A registration is of a key that has no object yet. */
  lemma RegistersStored(s: State, a: Action, k: Key)
    requires Records(s) && Enabled(s, a) && a.Register? && k in s.db.objects && k !in s.queue
    ensures k !in Next(s, a).queue
  {
    assert RecordsOf(s.holdRecords, s.db, s.queue, s.procs[a.p]);
    hide WriterRecords, HeldApart;
  }

  // ---------- whole runs ----------

  ghost predicate EveryCommitSafe(s: State, acts: seq<Action>)
    requires Run(s, acts)
    decreases |acts|
  {
    acts != [] ==> (acts[0].Commit? ==> SafeCommit(s, acts[0].p)) && EveryCommitSafe(Next(s, acts[0]), acts[1..])
  }

  lemma {:induction false} LeakStays(s: State, acts: seq<Action>, k: Key)
    requires Inv(s) && Records(s) && Leaked(s, k) && Run(s, acts)
    ensures Leaked(After(s, acts), k)
    decreases |acts|
  {
    if acts != [] {
      StepKeepsInv(s, acts[0]);
      StepKeepsRecords(s, acts[0]);
      StepKeepsLeak(s, acts[0], k);
      LeakStays(Next(s, acts[0]), acts[1..], k);
    }
  }

  lemma {:induction false} RunLeaksIffFrom(s: State, acts: seq<Action>)
    requires Inv(s) && Records(s) && NoLeak(s) && Run(s, acts)
    ensures NoLeak(After(s, acts)) <==> EveryCommitSafe(s, acts)
    decreases |acts|
  {
    if acts != [] {
      var t := Next(s, acts[0]);
      StepKeepsInv(s, acts[0]);
      StepKeepsRecords(s, acts[0]);
      StepLeaksIff(s, acts[0]);
      if NoLeak(t) {
        RunLeaksIffFrom(t, acts[1..]);
      } else {
        var k :| k in t.db.objects && !Live(t.db.rows, k) && k !in t.queue;
        LeakStays(t, acts[1..], k);
      }
    }
  }

  /** A run ends without a leaked object exactly when every commit in it was safe. */
  lemma RunLeaksIff(s: State, acts: seq<Action>)
    requires Init(s) && Run(s, acts)
    ensures NoLeak(After(s, acts)) <==> EveryCommitSafe(s, acts)
  {
    RunLeaksIffFrom(s, acts);
  }

  // ---------- an insert that holds the record ----------

  lemma HoldingCommitIsSafe(s: State, p: nat)
    requires Inv(s) && Records(s) && s.holdRecords && CanCommit(s, p)
    ensures SafeCommit(s, p)
  {
    assert ProcOk(s.db, s.procs[p]) && RecordsOf(s.holdRecords, s.db, s.queue, s.procs[p]);
  }

  lemma {:induction false} HoldingCommitsAreSafe(s: State, acts: seq<Action>)
    requires Inv(s) && Records(s) && s.holdRecords && Run(s, acts)
    ensures EveryCommitSafe(s, acts)
    decreases |acts|
  {
    if acts != [] {
      StepKeepsInv(s, acts[0]);
      StepKeepsRecords(s, acts[0]);
      if acts[0].Commit? {
        HoldingCommitIsSafe(s, acts[0].p);
      }
      HoldingCommitsAreSafe(Next(s, acts[0]), acts[1..]);
    }
  }

  /** With an insert that waits for the record and holds it, no run leaks an object. */
  lemma HoldingNeverLeaks(s: State, acts: seq<Action>)
    requires Init(s) && s.holdRecords && Run(s, acts)
    ensures NoLeak(After(s, acts))
  {
    HoldingCommitsAreSafe(s, acts);
    RunLeaksIff(s, acts);
  }

  // ---------- ON CONFLICT DO NOTHING leaks ----------

  function Worker(s: State, w: nat, k: Key, next: nat, phase: CleanupPhase, locked: bool, settled: bool): State {
    var txn := NEW_TXN.(held := {k}, exclusive := if locked then {k} else {}, settled := if settled then {k} else {});
    Become(s, w, Proc(Cleanup([k], next, phase), txn))
  }

  lemma BecomeTwice(s: State, p: nat, a: Proc, b: Proc)
    ensures Become(Become(s, p, a), p, b) == Become(s, p, b)
  {
    assert s.procs[p := a][p := b] == s.procs[p := b];
  }

  lemma CleanupLocks(s: State, w: nat, k: Key)
    requires Live(s.db.rows, k) && k in s.queue && w !in s.procs
    requires RecordUnlocked(s, k) && KeyFree(s, w, k)
    ensures CanClaim(s, w, [k]) && DoClaim(s, w, [k]) == Worker(s, w, k, 0, Scan, false, false)
    ensures var s1 := Worker(s, w, k, 0, Scan, false, false);
            CleansIn(s1, w, Scan) && DoTryLock(s1, w) == Worker(s, w, k, 0, Locked, true, false)
  {
    var s1 := Worker(s, w, k, 0, Scan, false, false);
    assert (set x | x in [k]) == {k};
    assert KeyFree(s1, w, k);
    BecomeTwice(s, w, s1.procs[w], Worker(s, w, k, 0, Locked, true, false).procs[w]);
    assert {} + {k} == {k};
  }

  lemma CleanupSettles(s: State, w: nat, k: Key)
    requires Live(s.db.rows, k) && w !in s.procs
    ensures var s2 := Worker(s, w, k, 0, Locked, true, false);
            CleansIn(s2, w, Locked) && DoCheck(s2, w) == Worker(s, w, k, 0, Kept, true, false)
    ensures var s3 := Worker(s, w, k, 0, Kept, true, false);
            CleansIn(s3, w, Kept) && DoSettle(s3, w) == Worker(s, w, k, 1, Scan, true, true)
    ensures var s4 := Worker(s, w, k, 1, Scan, true, true);
            CanCommit(s4, w) && DoCommit(s4, w) == s.(queue := s.queue - {k})
  {
    assert HoldsKey(s.db.rows[k.cell.at], k.cell.column, k);
    var s2 := Worker(s, w, k, 0, Locked, true, false);
    var s3 := Worker(s, w, k, 0, Kept, true, false);
    var s4 := Worker(s, w, k, 1, Scan, true, true);
    BecomeTwice(s, w, s2.procs[w], s3.procs[w]);
    BecomeTwice(s, w, s3.procs[w], s4.procs[w]);
    assert {} + {k} == {k};
    assert DoCommit(s4, w).db.owners == s.db.owners;
    assert DoCommit(s4, w).procs == s.procs;
  }

  lemma CleanupFinishes(s: State, w: nat, k: Key)
    requires Live(s.db.rows, k) && w !in s.procs
    ensures var s2 := Worker(s, w, k, 0, Locked, true, false);
            var acts := [Check(w), Settle(w), Commit(w)];
            Run(s2, acts) && After(s2, acts) == s.(queue := s.queue - {k})
  {
    CleanupSettles(s, w, k);
    RunCons(Worker(s, w, k, 1, Scan, true, true), Commit(w), []);
    RunCons(Worker(s, w, k, 0, Kept, true, false), Settle(w), [Commit(w)]);
    RunCons(Worker(s, w, k, 0, Locked, true, false), Check(w), [Settle(w), Commit(w)]);
  }

  /** A cleanup pass over one live key removes its record and changes nothing else. */
  lemma CleanupKeepsLiveKey(s: State, w: nat, k: Key)
    requires Live(s.db.rows, k) && k in s.queue && w !in s.procs
    requires RecordUnlocked(s, k) && KeyFree(s, w, k)
    ensures var acts := [Claim(w, [k]), TryLock(w), Check(w), Settle(w), Commit(w)];
            Run(s, acts) && After(s, acts) == s.(queue := s.queue - {k})
  {
    CleanupLocks(s, w, k);
    CleanupFinishes(s, w, k);
    RunCons(Worker(s, w, k, 0, Scan, false, false), TryLock(w), [Check(w), Settle(w), Commit(w)]);
    RunCons(s, Claim(w, [k]), [TryLock(w), Check(w), Settle(w), Commit(w)]);
  }

  /** The published key, its record still queued, with nobody at work on its row. */
  ghost predicate Racy(s: State, k: Key) {
    && Live(s.db.rows, k) && k in s.queue && RecordUnlocked(s, k)
    && forall q :: q in s.procs ==>
         && s.procs[q].txn.rowLock != Some(k.cell.at)
         && k !in s.procs[q].txn.exclusive && k !in s.procs[q].txn.shared
  }

  function Clearing(s: State, p: nat, k: Key, step: nat): State
    requires k.cell.at in s.db.rows
  {
    var txn := if step == BEGUN then NEW_TXN
               else if step == ROW_LOCKED then NEW_TXN.(rowLock := Some(k.cell.at))
               else NEW_TXN.(rowLock := Some(k.cell.at),
                             write := PutRow(k.cell.at, s.db.rows[k.cell.at][k.cell.column := Cleared]));
    Become(s, p, Proc(Clear(k.cell, step), txn))
  }

  lemma ClearLocks(s: State, p: nat, k: Key)
    requires Inv(s) && Racy(s, k) && p !in s.procs
    ensures CanBegin(s, p, Clear(k.cell, BEGUN))
    ensures DoBegin(s, p, Clear(k.cell, BEGUN)) == Clearing(s, p, k, BEGUN)
    ensures CanLockRow(Clearing(s, p, k, BEGUN), p)
    ensures DoLockRow(Clearing(s, p, k, BEGUN), p) == Clearing(s, p, k, ROW_LOCKED)
  {
    assert CellOk(s.db, k.cell.at, k.cell.column, s.db.rows[k.cell.at][k.cell.column].descriptor);
    BecomeTwice(s, p, Clearing(s, p, k, BEGUN).procs[p], Clearing(s, p, k, ROW_LOCKED).procs[p]);
  }

  /** The queued record of a racy key is nobody's: no open transaction has inserted or deleted it. */
  lemma RacyUntouched(s: State, k: Key)
    requires Inv(s) && Records(s) && !s.holdRecords && Racy(s, k)
    ensures forall q :: q in s.procs ==> k !in s.procs[q].txn.settled && k !in s.procs[q].txn.queued
  {
    forall q | q in s.procs
      ensures k !in s.procs[q].txn.settled && k !in s.procs[q].txn.queued
    {
      assert ProcOk(s.db, s.procs[q]) && RecordsOf(s.holdRecords, s.db, s.queue, s.procs[q]);
    }
  }

  /** Deleting the cell stages no record of its own, because one is queued already. */
  lemma ClearStages(s: State, p: nat, k: Key)
    requires Inv(s) && Records(s) && !s.holdRecords && Racy(s, k) && p !in s.procs
    ensures CanStageWrite(Clearing(s, p, k, ROW_LOCKED), p)
    ensures DoStageWrite(Clearing(s, p, k, ROW_LOCKED), p) == Clearing(s, p, k, WRITTEN)
  {
    hide Records, RowsOk, StoresOk, ProcsOk, AllCompatible, Retired;
    var t := Clear(k.cell, ROW_LOCKED);
    forall x
      ensures x in RetiredBy(s.db, t) ==> x == k
    {
      RetiredIsDropped(s.db, t, x);
    }
    RacyUntouched(s, k);
    assert RetiredBy(s.db, t) - s.queue == {};
    BecomeTwice(s, p, Clearing(s, p, k, ROW_LOCKED).procs[p], Clearing(s, p, k, WRITTEN).procs[p]);
  }

  lemma ClearCommits(s: State, p: nat, k: Key)
    requires Inv(s) && Live(s.db.rows, k)
    ensures var staged := Clearing(s, p, k, WRITTEN).(queue := s.queue - {k});
            CanCommit(staged, p) && Leaked(DoCommit(staged, p), k)
  {
    assert CellOk(s.db, k.cell.at, k.cell.column, s.db.rows[k.cell.at][k.cell.column].descriptor);
  }

  function RaceActions(p: nat, w: nat, k: Key): seq<Action> {
    [Begin(p, Clear(k.cell, BEGUN)), LockRow(p), StageWrite(p)]
    + [Claim(w, [k]), TryLock(w), Check(w), Settle(w), Commit(w)]
    + [Commit(p)]
  }

  /**
    Under ON CONFLICT DO NOTHING, a cleanup pass between a delete's statement and its commit
    leaks the object, from every state that still has the record of the published key queued.
   */
  lemma RaceLeaks(s: State, p: nat, w: nat, k: Key)
    requires Inv(s) && Records(s) && !s.holdRecords && Racy(s, k)
    requires p !in s.procs && w !in s.procs && p != w
    ensures Run(s, RaceActions(p, w, k)) && Leaked(After(s, RaceActions(p, w, k)), k)
  {
    var clear := [Begin(p, Clear(k.cell, BEGUN)), LockRow(p), StageWrite(p)];
    var clean := [Claim(w, [k]), TryLock(w), Check(w), Settle(w), Commit(w)];
    ClearRun(s, p, k);
    var staged := Clearing(s, p, k, WRITTEN);
    CleanupKeepsLiveKey(staged, w, k);
    RunConcat(s, clear, clean);
    ClearCommits(s, p, k);
    var cleaned := staged.(queue := s.queue - {k});
    assert Run(DoCommit(cleaned, p), []);
    RunCons(cleaned, Commit(p), []);
    RunConcat(s, clear + clean, [Commit(p)]);
  }

  lemma ClearRun(s: State, p: nat, k: Key)
    requires Inv(s) && Records(s) && !s.holdRecords && Racy(s, k) && p !in s.procs
    ensures var clear := [Begin(p, Clear(k.cell, BEGUN)), LockRow(p), StageWrite(p)];
            Run(s, clear) && After(s, clear) == Clearing(s, p, k, WRITTEN)
  {
    ClearLocks(s, p, k);
    ClearStages(s, p, k);
    RunCons(Clearing(s, p, k, ROW_LOCKED), StageWrite(p), []);
    RunCons(Clearing(s, p, k, BEGUN), LockRow(p), [StageWrite(p)]);
    RunCons(s, Begin(p, Clear(k.cell, BEGUN)), [LockRow(p), StageWrite(p)]);
  }

  // ---------- such a run exists ----------

  function UploadAction(p: nat, step: nat): Action {
    if step == BEGUN then LockRow(p)
    else if step == ROW_LOCKED || step == PENDING_REGISTERED then LockKey(p)
    else if step == PENDING_LOCKED || step == KEY_LOCKED then Register(p)
    else if step == KEY_REGISTERED then StageWrite(p)
    else if step == STAGED then PutObject(p)
    else if step == UPLOADED then CopyObject(p)
    else Commit(p)
  }

  function UploadActions(p: nat, step: nat): seq<Action>
    requires step <= PROMOTED
    decreases PROMOTED - step
  {
    if step == PROMOTED then [Commit(p)] else [UploadAction(p, step)] + UploadActions(p, step + 1)
  }

  /** An upload with no other process around. */
  ghost predicate Solo(s: State, p: nat, t: Task) {
    && Inv(s) && Records(s) && s.procs.Keys == {p} && TaskAt(s, p) == t
    && t.Upload? && t.step <= PROMOTED && RowOf(t) in s.db.rows
  }

  lemma SoloEnabled(s: State, p: nat, t: Task)
    requires Solo(s, p, t) && t.step < PROMOTED
    ensures Enabled(s, UploadAction(p, t.step))
  {
    assert ProcOk(s.db, s.procs[p]);
    hide Inv, Records, RowsOk, StoresOk, Retired;
  }

  lemma SoloMoves(s: State, p: nat, t: Task)
    requires s.procs.Keys == {p} && TaskAt(s, p) == t && t.Upload? && t.step < PROMOTED
    requires Enabled(s, UploadAction(p, t.step))
    ensures var next := Next(s, UploadAction(p, t.step));
            && next.procs.Keys == {p} && TaskAt(next, p) == AtStep(t, t.step + 1)
            && next.db.rows == s.db.rows && next.holdRecords == s.holdRecords
  {
    hide RowFree, KeyFree, MayQueue, Retired, RetiredBy, Image, WriteOf;
  }

  lemma SoloStep(s: State, p: nat, t: Task)
    requires Solo(s, p, t) && t.step < PROMOTED
    ensures Enabled(s, UploadAction(p, t.step))
    ensures Solo(Next(s, UploadAction(p, t.step)), p, AtStep(t, t.step + 1))
    ensures Next(s, UploadAction(p, t.step)).holdRecords == s.holdRecords
  {
    hide Inv, Records, Enabled, Next, UploadAction;
    var a := UploadAction(p, t.step);
    SoloEnabled(s, p, t);
    SoloMoves(s, p, t);
    StepKeepsInv(s, a);
    StepKeepsRecords(s, a);
  }

  /** The upload is over, and its key is as `RaceLeaks` wants it. */
  ghost predicate Landed(s: State, k: Key) {
    s.procs == map[] && Racy(s, k) && Inv(s) && Records(s)
  }

  lemma SoloCommit(s: State, p: nat, t: Task)
    requires Solo(s, p, t) && t.step == PROMOTED
    ensures CanCommit(s, p)
    ensures Landed(DoCommit(s, p), t.descriptor.key)
  {
    assert ProcOk(s.db, s.procs[p]) && RecordsOf(s.holdRecords, s.db, s.queue, s.procs[p]);
    CommitKeepsInv(s, p);
    CommitKeepsRecords(s, p);
  }

  /** The rest of the upload runs, and lands its key. */
  ghost predicate Lands(s: State, acts: seq<Action>, k: Key) {
    Run(s, acts) && After(s, acts).holdRecords == s.holdRecords && Landed(After(s, acts), k)
  }

  lemma SoloEnds(s: State, p: nat, t: Task)
    requires Solo(s, p, t) && t.step == PROMOTED
    ensures Lands(s, [Commit(p)], t.descriptor.key)
  {
    SoloCommit(s, p, t);
    assert Next(s, Commit(p)) == DoCommit(s, p);
    RunCons(s, Commit(p), []);
  }

  lemma SoloCons(s: State, a: Action, rest: seq<Action>, k: Key)
    requires Enabled(s, a) && Next(s, a).holdRecords == s.holdRecords && Lands(Next(s, a), rest, k)
    ensures Lands(s, [a] + rest, k)
  {
    RunCons(s, a, rest);
  }

  /** Left alone, an upload publishes its file; both of its records are then still queued. */
  lemma {:induction false} SoloUpload(s: State, p: nat, t: Task)
    requires Solo(s, p, t)
    ensures Lands(s, UploadActions(p, t.step), t.descriptor.key)
    decreases PROMOTED - t.step
  {
    hide Inv, Records, Enabled, Next, Run, After, Lands;
    if t.step == PROMOTED {
      SoloEnds(s, p, t);
    } else {
      SoloStep(s, p, t);
      var next := Next(s, UploadAction(p, t.step));
      SoloUpload(next, p, AtStep(t, t.step + 1));
      SoloCons(s, UploadAction(p, t.step), UploadActions(p, t.step + 1), t.descriptor.key);
    }
  }

  /** From the empty database: create a row, upload a file, delete it while a worker passes by. */
  function LeakingRun(t: Task): seq<Action>
    requires t.Upload?
  {
    [CreateRow(RowOf(t), map[]), Begin(1, t)] + UploadActions(1, BEGUN) + RaceActions(1, 2, t.descriptor.key)
  }

  lemma DoNothingLeaks(s: State, t: Task)
    requires Init(s) && !s.holdRecords && t.Upload? && Initial(s.db, t)
    ensures Run(s, LeakingRun(t)) && Leaked(After(s, LeakingRun(t)), t.descriptor.key)
    ensures !EveryCommitSafe(s, LeakingRun(t))
  {
    hide Inv, Records, Enabled, Next, Leaked, Run, After, EveryCommitSafe, RaceActions, Landed, Racy, Opened;
    var key := t.descriptor.key;
    var s2 := Opened(s, t);
    var start := [CreateRow(RowOf(t), map[]), Begin(1, t)];
    OpenedRuns(s, t);
    OpenedIsSolo(s, t);
    SoloUpload(s2, 1, t);
    RunConcat(s, start, UploadActions(1, BEGUN));
    var landed := After(s2, UploadActions(1, BEGUN));
    LandedIs(landed, key);
    RaceLeaks(landed, 1, 2, key);
    RunConcat(s, start + UploadActions(1, BEGUN), RaceActions(1, 2, key));
    RunLeaksIff(s, LeakingRun(t));
    LeakedIsLeak(After(s, LeakingRun(t)), key);
  }

  function Opened(s: State, t: Task): State
    requires t.Upload?
  {
    DoBegin(DoCreateRow(s, RowOf(t), map[]), 1, t)
  }

  lemma OpenedRuns(s: State, t: Task)
    requires Init(s) && t.Upload? && Initial(s.db, t)
    ensures var start := [CreateRow(RowOf(t), map[]), Begin(1, t)];
            Run(s, start) && After(s, start) == Opened(s, t)
  {
    hide Fresh, Minted, Initial;
    FreshStays(s, t);
    var s1 := DoCreateRow(s, RowOf(t), map[]);
    RunCons(s1, Begin(1, t), []);
    RunCons(s, CreateRow(RowOf(t), map[]), [Begin(1, t)]);
  }

  lemma OpenedIsSolo(s: State, t: Task)
    requires Init(s) && t.Upload? && Initial(s.db, t)
    ensures Solo(Opened(s, t), 1, t) && Opened(s, t).holdRecords == s.holdRecords && t.step == BEGUN
  {
    var s1 := DoCreateRow(s, RowOf(t), map[]);
    assert CanCreateRow(s, RowOf(t), map[]) && Inv(s) && Records(s);
    hide Inv, Records, Init, Fresh, Minted;
    CreateRowKeepsInv(s, RowOf(t), map[]);
    CreateRowKeepsRecords(s, RowOf(t), map[]);
    assert CanBegin(s1, 1, t) by { FreshStays(s, t); }
    BeginKeepsInv(s1, 1, t);
    BeginKeepsRecords(s1, 1, t);
  }

  lemma FreshStays(s: State, t: Task)
    requires s.procs == map[] && Initial(s.db, t) && t.Upload?
    ensures CanBegin(DoCreateRow(s, RowOf(t), map[]), 1, t)
  {
  }

  lemma LandedIs(s: State, k: Key)
    requires Landed(s, k)
    ensures s.procs == map[] && Racy(s, k) && Inv(s) && Records(s)
  {
  }

  lemma LeakedIsLeak(s: State, k: Key)
    requires Leaked(s, k)
    ensures !NoLeak(s)
  {
  }
}
