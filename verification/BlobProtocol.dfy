/**
  The blob publication, download and garbage-collection protocol as a state machine.

  Every `await` of the request handlers and of the cleanup worker is one action, so any
  interleaving of processes is a sequence of actions. A process may be rolled back (or crash)
  before each of its actions; its transaction then leaves nothing behind but what it had already
  committed through another session, or written to the object store.
 */
module BlobProtocol {
  import opened Basics

  newtype Byte = b: int | 0 <= b < 256
  type Bytes = seq<Byte>

  datatype RowId = RowId(table: nat, row: nat)
  datatype Cell = Cell(at: RowId, column: nat)

  /** `{workspace}/{table}/rows/{row}/blobs/{column}/[.pending/]{uuid}` as a record. */
  datatype Key = Key(cell: Cell, pending: bool, uuid: nat)

  datatype Descriptor = Descriptor(key: Key, filename: string, contentType: string, size: nat)

  /** One value of `row_data`. `Cleared` is the `{}` that deleting a blob cell writes. */
  datatype Value = Blob(descriptor: Descriptor) | Cleared | Plain(text: string)
  type Row = map<nat, Value>
  type Rows = map<RowId, Row>
  type Schema = map<nat, set<nat>>  // the blob columns of each table

  /** What an upload set out to publish; kept as history so that a reader can be compared to it. */
  datatype Publication = Publication(descriptor: Descriptor, bytes: Bytes)

  datatype Write = NoWrite | PutRow(at: RowId, row: Row) | RemoveRow(at: RowId)

  /** The locks of one open transaction and the changes it has not committed yet. */
  datatype Txn = Txn(
    rowLock: Option<RowId>,
    exclusive: set<Key>,  // advisory locks
    shared: set<Key>,     // shared advisory locks
    held: set<Key>,       // locked rows of the cleanup queue
    write: Write,
    queued: set<Key>,     // inserted into the cleanup queue
    forgotten: set<Key>,  // deleted from the ownership table
    settled: set<Key>     // deleted from the cleanup queue
  )

  const NEW_TXN := Txn(None, {}, {}, {}, NoWrite, {}, {}, {})

  // The steps of an upload, in order.
  const BEGUN := 0
  const ROW_LOCKED := 1
  const PENDING_LOCKED := 2
  const PENDING_REGISTERED := 3
  const KEY_LOCKED := 4
  const KEY_REGISTERED := 5
  const STAGED := 6
  const UPLOADED := 7
  const PROMOTED := 8

  // The other writers lock the row, then stage their change.
  const WRITTEN := 2

  datatype CleanupPhase = Scan | Locked | Kept | Condemned | Deleted | Forgotten
  datatype DownloadPhase =
    | Start
    | Seen(descriptor: Descriptor)
    | Owned(descriptor: Descriptor)
    | Protected(descriptor: Descriptor)
    | Valid(descriptor: Descriptor)
    | Got(descriptor: Descriptor, bytes: Bytes)

  datatype Task =
    | Upload(descriptor: Descriptor, pending: Key, bytes: Bytes, step: nat)
    | Clear(cell: Cell, step: nat)
    | Drop(at: RowId, step: nat)
    | Edit(at: RowId, replace: bool, data: Row, step: nat)
    | Cleanup(batch: seq<Key>, next: nat, phase: CleanupPhase)
    | Download(cell: Cell, tries: nat, stage: DownloadPhase)

  datatype Proc = Proc(task: Task, txn: Txn)

  /** Committed rows, ownership records and stored objects; `minted` is history. */
  datatype Stores = Stores(
    blobColumns: Schema,
    rows: Rows,
    owners: map<Key, Cell>,
    objects: map<Key, Bytes>,
    minted: map<Key, Publication>
  )

  /**
    `holdRecords` chooses what the retire trigger's insert does when the queue already has a
    record for the key. The migrations say ON CONFLICT DO NOTHING (false): the record is left
    alone and not locked. `true` is an insert that waits for the record and keeps it locked until
    the transaction ends.
   */
  datatype State = State(
    holdRecords: bool,
    db: Stores,
    queue: set<Key>,
    procs: map<nat, Proc>
  )

  datatype Action =
    | CreateRow(at: RowId, data: Row)
    | Begin(p: nat, task: Task)
    | LockRow(p: nat)
    | LockKey(p: nat)
    | Register(p: nat)
    | StageWrite(p: nat)
    | PutObject(p: nat)
    | CopyObject(p: nat)
    | Commit(p: nat)
    | Rollback(p: nat)
    | Claim(p: nat, batch: seq<Key>)
    | TryLock(p: nat)
    | Check(p: nat)
    | DeleteObject(p: nat)
    | DeleteFails(p: nat, lost: bool)
    | Forget(p: nat)
    | Settle(p: nat)
    | ReadCell(p: nat)
    | CheckOwner(p: nat)
    | LockShared(p: nat)
    | Recheck(p: nat)
    | GetObject(p: nat)

  // ---------- reading the stores ----------

  predicate IsBlobColumn(schema: Schema, table: nat, column: nat) {
    table in schema && column in schema[table]
  }

  predicate HoldsKey(row: Row, column: nat, k: Key) {
    column in row && row[column].Blob? && row[column].descriptor.key == k
  }

  /** The worker's EXISTS query: some cell of some committed row carries the key. */
  predicate Referenced(rows: Rows, k: Key) {
    exists at :: at in rows && exists c :: c in rows[at] && HoldsKey(rows[at], c, k)
  }

  /** The same question asked only of the cell the key was made for. */
  predicate Live(rows: Rows, k: Key) {
    k.cell.at in rows && HoldsKey(rows[k.cell.at], k.cell.column, k)
  }

  function CellValue(rows: Rows, cell: Cell): Option<Value> {
    if cell.at in rows && cell.column in rows[cell.at] then Some(rows[cell.at][cell.column]) else None
  }

  /** The keys the BEFORE UPDATE OR DELETE trigger sends to the cleanup queue. */
  function Retired(db: Stores, at: RowId, updated: Row): set<Key>
    requires at in db.rows
  {
    var row := db.rows[at];
    set c | c in row && row[c].Blob? && row[c].descriptor.key in db.owners &&
            db.owners[row[c].descriptor.key] == Cell(at, c) && !HoldsKey(updated, c, row[c].descriptor.key)
          :: row[c].descriptor.key
  }

  /** `patch_row_data` merges, `put_row_data` keeps only the blob cells. */
  function Edited(schema: Schema, rows: Rows, at: RowId, replace: bool, data: Row): Row
    requires at in rows
  {
    var row := rows[at];
    if replace then (map c | c in row && IsBlobColumn(schema, at.table, c) :: row[c]) + data else row + data
  }

  predicate TouchesNoBlob(schema: Schema, table: nat, data: Row) {
    forall c :: c in data ==> data[c].Plain? && !IsBlobColumn(schema, table, c)
  }

  // ---------- tasks ----------

  predicate Writer(t: Task) { t.Upload? || t.Clear? || t.Drop? || t.Edit? }

  function RowOf(t: Task): RowId
    requires Writer(t)
  {
    match t
    case Upload(d, _, _, _) => d.key.cell.at
    case Clear(cell, _) => cell.at
    case Drop(at, _) => at
    case Edit(at, _, _, _) => at
  }

  function AtStep(t: Task, step: nat): Task
    requires Writer(t)
  {
    match t
    case Upload(d, pending, bytes, _) => Upload(d, pending, bytes, step)
    case Clear(cell, _) => Clear(cell, step)
    case Drop(at, _) => Drop(at, step)
    case Edit(at, replace, data, _) => Edit(at, replace, data, step)
  }

  /** Upload locks and registers the pending key first, then the published one. */
  function CurrentKey(t: Task): Key
    requires t.Upload?
  {
    if t.step < PENDING_REGISTERED then t.pending else t.descriptor.key
  }

  predicate ReadyToWrite(schema: Schema, rows: Rows, t: Task)
    requires Writer(t) && RowOf(t) in rows
  {
    match t
    case Upload(_, _, _, step) => step == KEY_REGISTERED
    case Clear(cell, step) => step == ROW_LOCKED && CellValue(rows, cell).Some? && CellValue(rows, cell).value.Blob?
    case Drop(_, step) => step == ROW_LOCKED
    case Edit(at, _, data, step) => step == ROW_LOCKED && TouchesNoBlob(schema, at.table, data)
  }

  /** The row image a writer stages. */
  function WriteOf(schema: Schema, rows: Rows, t: Task): Write
    requires Writer(t) && RowOf(t) in rows
  {
    match t
    case Upload(d, _, _, _) => PutRow(d.key.cell.at, rows[d.key.cell.at][d.key.cell.column := Blob(d)])
    case Clear(cell, _) => PutRow(cell.at, rows[cell.at][cell.column := Cleared])
    case Drop(at, _) => RemoveRow(at)
    case Edit(at, replace, data, _) => PutRow(at, Edited(schema, rows, at, replace, data))
  }

  function Image(w: Write): Row {
    if w.PutRow? then w.row else map[]
  }

  predicate Fresh(db: Stores, t: Task)
    requires t.Upload?
  {
    && t.descriptor.key !in db.minted && t.pending !in db.minted
    && !t.descriptor.key.pending && t.pending.pending
    && t.pending.cell == t.descriptor.key.cell
    && t.descriptor.size == |t.bytes|
    && IsBlobColumn(db.blobColumns, t.pending.cell.at.table, t.pending.cell.column)
  }

  predicate Initial(db: Stores, t: Task) {
    match t
    case Upload(_, _, _, step) => step == BEGUN && Fresh(db, t)
    case Clear(cell, step) => step == BEGUN && IsBlobColumn(db.blobColumns, cell.at.table, cell.column)
    case Drop(_, step) => step == BEGUN
    case Edit(_, _, _, step) => step == BEGUN
    case Cleanup(_, _, _) => false  // started by Claim
    case Download(cell, tries, stage) =>
      tries == 0 && stage == Start && IsBlobColumn(db.blobColumns, cell.at.table, cell.column)
  }

  predicate HasBlob(rows: Rows, cell: Cell) {
    CellValue(rows, cell).Some? && CellValue(rows, cell).value.Blob?
  }

  predicate OwnedByCell(owners: map<Key, Cell>, k: Key, cell: Cell) {
    k in owners && owners[k] == cell
  }

  function Minted(db: Stores, t: Task): map<Key, Publication> {
    if t.Upload? then
      var published := Publication(t.descriptor, t.bytes);
      db.minted[t.pending := published][t.descriptor.key := published]
    else db.minted
  }

  // ---------- locks ----------

  predicate RowFree(s: State, p: nat, at: RowId) {
    forall q :: q in s.procs && q != p ==> s.procs[q].txn.rowLock != Some(at)
  }

  predicate KeyFree(s: State, p: nat, k: Key) {
    forall q :: q in s.procs && q != p ==> k !in s.procs[q].txn.exclusive && k !in s.procs[q].txn.shared
  }

  predicate NotExclusive(s: State, p: nat, k: Key) {
    forall q :: q in s.procs && q != p ==> k !in s.procs[q].txn.exclusive
  }

  predicate RecordUnlocked(s: State, k: Key) {
    forall q :: q in s.procs ==> k !in s.procs[q].txn.held
  }

  /** The trigger's insert blocks on a record another transaction has deleted or inserted. */
  predicate MayQueue(s: State, p: nat, keys: set<Key>) {
    forall q :: q in s.procs && q != p ==>
      if s.holdRecords then keys !! s.procs[q].txn.held
      else keys !! s.procs[q].txn.settled && keys !! s.procs[q].txn.queued
  }

  // ---------- what a step leaves behind ----------

  function Become(s: State, p: nat, proc: Proc): State {
    s.(procs := s.procs[p := proc])
  }

  function TaskAt(s: State, p: nat): Task
    requires p in s.procs
  {
    s.procs[p].task
  }

  /** A task of its own, the transaction unchanged. */
  function Advance(s: State, p: nat, t: Task): State
    requires p in s.procs
  {
    Become(s, p, Proc(t, s.procs[p].txn))
  }

  function Finish(s: State, p: nat): State {
    s.(procs := s.procs - {p})
  }

  // ---------- any process ----------

  predicate CanRollback(s: State, p: nat) { p in s.procs }

  predicate CanCreateRow(s: State, at: RowId, data: Row) {
    at !in s.db.rows && TouchesNoBlob(s.db.blobColumns, at.table, data)
  }

  function DoCreateRow(s: State, at: RowId, data: Row): State {
    s.(db := s.db.(rows := s.db.rows[at := data]))
  }

  predicate CanBegin(s: State, p: nat, task: Task) {
    p !in s.procs && Initial(s.db, task)
  }

  function DoBegin(s: State, p: nat, task: Task): State {
    Become(s, p, Proc(task, NEW_TXN)).(db := s.db.(minted := Minted(s.db, task)))
  }

  predicate ReadyToCommit(t: Task) {
    match t
    case Upload(_, _, _, step) => step == PROMOTED
    case Clear(_, step) => step == WRITTEN
    case Drop(_, step) => step == WRITTEN
    case Edit(_, _, _, step) => step == WRITTEN
    case Cleanup(batch, next, phase) => phase == Scan && next == |batch|
    case Download(_, _, _) => false  // a download only reads; it ends by Rollback
  }

  predicate CanCommit(s: State, p: nat) {
    p in s.procs && ReadyToCommit(TaskAt(s, p))
  }

  function Applied(rows: Rows, w: Write): Rows {
    match w
    case NoWrite => rows
    case PutRow(at, row) => rows[at := row]
    case RemoveRow(at) => rows - {at}
  }

  /** Deleting a row cascades to the ownership records of its cells. */
  function Remaining(owners: map<Key, Cell>, txn: Txn): map<Key, Cell> {
    map k | k in owners && k !in txn.forgotten && !(txn.write.RemoveRow? && owners[k].at == txn.write.at) :: owners[k]
  }

  function CommittedStores(db: Stores, txn: Txn): Stores {
    db.(rows := Applied(db.rows, txn.write), owners := Remaining(db.owners, txn))
  }

  function CommittedQueue(queue: set<Key>, txn: Txn): set<Key> {
    queue - txn.settled + txn.queued
  }

  function DoCommit(s: State, p: nat): State
    requires p in s.procs
  {
    State(s.holdRecords, CommittedStores(s.db, s.procs[p].txn), CommittedQueue(s.queue, s.procs[p].txn), s.procs - {p})
  }

  // ---------- writers ----------

  predicate CanLockRow(s: State, p: nat) {
    && p in s.procs && Writer(TaskAt(s, p)) && TaskAt(s, p).step == BEGUN
    && RowOf(TaskAt(s, p)) in s.db.rows && RowFree(s, p, RowOf(TaskAt(s, p)))
  }

  function DoLockRow(s: State, p: nat): State
    requires p in s.procs && Writer(TaskAt(s, p))
  {
    var t := TaskAt(s, p);
    Become(s, p, Proc(AtStep(t, ROW_LOCKED), s.procs[p].txn.(rowLock := Some(RowOf(t)))))
  }

  predicate CanStageWrite(s: State, p: nat) {
    && p in s.procs && Writer(TaskAt(s, p)) && RowOf(TaskAt(s, p)) in s.db.rows
    && ReadyToWrite(s.db.blobColumns, s.db.rows, TaskAt(s, p))
    && MayQueue(s, p, RetiredBy(s.db, TaskAt(s, p)))
  }

  function RetiredBy(db: Stores, t: Task): set<Key>
    requires Writer(t) && RowOf(t) in db.rows
  {
    Retired(db, RowOf(t), Image(WriteOf(db.blobColumns, db.rows, t)))
  }

  function StagedTxn(hold: bool, db: Stores, queue: set<Key>, t: Task, txn: Txn): Txn
    requires Writer(t) && RowOf(t) in db.rows
  {
    var retired := RetiredBy(db, t);
    txn.(write := WriteOf(db.blobColumns, db.rows, t),
         queued := if hold then retired else retired - queue,
         held := if hold then txn.held + retired else txn.held)
  }

  function DoStageWrite(s: State, p: nat): State
    requires p in s.procs && Writer(TaskAt(s, p)) && RowOf(TaskAt(s, p)) in s.db.rows
  {
    var t := TaskAt(s, p);
    Become(s, p, Proc(AtStep(t, if t.Upload? then STAGED else WRITTEN),
                      StagedTxn(s.holdRecords, s.db, s.queue, t, s.procs[p].txn)))
  }

  // ---------- uploads ----------

  predicate Uploads(s: State, p: nat) {
    p in s.procs && TaskAt(s, p).Upload?
  }

  predicate CanLockKey(s: State, p: nat) {
    && Uploads(s, p) && (TaskAt(s, p).step == ROW_LOCKED || TaskAt(s, p).step == PENDING_REGISTERED)
    && KeyFree(s, p, CurrentKey(TaskAt(s, p)))
  }

  function DoLockKey(s: State, p: nat): State
    requires Uploads(s, p)
  {
    var t := TaskAt(s, p);
    var txn := s.procs[p].txn;
    Become(s, p, Proc(AtStep(t, t.step + 1), txn.(exclusive := txn.exclusive + {CurrentKey(t)})))
  }

  predicate CanRegister(s: State, p: nat) {
    Uploads(s, p) && (TaskAt(s, p).step == PENDING_LOCKED || TaskAt(s, p).step == KEY_LOCKED)
  }

  /** The recovery record is committed at once, by a session of its own. */
  function DoRegister(s: State, p: nat): State
    requires Uploads(s, p)
  {
    var t := TaskAt(s, p);
    var k := CurrentKey(t);
    Advance(s, p, AtStep(t, t.step + 1)).(db := s.db.(owners := s.db.owners[k := k.cell]), queue := s.queue + {k})
  }

  predicate CanPutObject(s: State, p: nat) {
    Uploads(s, p) && TaskAt(s, p).step == STAGED
  }

  function DoPutObject(s: State, p: nat): State
    requires Uploads(s, p)
  {
    var t := TaskAt(s, p);
    Advance(s, p, AtStep(t, UPLOADED)).(db := s.db.(objects := s.db.objects[t.pending := t.bytes]))
  }

  predicate CanCopyObject(s: State, p: nat) {
    Uploads(s, p) && TaskAt(s, p).step == UPLOADED && TaskAt(s, p).pending in s.db.objects
  }

  function DoCopyObject(s: State, p: nat): State
    requires Uploads(s, p) && TaskAt(s, p).pending in s.db.objects
  {
    var t := TaskAt(s, p);
    var objects := s.db.objects[t.descriptor.key := s.db.objects[t.pending]];
    Advance(s, p, AtStep(t, PROMOTED)).(db := s.db.(objects := objects))
  }

  // ---------- cleanup ----------

  /** FOR UPDATE SKIP LOCKED, at most 16 records. */
  predicate CanClaim(s: State, p: nat, batch: seq<Key>) {
    && p !in s.procs && |batch| <= 16
    && (forall i, j :: 0 <= i < j < |batch| ==> batch[i] != batch[j])
    && forall k :: k in batch ==> k in s.queue && RecordUnlocked(s, k)
  }

  function DoClaim(s: State, p: nat, batch: seq<Key>): State {
    Become(s, p, Proc(Cleanup(batch, 0, Scan), NEW_TXN.(held := set k | k in batch)))
  }

  predicate Cleans(s: State, p: nat) {
    p in s.procs && TaskAt(s, p).Cleanup? && TaskAt(s, p).next < |TaskAt(s, p).batch|
  }

  predicate CleansIn(s: State, p: nat, phase: CleanupPhase) {
    Cleans(s, p) && TaskAt(s, p).phase == phase
  }

  function Job(s: State, p: nat): Key
    requires Cleans(s, p)
  {
    TaskAt(s, p).batch[TaskAt(s, p).next]
  }

  function InPhase(t: Task, phase: CleanupPhase): Task
    requires t.Cleanup?
  {
    Cleanup(t.batch, t.next, phase)
  }

  function NextJob(t: Task): Task
    requires t.Cleanup?
  {
    Cleanup(t.batch, t.next + 1, Scan)
  }

  function Without(db: Stores, k: Key): Stores {
    db.(objects := db.objects - {k})
  }

  /** The try-lock never waits: a key in use is left for a later batch. */
  function DoTryLock(s: State, p: nat): State
    requires Cleans(s, p)
  {
    var t := TaskAt(s, p);
    var txn := s.procs[p].txn;
    if KeyFree(s, p, Job(s, p))
    then Become(s, p, Proc(InPhase(t, Locked), txn.(exclusive := txn.exclusive + {Job(s, p)})))
    else Advance(s, p, NextJob(t))
  }

  function DoCheck(s: State, p: nat): State
    requires Cleans(s, p)
  {
    Advance(s, p, InPhase(TaskAt(s, p), if Referenced(s.db.rows, Job(s, p)) then Kept else Condemned))
  }

  function DoDeleteObject(s: State, p: nat): State
    requires Cleans(s, p)
  {
    Advance(s, p, InPhase(TaskAt(s, p), Deleted)).(db := Without(s.db, Job(s, p)))
  }

  /** The store reports an error; the object may be gone all the same. The job is kept for later. */
  function DoDeleteFails(s: State, p: nat, lost: bool): State
    requires Cleans(s, p)
  {
    Advance(s, p, NextJob(TaskAt(s, p))).(db := if lost then Without(s.db, Job(s, p)) else s.db)
  }

  function DoForget(s: State, p: nat): State
    requires Cleans(s, p)
  {
    var txn := s.procs[p].txn;
    Become(s, p, Proc(InPhase(TaskAt(s, p), Forgotten), txn.(forgotten := txn.forgotten + {Job(s, p)})))
  }

  function DoSettle(s: State, p: nat): State
    requires Cleans(s, p)
  {
    var txn := s.procs[p].txn;
    Become(s, p, Proc(NextJob(TaskAt(s, p)), txn.(settled := txn.settled + {Job(s, p)})))
  }

  // ---------- downloads ----------

  predicate Downloads(s: State, p: nat) {
    p in s.procs && TaskAt(s, p).Download?
  }

  function Reading(t: Task, stage: DownloadPhase): Task
    requires t.Download?
  {
    Download(t.cell, t.tries, stage)
  }

  predicate CanReadCell(s: State, p: nat) {
    Downloads(s, p) && TaskAt(s, p).stage.Start? && HasBlob(s.db.rows, TaskAt(s, p).cell)
  }

  function DoReadCell(s: State, p: nat): State
    requires Downloads(s, p) && HasBlob(s.db.rows, TaskAt(s, p).cell)
  {
    var t := TaskAt(s, p);
    Advance(s, p, Reading(t, Seen(CellValue(s.db.rows, t.cell).value.descriptor)))
  }

  /** Four attempts, then the request ends. */
  predicate CanCheckOwner(s: State, p: nat) {
    && Downloads(s, p) && TaskAt(s, p).stage.Seen? && TaskAt(s, p).tries < 4
    && OwnedByCell(s.db.owners, TaskAt(s, p).stage.descriptor.key, TaskAt(s, p).cell)
  }

  function DoCheckOwner(s: State, p: nat): State
    requires Downloads(s, p) && TaskAt(s, p).stage.Seen?
  {
    var t := TaskAt(s, p);
    Advance(s, p, Reading(t, Owned(t.stage.descriptor)))
  }

  predicate CanLockShared(s: State, p: nat) {
    Downloads(s, p) && TaskAt(s, p).stage.Owned? && NotExclusive(s, p, TaskAt(s, p).stage.descriptor.key)
  }

  function DoLockShared(s: State, p: nat): State
    requires Downloads(s, p) && TaskAt(s, p).stage.Owned?
  {
    var t := TaskAt(s, p);
    var txn := s.procs[p].txn;
    Become(s, p, Proc(Reading(t, Protected(t.stage.descriptor)),
                      txn.(shared := txn.shared + {t.stage.descriptor.key})))
  }

  /** An empty cell ends the request. */
  predicate CanRecheck(s: State, p: nat) {
    Downloads(s, p) && TaskAt(s, p).stage.Protected? && HasBlob(s.db.rows, TaskAt(s, p).cell)
  }

  function DoRecheck(s: State, p: nat): State
    requires Downloads(s, p) && TaskAt(s, p).stage.Protected? && HasBlob(s.db.rows, TaskAt(s, p).cell)
  {
    var t := TaskAt(s, p);
    var current := CellValue(s.db.rows, t.cell).value.descriptor;
    Advance(s, p, if current == t.stage.descriptor then Reading(t, Valid(current))
                  else Download(t.cell, t.tries + 1, Seen(current)))
  }

  predicate CanGetObject(s: State, p: nat) {
    Downloads(s, p) && TaskAt(s, p).stage.Valid? && TaskAt(s, p).stage.descriptor.key in s.db.objects
  }

  function DoGetObject(s: State, p: nat): State
    requires CanGetObject(s, p)
  {
    var t := TaskAt(s, p);
    Advance(s, p, Reading(t, Got(t.stage.descriptor, s.db.objects[t.stage.descriptor.key])))
  }

  // ---------- all actions ----------

  predicate Enabled(s: State, a: Action) {
    match a
    case CreateRow(at, data) => CanCreateRow(s, at, data)
    case Begin(p, task) => CanBegin(s, p, task)
    case Claim(p, batch) => CanClaim(s, p, batch)
    case Commit(p) => CanCommit(s, p)
    case Rollback(p) => CanRollback(s, p)
    case LockRow(p) => CanLockRow(s, p)
    case StageWrite(p) => CanStageWrite(s, p)
    case LockKey(p) => CanLockKey(s, p)
    case Register(p) => CanRegister(s, p)
    case PutObject(p) => CanPutObject(s, p)
    case CopyObject(p) => CanCopyObject(s, p)
    case TryLock(p) => CleansIn(s, p, Scan)
    case Check(p) => CleansIn(s, p, Locked)
    case DeleteObject(p) => CleansIn(s, p, Condemned)
    case DeleteFails(p, _) => CleansIn(s, p, Condemned)
    case Forget(p) => CleansIn(s, p, Deleted)
    case Settle(p) => CleansIn(s, p, Kept) || CleansIn(s, p, Forgotten)
    case ReadCell(p) => CanReadCell(s, p)
    case CheckOwner(p) => CanCheckOwner(s, p)
    case LockShared(p) => CanLockShared(s, p)
    case Recheck(p) => CanRecheck(s, p)
    case GetObject(p) => CanGetObject(s, p)
  }

  function Next(s: State, a: Action): State
    requires Enabled(s, a)
  {
    match a
    case CreateRow(at, data) => DoCreateRow(s, at, data)
    case Begin(p, task) => DoBegin(s, p, task)
    case Claim(p, batch) => DoClaim(s, p, batch)
    case Commit(p) => DoCommit(s, p)
    case Rollback(p) => Finish(s, p)
    case LockRow(p) => DoLockRow(s, p)
    case StageWrite(p) => DoStageWrite(s, p)
    case LockKey(p) => DoLockKey(s, p)
    case Register(p) => DoRegister(s, p)
    case PutObject(p) => DoPutObject(s, p)
    case CopyObject(p) => DoCopyObject(s, p)
    case TryLock(p) => DoTryLock(s, p)
    case Check(p) => DoCheck(s, p)
    case DeleteObject(p) => DoDeleteObject(s, p)
    case DeleteFails(p, lost) => DoDeleteFails(s, p, lost)
    case Forget(p) => DoForget(s, p)
    case Settle(p) => DoSettle(s, p)
    case ReadCell(p) => DoReadCell(s, p)
    case CheckOwner(p) => DoCheckOwner(s, p)
    case LockShared(p) => DoLockShared(s, p)
    case Recheck(p) => DoRecheck(s, p)
    case GetObject(p) => DoGetObject(s, p)
  }

  // ---------- what a step leaves alone ----------

  predicate ByWriter(a: Action) {
    a.LockRow? || a.StageWrite? || a.LockKey? || a.Register? || a.PutObject? || a.CopyObject?
  }

  predicate ByWorker(a: Action) {
    a.Claim? || a.TryLock? || a.Check? || a.DeleteObject? || a.DeleteFails? || a.Forget? || a.Settle?
  }

  predicate ByReader(a: Action) {
    a.ReadCell? || a.CheckOwner? || a.LockShared? || a.Recheck? || a.GetObject?
  }

  predicate ActsFor(a: Action, p: nat) {
    !a.CreateRow? && a.p == p
  }

  /** Each store is changed by few actions only, and a process by its own. */
  ghost predicate Framed(s: State, a: Action, t: State) {
    && t.holdRecords == s.holdRecords && t.db.blobColumns == s.db.blobColumns
    && (!a.Commit? && !a.CreateRow? ==> t.db.rows == s.db.rows)
    && (!a.Begin? ==> t.db.minted == s.db.minted)
    && (!a.Commit? && !a.Register? ==> t.queue == s.queue && t.db.owners == s.db.owners)
    && (!a.PutObject? && !a.CopyObject? && !a.DeleteObject? && !a.DeleteFails? ==> t.db.objects == s.db.objects)
    && (forall q :: !ActsFor(a, q) ==>
          (q in t.procs <==> q in s.procs) && (q in s.procs ==> t.procs[q] == s.procs[q]))
  }

  lemma WriterFrame(s: State, a: Action)
    requires Enabled(s, a) && ByWriter(a)
    ensures Framed(s, a, Next(s, a))
  {
    hide RowFree, KeyFree, NotExclusive, RecordUnlocked, MayQueue, Retired, RetiredBy, Image, WriteOf, Edited;
    hide Fresh, Minted, Live, HoldsKey, Referenced, IsBlobColumn, ReadyToWrite, Applied, Remaining;
    hide TouchesNoBlob, CurrentKey, AtStep, StagedTxn;
  }

  lemma WorkerFrame(s: State, a: Action)
    requires Enabled(s, a) && ByWorker(a)
    ensures Framed(s, a, Next(s, a))
  {
    hide RowFree, KeyFree, NotExclusive, RecordUnlocked, MayQueue, Retired, RetiredBy, Image, WriteOf, Edited;
    hide Fresh, Minted, Live, HoldsKey, Referenced, IsBlobColumn, ReadyToWrite, Applied, Remaining;
    hide TouchesNoBlob, CurrentKey, InPhase, NextJob;
  }

  lemma ReaderFrame(s: State, a: Action)
    requires Enabled(s, a) && ByReader(a)
    ensures Framed(s, a, Next(s, a))
  {
    hide RowFree, KeyFree, NotExclusive, RecordUnlocked, MayQueue, Retired, RetiredBy, Image, WriteOf, Edited;
    hide Fresh, Minted, Live, HoldsKey, Referenced, IsBlobColumn, ReadyToWrite, Applied, Remaining;
    hide TouchesNoBlob, CurrentKey, Reading, CellValue;
  }

  lemma EndFrame(s: State, a: Action)
    requires Enabled(s, a) && !ByWriter(a) && !ByWorker(a) && !ByReader(a)
    ensures Framed(s, a, Next(s, a))
  {
    hide RowFree, KeyFree, NotExclusive, RecordUnlocked, MayQueue, Retired, RetiredBy, Image, WriteOf, Edited;
    hide Fresh, Minted, Live, HoldsKey, Referenced, IsBlobColumn, ReadyToWrite, Applied, Remaining;
    hide TouchesNoBlob, CurrentKey;
  }

  lemma StepFrame(s: State, a: Action)
    requires Enabled(s, a)
    ensures Framed(s, a, Next(s, a))
  {
    hide Enabled, Next, Framed;
    if ByWriter(a) {
      WriterFrame(s, a);
    } else if ByWorker(a) {
      WorkerFrame(s, a);
    } else if ByReader(a) {
      ReaderFrame(s, a);
    } else {
      EndFrame(s, a);
    }
  }

  // ---------- runs ----------

  ghost predicate Init(s: State) {
    && s.db.rows == map[] && s.db.owners == map[] && s.db.objects == map[] && s.db.minted == map[]
    && s.queue == {} && s.procs == map[]
  }

  ghost predicate Run(s: State, acts: seq<Action>)
    decreases |acts|
  {
    acts == [] || (Enabled(s, acts[0]) && Run(Next(s, acts[0]), acts[1..]))
  }

  ghost function After(s: State, acts: seq<Action>): State
    requires Run(s, acts)
    decreases |acts|
  {
    if acts == [] then s else After(Next(s, acts[0]), acts[1..])
  }

  lemma RunCons(s: State, a: Action, rest: seq<Action>)
    requires Enabled(s, a) && Run(Next(s, a), rest)
    ensures Run(s, [a] + rest) && After(s, [a] + rest) == After(Next(s, a), rest)
  {
    assert ([a] + rest)[1..] == rest;
  }

  lemma {:induction false} RunConcat(s: State, first: seq<Action>, rest: seq<Action>)
    requires Run(s, first) && Run(After(s, first), rest)
    ensures Run(s, first + rest) && After(s, first + rest) == After(After(s, first), rest)
    decreases |first|
  {
    if first == [] {
      assert first + rest == rest;
    } else {
      assert (first + rest)[1..] == first[1..] + rest;
      RunConcat(Next(s, first[0]), first[1..], rest);
    }
  }

  lemma {:induction false} RunSplit(s: State, first: seq<Action>, rest: seq<Action>)
    requires Run(s, first + rest)
    ensures Run(s, first) && Run(After(s, first), rest) && After(s, first + rest) == After(After(s, first), rest)
    decreases |first|
  {
    if first == [] {
      assert first + rest == rest;
    } else {
      assert (first + rest)[1..] == first[1..] + rest;
      RunSplit(Next(s, first[0]), first[1..], rest);
    }
  }
}
