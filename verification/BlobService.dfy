/**
  The request handlers and the cleanup worker as programs that run the protocol's actions, with
  the other processes free to act at every `await`.
 */
module BlobService {
  import opened Basics
  import opened BlobProtocol
  import opened BlobSafety
  import BlobLeak
  import BlobRace

  datatype Response = Found(descriptor: Descriptor, bytes: Bytes) | NotFound | Conflict | Waiting

  /** One pass of the download's retry loop. */
  datatype Try = Confirmed | Changed(descriptor: Descriptor) | Refused(response: Response)

  /** How an await answers: it took effect, it failed without effect, or it took effect and its answer was lost. */
  datatype Answer = Granted | Denied | Unheard

  /** How a stage of a cleanup job ends: the job goes on, it is left for later, or the worker's transaction failed. */
  datatype Progress = GoesOn | Left | Broken

  /** How the object store answers a delete. */
  datatype Storage = Deletes | Refuses | LosesAnswer

  /** One pass of the cleanup loop: how the store, the statements and the commit answer. */
  datatype Pass = Pass(storage: nat -> Storage, fails: nat -> bool, answer: Answer)

  /** From place `n` on, the log holds what cleanup workers do. */
  predicate OnlyCleanup(log: seq<Action>, n: nat) {
    n <= |log| && forall i :: n <= i < |log| ==> BlobRace.CleanupAction(log[i])
  }

  /** The actions of one process, in order. */
  function Mine(log: seq<Action>, p: nat): seq<Action> {
    if log == [] then []
    else
      var last := log[|log| - 1];
      Mine(log[..|log| - 1], p) + (if ActsFor(last, p) then [last] else [])
  }

  lemma MineSnoc(log: seq<Action>, a: Action, p: nat)
    ensures Mine(log + [a], p) == Mine(log, p) + (if ActsFor(a, p) then [a] else [])
  {
    assert (log + [a])[..|log|] == log;
  }

  /** Authorize, stage, upload, promote, then commit. */
  function UploadOrder(me: nat): seq<Action> {
    [LockRow(me), LockKey(me), Register(me), LockKey(me), Register(me), StageWrite(me), PutObject(me), CopyObject(me),
        Commit(me)]
  }

  /** Authorize, change the row, commit. */
  function ChangeOrder(me: nat): seq<Action> {
    [LockRow(me), StageWrite(me), Commit(me)]
  }

  predicate Changes(t: Task) {
    t.Clear? || t.Drop? || t.Edit?
  }

  /** What a committed change of a row does to the rows. */
  predicate Shown(t: Task, db: Stores, rows: Rows)
    requires Changes(t)
  {
    var at := RowOf(t);
    && at in db.rows && rows - {at} == db.rows - {at}
    && match t
       case Clear(cell, _) =>
         at in rows && rows[at].Keys == db.rows[at].Keys && CellValue(rows, cell) == Some(Cleared)
         && forall c :: c in rows[at] && c != cell.column ==> rows[at][c] == db.rows[at][c]
       case Drop(_, _) => at !in rows
       case Edit(_, replace, data, _) =>
         && at in rows
         && (forall c :: c in data ==> c in rows[at] && rows[at][c] == data[c])
         && (forall c :: c in db.rows[at] && db.rows[at][c].Blob? ==> c in rows[at] && rows[at][c] == db.rows[at][c])
         && (forall c :: c in rows[at] && c !in data ==> c in db.rows[at] && rows[at][c] == db.rows[at][c])
         && (forall c :: c in db.rows[at] && c !in rows[at] ==> replace && !IsBlobColumn(db.blobColumns, at.table, c))
  }

  class Server {
    var s: State
    ghost var log: seq<Action>
    ghost const origin: State

    ghost predicate Valid()
      reads this
    {
      Init(origin) && Run(origin, log) && After(origin, log) == s && Inv(s)
    }

    constructor (start: State)
      requires Init(start)
      ensures Valid() && s == start && log == []
    {
      s, log, origin := start, [], start;
    }

    method Perform(a: Action)
      requires Valid() && Enabled(s, a)
      modifies this
      ensures Valid() && s == Next(old(s), a) && log == old(log) + [a]
    {
      StepKeepsInv(s, a);
      RunCons(s, a, []);
      RunConcat(origin, log, [a]);
      s := Next(s, a);
      log := log + [a];
    }

    method Abandon(me: nat)
      requires Valid() && me in s.procs
      modifies this
      ensures Valid() && me !in s.procs && s == Finish(old(s), me)
      ensures log == old(log) + [Rollback(me)] && Mine(log, me) == Mine(old(log), me) + [Rollback(me)]
    {
      MineSnoc(log, Rollback(me), me);
      Perform(Rollback(me));
    }

    /** Others act while a process waits for an answer; what is not possible for them is skipped. */
    method Await(me: nat, others: seq<Action>)
      requires Valid()
      modifies this
      ensures Valid()
      ensures me in old(s.procs) ==> me in s.procs && s.procs[me] == old(s.procs[me])
      ensures me !in old(s.procs) ==> me !in s.procs
      ensures s.db.blobColumns == old(s.db.blobColumns)
      ensures old(log) <= log && Mine(log, me) == Mine(old(log), me)
      ensures others == [] ==> s == old(s) && log == old(log)
    {
      for i := 0 to |others|
        invariant Valid()
        invariant me in old(s.procs) ==> me in s.procs && s.procs[me] == old(s.procs[me])
        invariant me !in old(s.procs) ==> me !in s.procs
        invariant s.db.blobColumns == old(s.db.blobColumns)
        invariant old(log) <= log && Mine(log, me) == Mine(old(log), me)
        invariant i == 0 ==> s == old(s) && log == old(log)
      {
        var a := others[i];
        if Enabled(s, a) && !ActsFor(a, me) {
          StepLeavesOthers(s, a, me);
          StepKeepsHistory(s, a);
          MineSnoc(log, a, me);
          Perform(a);
        }
      }
    }

    ghost predicate Shows(upload: Task)
      requires upload.Upload?
      reads this
    {
      var d := upload.descriptor;
      CellValue(s.db.rows, d.key.cell) == Some(Blob(d)) && d.key in s.db.objects && s.db.objects[d.key] == upload.bytes
    }

    /** The upload has taken its first `n` actions; after the last one its file is there. */
    ghost predicate UploadAt(me: nat, upload: Task, n: nat, before: seq<Action>)
      requires upload.Upload? && n <= |UploadOrder(me)|
      reads this
    {
      && Valid()
      && Mine(log, me) == before + UploadOrder(me)[..n]
      && (if n < |UploadOrder(me)| then Uploads(s, me) && TaskAt(s, me) == AtStep(upload, n)
          else me !in s.procs && Shows(upload))
    }

    /** The upload has ended in an error: rolled back after `taken` actions, or committed without being heard. */
    ghost predicate UploadFailed(me: nat, upload: Task, taken: nat, before: seq<Action>)
      requires upload.Upload? && taken <= |UploadOrder(me)|
      reads this
    {
      && Valid() && me !in s.procs
      && if taken < |UploadOrder(me)| then Mine(log, me) == before + UploadOrder(me)[..taken] + [Rollback(me)]
         else Mine(log, me) == before + UploadOrder(me) && Shows(upload)
    }

    /** One await of the upload. An error, or a lock that never comes, rolls back what is not committed. */
    method Attempt(me: nat, upload: Task, n: nat, others: seq<Action>, answer: Answer, ghost before: seq<Action>)
      returns (ok: bool, ghost taken: nat)
      requires upload.Upload? && n < |UploadOrder(me)| && UploadAt(me, upload, n, before)
      modifies this
      ensures old(log) <= log && taken <= n + 1
      ensures ok ==> UploadAt(me, upload, n + 1, before)
      ensures !ok ==> UploadFailed(me, upload, taken, before)
      ensures !ok && taken == |UploadOrder(me)| ==> answer.Unheard?
    {
      hide Next, Enabled, Inv, Init, Run, After, Mine;
      Await(me, others);
      var a := UploadOrder(me)[n];
      if answer.Denied? || !Enabled(s, a) {
        Abandon(me);
        return false, n;
      }
      MineSnoc(log, a, me);
      if n < PROMOTED {
        OwnStep(s, me, upload, n);
      } else {
        OwnCommit(s, me, upload);
        assert UploadOrder(me)[..n + 1] == UploadOrder(me);
      }
      assert UploadOrder(me)[..n + 1] == UploadOrder(me)[..n] + [a];
      Perform(a);
      ok, taken := answer.Granted?, n + 1;
      if !ok && n < PROMOTED { Abandon(me); }
    }

    /**
      A success shows the whole new file. An error ends in a rollback that published nothing, unless
      it is the commit whose answer was lost: then the whole new file is there all the same.
     */
    method PutBlobCell(me: nat, upload: Task, env: nat -> seq<Action>, answers: nat -> Answer)
      returns (r: Option<Descriptor>, ghost taken: nat)
      requires Valid() && CanBegin(s, me, upload) && upload.Upload?
      modifies this
      ensures Valid() && old(log) <= log && me !in s.procs && taken <= |UploadOrder(me)|
      ensures r.Some? ==> && r.value == upload.descriptor && Shows(upload)
                          && Mine(log, me) == Mine(old(log), me) + [Begin(me, upload)] + UploadOrder(me)
      ensures r.None? ==> UploadFailed(me, upload, taken, Mine(old(log), me) + [Begin(me, upload)])
      ensures r.None? && taken == |UploadOrder(me)| ==> answers(8).Unheard?
    {
      hide Next, Enabled, Inv, Init, Run, After, Mine, Valid, UploadAt, UploadFailed, Shows, Initial, Fresh;
      ghost var before := Mine(log, me) + [Begin(me, upload)];
      StartUpload(me, upload);
      r := None;
      var ok;
      ok, taken := Attempt(me, upload, 0, env(0), answers(0), before);  // lock_for_write
      if !ok { UploadOver(me, upload, taken, before); return; }
      for i := 0 to 2  // the pending key, then the published one
        invariant old(log) <= log && UploadAt(me, upload, 1 + 2 * i, before)
      {
        ok, taken := Attempt(me, upload, 1 + 2 * i, env(1 + 2 * i), answers(1 + 2 * i), before);
        if !ok { UploadOver(me, upload, taken, before); return; }
        ok, taken := Attempt(me, upload, 2 + 2 * i, env(2 + 2 * i), answers(2 + 2 * i), before);
        if !ok { UploadOver(me, upload, taken, before); return; }
      }
      ok, taken := Attempt(me, upload, 5, env(5), answers(5), before);  // stage the descriptor
      if !ok { UploadOver(me, upload, taken, before); return; }
      ok, taken := Attempt(me, upload, 6, env(6), answers(6), before);  // upload
      if !ok { UploadOver(me, upload, taken, before); return; }
      ok, taken := Attempt(me, upload, 7, env(7), answers(7), before);  // promote
      if !ok { UploadOver(me, upload, taken, before); return; }
      ok, taken := Attempt(me, upload, 8, env(8), answers(8), before);  // commit
      if !ok { UploadOver(me, upload, taken, before); return; }
      UploadDone(me, upload, before);
      r := Some(upload.descriptor);
    }

    lemma UploadOver(me: nat, upload: Task, taken: nat, before: seq<Action>)
      requires upload.Upload? && taken <= |UploadOrder(me)| && UploadFailed(me, upload, taken, before)
      ensures Valid() && me !in s.procs
    {
    }

    lemma UploadDone(me: nat, upload: Task, before: seq<Action>)
      requires upload.Upload? && UploadAt(me, upload, 9, before)
      ensures Valid() && me !in s.procs && Shows(upload) && Mine(log, me) == before + UploadOrder(me)
    {
      assert UploadOrder(me)[..9] == UploadOrder(me);
    }

    method StartUpload(me: nat, upload: Task)
      requires Valid() && CanBegin(s, me, upload) && upload.Upload?
      modifies this
      ensures old(log) <= log && UploadAt(me, upload, 0, Mine(old(log), me) + [Begin(me, upload)])
    {
      MineSnoc(log, Begin(me, upload), me);
      Perform(Begin(me, upload));
    }

    // ---------- other changes of a row ----------

    /** The change has taken its first `n` actions. */
    ghost predicate ChangeAt(me: nat, t: Task, n: nat, before: seq<Action>)
      requires Changes(t) && n <= 2
      reads this
    {
      Valid() && Mine(log, me) == before + ChangeOrder(me)[..n] && me in s.procs && TaskAt(s, me) == AtStep(t, n)
    }

    /** The change has ended in an error: rolled back after `taken` actions, or committed without being heard. */
    ghost predicate ChangeFailed(me: nat, t: Task, taken: nat, before: seq<Action>, seen: State)
      requires Changes(t) && taken <= |ChangeOrder(me)|
      reads this
    {
      && Valid() && me !in s.procs
      && if taken < |ChangeOrder(me)| then Mine(log, me) == before + ChangeOrder(me)[..taken] + [Rollback(me)]
         else Mine(log, me) == before + ChangeOrder(me) && Shown(t, seen.db, s.db.rows)
    }

    method AttemptChange(me: nat, t: Task, n: nat, others: seq<Action>, answer: Answer, ghost before: seq<Action>)
      returns (ok: bool, ghost taken: nat, ghost seen: State)
      requires Changes(t) && n <= 2 && ChangeAt(me, t, n, before)
      modifies this
      ensures old(log) <= log && taken <= n + 1
      ensures ok && n < 2 ==> ChangeAt(me, t, n + 1, before)
      ensures ok && n == 2 ==> taken == 3 && ChangeFailed(me, t, 3, before, seen)
      ensures !ok ==> ChangeFailed(me, t, taken, before, seen)
      ensures !ok && taken == |ChangeOrder(me)| ==> answer.Unheard?
    {
      hide Next, Enabled, Inv, Init, Run, After, Mine, Shown;
      Await(me, others);
      seen := s;
      var a := ChangeOrder(me)[n];
      if answer.Denied? || !Enabled(s, a) {
        Abandon(me);
        return false, n, s;
      }
      MineSnoc(log, a, me);
      assert ChangeOrder(me)[..n + 1] == ChangeOrder(me)[..n] + [a];
      if n < 2 {
        OwnChange(s, me, t, n);
      } else {
        OwnChangeCommit(s, me, t);
        assert ChangeOrder(me)[..3] == ChangeOrder(me);
      }
      Perform(a);
      ok, taken := answer.Granted?, n + 1;
      if !ok && n < 2 { Abandon(me); }
    }

    /**
      Deleting a cell's file, deleting a row, and replacing or patching a row. A success shows the
      change made to the rows as they stood at its commit. An error published nothing, unless it is
      the commit whose answer was lost.
     */
    method ChangeRow(me: nat, t: Task, env: nat -> seq<Action>, answers: nat -> Answer)
      returns (ok: bool, ghost taken: nat, ghost before: State)
      requires Valid() && CanBegin(s, me, t) && Changes(t)
      modifies this
      ensures Valid() && old(log) <= log && me !in s.procs && taken <= |ChangeOrder(me)|
      ensures ok ==> Shown(t, before.db, s.db.rows)
      ensures ok ==> Mine(log, me) == Mine(old(log), me) + [Begin(me, t)] + ChangeOrder(me)
      ensures !ok ==> ChangeFailed(me, t, taken, Mine(old(log), me) + [Begin(me, t)], before)
      ensures !ok && taken == |ChangeOrder(me)| ==> answers(2).Unheard?
    {
      hide Next, Inv, Init, Run, After, Mine, Shown;
      ghost var mine := Mine(log, me) + [Begin(me, t)];
      StartChange(me, t);
      ok, taken, before := AttemptChange(me, t, 0, env(0), answers(0), mine);
      if !ok { return; }
      ok, taken, before := AttemptChange(me, t, 1, env(1), answers(1), mine);
      if !ok { return; }
      ok, taken, before := AttemptChange(me, t, 2, env(2), answers(2), mine);
    }

    method StartChange(me: nat, t: Task)
      requires Valid() && CanBegin(s, me, t) && Changes(t)
      modifies this
      ensures old(log) <= log && ChangeAt(me, t, 0, Mine(old(log), me) + [Begin(me, t)])
    {
      MineSnoc(log, Begin(me, t), me);
      Perform(Begin(me, t));
    }

    // ---------- downloads ----------

    ghost predicate DownloadAt(me: nat, t: Task)
      reads this
    {
      Valid() && Downloads(s, me) && TaskAt(s, me) == t
    }

    /** Waits, then takes the download's next action if it can. */
    method Follow(me: nat, t: Task, others: seq<Action>, a: Action) returns (ok: bool)
      requires DownloadAt(me, t) && ActsFor(a, me) && DownloadStep(a)
      modifies this
      ensures old(log) <= log && Valid()
      ensures ok ==> DownloadAt(me, Moved(s, t, a)) && (a.ReadCell? || a.Recheck? ==> HasBlob(s.db.rows, t.cell))
      ensures ok && a.CheckOwner? ==> t.stage.Seen? && t.stage.descriptor.key.cell == t.cell
      ensures ok && a.GetObject? ==> t.stage.Valid? && t.stage.descriptor.key in s.db.objects
      ensures !ok ==> DownloadAt(me, t) && !Enabled(s, a)
      ensures others == [] ==> s.db == old(s.db) && s.procs.Keys == old(s.procs).Keys
    {
      hide Inv, Init, Run, After, Mine;
      Await(me, others);
      ok := Enabled(s, a);
      if ok {
        MovesTo(s, me, t, a);
        Perform(a);
      }
    }

    method StartDownload(me: nat, cell: Cell, others: seq<Action>) returns (d: Option<Descriptor>)
      requires Valid() && CanBegin(s, me, Download(cell, 0, Start))
      modifies this
      ensures old(log) <= log && Valid() && me in s.procs
      ensures d.Some? ==> DownloadAt(me, Download(cell, 0, Seen(d.value))) && d.value.key.cell == cell
      ensures others == [] ==>
                && s.db == old(s.db) && s.procs.Keys == old(s.procs).Keys + {me}
                && d == if HasBlob(s.db.rows, cell) then Some(CellValue(s.db.rows, cell).value.descriptor) else None
    {
      hide Inv, Init, Run, After, Mine;
      Perform(Begin(me, Download(cell, 0, Start)));
      var ok := Follow(me, Download(cell, 0, Start), others, ReadCell(me));
      if !ok { return None; }
      KeyOfCell(s, cell);
      d := Some(TaskAt(s, me).stage.descriptor);
    }

    /** The download waits for its shared lock, which another process blocks. */
    ghost predicate StillWaits(me: nat, cell: Cell)
      reads this
    {
      && Downloads(s, me) && TaskAt(s, me).cell == cell && TaskAt(s, me).stage.Owned?
      && !NotExclusive(s, me, TaskAt(s, me).stage.descriptor.key)
    }

    ghost predicate LoneReader(me: nat, cell: Cell, d: Descriptor)
      reads this
    {
      s.procs.Keys == {me} && CellValue(s.db.rows, cell) == Some(Blob(d))
    }

    /** The ownership check, then the shared lock on the key. */
    method Protect(me: nat, cell: Cell, tries: nat, d: Descriptor, first: seq<Action>, second: seq<Action>)
      returns (refused: Option<Response>)
      requires DownloadAt(me, Download(cell, tries, Seen(d))) && tries < 4 && d.key.cell == cell
      modifies this
      ensures old(log) <= log && Valid() && me in s.procs
      ensures refused.None? ==> DownloadAt(me, Download(cell, tries, Protected(d)))
      ensures refused.Some? ==> refused.value.NotFound? || (refused.value.Waiting? && StillWaits(me, cell))
      ensures first == second == [] ==> s.db == old(s.db) && s.procs.Keys == old(s.procs).Keys
      ensures first == second == [] && old(LoneReader(me, cell, d)) ==> refused.None?
    {
      hide Inv, Init, Run, After, Mine, Next, Enabled;
      ghost var lone := first == second == [] && LoneReader(me, cell, d);
      var ok := Follow(me, Download(cell, tries, Seen(d)), first, CheckOwner(me));
      if lone { LoneDownloadProceeds(s, me, d); }
      if !ok { return Some(NotFound); }
      ok := Follow(me, Download(cell, tries, Owned(d)), second, LockShared(me));
      if lone { LoneDownloadProceeds(s, me, d); }
      if ok { return None; }
      SharedLockBlocked(s, me);
      refused := Some(Waiting);
    }

    /** Under the shared lock, looks whether the cell still names the file. */
    method Confirm(me: nat, cell: Cell, tries: nat, d: Descriptor, others: seq<Action>) returns (r: Try)
      requires DownloadAt(me, Download(cell, tries, Protected(d))) && tries < 4
      modifies this
      ensures old(log) <= log && Valid() && me in s.procs
      ensures r.Confirmed? ==> DownloadAt(me, Download(cell, tries, DownloadPhase.Valid(d)))
      ensures r.Changed? ==>
                DownloadAt(me, Download(cell, tries + 1, Seen(r.descriptor))) && r.descriptor.key.cell == cell
      ensures r.Refused? ==> r.response.NotFound? || r.response.Conflict?
      ensures others == [] ==> s.db == old(s.db) && s.procs.Keys == old(s.procs).Keys
      ensures others == [] && old(LoneReader(me, cell, d)) ==> r.Confirmed?
    {
      hide Inv, Init, Run, After, Mine, Next, Enabled, KeyFree, NotExclusive;
      var ok := Follow(me, Download(cell, tries, Protected(d)), others, Recheck(me));
      if LoneReader(me, cell, d) { LoneDownloadProceeds(s, me, d); }
      if !ok { return Refused(if cell.at in s.db.rows && tries == 3 then Conflict else NotFound); }
      KeyOfCell(s, cell);
      r := if TaskAt(s, me).stage.Valid? then Confirmed else Changed(TaskAt(s, me).stage.descriptor);
    }

    method Validate(me: nat, cell: Cell, tries: nat, d: Descriptor, env: nat -> seq<Action>) returns (r: Try)
      requires DownloadAt(me, Download(cell, tries, Seen(d))) && tries < 4 && d.key.cell == cell
      modifies this
      ensures old(log) <= log && Valid() && me in s.procs
      ensures r.Confirmed? ==> DownloadAt(me, Download(cell, tries, DownloadPhase.Valid(d)))
      ensures r.Changed? ==>
                DownloadAt(me, Download(cell, tries + 1, Seen(r.descriptor))) && r.descriptor.key.cell == cell
      ensures r.Refused? ==> !r.response.Found? && (r.response.Waiting? ==> StillWaits(me, cell))
      ensures (forall n :: env(n) == []) ==> s.db == old(s.db) && s.procs.Keys == old(s.procs).Keys
      ensures (forall n :: env(n) == []) && old(LoneReader(me, cell, d)) ==> r.Confirmed?
    {
      hide Inv, Init, Run, After, Mine, Next, Enabled, KeyFree, NotExclusive, CellValue, HasBlob;
      var refused := Protect(me, cell, tries, d, env(0), env(1));
      if refused.Some? { return Refused(refused.value); }
      r := Confirm(me, cell, tries, d, env(2));
    }

    /** Past the retry loop the object is always there. */
    method Fetch(me: nat, cell: Cell, tries: nat, d: Descriptor, others: seq<Action>) returns (r: Response)
      requires DownloadAt(me, Download(cell, tries, DownloadPhase.Valid(d))) && d.key.cell == cell
      modifies this
      ensures old(log) <= log && Valid() && me in s.procs
      ensures r.Found? && r.descriptor == d && Publishes(s.db, r, cell)
      ensures others == [] ==> s.db == old(s.db)
    {
      hide Inv, Init, Run, After, Mine, Next;
      var ok := Follow(me, Download(cell, tries, DownloadPhase.Valid(d)), others, GetObject(me));
      ProtectedIsStored(s, me);
      assert ok;
      r := Found(d, s.db.objects[d.key]);
    }

    /**
      A download answers with the bytes published under the descriptor it returns, for its own
      cell, unless it is still waiting for the shared lock after all that the others did. With nobody
      else around it answers Found exactly when the cell holds a blob, and then with that blob.
     */
    method GetBlobCell(me: nat, cell: Cell, env: nat -> seq<Action>) returns (r: Response)
      requires Valid() && CanBegin(s, me, Download(cell, 0, Start))
      modifies this
      ensures Valid() && old(log) <= log
      ensures if r.Waiting? then StillWaits(me, cell) else me !in s.procs
      ensures r.Found? ==> Publishes(s.db, r, cell)
      ensures Alone(old(s), env) ==>
                && s.db == old(s.db)
                && (r.Found? <==> HasBlob(old(s.db.rows), cell))
                && (r.Found? ==> CellValue(old(s.db.rows), cell) == Some(Blob(r.descriptor)))
    {
      hide Inv, Init, Run, After, Mine, Next, Enabled, CanBegin, Moved;
      ghost var alone := Alone(s, env);
      var d := StartDownload(me, cell, env(0));
      if d == None {
        Abandon(me);
        return NotFound;
      }
      for tries := 0 to 4
        invariant d.Some? && d.value.key.cell == cell && old(log) <= log
        invariant DownloadAt(me, Download(cell, tries, Seen(d.value)))
        invariant alone ==> s.db == old(s.db) && s.procs.Keys == {me} && tries == 0
        invariant alone ==> CellValue(s.db.rows, cell) == Some(Blob(d.value))
      {
        var attempt := Validate(me, cell, tries, d.value, (n: nat) => env(4 * tries + 1 + n));
        match attempt {
          case Refused(response) =>
            if !response.Waiting? { Abandon(me); }
            return response;
          case Confirmed =>
            r := Fetch(me, cell, tries, d.value, env(4 * tries + 4));
            Abandon(me);
            return;
          case Changed(current) =>
            d := Some(current);
        }
      }
      Abandon(me);
      r := Conflict;
    }


    // ---------- cleanup ----------

    /** Since then only this worker has acted. */
    ghost predicate OnlyMe(me: nat, since: State, n: nat)
      reads this
    {
      OnlyCleanup(log, n) && s.procs.Keys - {me} == since.procs.Keys - {me}
    }

    ghost predicate CleaningAt(me: nat, batch: seq<Key>, i: nat, phase: CleanupPhase)
      reads this
    {
      Valid() && me in s.procs && TaskAt(s, me) == Cleanup(batch, i, phase)
    }

    /** Waits, then takes an action that depends on the worker's own place only, unless its transaction fails. */
    method Work(me: nat, others: seq<Action>, fails: bool, a: Action) returns (ok: bool, ghost x: State)
      requires Valid() && me in s.procs && OwnPlace(TaskAt(s, me), a) && ActsFor(a, me)
      modifies this
      ensures old(log) <= log && Valid() && ok == !fails
      ensures ok ==> me in x.procs && x.procs[me] == old(s.procs[me]) && Enabled(x, a) && s == Next(x, a)
      ensures ok ==> log != [] && log[|log| - 1] == a
      ensures ok && others == [] ==> x == old(s)
      ensures others == [] ==> OnlyMe(me, old(s), |old(log)|)
      ensures !ok ==> me !in s.procs && Ended(me, Rollback(me))
    {
      hide Inv, Init, Run, After, Mine, Next;
      Await(me, others);
      x, ok := s, !fails;
      OwnFrame(s, me, a);
      if ok { Perform(a); } else { Abandon(me); }
    }

    /** The worker's transaction is over, by its last action. */
    ghost predicate Ended(me: nat, last: Action)
      reads this
    {
      Valid() && me !in s.procs && log != [] && log[|log| - 1] == last
    }

    /** Try the lock, then ask whether the key is still referenced; a key in use is left. */
    method Judge(me: nat, batch: seq<Key>, i: nat, env: nat -> seq<Action>, fails: nat -> bool) returns (p: Progress)
      requires CleaningAt(me, batch, i, Scan) && i < |batch|
      modifies this
      ensures old(log) <= log
      ensures p.Left? ==> CleaningAt(me, batch, i + 1, Scan)
      ensures p.GoesOn? ==> CleaningAt(me, batch, i, Kept) || CleaningAt(me, batch, i, Condemned)
      ensures p.Broken? ==> Ended(me, Rollback(me)) && Fails(fails)
      ensures Silent(env) ==> OnlyMe(me, old(s), |old(log)|)
      ensures Undisturbed(env, fails) && old(s.procs).Keys == {me} ==> p.GoesOn? && s == Judged(old(s), me)
    {
      hide Inv, Init, Run, After, Mine, Enabled, Next, Undisturbed, Fails, Silent, Referenced, KeyFree;
      hide DoTryLock, DoCheck, Judged;
      JudgedIs(s, me);
      Quiet(env, fails, 0);
      Quiet(env, fails, 1);
      var ok;
      ghost var x;
      ok, x := Work(me, env(0), fails(0), TryLock(me));
      if !ok { return Broken; }
      TryLockMoves(x, me);
      if TaskAt(s, me).phase.Scan? { return Left; }
      ok, x := Work(me, env(1), fails(1), Check(me));
      if !ok { return Broken; }
      CheckMoves(x, me);
      p := GoesOn;
    }

    /** Delete the object, then its ownership record; if the store fails, the job stays queued. */
    method Discard(me: nat, batch: seq<Key>, i: nat, storage: Storage, env: nat -> seq<Action>, fails: nat -> bool)
      returns (p: Progress)
      requires CleaningAt(me, batch, i, Condemned) && i < |batch|
      modifies this
      ensures old(log) <= log
      ensures p.GoesOn? ==> CleaningAt(me, batch, i, Forgotten)
      ensures p.Left? ==> CleaningAt(me, batch, i + 1, Scan)
      ensures p.Broken? ==> Ended(me, Rollback(me)) && Fails(fails)
      ensures Silent(env) ==> OnlyMe(me, old(s), |old(log)|)
      ensures Undisturbed(env, fails) ==> (storage.Deletes? <==> p.GoesOn?)
      ensures Undisturbed(env, fails) && storage.Deletes? ==> s == Discarded(old(s), me)
    {
      hide Inv, Init, Run, After, Mine, Enabled, Next, Undisturbed, Fails, Silent, Discarded;
      hide DoDeleteObject, DoDeleteFails, DoForget;
      DiscardedIs(s, me);
      Quiet(env, fails, 2);
      Quiet(env, fails, 3);
      var ok;
      ghost var x;
      if !storage.Deletes? {
        ok, x := Work(me, env(2), fails(2), DeleteFails(me, storage.LosesAnswer?));
        if !ok { return Broken; }
        DeleteFailsMoves(x, me, storage.LosesAnswer?);
        return Left;
      }
      ok, x := Work(me, env(2), fails(2), DeleteObject(me));
      if !ok { return Broken; }
      DeleteMoves(x, me);
      ok, x := Work(me, env(3), fails(3), Forget(me));
      if !ok { return Broken; }
      ForgetMoves(x, me);
      p := GoesOn;
    }

    /** One job of the batch. */
    method CleanOne(me: nat, batch: seq<Key>, i: nat, storage: Storage, env: nat -> seq<Action>, fails: nat -> bool)
      returns (p: Progress)
      requires CleaningAt(me, batch, i, Scan) && i < |batch|
      modifies this
      ensures old(log) <= log
      ensures !p.Broken? ==> CleaningAt(me, batch, i + 1, Scan)
      ensures p.Broken? ==> Ended(me, Rollback(me)) && Fails(fails)
      ensures Silent(env) ==> OnlyMe(me, old(s), |old(log)|)
      ensures Undisturbed(env, fails) && old(s.procs).Keys == {me} && storage.Deletes? ==>
                p.GoesOn? && s == Cleaned(old(s), me)
    {
      hide Inv, Init, Run, After, Mine, Enabled, Next, Undisturbed, Fails, Silent, Judged, Discarded, DoSettle;
      JudgedCleans(s, me);
      Quiet(env, fails, 4);
      p := Judge(me, batch, i, env, fails);
      if !p.GoesOn? { return; }
      if TaskAt(s, me).phase.Condemned? {
        p := Discard(me, batch, i, storage, env, fails);
        if !p.GoesOn? { return; }
      }
      var ok;
      ghost var x;
      ok, x := Work(me, env(4), fails(4), Settle(me));
      if !ok { return Broken; }
      SettleMoves(x, me);
    }

    /**
      One batch. With nobody else around, no failures and a store that obeys, exactly the
      unreferenced objects of the batch are deleted and forgotten, and every record of the batch is
      settled. An error, of any statement or of the commit, rolls the batch's records back, unless it
      is the commit whose answer was lost.
     */
    method CleanupOnce(me: nat, batch: seq<Key>, storage: nat -> Storage, env: nat -> seq<Action>, fails: nat -> bool,
                       answer: Answer)
      returns (processed: Option<nat>)
      requires Valid() && CanClaim(s, me, batch)
      modifies this
      ensures Valid() && old(log) <= log && me !in s.procs
      ensures processed.Some? ==> processed.value <= |batch| && Ended(me, Commit(me)) && answer.Granted?
      ensures processed.None? ==> Ended(me, Rollback(me)) || (Ended(me, Commit(me)) && answer.Unheard?)
      ensures processed.None? ==> !answer.Granted? || Fails(fails)
      ensures Silent(env) ==> OnlyMe(me, old(s), |old(log)|)
      ensures Alone(old(s), env) && Undisturbed(env, fails) && (forall n :: storage(n).Deletes?) && answer.Granted? ==>
                && processed == Some(|batch|)
                && s.queue == old(s.queue) - Elems(batch)
                && s.db == Collected(old(s.db), Unreferenced(old(s.db.rows), batch))
                && s.procs == map[] && s.holdRecords == old(s.holdRecords)
    {
      hide Inv, Init, Run, After, Mine, Enabled, Next, Cleaned, Undisturbed, Fails, Silent, Swept, Collected;
      hide Unreferenced, Elems;
      SilentAt(env, 5 * |batch|);
      ghost var lone := Alone(s, env) && Undisturbed(env, fails) && (forall n :: storage(n).Deletes?);
      ghost var start := s;
      StartCleanup(me, batch);
      var count := 0;
      for i := 0 to |batch|
        invariant old(log) <= log && CleaningAt(me, batch, i, Scan) && count <= i
        invariant Silent(env) ==> OnlyMe(me, start, |old(log)|)
        invariant lone ==> count == i && s == Swept(start, me, batch, i)
      {
        Later(env, fails, 5 * i);
        if lone { SweptAlone(start, me, batch, i); }
        var p := CleanOne(me, batch, i, storage(i), From(env, 5 * i), From(fails, 5 * i));
        if p.Broken? { return None; }
        if p.GoesOn? { count := count + 1; }
        if lone { SweptNext(start, me, batch, i); }
      }
      EndCleanup(me, batch, env(5 * |batch|), answer, start);
      processed := if answer.Granted? then Some(count) else None;
    }

    method EndCleanup(me: nat, batch: seq<Key>, others: seq<Action>, answer: Answer, ghost start: State)
      requires CleaningAt(me, batch, |batch|, Scan)
      modifies this
      ensures old(log) <= log && (if answer.Denied? then Ended(me, Rollback(me)) else Ended(me, Commit(me)))
      ensures others == [] ==> OnlyMe(me, old(s), |old(log)|)
      ensures others == [] && answer.Granted? && old(s) == Swept(start, me, batch, |batch|) ==>
                && s.queue == start.queue - Elems(batch)
                && s.db == Collected(start.db, Unreferenced(start.db.rows, batch))
                && s.procs == map[] && s.holdRecords == start.holdRecords
    {
      hide Inv, Init, Run, After, Mine, Enabled, Next, Swept, Collected, Unreferenced, Elems;
      if answer.Denied? {
        Await(me, others);
        Abandon(me);
      } else {
        ghost var ok, x := Work(me, others, false, Commit(me));
        CleanupCommits(x, start, me, batch);
      }
    }

    method PickBatch() returns (batch: seq<Key>)
      ensures |batch| <= 16 && (s.queue != {} ==> batch != [])
      ensures forall i, j :: 0 <= i < j < |batch| ==> batch[i] != batch[j]
      ensures forall k :: k in batch ==> k in s.queue
    {
      batch := [];
      var rest := s.queue;
      while rest != {} && |batch| < 16
        invariant |batch| <= 16 && (batch == [] ==> rest == s.queue)
        invariant rest <= s.queue && forall k :: k in batch ==> k in s.queue && k !in rest
        invariant forall i, j :: 0 <= i < j < |batch| ==> batch[i] != batch[j]
      {
        var k :| k in rest;
        batch, rest := batch + [k], rest - {k};
      }
    }

    /**
      Collection converges: once all other work has ended, any passes that fail at will, and then
      passes that do not, leave the queue empty. Exactly the referenced objects are left if and only if
      none was leaked before; with an insert that holds the record, none ever is.
     */
    method CleanupLoop(me: nat, troubled: seq<Pass>)
      requires Valid() && s.procs == map[]
      modifies this
      ensures Valid() && s.procs == map[] && s.queue == {} && s.db.rows == old(s.db.rows)
      ensures forall k :: k in s.db.objects <==> k in old(s.db.objects) && (Live(s.db.rows, k) || k !in old(s.queue))
      ensures (forall k :: k in s.db.objects <==> Live(s.db.rows, k)) <==> BlobLeak.NoLeak(old(s))
      ensures origin.holdRecords ==> forall k :: k in s.db.objects <==> Live(s.db.rows, k)
    {
      hide Inv, Init, Run, After, Mine, Live, BlobLeak.NoLeak;
      ghost var before := log;
      assert log == before + [];
      if origin.holdRecords { BlobLeak.HoldingNeverLeaks(origin, log); }
      for i := 0 to |troubled|
        invariant Valid() && s.procs == map[] && before <= log && OnlyCleanup(log, |before|)
      {
        var _ := RunPass(me, troubled[i]);
      }
      while s.queue != {}
        invariant Valid() && s.procs == map[] && before <= log && OnlyCleanup(log, |before|)
        decreases s.queue
      {
        var _ := RunPass(me, Pass(_ => Deletes, _ => false, Granted));
      }
      assert before + log[|before|..] == log;
      RunSplit(origin, before, log[|before|..]);
      BlobRace.CollectionIsExactIff(origin, before, log[|before|..]);
    }

    /** One pass over the queue, with nobody else around. */
    method RunPass(me: nat, pass: Pass) returns (processed: Option<nat>)
      requires Valid() && s.procs == map[]
      modifies this
      ensures Valid() && s.procs == map[] && old(log) <= log && OnlyCleanup(log, |old(log)|)
      ensures (forall n :: pass.storage(n).Deletes? && !pass.fails(n)) && pass.answer.Granted? && old(s.queue) != {} ==>
                s.queue < old(s.queue)
    {
      hide Inv, Init, Run, After, Mine, Enabled, Next, Unreferenced, Collected;
      var batch := PickBatch();
      ghost var before := s;
      var quiet: nat -> seq<Action> := _ => [];
      assert Silent(quiet);
      processed := CleanupOnce(me, batch, pass.storage, quiet, pass.fails, pass.answer);
      assert s.procs.Keys == s.procs.Keys - {me} == {};
      assert batch != [] ==> batch[0] in before.queue && batch[0] in Elems(batch);
    }

    method StartCleanup(me: nat, batch: seq<Key>)
      requires Valid() && CanClaim(s, me, batch)
      modifies this
      ensures old(log) <= log && CleaningAt(me, batch, 0, Scan) && OnlyMe(me, old(s), |old(log)|)
      ensures old(s.procs) == map[] ==> s == Swept(old(s), me, batch, 0)
    {
      Perform(Claim(me, batch));
      ghost var start := old(s);
      assert Unreferenced(start.db.rows, batch[..0]) == {} && Elems(batch[..0]) == {};
      assert start.db.objects - {} == start.db.objects;
      assert start.procs == map[] ==> s.procs == Swept(start, me, batch, 0).procs;
    }
  }

  function From<T>(f: nat -> T, k: nat): nat -> T {
    (n: nat) => f(k + n)
  }

  ghost predicate Fails(fails: nat -> bool) {
    exists n :: fails(n)
  }

  ghost predicate Silent(env: nat -> seq<Action>) {
    forall n :: env(n) == []
  }

  lemma SilentAt(env: nat -> seq<Action>, n: nat)
    ensures Silent(env) ==> env(n) == []
  {
  }

  /** Nobody else acts, and nothing fails. */
  ghost predicate Undisturbed(env: nat -> seq<Action>, fails: nat -> bool) {
    forall n :: env(n) == [] && !fails(n)
  }

  lemma Quiet(env: nat -> seq<Action>, fails: nat -> bool, n: nat)
    ensures Undisturbed(env, fails) ==> env(n) == [] && !fails(n)
    ensures Silent(env) ==> env(n) == []
    ensures fails(n) ==> Fails(fails)
  {
  }

  lemma Later(env: nat -> seq<Action>, fails: nat -> bool, k: nat)
    ensures Undisturbed(env, fails) ==> Undisturbed(From(env, k), From(fails, k))
    ensures Silent(env) ==> Silent(From(env, k))
    ensures Fails(From(fails, k)) ==> Fails(fails)
  {
    if Undisturbed(env, fails) {
      forall n ensures From(env, k)(n) == [] && !From(fails, k)(n) { assert env(k + n) == [] && !fails(k + n); }
    }
    if Fails(From(fails, k)) {
      var n :| From(fails, k)(n);
      assert fails(k + n);
    }
  }

  ghost predicate Publishes(db: Stores, r: Response, cell: Cell)
    requires r.Found?
  {
    r.descriptor.key.cell == cell && r.descriptor.key in db.minted
    && db.minted[r.descriptor.key] == Publication(r.descriptor, r.bytes)
  }

  lemma KeyOfCell(s: State, cell: Cell)
    requires Inv(s) && HasBlob(s.db.rows, cell)
    ensures CellValue(s.db.rows, cell).value.descriptor.key.cell == cell
  {
    assert CellOk(s.db, cell.at, cell.column, CellValue(s.db.rows, cell).value.descriptor);
  }

  /** With no other process, a download of the cell's own descriptor is never refused. */
  lemma LoneDownloadProceeds(s: State, me: nat, d: Descriptor)
    requires Inv(s) && Downloads(s, me) && s.procs.Keys == {me} && TaskAt(s, me).tries < 4
    requires CellValue(s.db.rows, TaskAt(s, me).cell) == Some(Blob(d))
    ensures TaskAt(s, me).stage == Seen(d) ==> Enabled(s, CheckOwner(me))
    ensures TaskAt(s, me).stage == Owned(d) ==> Enabled(s, LockShared(me))
    ensures TaskAt(s, me).stage == Protected(d) ==> Enabled(s, Recheck(me))
  {
    KeyOfCell(s, TaskAt(s, me).cell);
    assert CellOk(s.db, TaskAt(s, me).cell.at, TaskAt(s, me).cell.column, d);
  }

  lemma SharedLockBlocked(s: State, me: nat)
    requires Downloads(s, me) && TaskAt(s, me).stage.Owned? && !Enabled(s, LockShared(me))
    ensures !NotExclusive(s, me, TaskAt(s, me).stage.descriptor.key)
  {
  }

  lemma ProtectedIsStored(s: State, me: nat)
    requires Inv(s) && Downloads(s, me) && (TaskAt(s, me).stage.Valid? || TaskAt(s, me).stage.Got?)
    ensures var k := TaskAt(s, me).stage.descriptor.key;
            && k in s.db.objects && k in s.db.minted
            && s.db.minted[k] == Publication(TaskAt(s, me).stage.descriptor, s.db.objects[k])
  {
    assert ProcOk(s.db, s.procs[me]);
  }

  /** The worker's next action needs nothing of the other processes. */
  predicate OwnPlace(t: Task, a: Action) {
    t.Cleanup? &&
    match a
    case TryLock(_) => t.phase.Scan? && t.next < |t.batch|
    case Check(_) => t.phase.Locked? && t.next < |t.batch|
    case DeleteObject(_) => t.phase.Condemned? && t.next < |t.batch|
    case DeleteFails(_, _) => t.phase.Condemned? && t.next < |t.batch|
    case Forget(_) => t.phase.Deleted? && t.next < |t.batch|
    case Settle(_) => (t.phase.Kept? || t.phase.Forgotten?) && t.next < |t.batch|
    case Commit(_) => t.phase.Scan? && t.next == |t.batch|
    case _ => false
  }

  lemma OwnFrame(x: State, me: nat, a: Action)
    requires ActsFor(a, me) && me in x.procs && OwnPlace(TaskAt(x, me), a)
    ensures Enabled(x, a) && BlobRace.CleanupAction(a) && BlobRace.CleanupAction(Rollback(me))
    ensures Next(x, a).procs.Keys - {me} == x.procs.Keys - {me}
  {
    assert Enabled(x, a);
    hide Enabled, Next;
    StepFrame(x, a);
    forall q ensures q in Next(x, a).procs.Keys - {me} <==> q in x.procs.Keys - {me} { }
  }

  lemma TryLockMoves(x: State, me: nat)
    requires CleansIn(x, me, Scan)
    ensures Enabled(x, TryLock(me)) && Next(x, TryLock(me)) == DoTryLock(x, me)
    ensures me in DoTryLock(x, me).procs
    ensures TaskAt(DoTryLock(x, me), me) == InPhase(TaskAt(x, me), Locked) ||
            TaskAt(DoTryLock(x, me), me) == NextJob(TaskAt(x, me))
    ensures KeyFree(x, me, Job(x, me)) ==> TaskAt(DoTryLock(x, me), me).phase.Locked?
    ensures x.procs.Keys == {me} ==> KeyFree(x, me, Job(x, me))
  {
  }

  lemma CheckMoves(x: State, me: nat)
    requires CleansIn(x, me, Locked)
    ensures Enabled(x, Check(me)) && Next(x, Check(me)) == DoCheck(x, me)
    ensures me in DoCheck(x, me).procs
    ensures TaskAt(DoCheck(x, me), me) == InPhase(TaskAt(x, me), Kept) ||
            TaskAt(DoCheck(x, me), me) == InPhase(TaskAt(x, me), Condemned)
  {
  }

  lemma DeleteMoves(x: State, me: nat)
    requires CleansIn(x, me, Condemned)
    ensures Enabled(x, DeleteObject(me)) && Next(x, DeleteObject(me)) == DoDeleteObject(x, me)
    ensures me in DoDeleteObject(x, me).procs && TaskAt(DoDeleteObject(x, me), me) == InPhase(TaskAt(x, me), Deleted)
  {
  }

  lemma DeleteFailsMoves(x: State, me: nat, lost: bool)
    requires CleansIn(x, me, Condemned)
    ensures Enabled(x, DeleteFails(me, lost)) && Next(x, DeleteFails(me, lost)) == DoDeleteFails(x, me, lost)
    ensures me in DoDeleteFails(x, me, lost).procs && TaskAt(DoDeleteFails(x, me, lost), me) == NextJob(TaskAt(x, me))
  {
  }

  lemma ForgetMoves(x: State, me: nat)
    requires CleansIn(x, me, Deleted)
    ensures Enabled(x, Forget(me)) && Next(x, Forget(me)) == DoForget(x, me)
    ensures me in DoForget(x, me).procs && TaskAt(DoForget(x, me), me) == InPhase(TaskAt(x, me), Forgotten)
  {
  }

  lemma SettleMoves(x: State, me: nat)
    requires CleansIn(x, me, Kept) || CleansIn(x, me, Forgotten)
    ensures Enabled(x, Settle(me)) && Next(x, Settle(me)) == DoSettle(x, me)
    ensures me in DoSettle(x, me).procs && TaskAt(DoSettle(x, me), me) == NextJob(TaskAt(x, me))
  {
  }

  // What the worker's stages do when it is alone and the store obeys.

  function Judged(s: State, me: nat): State
    requires Cleans(s, me)
  {
    var txn := s.procs[me].txn;
    Become(s, me, Proc(InPhase(TaskAt(s, me), if Referenced(s.db.rows, Job(s, me)) then Kept else Condemned),
                       txn.(exclusive := txn.exclusive + {Job(s, me)})))
  }

  function Discarded(s: State, me: nat): State
    requires Cleans(s, me)
  {
    var txn := s.procs[me].txn;
    Become(s, me, Proc(InPhase(TaskAt(s, me), Forgotten), txn.(forgotten := txn.forgotten + {Job(s, me)})))
      .(db := Without(s.db, Job(s, me)))
  }

  lemma JudgedIs(x: State, me: nat)
    requires CleansIn(x, me, Scan)
    ensures var locked := DoTryLock(x, me);
            KeyFree(x, me, Job(x, me)) ==> Cleans(locked, me) && DoCheck(locked, me) == Judged(x, me)
  {
    hide Referenced, KeyFree;
  }

  lemma DiscardedIs(x: State, me: nat)
    requires CleansIn(x, me, Condemned)
    ensures Cleans(DoDeleteObject(x, me), me) && DoForget(DoDeleteObject(x, me), me) == Discarded(x, me)
  {
  }

  function Cleaned(s: State, me: nat): State
    requires Cleans(s, me)
  {
    var judged := Judged(s, me);
    DoSettle(if Referenced(s.db.rows, Job(s, me)) then judged else Discarded(judged, me), me)
  }

  lemma JudgedCleans(s: State, me: nat)
    requires Cleans(s, me)
    ensures var judged := Judged(s, me);
            && me in judged.procs && Cleans(judged, me) && Cleans(Discarded(judged, me), me)
            && TaskAt(judged, me).phase == if Referenced(s.db.rows, Job(s, me)) then Kept else Condemned
  {
  }

  function Elems(keys: seq<Key>): set<Key> {
    set k | k in keys
  }

  function Unreferenced(rows: Rows, keys: seq<Key>): set<Key> {
    set k | k in keys && !Referenced(rows, k)
  }

  function Stripped(db: Stores, keys: set<Key>): Stores {
    db.(objects := db.objects - keys)
  }

  /** The stores with these objects and their ownership records gone. */
  function Collected(db: Stores, keys: set<Key>): Stores {
    db.(objects := db.objects - keys, owners := db.owners - keys)
  }

  /** A lone worker after `i` jobs of its batch. */
  function Swept(s: State, me: nat, batch: seq<Key>, i: nat): State
    requires i <= |batch|
  {
    var seen := Elems(batch[..i]);
    var gone := Unreferenced(s.db.rows, batch[..i]);
    s.(db := Stripped(s.db, gone),
       procs := map[me := Proc(Cleanup(batch, i, Scan),
                               NEW_TXN.(held := Elems(batch), exclusive := seen, forgotten := gone, settled := seen))])
  }

  lemma SweptParts(rows: Rows, objects: map<Key, Bytes>, batch: seq<Key>, i: nat)
    requires i < |batch|
    ensures var gone := Unreferenced(rows, batch[..i]);
            && Unreferenced(rows, batch[..i + 1]) == (if Referenced(rows, batch[i]) then gone else gone + {batch[i]})
            && objects - (gone + {batch[i]}) == objects - gone - {batch[i]}
    ensures Elems(batch[..i + 1]) == Elems(batch[..i]) + {batch[i]}
  {
    hide Referenced;
    assert batch[..i + 1] == batch[..i] + [batch[i]];
  }

  /** The worker's transaction once it has seen some keys and found some of them unreferenced. */
  function SweptTxn(batch: seq<Key>, seen: set<Key>, gone: set<Key>): Txn {
    NEW_TXN.(held := Elems(batch), exclusive := seen, forgotten := gone, settled := seen)
  }

  lemma CleanedIs(s: State, me: nat, batch: seq<Key>, i: nat, seen: set<Key>, gone: set<Key>)
    requires s.procs == map[me := Proc(Cleanup(batch, i, Scan), SweptTxn(batch, seen, gone))] && i < |batch|
    ensures var k := batch[i];
            var lost := if Referenced(s.db.rows, k) then gone else gone + {k};
            Cleaned(s, me) == s.(db := if Referenced(s.db.rows, k) then s.db else Without(s.db, k),
                                 procs := map[me := Proc(Cleanup(batch, i + 1, Scan),
                                                         SweptTxn(batch, seen + {k}, lost))])
  {
    hide Referenced, Elems;
  }

  lemma SweptAlone(s: State, me: nat, batch: seq<Key>, i: nat)
    requires i <= |batch|
    ensures Swept(s, me, batch, i).procs.Keys == {me}
  {
  }

  lemma SweptNext(s: State, me: nat, batch: seq<Key>, i: nat)
    requires i < |batch|
    ensures Cleaned(Swept(s, me, batch, i), me) == Swept(s, me, batch, i + 1)
  {
    hide Referenced, Unreferenced, Elems, Cleaned;
    SweptParts(s.db.rows, s.db.objects, batch, i);
    CleanedIs(Swept(s, me, batch, i), me, batch, i, Elems(batch[..i]), Unreferenced(s.db.rows, batch[..i]));
  }

  lemma CleanupCommits(x: State, s: State, me: nat, batch: seq<Key>)
    requires me in x.procs && TaskAt(x, me) == Cleanup(batch, |batch|, Scan)
    ensures Enabled(x, Commit(me)) && me !in Next(x, Commit(me)).procs
    ensures x == Swept(s, me, batch, |batch|) ==>
              && Next(x, Commit(me)).queue == s.queue - Elems(batch)
              && Next(x, Commit(me)).db == Collected(s.db, Unreferenced(s.db.rows, batch))
              && Next(x, Commit(me)).procs == map[] && Next(x, Commit(me)).holdRecords == s.holdRecords
  {
    assert batch[..|batch|] == batch;
    if x == Swept(s, me, batch, |batch|) {
      var gone := Unreferenced(s.db.rows, batch);
      assert Remaining(x.db.owners, x.procs[me].txn) == s.db.owners - gone;
    }
  }

  ghost predicate Alone(s: State, env: nat -> seq<Action>) {
    s.procs == map[] && forall n :: env(n) == []
  }

  predicate DownloadStep(a: Action) {
    a.ReadCell? || a.CheckOwner? || a.LockShared? || a.Recheck? || a.GetObject?
  }

  /** The download's task after its action. */
  function Moved(s: State, t: Task, a: Action): Task {
    if !t.Download? then t
    else
      match a
      case ReadCell(_) =>
        if HasBlob(s.db.rows, t.cell) then Reading(t, Seen(CellValue(s.db.rows, t.cell).value.descriptor)) else t
      case CheckOwner(_) => if t.stage.Seen? then Reading(t, Owned(t.stage.descriptor)) else t
      case LockShared(_) => if t.stage.Owned? then Reading(t, Protected(t.stage.descriptor)) else t
      case Recheck(_) =>
        if !HasBlob(s.db.rows, t.cell) || !t.stage.Protected? then t
        else
          var current := CellValue(s.db.rows, t.cell).value.descriptor;
          if current == t.stage.descriptor then Reading(t, Valid(current))
          else Download(t.cell, t.tries + 1, Seen(current))
      case _ =>
        if t.stage.Valid? && t.stage.descriptor.key in s.db.objects
        then Reading(t, Got(t.stage.descriptor, s.db.objects[t.stage.descriptor.key])) else t
  }

  lemma MovesTo(s: State, me: nat, t: Task, a: Action)
    requires Inv(s) && Enabled(s, a) && Downloads(s, me) && TaskAt(s, me) == t && ActsFor(a, me) && DownloadStep(a)
    ensures Downloads(Next(s, a), me) && TaskAt(Next(s, a), me) == Moved(s, t, a)
    ensures Next(s, a).db == s.db && Next(s, a).procs.Keys == s.procs.Keys
    ensures a.ReadCell? || a.Recheck? ==> HasBlob(s.db.rows, t.cell)
    ensures a.CheckOwner? ==> t.stage.Seen? && t.stage.descriptor.key.cell == t.cell
    ensures a.GetObject? ==> t.stage.Valid? && t.stage.descriptor.key in s.db.objects
  {
    hide RowsOk, ProcsOk, AllCompatible, RowFree, KeyFree, NotExclusive, RecordUnlocked, MayQueue, Retired;
    hide RetiredBy, Image, WriteOf, Edited, Fresh, Minted, Live, HoldsKey, Referenced, IsBlobColumn;
    hide ReadyToWrite, Applied, Remaining, TouchesNoBlob, CurrentKey;
  }

  /** One more of the upload's own steps. */
  lemma OwnStep(s: State, me: nat, upload: Task, n: nat)
    requires Inv(s) && Uploads(s, me) && upload.Upload? && TaskAt(s, me) == AtStep(upload, n) && n < PROMOTED
    requires Enabled(s, UploadOrder(me)[n])
    ensures Uploads(Next(s, UploadOrder(me)[n]), me)
    ensures TaskAt(Next(s, UploadOrder(me)[n]), me) == AtStep(upload, n + 1)
  {
    hide Inv, RowFree, KeyFree, NotExclusive, RecordUnlocked, MayQueue, Retired, RetiredBy, Image, WriteOf;
    hide Edited, Fresh, Minted, Live, HoldsKey, Referenced, IsBlobColumn, ReadyToWrite, Applied, Remaining;
    hide TouchesNoBlob;
  }

  lemma OwnCommit(s: State, me: nat, upload: Task)
    requires Inv(s) && Uploads(s, me) && upload.Upload? && TaskAt(s, me) == AtStep(upload, PROMOTED)
    ensures Enabled(s, Commit(me))
    ensures var t := Next(s, Commit(me));
            && me !in t.procs
            && CellValue(t.db.rows, upload.descriptor.key.cell) == Some(Blob(upload.descriptor))
            && upload.descriptor.key in t.db.objects && t.db.objects[upload.descriptor.key] == upload.bytes
  {
    assert ProcOk(s.db, s.procs[me]);
  }

  lemma OwnChange(s: State, me: nat, t: Task, n: nat)
    requires Changes(t) && me in s.procs && TaskAt(s, me) == AtStep(t, n) && n < 2
    requires Enabled(s, ChangeOrder(me)[n])
    ensures me in Next(s, ChangeOrder(me)[n]).procs && TaskAt(Next(s, ChangeOrder(me)[n]), me) == AtStep(t, n + 1)
  {
    hide RowFree, MayQueue, Retired, RetiredBy, Image, WriteOf, Edited, IsBlobColumn, TouchesNoBlob;
  }

  lemma ShownClear(db: Stores, t: Task)
    requires t.Clear? && RowOf(t) in db.rows && ReadyToWrite(db.blobColumns, db.rows, AtStep(t, ROW_LOCKED))
    ensures Shown(t, db, Applied(db.rows, WriteOf(db.blobColumns, db.rows, t)))
  {
    hide IsBlobColumn;
  }

  lemma ShownDrop(db: Stores, t: Task)
    requires t.Drop? && RowOf(t) in db.rows
    ensures Shown(t, db, Applied(db.rows, WriteOf(db.blobColumns, db.rows, t)))
  {
  }

  lemma ShownEdit(db: Stores, t: Task)
    requires t.Edit? && t.at in db.rows && TouchesNoBlob(db.blobColumns, t.at.table, t.data)
    requires forall c :: c in db.rows[t.at] && db.rows[t.at][c].Blob? ==> IsBlobColumn(db.blobColumns, t.at.table, c)
    ensures Shown(t, db, Applied(db.rows, WriteOf(db.blobColumns, db.rows, t)))
  {
    hide IsBlobColumn;
  }

  lemma OwnChangeCommit(s: State, me: nat, t: Task)
    requires Inv(s) && Changes(t) && me in s.procs && TaskAt(s, me) == AtStep(t, WRITTEN) && Enabled(s, Commit(me))
    ensures me !in Next(s, Commit(me)).procs && Shown(t, s.db, Next(s, Commit(me)).db.rows)
  {
    StagedChange(s, me, t);
    var at := RowOf(t);
    BlobCellsStay(s, at);
    hide Shown, Inv, ProcOk, Edited, Applied, IsBlobColumn, WriteOf, ReadyToWrite;
    match t
    case Clear(_, _) => ShownClear(s.db, t);
    case Drop(_, _) => ShownDrop(s.db, t);
    case Edit(_, _, _, _) => ShownEdit(s.db, t);
  }

  lemma StagedChange(s: State, me: nat, t: Task)
    requires Inv(s) && Changes(t) && me in s.procs && TaskAt(s, me) == AtStep(t, WRITTEN)
    ensures RowOf(t) in s.db.rows && s.procs[me].txn.write == WriteOf(s.db.blobColumns, s.db.rows, t)
    ensures ReadyToWrite(s.db.blobColumns, s.db.rows, AtStep(t, ROW_LOCKED))
    ensures t.Edit? ==> TouchesNoBlob(s.db.blobColumns, t.at.table, t.data)
  {
    assert ProcOk(s.db, s.procs[me]);
    hide RowsOk, StoresOk, ProcsOk, AllCompatible, Edited, TouchesNoBlob;
  }

  lemma BlobCellsStay(s: State, at: RowId)
    requires Inv(s) && at in s.db.rows
    ensures forall c :: c in s.db.rows[at] && s.db.rows[at][c].Blob? ==> IsBlobColumn(s.db.blobColumns, at.table, c)
  {
    forall c | c in s.db.rows[at] && s.db.rows[at][c].Blob? ensures IsBlobColumn(s.db.blobColumns, at.table, c) {
      assert CellOk(s.db, at, c, s.db.rows[at][c].descriptor);
    }
  }
}
