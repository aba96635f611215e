/**
  The row-level-security identity over sessions, transactions and pooled connections: a setting
  with a session-level and a transaction-local value, re-applied at every transaction's start.
 */
module RlsIdentity {
  import opened Basics

  type ConnId = nat
  type SessionId = nat

  /** What the open transaction set: a session-level value it will leave behind, and a local one it will not. */
  datatype Txn = Txn(level: Option<string>, local: Option<string>)

  datatype Conn = Conn(base: string, txn: Option<Txn>)

  /** `info` is the stashed identity; `on` the connection of the session's open transaction. */
  datatype Session = Session(info: Option<string>, on: Option<ConnId>)

  datatype World = World(conns: map<ConnId, Conn>, sessions: map<SessionId, Session>)

  /**
    `conn` is the connection the pool hands out should a transaction have to begin; `cleared` whether
    the checkout hook reached that one.
   */
  datatype Action =
    | Start(session: SessionId)
    | ClearIdle(conn: ConnId)
    | SetContext(session: SessionId, uid: string, conn: ConnId, cleared: bool)
    | Reapply(session: SessionId, conn: ConnId, cleared: bool)
    | Statement(session: SessionId, conn: ConnId, cleared: bool)
    | Commit(session: SessionId)
    | Rollback(session: SessionId)

  // ---------- the setting ----------

  /** What `current_setting` returns on the connection. */
  function Effective(c: Conn): string {
    if c.txn.None? then c.base
    else if c.txn.value.local.Some? then c.txn.value.local.value
    else if c.txn.value.level.Some? then c.txn.value.level.value
    else c.base
  }

  function SetConfig(c: Conn, v: string, isLocal: bool): Conn {
    match c.txn
    case None => if isLocal then c else c.(base := v)
    case Some(t) => c.(txn := Some(if isLocal then t.(local := Some(v)) else Txn(Some(v), None)))
  }

  /** The local value ends with the transaction; a session-level one stays if it commits. */
  function EndTxn(c: Conn, commit: bool): Conn {
    Conn(if commit && c.txn.Some? && c.txn.value.level.Some? then c.txn.value.level.value else c.base, None)
  }

  function Truthy(info: Option<string>): bool {
    info.Some? && info.value != ""
  }

  // ---------- the sessions ----------

  /** A transaction begins unless one is open: the pool's hook may clear, the session's hook re-applies. */
  function Begun(w: World, s: SessionId, c: ConnId, cleared: bool): World
    requires s in w.sessions && (w.sessions[s].on.None? ==> c in w.conns)
  {
    if w.sessions[s].on.Some? then w
    else
      var begun := w.conns[c].(txn := Some(Txn(None, None)));
      var stripped := if cleared then SetConfig(begun, "", false) else begun;
      var info := w.sessions[s].info;
      var applied := if Truthy(info) then SetConfig(stripped, info.value, true) else stripped;
      World(w.conns[c := applied], w.sessions[s := Session(info, Some(c))])
  }

  /** `set_config` with is_local, on the session's transaction. */
  function SetLocal(w: World, s: SessionId, uid: string): World
    requires s in w.sessions && w.sessions[s].on.Some? && w.sessions[s].on.value in w.conns
  {
    var c := w.sessions[s].on.value;
    w.(conns := w.conns[c := SetConfig(w.conns[c], uid, true)])
  }

  function Ended(w: World, s: SessionId, commit: bool): World
    requires s in w.sessions && (w.sessions[s].on.Some? ==> w.sessions[s].on.value in w.conns)
  {
    if w.sessions[s].on.None? then w
    else
      var c := w.sessions[s].on.value;
      World(w.conns[c := EndTxn(w.conns[c], commit)], w.sessions[s := w.sessions[s].(on := None)])
  }

  predicate CanBegin(w: World, s: SessionId, c: ConnId) {
    && s in w.sessions
    && (w.sessions[s].on.Some? ==> w.sessions[s].on.value in w.conns)
    && (w.sessions[s].on.None? ==> c in w.conns && w.conns[c].txn.None?)
  }

  predicate Enabled(w: World, a: Action) {
    match a
    case Start(s) => s !in w.sessions
    case ClearIdle(c) => c in w.conns && w.conns[c].txn.None?
    case SetContext(s, _, c, _) => CanBegin(w, s, c)
    case Reapply(s, c, _) => CanBegin(w, s, c)
    case Statement(s, c, _) => CanBegin(w, s, c)
    case Commit(s) => s in w.sessions && (w.sessions[s].on.Some? ==> w.sessions[s].on.value in w.conns)
    case Rollback(s) => s in w.sessions && (w.sessions[s].on.Some? ==> w.sessions[s].on.value in w.conns)
  }

  function Stashed(w: World, s: SessionId, uid: string): World
    requires s in w.sessions
  {
    w.(sessions := w.sessions[s := w.sessions[s].(info := Some(uid))])
  }

  function Step(w: World, a: Action): World
    requires Enabled(w, a)
  {
    match a
    case Start(s) => w.(sessions := w.sessions[s := Session(None, None)])
    case ClearIdle(c) => w.(conns := w.conns[c := SetConfig(w.conns[c], "", false)])
    case SetContext(s, uid, c, cleared) => SetLocal(Begun(Stashed(w, s, uid), s, c, cleared), s, uid)
    case Reapply(s, c, cleared) =>
      if Truthy(w.sessions[s].info) then SetLocal(Begun(w, s, c, cleared), s, w.sessions[s].info.value) else w
    case Statement(s, c, cleared) => Begun(w, s, c, cleared)
    case Commit(s) => Ended(w, s, true)
    case Rollback(s) => Ended(w, s, false)
  }

  // ---------- the program ----------

  /** The application's engine: its pool of connections and its sessions. */
  class Engine {
    var w: World

    constructor (conns: set<ConnId>)
      ensures w == World(map c | c in conns :: Conn("", None), map[]) && Valid(w)
    {
      w := World(map c | c in conns :: Conn("", None), map[]);
    }

    /** A new session has no identity, and the others keep theirs. */
    method OpenSession(s: SessionId)
      requires Valid(w) && Enabled(w, Start(s))
      modifies this
      ensures w == Step(old(w), Start(s)) && Valid(w)
      ensures Own(w, s) == "" && OthersKeep(old(w), w, s)
    {
      hide Valid;
      StepKeepsValid(w, Start(s));
      w := w.(sessions := w.sessions[s := Session(None, None)]);
    }

    method ClearRlsIdentity(c: ConnId)
      requires c in w.conns
      modifies this
      ensures w == old(w).(conns := old(w).conns[c := SetConfig(old(w).conns[c], "", false)])
    {
      w := w.(conns := w.conns[c := SetConfig(w.conns[c], "", false)]);
    }

    method ApplyRlsIdentity(s: SessionId, c: ConnId)
      requires s in w.sessions && c in w.conns
      modifies this
      ensures w == if Truthy(old(w).sessions[s].info)
                   then var identity := old(w).sessions[s].info.value;
                        old(w).(conns := old(w).conns[c := SetConfig(old(w).conns[c], identity, true)])
                   else old(w)
    {
      var info := w.sessions[s].info;
      if info.Some? && info.value != "" {
        w := w.(conns := w.conns[c := SetConfig(w.conns[c], info.value, true)]);
      }
    }

    /**
      Afterwards a transaction is open that shows the session's own identity, whatever the connection
      served before.
     */
    method AutoBegin(s: SessionId, c: ConnId, cleared: bool)
      requires Valid(w) && CanBegin(w, s, c)
      modifies this
      ensures w == Begun(old(w), s, c, cleared) && Valid(w)
      ensures Shows(w, s, Own(old(w), s)) && OthersKeep(old(w), w, s)
    {
      hide Valid, OthersKeep;
      BegunKeepsValid(w, s, c, cleared);
      BegunShows(w, s, c, cleared);
      Begin(s, c, cleared);
    }

    method Begin(s: SessionId, c: ConnId, cleared: bool)
      requires CanBegin(w, s, c)
      modifies this
      ensures w == Begun(old(w), s, c, cleared)
    {
      if w.sessions[s].on.None? {
        w := w.(conns := w.conns[c := w.conns[c].(txn := Some(Txn(None, None)))]);
        if cleared { ClearRlsIdentity(c); }
        ApplyRlsIdentity(s, c);
        w := w.(sessions := w.sessions[s := w.sessions[s].(on := Some(c))]);
      }
    }

    /**
      Afterwards the session's open transaction shows `uid`, and so will its later ones; the others show
      what they did.
     */
    method SetRlsContext(s: SessionId, uid: string, c: ConnId, cleared: bool)
      requires Valid(w) && Enabled(w, SetContext(s, uid, c, cleared))
      modifies this
      ensures w == Step(old(w), SetContext(s, uid, c, cleared)) && Valid(w)
      ensures Shows(w, s, uid) && Own(w, s) == uid && OthersKeep(old(w), w, s)
    {
      hide Valid, OthersKeep;
      StepKeepsValid(w, SetContext(s, uid, c, cleared));
      SetShows(w, s, uid, c, cleared);
      w := w.(sessions := w.sessions[s := w.sessions[s].(info := Some(uid))]);
      Begin(s, c, cleared);
      var on := w.sessions[s].on.value;
      w := w.(conns := w.conns[on := SetConfig(w.conns[on], uid, true)]);
    }

    /** A stashed identity shows in the open transaction afterwards; without one nothing happens. */
    method ReapplyRlsContext(s: SessionId, c: ConnId, cleared: bool)
      requires Valid(w) && Enabled(w, Reapply(s, c, cleared))
      modifies this
      ensures w == Step(old(w), Reapply(s, c, cleared)) && Valid(w)
      ensures Own(old(w), s) != "" ==> Shows(w, s, Own(old(w), s))
      ensures Own(old(w), s) == "" ==> w == old(w)
      ensures Own(w, s) == Own(old(w), s) && OthersKeep(old(w), w, s)
    {
      hide Valid, OthersKeep;
      StepKeepsValid(w, Reapply(s, c, cleared));
      ReapplyShows(w, s, c, cleared);
      var info := w.sessions[s].info;
      if info.Some? && info.value != "" {
        Begin(s, c, cleared);
        var on := w.sessions[s].on.value;
        w := w.(conns := w.conns[on := SetConfig(w.conns[on], info.value, true)]);
      }
    }

    /** A statement sees exactly the identity its own session stashed, or none. */
    method Execute(s: SessionId, c: ConnId, cleared: bool) returns (identity: string)
      requires Valid(w) && Enabled(w, Statement(s, c, cleared))
      modifies this
      ensures w == Step(old(w), Statement(s, c, cleared)) && Valid(w)
      ensures identity == Own(old(w), s)
    {
      hide Valid;
      StepKeepsValid(w, Statement(s, c, cleared));
      AutoBegin(s, c, cleared);
      SeesOwn(w, s);
      identity := Effective(w.conns[w.sessions[s].on.value]);
    }

    /** The connection is given back without an identity; the session keeps its stash for the next transaction. */
    method End(s: SessionId, commit: bool)
      requires Valid(w) && s in w.sessions
      modifies this
      ensures w == Step(old(w), if commit then Commit(s) else Rollback(s)) && Valid(w)
      ensures old(w).sessions[s].on.Some? ==> Effective(w.conns[old(w).sessions[s].on.value]) == ""
      ensures Own(w, s) == Own(old(w), s) && w.sessions[s].on == None
    {
      EndedKeepsValid(w, s, commit);
      if w.sessions[s].on.Some? {
        var c := w.sessions[s].on.value;
        w := World(w.conns[c := EndTxn(w.conns[c], commit)], w.sessions[s := w.sessions[s].(on := None)]);
      }
    }
  }

  // ---------- what every step keeps ----------

  /** The identity a session stashed; "" is none. */
  function Own(w: World, s: SessionId): string
    requires s in w.sessions
  {
    if w.sessions[s].info.Some? then w.sessions[s].info.value else ""
  }

  /** No session-level identity, now or once the transaction ends. */
  predicate Blank(c: Conn) {
    c.base == "" && (c.txn.Some? ==> c.txn.value.level.None? || c.txn.value.level.value == "")
  }

  ghost predicate Valid(w: World) {
    && (forall c :: c in w.conns ==> Blank(w.conns[c]))
    && (forall s :: s in w.sessions && w.sessions[s].on.Some? ==>
          && w.sessions[s].on.value in w.conns
          && w.conns[w.sessions[s].on.value].txn.Some?
          && Effective(w.conns[w.sessions[s].on.value]) == Own(w, s))
    && (forall s, t :: s in w.sessions && t in w.sessions && w.sessions[s].on.Some? ==>
          w.sessions[s].on == w.sessions[t].on ==> s == t)
  }

  /** The session's transaction is open and shows `identity`. */
  predicate Shows(w: World, s: SessionId, identity: string) {
    && s in w.sessions && w.sessions[s].on.Some? && w.sessions[s].on.value in w.conns
    && Effective(w.conns[w.sessions[s].on.value]) == identity
  }

  /** Every other session is as it was, and its open transaction shows what it did. */
  predicate OthersKeep(v: World, w: World, s: SessionId) {
    forall t :: t in v.sessions && t != s ==>
      && t in w.sessions && w.sessions[t] == v.sessions[t]
      && (v.sessions[t].on.Some? && v.sessions[t].on.value in v.conns ==>
            && v.sessions[t].on.value in w.conns
            && w.conns[v.sessions[t].on.value] == v.conns[v.sessions[t].on.value])
  }

  lemma BegunShows(w: World, s: SessionId, c: ConnId, cleared: bool)
    requires Valid(w) && CanBegin(w, s, c)
    ensures var t := Begun(w, s, c, cleared); Shows(t, s, Own(w, s)) && OthersKeep(w, t, s)
  {
  }

  lemma SetShows(w: World, s: SessionId, uid: string, c: ConnId, cleared: bool)
    requires Valid(w) && CanBegin(w, s, c)
    ensures var t := SetLocal(Begun(Stashed(w, s, uid), s, c, cleared), s, uid);
            Shows(t, s, uid) && Own(t, s) == uid && OthersKeep(w, t, s)
  {
  }

  lemma ReapplyShows(w: World, s: SessionId, c: ConnId, cleared: bool)
    requires Valid(w) && Enabled(w, Reapply(s, c, cleared))
    ensures var t := Step(w, Reapply(s, c, cleared));
            && (Own(w, s) != "" ==> Shows(t, s, Own(w, s)))
            && (Own(w, s) == "" ==> t == w)
            && s in t.sessions && Own(t, s) == Own(w, s) && OthersKeep(w, t, s)
  {
    if Truthy(w.sessions[s].info) {
      StashedAgain(w, s);
      SetShows(w, s, w.sessions[s].info.value, c, cleared);
    }
  }

  lemma SeesOwn(w: World, s: SessionId)
    requires Valid(w) && s in w.sessions && w.sessions[s].on.Some?
    ensures w.sessions[s].on.value in w.conns && Effective(w.conns[w.sessions[s].on.value]) == Own(w, s)
  {
  }

  lemma BegunKeepsValid(w: World, s: SessionId, c: ConnId, cleared: bool)
    requires Valid(w) && CanBegin(w, s, c)
    ensures Valid(Begun(w, s, c, cleared))
  {
  }

  /** Stashing an identity and setting it on the open transaction, which may still show the one before. */
  lemma ContextKeepsValid(w: World, s: SessionId, uid: string, c: ConnId, cleared: bool)
    requires Valid(w) && CanBegin(w, s, c)
    ensures Valid(SetLocal(Begun(Stashed(w, s, uid), s, c, cleared), s, uid))
  {
  }

  lemma EndedKeepsValid(w: World, s: SessionId, commit: bool)
    requires Valid(w) && s in w.sessions && (w.sessions[s].on.Some? ==> w.sessions[s].on.value in w.conns)
    ensures Valid(Ended(w, s, commit))
  {
  }

  lemma StepKeepsValid(w: World, a: Action)
    requires Valid(w) && Enabled(w, a)
    ensures Valid(Step(w, a))
  {
    hide Valid, Begun, Ended, Stashed, SetLocal;
    match a
    case Start(s) => StartKeepsValid(w, s);
    case ClearIdle(c) => ClearKeepsValid(w, c);
    case SetContext(s, uid, c, cleared) => ContextKeepsValid(w, s, uid, c, cleared);
    case Reapply(s, c, cleared) =>
      if Truthy(w.sessions[s].info) {
        ContextKeepsValid(w, s, w.sessions[s].info.value, c, cleared);
        assert Stashed(w, s, w.sessions[s].info.value) == w by { StashedAgain(w, s); }
      }
    case Statement(s, c, cleared) => BegunKeepsValid(w, s, c, cleared);
    case Commit(s) => EndedKeepsValid(w, s, true);
    case Rollback(s) => EndedKeepsValid(w, s, false);
  }

  lemma StashedAgain(w: World, s: SessionId)
    requires s in w.sessions && w.sessions[s].info.Some?
    ensures Stashed(w, s, w.sessions[s].info.value) == w
  {
    assert w.sessions[s := w.sessions[s]] == w.sessions;
  }

  lemma StartKeepsValid(w: World, s: SessionId)
    requires Valid(w) && s !in w.sessions
    ensures Valid(w.(sessions := w.sessions[s := Session(None, None)]))
  {
  }

  lemma ClearKeepsValid(w: World, c: ConnId)
    requires Valid(w) && c in w.conns && w.conns[c].txn.None?
    ensures Valid(w.(conns := w.conns[c := SetConfig(w.conns[c], "", false)]))
  {
  }

  // ---------- whole runs ----------

  predicate CanRun(w: World, actions: seq<Action>)
    decreases |actions|
  {
    actions == [] || (Enabled(w, actions[0]) && CanRun(Step(w, actions[0]), actions[1..]))
  }

  function After(w: World, actions: seq<Action>): World
    requires CanRun(w, actions)
    decreases |actions|
  {
    if actions == [] then w else After(Step(w, actions[0]), actions[1..])
  }

  /** The identity a session stashed last in a run, by the run alone. */
  function LastStash(before: string, actions: seq<Action>, s: SessionId): string
    decreases |actions|
  {
    if actions == [] then before
    else
      var a := actions[0];
      var now := if a.SetContext? && a.session == s then a.uid else if a.Start? && a.session == s then "" else before;
      LastStash(now, actions[1..], s)
  }

  function OwnOrNone(w: World, s: SessionId): string {
    if s in w.sessions then Own(w, s) else ""
  }

  lemma StepStashes(w: World, a: Action, s: SessionId)
    requires Enabled(w, a)
    ensures OwnOrNone(Step(w, a), s) == LastStash(OwnOrNone(w, s), [a], s)
    ensures s in w.sessions ==> s in Step(w, a).sessions
  {
    assert [a][1..] == [];
  }

  /**
    Whatever the run, each open transaction shows its own session's last stash, and no connection keeps
    an identity of its own.
   */
  lemma {:induction false} RunShowsOwn(w: World, actions: seq<Action>, s: SessionId)
    requires Valid(w) && CanRun(w, actions)
    ensures var late := After(w, actions);
            && Valid(late)
            && (forall c :: c in late.conns ==> late.conns[c].base == "")
            && (s in late.sessions && late.sessions[s].on.Some? ==>
                  Effective(late.conns[late.sessions[s].on.value]) == LastStash(OwnOrNone(w, s), actions, s))
    decreases |actions|
  {
    if actions == [] {
    } else {
      hide Valid, Step, Enabled;
      var a := actions[0];
      StepKeepsValid(w, a);
      StepStashes(w, a, s);
      assert [a][1..] == [];
      RunShowsOwn(Step(w, a), actions[1..], s);
    }
  }

  /** The connection is not to blame: an idle one carries no identity, whoever used it before. */
  lemma IdleIsBlank(w: World, actions: seq<Action>, c: ConnId)
    requires Valid(w) && CanRun(w, actions) && c in After(w, actions).conns && After(w, actions).conns[c].txn.None?
    ensures Effective(After(w, actions).conns[c]) == ""
  {
    hide Valid, Step, Enabled, CanRun, After;
    RunShowsOwn(w, actions, 0);
  }

  /** Set at session level instead, an identity outlives its transaction and the next session's transaction shows it. */
  lemma SessionLevelWouldLeak(c: Conn, uid: string)
    requires c.txn.None? && uid != ""
    ensures var leaked := EndTxn(SetConfig(c.(txn := Some(Txn(None, None))), uid, false), true);
            Effective(leaked.(txn := Some(Txn(None, None)))) == uid
  {
  }
}
