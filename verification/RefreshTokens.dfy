/**
  Rotating refresh tokens: families, replay and logout. Every request is one step; a request that
  fails before its commit changes nothing.
 */
module RefreshTokens {
  import opened Basics

  type Instant = int
  type Hash = string

  /** A stored token; families and users are identifiers. */
  datatype Token = Token(family: nat, user: nat, session: Option<nat>, issued: Instant, expires: Instant,
                         revoked: Option<Instant>, replaced: Option<Instant>)

  type Rows = map<Hash, Token>

  datatype Event =
    | Login(newest: Hash, family: nat, user: nat, now: Instant, ttl: nat)
    | Refresh(presented: Hash, now: Instant, newest: Hash, later: Instant, ttl: nat)
    | Logout(presented: Hash, now: Instant)

  // ---------- what each request does to the rows ----------

  /** The only tokens that can be exchanged. */
  predicate Live(rows: Rows, h: Hash, now: Instant) {
    h in rows && rows[h].revoked.None? && rows[h].expires > now
  }

  function Revoke(t: Token, now: Instant): Token {
    if t.revoked.None? then t.(revoked := Some(now)) else t
  }

  function RevokeFamily(rows: Rows, family: nat, now: Instant): Rows {
    map h | h in rows :: if rows[h].family == family then Revoke(rows[h], now) else rows[h]
  }

  function Rotate(rows: Rows, h: Hash, now: Instant, newest: Hash, later: Instant, ttl: nat): Rows
    requires h in rows
  {
    var t := rows[h];
    rows[h := t.(revoked := Some(now), replaced := Some(now))]
        [newest := Token(t.family, t.user, t.session, later, later + ttl, None, None)]
  }

  predicate CanStep(rows: Rows, e: Event) {
    match e
    case Login(newest, family, _, _, _) => newest !in rows && forall h :: h in rows ==> rows[h].family != family
    case Refresh(_, _, newest, _, _) => newest !in rows
    case Logout(_, _) => true
  }

  function Step(rows: Rows, e: Event): Rows {
    match e
    case Login(newest, family, user, now, ttl) => rows[newest := Token(family, user, None, now, now + ttl, None, None)]
    case Refresh(h, now, newest, later, ttl) =>
      if Live(rows, h, now) then Rotate(rows, h, now, newest, later, ttl)
      else if h in rows then RevokeFamily(rows, rows[h].family, now)
      else rows
    case Logout(h, now) => if h in rows then RevokeFamily(rows, rows[h].family, now) else rows
  }

  // ---------- the endpoints ----------

  datatype Reply = Tokens(user: nat, refreshToken: string) | Status(code: nat)

  class TokenStore {
    var rows: Rows
    const hash: string -> Hash

    constructor (hash: string -> Hash)
      ensures rows == map[] && this.hash == hash
    {
      rows, this.hash := map[], hash;
    }

    method Issue(raw: string, family: nat, user: nat, session: Option<nat>, now: Instant, ttl: nat)
      modifies this`rows
      ensures rows == old(rows)[hash(raw) := Token(family, user, session, now, now + ttl, None, None)]
    {
      rows := rows[hash(raw) := Token(family, user, session, now, now + ttl, None, None)];
    }

    method RevokeAll(presented: string, now: Instant)
      modifies this`rows
      ensures rows == Step(old(rows), Logout(hash(presented), now))
    {
      var h := hash(presented);
      if h in rows {
        rows := RevokeFamily(rows, rows[h].family, now);
      }
    }

    /** A known token's whole family is ended, and every other family is as it was; an unknown token changes nothing. */
    method LogoutRefreshToken(presented: string, now: Instant) returns (r: Reply)
      modifies this`rows
      ensures rows == Step(old(rows), Logout(hash(presented), now)) && r == Status(204)
      ensures rows.Keys == old(rows).Keys
      ensures hash(presented) !in old(rows) ==> rows == old(rows)
      ensures hash(presented) in old(rows) ==> Ended(rows, old(rows)[hash(presented)].family)
      ensures hash(presented) in old(rows) ==>
                forall h :: h in rows && rows[h].family != old(rows)[hash(presented)].family ==> rows[h] == old(rows)[h]
      ensures hash(presented) in old(rows) ==>
                forall h, late :: h in rows && rows[h].family == old(rows)[hash(presented)].family ==>
                    !Live(rows, h, late)
    {
      var h := hash(presented);
      if h in rows {
        RevokedEnds(rows, h, now, rows[h].family);
        MembersAre(RevokeFamily(rows, rows[h].family, now), rows[h].family);
      }
      RevokeAll(presented, now);
      r := Status(204);
    }

    /** `raw` and `family` are freshly drawn; an account without a password is not asked for one. */
    method PasswordLogin(user: Option<nat>, stored: Option<string>, password: string, verify: (string, string) -> bool,
                         raw: string, family: nat, now: Instant, ttl: nat)
      returns (r: Reply)
      requires CanStep(rows, Login(hash(raw), family, 0, now, ttl))
      modifies this`rows
      ensures r == Tokens(if user.Some? then user.value else 0, raw) <==>
                user.Some? && (stored.None? || verify(password, stored.value))
      ensures r.Tokens? ==> user.Some? && rows == Step(old(rows), Login(hash(raw), family, user.value, now, ttl))
      ensures r.Status? ==> rows == old(rows) && r.code == if user.None? then 404 else 401
    {
      if user.None? { return Status(404); }
      if stored.Some? && !verify(password, stored.value) { return Status(401); }
      Issue(raw, family, user.value, None, now, ttl);
      r := Tokens(user.value, raw);
    }

    /** Exchanges a live token for the next of its family; any other known token ends the family. */
    method RefreshLogin(presented: string, now: Instant, raw: string, later: Instant, ttl: nat) returns (r: Reply)
      requires CanStep(rows, Refresh(hash(presented), now, hash(raw), later, ttl))
      modifies this`rows
      ensures rows == Step(old(rows), Refresh(hash(presented), now, hash(raw), later, ttl))
      ensures r == if Live(old(rows), hash(presented), now) then Tokens(old(rows)[hash(presented)].user, raw)
                else Status(401)
    {
      var h := hash(presented);
      if h in rows && rows[h].revoked.None? && rows[h].expires > now {
        var row := rows[h];
        rows := rows[h := row.(revoked := Some(now), replaced := Some(now))];
        Issue(raw, row.family, row.user, row.session, later, ttl);
        r := Tokens(row.user, raw);
      } else {
        RevokeAll(presented, now);
        r := Status(401);
      }
    }
  }

  // ---------- what every step keeps ----------

  function Members(rows: Rows, family: nat): set<Hash> {
    set h | h in rows && rows[h].family == family
  }

  function Unrevoked(rows: Rows, family: nat): set<Hash> {
    set h | h in Members(rows, family) && rows[h].revoked.None?
  }

  function Replaced(rows: Rows, family: nat): set<Hash> {
    set h | h in Members(rows, family) && rows[h].replaced.Some?
  }

  /** A family's newest token is its only one not replaced. */
  predicate IsTip(rows: Rows, h: Hash) {
    h in rows && rows[h].replaced.None?
  }

  ghost predicate HasTip(rows: Rows, family: nat) {
    exists h :: IsTip(rows, h) && rows[h].family == family
  }

  ghost predicate Valid(rows: Rows) {
    && (forall h :: h in rows ==> HasTip(rows, rows[h].family))
    && (forall h, k :: IsTip(rows, h) && IsTip(rows, k) && rows[h].family == rows[k].family ==> h == k)
    && (forall h :: h in rows && rows[h].replaced.Some? ==> rows[h].revoked.Some?)
    && (forall h, k :: h in rows && k in rows && rows[h].family == rows[k].family ==> rows[h].user == rows[k].user)
  }

  /** A family's new tip takes the place of its old one, if it had one. */
  lemma NewTipKeepsValid(rows: Rows, next: Rows, newest: Hash)
    requires Valid(rows) && newest !in rows && next.Keys == rows.Keys + {newest} && next[newest].replaced.None?
    requires forall h :: h in rows ==>
               && next[h].family == rows[h].family && next[h].user == rows[h].user
               && (next[h].replaced.Some? ==> next[h].revoked.Some?)
               && (if rows[h].family == next[newest].family then next[h].replaced.Some?
                   && rows[h].user == next[newest].user
                   else next[h] == rows[h])
    ensures Valid(next)
  {
    ReplacedIsRevoked(rows);
    NewTipIsThere(rows, next, newest);
    NewTipIsOnly(rows, next, newest);
    NewTipsUser(rows, next, newest);
    hide HasTip, IsTip;
  }

  lemma NewTipIsOnly(rows: Rows, next: Rows, newest: Hash)
    requires Valid(rows) && newest !in rows && next.Keys == rows.Keys + {newest}
    requires forall h :: h in rows ==>
               next[h].family == rows[h].family
               && (if rows[h].family == next[newest].family then next[h].replaced.Some? else next[h] == rows[h])
    ensures forall h, k :: IsTip(next, h) && IsTip(next, k) && next[h].family == next[k].family ==> h == k
  {
    ReplacedIsRevoked(rows);
    hide Valid;
    assert forall h :: IsTip(next, h) && h != newest ==> IsTip(rows, h) && rows[h].family != next[newest].family;
  }

  lemma NewTipsUser(rows: Rows, next: Rows, newest: Hash)
    requires Valid(rows) && newest !in rows && next.Keys == rows.Keys + {newest}
    requires forall h :: h in rows ==>
               && next[h].family == rows[h].family && next[h].user == rows[h].user
               && (rows[h].family == next[newest].family ==> rows[h].user == next[newest].user)
    ensures forall h, k :: h in next && k in next && next[h].family == next[k].family ==> next[h].user == next[k].user
  {
    ReplacedIsRevoked(rows);
    hide Valid;
  }

  lemma NewTipIsThere(rows: Rows, next: Rows, newest: Hash)
    requires Valid(rows) && IsTip(next, newest) && next.Keys == rows.Keys + {newest}
    requires forall h :: h in rows && rows[h].family != next[newest].family ==> h != newest && next[h] == rows[h]
    requires forall h :: h in rows && rows[h].family == next[newest].family ==> next[h].family == rows[h].family
    ensures forall h :: h in next ==> HasTip(next, next[h].family)
  {
    forall h | h in next ensures HasTip(next, next[h].family) {
      if next[h].family != next[newest].family {
        assert HasTip(rows, rows[h].family);
        var t :| IsTip(rows, t) && rows[t].family == rows[h].family;
        assert IsTip(next, t);
      }
    }
  }

  lemma LoginKeepsValid(rows: Rows, e: Event)
    requires Valid(rows) && CanStep(rows, e) && e.Login?
    ensures Valid(Step(rows, e))
  {
    ReplacedIsRevoked(rows);
    hide Valid;
    NewTipKeepsValid(rows, Step(rows, e), e.newest);
  }

  lemma ReplacedIsRevoked(rows: Rows)
    requires Valid(rows)
    ensures forall h :: h in rows && rows[h].replaced.Some? ==> rows[h].revoked.Some?
    ensures forall h, k :: IsTip(rows, h) && IsTip(rows, k) && rows[h].family == rows[k].family ==> h == k
    ensures forall h, k :: h in rows && k in rows && rows[h].family == rows[k].family ==> rows[h].user == rows[k].user
  {
  }

  lemma RotateKeepsValid(rows: Rows, h: Hash, now: Instant, newest: Hash, later: Instant, ttl: nat)
    requires Valid(rows) && newest !in rows && Live(rows, h, now)
    ensures Valid(Rotate(rows, h, now, newest, later, ttl))
  {
    ReplacedIsRevoked(rows);
    assert IsTip(rows, h);
    assert forall k :: k in rows && k != h && rows[k].family == rows[h].family ==> !IsTip(rows, k);
    hide Valid;
    NewTipKeepsValid(rows, Rotate(rows, h, now, newest, later, ttl), newest);
  }

  /** Tokens are at most revoked. */
  predicate OnlyRevoked(rows: Rows, next: Rows) {
    next.Keys == rows.Keys
    && forall h :: h in rows ==>
        next[h] == rows[h].(revoked := next[h].revoked) && (rows[h].revoked.Some? ==> next[h] == rows[h])
  }

  lemma RevokingKeepsValid(rows: Rows, next: Rows)
    requires Valid(rows) && OnlyRevoked(rows, next)
    ensures Valid(next)
  {
    forall h | h in next ensures HasTip(next, next[h].family) {
      var t :| IsTip(rows, t) && rows[t].family == rows[h].family;
      assert IsTip(next, t);
    }
    assert forall h :: IsTip(next, h) ==> IsTip(rows, h);
  }

  lemma RevokeKeepsValid(rows: Rows, family: nat, now: Instant)
    requires Valid(rows)
    ensures Valid(RevokeFamily(rows, family, now))
  {
    hide Valid;
    RevokingKeepsValid(rows, RevokeFamily(rows, family, now));
  }

  lemma StepKeepsValid(rows: Rows, e: Event)
    requires Valid(rows) && CanStep(rows, e)
    ensures Valid(Step(rows, e))
  {
    hide Valid, Rotate, RevokeFamily;
    match e
    case Login(_, _, _, _, _) => LoginKeepsValid(rows, e);
    case Refresh(h, now, newest, later, ttl) =>
      if Live(rows, h, now) {
        RotateKeepsValid(rows, h, now, newest, later, ttl);
      } else if h in rows {
        RevokeKeepsValid(rows, rows[h].family, now);
      }
    case Logout(h, now) => if h in rows { RevokeKeepsValid(rows, rows[h].family, now); }
  }

  /** At most one token of a family is unrevoked, and all but one of its tokens were replaced. */
  lemma FamilyCounts(rows: Rows, h: Hash)
    requires Valid(rows) && h in rows
    ensures var f := rows[h].family;
            && |Unrevoked(rows, f)| <= 1
            && |Members(rows, f)| == |Replaced(rows, f)| + 1
            && Unrevoked(rows, f) !! Replaced(rows, f)
  {
    var f := rows[h].family;
    var t :| IsTip(rows, t) && rows[t].family == f;
    assert Members(rows, f) == Replaced(rows, f) + {t};
    assert Unrevoked(rows, f) <= {t};
    assert Unrevoked(rows, f) == {} || Unrevoked(rows, f) == {t};
  }

  // ---------- whole runs ----------

  predicate CanRun(rows: Rows, events: seq<Event>)
    decreases |events|
  {
    events == [] || (CanStep(rows, events[0]) && CanRun(Step(rows, events[0]), events[1..]))
  }

  function After(rows: Rows, events: seq<Event>): Rows
    decreases |events|
  {
    if events == [] then rows else After(Step(rows, events[0]), events[1..])
  }

  lemma {:induction false} RunKeepsValid(rows: Rows, events: seq<Event>)
    requires Valid(rows) && CanRun(rows, events)
    ensures Valid(After(rows, events))
    decreases |events|
  {
    if events != [] {
      StepKeepsValid(rows, events[0]);
      RunKeepsValid(Step(rows, events[0]), events[1..]);
    }
  }

  /** From an empty table on, at every moment: one unrevoked token a family at most, and one more than were replaced. */
  lemma RunFamilyCounts(rows: Rows, events: seq<Event>, h: Hash)
    requires |rows| == 0 && CanRun(rows, events) && h in After(rows, events)
    ensures var late := After(rows, events);
            var f := late[h].family;
            && |Unrevoked(late, f)| <= 1
            && |Members(late, f)| == |Replaced(late, f)| + 1
            && Unrevoked(late, f) !! Replaced(late, f)
  {
    hide Step, CanRun;
    assert Valid(rows);
    RunKeepsValid(rows, events);
    FamilyCounts(After(rows, events), h);
  }

  /** A token stays, with its family, user and times; what revoked or replaced it first stays recorded. */
  predicate Kept(t: Token, u: Token) {
    && u == t.(revoked := u.revoked, replaced := u.replaced)
    && (t.revoked.Some? ==> u.revoked == t.revoked)
    && (t.replaced.Some? ==> u.replaced == t.replaced)
    && (t.revoked.Some? ==> u.replaced == t.replaced)
  }

  lemma RevokeKeepsTokens(rows: Rows, family: nat, now: Instant)
    requires forall h :: h in rows && rows[h].replaced.Some? ==> rows[h].revoked.Some?
    ensures forall h :: h in rows ==>
              h in RevokeFamily(rows, family, now) && Kept(rows[h], RevokeFamily(rows, family, now)[h])
  {
  }

  lemma StepKeepsTokens(rows: Rows, e: Event)
    requires Valid(rows) && CanStep(rows, e)
    ensures forall h :: h in rows ==> h in Step(rows, e) && Kept(rows[h], Step(rows, e)[h])
  {
    ReplacedIsRevoked(rows);
    hide Valid, HasTip, IsTip, RevokeFamily;
    match e
    case Login(_, _, _, _, _) =>
    case Refresh(h, now, newest, later, ttl) =>
      if h in rows && !Live(rows, h, now) { RevokeKeepsTokens(rows, rows[h].family, now); }
    case Logout(h, now) =>
      if h in rows { RevokeKeepsTokens(rows, rows[h].family, now); }
  }

  lemma {:induction false} RunKeepsTokens(rows: Rows, events: seq<Event>)
    requires Valid(rows) && CanRun(rows, events)
    ensures forall h :: h in rows ==> h in After(rows, events) && Kept(rows[h], After(rows, events)[h])
    decreases |events|
  {
    hide Valid, Step, CanStep;
    if events != [] {
      StepKeepsValid(rows, events[0]);
      StepKeepsTokens(rows, events[0]);
      RunKeepsTokens(Step(rows, events[0]), events[1..]);
    }
  }

  predicate Ended(rows: Rows, family: nat) {
    Members(rows, family) != {} && Unrevoked(rows, family) == {}
  }

  /** A known token is presented that cannot be exchanged, or is handed in at logout. */
  predicate Ends(rows: Rows, e: Event, family: nat) {
    match e
    case Login(_, _, _, _, _) => false
    case Refresh(h, now, _, _, _) => h in rows && rows[h].family == family && !Live(rows, h, now)
    case Logout(h, _) => h in rows && rows[h].family == family
  }

  lemma MembersAre(rows: Rows, family: nat)
    ensures Ended(rows, family) <==>
              && (exists h :: h in rows && rows[h].family == family)
              && (forall h :: h in rows && rows[h].family == family ==> rows[h].revoked.Some?)
  {
    forall h | h in rows && rows[h].family == family
      ensures h in Members(rows, family) && (rows[h].revoked.None? ==> h in Unrevoked(rows, family)) {
    }
  }

  lemma RevokedEnds(rows: Rows, h: Hash, now: Instant, family: nat)
    requires h in rows
    ensures Ended(RevokeFamily(rows, rows[h].family, now), family) <==> Ended(rows, family) || family == rows[h].family
  {
    hide Ended;
    var next := RevokeFamily(rows, rows[h].family, now);
    MembersAre(rows, family);
    MembersAre(next, family);
    assert h in next && next[h].family == rows[h].family;
    assert forall k :: k in rows <==> k in next;
    assert forall k :: k in rows ==> next[k].family == rows[k].family;
    assert forall k :: k in rows && rows[k].family != rows[h].family ==> next[k] == rows[k];
    assert forall k :: k in rows && rows[k].revoked.Some? ==> next[k] == rows[k];
  }

  lemma RotatedEnds(rows: Rows, h: Hash, now: Instant, newest: Hash, later: Instant, ttl: nat, family: nat)
    requires Live(rows, h, now) && newest !in rows
    ensures Ended(Rotate(rows, h, now, newest, later, ttl), family) <==> Ended(rows, family)
  {
    hide Ended;
    var next := Rotate(rows, h, now, newest, later, ttl);
    MembersAre(rows, family);
    MembersAre(next, family);
    assert forall k :: k in rows && k != h ==> k in next && next[k] == rows[k];
    assert newest in next && next[newest].revoked.None? && next[newest].family == rows[h].family;
  }

  lemma LoginEnds(rows: Rows, e: Event, family: nat)
    requires e.Login? && CanStep(rows, e)
    ensures Ended(Step(rows, e), family) <==> Ended(rows, family)
  {
    hide Ended;
    var next := Step(rows, e);
    MembersAre(rows, family);
    MembersAre(next, family);
    assert forall k :: k in rows ==> k in next && next[k] == rows[k];
    assert e.newest in next && next[e.newest].revoked.None? && next[e.newest].family == e.family;
  }

  /** Exactly that ends a family, and an ended family stays ended. */
  lemma StepEndsIff(rows: Rows, e: Event, family: nat)
    requires CanStep(rows, e)
    ensures Ended(Step(rows, e), family) <==> Ended(rows, family) || Ends(rows, e, family)
  {
    hide Ended, Rotate, RevokeFamily;
    match e
    case Login(_, _, _, _, _) => LoginEnds(rows, e, family);
    case Refresh(h, now, newest, later, ttl) =>
      if Live(rows, h, now) {
        RotatedEnds(rows, h, now, newest, later, ttl, family);
      } else if h in rows {
        RevokedEnds(rows, h, now, family);
      }
    case Logout(h, now) => if h in rows { RevokedEnds(rows, h, now, family); }
  }

  /** Presenting an expired token, live though its family may be, ends that family. */
  lemma ExpiredTokenEnds(rows: Rows, e: Event)
    requires e.Refresh? && e.presented in rows && rows[e.presented].expires <= e.now
    requires CanStep(rows, e)
    ensures Ended(Step(rows, e), rows[e.presented].family)
  {
    hide Ended, Step, CanStep;
    StepEndsIff(rows, e, rows[e.presented].family);
  }

  predicate SomeEnds(rows: Rows, events: seq<Event>, family: nat)
    decreases |events|
  {
    events != [] && (Ends(rows, events[0], family) || SomeEnds(Step(rows, events[0]), events[1..], family))
  }

  /** Over a whole run a family is ended exactly if it was before or one of the requests ended it. */
  lemma {:induction false} RunEndsIff(rows: Rows, events: seq<Event>, family: nat)
    requires CanRun(rows, events)
    ensures Ended(After(rows, events), family) <==> Ended(rows, family) || SomeEnds(rows, events, family)
    decreases |events|
  {
    hide Ended, Step, Ends, CanStep;
    if events != [] {
      StepEndsIff(rows, events[0], family);
      RunEndsIff(Step(rows, events[0]), events[1..], family);
    }
  }

  /** No token of an ended family is exchanged at any later time, whatever happens in between. */
  lemma EndedForGood(rows: Rows, family: nat, events: seq<Event>, h: Hash, now: Instant)
    requires Ended(rows, family) && CanRun(rows, events)
    ensures var late := After(rows, events); h in late && late[h].family == family ==> !Live(late, h, now)
  {
    hide Ended;
    RunEndsIff(rows, events, family);
    MembersAre(After(rows, events), family);
  }

  /** Replay: a token exchanged once, presented again however much later, is refused and ends its family. */
  lemma ReplayEndsFamily(rows: Rows, first: Event, between: seq<Event>, again: Event)
    requires Valid(rows) && first.Refresh? && again.Refresh? && again.presented == first.presented
    requires CanStep(rows, first) && Live(rows, first.presented, first.now)
    requires CanRun(Step(rows, first), between) && CanStep(After(Step(rows, first), between), again)
    ensures var late := After(Step(rows, first), between);
            && !Live(late, again.presented, again.now)
            && Ended(Step(late, again), rows[first.presented].family)
  {
    hide Ended, Valid, CanRun, CanStep, RevokeFamily;
    var used := Step(rows, first);
    StepKeepsValid(rows, first);
    assert CanStep(rows, first) ==> first.newest !in rows by { FreshIs(rows, first); }
    assert used[first.presented].revoked.Some? && used[first.presented].family == rows[first.presented].family;
    RunKeepsTokens(used, between);
    StepEndsIff(After(used, between), again, rows[first.presented].family);
  }

  lemma FreshIs(rows: Rows, e: Event)
    requires e.Refresh? && CanStep(rows, e)
    ensures e.newest !in rows
  {
  }
}
