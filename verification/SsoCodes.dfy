/**
  One-time SSO codes and tickets. Every request is one step; a request that is refused rolls back.
 */
module SsoCodes {
  import opened Basics

  type Instant = int
  type Hash = string

  datatype Kind = Public | Confidential
  datatype Flow = AuthorizationCode | NativeLaunch | BrowserExchange

  /** The first redirect URI is the default one. */
  datatype Client = Client(kind: Kind, secretHash: Option<string>, uris: seq<string>)

  datatype Session = Session(user: nat, expires: Instant, revoked: bool)

  datatype Code = Code(client: string, user: nat, redirect: string, challenge: Option<string>, flow: Flow,
                       expires: Instant, consumed: Option<Instant>)

  datatype Db = Db(clients: map<string, Client>, sessions: map<Hash, Session>, codes: map<Hash, Code>)

  /** Digests, password hashing and URI parsing. */
  datatype Library = Library(pkce: string -> string, protect: string -> string, verify: (string, string) -> bool,
                             origin: string -> string, validUri: string -> bool)

  const CODE_TTL := 60

  /** Codes, tickets and cookies appear as the hashes the server looks up; `code` is the freshly drawn one. */
  datatype Request =
    | CreateClient(client: string, kind: Kind, uris: seq<string>, given: Option<string>, drawn: string)
    | Authorize(client: string, redirect: string, pkce: string, cookie: Option<Hash>, now: Instant, code: Hash)
    | Handoff(client: string, user: nat, now: Instant, code: Hash)
    | Launch(ticket: Hash, now: Instant, code: Hash)
    | BrowserToken(ticket: Hash, client: string, origin: string, now: Instant)
    | Token(ticket: Hash, client: string, redirect: string, verifier: Option<string>, secret: Option<string>,
        now: Instant)
    // a login elsewhere, or a logout
    | SessionsChange(sessions: map<Hash, Session>)

  // ---------- what each request accepts and does ----------

  predicate Registered(db: Db, client: string, redirect: string) {
    client in db.clients && redirect in db.clients[client].uris
  }

  predicate HasDefault(db: Db, client: string) {
    client in db.clients && db.clients[client].uris != []
  }

  predicate Open(db: Db, h: Hash, now: Instant) {
    h in db.codes && db.codes[h].consumed.None? && db.codes[h].expires > now
  }

  predicate DistinctUris(uris: seq<string>) {
    forall i, j :: 0 <= i < j < |uris| ==> uris[i] != uris[j]
  }

  predicate SecretMatches(lib: Library, c: Client, secret: Option<string>) {
    secret.Some? && c.secretHash.Some? && lib.verify(secret.value, c.secretHash.value)
  }

  predicate Truthy(s: Option<string>) {
    s.Some? && s.value != ""
  }

  function OrEmpty(s: Option<string>): string {
    if s.Some? then s.value else ""
  }

  predicate Accepts(lib: Library, db: Db, r: Request) {
    match r
    case CreateClient(client, kind, uris, given, _) =>
      && uris != [] && DistinctUris(uris) && (forall uri :: uri in uris ==> lib.validUri(uri))
      && !(kind.Public? && Truthy(given)) && client !in db.clients
    case Authorize(client, redirect, challenge, cookie, now, _) =>
      && |challenge| >= 43 && Registered(db, client, redirect)
      && cookie.Some? && cookie.value in db.sessions
      && !db.sessions[cookie.value].revoked && db.sessions[cookie.value].expires > now
    case Handoff(client, _, _, _) =>
      HasDefault(db, client) && db.clients[client].kind.Public?
    case Launch(ticket, now, _) =>
      Open(db, ticket, now) && db.codes[ticket].flow.NativeLaunch?
    case BrowserToken(ticket, client, origin, now) =>
      && HasDefault(db, client) && origin == lib.origin(db.clients[client].uris[0])
      && Open(db, ticket, now) && db.codes[ticket].flow.BrowserExchange?
      && db.codes[ticket].client == client && db.codes[ticket].redirect == db.clients[client].uris[0]
    case Token(ticket, client, redirect, verifier, secret, now) =>
      && Registered(db, client, redirect)
      && (if db.clients[client].kind.Public? then Truthy(verifier) else SecretMatches(lib, db.clients[client], secret))
      && Open(db, ticket, now) && db.codes[ticket].client == client && db.codes[ticket].redirect == redirect
      && (if Truthy(db.codes[ticket].challenge) then lib.pkce(OrEmpty(verifier)) == db.codes[ticket].challenge.value
          else db.clients[client].kind.Confidential?)
    case SessionsChange(_) => true
  }

  /** The code a request stores. */
  function Made(r: Request): Option<Hash> {
    match r
    case Authorize(_, _, _, _, _, code) => Some(code)
    case Handoff(_, _, _, code) => Some(code)
    case Launch(_, _, code) => Some(code)
    case _ => None
  }

  /** The code a request uses up. */
  function Used(r: Request): Option<Hash> {
    match r
    case Launch(ticket, _, _) => Some(ticket)
    case BrowserToken(ticket, _, _, _) => Some(ticket)
    case Token(ticket, _, _, _, _, _) => Some(ticket)
    case _ => None
  }

  function NewCode(lib: Library, db: Db, r: Request): Code
    requires Accepts(lib, db, r) && Made(r).Some?
  {
    match r
    case Authorize(client, redirect, challenge, cookie, now, _) =>
      Code(client, db.sessions[cookie.value].user, redirect, Some(challenge), AuthorizationCode, now + CODE_TTL, None)
    case Handoff(client, user, now, _) =>
      Code(client, user, db.clients[client].uris[0], None, NativeLaunch, now + CODE_TTL, None)
    case Launch(ticket, now, _) =>
      var t := db.codes[ticket];
      Code(t.client, t.user, t.redirect, None, BrowserExchange, now + CODE_TTL, None)
  }

  function NewClient(lib: Library, r: Request): Client
    requires r.CreateClient?
  {
    var secret := if Truthy(r.given) then r.given else if r.kind.Confidential? then Some(r.drawn) else None;
    Client(r.kind, if secret.Some? then Some(lib.protect(secret.value)) else None, r.uris)
  }

  function Consume(db: Db, h: Hash, now: Instant): Db
    requires h in db.codes
  {
    db.(codes := db.codes[h := db.codes[h].(consumed := Some(now))])
  }

  predicate Unseen(db: Db, r: Request) {
    Made(r).Some? ==> Made(r).value !in db.codes
  }

  function Step(lib: Library, db: Db, r: Request): Db {
    if !Accepts(lib, db, r) then db
    else
      match r
      case CreateClient(client, _, _, _, _) => db.(clients := db.clients[client := NewClient(lib, r)])
      case Authorize(_, _, _, _, _, code) => db.(codes := db.codes[code := NewCode(lib, db, r)])
      case Handoff(_, _, _, code) => db.(codes := db.codes[code := NewCode(lib, db, r)])
      case Launch(ticket, now, code) =>
        var used := Consume(db, ticket, now);
        used.(codes := used.codes[code := NewCode(lib, db, r)])
      case BrowserToken(ticket, _, _, now) => Consume(db, ticket, now)
      case Token(ticket, _, _, _, _, now) => Consume(db, ticket, now)
      case SessionsChange(sessions) => db.(sessions := sessions)
  }

  function LoggedOut(sessions: map<Hash, Session>, cookie: Option<Hash>): map<Hash, Session> {
    if cookie.Some? && cookie.value in sessions then sessions[cookie.value := sessions[cookie.value].(revoked := true)]
    else sessions
  }

  // ---------- the endpoints ----------

  datatype Reply = Status(code: nat) | Sent(ticket: Hash) | Jwt(user: nat, minutes: Option<nat>)

  /** The issuer's database, as committed and as the open transaction sees it. */
  class Issuer {
    var committed: Db
    var db: Db
    const lib: Library

    constructor (lib: Library, sessions: map<Hash, Session>)
      ensures committed == db == Db(map[], sessions, map[]) && this.lib == lib
    {
      this.lib := lib;
      committed, db := Db(map[], sessions, map[]), Db(map[], sessions, map[]);
    }

    method IssueCode(h: Hash, code: Code)
      modifies this
      ensures committed == db == old(db).(codes := old(db).codes[h := code])
    {
      db := db.(codes := db.codes[h := code]);
      committed := db;
    }

    method Take(h: Hash, now: Instant)
      requires h in db.codes
      modifies this`db
      ensures db == Consume(old(db), h, now)
    {
      db := db.(codes := db.codes[h := db.codes[h].(consumed := Some(now))]);
    }

    method CreateClient(r: Request) returns (reply: Reply)
      requires r.CreateClient? && db == committed
      modifies this
      ensures db == committed == Step(lib, old(db), r)
      ensures (reply == Status(201)) <==> Accepts(lib, old(db), r)
      ensures reply == Status(409) ==> r.client in old(db).clients
      ensures reply == Status(201) && r.kind.Public? ==> db.clients[r.client].secretHash == None
      ensures reply == Status(201) && r.kind.Confidential? ==>
                db.clients[r.client].secretHash == Some(lib.protect(if Truthy(r.given) then r.given.value else r.drawn))
    {
      if r.uris == [] || !DistinctUris(r.uris) || exists uri :: uri in r.uris && !lib.validUri(uri) {
        return Status(422);
      }
      if r.kind.Public? && Truthy(r.given) { return Status(422); }
      var secret := if Truthy(r.given) then r.given else if r.kind.Confidential? then Some(r.drawn) else None;
      if r.client in db.clients { return Status(409); }
      db := db.(clients := db.clients[r.client :=
        Client(r.kind, if secret.Some? then Some(lib.protect(secret.value)) else None, r.uris)]);
      committed := db;
      reply := Status(201);
    }

    method Authorize(r: Request) returns (reply: Reply)
      requires r.Authorize? && db == committed && Unseen(db, r)
      modifies this
      ensures db == committed == Step(lib, old(db), r)
      ensures reply == Sent(r.code) <==> Accepts(lib, old(db), r)
    {
      if |r.pkce| < 43 { return Status(422); }
      if !Registered(db, r.client, r.redirect) { return Status(400); }
      if r.cookie.None? { return Status(401); }
      var token := r.cookie.value;
      if token !in db.sessions || db.sessions[token].revoked || db.sessions[token].expires <= r.now {
        return Status(401);
      }
      IssueCode(r.code,
          Code(r.client, db.sessions[token].user, r.redirect, Some(r.pkce), AuthorizationCode, r.now + CODE_TTL, None));
      reply := Sent(r.code);
    }

    method Handoff(r: Request) returns (reply: Reply)
      requires r.Handoff? && db == committed && Unseen(db, r)
      modifies this
      ensures db == committed == Step(lib, old(db), r)
      ensures reply == Sent(r.code) <==> Accepts(lib, old(db), r)
    {
      if !HasDefault(db, r.client) { return Status(400); }
      if db.clients[r.client].kind != Public { return Status(400); }
      IssueCode(r.code,
          Code(r.client, r.user, db.clients[r.client].uris[0], None, NativeLaunch, r.now + CODE_TTL, None));
      reply := Sent(r.code);
    }

    method Launch(r: Request) returns (reply: Reply)
      requires r.Launch? && db == committed && Unseen(db, r)
      modifies this
      ensures db == committed == Step(lib, old(db), r)
      ensures reply == Sent(r.code) <==> Accepts(lib, old(db), r)
    {
      if !Open(db, r.ticket, r.now) || db.codes[r.ticket].flow != NativeLaunch { return Status(400); }
      Take(r.ticket, r.now);
      var t := db.codes[r.ticket];
      IssueCode(r.code, Code(t.client, t.user, t.redirect, None, BrowserExchange, r.now + CODE_TTL, None));
      reply := Sent(r.code);
    }

    method BrowserToken(r: Request) returns (reply: Reply)
      requires r.BrowserToken? && db == committed
      modifies this
      ensures db == committed == Step(lib, old(db), r)
      ensures reply.Jwt? <==> Accepts(lib, old(db), r)
      ensures reply.Jwt? ==> reply == Jwt(old(db).codes[r.ticket].user, Some(5))
    {
      if !HasDefault(db, r.client) { return Status(400); }
      var redirect := db.clients[r.client].uris[0];
      if r.origin != lib.origin(redirect) { return Status(403); }
      if !Open(db, r.ticket, r.now) || db.codes[r.ticket].flow != BrowserExchange
         || db.codes[r.ticket].client != r.client || db.codes[r.ticket].redirect != redirect {
        return Status(400);
      }
      var user := db.codes[r.ticket].user;
      Take(r.ticket, r.now);
      committed := db;
      reply := Jwt(user, Some(5));
    }

    /** The code is used up first; a wrong verifier, or a public client's code without a challenge, rolls that back. */
    method Token(r: Request) returns (reply: Reply)
      requires r.Token? && db == committed
      modifies this
      ensures db == committed == Step(lib, old(db), r)
      ensures reply.Jwt? <==> Accepts(lib, old(db), r)
      ensures reply.Jwt? ==> reply == Jwt(old(db).codes[r.ticket].user, None)
    {
      if !Registered(db, r.client, r.redirect) { return Status(400); }
      var client := db.clients[r.client];
      if client.kind == Public {
        if !Truthy(r.verifier) { return Status(400); }
      } else if !SecretMatches(lib, client, r.secret) {
        return Status(401);
      }
      if !Open(db, r.ticket, r.now) || db.codes[r.ticket].client != r.client
          || db.codes[r.ticket].redirect != r.redirect {
        return Status(400);
      }
      Take(r.ticket, r.now);
      var code := db.codes[r.ticket];
      if Truthy(code.challenge) && lib.pkce(OrEmpty(r.verifier)) != code.challenge.value {
        db := committed;
        return Status(400);
      }
      if client.kind == Public && !Truthy(code.challenge) {
        db := committed;
        return Status(400);
      }
      committed := db;
      reply := Jwt(code.user, None);
    }

    /** No later authorization accepts the cookie; other sessions, the codes and the clients are as they were. */
    method Logout(cookie: Option<Hash>) returns (reply: Reply)
      requires db == committed
      modifies this
      ensures db == committed == Step(lib, old(db), SessionsChange(LoggedOut(old(db).sessions, cookie)))
      ensures reply == Status(204)
      ensures db.codes == old(db).codes && db.clients == old(db).clients && db.sessions.Keys == old(db).sessions.Keys
      ensures forall c :: c in db.sessions && Some(c) != cookie ==> db.sessions[c] == old(db).sessions[c]
      ensures forall r: Request :: r.Authorize? && r.cookie == cookie ==> !Accepts(lib, db, r)
    {
      ghost var was := db;
      forall r: Request | r.Authorize? && r.cookie == cookie
        ensures !Accepts(lib, Step(lib, was, SessionsChange(LoggedOut(was.sessions, cookie))), r)
      {
        LogoutStopsAuthorize(lib, was, r);
      }
      if cookie.Some? && cookie.value in db.sessions {
        db := db.(sessions := db.sessions[cookie.value := db.sessions[cookie.value].(revoked := true)]);
        committed := db;
      }
      reply := Status(204);
    }
  }

  // ---------- what every step keeps ----------

  /**
    Only authorization codes carry a challenge, and they all do; the tickets of a handoff are all for
    public clients.
   */
  predicate ValidCode(db: Db, c: Code) {
    && c.client in db.clients && c.redirect in db.clients[c.client].uris
    && (c.flow.AuthorizationCode? <==> c.challenge.Some?)
    && (c.flow.AuthorizationCode? ==> |c.challenge.value| >= 43)
    && (!c.flow.AuthorizationCode? ==> db.clients[c.client].kind.Public?)
  }

  predicate Valid(db: Db) {
    forall h :: h in db.codes ==> ValidCode(db, db.codes[h])
  }

  lemma StepKeepsValid(lib: Library, db: Db, r: Request)
    requires Valid(db)
    ensures Valid(Step(lib, db, r))
  {
    hide DistinctUris, SecretMatches;
    if Accepts(lib, db, r) && Used(r).Some? {
      assert ValidCode(db, db.codes[Used(r).value]);
    }
  }

  /** A ticket of the native handoff is never exchanged at the token endpoint, though that never looks at its flow. */
  lemma TicketIsNoCode(lib: Library, db: Db, r: Request)
    requires Valid(db) && r.Token? && r.ticket in db.codes && !db.codes[r.ticket].flow.AuthorizationCode?
    ensures !Accepts(lib, db, r) && Step(lib, db, r) == db
  {
    assert ValidCode(db, db.codes[r.ticket]);
  }

  /**
    What a token costs: an open authorization code of this client and URI, a verifier that hashes to its
    challenge, and the client's own proof.
   */
  lemma RedeemsIff(lib: Library, db: Db, r: Request)
    requires Valid(db) && r.Token?
    ensures Accepts(lib, db, r) <==>
              && Open(db, r.ticket, r.now)
              && var c := db.codes[r.ticket];
                 && c.flow.AuthorizationCode? && c.client == r.client && c.redirect == r.redirect
                 && Some(lib.pkce(OrEmpty(r.verifier))) == c.challenge
                 && (if db.clients[r.client].kind.Public? then Truthy(r.verifier)
                     else SecretMatches(lib, db.clients[r.client], r.secret))
  {
    if Open(db, r.ticket, r.now) {
      assert ValidCode(db, db.codes[r.ticket]);
    }
  }

  /** Once its cookie has logged out, a session is issued no code. */
  lemma LogoutStopsAuthorize(lib: Library, db: Db, r: Request)
    requires r.Authorize?
    ensures !Accepts(lib, Step(lib, db, SessionsChange(LoggedOut(db.sessions, r.cookie))), r)
  {
  }

  // ---------- whole runs ----------

  predicate CanRun(lib: Library, db: Db, rs: seq<Request>) {
    rs == [] || (CanRun(lib, db, rs[..|rs| - 1]) && Unseen(After(lib, db, rs[..|rs| - 1]), rs[|rs| - 1]))
  }

  function After(lib: Library, db: Db, rs: seq<Request>): Db {
    if rs == [] then db else Step(lib, After(lib, db, rs[..|rs| - 1]), rs[|rs| - 1])
  }

  lemma {:induction false} RunKeepsValid(lib: Library, db: Db, rs: seq<Request>)
    requires Valid(db)
    ensures Valid(After(lib, db, rs))
  {
    if rs != [] {
      RunKeepsValid(lib, db, rs[..|rs| - 1]);
      StepKeepsValid(lib, After(lib, db, rs[..|rs| - 1]), rs[|rs| - 1]);
    }
  }

  /** The request at `i` was accepted. */
  predicate Happened(lib: Library, db: Db, rs: seq<Request>, i: nat) {
    i < |rs| && Accepts(lib, After(lib, db, rs[..i]), rs[i])
  }

  lemma StepCodes(lib: Library, db: Db, r: Request, h: Hash)
    requires Unseen(db, r)
    ensures h in db.codes ==>
              && h in Step(lib, db, r).codes
              && Step(lib, db, r).codes[h] == db.codes[h].(consumed := Step(lib, db, r).codes[h].consumed)
              && (db.codes[h].consumed.Some? ==> Step(lib, db, r).codes[h].consumed.Some?)
    ensures Accepts(lib, db, r) && Used(r) == Some(h) ==>
              h in db.codes && db.codes[h].consumed.None? && Step(lib, db, r).codes[h].consumed.Some?
    ensures h !in db.codes ==>
              (h in Step(lib, db, r).codes <==> Accepts(lib, db, r) && Made(r) == Some(h))
    ensures h !in db.codes && h in Step(lib, db, r).codes ==> Step(lib, db, r).codes[h] == NewCode(lib, db, r)
    ensures Accepts(lib, db, r) && Made(r) == Some(h) ==> h !in db.codes && h in Step(lib, db, r).codes
  {
    hide DistinctUris, SecretMatches, Registered, HasDefault, Truthy;
  }

  lemma {:induction false} CodesStay(lib: Library, db: Db, rs: seq<Request>, i: nat, h: Hash)
    requires CanRun(lib, db, rs) && i <= |rs| && h in After(lib, db, rs[..i]).codes
    ensures h in After(lib, db, rs).codes
    ensures After(lib, db, rs[..i]).codes[h].consumed.Some? ==> After(lib, db, rs).codes[h].consumed.Some?
    ensures After(lib, db, rs).codes[h] ==
              After(lib, db, rs[..i]).codes[h].(consumed := After(lib, db, rs).codes[h].consumed)
    decreases |rs|
  {
    hide Step, Unseen;
    if i == |rs| {
      assert rs[..i] == rs;
    } else {
      var k := |rs| - 1;
      assert rs[..k][..i] == rs[..i];
      CodesStay(lib, db, rs[..k], i, h);
      StepCodes(lib, After(lib, db, rs[..k]), rs[k], h);
    }
  }

  lemma {:induction false} CanRunPrefix(lib: Library, db: Db, rs: seq<Request>, n: nat)
    requires CanRun(lib, db, rs) && n <= |rs|
    ensures CanRun(lib, db, rs[..n])
    ensures n < |rs| ==> Unseen(After(lib, db, rs[..n]), rs[n])
    decreases |rs|
  {
    if n < |rs| {
      CanRunPrefix(lib, db, rs[..|rs| - 1], n);
      assert rs[..|rs| - 1][..n] == rs[..n];
    } else {
      assert rs[..n] == rs;
    }
  }

  lemma AfterNext(lib: Library, db: Db, rs: seq<Request>, i: nat)
    requires i < |rs|
    ensures After(lib, db, rs[..i + 1]) == Step(lib, After(lib, db, rs[..i]), rs[i])
  {
    assert rs[..i + 1][..i] == rs[..i];
  }

  /** Over any run a code or ticket is used up at most once, by whichever endpoint. */
  lemma UsedOnce(lib: Library, db: Db, rs: seq<Request>, i: nat, j: nat)
    requires CanRun(lib, db, rs) && Happened(lib, db, rs, i) && Happened(lib, db, rs, j)
    requires Used(rs[i]).Some? && Used(rs[i]) == Used(rs[j])
    ensures i == j
  {
    hide Step, Accepts, After, Unseen, CanRun;
    if i != j {
      var (a, b) := if i < j then (i, j) else (j, i);
      var h := Used(rs[i]).value;
      CanRunPrefix(lib, db, rs, a);
      CanRunPrefix(lib, db, rs, b);
      StepCodes(lib, After(lib, db, rs[..a]), rs[a], h);
      StepCodes(lib, After(lib, db, rs[..b]), rs[b], h);
      AfterNext(lib, db, rs, a);
      assert rs[..b][..a + 1] == rs[..a + 1];
      CodesStay(lib, db, rs[..b], a + 1, h);
      assert false;
    }
  }

  lemma MadeOnce(lib: Library, db: Db, rs: seq<Request>, i: nat, j: nat)
    requires CanRun(lib, db, rs) && Happened(lib, db, rs, i) && Happened(lib, db, rs, j)
    requires Made(rs[i]).Some? && Made(rs[i]) == Made(rs[j])
    ensures i == j
  {
    hide Step, Accepts, After, Unseen, CanRun;
    if i != j {
      var (a, b) := if i < j then (i, j) else (j, i);
      var h := Made(rs[i]).value;
      CanRunPrefix(lib, db, rs, a);
      CanRunPrefix(lib, db, rs, b);
      StepCodes(lib, After(lib, db, rs[..a]), rs[a], h);
      StepCodes(lib, After(lib, db, rs[..b]), rs[b], h);
      AfterNext(lib, db, rs, a);
      assert rs[..b][..a + 1] == rs[..a + 1];
      CodesStay(lib, db, rs[..b], a + 1, h);
      assert false;
    }
  }

  /** The request at `i` stored code `h` as it is now, but for its being used. */
  predicate Origin(lib: Library, db: Db, rs: seq<Request>, i: nat, h: Hash, c: Code) {
    && Happened(lib, db, rs, i) && Made(rs[i]) == Some(h)
    && c == NewCode(lib, After(lib, db, rs[..i]), rs[i]).(consumed := c.consumed)
  }

  /** Every stored code was made by an accepted request. */
  lemma {:induction false} CodeHasOrigin(lib: Library, db: Db, rs: seq<Request>, h: Hash) returns (i: nat)
    requires CanRun(lib, db, rs) && db.codes == map[] && h in After(lib, db, rs).codes
    ensures Origin(lib, db, rs, i, h, After(lib, db, rs).codes[h])
    decreases |rs|
  {
    hide Step, Unseen, Accepts, NewCode;
    var k := |rs| - 1;
    var before := After(lib, db, rs[..k]);
    StepCodes(lib, before, rs[k], h);
    if h in before.codes {
      i := CodeHasOrigin(lib, db, rs[..k], h);
      assert rs[..k][..i] == rs[..i];
    } else {
      i := k;
    }
  }

  /** A handoff at `i` and a launch at `j` that lead to the browser ticket used at `k`, for one user and one client. */
  predicate Traces(lib: Library, db: Db, rs: seq<Request>, i: nat, j: nat, k: nat) {
    && i < j < k < |rs|
    && Happened(lib, db, rs, i) && Happened(lib, db, rs, j) && Happened(lib, db, rs, k)
    && rs[i].Handoff? && rs[j].Launch? && rs[k].BrowserToken?
    && rs[j].ticket == rs[i].code && rs[k].ticket == rs[j].code
    && rs[k].client == rs[i].client
    && After(lib, db, rs[..k]).codes[rs[k].ticket].user == rs[i].user
  }

  lemma TicketOrigin(lib: Library, db: Db, rs: seq<Request>, k: nat) returns (i: nat)
    requires CanRun(lib, db, rs) && db.codes == map[] && Happened(lib, db, rs, k) && Used(rs[k]).Some?
    ensures Used(rs[k]).value in After(lib, db, rs[..k]).codes
    ensures i < k && Origin(lib, db, rs, i, Used(rs[k]).value, After(lib, db, rs[..k]).codes[Used(rs[k]).value])
  {
    hide Step, Unseen, CanRun, NewCode, After, Accepts;
    CanRunPrefix(lib, db, rs, k);
    StepCodes(lib, After(lib, db, rs[..k]), rs[k], Used(rs[k]).value);
    i := CodeHasOrigin(lib, db, rs[..k], Used(rs[k]).value);
    assert rs[..k][..i] == rs[..i];
  }

  lemma TokenHasTrace(lib: Library, db: Db, rs: seq<Request>, k: nat) returns (i: nat, j: nat)
    requires CanRun(lib, db, rs) && db.codes == map[] && Happened(lib, db, rs, k) && rs[k].BrowserToken?
    ensures Traces(lib, db, rs, i, j, k)
  {
    hide Step, Unseen, CanRun, After;
    j := TicketOrigin(lib, db, rs, k);
    i := TicketOrigin(lib, db, rs, j);
  }

  /** Every browser token traces to one handoff and one launch, and to no others. */
  lemma TraceIsUnique(lib: Library, db: Db, rs: seq<Request>, i: nat, j: nat, k: nat, x: nat, y: nat, z: nat)
    requires CanRun(lib, db, rs) && Traces(lib, db, rs, i, j, k) && Traces(lib, db, rs, x, y, z)
    ensures i == x <==> k == z
    ensures j == y <==> k == z
  {
    hide CanRun, After, Happened;
    if k == z { MadeOnce(lib, db, rs, j, y); }
    if j == y {
      UsedOnce(lib, db, rs, k, z);
      MadeOnce(lib, db, rs, i, x);
    }
    if i == x { UsedOnce(lib, db, rs, j, y); }
  }

  /**
    A token endpoint's grant goes to the user whose session asked for the code, at the client, URI and
    challenge it asked for.
   */
  lemma GrantHasOrigin(lib: Library, db: Db, rs: seq<Request>, k: nat) returns (i: nat)
    requires CanRun(lib, db, rs) && db.codes == map[] && Happened(lib, db, rs, k) && rs[k].Token?
    ensures i < k && Happened(lib, db, rs, i) && rs[i].Authorize? && rs[i].code == rs[k].ticket
    ensures rs[i].client == rs[k].client && rs[i].redirect == rs[k].redirect
    ensures rs[i].pkce == lib.pkce(OrEmpty(rs[k].verifier)) && rs[k].now < rs[i].now + CODE_TTL
    ensures rs[i].cookie.Some? && rs[i].cookie.value in After(lib, db, rs[..i]).sessions
    ensures After(lib, db, rs[..k]).codes[rs[k].ticket].user ==
              After(lib, db, rs[..i]).sessions[rs[i].cookie.value].user
  {
    hide Step, Unseen, CanRun, After;
    i := TicketOrigin(lib, db, rs, k);
    assert Valid(db);
    RunKeepsValid(lib, db, rs[..k]);
    RedeemsIff(lib, After(lib, db, rs[..k]), rs[k]);
  }
}
