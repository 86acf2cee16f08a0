/**
 * The life of a grant: authorization request, authorization code, refresh token, rotated
 * refresh token, revocation (server/handlers.go, server/api.go).
 *
 * The storage offers single-object operations only, and each handler makes several of them.
 * Here every storage call is one event and every handler a thread with a program counter, so
 * a run is any interleaving of any number of handlers, on any number of server instances,
 * any of whose calls may fail without effect.
 */
module Grants {
  import opened Common
  import opened OAuth2

  /** Values of storage.NewID: never drawn twice. */
  type Id = int
  type Tid = int

  // ---------------------------------------------------------------- stored objects

  /** What a client was granted, as copied from request to code to refresh token. */
  datatype Grant = Grant(clientID: string, scopes: seq<string>, nonce: string)

  datatype AuthRequest = AuthRequest(request: Request, expiry: Time, loggedIn: bool, claims: Claims, connID: string)

  datatype AuthCode = AuthCode(grant: Grant, redirectURI: string, connID: string, claims: Claims, expiry: Time)

  datatype RefreshToken = RefreshToken(token: Id, grant: Grant, connID: string, claims: Claims)

  /** An offline session belongs to a user of a connector and names one refresh token per client. */
  datatype SessionKey = SessionKey(userID: string, connID: string)

  type Session = map<string, Id>

  type Sessions = map<SessionKey, Session>

  const REQUEST_LIFETIME: Time := 24 * 3600 * 1_000_000_000
  const CODE_LIFETIME: Time := 30 * 60 * 1_000_000_000
  const NO_CLAIMS := Claims("", "", "", false, [])

  // ---------------------------------------------------------------- handlers in flight

  /** A code exchange: the code presented, the copy read of it, and who presented it with what. */
  datatype Exchange = Exchange(codeID: Id, code: AuthCode, client: string, redirectURI: string, readAt: Time)

  /** A refresh: the pair presented, by whom, the copy read of the token, and the scopes asked for. */
  datatype Refresh = Refresh(id: Id, value: Id, client: string, copy: RefreshToken, scopes: seq<string>)

  datatype Thread =
    | Approving(reqID: Id, req: AuthRequest)                       // request read, expiry not yet checked
    | Timely(reqID: Id, req: AuthRequest)                          // about to delete the request
    | Responding(reqID: Id, req: AuthRequest, next: nat, code: Option<Id>)
    | Delivered(reqID: Id, code: Option<Id>)
    | Exchanging(x: Exchange)                                      // code read and checked
    | Consumed(x: Exchange)                                        // code deleted
    | Created(x: Exchange, id: Id, value: Id)                      // refresh token stored
    | Unlinked(x: Exchange, id: Id, value: Id)                     // no session found
    | Replacing(x: Exchange, id: Id, value: Id, former: Id)           // session names an older token
    | Linking(x: Exchange, id: Id, value: Id)                      // about to update the session
    | RollingBack(x: Exchange, id: Id)                             // about to delete the new token
    | Exchanged(x: Exchange, refresh: Option<(Id, Id)>)
    | Refreshing(r: Refresh)                                       // token read and checked
    | Prepared(r: Refresh, newValue: Id, claims: Claims)           // about to check the session
    | Checked(r: Refresh, newValue: Id, claims: Claims)            // about to rotate the token
    | Refreshed(r: Refresh, newValue: Id)
    | Revoking(id: Id)                                             // reference removed, token not yet deleted
    | Ended

  /** The table, configuration and parameters under which a request was accepted. */
  datatype Acceptance = Acceptance(dir: Directory, supported: set<string>, q: Query)

  /** What a run has let through and where its codes and tokens come from; no step reads it to decide. */
  datatype History = History(
    accepted: map<Id, Request>,    // the requests let through, by request ID
    grounds: map<Id, Acceptance>,  // why they were let through
    origin: map<Id, Id>)           // the request a code or refresh token goes back to

  /** Who logged in and what was given out, and when; no step reads it to decide. */
  datatype Trail = Trail(
    acceptedAt: map<Id, Time>,       // when a request was accepted
    approved: map<Id, AuthRequest>,  // the copy of a request with which its approval went on to respond
    storedAt: map<Id, Time>,         // when a code was stored
    given: map<Id, Id>,              // the value last given out for a refresh token
    answered: map<Id, Claims>)       // what the connector answered in the last refresh of a token

  datatype Store = Store(
    now: Time,
    reqs: map<Id, AuthRequest>,
    codes: map<Id, AuthCode>,
    tokens: map<Id, RefreshToken>,
    sessions: Sessions,
    used: set<Id>,
    retired: set<Id>,  // refresh tokens whose session reference was removed or replaced
    hist: History,
    trail: Trail)

  datatype State = State(store: Store, threads: map<Tid, Thread>)

  function Init(now: Time): State {
    State(Store(now, map[], map[], map[], map[], {}, {}, History(map[], map[], map[]),
                Trail(map[], map[], map[], map[], map[])), map[])
  }

  /** The outcome of one step of one thread. */
  datatype Next = Next(st: Store, th: Thread)

  /** What the outside decides in a step: the IDs drawn, a connector's answer, refreshed claims. */
  datatype Oracle = Oracle(first: Id, second: Id, yes: bool, claims: Claims)

  datatype Event =
    | Tick(elapsed: nat)
    | Authorize(id: Id, how: Acceptance)
    | SetConnector(reqID: Id, connID: string)
    | FinalizeLogin(reqID: Id, claims: Claims)
    | CollectGarbage
    | BeginApproval(t: Tid, reqID: Id)
    | BeginExchange(t: Tid, codeID: Id, client: string, redirectURI: string)
    | BeginRefresh(t: Tid, id: Id, value: Id, client: string, scopes: Option<seq<string>>)
    | BeginRevoke(t: Tid, key: SessionKey, client: string)
    | Advance(t: Tid, oracle: Oracle)
    | Fail(t: Tid)

  // ---------------------------------------------------------------- pieces of handlers

  function AcceptedRequest(how: Acceptance): Request
    requires Accepts(how.dir, how.supported, how.q)
  {
    Accepted(how.dir, how.q)
  }

  function GrantOf(request: Request): Grant {
    Grant(request.clientID, request.scopes, request.nonce)
  }

  function NewCode(req: AuthRequest, now: Time): AuthCode {
    AuthCode(GrantOf(req.request), req.request.redirectURI, req.connID, req.claims, now + CODE_LIFETIME)
  }

  function NewRefresh(code: AuthCode, value: Id): RefreshToken {
    RefreshToken(value, code.grant, code.connID, code.claims)
  }

  /** A rotated token: new value, refreshed claims, the user as before. */
  function RotatedToken(token: RefreshToken, newValue: Id, claims: Claims): RefreshToken {
    token.(token := newValue, claims := claims.(userID := token.claims.userID))
  }

  function HomeOf(token: RefreshToken): SessionKey {
    SessionKey(token.claims.userID, token.connID)
  }

  function HomeOfCode(code: AuthCode): SessionKey {
    SessionKey(code.claims.userID, code.connID)
  }

  function OriginOf(h: History, id: Id): Id {
    if id in h.origin then h.origin[id] else id
  }

  function From(h: History, id: Id, reqID: Id): History {
    h.(origin := h.origin[id := reqID])
  }

  /** The session `key` names refresh token `id` for `client`. */
  predicate Names(sessions: Sessions, key: SessionKey, client: string, id: Id) {
    key in sessions && client in sessions[key] && sessions[key][client] == id
  }

  /** How setting or removing the reference of one slot shows in `Names`. */
  ghost predicate Rewritten(before: Sessions, after: Sessions, key: SessionKey, client: string, now: Option<Id>) {
    forall k, c, i ::
      Names(after, k, c, i) <==> if k == key && c == client then Some(i) == now else Names(before, k, c, i)
  }

  /** The session check of a refresh: the session of the token's user names this very token for its client. */
  predicate PassesSessionCheck(st: Store, id: Id, copy: RefreshToken) {
    Names(st.sessions, HomeOf(copy), copy.grant.clientID, id)
  }

  function Linked(session: Session, client: string, id: Id): Session {
    session[client := id]
  }

  // ---------------------------------------------------------------- events without a thread

  /** An accepted request, stored under a fresh ID. */
  function Admitted(st: Store, id: Id, request: Request, how: Acceptance): Store {
    st.(
      reqs := st.reqs[id := AuthRequest(request, st.now + REQUEST_LIFETIME, false, NO_CLAIMS, "")],
      used := st.used + {id},
      hist := st.hist.(accepted := st.hist.accepted[id := request], grounds := st.hist.grounds[id := how]),
      trail := st.trail.(acceptedAt := st.trail.acceptedAt[id := st.now]))
  }

  function AuthorizeStep(st: Store, id: Id, how: Acceptance): Store {
    if id in st.used || !Accepts(how.dir, how.supported, how.q) then st
    else Admitted(st, id, AcceptedRequest(how), how)
  }

  function CollectGarbageStep(st: Store): Store {
    st.(reqs := map id | id in st.reqs && !(st.now > st.reqs[id].expiry) :: st.reqs[id],
        codes := map id | id in st.codes && !(st.now > st.codes[id].expiry) :: st.codes[id])
  }

  function RequestStep(st: Store, e: Event): Store {
    match e
    case Authorize(id, how) => AuthorizeStep(st, id, how)
    case SetConnector(reqID, connID) =>
      if reqID in st.reqs then st.(reqs := st.reqs[reqID := st.reqs[reqID].(connID := connID)]) else st
    case FinalizeLogin(reqID, claims) =>
      if reqID !in st.reqs then st
      else st.(reqs := st.reqs[reqID := st.reqs[reqID].(loggedIn := true, claims := claims)])
    case CollectGarbage => CollectGarbageStep(st)
    case Tick(elapsed) => st.(now := st.now + elapsed)
    case _ => st
  }

  // ---------------------------------------------------------------- first steps of handlers

  function StartApproval(st: Store, reqID: Id): Thread {
    if reqID in st.reqs && st.reqs[reqID].loggedIn then Approving(reqID, st.reqs[reqID]) else Ended
  }

  function StartExchange(st: Store, codeID: Id, client: string, redirectURI: string): Thread {
    if codeID in st.codes && !(st.now > st.codes[codeID].expiry)
       && st.codes[codeID].grant.clientID == client && st.codes[codeID].redirectURI == redirectURI
    then Exchanging(Exchange(codeID, st.codes[codeID], client, redirectURI, st.now))
    else Ended
  }

  /** A refresh may ask for fewer scopes than were granted, never for others. */
  function StartRefresh(st: Store, id: Id, value: Id, client: string, scopes: Option<seq<string>>): Thread {
    if id in st.tokens && st.tokens[id].grant.clientID == client && st.tokens[id].token == value
       && (scopes.Some? ==> forall scope :: scope in scopes.value ==> scope in st.tokens[id].grant.scopes)
    then
      var granted := st.tokens[id].grant.scopes;
      Refreshing(Refresh(id, value, client, st.tokens[id], if scopes.Some? then scopes.value else granted))
    else Ended
  }

  function StartRevoke(st: Store, key: SessionKey, client: string): Next {
    if key in st.sessions && client in st.sessions[key] then
      Next(st.(sessions := st.sessions[key := st.sessions[key] - {client}],
               retired := st.retired + {st.sessions[key][client]}),
           Revoking(st.sessions[key][client]))
    else Next(st, Ended)
  }

  // ---------------------------------------------------------------- handleApproval, sendCodeResponse

  function DeleteRequest(st: Store, reqID: Id, req: AuthRequest): Next {
    if reqID !in st.reqs then Next(st, Ended)
    else Next(
      st.(reqs := st.reqs - {reqID}, trail := st.trail.(approved := st.trail.approved[reqID := req])),
      Responding(reqID, req, 0, None))
  }

  /** A code for the request, stored under a fresh ID. */
  function CodeStored(st: Store, reqID: Id, req: AuthRequest, id: Id): Store {
    st.(codes := st.codes[id := NewCode(req, st.now)],
        used := st.used + {id},
        hist := From(st.hist, id, reqID),
        trail := st.trail.(storedAt := st.trail.storedAt[id := st.now]))
  }

  /** One turn of the response-type loop, or the redirect after it. */
  function Respond(st: Store, th: Thread, o: Oracle): Next
    requires th.Responding?
  {
    var request := th.req.request;
    if th.next >= |request.responseTypes| then Next(st, Delivered(th.reqID, th.code))
    else if request.responseTypes[th.next] != RESPONSE_TYPE_CODE then Next(st, th.(next := th.next + 1))
    else if o.first in st.used then Next(st, th)
    else Next(
      CodeStored(st, th.reqID, th.req, o.first),
      if request.redirectURI == REDIRECT_URI_OOB then Delivered(th.reqID, Some(o.first))
      else th.(next := th.next + 1, code := Some(o.first)))
  }

  // ---------------------------------------------------------------- handleAuthCode

  function DeleteCode(st: Store, x: Exchange): Next {
    if x.codeID in st.codes then Next(st.(codes := st.codes - {x.codeID}), Consumed(x)) else Next(st, Ended)
  }

  /** A refresh token for the code, stored under a fresh ID with a fresh value. */
  function TokenStored(st: Store, x: Exchange, id: Id, value: Id): Store {
    st.(tokens := st.tokens[id := NewRefresh(x.code, value)],
        used := st.used + {id, value},
        hist := From(st.hist, id, OriginOf(st.hist, x.codeID)),
        trail := st.trail.(given := st.trail.given[id := value]))
  }

  /** A refresh token is created if the connector can refresh (`yes`) and offline access was granted. */
  function CreateRefresh(st: Store, x: Exchange, o: Oracle): Next {
    if !o.yes || SCOPE_OFFLINE_ACCESS !in x.code.grant.scopes then Next(st, Exchanged(x, None))
    else if o.first in st.used || o.second in st.used || o.first == o.second then Next(st, Consumed(x))
    else Next(TokenStored(st, x, o.first, o.second), Created(x, o.first, o.second))
  }

  function ReadSession(st: Store, x: Exchange, id: Id, value: Id): Thread {
    var key, client := HomeOfCode(x.code), x.code.grant.clientID;
    if key !in st.sessions then Unlinked(x, id, value)
    else if client in st.sessions[key] then Replacing(x, id, value, st.sessions[key][client])
    else Linking(x, id, value)
  }

  function CreateSession(st: Store, x: Exchange, id: Id, value: Id): Next {
    var key, client := HomeOfCode(x.code), x.code.grant.clientID;
    if key in st.sessions then Next(st, RollingBack(x, id))
    else Next(st.(sessions := st.sessions[key := map[client := id]]), Exchanged(x, Some((id, value))))
  }

  function DeleteFormer(st: Store, x: Exchange, id: Id, value: Id, former: Id): Next {
    if former in st.tokens then Next(st.(tokens := st.tokens - {former}), Linking(x, id, value))
    else Next(st, RollingBack(x, id))
  }

  function UpdateSession(st: Store, x: Exchange, id: Id, value: Id): Next {
    var key, client := HomeOfCode(x.code), x.code.grant.clientID;
    if key !in st.sessions then Next(st, RollingBack(x, id))
    else Next(
      st.(sessions := st.sessions[key := Linked(st.sessions[key], client, id)],
          retired := st.retired + (if client in st.sessions[key] then {st.sessions[key][client]} else {})),
      Exchanged(x, Some((id, value))))
  }

  // ---------------------------------------------------------------- handleRefreshToken

  function DrawValue(st: Store, r: Refresh, o: Oracle): Next {
    if o.first in st.used then Next(st, Refreshing(r))
    else Next(st.(used := st.used + {o.first}), Prepared(r, o.first, o.claims))
  }

  /** The stored token with its new value and the connector's answer. */
  function TokenRotated(st: Store, id: Id, newValue: Id, claims: Claims): Store
    requires id in st.tokens
  {
    st.(tokens := st.tokens[id := RotatedToken(st.tokens[id], newValue, claims)],
        trail := st.trail.(given := st.trail.given[id := newValue],
                           answered := st.trail.answered[id := claims]))
  }

  function RotateToken(st: Store, r: Refresh, newValue: Id, claims: Claims): Next {
    if r.id in st.tokens && st.tokens[r.id].token == r.copy.token
    then Next(TokenRotated(st, r.id, newValue, claims), Refreshed(r, newValue))
    else Next(st, Ended)
  }

  // ---------------------------------------------------------------- threads

  function ApprovalStep(st: Store, th: Thread, o: Oracle): Next {
    match th
    case Approving(reqID, req) => Next(st, if st.now > req.expiry then Ended else Timely(reqID, req))
    case Timely(reqID, req) => DeleteRequest(st, reqID, req)
    case Responding(_, _, _, _) => Respond(st, th, o)
    case _ => Next(st, th)
  }

  function ExchangeStep(st: Store, th: Thread, o: Oracle): Next {
    match th
    case Exchanging(x) => DeleteCode(st, x)
    case Consumed(x) => CreateRefresh(st, x, o)
    case Created(x, id, value) => Next(st, ReadSession(st, x, id, value))
    case Unlinked(x, id, value) => CreateSession(st, x, id, value)
    case Replacing(x, id, value, former) => DeleteFormer(st, x, id, value, former)
    case Linking(x, id, value) => UpdateSession(st, x, id, value)
    case RollingBack(x, id) => Next(st.(tokens := st.tokens - {id}), Ended)
    case _ => Next(st, th)
  }

  function RefreshStep(st: Store, th: Thread, o: Oracle): Next {
    match th
    case Refreshing(r) => DrawValue(st, r, o)
    case Prepared(r, newValue, claims) =>
      Next(st, if PassesSessionCheck(st, r.id, r.copy) then Checked(r, newValue, claims) else Ended)
    case Checked(r, newValue, claims) => RotateToken(st, r, newValue, claims)
    case Revoking(id) => Next(st.(tokens := st.tokens - {id}), Ended)
    case _ => Next(st, th)
  }

  predicate IsApproval(th: Thread) {
    th.Approving? || th.Timely? || th.Responding?
  }

  predicate IsExchange(th: Thread) {
    th.Exchanging? || th.Consumed? || th.Created? || th.Unlinked? || th.Replacing? || th.Linking? || th.RollingBack?
  }

  function AdvanceStep(st: Store, th: Thread, o: Oracle): Next {
    if IsApproval(th) then ApprovalStep(st, th, o)
    else if IsExchange(th) then ExchangeStep(st, th, o)
    else RefreshStep(st, th, o)
  }

  /** A storage call that fails: the handler gives up, first undoing the token it created. */
  function FailStep(th: Thread): Thread {
    match th
    case Created(x, id, _) => RollingBack(x, id)
    case Unlinked(x, id, _) => RollingBack(x, id)
    case Replacing(x, id, _, _) => RollingBack(x, id)
    case Linking(x, id, _) => RollingBack(x, id)
    case Delivered(_, _) => th
    case Exchanged(_, _) => th
    case Refreshed(_, _) => th
    case _ => Ended
  }

  predicate IsStart(e: Event) {
    e.BeginApproval? || e.BeginExchange? || e.BeginRefresh? || e.BeginRevoke?
  }

  function StartStep(st: Store, e: Event): Next
    requires IsStart(e)
  {
    match e
    case BeginApproval(_, reqID) => Next(st, StartApproval(st, reqID))
    case BeginExchange(_, codeID, client, redirectURI) => Next(st, StartExchange(st, codeID, client, redirectURI))
    case BeginRefresh(_, id, value, client, scopes) => Next(st, StartRefresh(st, id, value, client, scopes))
    case BeginRevoke(_, key, client) => StartRevoke(st, key, client)
  }

  // ---------------------------------------------------------------- runs

  /** What an event does to the store and to the thread it moves. */
  function ThreadStep(st: Store, th: Thread, e: Event): Next
    requires e.Advance? || e.Fail?
  {
    if e.Advance? then AdvanceStep(st, th, e.oracle) else Next(st, FailStep(th))
  }

  function Moved(s: State, t: Tid, n: Next): State {
    State(n.st, s.threads[t := n.th])
  }

  function Step(s: State, e: Event): State {
    if e.Advance? || e.Fail? then
      if e.t in s.threads then Moved(s, e.t, ThreadStep(s.store, s.threads[e.t], e)) else s
    else if IsStart(e) then
      if e.t in s.threads then s else Moved(s, e.t, StartStep(s.store, e))
    else State(RequestStep(s.store, e), s.threads)
  }

  /** The state after the events of `run`, in order, from `s`. */
  function Run(s: State, run: seq<Event>): State {
    if run == [] then s else Step(Run(s, run[..|run| - 1]), run[|run| - 1])
  }
}
