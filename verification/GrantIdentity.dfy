/**
 * Whose grants they are, over every interleaving: codes, refresh tokens and session references belong
 * to the user and connector of the login their request was approved with, and a refresh token carries
 * what the connector answered last.
 */
module GrantIdentity {
  import opened Common
  import opened OAuth2
  import opened Grants
  import opened GrantSafety

  // ---------------------------------------------------------------- what belongs to a login

  /** The code or token `id` goes back to a request that was approved. */
  ghost predicate Approved(st: Store, id: Id) {
    id in st.hist.origin && st.hist.origin[id] in st.trail.approved
  }

  /** The copy of that request with which the approval went on. */
  function LoginOf(st: Store, id: Id): AuthRequest
    requires Approved(st, id)
  {
    st.trail.approved[st.hist.origin[id]]
  }

  ghost predicate GrantedBy(grant: Grant, request: Request) {
    grant.clientID == request.clientID && grant.scopes == request.scopes && grant.nonce == request.nonce
  }

  ghost predicate CodeBelongs(st: Store, id: Id, code: AuthCode) {
    && Approved(st, id) && id in st.trail.storedAt
    && GrantedBy(code.grant, LoginOf(st, id).request) && code.redirectURI == LoginOf(st, id).request.redirectURI
    && code.connID == LoginOf(st, id).connID && code.claims == LoginOf(st, id).claims
    && code.expiry == st.trail.storedAt[id] + 1_800_000_000_000
  }

  /** What never changes about a refresh token. */
  ghost predicate TokenFrom(st: Store, id: Id, token: RefreshToken) {
    && Approved(st, id)
    && GrantedBy(token.grant, LoginOf(st, id).request) && "offline_access" in token.grant.scopes
    && token.connID == LoginOf(st, id).connID && token.claims.userID == LoginOf(st, id).claims.userID
  }

  /** The claims of the last refresh, or of the login if there was none. */
  ghost predicate TokenCurrent(st: Store, id: Id, token: RefreshToken)
    requires Approved(st, id)
  {
    && id in st.trail.given && token.token == st.trail.given[id]
    && var last := if id in st.trail.answered then st.trail.answered[id] else LoginOf(st, id).claims;
       && token.claims.username == last.username && token.claims.email == last.email
       && token.claims.emailVerified == last.emailVerified && token.claims.groups == last.groups
  }

  ghost predicate RefBelongs(st: Store, key: SessionKey, client: string, id: Id) {
    && Approved(st, id) && client == LoginOf(st, id).request.clientID
    && key.userID == LoginOf(st, id).claims.userID && key.connID == LoginOf(st, id).connID
  }

  /** A copy of a request lives for a day from its acceptance. */
  ghost predicate Dated(st: Store, id: Id, req: AuthRequest) {
    id in st.trail.acceptedAt && req.expiry == st.trail.acceptedAt[id] + 86_400_000_000_000
  }

  // ---------------------------------------------------------------- the invariant

  ghost predicate IdsUsed(st: Store) {
    && st.reqs.Keys <= st.used && st.hist.origin.Keys <= st.used && st.trail.acceptedAt.Keys <= st.used
    && st.trail.approved.Keys <= st.used && st.trail.storedAt.Keys <= st.used
    && st.trail.given.Keys <= st.used && st.trail.answered.Keys <= st.used
    && (forall id :: id in st.trail.approved ==> id !in st.reqs)
  }

  ghost predicate RequestsDated(st: Store) {
    && (forall id :: id in st.reqs ==> Dated(st, id, st.reqs[id]))
    && (forall id :: id in st.trail.approved ==>
          Dated(st, id, st.trail.approved[id]) && st.trail.approved[id].loggedIn
          && RequestOk(st.hist, id, st.trail.approved[id]))
  }

  ghost predicate CodesBelong(st: Store) {
    forall id :: id in st.codes ==> CodeBelongs(st, id, st.codes[id])
  }

  ghost predicate TokensBelong(st: Store) {
    forall id :: id in st.tokens ==> TokenFrom(st, id, st.tokens[id]) && TokenCurrent(st, id, st.tokens[id])
  }

  ghost predicate RefsBelong(st: Store) {
    forall key, client, id: Id :: Names(st.sessions, key, client, id) ==> RefBelongs(st, key, client, id)
  }

  ghost predicate AllBelong(st: Store) {
    IdsUsed(st) && RequestsDated(st) && CodesBelong(st) && TokensBelong(st) && RefsBelong(st)
  }

  ghost predicate ThreadBelongs(st: Store, th: Thread) {
    && (th.Approving? || th.Timely? ==> Dated(st, th.reqID, th.req) && th.req.loggedIn)
    && (th.Responding? ==> th.reqID in st.trail.approved && st.trail.approved[th.reqID] == th.req)
    && (IsExchange(th) || th.Exchanged? ==> CodeBelongs(st, th.x.codeID, th.x.code))
    && (Installs(th).Some? ==> Approved(st, th.id) && st.hist.origin[th.id] == st.hist.origin[th.x.codeID])
    && (IsRefresh(th) ==> TokenFrom(st, th.r.id, th.r.copy))
  }

  ghost predicate Belonging(s: State) {
    AllBelong(s.store) && forall t :: t in s.threads ==> ThreadBelongs(s.store, s.threads[t])
  }

  // ---------------------------------------------------------------- what is on record stays

  ghost predicate TrailGrows(st: Store, st': Store) {
    && (forall id :: id in st.hist.origin ==> id in st'.hist.origin && st'.hist.origin[id] == st.hist.origin[id])
    && (forall id :: id in st.trail.approved ==>
          id in st'.trail.approved && st'.trail.approved[id] == st.trail.approved[id])
    && (forall id :: id in st.trail.storedAt ==>
          id in st'.trail.storedAt && st'.trail.storedAt[id] == st.trail.storedAt[id])
    && (forall id :: id in st.trail.acceptedAt ==>
          id in st'.trail.acceptedAt && st'.trail.acceptedAt[id] == st.trail.acceptedAt[id])
  }

  lemma ThreadStaysPut(st: Store, st': Store, th: Thread)
    requires TrailGrows(st, st') && ThreadBelongs(st, th)
    ensures ThreadBelongs(st', th)
  {
  }

  lemma CodesStayPut(st: Store, st': Store)
    requires TrailGrows(st, st') && CodesBelong(st)
    requires forall id :: id in st'.codes ==> id in st.codes && st'.codes[id] == st.codes[id]
    ensures CodesBelong(st')
  {
  }

  lemma TokensStayPut(st: Store, st': Store)
    requires TrailGrows(st, st') && TokensBelong(st)
    requires st'.trail.given == st.trail.given && st'.trail.answered == st.trail.answered
    requires forall id :: id in st'.tokens ==> id in st.tokens && st'.tokens[id] == st.tokens[id]
    ensures TokensBelong(st')
  {
  }

  lemma RefsStayPut(st: Store, st': Store)
    requires TrailGrows(st, st') && RefsBelong(st)
    requires forall key, client, id: Id :: Names(st'.sessions, key, client, id) ==> Names(st.sessions, key, client, id)
    ensures RefsBelong(st')
  {
  }

  ghost predicate BelongingStep(st: Store, n: Next) {
    TrailGrows(st, n.st) && AllBelong(n.st) && ThreadBelongs(n.st, n.th)
  }

  lemma MoveKeepsBelonging(s: State, t: Tid, n: Next)
    requires Belonging(s) && BelongingStep(s.store, n)
    ensures Belonging(Moved(s, t, n))
  {
    forall p | p in s.threads
      ensures ThreadBelongs(n.st, s.threads[p])
    {
      ThreadStaysPut(s.store, n.st, s.threads[p]);
    }
  }

  /** Steps that record nothing, and at most delete. */
  ghost predicate OnlyDeletes(st: Store, st': Store) {
    && st'.hist == st.hist && st'.trail == st.trail && st.used <= st'.used && st'.reqs == st.reqs
    && (forall id :: id in st'.codes ==> id in st.codes && st'.codes[id] == st.codes[id])
    && (forall id :: id in st'.tokens ==> id in st.tokens && st'.tokens[id] == st.tokens[id])
    && (forall key, client, id: Id :: Names(st'.sessions, key, client, id) ==> Names(st.sessions, key, client, id))
  }

  lemma DeletingBelongs(st: Store, st': Store)
    requires AllBelong(st) && OnlyDeletes(st, st')
    ensures TrailGrows(st, st') && AllBelong(st')
  {
    CodesStayPut(st, st');
    TokensStayPut(st, st');
    RefsStayPut(st, st');
  }

  // ---------------------------------------------------------------- events without a thread

  lemma AdmittedBelongs(st: Store, id: Id, request: Request, how: Acceptance)
    requires AllBelong(st) && id !in st.used
    ensures TrailGrows(st, Admitted(st, id, request, how)) && AllBelong(Admitted(st, id, request, how))
  {
    var st' := Admitted(st, id, request, how);
    assert TrailGrows(st, st');
    CodesStayPut(st, st');
    TokensStayPut(st, st');
    RefsStayPut(st, st');
  }

  /** A login moves on, without changing when its request was accepted. */
  lemma RequestChanges(st: Store, st': Store)
    requires AllBelong(st) && st'.reqs.Keys <= st.reqs.Keys
    requires st'.hist == st.hist && st'.trail == st.trail && st'.used == st.used
    requires st'.tokens == st.tokens && st'.sessions == st.sessions
    requires forall id :: id in st'.reqs ==> st'.reqs[id].expiry == st.reqs[id].expiry
    requires forall id :: id in st'.codes ==> id in st.codes && st'.codes[id] == st.codes[id]
    ensures TrailGrows(st, st') && AllBelong(st')
  {
    CodesStayPut(st, st');
    TokensStayPut(st, st');
    RefsStayPut(st, st');
  }

  lemma RequestStepBelongs(st: Store, e: Event)
    requires AllBelong(st)
    ensures TrailGrows(st, RequestStep(st, e)) && AllBelong(RequestStep(st, e))
  {
    if e.Authorize? {
      if e.id !in st.used && Accepts(e.how.dir, e.how.supported, e.how.q) {
        AdmittedBelongs(st, e.id, AcceptedRequest(e.how), e.how);
      }
    } else {
      RequestChanges(st, RequestStep(st, e));
    }
  }

  // ---------------------------------------------------------------- approval

  lemma DeleteRequestBelongs(st: Store, th: Thread)
    requires AllBelong(st) && th.Timely? && ThreadBelongs(st, th) && ThreadOk(st.hist, th)
    ensures BelongingStep(st, DeleteRequest(st, th.reqID, th.req))
  {
    var st' := DeleteRequest(st, th.reqID, th.req).st;
    CodesStayPut(st, st');
    TokensStayPut(st, st');
    RefsStayPut(st, st');
  }

  lemma CodeStoredBelongs(st: Store, reqID: Id, req: AuthRequest, id: Id)
    requires AllBelong(st) && id !in st.used && reqID in st.trail.approved && st.trail.approved[reqID] == req
    ensures var st' := CodeStored(st, reqID, req, id); TrailGrows(st, st') && AllBelong(st')
  {
    var st' := CodeStored(st, reqID, req, id);
    assert TrailGrows(st, st');
    TokensStayPut(st, st');
    RefsStayPut(st, st');
    CodeJoins(st, st', id);
  }

  lemma CodeJoins(st: Store, st': Store, id: Id)
    requires CodesBelong(st) && TrailGrows(st, st')
    requires id in st'.codes && CodeBelongs(st', id, st'.codes[id])
    requires forall i :: i in st'.codes && i != id ==> i in st.codes && st'.codes[i] == st.codes[i]
    ensures CodesBelong(st')
  {
  }

  lemma RespondBelongs(st: Store, th: Thread, o: Oracle)
    requires AllBelong(st) && th.Responding? && ThreadBelongs(st, th)
    ensures BelongingStep(st, Respond(st, th, o))
  {
    var n := Respond(st, th, o);
    assert n.th.Delivered? || (n.th.Responding? && n.th.reqID == th.reqID && n.th.req == th.req);
    if n.st == st {
      assert TrailGrows(st, n.st);
    } else {
      assert n.st == CodeStored(st, th.reqID, th.req, o.first);
      CodeStoredBelongs(st, th.reqID, th.req, o.first);
    }
  }

  lemma ApprovalBelongs(st: Store, th: Thread, o: Oracle)
    requires AllBelong(st) && IsApproval(th) && ThreadBelongs(st, th) && ThreadOk(st.hist, th)
    ensures BelongingStep(st, ApprovalStep(st, th, o))
  {
    if th.Timely? {
      DeleteRequestBelongs(st, th);
    } else if th.Responding? {
      RespondBelongs(st, th, o);
    }
  }

  // ---------------------------------------------------------------- code exchange

  lemma TokenJoins(st: Store, st': Store, id: Id)
    requires TokensBelong(st) && TrailGrows(st, st')
    requires id in st'.tokens && TokenFrom(st', id, st'.tokens[id]) && TokenCurrent(st', id, st'.tokens[id])
    requires forall i :: i in st'.tokens && i != id ==> i in st.tokens && st'.tokens[i] == st.tokens[i]
    requires forall i :: i in st.trail.given && i != id ==>
               i in st'.trail.given && st'.trail.given[i] == st.trail.given[i]
    requires forall i :: i != id ==> (i in st.trail.answered <==> i in st'.trail.answered)
    requires forall i :: i in st.trail.answered && i != id ==> st'.trail.answered[i] == st.trail.answered[i]
    ensures TokensBelong(st')
  {
    forall i | i in st'.tokens
      ensures TokenFrom(st', i, st'.tokens[i]) && TokenCurrent(st', i, st'.tokens[i])
    {
      if i != id {
        assert TokenFrom(st, i, st.tokens[i]) && TokenCurrent(st, i, st.tokens[i]);
      }
    }
  }

  lemma TokenStoredBelongs(st: Store, x: Exchange, id: Id, value: Id)
    requires AllBelong(st) && CodeBelongs(st, x.codeID, x.code) && id !in st.used
    requires SCOPE_OFFLINE_ACCESS in x.code.grant.scopes
    ensures var st' := TokenStored(st, x, id, value);
            && TrailGrows(st, st') && AllBelong(st') && CodeBelongs(st', x.codeID, x.code)
            && Approved(st', id) && st'.hist.origin[id] == st'.hist.origin[x.codeID]
  {
    var st' := TokenStored(st, x, id, value);
    assert TrailGrows(st, st');
    CodesStayPut(st, st');
    RefsStayPut(st, st');
    TokenJoins(st, st', id);
  }

  lemma CreateRefreshBelongs(st: Store, x: Exchange, o: Oracle)
    requires AllBelong(st) && CodeBelongs(st, x.codeID, x.code)
    ensures BelongingStep(st, CreateRefresh(st, x, o))
  {
    if CreateRefresh(st, x, o).th.Created? {
      TokenStoredBelongs(st, x, o.first, o.second);
    }
  }

  /** Naming the new token in the session of its own user, connector and client. */
  lemma LinkBelongs(st: Store, st': Store, th: Thread)
    requires AllBelong(st) && Installs(th).Some? && ThreadBelongs(st, th)
    requires st' == st.(sessions := st'.sessions, retired := st'.retired)
    requires forall k, c, i :: Names(st'.sessions, k, c, i) ==>
               || Names(st.sessions, k, c, i)
               || (k == HomeOfCode(th.x.code) && c == th.x.code.grant.clientID && i == th.id)
    ensures TrailGrows(st, st') && AllBelong(st')
  {
    CodesStayPut(st, st');
    TokensStayPut(st, st');
    forall k, c, i | Names(st'.sessions, k, c, i)
      ensures RefBelongs(st', k, c, i)
    {
      if Names(st.sessions, k, c, i) {
        assert RefBelongs(st, k, c, i);
      }
    }
  }

  lemma LinkingBelongs(st: Store, th: Thread)
    requires AllBelong(st) && (th.Unlinked? || th.Linking?) && ThreadBelongs(st, th)
    ensures BelongingStep(st, if th.Unlinked? then CreateSession(st, th.x, th.id, th.value)
                              else UpdateSession(st, th.x, th.id, th.value))
  {
    var n := if th.Unlinked? then CreateSession(st, th.x, th.id, th.value)
             else UpdateSession(st, th.x, th.id, th.value);
    LinkBelongs(st, n.st, th);
  }

  /** The other steps of an exchange delete, and stay with the same code and token. */
  lemma OtherExchangeSteps(st: Store, th: Thread, o: Oracle)
    requires IsExchange(th) && !th.Consumed? && !th.Unlinked? && !th.Linking?
    ensures var n := ExchangeStep(st, th, o);
            && OnlyDeletes(st, n.st)
            && (n.th.Ended? || ((IsExchange(n.th) || n.th.Exchanged?) && n.th.x == th.x))
            && (Installs(n.th).Some? ==> Installs(n.th) == Installs(th))
  {
  }

  /** Deleting, with a thread that belonged already. */
  lemma DeletingStep(st: Store, n: Next)
    requires AllBelong(st) && OnlyDeletes(st, n.st) && ThreadBelongs(st, n.th)
    ensures BelongingStep(st, n)
  {
    DeletingBelongs(st, n.st);
    ThreadStaysPut(st, n.st, n.th);
  }

  lemma SameExchange(st: Store, th: Thread, th': Thread)
    requires IsExchange(th) && ThreadBelongs(st, th)
    requires th'.Ended? || ((IsExchange(th') || th'.Exchanged?) && th'.x == th.x)
    requires Installs(th').Some? ==> Installs(th') == Installs(th)
    ensures ThreadBelongs(st, th')
  {
  }

  lemma ExchangeBelongs(st: Store, th: Thread, o: Oracle)
    requires AllBelong(st) && IsExchange(th) && ThreadBelongs(st, th)
    ensures BelongingStep(st, ExchangeStep(st, th, o))
  {
    if th.Consumed? {
      CreateRefreshBelongs(st, th.x, o);
    } else if th.Unlinked? || th.Linking? {
      LinkingBelongs(st, th);
    } else {
      OtherExchangeSteps(st, th, o);
      SameExchange(st, th, ExchangeStep(st, th, o).th);
      DeletingStep(st, ExchangeStep(st, th, o));
    }
  }

  // ---------------------------------------------------------------- refresh and revocation

  lemma TokenRotatedBelongs(st: Store, id: Id, newValue: Id, claims: Claims)
    requires AllBelong(st) && id in st.tokens
    ensures var st' := TokenRotated(st, id, newValue, claims); TrailGrows(st, st') && AllBelong(st')
  {
    var st' := TokenRotated(st, id, newValue, claims);
    assert TokenFrom(st, id, st.tokens[id]) && TokenCurrent(st, id, st.tokens[id]);
    assert TrailGrows(st, st');
    CodesStayPut(st, st');
    RefsStayPut(st, st');
    TokenJoins(st, st', id);
  }

  lemma RotateBelongs(st: Store, r: Refresh, newValue: Id, claims: Claims)
    requires AllBelong(st) && TokenFrom(st, r.id, r.copy)
    ensures BelongingStep(st, RotateToken(st, r, newValue, claims))
  {
    if RotateToken(st, r, newValue, claims).th.Refreshed? {
      TokenRotatedBelongs(st, r.id, newValue, claims);
    }
  }

  lemma OtherRefreshSteps(st: Store, th: Thread, o: Oracle)
    requires !IsApproval(th) && !IsExchange(th) && !th.Checked? && ThreadBelongs(st, th)
    ensures OnlyDeletes(st, RefreshStep(st, th, o).st) && ThreadBelongs(st, RefreshStep(st, th, o).th)
  {
  }

  lemma RefreshBelongs(st: Store, th: Thread, o: Oracle)
    requires AllBelong(st) && !IsApproval(th) && !IsExchange(th) && ThreadBelongs(st, th)
    ensures BelongingStep(st, RefreshStep(st, th, o))
  {
    if th.Checked? {
      RotateBelongs(st, th.r, th.newValue, th.claims);
    } else {
      OtherRefreshSteps(st, th, o);
      DeletingStep(st, RefreshStep(st, th, o));
    }
  }

  lemma StartDeletes(st: Store, e: Event)
    requires IsStart(e)
    ensures OnlyDeletes(st, StartStep(st, e).st)
  {
  }

  lemma StartedBelongs(st: Store, e: Event)
    requires AllBelong(st) && IsStart(e)
    ensures ThreadBelongs(st, StartStep(st, e).th)
  {
  }

  lemma StartBelongs(st: Store, e: Event)
    requires AllBelong(st) && IsStart(e)
    ensures BelongingStep(st, StartStep(st, e))
  {
    StartDeletes(st, e);
    StartedBelongs(st, e);
    DeletingStep(st, StartStep(st, e));
  }

  // ---------------------------------------------------------------- all runs

  lemma FailedBelongs(st: Store, th: Thread)
    requires ThreadBelongs(st, th)
    ensures ThreadBelongs(st, FailStep(th))
  {
  }

  lemma ThreadStepBelongs(st: Store, th: Thread, e: Event)
    requires AllBelong(st) && ThreadBelongs(st, th) && ThreadOk(st.hist, th) && (e.Advance? || e.Fail?)
    ensures BelongingStep(st, ThreadStep(st, th, e))
  {
    if e.Fail? {
      FailedBelongs(st, th);
      DeletingStep(st, Next(st, FailStep(th)));
    } else if IsApproval(th) {
      ApprovalBelongs(st, th, e.oracle);
    } else if IsExchange(th) {
      ExchangeBelongs(st, th, e.oracle);
    } else {
      RefreshBelongs(st, th, e.oracle);
    }
  }

  lemma StepKeepsBelonging(s: State, e: Event)
    requires Belonging(s) && Traced(s)
    ensures Belonging(Step(s, e))
  {
    if e.Advance? || e.Fail? {
      if e.t in s.threads {
        ThreadStepBelongs(s.store, s.threads[e.t], e);
        MoveKeepsBelonging(s, e.t, ThreadStep(s.store, s.threads[e.t], e));
      }
    } else if IsStart(e) {
      if e.t !in s.threads {
        StartBelongs(s.store, e);
        MoveKeepsBelonging(s, e.t, StartStep(s.store, e));
      }
    } else {
      RequestStepBelongs(s.store, e);
      forall p | p in s.threads
        ensures ThreadBelongs(RequestStep(s.store, e), s.threads[p])
      {
        ThreadStaysPut(s.store, RequestStep(s.store, e), s.threads[p]);
      }
    }
  }

  lemma {:induction false} RunsKeepBelonging(start: Time, run: seq<Event>)
    ensures Belonging(Run(Init(start), run))
  {
    if run != [] {
      RunsKeepBelonging(start, run[..|run| - 1]);
      RunsAreSafe(start, run[..|run| - 1]);
      StepKeepsBelonging(Run(Init(start), run[..|run| - 1]), run[|run| - 1]);
    }
  }

  /**
   * Over every interleaving, a stored code is for the client, scopes, nonce and redirect URI of its request,
   * for the user and connector of the login it was approved with, and expires half an hour after it was stored.
   */
  lemma CodesBelongToTheirLogin(start: Time, run: seq<Event>, id: Id)
    requires id in Run(Init(start), run).store.codes
    ensures var st := Run(Init(start), run).store;
            && Approved(st, id) && id in st.trail.storedAt
            && var code, login := st.codes[id], st.trail.approved[st.hist.origin[id]];
               && code.connID == login.connID && code.claims == login.claims
               && code.grant.clientID == login.request.clientID && code.grant.scopes == login.request.scopes
               && code.grant.nonce == login.request.nonce && code.redirectURI == login.request.redirectURI
               && code.expiry == st.trail.storedAt[id] + 1_800_000_000_000
  {
    RunsKeepBelonging(start, run);
    var st := Run(Init(start), run).store;
    assert CodeBelongs(st, id, st.codes[id]);
  }

  /**
   * Over every interleaving, a stored refresh token is for what was granted at its login, for that user and
   * connector, exists only for offline access, has the value last given out for it, and carries what the
   * connector answered in its last refresh, or at the login if there was none.
   */
  lemma TokensBelongToTheirLogin(start: Time, run: seq<Event>, id: Id)
    requires id in Run(Init(start), run).store.tokens
    ensures var st := Run(Init(start), run).store;
            && Approved(st, id) && id in st.trail.given
            && var token, login := st.tokens[id], st.trail.approved[st.hist.origin[id]];
               var last := if id in st.trail.answered then st.trail.answered[id] else login.claims;
               && token.connID == login.connID && token.claims.userID == login.claims.userID
               && token.grant.clientID == login.request.clientID && token.grant.scopes == login.request.scopes
               && token.grant.nonce == login.request.nonce && "offline_access" in token.grant.scopes
               && token.token == st.trail.given[id]
               && token.claims.username == last.username && token.claims.email == last.email
               && token.claims.emailVerified == last.emailVerified && token.claims.groups == last.groups
  {
    RunsKeepBelonging(start, run);
    var st := Run(Init(start), run).store;
    assert TokenFrom(st, id, st.tokens[id]) && TokenCurrent(st, id, st.tokens[id]);
  }

  /** Over every interleaving, a reference is filed under the user, connector and client of its token's login. */
  lemma ReferencesBelongToTheirLogin(start: Time, run: seq<Event>, key: SessionKey, client: string, id: Id)
    requires Names(Run(Init(start), run).store.sessions, key, client, id)
    ensures var st := Run(Init(start), run).store;
            && Approved(st, id)
            && var login := st.trail.approved[st.hist.origin[id]];
               && key.userID == login.claims.userID && key.connID == login.connID
               && client == login.request.clientID
  {
    RunsKeepBelonging(start, run);
    assert RefBelongs(Run(Init(start), run).store, key, client, id);
  }

  /** The copy of a request an approval went on with is that of an accepted request, logged in, and lives for a day. */
  lemma ApprovalsAreOfAcceptedRequests(start: Time, run: seq<Event>, reqID: Id)
    requires reqID in Run(Init(start), run).store.trail.approved
    ensures var st := Run(Init(start), run).store;
            && reqID in st.hist.accepted && reqID in st.trail.acceptedAt && reqID !in st.reqs
            && var login := st.trail.approved[reqID];
               && login.loggedIn && login.request == st.hist.accepted[reqID]
               && login.expiry == st.trail.acceptedAt[reqID] + 86_400_000_000_000
  {
    RunsKeepBelonging(start, run);
    var st := Run(Init(start), run).store;
    assert RequestOk(st.hist, reqID, st.trail.approved[reqID]);
  }
}
