/**
 * What a re-login leaves behind that fails halfway (server/handlers.go): the former refresh token is
 * deleted, the session still names it. From then on no login of that user, connector and client gets
 * a refresh token, until the reference is revoked.
 */
module DanglingReferences {
  import opened Common
  import opened OAuth2
  import opened Grants
  import opened Handlers
  import opened HandlerAgreement
  import HandlerRuns

  /** The session `key` names for `client` a token that is not stored. */
  predicate Stuck(db: Db, key: SessionKey, client: string) {
    key in db.sessions && client in db.sessions[key] && db.sessions[key][client] !in db.tokens
  }

  // ---------------------------------------------------------------- whole handlers

  /** The references have been drawn. */
  ghost predicate Registered(w: HandlerRuns.World) {
    forall key, client :: key in w.db.sessions && client in w.db.sessions[key] ==> w.db.sessions[key][client] in w.used
  }

  lemma StuckDangles(db: Db, code: AuthCode)
    requires Stuck(db, HomeOfCode(code), code.grant.clientID)
    ensures Dangling(db, code)
  {
    var id := db.sessions[HomeOfCode(code)][code.grant.clientID];
    assert id in Former(db, code) && id !in db.tokens;
  }

  lemma ExchangeKeepsStuck(db: Db, codeID: Id, canRefresh: bool, id: Id, value: Id, key: SessionKey, client: string)
    requires Stuck(db, key, client) && codeID in db.codes && db.sessions[key][client] != id
    ensures Stuck(ExchangeCode(db, codeID, canRefresh, id, value).0, key, client)
  {
    var code := db.codes[codeID];
    if HomeOfCode(code) == key && code.grant.clientID == client {
      StuckDangles(db, code);
    }
  }

  /** A call frees a stuck reference if and only if it revokes that very reference. */
  lemma OnlyRevocationFrees(w: HandlerRuns.World, call: HandlerRuns.Call, key: SessionKey, client: string)
    requires Registered(w) && Stuck(w.db, key, client)
    ensures Stuck(HandlerRuns.Perform(w, call).w.db, key, client) <==> call != HandlerRuns.Revocation(key, client)
  {
    if call.CodeExchange? && HandlerRuns.Fresh(w.used, HandlerRuns.Draws(call)) {
      assert HandlerRuns.Draws(call)[0] == call.id;
      if call.signs && CanExchange(w.db, w.now, call.codeID, call.client, call.redirectURI) {
        ExchangeKeepsStuck(w.db, call.codeID, call.canRefresh, call.id, call.value, key, client);
      }
    }
  }

  lemma StaysRegistered(w: HandlerRuns.World, call: HandlerRuns.Call)
    requires Registered(w)
    ensures Registered(HandlerRuns.Perform(w, call).w)
  {
    if call.CodeExchange? {
      assert HandlerRuns.Draws(call)[0] == call.id;
    }
  }

  lemma {:induction false} StuckTillRevoked(
    w: HandlerRuns.World, calls: seq<HandlerRuns.Call>, key: SessionKey, client: string)
    requires Registered(w) && Stuck(w.db, key, client)
    requires HandlerRuns.Revocation(key, client) !in calls
    ensures var w' := HandlerRuns.Run(w, calls); Registered(w') && Stuck(w'.db, key, client)
  {
    if calls != [] {
      var init, last := calls[..|calls| - 1], calls[|calls| - 1];
      StuckTillRevoked(w, init, key, client);
      OnlyRevocationFrees(HandlerRuns.Run(w, init), last, key, client);
      StaysRegistered(HandlerRuns.Run(w, init), last);
    }
  }

  /** The code would give its user a refresh token for the slot of `key` and `client`. */
  predicate IsFor(code: AuthCode, canRefresh: bool, key: SessionKey, client: string) {
    HomeOfCode(code) == key && code.grant.clientID == client && WantsRefresh(code, canRefresh)
  }

  lemma StuckExchangeIsRefused(w: HandlerRuns.World, call: HandlerRuns.Call, key: SessionKey, client: string)
    requires Stuck(w.db, key, client)
    requires call.CodeExchange? && HandlerRuns.Fresh(w.used, HandlerRuns.Draws(call))
    requires call.codeID in w.db.codes && IsFor(w.db.codes[call.codeID], call.canRefresh, key, client)
    ensures HandlerRuns.Perform(w, call).outcome == HandlerRuns.Refused
  {
    StuckDangles(w.db, w.db.codes[call.codeID]);
  }

  /**
   * Whatever else is called, as long as the reference is not revoked every exchange of a code that would
   * give a refresh token for it is refused.
   */
  lemma StuckLoginsAreRefused(
    w: HandlerRuns.World, calls: seq<HandlerRuns.Call>, call: HandlerRuns.Call, key: SessionKey, client: string)
    requires Registered(w) && Stuck(w.db, key, client) && HandlerRuns.Revocation(key, client) !in calls
    requires var w' := HandlerRuns.Run(w, calls);
             && call.CodeExchange? && HandlerRuns.Fresh(w'.used, HandlerRuns.Draws(call))
             && call.codeID in w'.db.codes && IsFor(w'.db.codes[call.codeID], call.canRefresh, key, client)
    ensures HandlerRuns.Perform(HandlerRuns.Run(w, calls), call).outcome == HandlerRuns.Refused
  {
    StuckTillRevoked(w, calls, key, client);
    StuckExchangeIsRefused(HandlerRuns.Run(w, calls), call, key, client);
  }

  // ---------------------------------------------------------------- one failing call leads there

  /** A re-login in whose course the update of the session fails: six moves, the fifth of which breaks. */
  function FailingMoves(o: Oracle): seq<Move> {
    [Goes(o), Goes(o), Goes(o), Goes(o)] + [Breaks, Goes(o)]
  }

  lemma {:induction false} AloneConcat(st: Store, th: Thread, a: seq<Move>, b: seq<Move>)
    ensures var n := Alone(st, th, a); Alone(st, th, a + b) == Alone(n.st, n.th, b)
    decreases |a|
  {
    if a == [] {
      assert a + b == b;
    } else {
      var n := Moves(st, th, a[0]);
      assert (a + b)[1..] == a[1..] + b;
      AloneConcat(n.st, n.th, a[1..], b);
    }
  }

  /** The code is deleted and the new token stored. */
  lemma TokenCreated(st: Store, x: Exchange, m: Move)
    requires m.Goes? && x.codeID in st.codes && WantsRefresh(x.code, m.o.yes)
    requires m.o.first !in st.used && m.o.second !in st.used && m.o.first != m.o.second
    ensures var n := Alone(st, Exchanging(x), [m, m]);
            && n.th == Created(x, m.o.first, m.o.second) && n.st.sessions == st.sessions
            && n.st.tokens == st.tokens[m.o.first := NewRefresh(x.code, m.o.second)]
  {
    TwoMore(st, Exchanging(x), m, m);
  }

  /** The session is read and the token it names deleted. */
  lemma FormerDeleted(st: Store, x: Exchange, id: Id, value: Id, former: Id, m: Move)
    requires m.Goes? && former in st.tokens
    requires Names(st.sessions, HomeOfCode(x.code), x.code.grant.clientID, former)
    ensures var n := Alone(st, Created(x, id, value), [m, m]);
            n.th == Linking(x, id, value) && n.st.sessions == st.sessions && n.st.tokens == st.tokens - {former}
  {
    TwoMore(st, Created(x, id, value), m, m);
  }

  /** Whichever call fails once the new token is stored, the token is deleted again and the handler ends. */
  lemma FailuresRollBack(st: Store, th: Thread, o: Oracle)
    requires th.Created? || th.Unlinked? || th.Replacing? || th.Linking?
    ensures Alone(st, th, [Breaks, Goes(o)]) == Next(st.(tokens := st.tokens - {th.id}), Ended)
  {
    TwoMore(st, th, Breaks, Goes(o));
  }

  /** The update of the session fails, and the new token is deleted again. */
  lemma RollbackSticks(st: Store, x: Exchange, former: Id, o: Oracle)
    requires Names(st.sessions, HomeOfCode(x.code), x.code.grant.clientID, former) && former !in st.tokens
    ensures var n := Alone(st, Linking(x, o.first, o.second), [Breaks, Goes(o)]);
            && n.th.Ended? && Stuck(View(n.st), HomeOfCode(x.code), x.code.grant.clientID)
            && n.st.tokens == st.tokens - {o.first} && n.st.sessions == st.sessions
  {
    TwoMore(st, Linking(x, o.first, o.second), Breaks, Goes(o));
  }

  lemma AddedAndDropped(tokens: map<Id, RefreshToken>, id: Id, token: RefreshToken, former: Id)
    requires id !in tokens
    ensures tokens[id := token] - {former} - {id} == tokens - {former}
  {
  }

  /** In any store with a token to replace, one failing call during a re-login makes the reference stuck. */
  lemma OneFailureSticks(st: Store, codeID: Id, client: string, redirectURI: string, o: Oracle)
    requires Drawn(st) && o.first !in st.used && o.second !in st.used && o.first != o.second
    requires CanExchange(View(st), st.now, codeID, client, redirectURI) && WantsRefresh(st.codes[codeID], o.yes)
    requires Former(View(st), st.codes[codeID]) != {} && !Dangling(View(st), st.codes[codeID])
    ensures var n := Alone(st, StartExchange(st, codeID, client, redirectURI), FailingMoves(o));
            && n.th.Ended? && Stuck(View(n.st), HomeOfCode(st.codes[codeID]), client)
            && n.st.sessions == st.sessions && n.st.tokens == st.tokens - Former(View(st), st.codes[codeID])
  {
    var x := StartExchange(st, codeID, client, redirectURI).x;
    var former := st.sessions[HomeOfCode(x.code)][client];
    assert former in Former(View(st), x.code);
    var m := Goes(o);
    assert FailingMoves(o) == [m, m] + ([m, m] + [Breaks, m]);
    AloneConcat(st, Exchanging(x), [m, m], [m, m] + [Breaks, m]);
    TokenCreated(st, x, m);
    var created := Alone(st, Exchanging(x), [m, m]);
    AloneConcat(created.st, created.th, [m, m], [Breaks, m]);
    FormerDeleted(created.st, x, o.first, o.second, former, m);
    var n := Alone(created.st, created.th, [m, m]);
    assert former !in n.st.tokens;
    RollbackSticks(n.st, x, former, o);
    AddedAndDropped(st.tokens, o.first, NewRefresh(x.code, o.second), former);
    assert Former(View(st), x.code) == {former};
  }

  // ---------------------------------------------------------------- and there is a run

  /** The request asks for a code and offline access, and nothing else but perhaps scopes. */
  predicate AsksForRefresh(how: Acceptance) {
    && Accepts(how.dir, how.supported, how.q)
    && AcceptedRequest(how).responseTypes == [RESPONSE_TYPE_CODE]
    && SCOPE_OFFLINE_ACCESS in AcceptedRequest(how).scopes
  }

  /** What a login of `claims` on such a request leaves: a code, ready to be exchanged. */
  ghost predicate CodeReady(s: State, codeID: Id, how: Acceptance, claims: Claims)
    requires AsksForRefresh(how)
  {
    var request := AcceptedRequest(how);
    && CanExchange(View(s.store), s.store.now, codeID, request.clientID, request.redirectURI)
    && s.store.codes[codeID].grant == GrantOf(request)
    && HomeOfCode(s.store.codes[codeID]) == SessionKey(claims.userID, "")
  }

  predicate NoFailure(run: seq<Event>) {
    forall e :: e in run ==> !e.Fail?
  }

  /** An authorization request and the login on it. */
  lemma LoginRuns(s: State, reqID: Id, how: Acceptance, claims: Claims)
    requires AsksForRefresh(how) && reqID !in s.store.used
    ensures var s' := Run(s, [Authorize(reqID, how), FinalizeLogin(reqID, claims)]);
            && s'.threads == s.threads && s'.store.now == s.store.now
            && View(s'.store) == View(s.store).(
                 reqs := s.store.reqs[reqID := AuthRequest(
                           AcceptedRequest(how), s.store.now + REQUEST_LIFETIME, true, claims, "")])
  {
    var a, f := Authorize(reqID, how), FinalizeLogin(reqID, claims);
    RunConcat(s, [a], [f]);
    assert [a] + [f] == [a, f];
    RunOne(s, a);
    RunOne(Step(s, a), f);
    assert reqID in Step(s, a).store.reqs;
  }

  /** One code is asked for and stored. */
  lemma OneCodeStored(request: Request, id: Id)
    requires request.responseTypes == [RESPONSE_TYPE_CODE]
    ensures StoredCodes(request, [id], [true]) == [id]
  {
    OneMoreIteration(request, [id], [true], 0);
  }

  const ANY := Oracle(0, 0, false, NO_CLAIMS)

  /** The moves of an approval that stores one code under `id`. */
  function ApprovalMoves(id: Id): seq<Move> {
    [Goes(ANY), Goes(ANY)] + [Goes(ANY.(first := id)), Goes(ANY)]
  }

  lemma ApprovalRuns(s: State, t: Tid, reqID: Id, id: Id)
    requires t !in s.threads && id !in s.store.used && CanApprove(View(s.store), s.store.now, reqID)
    requires s.store.reqs[reqID].request.responseTypes == [RESPONSE_TYPE_CODE]
    ensures var s' := Run(s, [BeginApproval(t, reqID)] + EventsOf(t, ApprovalMoves(id)));
            && s'.store.now == s.store.now
            && View(s'.store) == View(s.store).(
                 reqs := s.store.reqs - {reqID},
                 codes := s.store.codes[id := NewCode(s.store.reqs[reqID], s.store.now)])
  {
    var req, ms := s.store.reqs[reqID], ApprovalMoves(id);
    var u := Step(s, BeginApproval(t, reqID));
    RunConcat(s, [BeginApproval(t, reqID)], EventsOf(t, ms));
    RunOne(s, BeginApproval(t, reqID));
    AloneRuns(u, t, ms);
    AloneKeepsTime(s.store, StartApproval(s.store, reqID), ms);
    assert ms[2..] == [Goes(ANY.(first := id)), Goes(ANY)];
    ApprovalAlone(s.store, reqID, [id], [true], ms);
    OneCodeStored(req.request, id);
    OneMoreCode(s.store.codes, [], id, NewCode(req, s.store.now));
    assert [] + [id] == [id];
  }

  lemma {:induction false} MovesDoNotFail(t: Tid, ms: seq<Move>)
    requires forall m :: m in ms ==> m.Goes?
    ensures NoFailure(EventsOf(t, ms))
  {
    if ms != [] {
      assert ms[0] in ms;
      MovesDoNotFail(t, ms[1..]);
    }
  }

  /** After any run, a user can log in on such a request and be given a code, and no token or session changes. */
  lemma LoginIsPossible(start: Time, run: seq<Event>, how: Acceptance, claims: Claims)
    returns (more: seq<Event>, codeID: Id)
    requires AsksForRefresh(how)
    ensures NoFailure(more)
    ensures var s, s' := Run(Init(start), run), Run(Init(start), run + more);
            && CodeReady(s', codeID, how, claims)
            && s'.store.tokens == s.store.tokens && s'.store.sessions == s.store.sessions
  {
    var s := Run(Init(start), run);
    var reqID := FreshNumber(s.store.used);
    var first := [Authorize(reqID, how), FinalizeLogin(reqID, claims)];
    LoginRuns(s, reqID, how, claims);
    var u := Run(s, first);
    var t := FreshNumber(u.threads.Keys);
    codeID := FreshNumber(u.store.used);
    var second := [BeginApproval(t, reqID)] + EventsOf(t, ApprovalMoves(codeID));
    ApprovalRuns(u, t, reqID, codeID);
    more := first + second;
    RunConcat(Init(start), run, more);
    RunConcat(s, first, second);
    MovesDoNotFail(t, ApprovalMoves(codeID));
    assert View(Run(u, second).store).tokens == s.store.tokens;
  }

  /** The moves of an exchange that nothing breaks off. */
  function Unbroken(o: Oracle): seq<Move> {
    [Goes(o)] + [Goes(o), Goes(o), Goes(o), Goes(o)]
  }

  lemma ExchangeLinks(st: Store, codeID: Id, client: string, redirectURI: string, o: Oracle)
    requires Drawn(st) && o.first !in st.used && o.second !in st.used && o.first != o.second
    requires CanExchange(View(st), st.now, codeID, client, redirectURI) && WantsRefresh(st.codes[codeID], o.yes)
    requires !Dangling(View(st), st.codes[codeID])
    ensures var st' := Alone(st, StartExchange(st, codeID, client, redirectURI), Unbroken(o)).st;
            Names(st'.sessions, HomeOfCode(st.codes[codeID]), client, o.first) && o.first in st'.tokens
  {
    ExchangeAlone(st, codeID, client, redirectURI, true, o);
    var st' := Alone(st, StartExchange(st, codeID, client, redirectURI), Unbroken(o)).st;
    assert o.first !in Former(View(st), st.codes[codeID]);
    assert View(st') == ExchangeCode(View(st), codeID, o.yes, o.first, o.second).0;
    assert st'.sessions == View(st').sessions && st'.tokens == View(st').tokens;
  }

  /** A handler that begins and makes these moves, as a run. */
  lemma ThreadRuns(s: State, t: Tid, begin: Event, ms: seq<Move>)
    requires IsStart(begin) && begin.t == t && t !in s.threads
    ensures Run(s, [begin] + EventsOf(t, ms)).store ==
            Alone(StartStep(s.store, begin).st, StartStep(s.store, begin).th, ms).st
  {
    RunConcat(s, [begin], EventsOf(t, ms));
    RunOne(s, begin);
    AloneRuns(Step(s, begin), t, ms);
  }

  lemma {:induction false} EventsConcat(t: Tid, a: seq<Move>, b: seq<Move>)
    ensures EventsOf(t, a + b) == EventsOf(t, a) + EventsOf(t, b)
  {
    if a == [] {
      assert a + b == b;
    } else {
      assert (a + b)[1..] == a[1..] + b;
      EventsConcat(t, a[1..], b);
    }
  }

  lemma FailingEvents(t: Tid, o: Oracle)
    ensures EventsOf(t, FailingMoves(o)) ==
            EventsOf(t, [Goes(o), Goes(o), Goes(o), Goes(o)]) + [Fail(t)] + [Advance(t, o)]
  {
    EventsConcat(t, [Goes(o), Goes(o), Goes(o), Goes(o)], [Breaks, Goes(o)]);
    assert [Breaks, Goes(o)][1..] == [Goes(o)];
    assert [Goes(o)][1..] == [];
    assert EventsOf(t, [Goes(o)]) == [Advance(t, o)];
  }

  lemma OnlyFormer(db: Db, code: AuthCode, former: Id)
    requires Names(db.sessions, HomeOfCode(code), code.grant.clientID, former) && former in db.tokens
    ensures Former(db, code) != {} && !Dangling(db, code)
  {
    assert former in Former(db, code);
  }

  /** The code can be exchanged for a refresh token, which the session then names. */
  lemma ExchangeIsPossible(start: Time, run: seq<Event>, codeID: Id, how: Acceptance, claims: Claims)
    returns (more: seq<Event>, id: Id)
    requires AsksForRefresh(how) && CodeReady(Run(Init(start), run), codeID, how, claims)
    requires var st := Run(Init(start), run).store; !Dangling(View(st), st.codes[codeID])
    ensures NoFailure(more)
    ensures var st := Run(Init(start), run + more).store;
            && Names(st.sessions, SessionKey(claims.userID, ""), AcceptedRequest(how).clientID, id)
            && id in st.tokens
  {
    var s, request := Run(Init(start), run), AcceptedRequest(how);
    var t := FreshNumber(s.threads.Keys);
    id := FreshNumber(s.store.used);
    var value := FreshNumber(s.store.used + {id});
    var o := Oracle(id, value, true, NO_CLAIMS);
    var begin, ms := BeginExchange(t, codeID, request.clientID, request.redirectURI), Unbroken(o);
    more := [begin] + EventsOf(t, ms);
    RunConcat(Init(start), run, more);
    ThreadRuns(s, t, begin, ms);
    MovesDoNotFail(t, ms);
    ReachableStatesAreDrawn(start, run);
    ExchangeLinks(s.store, codeID, request.clientID, request.redirectURI, o);
  }

  /** A user has logged in and been given a refresh token, and has logged in again. */
  ghost predicate LoggedInAgain(s: State, codeID: Id, how: Acceptance, claims: Claims, former: Id)
    requires AsksForRefresh(how)
  {
    && CodeReady(s, codeID, how, claims) && former in s.store.tokens
    && Names(s.store.sessions, SessionKey(claims.userID, ""), AcceptedRequest(how).clientID, former)
  }

  /** A re-login with one failing call. */
  lemma ReLoginCanStick(start: Time, run: seq<Event>, codeID: Id, how: Acceptance, claims: Claims, former: Id)
    returns (before: seq<Event>, t: Tid, after: seq<Event>)
    requires AsksForRefresh(how)
    requires LoggedInAgain(Run(Init(start), run), codeID, how, claims, former)
    ensures NoFailure(before) && NoFailure(after)
    ensures Stuck(View(Run(Init(start), run + (before + [Fail(t)] + after)).store),
                  SessionKey(claims.userID, ""), AcceptedRequest(how).clientID)
  {
    var s, request := Run(Init(start), run), AcceptedRequest(how);
    t := FreshNumber(s.threads.Keys);
    var id := FreshNumber(s.store.used);
    var value := FreshNumber(s.store.used + {id});
    var o := Oracle(id, value, true, NO_CLAIMS);
    var begin := BeginExchange(t, codeID, request.clientID, request.redirectURI);
    var ms := [Goes(o), Goes(o), Goes(o), Goes(o)];
    before, after := [begin] + EventsOf(t, ms), [Advance(t, o)];
    MovesDoNotFail(t, ms);
    FailingEvents(t, o);
    assert before + [Fail(t)] + after == [begin] + EventsOf(t, FailingMoves(o));
    RunConcat(Init(start), run, [begin] + EventsOf(t, FailingMoves(o)));
    ThreadRuns(s, t, begin, FailingMoves(o));
    ReachableStatesAreDrawn(start, run);
    OnlyFormer(View(s.store), s.store.codes[codeID], former);
    OneFailureSticks(s.store, codeID, request.clientID, request.redirectURI, o);
  }

  lemma NothingDangles(start: Time, run: seq<Event>, code: AuthCode)
    requires Run(Init(start), run).store.sessions == map[]
    ensures !Dangling(View(Run(Init(start), run).store), code)
  {
  }

  lemma FirstLogin(start: Time, how: Acceptance, claims: Claims) returns (run: seq<Event>, id: Id)
    requires AsksForRefresh(how)
    ensures NoFailure(run)
    ensures var st := Run(Init(start), run).store;
            && Names(st.sessions, SessionKey(claims.userID, ""), AcceptedRequest(how).clientID, id)
            && id in st.tokens
  {
    var first, codeID := LoginIsPossible(start, [], how, claims);
    assert [] + first == first;
    NothingDangles(start, first, Run(Init(start), first).store.codes[codeID]);
    var second: seq<Event>;
    second, id := ExchangeIsPossible(start, first, codeID, how, claims);
    run := first + second;
  }

  lemma LoggingInAgain(start: Time, how: Acceptance, claims: Claims) returns (run: seq<Event>, codeID: Id, former: Id)
    requires AsksForRefresh(how)
    ensures NoFailure(run) && LoggedInAgain(Run(Init(start), run), codeID, how, claims, former)
  {
    var before, more: seq<Event>;
    before, former := FirstLogin(start, how, claims);
    more, codeID := LoginIsPossible(start, before, how, claims);
    run := before + more;
  }

  /**
   * From an empty store, for every accepted request for a code and offline access: two logins of one user
   * and one failing call, and the reference is stuck.
   */
  lemma StuckIsReachable(start: Time, how: Acceptance, claims: Claims)
    returns (before: seq<Event>, t: Tid, after: seq<Event>)
    requires AsksForRefresh(how)
    ensures NoFailure(before) && NoFailure(after)
    ensures Stuck(View(Run(Init(start), before + [Fail(t)] + after).store),
                  SessionKey(claims.userID, ""), AcceptedRequest(how).clientID)
  {
    var run, codeID, former := LoggingInAgain(start, how, claims);
    var middle: seq<Event>;
    middle, t, after := ReLoginCanStick(start, run, codeID, how, claims, former);
    before := run + middle;
    assert before + [Fail(t)] + after == run + (middle + [Fail(t)] + after);
  }
}
