/**
 * What the callers of the whole handlers get, spelled out for every reachable store: when an approval,
 * an exchange, a refresh and a revocation succeed, and what they leave behind.
 */
module HandlerOutcomes {
  import opened Common
  import opened OAuth2
  import opened Grants
  import opened Handlers
  import opened HandlerRuns

  // ---------------------------------------------------------------- login and approval

  /** A request, a login on it through a connector, and some time. */
  function Login(reqID: Id, request: Request, connID: string, claims: Claims, waited: nat): seq<Call> {
    [Authorized(reqID, request), Connected(reqID, connID)] + [LoggedIn(reqID, claims), Elapse(waited)]
  }

  lemma RunTwo(w: World, a: Call, b: Call)
    ensures HandlerRuns.Run(w, [a, b]) == Perform(Perform(w, a).w, b).w
  {
    assert [a, b] == [a] + [b];
    RunConcat(w, [a], [b]);
    RunOne(w, a);
    RunOne(Perform(w, a).w, b);
  }

  lemma OneDrawn(w: World, call: Call, id: Id)
    requires Draws(call) == [id]
    ensures UsedAfter(w, call) == w.used + {id}
  {
    assert Draws(call)[0] == id;
    assert id in UsedAfter(w, call);
  }

  lemma Connecting(w: World, reqID: Id, request: Request, connID: string)
    requires reqID !in w.used
    ensures var w' := Perform(Perform(w, Authorized(reqID, request)).w, Connected(reqID, connID)).w;
            && w'.now == w.now && w'.used == w.used + {reqID}
            && w'.db == w.db.(reqs := w.db.reqs[reqID := AuthRequest(
                                        request, w.now + 86_400_000_000_000, false, NO_CLAIMS, connID)])
  {
    OneDrawn(w, Authorized(reqID, request), reqID);
  }

  /** The request as it stands after the login. */
  lemma LoginRecords(w: World, reqID: Id, request: Request, connID: string, claims: Claims, waited: nat)
    requires reqID !in w.used
    ensures var w' := HandlerRuns.Run(w, Login(reqID, request, connID, claims, waited));
            && w'.now == w.now + waited && w'.used == w.used + {reqID}
            && w'.db == w.db.(reqs := w.db.reqs[reqID := AuthRequest(
                                        request, w.now + 86_400_000_000_000, true, claims, connID)])
  {
    RunConcat(w, [Authorized(reqID, request), Connected(reqID, connID)], [LoggedIn(reqID, claims), Elapse(waited)]);
    RunTwo(w, Authorized(reqID, request), Connected(reqID, connID));
    var u := HandlerRuns.Run(w, [Authorized(reqID, request), Connected(reqID, connID)]);
    Connecting(w, reqID, request, connID);
    RunTwo(u, LoggedIn(reqID, claims), Elapse(waited));
  }

  /**
   * An approval of a logged-in request is answered if and only if it comes within a day of the request. The
   * codes it stores belong to the login, are good for half an hour, and nothing else changes but the request.
   */
  lemma ApprovalOutcome(
    w: World, reqID: Id, request: Request, connID: string, claims: Claims, waited: nat, ids: seq<Id>, works: seq<bool>)
    requires reqID !in w.used && Fresh(w.used + {reqID}, ids) && |ids| == |works| == |request.responseTypes|
    ensures var u := HandlerRuns.Run(w, Login(reqID, request, connID, claims, waited));
            var done := Perform(u, Approval(reqID, ids, works));
            var w', outcome := done.w, done.outcome;
            && outcome == (if waited <= 86_400_000_000_000 then Approved(ResponseTo(request, ids, works)) else Refused)
            && w'.db.tokens == w.db.tokens && w'.db.sessions == w.db.sessions
            && (outcome.Approved? ==>
                  && reqID !in w'.db.reqs
                  && forall id :: id in StoredCodes(request, ids, works) ==>
                       && id in w'.db.codes
                       && var code := w'.db.codes[id];
                          && code.grant.clientID == request.clientID && code.grant.scopes == request.scopes
                          && code.grant.nonce == request.nonce && code.redirectURI == request.redirectURI
                          && code.connID == connID && code.claims == claims
                          && code.expiry == w.now + waited + 1_800_000_000_000)
  {
    LoginRecords(w, reqID, request, connID, claims, waited);
    var u := HandlerRuns.Run(w, Login(reqID, request, connID, claims, waited));
    var req := u.db.reqs[reqID];
    assert Draws(Approval(reqID, ids, works)) == ids;
    assert ApprovalPasses(u.db, u.now, reqID, ids, works) <==> waited <= 86_400_000_000_000;
    WithCodesExactly(u.db.codes, StoredCodes(request, ids, works), NewCode(req, u.now));
  }

  // ---------------------------------------------------------------- exchange

  /** The token belongs to the user and connector of `key`, and to `client`. */
  ghost predicate IsFor(token: RefreshToken, key: SessionKey, client: string) {
    token.claims.userID == key.userID && token.connID == key.connID && token.grant.clientID == client
  }

  lemma FormerIsStored(db: Db, code: AuthCode)
    requires Matched(db)
    ensures Former(db, code) <= db.tokens.Keys
    ensures forall id :: id in Former(db, code) ==>
              IsFor(db.tokens[id], SessionKey(code.claims.userID, code.connID), code.grant.clientID)
  {
    forall id | id in Former(db, code)
      ensures id in db.tokens
      ensures IsFor(db.tokens[id], SessionKey(code.claims.userID, code.connID), code.grant.clientID)
    {
      assert Names(db.sessions, HomeOfCode(code), code.grant.clientID, id);
    }
  }

  /** When a code may be exchanged. */
  ghost predicate MayExchange(w: World, call: Call)
    requires call.CodeExchange?
  {
    && call.codeID in w.db.codes && call.signs && w.now <= w.db.codes[call.codeID].expiry
    && call.client == w.db.codes[call.codeID].grant.clientID
    && call.redirectURI == w.db.codes[call.codeID].redirectURI
  }

  /**
   * In every reachable store, an exchange succeeds if and only if the code is stored and unexpired and presented
   * by its client with its redirect URI, and the ID token can be made. It gives a refresh token if and only if
   * offline access was granted and the connector can refresh. The code is gone, and the token belongs to its
   * user, connector and client.
   */
  lemma ExchangeOutcome(start: Time, calls: seq<Call>, call: Call)
    requires call.CodeExchange? && Fresh(HandlerRuns.Run(NewWorld(start), calls).used, [call.id, call.value])
    ensures var w := HandlerRuns.Run(NewWorld(start), calls);
            var w', outcome := Perform(w, call).w, Perform(w, call).outcome;
            if !MayExchange(w, call) then outcome == Refused && w'.db == w.db
            else
              var code := w.db.codes[call.codeID];
              && call.codeID !in w'.db.codes
              && outcome == TokensIssued(if call.canRefresh && "offline_access" in code.grant.scopes
                                         then Some((call.id, call.value)) else None)
              && (outcome.refresh.Some? ==>
                    && call.id in w'.db.tokens && w'.db.tokens[call.id].token == call.value
                    && w'.db.tokens[call.id].grant == code.grant && w'.db.tokens[call.id].claims == code.claims
                    && w'.db.tokens[call.id].connID == code.connID)
              && (forall other :: other in w.db.codes && other != call.codeID ==>
                    other in w'.db.codes && w'.db.codes[other] == w.db.codes[other])
              && (forall other | other in w.db.tokens ::
                    || IsFor(w.db.tokens[other], SessionKey(code.claims.userID, code.connID), call.client)
                    || (other in w'.db.tokens && w'.db.tokens[other] == w.db.tokens[other]))
  {
    RunsStayMatched(start, calls);
    var w := HandlerRuns.Run(NewWorld(start), calls);
    assert Draws(call) == [call.id, call.value];
    assert Draws(call)[0] == call.id;
    if MayExchange(w, call) {
      LoginMatches(w.db, call.codeID, call.canRefresh, call.id, call.value);
      FormerIsStored(w.db, w.db.codes[call.codeID]);
    }
  }

  // ---------------------------------------------------------------- refresh

  /** When a refresh token may be refreshed. */
  ghost predicate MayRefresh(w: World, call: Call)
    requires call.TokenRefresh?
  {
    && call.id in w.db.tokens && call.value == w.db.tokens[call.id].token
    && call.client == w.db.tokens[call.id].grant.clientID && call.identity.Some? && call.signs
    && (call.scopes.Some? ==>
          forall scope :: scope in call.scopes.value ==> scope in w.db.tokens[call.id].grant.scopes)
  }

  /**
   * In every reachable store, a refresh succeeds if and only if the value is the current one of a stored token,
   * presented by its client for scopes it was granted, the connector answers and the ID token can be made. The
   * token then has the new value and the connector's answer, its user apart.
   */
  lemma RefreshOutcome(start: Time, calls: seq<Call>, call: Call)
    requires call.TokenRefresh? && call.newValue !in HandlerRuns.Run(NewWorld(start), calls).used
    ensures var w := HandlerRuns.Run(NewWorld(start), calls);
            var w', outcome := Perform(w, call).w, Perform(w, call).outcome;
            if !MayRefresh(w, call) then outcome == Refused && w'.db == w.db
            else
              && outcome == ValueRotated(call.newValue) && w'.db.sessions == w.db.sessions
              && w'.db.tokens == w.db.tokens[call.id := RefreshToken(
                                   call.newValue, w.db.tokens[call.id].grant, w.db.tokens[call.id].connID,
                                   Claims(w.db.tokens[call.id].claims.userID, call.identity.value.username,
                                          call.identity.value.email, call.identity.value.emailVerified,
                                          call.identity.value.groups))]
  {
    RunsStayMatched(start, calls);
    var w := HandlerRuns.Run(NewWorld(start), calls);
    assert Draws(call) == [call.newValue];
    if call.id in w.db.tokens {
      var token := w.db.tokens[call.id];
      assert Names(w.db.sessions, HomeOf(token), token.grant.clientID, call.id);
    }
  }

  // ---------------------------------------------------------------- revocation

  ghost predicate HasToken(db: Db, key: SessionKey, client: string) {
    exists id :: id in db.tokens && IsFor(db.tokens[id], key, client)
  }

  /**
   * In every reachable store, a revocation succeeds if and only if the user has a refresh token of the connector
   * for the client, and then it has none.
   */
  lemma RevocationOutcome(start: Time, calls: seq<Call>, key: SessionKey, client: string)
    ensures var w := HandlerRuns.Run(NewWorld(start), calls);
            var w', outcome := Perform(w, Revocation(key, client)).w, Perform(w, Revocation(key, client)).outcome;
            && outcome == (if HasToken(w.db, key, client) then Revoked else Refused)
            && !HasToken(w'.db, key, client)
            && forall id :: id in w.db.tokens && !IsFor(w.db.tokens[id], key, client) ==>
                              id in w'.db.tokens && w'.db.tokens[id] == w.db.tokens[id]
  {
    RunsStayMatched(start, calls);
    var w := HandlerRuns.Run(NewWorld(start), calls);
    forall id | id in w.db.tokens && IsFor(w.db.tokens[id], key, client)
      ensures Names(w.db.sessions, key, client, id)
    {
      assert HomeOf(w.db.tokens[id]) == key;
      assert Names(w.db.sessions, HomeOf(w.db.tokens[id]), w.db.tokens[id].grant.clientID, id);
    }
    if CanRevoke(w.db, key, client) {
      assert Names(w.db.sessions, key, client, w.db.sessions[key][client]);
      assert IsFor(w.db.tokens[w.db.sessions[key][client]], key, client);
    }
  }

  // ---------------------------------------------------------------- garbage collection

  /** Collection removes the requests and codes that have expired, and nothing else. */
  lemma CollectionOutcome(w: World)
    ensures var db := Perform(w, GarbageCollection).w.db;
            && db.tokens == w.db.tokens && db.sessions == w.db.sessions
            && (forall id :: id in db.codes <==> id in w.db.codes && w.now <= w.db.codes[id].expiry)
            && (forall id :: id in db.codes ==> db.codes[id] == w.db.codes[id])
            && (forall id :: id in db.reqs <==> id in w.db.reqs && w.now <= w.db.reqs[id].expiry)
            && (forall id :: id in db.reqs ==> db.reqs[id] == w.db.reqs[id])
  {
  }
}
