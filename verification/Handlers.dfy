/**
 * The grant handlers run one at a time (server/handlers.go, server/api.go,
 * storage/memory/memory.go). Connectors, and the making of codes and ID tokens, may fail; the
 * other storage calls do not.
 *
 * `Approve`, `ExchangeCode`, `RefreshGrant` and `Revoke` say what a whole handler does to the
 * storage; `Server` runs the handlers as the source does, call by call, with the deferred
 * deletion of a half-created token.
 */
module Handlers {
  import opened Common
  import opened OAuth2
  import opened Grants

  datatype Db = Db(
    reqs: map<Id, AuthRequest>,
    codes: map<Id, AuthCode>,
    tokens: map<Id, RefreshToken>,
    sessions: Sessions)

  const EMPTY_DB := Db(map[], map[], map[], map[])

  // ---------------------------------------------------------------- what each handler does

  /** `codes` with `code` stored under each of `ids`. */
  function WithCodes(codes: map<Id, AuthCode>, ids: seq<Id>, code: AuthCode): map<Id, AuthCode> {
    if ids == [] then codes else WithCodes(codes, ids[..|ids| - 1], code)[ids[|ids| - 1] := code]
  }

  lemma OneMoreCode(codes: map<Id, AuthCode>, ids: seq<Id>, id: Id, code: AuthCode)
    ensures WithCodes(codes, ids + [id], code) == WithCodes(codes, ids, code)[id := code]
  {
    assert (ids + [id])[..|ids|] == ids;
  }

  /** The codes stored are those of `ids`, on top of what was there. */
  lemma {:induction false} WithCodesExactly(codes: map<Id, AuthCode>, ids: seq<Id>, code: AuthCode)
    ensures forall id :: id in WithCodes(codes, ids, code) <==> id in codes || id in ids
    ensures forall id :: id in ids ==> WithCodes(codes, ids, code)[id] == code
    ensures forall id :: id in codes && id !in ids ==> WithCodes(codes, ids, code)[id] == codes[id]
  {
    if ids != [] {
      WithCodesExactly(codes, ids[..|ids| - 1], code);
    }
  }

  predicate CanApprove(db: Db, now: Time, reqID: Id) {
    reqID in db.reqs && db.reqs[reqID].loggedIn && !(now > db.reqs[reqID].expiry)
  }

  /** Approval of a logged-in request: the request goes, the codes it asked for come. */
  function Approve(db: Db, now: Time, reqID: Id, ids: seq<Id>, works: seq<bool>): (Db, Response)
    requires CanApprove(db, now, reqID) && |ids| == |works| == |db.reqs[reqID].request.responseTypes|
  {
    var req := db.reqs[reqID];
    var codes := WithCodes(db.codes, StoredCodes(req.request, ids, works), NewCode(req, now));
    (db.(reqs := db.reqs - {reqID}, codes := codes), ResponseTo(req.request, ids, works))
  }

  predicate CanExchange(db: Db, now: Time, codeID: Id, client: string, redirectURI: string) {
    codeID in db.codes && !(now > db.codes[codeID].expiry)
    && db.codes[codeID].grant.clientID == client && db.codes[codeID].redirectURI == redirectURI
  }

  predicate WantsRefresh(code: AuthCode, canRefresh: bool) {
    canRefresh && SCOPE_OFFLINE_ACCESS in code.grant.scopes
  }

  /** The session of `key` after a login: its reference for `client` is `id`. */
  function SessionsLinked(sessions: Sessions, key: SessionKey, client: string, id: Id): Sessions {
    sessions[key := if key in sessions then Linked(sessions[key], client, id) else map[client := id]]
  }

  /** The token a login of `code` replaces. */
  function Former(db: Db, code: AuthCode): set<Id> {
    var key, client := HomeOfCode(code), code.grant.clientID;
    if key in db.sessions && client in db.sessions[key] then {db.sessions[key][client]} else {}
  }

  /** A reference to a token that is not stored makes the exchange fail, after the code is spent. */
  predicate Dangling(db: Db, code: AuthCode) {
    exists id :: id in Former(db, code) && id !in db.tokens
  }

  /** A code exchange: the code goes; a refresh token may come and replace the one of an earlier login. */
  function ExchangeCode(db: Db, codeID: Id, canRefresh: bool, id: Id, value: Id): (Db, Result<Option<(Id, Id)>, ()>)
    requires codeID in db.codes
  {
    var code, spent := db.codes[codeID], db.(codes := db.codes - {codeID});
    if !WantsRefresh(code, canRefresh) then (spent, Ok(None))
    else if Dangling(db, code) then (spent.(tokens := db.tokens - {id}), Err(()))
    else
      var former := Former(db, code);
      (spent.(tokens := db.tokens[id := NewRefresh(code, value)] - former,
              sessions := SessionsLinked(db.sessions, HomeOfCode(code), code.grant.clientID, id)),
       Ok(Some((id, value))))
  }

  /** The requested scopes that were not granted, in order. */
  function Ungranted(requested: seq<string>, granted: seq<string>): seq<string> {
    if requested == [] then []
    else
      var last := requested[|requested| - 1];
      Ungranted(requested[..|requested| - 1], granted) + (if last in granted then [] else [last])
  }

  lemma {:induction false} NoneUngranted(requested: seq<string>, granted: seq<string>)
    ensures Ungranted(requested, granted) == [] <==> forall scope :: scope in requested ==> scope in granted
  {
    if requested != [] {
      NoneUngranted(requested[..|requested| - 1], granted);
      assert requested == requested[..|requested| - 1] + [requested[|requested| - 1]];
    }
  }

  predicate CanRefresh(db: Db, id: Id, value: Id, client: string, scopes: Option<seq<string>>) {
    && id in db.tokens && db.tokens[id].grant.clientID == client && db.tokens[id].token == value
    && (scopes.Some? ==> forall scope :: scope in scopes.value ==> scope in db.tokens[id].grant.scopes)
    && Names(db.sessions, HomeOf(db.tokens[id]), client, id)
  }

  /** A refresh: the token's value is replaced. */
  function RefreshGrant(db: Db, id: Id, newValue: Id, claims: Claims): Db
    requires id in db.tokens
  {
    db.(tokens := db.tokens[id := RotatedToken(db.tokens[id], newValue, claims)])
  }

  predicate CanRevoke(db: Db, key: SessionKey, client: string) {
    key in db.sessions && client in db.sessions[key]
  }

  /** A revocation: the reference goes, and the token with it. */
  function Revoke(db: Db, key: SessionKey, client: string): Db
    requires CanRevoke(db, key, client)
  {
    db.(sessions := db.sessions[key := db.sessions[key] - {client}], tokens := db.tokens - {db.sessions[key][client]})
  }

  function CodeExpiries(codes: map<Id, AuthCode>): map<Id, Time> {
    map id | id in codes :: codes[id].expiry
  }

  function RequestExpiries(reqs: map<Id, AuthRequest>): map<Id, Time> {
    map id | id in reqs :: reqs[id].expiry
  }

  function Past(expiries: map<Id, Time>, now: Time): set<Id> {
    set id | id in expiries && now > expiries[id]
  }

  /** One deletion loop: walks the entries in the given order, picks the expired ones and counts them. */
  method Sweep(expiries: map<Id, Time>, now: Time, order: seq<Id>) returns (expired: set<Id>, count: nat)
    requires forall id :: id in expiries ==> id in order
    ensures expired == Past(expiries, now)
    ensures count == |expired|
  {
    expired, count := {}, 0;
    for i := 0 to |order|
      invariant forall id :: id in expired ==> id in expiries && now > expiries[id]
      invariant forall j :: 0 <= j < i && order[j] in expiries && now > expiries[order[j]] ==> order[j] in expired
      invariant count == |expired|
    {
      var id := order[i];
      if id in expiries && id !in expired && now > expiries[id] {
        expired := expired + {id};
        count := count + 1;
      }
    }
    forall id | id in Past(expiries, now)
      ensures id in expired
    {
      var j :| 0 <= j < |order| && order[j] == id;
    }
    assert forall id :: id in expired ==> id in Past(expiries, now);
    assert expired <= Past(expiries, now) <= expired;
  }

  lemma Dropped<T>(m: map<Id, T>, ids: set<Id>)
    requires ids <= m.Keys
    ensures |m - ids| == |m| - |ids|
  {
    assert (m - ids).Keys == m.Keys - ids;
  }

  function ExpiredRequests(db: Db, now: Time): set<Id> {
    Past(RequestExpiries(db.reqs), now)
  }

  function ExpiredCodes(db: Db, now: Time): set<Id> {
    Past(CodeExpiries(db.codes), now)
  }

  function Collected(db: Db, now: Time): Db {
    db.(reqs := db.reqs - ExpiredRequests(db, now), codes := db.codes - ExpiredCodes(db, now))
  }

  // ---------------------------------------------------------------- the handlers as they run

  class Server {
    var reqs: map<Id, AuthRequest>
    var codes: map<Id, AuthCode>
    var tokens: map<Id, RefreshToken>
    var sessions: Sessions

    function View(): Db
      reads this
    {
      Db(reqs, codes, tokens, sessions)
    }

    constructor ()
      ensures View() == EMPTY_DB
    {
      reqs, codes, tokens, sessions := map[], map[], map[], map[];
    }

    /** The response-type loop of sendCodeResponse, and the redirect after it. */
    method RespondByType(now: Time, req: AuthRequest, ids: seq<Id>, works: seq<bool>) returns (resp: Response)
      requires |ids| == |works| == |req.request.responseTypes|
      modifies this`codes
      ensures codes == WithCodes(old(codes), StoredCodes(req.request, ids, works), NewCode(req, now))
      ensures resp == ResponseTo(req.request, ids, works)
    {
      var request, authCode := req.request, NewCode(req, now);
      var implicitOrHybrid, code, idToken := false, None, false;
      for i := 0 to |ids|
        invariant EndOf(request, works, i) == EndOf(request, works, 0)
        invariant codes == WithCodes(old(codes), CodeIds(request, ids, i), authCode)
        invariant code == Last(CodeIds(request, ids, i))
        invariant idToken == (RESPONSE_TYPE_ID_TOKEN in request.responseTypes[..i])
        invariant implicitOrHybrid == (RESPONSE_TYPE_TOKEN in request.responseTypes[..i] || idToken)
      {
        var t := request.responseTypes[i];
        OneMoreIteration(request, ids, works, i);
        if t == RESPONSE_TYPE_CODE {
          if !works[i] {
            return Failed;
          }
          OneMoreCode(old(codes), CodeIds(request, ids, i), ids[i], authCode);
          codes := codes[ids[i] := authCode];
          code := Some(ids[i]);
          if request.redirectURI == REDIRECT_URI_OOB {
            return OobPage(ids[i]);
          }
        } else if t == RESPONSE_TYPE_TOKEN {
          implicitOrHybrid := true;
        } else if t == RESPONSE_TYPE_ID_TOKEN {
          if !works[i] {
            return Failed;
          }
          implicitOrHybrid, idToken := true, true;
        }
      }
      assert request.responseTypes[..|ids|] == request.responseTypes;
      return Redirect(implicitOrHybrid, code, idToken, implicitOrHybrid && idToken && code.None?, request.state);
    }

    /** sendCodeResponse: the codes it stores belong to the login and are good for half an hour. */
    method SendCodeResponse(now: Time, req: AuthRequest, ids: seq<Id>, works: seq<bool>) returns (resp: Response)
      requires |ids| == |works| == |req.request.responseTypes|
      modifies this`codes
      ensures codes == WithCodes(old(codes), StoredCodes(req.request, ids, works), NewCode(req, now))
      ensures forall id :: id in codes <==> id in old(codes) || id in StoredCodes(req.request, ids, works)
      ensures forall id :: id in StoredCodes(req.request, ids, works) ==>
                && codes[id].connID == req.connID && codes[id].claims == req.claims
                && codes[id].grant.clientID == req.request.clientID && codes[id].grant.scopes == req.request.scopes
                && codes[id].grant.nonce == req.request.nonce && codes[id].redirectURI == req.request.redirectURI
                && codes[id].expiry == now + 1_800_000_000_000
      ensures forall id :: id in old(codes) && id !in StoredCodes(req.request, ids, works) ==>
                codes[id] == old(codes)[id]
      ensures resp == ResponseTo(req.request, ids, works)
    {
      WithCodesExactly(codes, StoredCodes(req.request, ids, works), NewCode(req, now));
      resp := RespondByType(now, req, ids, works);
    }

    /**
     * handleApproval, with the IDs drawn for each response type; `works[i]` says whether the call of
     * iteration `i` that stores a code or makes an ID token succeeds.
     */
    method HandleApproval(now: Time, reqID: Id, ids: seq<Id>, works: seq<bool>) returns (resp: Option<Response>)
      requires reqID in reqs ==> |ids| == |works| == |reqs[reqID].request.responseTypes|
      modifies this
      ensures resp.Some? <==> CanApprove(old(View()), now, reqID)
      ensures resp.Some? ==> (View(), resp.value) == Approve(old(View()), now, reqID, ids, works)
      ensures resp.None? ==> View() == old(View())
    {
      if reqID !in reqs || !reqs[reqID].loggedIn {
        return None;
      }
      var req := reqs[reqID];
      if now > req.expiry {
        return None;
      }
      reqs := reqs - {reqID};
      var sent := SendCodeResponse(now, req, ids, works);
      return Some(sent);
    }

    /**
     * handleAuthCode after the client has been authenticated; `signs` says whether the ID token can be
     * made, which is tried before the code is deleted.
     */
    method HandleAuthCode(
      now: Time, codeID: Id, client: string, redirectURI: string, signs: bool, canRefresh: bool, id: Id, value: Id)
      returns (r: Result<Option<(Id, Id)>, ()>)
      requires id !in tokens && forall key, c :: key in sessions && c in sessions[key] ==> sessions[key][c] != id
      modifies this
      ensures CanExchange(old(View()), now, codeID, client, redirectURI) && signs ==>
                (View(), r) == ExchangeCode(old(View()), codeID, canRefresh, id, value)
      ensures !(CanExchange(old(View()), now, codeID, client, redirectURI) && signs) ==> r.Err? && View() == old(View())
      ensures r.Ok? ==>
                && codeID in old(codes) && signs && now <= old(codes)[codeID].expiry
                && client == old(codes)[codeID].grant.clientID && redirectURI == old(codes)[codeID].redirectURI
                && codes == old(codes) - {codeID} && reqs == old(reqs)
                && r.value == if canRefresh && "offline_access" in old(codes)[codeID].grant.scopes
                              then Some((id, value)) else None
      ensures r.Ok? && r.value.Some? ==>
                && var code := old(codes)[codeID];
                   && id in tokens && tokens[id].token == value && tokens[id].connID == code.connID
                   && tokens[id].claims == code.claims && tokens[id].grant == code.grant
                   && Names(sessions, SessionKey(code.claims.userID, code.connID), client, id)
    {
      if codeID !in codes || now > codes[codeID].expiry || codes[codeID].grant.clientID != client {
        return Err(());
      }
      var code := codes[codeID];
      if code.redirectURI != redirectURI || !signs {
        return Err(());
      }
      codes := codes - {codeID};
      if !canRefresh || SCOPE_OFFLINE_ACCESS !in code.grant.scopes {
        return Ok(None);
      }
      tokens := tokens[id := NewRefresh(code, value)];
      var deleteToken := LinkToSession(code, id);
      if deleteToken {
        tokens := tokens - {id};
        assert tokens == old(tokens) - {id};
        return Err(());
      }
      return Ok(Some((id, value)));
    }

    /** Names the new token in its session, dropping the token named before; true if that cannot be done. */
    method LinkToSession(code: AuthCode, id: Id) returns (deleteToken: bool)
      modifies this`tokens, this`sessions
      requires id !in Former(View(), code)
      ensures deleteToken <==> Dangling(old(View()), code)
      ensures deleteToken ==> View() == old(View())
      ensures !deleteToken ==>
                View() == old(View()).(
                  tokens := old(tokens) - Former(old(View()), code),
                  sessions := SessionsLinked(old(sessions), HomeOfCode(code), code.grant.clientID, id))
    {
      var key, client := HomeOfCode(code), code.grant.clientID;
      if key !in sessions {
        sessions := sessions[key := map[client := id]];
        assert old(tokens) - Former(old(View()), code) == old(tokens);
        return false;
      }
      var session := sessions[key];
      if client in session {
        var former := session[client];
        assert former in Former(old(View()), code);
        if former !in tokens {
          return true;
        }
        tokens := tokens - {former};
      }
      sessions := sessions[key := Linked(session, client, id)];
      return false;
    }

    /**
     * handleRefreshToken after the client has been authenticated; `identity` is the connector's answer,
     * or None if it fails, and `signs` says whether the ID token can be made.
     */
    method HandleRefreshToken(
      id: Id, value: Id, client: string, scopes: Option<seq<string>>,
      identity: Option<Claims>, signs: bool, newValue: Id)
      returns (done: bool)
      modifies this
      ensures done <==> CanRefresh(old(View()), id, value, client, scopes) && identity.Some? && signs
      ensures done ==> View() == RefreshGrant(old(View()), id, newValue, identity.value)
      ensures !done ==> View() == old(View())
      ensures done ==>
                && id in old(tokens) && value == old(tokens)[id].token && client == old(tokens)[id].grant.clientID
                && Names(sessions, SessionKey(old(tokens)[id].claims.userID, old(tokens)[id].connID), client, id)
                && (scopes.Some? ==> forall scope :: scope in scopes.value ==> scope in old(tokens)[id].grant.scopes)
      ensures done ==>
                && tokens.Keys == old(tokens).Keys && tokens[id].token == newValue
                && tokens[id].claims.username == identity.value.username
                && tokens[id].claims.email == identity.value.email
                && tokens[id].claims.emailVerified == identity.value.emailVerified
                && tokens[id].claims.groups == identity.value.groups
                && tokens[id].claims.userID == old(tokens)[id].claims.userID
                && tokens[id].grant == old(tokens)[id].grant && tokens[id].connID == old(tokens)[id].connID
      ensures done ==> forall other :: other in tokens && other != id ==> tokens[other] == old(tokens)[other]
      ensures sessions == old(sessions) && codes == old(codes) && reqs == old(reqs)
    {
      if id !in tokens || tokens[id].grant.clientID != client || tokens[id].token != value {
        return false;
      }
      var refresh := tokens[id];
      if scopes.Some? {
        var unauthorized := UnauthorizedScopes(scopes.value, refresh.grant.scopes);
        NoneUngranted(scopes.value, refresh.grant.scopes);
        if |unauthorized| > 0 {
          return false;
        }
      }
      if identity.None? || !signs {
        return false;
      }
      var key := HomeOf(refresh);
      if key !in sessions || refresh.grant.clientID !in sessions[key] || sessions[key][refresh.grant.clientID] != id {
        return false;
      }
      tokens := tokens[id := RotatedToken(tokens[id], newValue, identity.value)];
      return true;
    }

    /** The scopes asked for that were never granted, as the error lists them. */
    method UnauthorizedScopes(requested: seq<string>, granted: seq<string>) returns (unauthorized: seq<string>)
      ensures unauthorized == Ungranted(requested, granted)
    {
      unauthorized := [];
      for i := 0 to |requested|
        invariant unauthorized == Ungranted(requested[..i], granted)
      {
        assert requested[..i + 1][..i] == requested[..i];
        if requested[i] !in granted {
          unauthorized := unauthorized + [requested[i]];
        }
      }
      assert requested[..|requested|] == requested;
    }

    /** RevokeRefresh: was there a reference, and could the token it named be deleted? */
    method RevokeRefresh(key: SessionKey, client: string) returns (found: bool, deleted: bool)
      modifies this
      ensures found <==> CanRevoke(old(View()), key, client)
      ensures deleted <==> found && old(sessions)[key][client] in old(tokens)
      ensures found ==> View() == Revoke(old(View()), key, client)
      ensures !found ==> View() == old(View())
      ensures found ==>
                && key in sessions && sessions[key] == old(sessions)[key] - {client}
                && sessions - {key} == old(sessions) - {key}
                && tokens == old(tokens) - {old(sessions)[key][client]} && codes == old(codes) && reqs == old(reqs)
    {
      if key !in sessions || client !in sessions[key] {
        return false, false;
      }
      var refreshID := sessions[key][client];
      sessions := sessions[key := sessions[key] - {client}];
      deleted := refreshID in tokens;
      tokens := tokens - {refreshID};
      return true, deleted;
    }

    /**
     * The storage's GarbageCollect: deletes what has expired and counts it. The sequences are
     * the orders in which the runtime happens to walk the two maps.
     */
    method GarbageCollect(now: Time, codeOrder: seq<Id>, reqOrder: seq<Id>) returns (authRequests: nat, authCodes: nat)
      requires forall id :: id in codes ==> id in codeOrder
      requires forall id :: id in reqs ==> id in reqOrder
      modifies this`reqs, this`codes
      ensures View() == Collected(old(View()), now)
      ensures forall id :: id in codes <==> id in old(codes) && now <= old(codes)[id].expiry
      ensures forall id :: id in codes ==> codes[id] == old(codes)[id]
      ensures forall id :: id in reqs <==> id in old(reqs) && now <= old(reqs)[id].expiry
      ensures forall id :: id in reqs ==> reqs[id] == old(reqs)[id]
      ensures authRequests == |old(reqs)| - |reqs| && authCodes == |old(codes)| - |codes|
    {
      var expired: set<Id>;
      expired, authCodes := Sweep(CodeExpiries(codes), now, codeOrder);
      Dropped(codes, expired);
      codes := codes - expired;
      expired, authRequests := Sweep(RequestExpiries(reqs), now, reqOrder);
      Dropped(reqs, expired);
      reqs := reqs - expired;
    }
  }
}
