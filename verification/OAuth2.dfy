/**
 * Validation of authorization requests, construction of ID tokens and assembly of the
 * authorization response (server/oauth2.go, server/handlers.go). What the first accepts
 * decides what the other two can produce.
 */
module OAuth2 {
  import opened Common
  import KeyProtocol
  import Rotation

  const SCOPE_OFFLINE_ACCESS := "offline_access"
  const SCOPE_OPENID := "openid"
  const SCOPE_GROUPS := "groups"
  const SCOPE_EMAIL := "email"
  const SCOPE_PROFILE := "profile"
  const SCOPE_FEDERATED_ID := "federated:id"
  const CROSS_CLIENT_PREFIX := "audience:server:client_id:"

  const REDIRECT_URI_OOB := "urn:ietf:wg:oauth:2.0:oob"

  const RESPONSE_TYPE_CODE := "code"
  const RESPONSE_TYPE_TOKEN := "token"
  const RESPONSE_TYPE_ID_TOKEN := "id_token"

  // ---------------------------------------------------------------- clients and trust

  datatype Client = Client(id: string, redirectURIs: seq<string>, trustedPeers: seq<string>, isPublic: bool)

  /** The client table as one handler sees it; reads of `failing` IDs end in a storage error. */
  datatype Directory = Directory(clients: map<string, Client>, failing: set<string>) {
    ghost predicate Keyed() {
      forall id :: id in clients ==> clients[id].id == id
    }

    predicate Found(id: string) {
      id !in failing && id in clients
    }
  }

  /** The peer a cross-client scope names. */
  function ParseCrossClientScope(scope: string): Option<string> {
    if CROSS_CLIENT_PREFIX <= scope then Some(scope[|CROSS_CLIENT_PREFIX|..]) else None
  }

  predicate IsStandardScope(scope: string) {
    || scope == SCOPE_OPENID || scope == SCOPE_OFFLINE_ACCESS || scope == SCOPE_EMAIL
    || scope == SCOPE_PROFILE || scope == SCOPE_GROUPS || scope == SCOPE_FEDERATED_ID
  }

  /** The peer `scope` asks into the audience; a standard scope asks for none. */
  function PeerOf(scope: string): Option<string> {
    if IsStandardScope(scope) then None else ParseCrossClientScope(scope)
  }

  /** The scopes that need no peer. */
  lemma StandardScopes(scope: string)
    ensures IsStandardScope(scope) <==>
            scope == "openid" || scope == "offline_access" || scope == "email" || scope == "groups"
            || scope == "profile" || scope == "federated:id"
  {
  }

  /** A scope names a peer if and only if it is that peer's ID behind the prefix: the two are inverse. */
  lemma PeersByScope(scope: string, peer: string)
    ensures PeerOf(scope) == Some(peer) <==> scope == "audience:server:client_id:" + peer
  {
    var prefix := "audience:server:client_id:";
    if CROSS_CLIENT_PREFIX <= scope {
      assert scope[..|CROSS_CLIENT_PREFIX|] == CROSS_CLIENT_PREFIX;
      assert scope == scope[..|CROSS_CLIENT_PREFIX|] + scope[|CROSS_CLIENT_PREFIX|..];
    }
    if scope == prefix + peer {
      assert scope[|prefix|..] == peer && prefix <= scope;
      assert |scope| >= 26 && scope[0] == 'a' && scope[0] == prefix[0];
    }
  }

  datatype TrustError = StorageError

  /** Does `peer` let `client` ask for tokens in its name? */
  function ValidateCrossClientTrust(dir: Directory, client: string, peer: string): Result<bool, TrustError> {
    if peer == client then Ok(true)
    else if peer in dir.failing then Err(StorageError)
    else Ok(peer in dir.clients && client in dir.clients[peer].trustedPeers)
  }

  predicate Trusts(dir: Directory, peer: string, client: string) {
    ValidateCrossClientTrust(dir, client, peer) == Ok(true)
  }

  /** A client is trusted by itself, and by the clients that can be read and list it. */
  lemma TrustIsListed(dir: Directory, peer: string, client: string)
    ensures Trusts(dir, peer, client) <==>
            peer == client
            || (peer !in dir.failing && peer in dir.clients && client in dir.clients[peer].trustedPeers)
    ensures ValidateCrossClientTrust(dir, client, peer).Err? <==> peer != client && peer in dir.failing
  {
  }

  // ---------------------------------------------------------------- authorization requests

  /** The parameters of a request; `isLoopback` says that the redirect URI is an http URL on host localhost. */
  datatype Query = Query(
    clientID: string, redirectURI: string, isLoopback: bool, state: string, nonce: string,
    scopes: seq<string>, responseTypes: seq<string>)

  datatype Request = Request(
    clientID: string, redirectURI: string, state: string, nonce: string,
    scopes: seq<string>, responseTypes: seq<string>)

  datatype AuthError =
    | ClientUnavailable
    | InvalidClient
    | UnregisteredRedirectURI
    | ServerError
    | MissingOpenID
    | UnrecognizedScopes(scopes: seq<string>)
    | UntrustedScopes(scopes: seq<string>)
    | InvalidResponseType(responseType: string)
    | UnsupportedResponseType(responseType: string)
    | NoResponseType
    | TokenAlone
    | MissingNonce
    | TokenWithOOB

  predicate ValidateRedirectURI(client: Client, q: Query) {
    if client.isPublic then q.redirectURI == REDIRECT_URI_OOB || q.isLoopback
    else q.redirectURI in client.redirectURIs
  }

  predicate Unrecognized(scope: string) {
    !IsStandardScope(scope) && ParseCrossClientScope(scope).None?
  }

  predicate Untrusted(dir: Directory, client: string, scope: string) {
    PeerOf(scope).Some? && ValidateCrossClientTrust(dir, client, PeerOf(scope).value) == Ok(false)
  }

  predicate TrustUnreadable(dir: Directory, client: string, scope: string) {
    PeerOf(scope).Some? && ValidateCrossClientTrust(dir, client, PeerOf(scope).value).Err?
  }

  /** Every peer named by `scopes` can be read. */
  predicate AllReadable(dir: Directory, client: string, scopes: seq<string>) {
    forall scope :: scope in scopes ==> !TrustUnreadable(dir, client, scope)
  }

  /** The unrecognized ones among `scopes`, in order. */
  function AllUnrecognized(scopes: seq<string>): seq<string> {
    if scopes == [] then []
    else
      var last := scopes[|scopes| - 1];
      AllUnrecognized(scopes[..|scopes| - 1]) + (if Unrecognized(last) then [last] else [])
  }

  /** The ones among `scopes` whose peer does not trust the client, in order. */
  function AllUntrusted(dir: Directory, client: string, scopes: seq<string>): seq<string> {
    if scopes == [] then []
    else
      var last := scopes[|scopes| - 1];
      AllUntrusted(dir, client, scopes[..|scopes| - 1]) + (if Untrusted(dir, client, last) then [last] else [])
  }

  predicate KnownResponseType(t: string) {
    t == RESPONSE_TYPE_CODE || t == RESPONSE_TYPE_ID_TOKEN || t == RESPONSE_TYPE_TOKEN
  }

  /** The client is known and may be redirected to; only then are errors sent to the redirect URI. */
  predicate Redirectable(dir: Directory, q: Query) {
    dir.Found(q.clientID) && ValidateRedirectURI(dir.clients[q.clientID], q)
  }

  predicate ScopesAllowed(dir: Directory, q: Query) {
    SCOPE_OPENID in q.scopes
    && forall scope :: scope in q.scopes ==>
      IsStandardScope(scope) || (PeerOf(scope).Some? && Trusts(dir, PeerOf(scope).value, q.clientID))
  }

  predicate ResponseTypesAllowed(supported: set<string>, q: Query) {
    && q.responseTypes != []
    && (forall t :: t in q.responseTypes ==> KnownResponseType(t) && t in supported)
    && (RESPONSE_TYPE_CODE in q.responseTypes || RESPONSE_TYPE_ID_TOKEN in q.responseTypes)
    && (RESPONSE_TYPE_CODE in q.responseTypes || q.nonce != "")
    && (RESPONSE_TYPE_TOKEN in q.responseTypes ==> q.redirectURI != REDIRECT_URI_OOB)
  }

  /** The requests the server lets through. */
  predicate Accepts(dir: Directory, supported: set<string>, q: Query) {
    Redirectable(dir, q) && ScopesAllowed(dir, q) && ResponseTypesAllowed(supported, q)
  }

  /** A scope that may be asked for: a standard one, or one naming a peer that trusts the client. */
  lemma AllowedScopes(dir: Directory, client: string, scope: string)
    ensures IsStandardScope(scope) || (PeerOf(scope).Some? && Trusts(dir, PeerOf(scope).value, client)) <==>
            || scope == "openid" || scope == "offline_access" || scope == "email" || scope == "groups"
            || scope == "profile" || scope == "federated:id"
            || scope == "audience:server:client_id:" + client
            || (exists peer :: scope == "audience:server:client_id:" + peer && peer !in dir.failing
                               && peer in dir.clients && client in dir.clients[peer].trustedPeers)
  {
    StandardScopes(scope);
    PeersByScope(scope, client);
    if PeerOf(scope).Some? {
      PeersByScope(scope, PeerOf(scope).value);
      TrustIsListed(dir, PeerOf(scope).value, client);
    }
    if peer :| scope == "audience:server:client_id:" + peer && peer !in dir.failing
               && peer in dir.clients && client in dir.clients[peer].trustedPeers {
      PeersByScope(scope, peer);
      TrustIsListed(dir, peer, client);
    }
  }

  /** What is accepted, spelled out. */
  lemma AcceptsExactly(dir: Directory, supported: set<string>, q: Query)
    ensures Accepts(dir, supported, q) <==>
            && q.clientID !in dir.failing && q.clientID in dir.clients
            && (if dir.clients[q.clientID].isPublic
                then q.redirectURI == "urn:ietf:wg:oauth:2.0:oob" || q.isLoopback
                else q.redirectURI in dir.clients[q.clientID].redirectURIs)
            && "openid" in q.scopes
            && (forall scope :: scope in q.scopes ==>
                  || scope == "openid" || scope == "offline_access" || scope == "email" || scope == "groups"
                  || scope == "profile" || scope == "federated:id"
                  || scope == "audience:server:client_id:" + q.clientID
                  || (exists peer :: scope == "audience:server:client_id:" + peer && peer !in dir.failing
                                     && peer in dir.clients && q.clientID in dir.clients[peer].trustedPeers))
            && (forall t :: t in q.responseTypes ==> (t == "code" || t == "id_token" || t == "token") && t in supported)
            && ("code" in q.responseTypes || ("id_token" in q.responseTypes && q.nonce != ""))
            && !("token" in q.responseTypes && q.redirectURI == "urn:ietf:wg:oauth:2.0:oob")
  {
    forall scope | scope in q.scopes
      ensures IsStandardScope(scope) || (PeerOf(scope).Some? && Trusts(dir, PeerOf(scope).value, q.clientID)) <==>
              || scope == "openid" || scope == "offline_access" || scope == "email" || scope == "groups"
              || scope == "profile" || scope == "federated:id"
              || scope == "audience:server:client_id:" + q.clientID
              || (exists peer :: scope == "audience:server:client_id:" + peer && peer !in dir.failing
                                 && peer in dir.clients && q.clientID in dir.clients[peer].trustedPeers)
    {
      AllowedScopes(dir, q.clientID, scope);
    }
  }

  function Accepted(dir: Directory, q: Query): Request
    requires dir.Found(q.clientID)
  {
    Request(dir.clients[q.clientID].id, q.redirectURI, q.state, q.nonce, q.scopes, q.responseTypes)
  }

  /** What one more scope adds to the findings of the scope loop. */
  lemma OneMoreChecked(dir: Directory, client: string, scopes: seq<string>, i: nat)
    requires i < |scopes|
    ensures (SCOPE_OPENID in scopes[..i + 1]) == (SCOPE_OPENID in scopes[..i] || scopes[i] == SCOPE_OPENID)
    ensures AllReadable(dir, client, scopes[..i + 1]) ==
            (AllReadable(dir, client, scopes[..i]) && !TrustUnreadable(dir, client, scopes[i]))
    ensures AllUnrecognized(scopes[..i + 1]) ==
            AllUnrecognized(scopes[..i]) + (if Unrecognized(scopes[i]) then [scopes[i]] else [])
    ensures AllUntrusted(dir, client, scopes[..i + 1]) ==
            AllUntrusted(dir, client, scopes[..i]) + (if Untrusted(dir, client, scopes[i]) then [scopes[i]] else [])
  {
    assert scopes[..i + 1][..i] == scopes[..i];
    assert scopes[..i + 1] == scopes[..i] + [scopes[i]];
  }

  /** The scope loop: what it collects, or the storage error that stops it. */
  method CheckScopes(dir: Directory, q: Query)
    returns (failed: bool, hasOpenID: bool, unrecognized: seq<string>, invalid: seq<string>)
    ensures failed <==> !AllReadable(dir, q.clientID, q.scopes)
    ensures !failed ==> hasOpenID == (SCOPE_OPENID in q.scopes)
    ensures !failed ==> unrecognized == AllUnrecognized(q.scopes)
    ensures !failed ==> invalid == AllUntrusted(dir, q.clientID, q.scopes)
  {
    failed, hasOpenID, unrecognized, invalid := false, false, [], [];
    for i := 0 to |q.scopes|
      invariant !failed && hasOpenID == (SCOPE_OPENID in q.scopes[..i])
      invariant unrecognized == AllUnrecognized(q.scopes[..i])
      invariant invalid == AllUntrusted(dir, q.clientID, q.scopes[..i])
      invariant AllReadable(dir, q.clientID, q.scopes[..i])
    {
      var scope := q.scopes[i];
      OneMoreChecked(dir, q.clientID, q.scopes, i);
      if scope == SCOPE_OPENID {
        hasOpenID := true;
      } else if !IsStandardScope(scope) {
        var peer := ParseCrossClientScope(scope);
        if peer.None? {
          unrecognized := unrecognized + [scope];
        } else {
          var trusted := ValidateCrossClientTrust(dir, q.clientID, peer.value);
          if trusted.Err? {
            assert scope in q.scopes && TrustUnreadable(dir, q.clientID, scope);
            failed := true;
            return;
          }
          if !trusted.value {
            invalid := invalid + [scope];
          }
        }
      }
    }
    assert q.scopes[..|q.scopes|] == q.scopes;
  }

  /** Type `i` is the first that is unknown or not enabled, and `err` says which. */
  ghost predicate FirstBad(supported: set<string>, responseTypes: seq<string>, i: int, err: AuthError) {
    && 0 <= i < |responseTypes|
    && (forall j :: 0 <= j < i ==> KnownResponseType(responseTypes[j]) && responseTypes[j] in supported)
    && (if KnownResponseType(responseTypes[i])
        then responseTypes[i] !in supported && err == UnsupportedResponseType(responseTypes[i])
        else err == InvalidResponseType(responseTypes[i]))
  }

  /** The response-type loop stops at the first type that is unknown or not enabled. */
  method CheckResponseTypes(supported: set<string>, responseTypes: seq<string>)
    returns (err: Option<AuthError>, code: bool, idToken: bool, token: bool)
    ensures err.None? <==> forall t :: t in responseTypes ==> KnownResponseType(t) && t in supported
    ensures err.None? ==> code == (RESPONSE_TYPE_CODE in responseTypes)
                          && idToken == (RESPONSE_TYPE_ID_TOKEN in responseTypes)
                          && token == (RESPONSE_TYPE_TOKEN in responseTypes)
    ensures err.Some? ==> exists i :: FirstBad(supported, responseTypes, i, err.value)
  {
    err, code, idToken, token := None, false, false, false;
    for i := 0 to |responseTypes|
      invariant err.None?
      invariant forall j :: 0 <= j < i ==> KnownResponseType(responseTypes[j]) && responseTypes[j] in supported
      invariant code == (RESPONSE_TYPE_CODE in responseTypes[..i])
      invariant idToken == (RESPONSE_TYPE_ID_TOKEN in responseTypes[..i])
      invariant token == (RESPONSE_TYPE_TOKEN in responseTypes[..i])
    {
      var t := responseTypes[i];
      assert responseTypes[..i + 1] == responseTypes[..i] + [t];
      if t == RESPONSE_TYPE_CODE {
        code := true;
      } else if t == RESPONSE_TYPE_ID_TOKEN {
        idToken := true;
      } else if t == RESPONSE_TYPE_TOKEN {
        token := true;
      } else {
        err := Some(InvalidResponseType(t));
        assert FirstBad(supported, responseTypes, i, err.value);
        return;
      }
      if t !in supported {
        err := Some(UnsupportedResponseType(t));
        assert FirstBad(supported, responseTypes, i, err.value);
        return;
      }
    }
    assert responseTypes[..|responseTypes|] == responseTypes;
  }

  lemma {:induction false} NoneUnrecognized(scopes: seq<string>)
    ensures AllUnrecognized(scopes) == [] <==> forall scope :: scope in scopes ==> !Unrecognized(scope)
  {
    if scopes != [] {
      NoneUnrecognized(scopes[..|scopes| - 1]);
      assert scopes == scopes[..|scopes| - 1] + [scopes[|scopes| - 1]];
    }
  }

  lemma {:induction false} NoneUntrusted(dir: Directory, client: string, scopes: seq<string>)
    ensures AllUntrusted(dir, client, scopes) == [] <==>
            forall scope :: scope in scopes ==> !Untrusted(dir, client, scope)
  {
    if scopes != [] {
      NoneUntrusted(dir, client, scopes[..|scopes| - 1]);
      assert scopes == scopes[..|scopes| - 1] + [scopes[|scopes| - 1]];
    }
  }

  /** The findings of the scope loop decide whether the scopes are allowed. */
  lemma ScopesVerdict(dir: Directory, q: Query)
    ensures ScopesAllowed(dir, q) <==>
            && SCOPE_OPENID in q.scopes && AllReadable(dir, q.clientID, q.scopes)
            && AllUnrecognized(q.scopes) == [] && AllUntrusted(dir, q.clientID, q.scopes) == []
  {
    NoneUnrecognized(q.scopes);
    NoneUntrusted(dir, q.clientID, q.scopes);
  }

  /** Does a rejection go back to the client's redirect URI, or only to the user? */
  predicate SentToClient(e: AuthError) {
    !e.ClientUnavailable? && !e.InvalidClient? && !e.UnregisteredRedirectURI?
  }

  /** Which error is reported about the scopes; an error that lists scopes lists all it is about. */
  predicate ScopeErrorFits(dir: Directory, q: Query, e: AuthError) {
    match e
    case ServerError => !AllReadable(dir, q.clientID, q.scopes)
    case MissingOpenID => AllReadable(dir, q.clientID, q.scopes) && SCOPE_OPENID !in q.scopes
    case UnrecognizedScopes(scopes) =>
      AllReadable(dir, q.clientID, q.scopes) && SCOPE_OPENID in q.scopes && scopes == AllUnrecognized(q.scopes) != []
    case UntrustedScopes(scopes) =>
      && AllReadable(dir, q.clientID, q.scopes) && SCOPE_OPENID in q.scopes && AllUnrecognized(q.scopes) == []
      && scopes == AllUntrusted(dir, q.clientID, q.scopes) != []
    case _ => false
  }

  /** Which error is reported about the response types, the scopes being allowed. */
  ghost predicate TypeErrorFits(supported: set<string>, q: Query, e: AuthError) {
    match e
    case InvalidResponseType(_) => exists i :: FirstBad(supported, q.responseTypes, i, e)
    case UnsupportedResponseType(_) => exists i :: FirstBad(supported, q.responseTypes, i, e)
    case NoResponseType => q.responseTypes == []
    case TokenAlone => q.responseTypes != [] && forall t :: t in q.responseTypes ==> t == RESPONSE_TYPE_TOKEN
    case MissingNonce =>
      RESPONSE_TYPE_ID_TOKEN in q.responseTypes && RESPONSE_TYPE_CODE !in q.responseTypes && q.nonce == ""
    case TokenWithOOB =>
      && RESPONSE_TYPE_TOKEN in q.responseTypes && q.redirectURI == REDIRECT_URI_OOB
      && (RESPONSE_TYPE_CODE in q.responseTypes || (RESPONSE_TYPE_ID_TOKEN in q.responseTypes && q.nonce != ""))
    case _ => false
  }

  /** Which error is reported: about the client first, then its redirect URI, the scopes, the response types. */
  ghost predicate ErrorFits(dir: Directory, supported: set<string>, q: Query, e: AuthError) {
    if q.clientID in dir.failing then e == ClientUnavailable
    else if q.clientID !in dir.clients then e == InvalidClient
    else if !Redirectable(dir, q) then e == UnregisteredRedirectURI
    else if !ScopesAllowed(dir, q) then ScopeErrorFits(dir, q, e)
    else TypeErrorFits(supported, q, e)
  }

  /** The scope half of validation. */
  method ValidateScopes(dir: Directory, q: Query) returns (err: Option<AuthError>)
    ensures err.None? <==> ScopesAllowed(dir, q)
    ensures err.Some? ==> ScopeErrorFits(dir, q, err.value)
  {
    var failed, hasOpenID, unrecognized, invalid := CheckScopes(dir, q);
    ScopesVerdict(dir, q);
    if failed {
      return Some(ServerError);
    }
    if !hasOpenID {
      return Some(MissingOpenID);
    }
    if |unrecognized| > 0 {
      return Some(UnrecognizedScopes(unrecognized));
    }
    if |invalid| > 0 {
      return Some(UntrustedScopes(invalid));
    }
    return None;
  }

  /** The response-type half of validation. */
  method ValidateResponseTypes(supported: set<string>, q: Query) returns (err: Option<AuthError>)
    ensures err.None? <==> ResponseTypesAllowed(supported, q)
    ensures err.Some? ==> TypeErrorFits(supported, q, err.value)
  {
    var bad, code, idToken, token := CheckResponseTypes(supported, q.responseTypes);
    if bad.Some? {
      return bad;
    }
    if |q.responseTypes| == 0 {
      return Some(NoResponseType);
    }
    assert q.responseTypes[0] in q.responseTypes;
    if token && !code && !idToken {
      return Some(TokenAlone);
    }
    if !code && q.nonce == "" {
      return Some(MissingNonce);
    }
    if token && q.redirectURI == REDIRECT_URI_OOB {
      return Some(TokenWithOOB);
    }
    return None;
  }

  method ParseAuthorizationRequest(dir: Directory, supported: set<string>, q: Query)
    returns (r: Result<Request, AuthError>)
    ensures r.Ok? <==> Accepts(dir, supported, q)
    ensures r.Ok? ==>
              && q.clientID !in dir.failing && q.clientID in dir.clients
              && (if dir.clients[q.clientID].isPublic
                  then q.redirectURI == "urn:ietf:wg:oauth:2.0:oob" || q.isLoopback
                  else q.redirectURI in dir.clients[q.clientID].redirectURIs)
              && "openid" in q.scopes
              && (forall t :: t in q.responseTypes ==> t in supported)
              && (forall t :: t in q.responseTypes ==> t == "code" || t == "id_token" || t == "token")
              && ("code" in q.responseTypes || ("id_token" in q.responseTypes && q.nonce != ""))
              && !("token" in q.responseTypes && q.redirectURI == "urn:ietf:wg:oauth:2.0:oob")
    ensures r.Ok? ==>
              && r.value.clientID == dir.clients[q.clientID].id && r.value.redirectURI == q.redirectURI
              && r.value.state == q.state && r.value.nonce == q.nonce
              && r.value.scopes == q.scopes && r.value.responseTypes == q.responseTypes
    ensures q.clientID !in dir.failing && q.clientID in dir.clients ==>
              (r == Err(UnregisteredRedirectURI) <==>
               !(if dir.clients[q.clientID].isPublic
                 then q.redirectURI == "urn:ietf:wg:oauth:2.0:oob" || q.isLoopback
                 else q.redirectURI in dir.clients[q.clientID].redirectURIs))
    ensures r.Ok? ==> r.value == Accepted(dir, q)
    ensures r.Err? ==> (SentToClient(r.error) <==> Redirectable(dir, q))
    ensures r.Err? ==> ErrorFits(dir, supported, q, r.error)
  {
    if q.clientID in dir.failing {
      return Err(ClientUnavailable);
    }
    if q.clientID !in dir.clients {
      return Err(InvalidClient);
    }
    var client := dir.clients[q.clientID];
    if !ValidateRedirectURI(client, q) {
      return Err(UnregisteredRedirectURI);
    }
    var err := ValidateScopes(dir, q);
    if err.Some? {
      return Err(err.value);
    }
    err := ValidateResponseTypes(supported, q);
    if err.Some? {
      return Err(err.value);
    }
    return Ok(Request(client.id, q.redirectURI, q.state, q.nonce, q.scopes, q.responseTypes));
  }

  // ---------------------------------------------------------------- ID tokens

  datatype Claims = Claims(userID: string, username: string, email: string, emailVerified: bool, groups: seq<string>)

  datatype IdToken = IdToken(
    key: Rotation.KeyId, issuedAt: Time, expiry: Time, subject: (string, string), nonce: string,
    audience: seq<string>, authorizingParty: Option<string>,
    email: Option<(string, bool)>, groups: Option<seq<string>>, name: Option<string>,
    federatedID: Option<(string, string)>)

  datatype TokenError = NoSigningKey | TrustUnknown | PeerDoesNotTrust(peer: string)

  function Elements(xs: seq<string>): set<string> {
    set x | x in xs
  }

  /** The peers the cross-client scopes among `scopes` name. */
  function Peers(scopes: seq<string>): set<string> {
    set scope | scope in scopes && PeerOf(scope).Some? :: PeerOf(scope).value
  }

  /** The peers named by the scopes, in the order of the scopes. */
  function PeerList(scopes: seq<string>): seq<string> {
    if scopes == [] then []
    else
      var before, peer := PeerList(scopes[..|scopes| - 1]), PeerOf(scopes[|scopes| - 1]);
      if peer.Some? then before + [peer.value] else before
  }

  /** Every peer named by `scopes` trusts `client`. */
  predicate PeersTrust(dir: Directory, client: string, scopes: seq<string>) {
    forall scope :: scope in scopes && PeerOf(scope).Some? ==> Trusts(dir, PeerOf(scope).value, client)
  }

  /** The claims a scope releases, apart from the audience. */
  function WithScope(tok: IdToken, claims: Claims, connID: string, scope: string): IdToken {
    if scope == SCOPE_EMAIL then tok.(email := Some((claims.email, claims.emailVerified)))
    else if scope == SCOPE_GROUPS then tok.(groups := Some(claims.groups))
    else if scope == SCOPE_PROFILE then tok.(name := Some(claims.username))
    else if scope == SCOPE_FEDERATED_ID then tok.(federatedID := Some((connID, claims.userID)))
    else tok
  }

  /** Each optional claim is present exactly when its scope was granted. */
  ghost predicate Releases(tok: IdToken, claims: Claims, connID: string, scopes: seq<string>) {
    && tok.email == (if SCOPE_EMAIL in scopes then Some((claims.email, claims.emailVerified)) else None)
    && tok.groups == (if SCOPE_GROUPS in scopes then Some(claims.groups) else None)
    && tok.name == (if SCOPE_PROFILE in scopes then Some(claims.username) else None)
    && tok.federatedID == (if SCOPE_FEDERATED_ID in scopes then Some((connID, claims.userID)) else None)
  }

  lemma OneMoreScope(tok: IdToken, claims: Claims, connID: string, scopes: seq<string>, i: nat)
    requires i < |scopes| && Releases(tok, claims, connID, scopes[..i])
    ensures Releases(WithScope(tok, claims, connID, scopes[i]), claims, connID, scopes[..i + 1])
  {
    assert scopes[..i + 1] == scopes[..i] + [scopes[i]];
  }

  lemma OneMorePeer(scopes: seq<string>, i: nat)
    requires i < |scopes|
    ensures PeerList(scopes[..i + 1]) ==
            if PeerOf(scopes[i]).Some? then PeerList(scopes[..i]) + [PeerOf(scopes[i]).value] else PeerList(scopes[..i])
    ensures Peers(scopes[..i + 1]) ==
            Peers(scopes[..i]) + (if PeerOf(scopes[i]).Some? then {PeerOf(scopes[i]).value} else {})
  {
    assert scopes[..i + 1][..i] == scopes[..i];
    assert scopes[..i + 1] == scopes[..i] + [scopes[i]];
  }

  lemma OneMoreMember(xs: seq<string>, x: string)
    ensures Elements(xs + [x]) == Elements(xs) + {x}
  {
  }

  /** The audience loop, with the claims each scope releases on the way. */
  method CollectAudience(
    dir: Directory, clientID: string, claims: Claims, connID: string, scopes: seq<string>, blank: IdToken)
    returns (r: Result<IdToken, TokenError>)
    requires blank.audience == [] && Releases(blank, claims, connID, [])
    ensures r.Ok? <==> PeersTrust(dir, clientID, scopes)
    ensures r.Ok? ==> Elements(r.value.audience) == Peers(scopes) && r.value.audience == PeerList(scopes)
    ensures r.Ok? ==> Releases(r.value, claims, connID, scopes)
    ensures r.Ok? ==>
              r.value.(audience := [], email := None, groups := None, name := None, federatedID := None) == blank
  {
    var tok := blank;
    for i := 0 to |scopes|
      invariant PeersTrust(dir, clientID, scopes[..i])
      invariant Elements(tok.audience) == Peers(scopes[..i]) && tok.audience == PeerList(scopes[..i])
      invariant Releases(tok, claims, connID, scopes[..i])
      invariant tok.(audience := [], email := None, groups := None, name := None, federatedID := None) == blank
    {
      var scope := scopes[i];
      OneMoreScope(tok, claims, connID, scopes, i);
      OneMorePeer(scopes, i);
      assert scopes[..i + 1] == scopes[..i] + [scope];
      var peer := PeerOf(scope);
      tok := WithScope(tok, claims, connID, scope);
      if peer.Some? {
        var trusted := ValidateCrossClientTrust(dir, clientID, peer.value);
        if trusted.Err? {
          return Err(TrustUnknown);
        }
        if !trusted.value {
          return Err(PeerDoesNotTrust(peer.value));
        }
        OneMoreMember(tok.audience, peer.value);
        tok := tok.(audience := tok.audience + [peer.value]);
      }
    }
    assert scopes[..|scopes|] == scopes;
    return Ok(tok);
  }

  /** The token with its final audience: the client joins it, and authorizes when peers were named. */
  function Addressed(tok: IdToken, clientID: string): (t: IdToken)
    ensures t == tok.(audience := t.audience, authorizingParty := t.authorizingParty)
    ensures t.audience == if clientID in tok.audience then tok.audience else tok.audience + [clientID]
    ensures Elements(t.audience) == Elements(tok.audience) + {clientID}
    ensures t.authorizingParty == (if Elements(tok.audience) == {} then tok.authorizingParty else Some(clientID))
  {
    if tok.audience == [] then
      tok.(audience := [clientID])
    else
      assert tok.audience[0] in Elements(tok.audience);
      OneMoreMember(tok.audience, clientID);
      tok.(audience := if clientID in tok.audience then tok.audience else tok.audience + [clientID],
           authorizingParty := Some(clientID))
  }

  lemma NamedPeers(scopes: seq<string>, peer: string)
    ensures peer in Peers(scopes) <==> ("audience:server:client_id:" + peer) in scopes
  {
    var named := "audience:server:client_id:" + peer;
    PeersByScope(named, peer);
    if peer in Peers(scopes) {
      var scope :| scope in scopes && PeerOf(scope) == Some(peer);
      PeersByScope(scope, peer);
    }
  }

  lemma AudienceByScope(audience: seq<string>, clientID: string, scopes: seq<string>)
    requires Elements(audience) == Peers(scopes) + {clientID}
    ensures forall member :: member in audience <==>
              member == clientID || ("audience:server:client_id:" + member) in scopes
  {
    forall member
      ensures member in audience <==> member == clientID || ("audience:server:client_id:" + member) in scopes
    {
      NamedPeers(scopes, member);
      assert member in audience <==> member in Elements(audience);
    }
  }

  /** Signed with the signing key of `keys`, and valid for `validFor` from `now` on. */
  predicate StampedWith(tok: IdToken, keys: Rotation.Keys, now: Time, validFor: Time) {
    keys.signingKey == Some(tok.key) && tok.issuedAt == now && tok.expiry == now + validFor
  }

  /** Such a token, made from the keys an operation got, is the one the key protocol issues. */
  lemma TokensAreIssued(
    tok: IdToken, s: KeyProtocol.State, o: KeyProtocol.OpId, op: KeyProtocol.Op, strategy: Rotation.Strategy)
    requires op.Got? && StampedWith(tok, op.keys, s.now, strategy.idTokenValidFor)
    ensures KeyProtocol.IssueStep(s, o, op, strategy).tokens ==
            s.tokens + {KeyProtocol.Token(tok.key, op.at, tok.issuedAt, tok.expiry)}
  {
  }

  method NewIDToken(
    dir: Directory, keys: Rotation.Keys, now: Time, validFor: Time, clientID: string,
    claims: Claims, scopes: seq<string>, nonce: string, connID: string)
    returns (r: Result<IdToken, TokenError>)
    ensures r.Ok? <==> keys.signingKey.Some? && PeersTrust(dir, clientID, scopes)
    ensures r.Ok? ==>
              && r.value.email == (if "email" in scopes then Some((claims.email, claims.emailVerified)) else None)
              && r.value.groups == (if "groups" in scopes then Some(claims.groups) else None)
              && r.value.name == (if "profile" in scopes then Some(claims.username) else None)
              && r.value.federatedID == (if "federated:id" in scopes then Some((connID, claims.userID)) else None)
    ensures r.Ok? ==>
              forall member :: member in r.value.audience <==>
                member == clientID || ("audience:server:client_id:" + member) in scopes
    ensures r.Ok? ==>
              var peers := PeerList(scopes);
              r.value.audience == if clientID in peers then peers else peers + [clientID]
    ensures r.Ok? ==>
              r.value.key == keys.signingKey.value && r.value.issuedAt == now && r.value.expiry == now + validFor
    ensures r.Ok? ==> StampedWith(r.value, keys, now, validFor)
    ensures r.Ok? ==>
              && Elements(r.value.audience) == Peers(scopes) + {clientID}
              && r.value.authorizingParty == (if Peers(scopes) == {} then None else Some(clientID))
              && Releases(r.value, claims, connID, scopes)
              && r.value.nonce == nonce && r.value.subject == (claims.userID, connID)
  {
    if keys.signingKey.None? {
      return Err(NoSigningKey);
    }
    var blank := IdToken(keys.signingKey.value, now, now + validFor, (claims.userID, connID), nonce,
                         [], None, None, None, None, None);
    r := CollectAudience(dir, clientID, claims, connID, scopes, blank);
    if r.Ok? {
      r := Ok(Addressed(r.value, clientID));
      AudienceByScope(r.value.audience, clientID, scopes);
    }
  }

  /** Everyone in the audience but the client itself lists the client as a trusted peer. */
  lemma AudienceTrustsClient(dir: Directory, clientID: string, scopes: seq<string>, member: string)
    requires PeersTrust(dir, clientID, scopes)
    requires member in Peers(scopes) + {clientID} && member != clientID
    ensures member in dir.clients && clientID in dir.clients[member].trustedPeers
  {
    var scope :| scope in scopes && PeerOf(scope) == Some(member);
  }

  /**
   * While the client table stays as it was, an accepted request never fails the trust check, nor does one
   * for fewer scopes.
   */
  lemma AcceptedRequestIsTrusted(dir: Directory, supported: set<string>, q: Query, narrower: seq<string>)
    requires dir.Keyed() && Accepts(dir, supported, q)
    requires forall scope :: scope in narrower ==> scope in q.scopes
    ensures PeersTrust(dir, Accepted(dir, q).clientID, narrower)
  {
    forall scope | scope in narrower && PeerOf(scope).Some?
      ensures Trusts(dir, PeerOf(scope).value, q.clientID)
    {
      assert scope in q.scopes;
    }
  }

  // ---------------------------------------------------------------- the authorization response

  /** What the browser is sent; tokens are represented by their presence, the code by its ID. */
  datatype Response =
    | OobPage(shown: int)
    | Redirect(inFragment: bool, code: Option<int>, idToken: bool, expiresIn: bool, state: string)
    | Failed

  /** In iteration `i` of the response-type loop the code cannot be stored or the ID token not be made. */
  predicate CallFails(req: Request, works: seq<bool>, i: nat)
    requires i < |req.responseTypes| == |works|
  {
    (req.responseTypes[i] == RESPONSE_TYPE_CODE || req.responseTypes[i] == RESPONSE_TYPE_ID_TOKEN) && !works[i]
  }

  /** Iteration `i` ends the loop: a call fails, or the code is shown on a page. */
  predicate Ends(req: Request, works: seq<bool>, i: nat)
    requires i < |req.responseTypes| == |works|
  {
    CallFails(req, works, i) || (req.responseTypes[i] == RESPONSE_TYPE_CODE && req.redirectURI == REDIRECT_URI_OOB)
  }

  /** The first iteration from `i` on that ends the loop, or the number of iterations if none does. */
  function EndOf(req: Request, works: seq<bool>, i: nat): (k: nat)
    requires i <= |req.responseTypes| == |works|
    ensures i <= k <= |works| && (k < |works| ==> Ends(req, works, k))
    ensures forall j :: i <= j < k ==> !Ends(req, works, j)
    decreases |works| - i
  {
    if i == |works| || Ends(req, works, i) then i else EndOf(req, works, i + 1)
  }

  /** Of the IDs drawn for the first `n` iterations, those at which a code was asked for. */
  function CodeIds(req: Request, ids: seq<int>, n: nat): (codes: seq<int>)
    requires n <= |req.responseTypes| == |ids|
    ensures codes == [] <==> RESPONSE_TYPE_CODE !in req.responseTypes[..n]
  {
    if n == 0 then []
    else
      assert req.responseTypes[..n] == req.responseTypes[..n - 1] + [req.responseTypes[n - 1]];
      var before := CodeIds(req, ids, n - 1);
      if req.responseTypes[n - 1] == RESPONSE_TYPE_CODE then before + [ids[n - 1]] else before
  }

  function Last(ids: seq<int>): Option<int> {
    if ids == [] then None else Some(ids[|ids| - 1])
  }

  /** The codes the loop stores: those before the iteration that ends it, and the one shown on a page. */
  function StoredCodes(req: Request, ids: seq<int>, works: seq<bool>): seq<int>
    requires |ids| == |works| == |req.responseTypes|
  {
    var k := EndOf(req, works, 0);
    if k < |works| && !CallFails(req, works, k) then CodeIds(req, ids, k) + [ids[k]] else CodeIds(req, ids, k)
  }

  /** The response: an error or a page if the loop is ended, else a redirect with the last code stored. */
  function ResponseTo(req: Request, ids: seq<int>, works: seq<bool>): Response
    requires |ids| == |works| == |req.responseTypes|
  {
    var k := EndOf(req, works, 0);
    if k < |works| then if CallFails(req, works, k) then Failed else OobPage(ids[k])
    else
      var idToken := RESPONSE_TYPE_ID_TOKEN in req.responseTypes;
      var code := Last(CodeIds(req, ids, k));
      Redirect(RESPONSE_TYPE_TOKEN in req.responseTypes || idToken, code, idToken, idToken && code.None?, req.state)
  }

  /** What one more iteration adds. */
  lemma OneMoreIteration(req: Request, ids: seq<int>, works: seq<bool>, i: nat)
    requires i < |ids| == |works| == |req.responseTypes|
    ensures EndOf(req, works, i) == if Ends(req, works, i) then i else EndOf(req, works, i + 1)
    ensures var before := CodeIds(req, ids, i);
            CodeIds(req, ids, i + 1) == if req.responseTypes[i] == RESPONSE_TYPE_CODE then before + [ids[i]] else before
    ensures forall t :: t in req.responseTypes[..i + 1] <==> t in req.responseTypes[..i] || t == req.responseTypes[i]
  {
    assert req.responseTypes[..i + 1] == req.responseTypes[..i] + [req.responseTypes[i]];
  }

  /** Each artefact is present exactly when the request asked for it. */
  predicate Answers(req: Request, resp: Response)
    requires resp.Redirect?
  {
    && resp.inFragment == (RESPONSE_TYPE_TOKEN in req.responseTypes || RESPONSE_TYPE_ID_TOKEN in req.responseTypes)
    && resp.code.Some? == (RESPONSE_TYPE_CODE in req.responseTypes)
    && resp.idToken == (RESPONSE_TYPE_ID_TOKEN in req.responseTypes)
    && resp.expiresIn == (resp.idToken && resp.code.None?)
    && resp.state == req.state
  }

  /**
   * A redirect carries exactly what was asked for and, as code, the last one stored; the page appears only
   * for its redirect URI and shows the one code stored; the answer is an error only if a call fails.
   */
  lemma ResponsesAnswer(req: Request, ids: seq<int>, works: seq<bool>)
    requires |ids| == |works| == |req.responseTypes|
    ensures var resp, stored := ResponseTo(req, ids, works), StoredCodes(req, ids, works);
            match resp
            case Redirect(_, code, _, _, _) =>
              && Answers(req, resp) && code == Last(stored)
              && (req.redirectURI == REDIRECT_URI_OOB ==> RESPONSE_TYPE_CODE !in req.responseTypes)
            case OobPage(shown) =>
              req.redirectURI == REDIRECT_URI_OOB && RESPONSE_TYPE_CODE in req.responseTypes && stored == [shown]
            case Failed => exists i :: 0 <= i < |works| && CallFails(req, works, i)
  {
    var k := EndOf(req, works, 0);
    var types := req.responseTypes;
    assert types[..|types|] == types;
    if req.redirectURI == REDIRECT_URI_OOB && RESPONSE_TYPE_CODE in types[..k] {
      var i :| 0 <= i < k && types[i] == RESPONSE_TYPE_CODE;
      assert Ends(req, works, i);
    }
    if k < |works| && !CallFails(req, works, k) {
      assert types[k] in types;
    }
  }

  lemma {:induction false} CodesAskedFor(req: Request, ids: seq<int>, n: nat, id: int)
    requires n <= |req.responseTypes| == |ids|
    ensures id in CodeIds(req, ids, n) <==> exists i :: 0 <= i < n && req.responseTypes[i] == "code" && ids[i] == id
  {
    if n != 0 {
      CodesAskedFor(req, ids, n - 1, id);
    }
  }

  /** Iteration `j` lets the loop go on: its call works, and it shows no page. */
  ghost predicate Passes(req: Request, works: seq<bool>, j: int)
    requires 0 <= j < |req.responseTypes| == |works|
  {
    && (req.responseTypes[j] == "code" || req.responseTypes[j] == "id_token" ==> works[j])
    && !(req.responseTypes[j] == "code" && req.redirectURI == "urn:ietf:wg:oauth:2.0:oob")
  }

  /** Iteration `i` is reached. */
  ghost predicate Reached(req: Request, works: seq<bool>, i: int)
    requires 0 <= i <= |req.responseTypes| == |works|
  {
    forall j :: 0 <= j < i ==> Passes(req, works, j)
  }

  lemma PassesUnlessEnds(req: Request, works: seq<bool>, j: nat)
    requires j < |req.responseTypes| == |works|
    ensures Passes(req, works, j) <==> !Ends(req, works, j)
  {
  }

  lemma ReachedUpToTheEnd(req: Request, works: seq<bool>, i: nat)
    requires i <= |req.responseTypes| == |works|
    ensures Reached(req, works, i) <==> i <= EndOf(req, works, 0)
  {
    var k := EndOf(req, works, 0);
    if k < i {
      PassesUnlessEnds(req, works, k);
    } else {
      forall j | 0 <= j < i
        ensures Passes(req, works, j)
      {
        PassesUnlessEnds(req, works, j);
      }
    }
  }

  /** Iteration `i` is reached, asks for a code and can store it. */
  ghost predicate StoresCode(req: Request, works: seq<bool>, i: int)
    requires |req.responseTypes| == |works|
  {
    0 <= i < |works| && Reached(req, works, i) && req.responseTypes[i] == "code" && works[i]
  }

  lemma StoresUpToTheEnd(req: Request, works: seq<bool>, i: nat)
    requires i < |req.responseTypes| == |works|
    ensures var k := EndOf(req, works, 0);
            StoresCode(req, works, i) <==>
            (i < k && req.responseTypes[i] == "code") || (i == k && !CallFails(req, works, k))
  {
    ReachedUpToTheEnd(req, works, i);
    PassesUnlessEnds(req, works, i);
  }

  /** A code is stored for exactly the iterations that are reached, ask for one, and can store it. */
  lemma CodesStoredExactly(req: Request, ids: seq<int>, works: seq<bool>, id: int)
    requires |ids| == |works| == |req.responseTypes|
    ensures id in StoredCodes(req, ids, works) <==>
            exists i :: 0 <= i < |ids| && StoresCode(req, works, i) && ids[i] == id
  {
    var k := EndOf(req, works, 0);
    CodesAskedFor(req, ids, k, id);
    forall i | 0 <= i < |ids|
      ensures StoresCode(req, works, i) <==>
              (i < k && req.responseTypes[i] == "code") || (i == k && !CallFails(req, works, k))
    {
      StoresUpToTheEnd(req, works, i);
    }
  }

  /** The redirect that ends an accepted request. */
  lemma AcceptedRequestsGetWellFormedRedirects(
    dir: Directory, supported: set<string>, q: Query, ids: seq<int>, works: seq<bool>)
    requires Accepts(dir, supported, q) && |ids| == |works| == |q.responseTypes|
    ensures var resp := ResponseTo(Accepted(dir, q), ids, works);
            resp.Redirect? ==>
              && (!resp.inFragment ==> resp.code.Some? && !resp.idToken)
              && (resp.inFragment ==> resp.code.Some? || resp.idToken)
              && (resp.inFragment <==> "token" in q.responseTypes || "id_token" in q.responseTypes)
              && (resp.code.Some? <==> "code" in q.responseTypes)
              && (resp.idToken <==> "id_token" in q.responseTypes) && resp.state == q.state
              && (resp.idToken && resp.code.None? ==> q.nonce != "")
              && (resp.expiresIn <==> resp.idToken && resp.code.None?)
  {
    ResponsesAnswer(Accepted(dir, q), ids, works);
    assert q.responseTypes[0] in q.responseTypes;
  }

  const OOB_CLIENT := Client("app", [], [], true)
  const OOB_DIRECTORY := Directory(map["app" := OOB_CLIENT], {})
  const OOB_QUERY :=
    Query("app", REDIRECT_URI_OOB, false, "", "", [SCOPE_OPENID], [RESPONSE_TYPE_CODE, RESPONSE_TYPE_ID_TOKEN])

  /** A hybrid request with the out-of-band redirect URI is accepted; its ID token is never sent. */
  lemma HybridOutOfBand(ids: seq<int>, works: seq<bool>)
    requires |ids| == |works| == 2 && works[0]
    ensures Accepts(OOB_DIRECTORY, {RESPONSE_TYPE_CODE, RESPONSE_TYPE_ID_TOKEN}, OOB_QUERY)
    ensures ResponseTo(Accepted(OOB_DIRECTORY, OOB_QUERY), ids, works) == OobPage(ids[0])
  {
    var request := Accepted(OOB_DIRECTORY, OOB_QUERY);
    assert Ends(request, works, 0);
  }
}
