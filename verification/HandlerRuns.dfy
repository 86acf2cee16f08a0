/**
 * Runs of whole handlers: session references and refresh tokens stay in one-to-one
 * correspondence, and garbage collection cannot be noticed, except by a login that takes
 * longer than its request lives.
 */
module HandlerRuns {
  import opened Common
  import opened OAuth2
  import opened Grants
  import opened Handlers

  datatype World = World(now: Time, used: set<Id>, db: Db)

  function NewWorld(now: Time): World {
    World(now, {}, EMPTY_DB)
  }

  datatype Call =
    | Elapse(elapsed: nat)
    | Authorized(reqID: Id, request: Request)
    | Connected(reqID: Id, connID: string)
    | LoggedIn(reqID: Id, claims: Claims)
    | Approval(reqID: Id, ids: seq<Id>, works: seq<bool>)
    | CodeExchange(
        codeID: Id, client: string, redirectURI: string, signs: bool, canRefresh: bool, id: Id, value: Id)
    | TokenRefresh(
        id: Id, value: Id, client: string, scopes: Option<seq<string>>,
        identity: Option<Claims>, signs: bool, newValue: Id)
    | Revocation(key: SessionKey, client: string)
    | GarbageCollection

  /** What the caller gets to see; the login pages say whether they found the request. */
  datatype Outcome =
    | Silent
    | Refused
    | LoginAnswer(found: bool)
    | Approved(resp: Response)
    | TokensIssued(refresh: Option<(Id, Id)>)
    | ValueRotated(newValue: Id)
    | Revoked

  datatype After = After(w: World, outcome: Outcome)

  /** The IDs a call draws; they are new and differ from one another. */
  function Draws(call: Call): seq<Id> {
    match call
    case Authorized(reqID, _) => [reqID]
    case Approval(_, ids, _) => ids
    case CodeExchange(_, _, _, _, _, id, value) => [id, value]
    case TokenRefresh(_, _, _, _, _, _, newValue) => [newValue]
    case _ => []
  }

  predicate Fresh(used: set<Id>, ids: seq<Id>) {
    && (forall i :: 0 <= i < |ids| ==> ids[i] !in used)
    && (forall i, j :: 0 <= i < j < |ids| ==> ids[i] != ids[j])
  }

  function UsedAfter(w: World, call: Call): set<Id> {
    w.used + set i | 0 <= i < |Draws(call)| :: Draws(call)[i]
  }

  function RequestCall(db: Db, now: Time, call: Call): Db {
    match call
    case Authorized(reqID, request) =>
      db.(reqs := db.reqs[reqID := AuthRequest(request, now + REQUEST_LIFETIME, false, NO_CLAIMS, "")])
    case Connected(reqID, connID) =>
      if reqID in db.reqs then db.(reqs := db.reqs[reqID := db.reqs[reqID].(connID := connID)]) else db
    case LoggedIn(reqID, claims) =>
      if reqID !in db.reqs then db
      else db.(reqs := db.reqs[reqID := db.reqs[reqID].(loggedIn := true, claims := claims)])
    case _ => db
  }

  predicate ApprovalPasses(db: Db, now: Time, reqID: Id, ids: seq<Id>, works: seq<bool>) {
    CanApprove(db, now, reqID) && |ids| == |works| == |db.reqs[reqID].request.responseTypes|
  }

  function ApprovalCall(db: Db, now: Time, reqID: Id, ids: seq<Id>, works: seq<bool>): (Db, Outcome) {
    if ApprovalPasses(db, now, reqID, ids, works) then
      var (db', resp) := Approve(db, now, reqID, ids, works);
      (db', Approved(resp))
    else (db, Refused)
  }

  function ExchangeCall(db: Db, codeID: Id, passes: bool, canRefresh: bool, id: Id, value: Id): (Db, Outcome)
    requires passes ==> codeID in db.codes
  {
    if passes then
      var (db', r) := ExchangeCode(db, codeID, canRefresh, id, value);
      (db', if r.Ok? then TokensIssued(r.value) else Refused)
    else (db, Refused)
  }

  /** The store after a call and what its caller sees. */
  function Effect(db: Db, now: Time, call: Call): (Db, Outcome) {
    match call
    case Approval(reqID, ids, works) => ApprovalCall(db, now, reqID, ids, works)
    case CodeExchange(codeID, client, redirectURI, signs, canRefresh, id, value) =>
      ExchangeCall(db, codeID, CanExchange(db, now, codeID, client, redirectURI) && signs, canRefresh, id, value)
    case TokenRefresh(id, value, client, scopes, identity, signs, newValue) =>
      if CanRefresh(db, id, value, client, scopes) && identity.Some? && signs
      then (RefreshGrant(db, id, newValue, identity.value), ValueRotated(newValue)) else (db, Refused)
    case Revocation(key, client) =>
      if CanRevoke(db, key, client) then
        (Revoke(db, key, client), if db.sessions[key][client] in db.tokens then Revoked else Refused)
      else (db, Refused)
    case GarbageCollection => (Collected(db, now), Silent)
    case Connected(reqID, _) => (RequestCall(db, now, call), LoginAnswer(reqID in db.reqs))
    case LoggedIn(reqID, _) => (RequestCall(db, now, call), LoginAnswer(reqID in db.reqs))
    case _ => (RequestCall(db, now, call), Silent)
  }

  /** A call that would draw an ID a second time cannot happen. */
  function Perform(w: World, call: Call): After {
    if call.Elapse? then After(w.(now := w.now + call.elapsed), Silent)
    else if !Fresh(w.used, Draws(call)) then After(w, Silent)
    else
      var (db, outcome) := Effect(w.db, w.now, call);
      After(World(w.now, UsedAfter(w, call), db), outcome)
  }

  function Run(w: World, calls: seq<Call>): World {
    if calls == [] then w else Perform(Run(w, calls[..|calls| - 1]), calls[|calls| - 1]).w
  }

  // ---------------------------------------------------------------- references and tokens correspond

  /** Every reference names a stored token of that very user, connector and client, and every token is named there. */
  ghost predicate Matched(db: Db) {
    && (forall key, client, id :: Names(db.sessions, key, client, id) ==>
          id in db.tokens && HomeOf(db.tokens[id]) == key && db.tokens[id].grant.clientID == client)
    && (forall id :: id in db.tokens ==> Names(db.sessions, HomeOf(db.tokens[id]), db.tokens[id].grant.clientID, id))
  }

  ghost predicate Known(w: World) {
    forall id :: id in w.db.tokens ==> id in w.used
  }

  /** The slot of `key` and `client` gets `now`; the token it named before goes, the one it names now is there. */
  lemma RewritingMatches(db: Db, db': Db, key: SessionKey, client: string, now: Option<Id>)
    requires Matched(db) && Rewritten(db.sessions, db'.sessions, key, client, now)
    requires forall id :: id in db'.tokens ==> (id in db.tokens && db'.tokens[id] == db.tokens[id]) || Some(id) == now
    requires forall id :: id in db.tokens && !Names(db.sessions, key, client, id) ==> id in db'.tokens
    requires forall id :: Names(db.sessions, key, client, id) ==> id !in db'.tokens
    requires now.Some? ==> now.value in db'.tokens && now.value !in db.tokens
    requires now.Some? ==> HomeOf(db'.tokens[now.value]) == key && db'.tokens[now.value].grant.clientID == client
    ensures Matched(db')
  {
    forall k, c, id | Names(db'.sessions, k, c, id)
      ensures id in db'.tokens && HomeOf(db'.tokens[id]) == k && db'.tokens[id].grant.clientID == c
    {
      if k != key || c != client {
        assert Names(db.sessions, k, c, id);
        assert !Names(db.sessions, key, client, id);
      }
    }
    forall id | id in db'.tokens
      ensures Names(db'.sessions, HomeOf(db'.tokens[id]), db'.tokens[id].grant.clientID, id)
    {
      if Some(id) != now {
        assert Names(db.sessions, HomeOf(db.tokens[id]), db.tokens[id].grant.clientID, id);
      }
    }
  }

  lemma LoginMatches(db: Db, codeID: Id, canRefresh: bool, id: Id, value: Id)
    requires Matched(db) && codeID in db.codes && id !in db.tokens
    ensures Matched(ExchangeCode(db, codeID, canRefresh, id, value).0)
    ensures ExchangeCode(db, codeID, canRefresh, id, value).1 ==
            Ok(if WantsRefresh(db.codes[codeID], canRefresh) then Some((id, value)) else None)
  {
    var code, db' := db.codes[codeID], ExchangeCode(db, codeID, canRefresh, id, value).0;
    var key, client := HomeOfCode(code), code.grant.clientID;
    assert forall i :: i in Former(db, code) <==> Names(db.sessions, key, client, i);
    if WantsRefresh(code, canRefresh) {
      RewritingMatches(db, db', key, client, Some(id));
    } else {
      assert forall k, c, i :: Names(db'.sessions, k, c, i) <==> Names(db.sessions, k, c, i);
    }
  }

  lemma RefreshMatches(db: Db, id: Id, newValue: Id, claims: Claims)
    requires Matched(db) && id in db.tokens
    ensures Matched(RefreshGrant(db, id, newValue, claims))
  {
    var db' := RefreshGrant(db, id, newValue, claims);
    assert forall k, c, i :: Names(db'.sessions, k, c, i) <==> Names(db.sessions, k, c, i);
  }

  lemma RevokeMatches(db: Db, key: SessionKey, client: string)
    requires Matched(db) && CanRevoke(db, key, client)
    ensures Matched(Revoke(db, key, client)) && db.sessions[key][client] in db.tokens
  {
    assert Names(db.sessions, key, client, db.sessions[key][client]);
    RewritingMatches(db, Revoke(db, key, client), key, client, None);
  }

  lemma SameSessionsMatch(db: Db, db': Db)
    requires Matched(db) && db'.tokens == db.tokens && db'.sessions == db.sessions
    ensures Matched(db')
  {
    assert forall k, c, i :: Names(db'.sessions, k, c, i) <==> Names(db.sessions, k, c, i);
  }

  lemma EffectMatches(db: Db, now: Time, call: Call)
    requires Matched(db) && (call.CodeExchange? ==> call.id !in db.tokens)
    ensures Matched(Effect(db, now, call).0)
  {
    var db' := Effect(db, now, call).0;
    if call.CodeExchange? && call.signs && CanExchange(db, now, call.codeID, call.client, call.redirectURI) {
      LoginMatches(db, call.codeID, call.canRefresh, call.id, call.value);
    } else if call.TokenRefresh? && db' != db {
      RefreshMatches(db, call.id, call.newValue, call.identity.value);
    } else if call.Revocation? && CanRevoke(db, call.key, call.client) {
      RevokeMatches(db, call.key, call.client);
    } else {
      SameSessionsMatch(db, db');
    }
  }

  lemma TokensComeFromDraws(db: Db, now: Time, call: Call)
    ensures forall id :: id in Effect(db, now, call).0.tokens ==>
                           id in db.tokens || (call.CodeExchange? && id == call.id)
  {
  }

  lemma PerformMatches(w: World, call: Call)
    requires Matched(w.db) && Known(w)
    ensures Matched(Perform(w, call).w.db) && Known(Perform(w, call).w)
  {
    if !call.Elapse? && Fresh(w.used, Draws(call)) {
      if call.CodeExchange? {
        assert Draws(call)[0] == call.id;
      }
      EffectMatches(w.db, w.now, call);
      TokensComeFromDraws(w.db, w.now, call);
    }
  }

  /**
   * After any sequence of logins, re-logins, refreshes, revocations and the rest, references and refresh
   * tokens are in one-to-one correspondence, each reference under its token's own user, connector and client.
   */
  lemma {:induction false} RunsStayMatched(start: Time, calls: seq<Call>)
    ensures var w := Run(NewWorld(start), calls); Matched(w.db) && Known(w)
  {
    if calls != [] {
      RunsStayMatched(start, calls[..|calls| - 1]);
      PerformMatches(Run(NewWorld(start), calls[..|calls| - 1]), calls[|calls| - 1]);
    }
  }

  // ---------------------------------------------------------------- garbage collection cannot be noticed

  /** `codes` is `full` without some codes that have expired. */
  ghost predicate SweptCodes(codes: map<Id, AuthCode>, full: map<Id, AuthCode>, now: Time) {
    && (forall id :: id in codes ==> id in full && codes[id] == full[id])
    && (forall id :: id in full && id !in codes ==> now > full[id].expiry)
  }

  /** `db` is `full` without some requests and codes that have expired. */
  ghost predicate Swept(db: Db, full: Db, now: Time) {
    && db.tokens == full.tokens && db.sessions == full.sessions
    && (forall id :: id in db.reqs ==> id in full.reqs && db.reqs[id] == full.reqs[id])
    && (forall id :: id in full.reqs && id !in db.reqs ==> now > full.reqs[id].expiry)
    && SweptCodes(db.codes, full.codes, now)
  }

  ghost predicate Similar(w: World, full: World) {
    w.now == full.now && w.used == full.used && Swept(w.db, full.db, w.now)
  }

  lemma {:induction false} WithCodesSimilar(
    codes: map<Id, AuthCode>, full: map<Id, AuthCode>, now: Time, ids: seq<Id>, code: AuthCode)
    requires SweptCodes(codes, full, now)
    ensures SweptCodes(WithCodes(codes, ids, code), WithCodes(full, ids, code), now)
  {
    if ids != [] {
      WithCodesSimilar(codes, full, now, ids[..|ids| - 1], code);
    }
  }

  lemma ApprovalSimilar(db: Db, full: Db, now: Time, reqID: Id, ids: seq<Id>, works: seq<bool>)
    requires Swept(db, full, now)
    ensures var (d, o), (f, p) := ApprovalCall(db, now, reqID, ids, works), ApprovalCall(full, now, reqID, ids, works);
            Swept(d, f, now) && o == p
  {
    if ApprovalPasses(db, now, reqID, ids, works) {
      var req := db.reqs[reqID];
      WithCodesSimilar(db.codes, full.codes, now, StoredCodes(req.request, ids, works), NewCode(req, now));
    }
  }

  lemma ExchangeSimilar(db: Db, full: Db, now: Time, call: Call)
    requires Swept(db, full, now) && call.CodeExchange?
    ensures var (d, o), (f, p) := Effect(db, now, call), Effect(full, now, call); Swept(d, f, now) && o == p
  {
    if CanExchange(db, now, call.codeID, call.client, call.redirectURI) {
      var code := db.codes[call.codeID];
      assert Former(db, code) == Former(full, code);
      assert Dangling(db, code) == Dangling(full, code);
    }
  }

  lemma RequestSimilar(db: Db, full: Db, now: Time, call: Call)
    requires Swept(db, full, now)
    ensures Swept(RequestCall(db, now, call), RequestCall(full, now, call), now)
  {
  }

  lemma TokenCallSimilar(db: Db, full: Db, now: Time, call: Call)
    requires Swept(db, full, now) && (call.TokenRefresh? || call.Revocation?)
    ensures var (d, o), (f, p) := Effect(db, now, call), Effect(full, now, call); Swept(d, f, now) && o == p
  {
  }

  /** A step of a login that comes after its request has expired; no login page checks that. */
  predicate Late(db: Db, now: Time, call: Call) {
    (call.Connected? || call.LoggedIn?) && call.reqID in db.reqs && now > db.reqs[call.reqID].expiry
  }

  /** The outcome, answers of the login pages aside. */
  function Hidden(outcome: Outcome): Outcome {
    if outcome.LoginAnswer? then Silent else outcome
  }

  lemma EffectSimilar(db: Db, full: Db, now: Time, call: Call)
    requires Swept(db, full, now) && !call.Elapse? && !call.GarbageCollection?
    ensures var (d, o), (f, p) := Effect(db, now, call), Effect(full, now, call);
            Swept(d, f, now) && Hidden(o) == Hidden(p) && (Late(full, now, call) || o == p)
  {
    match call
    case Approval(reqID, ids, works) => ApprovalSimilar(db, full, now, reqID, ids, works);
    case CodeExchange(_, _, _, _, _, _, _) => ExchangeSimilar(db, full, now, call);
    case TokenRefresh(_, _, _, _, _, _, _) => TokenCallSimilar(db, full, now, call);
    case Revocation(_, _) => TokenCallSimilar(db, full, now, call);
    case _ => RequestSimilar(db, full, now, call);
  }

  lemma CollectionSimilar(db: Db, full: Db, now: Time)
    requires Swept(db, full, now)
    ensures Swept(Collected(db, now), full, now)
  {
  }

  lemma PerformSimilar(w: World, full: World, call: Call)
    requires Similar(w, full)
    ensures !call.GarbageCollection? ==> Similar(Perform(w, call).w, Perform(full, call).w)
    ensures !call.GarbageCollection? ==> Hidden(Perform(w, call).outcome) == Hidden(Perform(full, call).outcome)
    ensures !call.GarbageCollection? && !Late(full.db, full.now, call) ==>
              Perform(w, call).outcome == Perform(full, call).outcome
    ensures call.GarbageCollection? ==> Similar(Perform(w, call).w, full)
  {
    if call.GarbageCollection? {
      CollectionSimilar(w.db, full.db, w.now);
    } else if !call.Elapse? {
      EffectSimilar(w.db, full.db, w.now, call);
    }
  }

  /** The calls of a run other than garbage collection. */
  function Noticeable(calls: seq<Call>): seq<Call> {
    if calls == [] then []
    else
      var before, last := Noticeable(calls[..|calls| - 1]), calls[|calls| - 1];
      if last.GarbageCollection? then before else before + [last]
  }

  /** What the callers see, in order, garbage collection aside. */
  function Outcomes(w: World, calls: seq<Call>): seq<Outcome> {
    if calls == [] then []
    else
      var init, last := calls[..|calls| - 1], calls[|calls| - 1];
      if last.GarbageCollection? then Outcomes(w, init) else Outcomes(w, init) + [Perform(Run(w, init), last).outcome]
  }

  /** What they see, answers of the login pages aside. */
  function HiddenAll(outcomes: seq<Outcome>): seq<Outcome> {
    if outcomes == [] then [] else HiddenAll(outcomes[..|outcomes| - 1]) + [Hidden(outcomes[|outcomes| - 1])]
  }

  /** No step of a login comes after its request has expired. */
  ghost predicate Timely(w: World, calls: seq<Call>) {
    calls == [] ||
      var init, last := calls[..|calls| - 1], calls[|calls| - 1];
      Timely(w, init) && !Late(Run(w, init).db, Run(w, init).now, last)
  }

  lemma OneMoreOutcome(outcomes: seq<Outcome>, outcome: Outcome)
    ensures HiddenAll(outcomes + [outcome]) == HiddenAll(outcomes) + [Hidden(outcome)]
  {
    assert (outcomes + [outcome])[..|outcomes|] == outcomes;
  }

  lemma {:induction false} CollectionDropsOut(w: World, calls: seq<Call>)
    ensures HiddenAll(Outcomes(w, calls)) == HiddenAll(Outcomes(w, Noticeable(calls)))
    ensures Timely(w, Noticeable(calls)) ==> Outcomes(w, calls) == Outcomes(w, Noticeable(calls))
    ensures Similar(Run(w, calls), Run(w, Noticeable(calls)))
  {
    if calls != [] {
      var init, last := calls[..|calls| - 1], calls[|calls| - 1];
      CollectionDropsOut(w, init);
      var kept := Noticeable(init);
      PerformSimilar(Run(w, init), Run(w, kept), last);
      if !last.GarbageCollection? {
        assert Noticeable(calls)[..|kept|] == kept;
        OneMoreOutcome(Outcomes(w, init), Perform(Run(w, init), last).outcome);
        OneMoreOutcome(Outcomes(w, kept), Perform(Run(w, kept), last).outcome);
      }
    }
  }

  /**
   * Two runs that differ only in when garbage is collected show their callers the same, the answers of
   * the login pages aside; and these too if every login is over before its request expires.
   */
  lemma GarbageCollectionIsInvisible(w: World, calls: seq<Call>, calls': seq<Call>)
    requires Noticeable(calls) == Noticeable(calls')
    ensures HiddenAll(Outcomes(w, calls)) == HiddenAll(Outcomes(w, calls'))
    ensures Timely(w, Noticeable(calls)) ==> Outcomes(w, calls) == Outcomes(w, calls')
    ensures Run(w, calls).db.tokens == Run(w, calls').db.tokens
    ensures Run(w, calls).db.sessions == Run(w, calls').db.sessions
  {
    CollectionDropsOut(w, calls);
    CollectionDropsOut(w, calls');
  }

  // ---------------------------------------------------------------- when collection is noticed

  lemma {:induction false} RunConcat(w: World, a: seq<Call>, b: seq<Call>)
    ensures Run(w, a + b) == Run(Run(w, a), b)
    ensures Outcomes(w, a + b) == Outcomes(w, a) + Outcomes(Run(w, a), b)
    ensures Noticeable(a + b) == Noticeable(a) + Noticeable(b)
  {
    if b == [] {
      assert a + b == a;
    } else {
      assert (a + b)[..|a + b| - 1] == a + b[..|b| - 1];
      RunConcat(w, a, b[..|b| - 1]);
    }
  }

  lemma RunOne(w: World, call: Call)
    ensures Run(w, [call]) == Perform(w, call).w
    ensures Outcomes(w, [call]) == if call.GarbageCollection? then [] else [Perform(w, call).outcome]
    ensures Noticeable([call]) == if call.GarbageCollection? then [] else [call]
  {
    assert [call][..0] == [];
    assert Run(w, []) == w;
  }

  lemma {:induction false} NothingCollected(calls: seq<Call>)
    requires forall call :: call in calls ==> !call.GarbageCollection?
    ensures Noticeable(calls) == calls
  {
    if calls != [] {
      NothingCollected(calls[..|calls| - 1]);
    }
  }

  lemma {:induction false} FindLate(w: World, calls: seq<Call>) returns (n: nat)
    requires !Timely(w, calls)
    ensures n < |calls| && Late(Run(w, calls[..n]).db, Run(w, calls[..n]).now, calls[n])
  {
    var init := calls[..|calls| - 1];
    if Timely(w, init) {
      n := |calls| - 1;
    } else {
      n := FindLate(w, init);
      assert init[..n] == calls[..n];
    }
  }

  /** A late step of a login is answered differently once its request has been collected. */
  lemma LateStepNotices(w: World, call: Call)
    requires Late(w.db, w.now, call)
    ensures Perform(w, call).outcome != Perform(Perform(w, GarbageCollection).w, call).outcome
  {
    assert call.reqID in ExpiredRequests(w.db, w.now);
  }

  lemma FirstOutcome(w: World, calls: seq<Call>)
    requires calls != [] && !calls[0].GarbageCollection?
    ensures Outcomes(w, calls) != [] && Outcomes(w, calls)[0] == Perform(w, calls[0]).outcome
  {
    assert calls == [calls[0]] + calls[1..];
    RunConcat(w, [calls[0]], calls[1..]);
    RunOne(w, calls[0]);
  }

  lemma AfterCollection(w: World, calls: seq<Call>)
    ensures Outcomes(w, [GarbageCollection] + calls) == Outcomes(Perform(w, GarbageCollection).w, calls)
    ensures Noticeable([GarbageCollection] + calls) == Noticeable(calls)
  {
    RunConcat(w, [GarbageCollection], calls);
    RunOne(w, GarbageCollection);
  }

  lemma DifferAfter(before: seq<Outcome>, a: seq<Outcome>, b: seq<Outcome>)
    requires a != [] && b != [] && a[0] != b[0]
    ensures before + a != before + b
  {
    assert (before + a)[|before|] == a[0] && (before + b)[|before|] == b[0];
  }

  /** Collection just before a late step of a login shows in the outcomes. */
  lemma CollectionIsNoticed(w: World, calls: seq<Call>, n: nat)
    requires n < |calls| && Late(Run(w, calls[..n]).db, Run(w, calls[..n]).now, calls[n])
    requires forall call :: call in calls ==> !call.GarbageCollection?
    ensures var calls' := calls[..n] + ([GarbageCollection] + calls[n..]);
            Noticeable(calls') == calls && Outcomes(w, calls') != Outcomes(w, calls)
  {
    var a, rest := calls[..n], calls[n..];
    var u := Run(w, a);
    assert calls == a + rest;
    NothingCollected(calls);
    RunConcat(w, a, rest);
    RunConcat(w, a, [GarbageCollection] + rest);
    AfterCollection(u, rest);
    FirstOutcome(u, rest);
    FirstOutcome(Perform(u, GarbageCollection).w, rest);
    LateStepNotices(u, calls[n]);
    DifferAfter(Outcomes(w, a), Outcomes(u, rest), Outcomes(u, [GarbageCollection] + rest));
  }

  /**
   * Wherever garbage is collected, the callers see what they would see without, if and only if no step of
   * a login comes after its request has expired.
   */
  lemma CollectionNoticedExactly(w: World, calls: seq<Call>)
    requires forall call :: call in calls ==> !call.GarbageCollection?
    ensures (forall calls' :: Noticeable(calls') == calls ==> Outcomes(w, calls') == Outcomes(w, calls)) <==>
            Timely(w, calls)
  {
    NothingCollected(calls);
    if Timely(w, calls) {
      forall calls' | Noticeable(calls') == calls
        ensures Outcomes(w, calls') == Outcomes(w, calls)
      {
        CollectionDropsOut(w, calls');
      }
    } else {
      var n := FindLate(w, calls);
      CollectionIsNoticed(w, calls, n);
    }
  }
}
