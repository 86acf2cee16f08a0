/**
 * The interleaved model and the whole handlers are the same handlers: a thread that runs
 * without interference does to the storage what its handler does, failing calls included.
 */
module HandlerAgreement {
  import opened Common
  import opened OAuth2
  import opened Grants
  import opened Handlers
  import GrantSafety
  import HandlerRuns

  function View(st: Store): Db {
    Db(st.reqs, st.codes, st.tokens, st.sessions)
  }

  /** A step of the thread, or the failure of the call it makes. */
  datatype Move = Goes(o: Oracle) | Breaks

  function Moves(st: Store, th: Thread, m: Move): Next {
    match m
    case Goes(o) => AdvanceStep(st, th, o)
    case Breaks => Next(st, FailStep(th))
  }

  /** The thread makes these moves, nothing else happens. */
  function Alone(st: Store, th: Thread, ms: seq<Move>): Next
    decreases |ms|
  {
    if ms == [] then Next(st, th)
    else
      var n := Moves(st, th, ms[0]);
      Alone(n.st, n.th, ms[1..])
  }

  /** The stored tokens and references have been drawn. */
  ghost predicate Drawn(st: Store) {
    && (forall id :: id in st.tokens ==> id in st.used)
    && (forall key, client :: key in st.sessions && client in st.sessions[key] ==> st.sessions[key][client] in st.used)
  }

  /** As they are in every state an interleaved run reaches. */
  lemma ReachableStatesAreDrawn(start: Time, run: seq<Event>)
    ensures Drawn(Run(Init(start), run).store)
  {
    GrantSafety.RunsAreSafe(start, run);
    var st := Run(Init(start), run).store;
    forall key, client | key in st.sessions && client in st.sessions[key]
      ensures st.sessions[key][client] in st.used
    {
      assert Names(st.sessions, key, client, st.sessions[key][client]);
    }
  }

  lemma {:induction false} FinishedStaysFinished(st: Store, th: Thread, ms: seq<Move>)
    requires th.Delivered? || th.Exchanged? || th.Refreshed? || th.Ended?
    ensures Alone(st, th, ms) == Next(st, th)
  {
    if ms != [] {
      FinishedStaysFinished(st, th, ms[1..]);
    }
  }

  lemma TwoMore(st: Store, th: Thread, m: Move, m': Move)
    ensures var n := Moves(st, th, m); Alone(st, th, [m, m']) == Moves(n.st, n.th, m')
  {
    var n := Moves(st, th, m);
    assert [m, m'][1..] == [m'];
    assert [m'][1..] == [];
    assert Alone(n.st, n.th, [m']) == Moves(n.st, n.th, m');
  }

  // ---------------------------------------------------------------- approval

  /** A move per response type, failing where its call fails, and one for the redirect. */
  ghost predicate Supplies(ms: seq<Move>, request: Request, ids: seq<Id>, works: seq<bool>, i: nat)
    requires |ids| == |works| == |request.responseTypes|
  {
    && i <= |ids| && |ms| == |ids| - i + 1 && ms[|ids| - i].Goes?
    && forall k :: i <= k < |ids| ==>
         if CallFails(request, works, k) then ms[k - i] == Breaks else ms[k - i].Goes? && ms[k - i].o.first == ids[k]
  }

  ghost predicate FreshFrom(used: set<Id>, ids: seq<Id>, i: nat) {
    && (forall k :: i <= k < |ids| ==> ids[k] !in used)
    && (forall j, k :: i <= j < k < |ids| ==> ids[j] != ids[k])
  }

  /** The end of a thread that sends this response. */
  function Sent(reqID: Id, resp: Response): Thread {
    match resp
    case OobPage(shown) => Delivered(reqID, Some(shown))
    case Redirect(_, code, _, _, _) => Delivered(reqID, code)
    case Failed => Ended
  }

  /** The thread stands at iteration `th.next` of the loop, which began with `before` stored. */
  ghost predicate InLoop(st: Store, th: Thread, before: map<Id, AuthCode>, ids: seq<Id>, works: seq<bool>)
    requires th.Responding? && th.next <= |ids| == |works| == |th.req.request.responseTypes|
  {
    && EndOf(th.req.request, works, th.next) == EndOf(th.req.request, works, 0)
    && th.code == Last(CodeIds(th.req.request, ids, th.next))
    && st.codes == WithCodes(before, CodeIds(th.req.request, ids, th.next), NewCode(th.req, st.now))
  }

  /** The thread has ended as its response demands, with the codes stored that the loop stores. */
  ghost predicate Responded(
    st: Store, th: Thread, n: Next, before: map<Id, AuthCode>, ids: seq<Id>, works: seq<bool>)
    requires th.Responding? && |ids| == |works| == |th.req.request.responseTypes|
  {
    && n.th == Sent(th.reqID, ResponseTo(th.req.request, ids, works))
    && View(n.st) == View(st).(
         codes := WithCodes(before, StoredCodes(th.req.request, ids, works), NewCode(th.req, st.now)))
  }

  /** The thread has gone round once more, and stored a code if one was asked for. */
  ghost predicate RoundOnce(st: Store, th: Thread, n: Next, id: Id)
    requires th.Responding? && th.next < |th.req.request.responseTypes|
  {
    var asked := th.req.request.responseTypes[th.next] == RESPONSE_TYPE_CODE;
    && n.th == th.(next := th.next + 1, code := if asked then Some(id) else th.code)
    && View(n.st) == View(st).(codes := if asked then st.codes[id := NewCode(th.req, st.now)] else st.codes)
    && n.st.now == st.now && n.st.used <= st.used + {id}
  }

  lemma IterationAlone(st: Store, th: Thread, works: seq<bool>, o: Oracle)
    requires th.Responding? && th.next < |works| == |th.req.request.responseTypes|
    requires !Ends(th.req.request, works, th.next) && o.first !in st.used
    ensures RoundOnce(st, th, AdvanceStep(st, th, o), o.first)
  {
  }

  /** A code that was asked for joins those stored and becomes the last of them. */
  lemma LoopStoresCode(before: map<Id, AuthCode>, stored: seq<Id>, id: Id, code: AuthCode)
    ensures Last(stored + [id]) == Some(id)
    ensures WithCodes(before, stored + [id], code) == WithCodes(before, stored, code)[id := code]
  {
    OneMoreCode(before, stored, id, code);
  }

  lemma StillInLoop(st: Store, th: Thread, n: Next, before: map<Id, AuthCode>, ids: seq<Id>, works: seq<bool>)
    requires th.Responding? && th.next < |ids| == |works| == |th.req.request.responseTypes|
    requires InLoop(st, th, before, ids, works) && !Ends(th.req.request, works, th.next)
    requires RoundOnce(st, th, n, ids[th.next])
    ensures InLoop(n.st, n.th, before, ids, works)
  {
    var request, i, code := th.req.request, th.next, NewCode(th.req, st.now);
    var stored, stored' := CodeIds(request, ids, i), CodeIds(request, ids, i + 1);
    OneMoreIteration(request, ids, works, i);
    assert n.th.req == th.req && n.th.next == i + 1 && NewCode(n.th.req, n.st.now) == code;
    assert n.st.codes == View(n.st).codes;
    if request.responseTypes[i] == RESPONSE_TYPE_CODE {
      LoopStoresCode(before, stored, ids[i], code);
      assert stored' == stored + [ids[i]];
    } else {
      assert stored' == stored;
    }
    assert n.th.code == Last(stored') && n.st.codes == WithCodes(before, stored', code);
  }

  /** The iteration that ends the loop. */
  lemma LastIterationAlone(
    st: Store, th: Thread, before: map<Id, AuthCode>, ids: seq<Id>, works: seq<bool>, m: Move)
    requires th.Responding? && th.next < |ids| == |works| == |th.req.request.responseTypes|
    requires InLoop(st, th, before, ids, works) && Ends(th.req.request, works, th.next)
    requires if CallFails(th.req.request, works, th.next) then m == Breaks
             else m.Goes? && m.o.first == ids[th.next] && ids[th.next] !in st.used
    ensures Responded(st, th, Moves(st, th, m), before, ids, works)
  {
    OneMoreCode(before, CodeIds(th.req.request, ids, th.next), ids[th.next], NewCode(th.req, st.now));
  }

  /** The redirect, when no iteration has ended the loop. */
  lemma RedirectAlone(
    st: Store, th: Thread, before: map<Id, AuthCode>, ids: seq<Id>, works: seq<bool>, o: Oracle)
    requires th.Responding? && th.next == |ids| == |works| == |th.req.request.responseTypes|
    requires InLoop(st, th, before, ids, works)
    ensures Responded(st, th, AdvanceStep(st, th, o), before, ids, works)
  {
  }

  /** What holds of the rest of the loop, the thread having gone round once more. */
  lemma RoundedResponds(
    st: Store, th: Thread, n: Next, end: Next, before: map<Id, AuthCode>, ids: seq<Id>, works: seq<bool>)
    requires th.Responding? && th.next < |ids| == |works| == |th.req.request.responseTypes|
    requires RoundOnce(st, th, n, ids[th.next]) && Responded(n.st, n.th, end, before, ids, works)
    ensures Responded(st, th, end, before, ids, works)
  {
  }

  lemma FreshRest(used: set<Id>, used': set<Id>, ids: seq<Id>, i: nat)
    requires i < |ids| && FreshFrom(used, ids, i) && used' <= used + {ids[i]}
    ensures FreshFrom(used', ids, i + 1)
  {
  }

  lemma SuppliesRest(ms: seq<Move>, request: Request, ids: seq<Id>, works: seq<bool>, i: nat)
    requires |ids| == |works| == |request.responseTypes| && i < |ids| && Supplies(ms, request, ids, works, i)
    ensures Supplies(ms[1..], request, ids, works, i + 1)
  {
    forall k | i + 1 <= k < |ids|
      ensures var m := ms[1..][k - (i + 1)];
              if CallFails(request, works, k) then m == Breaks else m.Goes? && m.o.first == ids[k]
    {
      assert ms[1..][k - (i + 1)] == ms[k - i];
    }
  }

  lemma {:induction false} RespondingAlone(
    st: Store, th: Thread, before: map<Id, AuthCode>, ids: seq<Id>, works: seq<bool>, ms: seq<Move>)
    requires th.Responding? && th.next <= |ids| == |works| == |th.req.request.responseTypes|
    requires InLoop(st, th, before, ids, works)
    requires Supplies(ms, th.req.request, ids, works, th.next) && FreshFrom(st.used, ids, th.next)
    ensures Responded(st, th, Alone(st, th, ms), before, ids, works)
    decreases |ids| - th.next
  {
    var n := Moves(st, th, ms[0]);
    if th.next < |ids| {
      assert ms[th.next - th.next] == ms[0];
      if Ends(th.req.request, works, th.next) {
        LastIterationAlone(st, th, before, ids, works, ms[0]);
        FinishedStaysFinished(n.st, n.th, ms[1..]);
      } else {
        IterationAlone(st, th, works, ms[0].o);
        StillInLoop(st, th, n, before, ids, works);
        SuppliesRest(ms, th.req.request, ids, works, th.next);
        FreshRest(st.used, n.st.used, ids, th.next);
        RespondingAlone(n.st, n.th, before, ids, works, ms[1..]);
        RoundedResponds(st, th, n, Alone(st, th, ms), before, ids, works);
      }
    } else {
      RedirectAlone(st, th, before, ids, works, ms[0].o);
      FinishedStaysFinished(n.st, n.th, ms[1..]);
    }
  }

  /** An approval alone: `ms` holds a move for each storage call and response type. */
  lemma ApprovalAlone(st: Store, reqID: Id, ids: seq<Id>, works: seq<bool>, ms: seq<Move>)
    requires 2 <= |ms| && ms[0].Goes? && ms[1].Goes? && FreshFrom(st.used, ids, 0)
    requires reqID in st.reqs ==> |ids| == |works| == |st.reqs[reqID].request.responseTypes|
    requires reqID in st.reqs ==> Supplies(ms[2..], st.reqs[reqID].request, ids, works, 0)
    ensures var n := Alone(st, StartApproval(st, reqID), ms);
            if CanApprove(View(st), st.now, reqID) then
              var (db, resp) := Approve(View(st), st.now, reqID, ids, works);
              View(n.st) == db && n.th == Sent(reqID, resp)
            else View(n.st) == View(st) && n.th.Ended?
  {
    var th := StartApproval(st, reqID);
    if th.Ended? {
      FinishedStaysFinished(st, th, ms);
    } else {
      var n1 := AdvanceStep(st, th, ms[0].o);
      if n1.th.Ended? {
        FinishedStaysFinished(st, n1.th, ms[1..]);
      } else {
        var n2 := AdvanceStep(n1.st, n1.th, ms[1].o);
        assert ms[1..][1..] == ms[2..];
        assert Alone(n1.st, n1.th, ms[1..]) == Alone(n2.st, n2.th, ms[2..]);
        RespondingAlone(n2.st, n2.th, st.codes, ids, works, ms[2..]);
      }
    }
  }

  // ---------------------------------------------------------------- code exchange

  /** From the stored token to the response: three calls at most. */
  lemma LinkingAlone(st: Store, x: Exchange, id: Id, value: Id, m: Move)
    requires m.Goes? && id in st.tokens
    requires forall key, client :: key in st.sessions && client in st.sessions[key] ==> st.sessions[key][client] != id
    ensures var n := Alone(st, Created(x, id, value), [m, m, m]);
            if Dangling(View(st), x.code)
            then n.th.Ended? && View(n.st) == View(st).(tokens := st.tokens - {id})
            else n.th == Thread.Exchanged(x, Some((id, value))) &&
                 View(n.st) == View(st).(
                   tokens := st.tokens - Former(View(st), x.code),
                   sessions := SessionsLinked(st.sessions, HomeOfCode(x.code), x.code.grant.clientID, id))
  {
    var th := ReadSession(st, x, id, value);
    assert [m, m, m][1..] == [m, m];
    assert Alone(st, Created(x, id, value), [m, m, m]) == Alone(st, th, [m, m]);
    TwoMore(st, th, m, m);
    if !th.Replacing? {
      assert Former(View(st), x.code) == {};
      assert st.tokens - {} == st.tokens;
    }
  }

  lemma ExchangeEnds(st: Store, x: Exchange, o: Oracle, st2: Store)
    requires Drawn(st) && o.first !in st.used && x.codeID in st.codes && st.codes[x.codeID] == x.code
    requires WantsRefresh(x.code, o.yes)
    requires View(st2) == View(st).(codes := st.codes - {x.codeID},
                                    tokens := st.tokens[o.first := NewRefresh(x.code, o.second)])
    ensures var n := Alone(st2, Created(x, o.first, o.second), [Goes(o), Goes(o), Goes(o)]);
            var (db, r) := ExchangeCode(View(st), x.codeID, o.yes, o.first, o.second);
            View(n.st) == db && (if r.Ok? then n.th.Exchanged? && n.th.refresh == r.value else n.th.Ended?)
  {
    LinkingAlone(st2, x, o.first, o.second, Goes(o));
    assert Former(View(st2), x.code) == Former(View(st), x.code);
    assert Dangling(View(st2), x.code) == Dangling(View(st), x.code);
    assert st.tokens[o.first := NewRefresh(x.code, o.second)] - {o.first} == st.tokens - {o.first};
  }

  /** A code exchange alone; unless the ID token can be made (`signs`), it breaks off before deleting the code. */
  lemma ExchangeAlone(st: Store, codeID: Id, client: string, redirectURI: string, signs: bool, o: Oracle)
    requires Drawn(st) && o.first !in st.used && o.second !in st.used && o.first != o.second
    ensures var m := Goes(o);
            var n := Alone(st, StartExchange(st, codeID, client, redirectURI),
                           [if signs then m else Breaks] + [m, m, m, m]);
            if CanExchange(View(st), st.now, codeID, client, redirectURI) && signs then
              var (db, r) := ExchangeCode(View(st), codeID, o.yes, o.first, o.second);
              View(n.st) == db && (if r.Ok? then n.th.Exchanged? && n.th.refresh == r.value else n.th.Ended?)
            else View(n.st) == View(st) && n.th.Ended?
  {
    var th, m := StartExchange(st, codeID, client, redirectURI), Goes(o);
    var ms := [if signs then m else Breaks] + [m, m, m, m];
    assert ms[1..] == [m, m, m, m] && [m, m, m, m][1..] == [m, m, m];
    if th.Ended? {
      FinishedStaysFinished(st, th, ms);
    } else if !signs {
      FinishedStaysFinished(st, Ended, ms[1..]);
    } else {
      var n1 := DeleteCode(st, th.x);
      var n2 := CreateRefresh(n1.st, th.x, o);
      assert Alone(st, th, ms) == Alone(n1.st, n1.th, [m, m, m, m]) == Alone(n2.st, n2.th, [m, m, m]);
      if n2.th.Exchanged? {
        FinishedStaysFinished(n2.st, n2.th, [m, m, m]);
      } else {
        ExchangeEnds(st, th.x, o, n2.st);
      }
    }
  }

  // ---------------------------------------------------------------- refresh and revocation

  /** From the drawn value on: the session check, then the rotation. */
  lemma PreparedAlone(st: Store, r: Refresh, newValue: Id, claims: Claims, m: Move)
    requires m.Goes? && r.id in st.tokens && st.tokens[r.id] == r.copy
    ensures var n := Alone(st, Prepared(r, newValue, claims), [m, m]);
            if PassesSessionCheck(st, r.id, r.copy)
            then n.th == Thread.Refreshed(r, newValue) && View(n.st) == RefreshGrant(View(st), r.id, newValue, claims)
            else n.th.Ended? && n.st == st
  {
    TwoMore(st, Prepared(r, newValue, claims), m, m);
  }

  /** A refresh alone; unless connector and signer work (`works`), it breaks off before the session check. */
  lemma RefreshAlone(
    st: Store, id: Id, value: Id, client: string, scopes: Option<seq<string>>, works: bool, o: Oracle)
    requires o.first !in st.used
    ensures var m := Goes(o);
            var n := Alone(st, StartRefresh(st, id, value, client, scopes), [if works then m else Breaks] + [m, m]);
            if CanRefresh(View(st), id, value, client, scopes) && works
            then n.th.Refreshed? && n.th.newValue == o.first
                 && View(n.st) == RefreshGrant(View(st), id, o.first, o.claims)
            else n.th.Ended? && View(n.st) == View(st)
  {
    var th, m := StartRefresh(st, id, value, client, scopes), Goes(o);
    var ms := [if works then m else Breaks] + [m, m];
    assert ms[1..] == [m, m];
    if th.Ended? {
      FinishedStaysFinished(st, th, ms);
    } else if !works {
      FinishedStaysFinished(st, Ended, ms[1..]);
    } else {
      var n := DrawValue(st, th.r, o);
      assert Alone(st, th, ms) == Alone(n.st, n.th, [m, m]);
      PreparedAlone(n.st, th.r, o.first, o.claims, m);
    }
  }

  /** A revocation alone. */
  lemma RevokeAlone(st: Store, key: SessionKey, client: string, o: Oracle)
    ensures var n0 := StartRevoke(st, key, client);
            var n := Alone(n0.st, n0.th, [Goes(o)]);
            && n.th.Ended?
            && View(n.st) == if CanRevoke(View(st), key, client) then Revoke(View(st), key, client) else View(st)
  {
    var n0 := StartRevoke(st, key, client);
    assert [Goes(o)][1..] == [];
    assert Alone(n0.st, n0.th, [Goes(o)]) == AdvanceStep(n0.st, n0.th, o);
  }

  /** The steps of a login are the same in both views. */
  lemma LoginAlone(st: Store, reqID: Id, how: Acceptance, connID: string, claims: Claims)
    ensures reqID !in st.used && Accepts(how.dir, how.supported, how.q) ==>
              View(RequestStep(st, Authorize(reqID, how))) ==
              HandlerRuns.RequestCall(View(st), st.now, HandlerRuns.Authorized(reqID, AcceptedRequest(how)))
    ensures View(RequestStep(st, SetConnector(reqID, connID))) ==
            HandlerRuns.RequestCall(View(st), st.now, HandlerRuns.Connected(reqID, connID))
    ensures View(RequestStep(st, FinalizeLogin(reqID, claims))) ==
            HandlerRuns.RequestCall(View(st), st.now, HandlerRuns.LoggedIn(reqID, claims))
  {
  }

  /** Garbage collection is the same in both views: what has expired goes, and nothing else. */
  lemma CollectionAlone(st: Store)
    ensures var st' := CollectGarbageStep(st);
            && View(st') == Collected(View(st), st.now)
            && (forall id :: id in st'.codes <==> id in st.codes && st.now <= st.codes[id].expiry)
            && (forall id :: id in st'.reqs <==> id in st.reqs && st.now <= st.reqs[id].expiry)
  {
  }

  // ---------------------------------------------------------------- undisturbed threads as runs

  function EventOf(t: Tid, m: Move): Event {
    match m
    case Goes(o) => Advance(t, o)
    case Breaks => Fail(t)
  }

  function EventsOf(t: Tid, ms: seq<Move>): seq<Event> {
    if ms == [] then [] else [EventOf(t, ms[0])] + EventsOf(t, ms[1..])
  }

  lemma {:induction false} RunConcat(s: State, a: seq<Event>, b: seq<Event>)
    ensures Run(s, a + b) == Run(Run(s, a), b)
  {
    if b == [] {
      assert a + b == a;
    } else {
      assert (a + b)[..|a + b| - 1] == a + b[..|b| - 1];
      RunConcat(s, a, b[..|b| - 1]);
    }
  }

  lemma RunOne(s: State, e: Event)
    ensures Run(s, [e]) == Step(s, e)
  {
    assert [e][..0] == [];
  }

  /** The moves of a thread, as events of a run. */
  lemma {:induction false} AloneRuns(s: State, t: Tid, ms: seq<Move>)
    requires t in s.threads
    ensures Run(s, EventsOf(t, ms)) == Moved(s, t, Alone(s.store, s.threads[t], ms))
    decreases |ms|
  {
    if ms == [] {
      assert s.threads[t := s.threads[t]] == s.threads;
    } else {
      var e, n := EventOf(t, ms[0]), Moves(s.store, s.threads[t], ms[0]);
      RunConcat(s, [e], EventsOf(t, ms[1..]));
      RunOne(s, e);
      assert Step(s, e) == Moved(s, t, n);
      AloneRuns(Moved(s, t, n), t, ms[1..]);
    }
  }

  lemma {:induction false} AloneKeepsTime(st: Store, th: Thread, ms: seq<Move>)
    ensures Alone(st, th, ms).st.now == st.now
    decreases |ms|
  {
    if ms != [] {
      var n := Moves(st, th, ms[0]);
      AloneKeepsTime(n.st, n.th, ms[1..]);
    }
  }
}
