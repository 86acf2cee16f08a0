/**
 * What every interleaving of the grant handlers keeps: requests, codes and refresh-token
 * values are spent at most once, session references never come back, and grants go back to
 * accepted requests.
 */
module GrantSafety {
  import opened Common
  import opened OAuth2
  import opened Grants

  /** Thread `t`, or a finished one if `t` has not begun. */
  function ThreadAt(s: State, t: Tid): Thread {
    if t in s.threads then s.threads[t] else Ended
  }

  // ---------------------------------------------------------------- requests and codes are spent once

  datatype Kind = OfRequest | OfCode

  /** The request or code a thread has deleted on its way to a response. */
  function Claim(k: Kind, th: Thread): Option<Id> {
    match k
    case OfRequest => if th.Responding? || th.Delivered? then Some(th.reqID) else None
    case OfCode =>
      if th.Consumed? || th.Created? || th.Unlinked? || th.Replacing? || th.Linking? || th.RollingBack? || th.Exchanged?
      then Some(th.x.codeID) else None
  }

  function Stored(k: Kind, st: Store): set<Id> {
    match k
    case OfRequest => st.reqs.Keys
    case OfCode => st.codes.Keys
  }

  ghost predicate Claimed(k: Kind, st: Store, th: Thread) {
    Claim(k, th).Some? ==> Claim(k, th).value in st.used && Claim(k, th).value !in Stored(k, st)
  }

  /** What a thread has claimed is gone from the store for good, and claimed by no other thread. */
  ghost predicate SpentOnce(k: Kind, s: State) {
    && Stored(k, s.store) <= s.store.used
    && (forall t :: t in s.threads ==> Claimed(k, s.store, s.threads[t]))
    && (forall t, p :: t in s.threads && p in s.threads && t != p && Claim(k, s.threads[t]).Some?
                       ==> Claim(k, s.threads[t]) != Claim(k, s.threads[p]))
  }

  /** Nothing once drawn enters the store again. */
  ghost predicate OnlyFresh(k: Kind, st: Store, st': Store) {
    st.used <= st'.used && Stored(k, st') <= st'.used
    && forall id :: id in Stored(k, st') && id !in Stored(k, st) ==> id !in st.used
  }

  /** A step claims what it deletes, or claims nothing new. */
  ghost predicate Lawful(k: Kind, st: Store, th: Thread, n: Next) {
    && OnlyFresh(k, st, n.st)
    && (Claim(k, n.th).Some? && Claim(k, n.th) != Claim(k, th) ==>
          Claim(k, n.th).value in Stored(k, st) && Claim(k, n.th).value !in Stored(k, n.st))
  }

  lemma MoveSpendsOnce(k: Kind, s: State, t: Tid, n: Next)
    requires SpentOnce(k, s) && Lawful(k, s.store, ThreadAt(s, t), n)
    ensures SpentOnce(k, Moved(s, t, n))
  {
    var s' := Moved(s, t, n);
    forall p | p in s'.threads
      ensures Claimed(k, s'.store, s'.threads[p])
    {
      if p in s.threads {
        assert Claimed(k, s.store, s.threads[p]);
      }
    }
    forall p | p in s.threads && p != t && Claim(k, n.th).Some?
      ensures Claim(k, s.threads[p]) != Claim(k, n.th)
    {
      assert Claimed(k, s.store, s.threads[p]);
    }
  }

  lemma ApprovalIsLawful(k: Kind, st: Store, th: Thread, o: Oracle)
    requires Stored(k, st) <= st.used
    ensures Lawful(k, st, th, ApprovalStep(st, th, o))
  {
  }

  lemma ExchangeIsLawful(k: Kind, st: Store, th: Thread, o: Oracle)
    requires Stored(k, st) <= st.used
    ensures Lawful(k, st, th, ExchangeStep(st, th, o))
  {
  }

  lemma RefreshIsLawful(k: Kind, st: Store, th: Thread, o: Oracle)
    requires Stored(k, st) <= st.used
    ensures Lawful(k, st, th, RefreshStep(st, th, o))
  {
  }

  lemma ThreadStepIsLawful(k: Kind, st: Store, th: Thread, e: Event)
    requires Stored(k, st) <= st.used && (e.Advance? || e.Fail?)
    ensures Lawful(k, st, th, ThreadStep(st, th, e))
  {
    if e.Advance? {
      if IsApproval(th) {
        ApprovalIsLawful(k, st, th, e.oracle);
      } else if IsExchange(th) {
        ExchangeIsLawful(k, st, th, e.oracle);
      } else {
        RefreshIsLawful(k, st, th, e.oracle);
      }
    }
  }

  lemma StartIsLawful(k: Kind, st: Store, e: Event)
    requires Stored(k, st) <= st.used && IsStart(e)
    ensures Lawful(k, st, Ended, StartStep(st, e))
  {
  }

  lemma RequestStepOnlyFresh(k: Kind, st: Store, e: Event)
    requires Stored(k, st) <= st.used
    ensures OnlyFresh(k, st, RequestStep(st, e))
  {
  }

  lemma StepSpendsOnce(k: Kind, s: State, e: Event)
    requires SpentOnce(k, s)
    ensures SpentOnce(k, Step(s, e))
  {
    if e.Advance? || e.Fail? {
      if e.t in s.threads {
        ThreadStepIsLawful(k, s.store, s.threads[e.t], e);
        MoveSpendsOnce(k, s, e.t, ThreadStep(s.store, s.threads[e.t], e));
      }
    } else if IsStart(e) {
      if e.t !in s.threads {
        StartIsLawful(k, s.store, e);
        MoveSpendsOnce(k, s, e.t, StartStep(s.store, e));
      }
    } else {
      RequestStepOnlyFresh(k, s.store, e);
    }
  }

  // ---------------------------------------------------------------- a refresh-token value is spent once

  /** The value a refresh has drawn and not yet stored. */
  function PendingValue(th: Thread): Option<Id> {
    if th.Prepared? || th.Checked? then Some(th.newValue) else None
  }

  predicate IsRefresh(th: Thread) {
    th.Refreshing? || th.Prepared? || th.Checked? || th.Refreshed?
  }

  ghost predicate ValueOk(st: Store, th: Thread) {
    && (IsRefresh(th) ==> th.r.copy.token == th.r.value && th.r.id in st.used && th.r.value in st.used)
    && (PendingValue(th).Some? ==> th.newValue in st.used)
    && (PendingValue(th).Some? ==> forall id :: id in st.tokens ==> st.tokens[id].token != th.newValue)
    && (th.Refreshed? && th.r.id in st.tokens ==> st.tokens[th.r.id].token != th.r.value)
  }

  /** A drawn value is nobody else's, and no two refreshes have spent the same pair. */
  ghost predicate Apart(th: Thread, other: Thread) {
    && (PendingValue(th).Some? ==> PendingValue(other) != PendingValue(th)
                                   && (other.Refreshed? ==> other.r.value != th.newValue))
    && (th.Refreshed? && other.Refreshed? ==> (th.r.id, th.r.value) != (other.r.id, other.r.value))
  }

  ghost predicate ValuesDrawn(st: Store) {
    forall id :: id in st.tokens ==> id in st.used && st.tokens[id].token in st.used
  }

  ghost predicate ValuesOnce(s: State) {
    && ValuesDrawn(s.store)
    && (forall t :: t in s.threads ==> ValueOk(s.store, s.threads[t]))
    && (forall t, p :: t in s.threads && p in s.threads && t != p ==> Apart(s.threads[t], s.threads[p]))
  }

  /** Stored values stay, are `w`, or come with a token created afresh. */
  ghost predicate ValuesFrom(st: Store, st': Store, w: Option<Id>) {
    && st.used <= st'.used && ValuesDrawn(st')
    && forall id :: id in st'.tokens ==>
         || (id in st.tokens && st'.tokens[id].token == st.tokens[id].token)
         || (id !in st.used && st'.tokens[id].token !in st.used)
         || Some(st'.tokens[id].token) == w
  }

  /** The value a step of `th` may store. */
  function Stores(th: Thread): Option<Id> {
    if th.Checked? then Some(th.newValue) else None
  }

  ghost predicate ValueStep(st: Store, th: Thread, n: Next) {
    && ValuesFrom(st, n.st, Stores(th))
    && ValueOk(n.st, n.th)
    && (PendingValue(n.th).Some? ==> PendingValue(n.th) == PendingValue(th) || PendingValue(n.th).value !in st.used)
    && (n.th.Refreshed? && n.th != th ==>
          th.Checked? && th.r == n.th.r && th.r.id in st.tokens && st.tokens[th.r.id].token == th.r.value)
  }

  lemma OthersStayOk(st: Store, st': Store, th: Thread, mover: Thread)
    requires ValueOk(st, th) && ValuesFrom(st, st', Stores(mover)) && Apart(mover, th) && Apart(th, mover)
    ensures ValueOk(st', th)
  {
  }

  lemma MoveSpendsValuesOnce(s: State, t: Tid, n: Next)
    requires ValuesOnce(s) && ValueStep(s.store, ThreadAt(s, t), n)
    ensures ValuesOnce(Moved(s, t, n))
  {
    var s', th := Moved(s, t, n), ThreadAt(s, t);
    forall p | p in s.threads && p != t
      ensures ValueOk(n.st, s.threads[p]) && Apart(n.th, s.threads[p]) && Apart(s.threads[p], n.th)
    {
      var other := s.threads[p];
      assert ValueOk(s.store, other);
      assert Apart(th, other) && Apart(other, th);
      OthersStayOk(s.store, n.st, other, th);
    }
  }

  /** Steps that at most delete refresh tokens. */
  ghost predicate NoNewTokens(st: Store, st': Store) {
    st.used <= st'.used && forall id :: id in st'.tokens ==> id in st.tokens && st'.tokens[id] == st.tokens[id]
  }

  lemma DeletingKeepsValues(st: Store, st': Store, th: Thread)
    requires ValuesDrawn(st) && ValueOk(st, th) && NoNewTokens(st, st')
    ensures ValuesFrom(st, st', None) && ValueOk(st', th)
  {
  }

  lemma RotateValueStep(st: Store, th: Thread)
    requires ValuesDrawn(st) && ValueOk(st, th) && th.Checked?
    ensures ValueStep(st, th, RotateToken(st, th.r, th.newValue, th.claims))
  {
  }

  lemma RefreshValueStep(st: Store, th: Thread, o: Oracle)
    requires ValuesDrawn(st) && ValueOk(st, th) && !IsApproval(th) && !IsExchange(th)
    ensures ValueStep(st, th, RefreshStep(st, th, o))
  {
    if th.Checked? {
      RotateValueStep(st, th);
    } else {
      DeletingKeepsValues(st, RefreshStep(st, th, o).st, th);
    }
  }

  lemma CreateValueStep(st: Store, x: Exchange, o: Oracle)
    requires ValuesDrawn(st)
    ensures ValueStep(st, Consumed(x), CreateRefresh(st, x, o))
  {
  }

  lemma ExchangeDeletes(st: Store, th: Thread, o: Oracle)
    requires IsExchange(th) && !th.Consumed?
    ensures NoNewTokens(st, ExchangeStep(st, th, o).st) && !IsRefresh(ExchangeStep(st, th, o).th)
  {
  }

  lemma ApprovalDeletes(st: Store, th: Thread, o: Oracle)
    requires IsApproval(th)
    ensures NoNewTokens(st, ApprovalStep(st, th, o).st) && !IsRefresh(ApprovalStep(st, th, o).th)
  {
  }

  lemma OtherValueStep(st: Store, th: Thread, o: Oracle)
    requires ValuesDrawn(st) && (IsApproval(th) || IsExchange(th))
    ensures ValueStep(st, th, AdvanceStep(st, th, o))
  {
    var n := AdvanceStep(st, th, o);
    if th.Consumed? {
      CreateValueStep(st, th.x, o);
    } else if IsExchange(th) {
      ExchangeDeletes(st, th, o);
      DeletingKeepsValues(st, n.st, Ended);
    } else {
      ApprovalDeletes(st, th, o);
      DeletingKeepsValues(st, n.st, Ended);
    }
  }

  lemma StepSpendsValuesOnce(s: State, e: Event)
    requires ValuesOnce(s)
    ensures ValuesOnce(Step(s, e))
  {
    if e.Advance? || e.Fail? {
      if e.t in s.threads {
        var th := s.threads[e.t];
        assert ValueOk(s.store, th);
        if e.Advance? {
          if IsApproval(th) || IsExchange(th) {
            OtherValueStep(s.store, th, e.oracle);
          } else {
            RefreshValueStep(s.store, th, e.oracle);
          }
        }
        MoveSpendsValuesOnce(s, e.t, ThreadStep(s.store, th, e));
      }
    } else if IsStart(e) {
      if e.t !in s.threads {
        MoveSpendsValuesOnce(s, e.t, StartStep(s.store, e));
      }
    } else {
      assert RequestStep(s.store, e).tokens == s.store.tokens;
    }
  }

  // ---------------------------------------------------------------- session references do not come back

  ghost predicate Referenced(st: Store, id: Id) {
    exists key, client :: Names(st.sessions, key, client, id)
  }

  /** The token a thread has created and not yet linked to a session. */
  function Installs(th: Thread): Option<Id> {
    if th.Created? || th.Unlinked? || th.Replacing? || th.Linking? then Some(th.id) else None
  }

  ghost predicate Unlisted(st: Store, id: Id) {
    id in st.used && id !in st.retired && forall key, client :: !Names(st.sessions, key, client, id)
  }

  ghost predicate RefsDistinct(st: Store) {
    && st.retired <= st.used
    && (forall key, client, id: Id :: Names(st.sessions, key, client, id) ==> id in st.used && id !in st.retired)
    && (forall key, client, id: Id, key', client' ::
          Names(st.sessions, key, client, id) && Names(st.sessions, key', client', id) ==>
            key == key' && client == client')
  }

  ghost predicate RefsOnce(s: State) {
    && RefsDistinct(s.store)
    && (forall t :: t in s.threads && Installs(s.threads[t]).Some? ==> Unlisted(s.store, s.threads[t].id))
    && (forall t, p :: t in s.threads && p in s.threads && t != p && Installs(s.threads[t]).Some?
                       ==> Installs(s.threads[t]) != Installs(s.threads[p]))
  }

  ghost predicate SessionsKept(st: Store, st': Store) {
    st'.sessions == st.sessions && st'.retired == st.retired && st.used <= st'.used
  }

  /** References that were there, or the one reference `w`; those that go are retired. */
  ghost predicate RefsFrom(st: Store, st': Store, w: Option<Id>) {
    && st.used <= st'.used && st.retired <= st'.retired
    && (forall key, client, id: Id ::
          Names(st'.sessions, key, client, id) ==> Names(st.sessions, key, client, id) || Some(id) == w)
    && (forall id :: id in st'.retired && id !in st.retired ==> Referenced(st, id))
    && (forall key, client, id: Id ::
          Names(st.sessions, key, client, id) && !Names(st'.sessions, key, client, id) ==> id in st'.retired)
    && RefsDistinct(st')
  }

  ghost predicate RefStep(st: Store, th: Thread, n: Next) {
    && RefsFrom(st, n.st, Installs(th))
    && (Installs(n.th).Some? ==> Unlisted(n.st, n.th.id) && (Installs(n.th) == Installs(th) || n.th.id !in st.used))
  }

  lemma KeptIsFrom(st: Store, st': Store)
    requires RefsDistinct(st) && SessionsKept(st, st')
    ensures RefsFrom(st, st', None)
  {
    forall key, client, id
      ensures Names(st'.sessions, key, client, id) == Names(st.sessions, key, client, id)
    {
    }
  }

  lemma MoveKeepsRefsOnce(s: State, t: Tid, n: Next)
    requires RefsOnce(s) && RefStep(s.store, ThreadAt(s, t), n)
    ensures RefsOnce(Moved(s, t, n))
  {
    forall p | p in s.threads && p != t && Installs(s.threads[p]).Some?
      ensures Unlisted(n.st, s.threads[p].id) && Installs(s.threads[p]) != Installs(n.th)
    {
      assert Unlisted(s.store, s.threads[p].id);
    }
  }

  /** Replacing the reference of one slot by an unlisted one, or by none. */
  lemma RewritingRefs(st: Store, st': Store, key: SessionKey, client: string, now: Option<Id>)
    requires RefsDistinct(st) && Rewritten(st.sessions, st'.sessions, key, client, now) && st.used <= st'.used
    requires now.Some? ==> Unlisted(st, now.value)
    requires st.retired <= st'.retired
    requires forall id :: id in st'.retired && id !in st.retired ==> Names(st.sessions, key, client, id)
    requires forall id :: Names(st.sessions, key, client, id) ==> id in st'.retired
    ensures RefsFrom(st, st', now)
  {
    forall k, c, id | Names(st'.sessions, k, c, id)
      ensures id in st'.used && id !in st'.retired
    {
      if k == key && c == client {
        assert !Names(st.sessions, key, client, id);
      } else {
        assert Names(st.sessions, k, c, id);
      }
    }
    forall id | id in st'.retired
      ensures id in st'.used
    {
      assert id in st.retired || Names(st.sessions, key, client, id);
    }
    forall k, c, id, k', c' | Names(st'.sessions, k, c, id) && Names(st'.sessions, k', c', id)
      ensures k == k' && c == c'
    {
      if k == key && c == client {
        assert !Names(st.sessions, k', c', id);
      } else {
        assert Names(st.sessions, k, c, id);
      }
    }
  }

  lemma CreateSessionStep(st: Store, th: Thread)
    requires RefsDistinct(st) && th.Unlinked? && Unlisted(st, th.id)
    ensures RefStep(st, th, CreateSession(st, th.x, th.id, th.value))
  {
    var n := CreateSession(st, th.x, th.id, th.value);
    if n.th.Exchanged? {
      RewritingRefs(st, n.st, HomeOfCode(th.x.code), th.x.code.grant.clientID, Some(th.id));
    } else {
      KeptIsFrom(st, n.st);
    }
  }

  lemma UpdateSessionStep(st: Store, th: Thread)
    requires RefsDistinct(st) && th.Linking? && Unlisted(st, th.id)
    ensures RefStep(st, th, UpdateSession(st, th.x, th.id, th.value))
  {
    var n := UpdateSession(st, th.x, th.id, th.value);
    if n.th.Exchanged? {
      RewritingRefs(st, n.st, HomeOfCode(th.x.code), th.x.code.grant.clientID, Some(th.id));
    } else {
      KeptIsFrom(st, n.st);
    }
  }

  lemma RevokeStep(st: Store, key: SessionKey, client: string)
    requires RefsDistinct(st)
    ensures RefStep(st, Ended, StartRevoke(st, key, client))
  {
    var n := StartRevoke(st, key, client);
    if n.th.Revoking? {
      RewritingRefs(st, n.st, key, client, None);
    } else {
      KeptIsFrom(st, n.st);
    }
  }

  lemma ApprovalKeepsSessions(st: Store, th: Thread, o: Oracle)
    ensures var n := ApprovalStep(st, th, o);
            SessionsKept(st, n.st) && (Installs(n.th).Some? ==> Installs(n.th) == Installs(th))
  {
  }

  lemma ExchangeKeepsSessions(st: Store, th: Thread, o: Oracle)
    requires !th.Unlinked? && !th.Linking?
    ensures var n := ExchangeStep(st, th, o);
            && SessionsKept(st, n.st)
            && (Installs(n.th).Some? ==>
                  Installs(n.th) == Installs(th) || (n.th.id !in st.used && n.th.id in n.st.used))
  {
  }

  lemma RefreshKeepsSessions(st: Store, th: Thread, o: Oracle)
    ensures var n := RefreshStep(st, th, o);
            SessionsKept(st, n.st) && (Installs(n.th).Some? ==> Installs(n.th) == Installs(th))
  {
  }

  lemma KeepingStep(st: Store, th: Thread, n: Next)
    requires RefsDistinct(st) && SessionsKept(st, n.st)
    requires Installs(th).Some? ==> Unlisted(st, th.id)
    requires Installs(n.th).Some? ==> Installs(n.th) == Installs(th) || (n.th.id !in st.used && n.th.id in n.st.used)
    ensures RefStep(st, th, n)
  {
    KeptIsFrom(st, n.st);
  }

  lemma AdvanceRefStep(st: Store, th: Thread, o: Oracle)
    requires RefsDistinct(st) && (Installs(th).Some? ==> Unlisted(st, th.id))
    ensures RefStep(st, th, AdvanceStep(st, th, o))
  {
    if th.Unlinked? {
      CreateSessionStep(st, th);
    } else if th.Linking? {
      UpdateSessionStep(st, th);
    } else {
      if IsApproval(th) {
        ApprovalKeepsSessions(st, th, o);
      } else if IsExchange(th) {
        ExchangeKeepsSessions(st, th, o);
      } else {
        RefreshKeepsSessions(st, th, o);
      }
      KeepingStep(st, th, AdvanceStep(st, th, o));
    }
  }

  lemma StartRefStep(st: Store, e: Event)
    requires RefsDistinct(st) && IsStart(e)
    ensures RefStep(st, Ended, StartStep(st, e))
  {
    if e.BeginRevoke? {
      RevokeStep(st, e.key, e.client);
    } else {
      KeepingStep(st, Ended, StartStep(st, e));
    }
  }

  lemma RequestStepKeepsSessions(st: Store, e: Event)
    ensures SessionsKept(st, RequestStep(st, e))
  {
  }

  lemma StepKeepsRefsOnce(s: State, e: Event)
    requires RefsOnce(s)
    ensures RefsOnce(Step(s, e))
  {
    if e.Advance? || e.Fail? {
      if e.t in s.threads {
        var th := s.threads[e.t];
        if e.Advance? {
          AdvanceRefStep(s.store, th, e.oracle);
        } else {
          KeepingStep(s.store, th, ThreadStep(s.store, th, e));
        }
        MoveKeepsRefsOnce(s, e.t, ThreadStep(s.store, th, e));
      }
    } else if IsStart(e) {
      if e.t !in s.threads {
        StartRefStep(s.store, e);
        MoveKeepsRefsOnce(s, e.t, StartStep(s.store, e));
      }
    } else {
      RequestStepKeepsSessions(s.store, e);
      KeptIsFrom(s.store, RequestStep(s.store, e));
    }
  }

  // ---------------------------------------------------------------- every grant goes back to an accepted request

  ghost predicate RequestOk(h: History, id: Id, req: AuthRequest) {
    id in h.accepted && req.request == h.accepted[id]
  }

  /** The code or token `id` traces to an accepted request with exactly this client, these scopes and this nonce. */
  ghost predicate GoesBack(h: History, id: Id, grant: Grant) {
    OriginOf(h, id) in h.accepted && grant == GrantOf(h.accepted[OriginOf(h, id)])
  }

  ghost predicate CodeOk(h: History, id: Id, code: AuthCode) {
    GoesBack(h, id, code.grant) && code.redirectURI == h.accepted[OriginOf(h, id)].redirectURI
  }

  /** Presented by the client it was issued to, with the redirect URI of its request, before it expired. */
  ghost predicate ExchangeOk(h: History, x: Exchange) {
    && CodeOk(h, x.codeID, x.code)
    && x.client == x.code.grant.clientID && x.redirectURI == x.code.redirectURI && x.readAt <= x.code.expiry
  }

  ghost predicate RefreshOk(h: History, r: Refresh) {
    && GoesBack(h, r.id, r.copy.grant) && r.client == r.copy.grant.clientID
    && forall scope :: scope in r.scopes ==> scope in r.copy.grant.scopes
  }

  ghost predicate ThreadOk(h: History, th: Thread) {
    && (IsApproval(th) ==> RequestOk(h, th.reqID, th.req))
    && (IsExchange(th) || th.Exchanged? ==> ExchangeOk(h, th.x))
    && (IsRefresh(th) ==> RefreshOk(h, th.r))
  }

  ghost predicate RequestsOk(h: History, reqs: map<Id, AuthRequest>) {
    forall id :: id in reqs ==> RequestOk(h, id, reqs[id])
  }

  ghost predicate CodesOk(h: History, codes: map<Id, AuthCode>) {
    forall id :: id in codes ==> CodeOk(h, id, codes[id])
  }

  ghost predicate TokensOk(h: History, tokens: map<Id, RefreshToken>) {
    forall id :: id in tokens ==> GoesBack(h, id, tokens[id].grant)
  }

  ghost predicate ObjectsOk(st: Store) {
    && RequestsOk(st.hist, st.reqs) && CodesOk(st.hist, st.codes) && TokensOk(st.hist, st.tokens)
    && st.hist.accepted.Keys <= st.used && st.hist.origin.Keys <= st.used
  }

  ghost predicate Traced(s: State) {
    ObjectsOk(s.store) && forall t :: t in s.threads ==> ThreadOk(s.store.hist, s.threads[t])
  }

  /** Nothing recorded changes, and what is added is about IDs outside `used`. */
  ghost predicate HistoryGrows(h: History, h': History) {
    && (forall id :: id in h.accepted ==> id in h'.accepted && h'.accepted[id] == h.accepted[id])
    && (forall id :: OriginOf(h, id) in h.accepted ==> OriginOf(h', id) == OriginOf(h, id))
  }

  lemma ObjectsAge(h: History, h': History, st: Store)
    requires HistoryGrows(h, h') && RequestsOk(h, st.reqs) && CodesOk(h, st.codes) && TokensOk(h, st.tokens)
    ensures RequestsOk(h', st.reqs) && CodesOk(h', st.codes) && TokensOk(h', st.tokens)
  {
  }

  lemma ThreadAges(h: History, h': History, th: Thread)
    requires HistoryGrows(h, h') && ThreadOk(h, th)
    ensures ThreadOk(h', th)
  {
  }

  /** Recording the origin of a fresh ID. */
  lemma RecordingGrows(h: History, used: set<Id>, id: Id, reqID: Id)
    requires h.accepted.Keys <= used && h.origin.Keys <= used && id !in used
    ensures HistoryGrows(h, From(h, id, reqID))
  {
  }

  ghost predicate TracedStep(st: Store, n: Next) {
    HistoryGrows(st.hist, n.st.hist) && ObjectsOk(n.st) && ThreadOk(n.st.hist, n.th)
  }

  lemma MoveStaysTraced(s: State, t: Tid, n: Next)
    requires Traced(s) && TracedStep(s.store, n)
    ensures Traced(Moved(s, t, n))
  {
    forall p | p in s.threads
      ensures ThreadOk(n.st.hist, s.threads[p])
    {
      ThreadAges(s.store.hist, n.st.hist, s.threads[p]);
    }
  }

  /** The code of a traced request, stored under a fresh ID. */
  lemma NewCodeTraced(st: Store, h': History, reqID: Id, req: AuthRequest, id: Id)
    requires ObjectsOk(st) && id !in st.used && RequestOk(st.hist, reqID, req)
    requires h' == From(st.hist, id, reqID) && HistoryGrows(st.hist, h')
    ensures ObjectsOk(st.(codes := st.codes[id := NewCode(req, st.now)], used := st.used + {id}, hist := h'))
  {
    ObjectsAge(st.hist, h', st);
    assert CodeOk(h', id, NewCode(req, st.now));
  }

  lemma RespondTraced(st: Store, th: Thread, o: Oracle)
    requires ObjectsOk(st) && th.Responding? && ThreadOk(st.hist, th)
    ensures TracedStep(st, Respond(st, th, o))
  {
    var n := Respond(st, th, o);
    if n.st.used != st.used {
      var h' := From(st.hist, o.first, th.reqID);
      RecordingGrows(st.hist, st.used, o.first, th.reqID);
      ThreadAges(st.hist, h', th);
      NewCodeTraced(st, h', th.reqID, th.req, o.first);
    }
  }

  lemma ApprovalTraced(st: Store, th: Thread, o: Oracle)
    requires ObjectsOk(st) && ThreadOk(st.hist, th) && IsApproval(th)
    ensures TracedStep(st, ApprovalStep(st, th, o))
  {
    if th.Responding? {
      RespondTraced(st, th, o);
    }
  }

  lemma CreateRefreshTraced(st: Store, x: Exchange, o: Oracle)
    requires ObjectsOk(st) && ExchangeOk(st.hist, x)
    ensures TracedStep(st, CreateRefresh(st, x, o))
  {
    var n := CreateRefresh(st, x, o);
    if n.th.Created? {
      RecordingGrows(st.hist, st.used, o.first, OriginOf(st.hist, x.codeID));
      ObjectsAge(st.hist, n.st.hist, st);
      assert GoesBack(n.st.hist, o.first, n.st.tokens[o.first].grant);
    }
  }

  /** Apart from creating the token, an exchange only deletes, and stays the same exchange. */
  lemma ExchangeKeepsObjects(st: Store, th: Thread, o: Oracle)
    requires IsExchange(th) && !th.Consumed?
    ensures var n := ExchangeStep(st, th, o);
            && n.st.hist == st.hist && n.st.used == st.used && n.st.reqs == st.reqs
            && (n.st.codes == st.codes || n.st.codes == st.codes - {th.x.codeID})
            && (n.th.Ended? || ((IsExchange(n.th) || n.th.Exchanged?) && n.th.x == th.x))
  {
  }

  lemma ExchangeTraced(st: Store, th: Thread, o: Oracle)
    requires ObjectsOk(st) && ThreadOk(st.hist, th) && IsExchange(th)
    ensures TracedStep(st, ExchangeStep(st, th, o))
  {
    if th.Consumed? {
      CreateRefreshTraced(st, th.x, o);
    } else {
      ExchangeKeepsObjects(st, th, o);
      ExchangeDeletes(st, th, o);
    }
  }

  lemma RefreshTraced(st: Store, th: Thread, o: Oracle)
    requires ObjectsOk(st) && ThreadOk(st.hist, th) && !IsApproval(th) && !IsExchange(th)
    ensures TracedStep(st, RefreshStep(st, th, o))
  {
    assert RefreshStep(st, th, o).st.hist == st.hist;
  }

  lemma StartTraced(st: Store, e: Event)
    requires ObjectsOk(st) && IsStart(e)
    ensures TracedStep(st, StartStep(st, e))
  {
    assert StartStep(st, e).st.hist == st.hist;
  }

  lemma AdmittedTraced(st: Store, id: Id, request: Request, how: Acceptance)
    requires ObjectsOk(st) && id !in st.used
    ensures TracedStep(st, Next(Admitted(st, id, request, how), Ended))
  {
    ObjectsAge(st.hist, Admitted(st, id, request, how).hist, st);
  }

  lemma AuthorizeTraced(st: Store, id: Id, how: Acceptance)
    requires ObjectsOk(st)
    ensures TracedStep(st, Next(AuthorizeStep(st, id, how), Ended))
  {
    if id !in st.used && Accepts(how.dir, how.supported, how.q) {
      AdmittedTraced(st, id, AcceptedRequest(how), how);
    }
  }

  lemma RequestStepTraced(st: Store, e: Event)
    requires ObjectsOk(st)
    ensures TracedStep(st, Next(RequestStep(st, e), Ended))
  {
    if e.Authorize? {
      AuthorizeTraced(st, e.id, e.how);
    } else {
      assert RequestStep(st, e).hist == st.hist;
    }
  }

  lemma ThreadStepTraced(st: Store, th: Thread, e: Event)
    requires ObjectsOk(st) && ThreadOk(st.hist, th) && (e.Advance? || e.Fail?)
    ensures TracedStep(st, ThreadStep(st, th, e))
  {
    if e.Advance? {
      if IsApproval(th) {
        ApprovalTraced(st, th, e.oracle);
      } else if IsExchange(th) {
        ExchangeTraced(st, th, e.oracle);
      } else {
        RefreshTraced(st, th, e.oracle);
      }
    }
  }

  lemma StepStaysTraced(s: State, e: Event)
    requires Traced(s)
    ensures Traced(Step(s, e))
  {
    if e.Advance? || e.Fail? {
      if e.t in s.threads {
        ThreadStepTraced(s.store, s.threads[e.t], e);
        MoveStaysTraced(s, e.t, ThreadStep(s.store, s.threads[e.t], e));
      }
    } else if IsStart(e) {
      if e.t !in s.threads {
        StartTraced(s.store, e);
        MoveStaysTraced(s, e.t, StartStep(s.store, e));
      }
    } else {
      RequestStepTraced(s.store, e);
      forall p | p in s.threads
        ensures ThreadOk(Step(s, e).store.hist, s.threads[p])
      {
        ThreadAges(s.store.hist, Step(s, e).store.hist, s.threads[p]);
      }
    }
  }

  lemma StepGrowsHistory(s: State, e: Event)
    requires Traced(s)
    ensures HistoryGrows(s.store.hist, Step(s, e).store.hist)
  {
    if e.Advance? || e.Fail? {
      if e.t in s.threads {
        ThreadStepTraced(s.store, s.threads[e.t], e);
      }
    } else if IsStart(e) {
      StartTraced(s.store, e);
    } else {
      RequestStepTraced(s.store, e);
    }
  }

  // ---------------------------------------------------------------- what is delivered

  /** A code is at hand if and only if one of the first `n` response types asked for it; it goes back to the request. */
  ghost predicate CodeAnswers(h: History, reqID: Id, request: Request, n: nat, code: Option<Id>) {
    && reqID in h.accepted && n <= |request.responseTypes|
    && (code.Some? <==> RESPONSE_TYPE_CODE in request.responseTypes[..n])
    && (code.Some? ==> OriginOf(h, code.value) == reqID)
  }

  ghost predicate DeliveryOk(h: History, th: Thread) {
    && (th.Responding? ==> CodeAnswers(h, th.reqID, th.req.request, th.next, th.code))
    && (th.Delivered? ==> th.reqID in h.accepted)
    && (th.Delivered? ==>
          CodeAnswers(h, th.reqID, h.accepted[th.reqID], |h.accepted[th.reqID].responseTypes|, th.code))
  }

  ghost predicate Delivering(s: State) {
    forall t :: t in s.threads ==> DeliveryOk(s.store.hist, s.threads[t])
  }

  lemma RespondDelivers(st: Store, th: Thread, o: Oracle)
    requires ObjectsOk(st) && th.Responding? && ThreadOk(st.hist, th) && DeliveryOk(st.hist, th)
    ensures DeliveryOk(Respond(st, th, o).st.hist, Respond(st, th, o).th)
  {
    var types := th.req.request.responseTypes;
    if th.next < |types| {
      assert types[..th.next + 1] == types[..th.next] + [types[th.next]];
    }
    assert types[..|types|] == types;
  }

  /** No other handler comes to respond, except by deleting its request first. */
  lemma OtherStepsDeliver(st: Store, th: Thread, e: Event)
    requires (e.Advance? && !th.Responding?) || e.Fail?
    ensures var n := ThreadStep(st, th, e);
            && (n.th.Delivered? ==> n.th == th && n.st == st)
            && (n.th.Responding? ==>
                  th.Timely? && n.th == Responding(th.reqID, th.req, 0, None) && n.st.hist == st.hist)
  {
  }

  lemma ThreadStepDelivers(st: Store, th: Thread, e: Event)
    requires ObjectsOk(st) && ThreadOk(st.hist, th) && DeliveryOk(st.hist, th) && (e.Advance? || e.Fail?)
    requires HistoryGrows(st.hist, ThreadStep(st, th, e).st.hist)
    ensures DeliveryOk(ThreadStep(st, th, e).st.hist, ThreadStep(st, th, e).th)
  {
    if e.Advance? && th.Responding? {
      RespondDelivers(st, th, e.oracle);
    } else {
      OtherStepsDeliver(st, th, e);
    }
  }

  lemma DeliveryAges(h: History, h': History, th: Thread)
    requires HistoryGrows(h, h') && DeliveryOk(h, th)
    ensures DeliveryOk(h', th)
  {
  }

  lemma MoveDelivers(s: State, t: Tid, n: Next)
    requires Delivering(s) && HistoryGrows(s.store.hist, n.st.hist) && DeliveryOk(n.st.hist, n.th)
    ensures Delivering(Moved(s, t, n))
  {
    forall p | p in s.threads
      ensures DeliveryOk(n.st.hist, s.threads[p])
    {
      DeliveryAges(s.store.hist, n.st.hist, s.threads[p]);
    }
  }

  lemma StepDelivers(s: State, e: Event)
    requires Traced(s) && Delivering(s)
    ensures Delivering(Step(s, e))
  {
    StepGrowsHistory(s, e);
    if e.Advance? || e.Fail? {
      if e.t in s.threads {
        ThreadStepDelivers(s.store, s.threads[e.t], e);
        MoveDelivers(s, e.t, ThreadStep(s.store, s.threads[e.t], e));
      }
    } else if IsStart(e) {
      if e.t !in s.threads {
        MoveDelivers(s, e.t, StartStep(s.store, e));
      }
    } else {
      var h' := RequestStep(s.store, e).hist;
      forall p | p in s.threads
        ensures DeliveryOk(h', s.threads[p])
      {
        DeliveryAges(s.store.hist, h', s.threads[p]);
      }
    }
  }

  // ---------------------------------------------------------------- accepted requests

  ghost predicate GroundsFor(how: Acceptance, request: Request) {
    Accepts(how.dir, how.supported, how.q) && request == Accepted(how.dir, how.q)
  }

  /** Accepted requests are those validation let through. */
  ghost predicate Grounded(h: History) {
    forall id :: id in h.accepted ==> id in h.grounds && GroundsFor(h.grounds[id], h.accepted[id])
  }

  /** The requests accepted, and on which grounds, stay the same. */
  ghost predicate SameGrounds(st: Store, st': Store) {
    st'.hist.accepted == st.hist.accepted && st'.hist.grounds == st.hist.grounds
  }

  lemma ApprovalKeepsGrounds(st: Store, th: Thread, o: Oracle)
    ensures SameGrounds(st, ApprovalStep(st, th, o).st)
  {
  }

  lemma ExchangeKeepsGrounds(st: Store, th: Thread, o: Oracle)
    ensures SameGrounds(st, ExchangeStep(st, th, o).st)
  {
  }

  lemma RefreshKeepsGrounds(st: Store, th: Thread, o: Oracle)
    ensures SameGrounds(st, RefreshStep(st, th, o).st)
  {
  }

  lemma StepKeepsHistory(s: State, e: Event)
    ensures !e.Authorize? ==> SameGrounds(s.store, Step(s, e).store)
  {
    if e.Advance? && e.t in s.threads {
      ApprovalKeepsGrounds(s.store, s.threads[e.t], e.oracle);
      ExchangeKeepsGrounds(s.store, s.threads[e.t], e.oracle);
      RefreshKeepsGrounds(s.store, s.threads[e.t], e.oracle);
    }
  }

  lemma StepStaysGrounded(s: State, e: Event)
    requires Grounded(s.store.hist)
    ensures Grounded(Step(s, e).store.hist)
  {
    StepKeepsHistory(s, e);
  }

  // ---------------------------------------------------------------- all runs

  ghost predicate Safe(s: State) {
    SpentOnce(OfRequest, s) && SpentOnce(OfCode, s) && ValuesOnce(s) && RefsOnce(s)
    && Traced(s) && Delivering(s) && Grounded(s.store.hist)
  }

  lemma StepStaysSafe(s: State, e: Event)
    requires Safe(s)
    ensures Safe(Step(s, e))
  {
    StepSpendsOnce(OfRequest, s, e);
    StepSpendsOnce(OfCode, s, e);
    StepSpendsValuesOnce(s, e);
    StepKeepsRefsOnce(s, e);
    StepStaysTraced(s, e);
    StepDelivers(s, e);
    StepStaysGrounded(s, e);
  }

  lemma {:induction false} RunsAreSafe(start: Time, run: seq<Event>)
    ensures Safe(Run(Init(start), run))
  {
    if run != [] {
      RunsAreSafe(start, run[..|run| - 1]);
      StepStaysSafe(Run(Init(start), run[..|run| - 1]), run[|run| - 1]);
    }
  }

  /** Over every interleaving, one authorization request is answered at most once. */
  lemma OneResponsePerRequest(start: Time, run: seq<Event>, t: Tid, p: Tid)
    requires var s := Run(Init(start), run);
             t != p && t in s.threads && p in s.threads && s.threads[t].Delivered? && s.threads[p].Delivered?
    ensures var s := Run(Init(start), run); s.threads[t].reqID != s.threads[p].reqID
  {
    RunsAreSafe(start, run);
    var s := Run(Init(start), run);
    assert Claim(OfRequest, s.threads[t]).Some?;
  }

  /** Over every interleaving, a response carries a code if and only if its request asked for one, and its own code. */
  lemma ResponsesAnswerTheirRequests(start: Time, run: seq<Event>, t: Tid)
    requires var s := Run(Init(start), run); t in s.threads && s.threads[t].Delivered?
    ensures var s := Run(Init(start), run);
            var reqID, code, h := s.threads[t].reqID, s.threads[t].code, s.store.hist;
            && reqID in h.accepted
            && (code.Some? <==> RESPONSE_TYPE_CODE in h.accepted[reqID].responseTypes)
            && (code.Some? ==> OriginOf(h, code.value) == reqID)
  {
    RunsAreSafe(start, run);
    var s := Run(Init(start), run);
    assert DeliveryOk(s.store.hist, s.threads[t]);
    var types := s.store.hist.accepted[s.threads[t].reqID].responseTypes;
    assert types[..|types|] == types;
  }

  /** Over every interleaving, one code is exchanged at most once. */
  lemma OneExchangePerCode(start: Time, run: seq<Event>, t: Tid, p: Tid)
    requires var s := Run(Init(start), run);
             t != p && t in s.threads && p in s.threads && s.threads[t].Exchanged? && s.threads[p].Exchanged?
    ensures var s := Run(Init(start), run); s.threads[t].x.codeID != s.threads[p].x.codeID
  {
    RunsAreSafe(start, run);
    var s := Run(Init(start), run);
    assert Claim(OfCode, s.threads[t]).Some?;
  }

  /** A successful exchange was made by the request's own client, with its redirect URI, before the code expired. */
  lemma ExchangesAreRightful(start: Time, run: seq<Event>, t: Tid)
    requires var s := Run(Init(start), run); t in s.threads && s.threads[t].Exchanged?
    ensures var s := Run(Init(start), run);
            var x := s.threads[t].x;
            var reqID := OriginOf(s.store.hist, x.codeID);
            && reqID in s.store.hist.accepted
            && x.client == s.store.hist.accepted[reqID].clientID
            && x.redirectURI == s.store.hist.accepted[reqID].redirectURI
            && x.readAt <= x.code.expiry
  {
    RunsAreSafe(start, run);
    var s := Run(Init(start), run);
    assert ThreadOk(s.store.hist, s.threads[t]);
  }

  /** Over every interleaving, one pair of refresh ID and token value is refreshed at most once. */
  lemma OneRefreshPerValue(start: Time, run: seq<Event>, t: Tid, p: Tid)
    requires var s := Run(Init(start), run);
             t != p && t in s.threads && p in s.threads && s.threads[t].Refreshed? && s.threads[p].Refreshed?
    ensures var s := Run(Init(start), run);
            (s.threads[t].r.id, s.threads[t].r.value) != (s.threads[p].r.id, s.threads[p].r.value)
  {
    RunsAreSafe(start, run);
    var s := Run(Init(start), run);
    assert Apart(s.threads[t], s.threads[p]);
  }

  /** The state after the first `n` events. */
  function After(start: Time, run: seq<Event>, n: nat): State
    requires n <= |run|
  {
    Run(Init(start), run[..n])
  }

  lemma AfterOneMore(start: Time, run: seq<Event>, n: nat)
    requires n < |run|
    ensures After(start, run, n + 1) == Step(After(start, run, n), run[n])
  {
    assert run[..n + 1][..n] == run[..n];
  }

  lemma StepRefsFrom(s: State, e: Event)
    requires RefsOnce(s)
    ensures s.store.retired <= Step(s, e).store.retired
    ensures var st, st' := s.store, Step(s, e).store;
            forall key, client, id: Id ::
              Names(st.sessions, key, client, id) && !Names(st'.sessions, key, client, id) ==> id in st'.retired
  {
    if e.Advance? && e.t in s.threads {
      AdvanceRefStep(s.store, s.threads[e.t], e.oracle);
    } else if IsStart(e) {
      StartRefStep(s.store, e);
    } else if !e.Advance? && !e.Fail? {
      RequestStepKeepsSessions(s.store, e);
      KeptIsFrom(s.store, RequestStep(s.store, e));
    }
  }

  /** One step: references that go are retired, and nothing retired is referenced. */
  lemma StepRetires(s: State, e: Event, id: Id)
    requires RefsOnce(s)
    ensures id in s.store.retired ==> id in Step(s, e).store.retired
    ensures Referenced(s.store, id) && !Referenced(Step(s, e).store, id) ==> id in Step(s, e).store.retired
  {
    var st, st' := s.store, Step(s, e).store;
    StepRefsFrom(s, e);
    if Referenced(st, id) && !Referenced(st', id) {
      var key, client :| Names(st.sessions, key, client, id);
      assert !Names(st'.sessions, key, client, id);
    }
  }

  lemma RunRetires(start: Time, run: seq<Event>, n: nat, id: Id)
    requires n < |run|
    ensures id in After(start, run, n).store.retired ==> id in After(start, run, n + 1).store.retired
    ensures Referenced(After(start, run, n).store, id) && !Referenced(After(start, run, n + 1).store, id)
            ==> id in After(start, run, n + 1).store.retired
  {
    AfterOneMore(start, run, n);
    RunsAreSafe(start, run[..n]);
    StepRetires(After(start, run, n), run[n], id);
  }

  lemma {:induction false} LostReferenceIsRetired(start: Time, run: seq<Event>, i: nat, j: nat, id: Id)
    requires i <= j <= |run|
    requires Referenced(After(start, run, i).store, id) && !Referenced(After(start, run, j).store, id)
    ensures id in After(start, run, j).store.retired
    decreases j
  {
    if i < j {
      RunRetires(start, run, j - 1, id);
      if !Referenced(After(start, run, j - 1).store, id) {
        LostReferenceIsRetired(start, run, i, j - 1, id);
      }
    }
  }

  lemma {:induction false} RetiredForGood(start: Time, run: seq<Event>, j: nat, k: nat, id: Id)
    requires j <= k <= |run| && id in After(start, run, j).store.retired
    ensures id in After(start, run, k).store.retired
    decreases k
  {
    if j < k {
      RetiredForGood(start, run, j, k - 1, id);
      RunRetires(start, run, k - 1, id);
    }
  }

  lemma StaysLost(start: Time, run: seq<Event>, i: nat, j: nat, k: nat, id: Id)
    requires i <= j <= k <= |run|
    requires Referenced(After(start, run, i).store, id) && !Referenced(After(start, run, j).store, id)
    ensures !Referenced(After(start, run, k).store, id)
  {
    LostReferenceIsRetired(start, run, i, j, id);
    RetiredForGood(start, run, j, k, id);
    RunsAreSafe(start, run[..k]);
  }

  /**
   * Once a session stops naming a refresh token, revoked or replaced by a newer login, no
   * session names it again, so no later refresh of it passes the session check.
   */
  lemma LostReferenceNeverReturns(start: Time, run: seq<Event>, i: nat, j: nat, k: nat, id: Id, copy: RefreshToken)
    requires i <= j <= k <= |run|
    requires Referenced(After(start, run, i).store, id) && !Referenced(After(start, run, j).store, id)
    ensures !Referenced(After(start, run, k).store, id) && !PassesSessionCheck(After(start, run, k).store, id, copy)
  {
    StaysLost(start, run, i, j, k, id);
    assert !Names(After(start, run, k).store.sessions, HomeOf(copy), copy.grant.clientID, id);
  }

  /** Thread `t` is a refresh of token `id` that has passed the session check. */
  ghost predicate Passed(s: State, t: Tid, id: Id) {
    t in s.threads && (s.threads[t].Checked? || s.threads[t].Refreshed?) && s.threads[t].r.id == id
  }

  lemma StepPasses(s: State, e: Event, t: Tid, id: Id)
    requires Passed(Step(s, e), t, id) && !Passed(s, t, id)
    ensures Referenced(s.store, id)
  {
    assert t in s.threads && s.threads[t].Prepared?;
    assert PassesSessionCheck(s.store, id, s.threads[t].r.copy);
  }

  /**
   * So once a session stops naming a refresh token, no refresh of it gets through: one that succeeds
   * later had passed the session check before.
   */
  lemma {:induction false} LostReferenceEndsRefreshes(
    start: Time, run: seq<Event>, i: nat, j: nat, k: nat, id: Id, t: Tid)
    requires i <= j <= k <= |run|
    requires Referenced(After(start, run, i).store, id) && !Referenced(After(start, run, j).store, id)
    ensures Passed(After(start, run, k), t, id) ==> Passed(After(start, run, j), t, id)
    decreases k
  {
    if j < k && Passed(After(start, run, k), t, id) {
      LostReferenceEndsRefreshes(start, run, i, j, k - 1, id, t);
      AfterOneMore(start, run, k - 1);
      if !Passed(After(start, run, k - 1), t, id) {
        StaysLost(start, run, i, j, k - 1, id);
        StepPasses(After(start, run, k - 1), run[k - 1], t, id);
        assert false;
      }
    }
  }

  /** In every state a user, connector and client together have one live refresh token, and it is live nowhere else. */
  lemma ReferencesAreOneToOne(start: Time, run: seq<Event>, id: Id, copy: RefreshToken, id': Id, copy': RefreshToken)
    requires var st := Run(Init(start), run).store;
             PassesSessionCheck(st, id, copy) && PassesSessionCheck(st, id', copy')
    ensures id == id' <==> HomeOf(copy) == HomeOf(copy') && copy.grant.clientID == copy'.grant.clientID
  {
    RunsAreSafe(start, run);
    var st := Run(Init(start), run).store;
    assert Names(st.sessions, HomeOf(copy), copy.grant.clientID, id);
    assert Names(st.sessions, HomeOf(copy'), copy'.grant.clientID, id');
  }

  /** The request was accepted on these grounds: its parameters are those of the query. */
  ghost predicate TakenFrom(how: Acceptance, request: Request) {
    && Accepts(how.dir, how.supported, how.q)
    && request.clientID == how.dir.clients[how.q.clientID].id && request.redirectURI == how.q.redirectURI
    && request.scopes == how.q.scopes && request.nonce == how.q.nonce
    && request.state == how.q.state && request.responseTypes == how.q.responseTypes
  }

  lemma GroundsTaken(start: Time, run: seq<Event>, reqID: Id)
    requires reqID in Run(Init(start), run).store.hist.accepted
    ensures var h := Run(Init(start), run).store.hist;
            reqID in h.grounds && TakenFrom(h.grounds[reqID], h.accepted[reqID])
  {
    RunsAreSafe(start, run);
    var h := Run(Init(start), run).store.hist;
    assert GroundsFor(h.grounds[reqID], h.accepted[reqID]);
  }

  /** Every stored code and refresh token carries the client, scopes and nonce of a request that validation accepted. */
  lemma GrantsComeFromAcceptedRequests(start: Time, run: seq<Event>, id: Id)
    requires var st := Run(Init(start), run).store; id in st.codes || id in st.tokens
    ensures var st := Run(Init(start), run).store;
            var reqID := OriginOf(st.hist, id);
            && reqID in st.hist.accepted && reqID in st.hist.grounds
            && TakenFrom(st.hist.grounds[reqID], st.hist.accepted[reqID])
            && (id in st.codes ==>
                  && st.codes[id].grant.clientID == st.hist.accepted[reqID].clientID
                  && st.codes[id].grant.scopes == st.hist.accepted[reqID].scopes
                  && st.codes[id].grant.nonce == st.hist.accepted[reqID].nonce)
            && (id in st.tokens ==>
                  && st.tokens[id].grant.clientID == st.hist.accepted[reqID].clientID
                  && st.tokens[id].grant.scopes == st.hist.accepted[reqID].scopes
                  && st.tokens[id].grant.nonce == st.hist.accepted[reqID].nonce)
  {
    RunsAreSafe(start, run);
    var h := Run(Init(start), run).store.hist;
    assert OriginOf(h, id) in h.accepted;
    GroundsTaken(start, run, OriginOf(h, id));
  }

  /**
   * However often a token has been refreshed, a refresh is by the client and with the nonce of the accepted
   * request, within its scopes, and passes the trust check while the client table is what it was.
   */
  lemma RefreshesStayWithinTheGrant(start: Time, run: seq<Event>, t: Tid)
    requires var s := Run(Init(start), run); t in s.threads && s.threads[t].Refreshed?
    ensures var s := Run(Init(start), run);
            var r, h := s.threads[t].r, s.store.hist;
            var reqID := OriginOf(h, r.id);
            && reqID in h.accepted && reqID in h.grounds && TakenFrom(h.grounds[reqID], h.accepted[reqID])
            && r.client == h.accepted[reqID].clientID && r.copy.grant.clientID == h.accepted[reqID].clientID
            && r.copy.grant.scopes == h.accepted[reqID].scopes && r.copy.grant.nonce == h.accepted[reqID].nonce
            && (forall scope :: scope in r.scopes ==> scope in h.accepted[reqID].scopes)
            && (h.grounds[reqID].dir.Keyed() ==> PeersTrust(h.grounds[reqID].dir, r.client, r.scopes))
  {
    RunsAreSafe(start, run);
    var s := Run(Init(start), run);
    var r, h := s.threads[t].r, s.store.hist;
    assert ThreadOk(h, s.threads[t]);
    var reqID := OriginOf(h, r.id);
    GroundsTaken(start, run, reqID);
    assert GroundsFor(h.grounds[reqID], h.accepted[reqID]);
    var how := h.grounds[reqID];
    if how.dir.Keyed() {
      AcceptedRequestIsTrusted(how.dir, how.supported, how.q, r.scopes);
    }
  }

  /** A refresh asks for the scopes named in the request, or for all that were granted if none are named. */
  lemma RefreshesAskFor(st: Store, id: Id, value: Id, client: string, scopes: Option<seq<string>>)
    requires StartRefresh(st, id, value, client, scopes).Refreshing?
    ensures var r := StartRefresh(st, id, value, client, scopes).r;
            && id in st.tokens && r.id == id && r.value == value && r.client == client
            && r.scopes == (if scopes.None? then st.tokens[id].grant.scopes else scopes.value)
  {
  }

  /** The request a response or an exchange goes back to. */
  function RequestBehind(s: State, t: Tid): Id
    requires t in s.threads && (s.threads[t].Delivered? || s.threads[t].Exchanged?)
  {
    if s.threads[t].Delivered? then s.threads[t].reqID else OriginOf(s.store.hist, s.threads[t].x.codeID)
  }

  /**
   * Over every interleaving, the redirect URI of a response delivered or a code exchanged was registered for
   * the client of its request, or is one of those a public client may use.
   */
  lemma RedirectsAreRegistered(start: Time, run: seq<Event>, t: Tid)
    requires var s := Run(Init(start), run); t in s.threads && (s.threads[t].Delivered? || s.threads[t].Exchanged?)
    ensures var s := Run(Init(start), run);
            var reqID := RequestBehind(s, t);
            && reqID in s.store.hist.accepted && reqID in s.store.hist.grounds
            && var request, how := s.store.hist.accepted[reqID], s.store.hist.grounds[reqID];
               && (s.threads[t].Exchanged? ==> s.threads[t].x.redirectURI == request.redirectURI)
               && request.redirectURI == how.q.redirectURI && how.q.clientID in how.dir.clients
               && (if how.dir.clients[how.q.clientID].isPublic
                   then request.redirectURI == "urn:ietf:wg:oauth:2.0:oob" || how.q.isLoopback
                   else request.redirectURI in how.dir.clients[how.q.clientID].redirectURIs)
  {
    RunsAreSafe(start, run);
    var s := Run(Init(start), run);
    assert DeliveryOk(s.store.hist, s.threads[t]) && ThreadOk(s.store.hist, s.threads[t]);
    var reqID := RequestBehind(s, t);
    GroundsTaken(start, run, reqID);
    var how := s.store.hist.grounds[reqID];
    AcceptsExactly(how.dir, how.supported, how.q);
  }
}
