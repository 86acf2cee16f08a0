/**
 * What every run of the key protocol keeps: the cache is transparent, a token's key stays
 * published for the token's life, and the verification-key list stays short.
 */
module KeySafety {
  import opened Common
  import opened Rotation
  import opened KeyProtocol

  // ---------------------------------------------------------------- coherence of key copies

  /** A copy of the key record is the stored one or is due for rotation, so never served from a cache. */
  ghost predicate Current(s: State, keys: Keys) {
    keys == s.store || keys.nextRotation <= s.now
  }

  ghost predicate Noted(s: State, keys: Keys, at: Time) {
    at <= s.now && (keys.signingKey.Some? ==> Fetch(keys.signingKey.value, at) in s.fetches)
  }

  /** The commit check of an update that read `keys` at `rev` passes only while `keys` is the stored record. */
  ghost predicate Guarded(s: State, keys: Keys, rev: nat) {
    rev <= s.rev && (rev == s.rev ==> keys == s.store)
  }

  ghost predicate OpCoherent(s: State, op: Op) {
    match op
    case Loaded(_, _, cached) => cached.Some? ==> Current(s, cached.value)
    case Missed(_, _) => true
    case Fetched(_, _, keys, at) => Current(s, keys) && Noted(s, keys, at)
    case Caching(_, _, keys, at) => Current(s, keys) && Noted(s, keys, at)
    case Got(_, _, keys, at) => Current(s, keys) && Noted(s, keys, at)
    case Generated(_) => true
    case Updating(_, keys, rev) => Guarded(s, keys, rev)
    case Timed(_, keys, rev, tNow) => Guarded(s, keys, rev) && keys.nextRotation <= tNow <= s.now
    case Computed(_, keys, rev, tNow, tLater) => Guarded(s, keys, rev) && keys.nextRotation <= tNow <= tLater <= s.now
  }

  ghost predicate OpsCoherent(s: State) {
    forall o :: o in s.ops ==> OpCoherent(s, s.ops[o])
  }

  ghost predicate CachesCoherent(s: State) {
    forall i :: i in s.caches ==> Current(s, s.caches[i])
  }

  ghost predicate PublicationsCoherent(s: State) {
    forall p :: p in s.published ==> Current(s, p.keys) && p.maxAge == MaxAge(p.keys.nextRotation, p.at) / SECOND
  }

  ghost predicate Coherent(s: State) {
    OpsCoherent(s) && CachesCoherent(s) && PublicationsCoherent(s) && s.store.signingKey == s.store.signingKeyPub
  }

  /** Time moves on and the record changes only once its rotation is due. */
  ghost predicate Later(s: State, s': State) {
    && s.now <= s'.now
    && s.fetches <= s'.fetches
    && ((s'.store == s.store && s'.rev == s.rev) || (s.rev < s'.rev && s.store.nextRotation <= s'.now))
  }

  lemma OpStaysCoherent(s: State, s': State, op: Op)
    requires Later(s, s') && OpCoherent(s, op)
    ensures OpCoherent(s', op)
  {
  }

  /** One operation moves from `s.ops[o]` to `s'.ops[o]`; everything else only ages. */
  lemma OneMoves(s: State, s': State, o: OpId)
    requires Coherent(s) && Later(s, s')
    requires s'.ops.Keys <= s.ops.Keys + {o}
    requires forall p :: p in s'.ops && p != o ==> s'.ops[p] == s.ops[p]
    requires o in s'.ops ==> OpCoherent(s', s'.ops[o])
    requires s'.caches == s.caches && s'.published == s.published
    requires s'.store.signingKey == s'.store.signingKeyPub
    ensures Coherent(s')
  {
    forall p | p in s'.ops
      ensures OpCoherent(s', s'.ops[p])
    {
      if p != o {
        OpStaysCoherent(s, s', s.ops[p]);
      }
    }
  }

  lemma StoreCacheCoherent(s: State, o: OpId, op: Op)
    requires Coherent(s) && o in s.ops && s.ops[o] == op && op.Caching?
    ensures Coherent(StoreCacheStep(s, o, op))
  {
    var s' := Goto(s, o, Got(op.inst, op.purpose, op.keys, op.at));
    OneMoves(s, s', o);
    assert OpCoherent(s, op);
    var t := StoreCacheStep(s, o, op);
    forall p | p in t.ops
      ensures OpCoherent(t, t.ops[p])
    {
      OpStaysCoherent(s', t, s'.ops[p]);
    }
  }

  lemma PublishCoherent(s: State, o: OpId, op: Op)
    requires Coherent(s) && o in s.ops && s.ops[o] == op && op.Got?
    ensures Coherent(PublishStep(s, o, op))
  {
    assert OpCoherent(s, op);
    OneMoves(s, End(s, o), o);
    var t := PublishStep(s, o, op);
    forall p | p in t.ops
      ensures OpCoherent(t, t.ops[p])
    {
      OpStaysCoherent(End(s, o), t, s.ops[p]);
    }
  }

  lemma CommitCoherent(s: State, o: OpId, op: Op, strategy: Strategy)
    requires Coherent(s) && o in s.ops && op.Computed? && OpCoherent(s, op)
    ensures Coherent(CommitStep(s, o, op, strategy))
  {
    OneMoves(s, CommitStep(s, o, op, strategy), o);
  }

  lemma ReadStepCoherent(s: State, e: Event, o: OpId, op: Op)
    requires Coherent(s) && o in s.ops && s.ops[o] == op
    ensures Coherent(ReadStep(s, e, o, op))
  {
    assert OpCoherent(s, op);
    if e.StoreCache? && op.Caching? {
      StoreCacheCoherent(s, o, op);
    } else {
      OneMoves(s, ReadStep(s, e, o, op), o);
    }
  }

  lemma UpdateStepCoherent(s: State, e: Event, o: OpId, op: Op, strategy: Strategy)
    requires Coherent(s) && o in s.ops && s.ops[o] == op
    ensures Coherent(UpdateStep(s, e, o, op, strategy))
  {
    assert OpCoherent(s, op);
    if e.Commit? && op.Computed? {
      CommitCoherent(s, o, op, strategy);
    } else {
      OneMoves(s, UpdateStep(s, e, o, op, strategy), o);
    }
  }

  lemma OpStepCoherent(s: State, e: Event, o: OpId, op: Op, strategy: Strategy)
    requires Coherent(s) && o in s.ops && s.ops[o] == op
    ensures Coherent(OpStep(s, e, o, op, strategy))
  {
    if IsRead(e) {
      ReadStepCoherent(s, e, o, op);
    } else if IsUpdate(e) {
      UpdateStepCoherent(s, e, o, op, strategy);
    } else if e.PublishKeys? && op.Got? {
      PublishCoherent(s, o, op);
    } else {
      OneMoves(s, OpStep(s, e, o, op, strategy), o);
    }
  }

  lemma StepCoherent(s: State, e: Event, strategy: Strategy)
    requires Coherent(s)
    ensures Coherent(Step(s, e, strategy))
  {
    match e
    case Tick(_) => OneMoves(s, Step(s, e, strategy), 0);
    case Load(o, inst, _) =>
      if o !in s.ops {
        OneMoves(s, Step(s, e, strategy), o);
      }
    case _ =>
      if e.op in s.ops {
        OpStepCoherent(s, e, e.op, s.ops[e.op], strategy);
      }
  }

  // ---------------------------------------------------------------- a token's key stays published

  function PendingId(op: Op): Option<KeyId> {
    if op.Generated? || op.Updating? || op.Timed? || op.Computed? then Some(op.id) else None
  }

  /** A key that has been made and not yet installed: by one operation only, and never before. */
  ghost predicate Unborn(s: State, id: KeyId) {
    id in s.used && id !in s.stamps && s.store.signingKeyPub != Some(id)
  }

  ghost predicate IdsDistinct(s: State) {
    && (forall o :: o in s.ops && PendingId(s.ops[o]).Some? ==> Unborn(s, PendingId(s.ops[o]).value))
    && (forall o, p :: o in s.ops && p in s.ops && o != p && PendingId(s.ops[o]).Some?
                       ==> PendingId(s.ops[o]) != PendingId(s.ops[p]))
    && (s.store.signingKeyPub.Some? ==> s.store.signingKeyPub.value in s.used - s.stamps.Keys)
    && s.stamps.Keys <= s.used
  }

  /** Operation `o` moves without making, installing or retiring a key. */
  ghost predicate KeepsIds(s: State, s': State, o: OpId) {
    && o in s.ops && s'.ops.Keys <= s.ops.Keys
    && (forall p :: p in s'.ops && p != o ==> s'.ops[p] == s.ops[p])
    && (o in s'.ops ==> PendingId(s'.ops[o]) == PendingId(s.ops[o]))
    && s'.store == s.store && s'.stamps == s.stamps && s'.used == s.used
  }

  lemma IdsKept(s: State, s': State, o: OpId)
    requires IdsDistinct(s) && KeepsIds(s, s', o)
    ensures IdsDistinct(s')
  {
    forall p | p in s'.ops && PendingId(s'.ops[p]).Some?
      ensures Unborn(s', PendingId(s'.ops[p]).value)
    {
      assert PendingId(s.ops[p]) == PendingId(s'.ops[p]);
    }
  }

  lemma CommitIds(s: State, o: OpId, op: Op, strategy: Strategy)
    requires IdsDistinct(s) && o in s.ops && op.Computed? && PendingId(s.ops[o]) == Some(op.id)
    ensures IdsDistinct(CommitStep(s, o, op, strategy))
  {
    assert Unborn(s, op.id);
  }

  lemma GenerateIds(s: State, o: OpId, op: Op, id: KeyId)
    requires IdsDistinct(s) && o in s.ops && s.ops[o] == op && op.Got?
    ensures IdsDistinct(GenerateStep(s, o, op, id))
  {
  }

  lemma ReadStepIds(s: State, e: Event, o: OpId)
    requires IdsDistinct(s) && o in s.ops
    ensures IdsDistinct(ReadStep(s, e, o, s.ops[o]))
  {
    IdsKept(s, ReadStep(s, e, o, s.ops[o]), o);
  }

  lemma UpdateStepIds(s: State, e: Event, o: OpId, strategy: Strategy)
    requires IdsDistinct(s) && o in s.ops
    ensures IdsDistinct(UpdateStep(s, e, o, s.ops[o], strategy))
  {
    var op := s.ops[o];
    if e.Commit? && op.Computed? {
      CommitIds(s, o, op, strategy);
    } else {
      IdsKept(s, UpdateStep(s, e, o, op, strategy), o);
    }
  }

  lemma OpStepIds(s: State, e: Event, o: OpId, strategy: Strategy)
    requires IdsDistinct(s) && o in s.ops
    ensures IdsDistinct(OpStep(s, e, o, s.ops[o], strategy))
  {
    var op := s.ops[o];
    if IsRead(e) {
      ReadStepIds(s, e, o);
    } else if IsUpdate(e) {
      UpdateStepIds(s, e, o, strategy);
    } else if e.GenerateKey? && op.Got? {
      GenerateIds(s, o, op, e.id);
    } else {
      IdsKept(s, OpStep(s, e, o, op, strategy), o);
    }
  }

  lemma StepIds(s: State, e: Event, strategy: Strategy)
    requires IdsDistinct(s)
    ensures IdsDistinct(Step(s, e, strategy))
  {
    if !e.Tick? && !e.Load? && e.op in s.ops {
      OpStepIds(s, e, e.op, strategy);
    }
  }

  /** Event `e` is the commit of an update that found the record as it had read it. */
  ghost predicate Commits(s: State, e: Event) {
    e.Commit? && e.op in s.ops && s.ops[e.op].Computed? && s.ops[e.op].rev == s.rev
  }

  ghost predicate SameRecord(s: State, s': State) {
    s'.store == s.store && s'.retired == s.retired && s'.stamps == s.stamps
  }

  /** Only commits change the record or retire keys. */
  lemma OnlyCommitsRotate(s: State, e: Event, strategy: Strategy)
    ensures if Commits(s, e) then Step(s, e, strategy) == CommitStep(s, e.op, s.ops[e.op], strategy)
            else SameRecord(s, Step(s, e, strategy))
  {
  }

  /** By how much a fetch came after the clock reading of the updater that retired its key. */
  function Overtaken(s: State, f: Fetch): Time {
    if f.key in s.stamps && s.stamps[f.key] < f.at then f.at - s.stamps[f.key] else 0
  }

  ghost predicate Lasting(s: State, strategy: Strategy) {
    && (forall f :: f in s.fetches ==> f.at <= s.now)
    && (forall f :: f in s.fetches && f.key !in s.stamps ==> s.store.signingKeyPub == Some(f.key))
    && (forall key :: key in s.stamps ==> s.stamps[key] <= s.now)
    && (forall t :: t in s.tokens ==> Fetch(t.key, t.fetchedAt) in s.fetches && t.fetchedAt <= t.issuedAt
                                      && t.expiry == t.issuedAt + strategy.idTokenValidFor)
  }

  /** Steps that leave the record, the fetches and the tokens alone. */
  lemma LastingAges(s: State, s': State, strategy: Strategy)
    requires Lasting(s, strategy)
    requires s.now <= s'.now && s'.store == s.store && s'.stamps == s.stamps
    requires s'.fetches == s.fetches && s'.tokens == s.tokens
    ensures Lasting(s', strategy)
  {
  }

  /** A fetch of the stored record. */
  lemma LastingFetch(s: State, s': State, strategy: Strategy)
    requires Lasting(s, strategy) && s.store.signingKey == s.store.signingKeyPub
    requires s' == s.(ops := s'.ops, fetches := Recorded(s.fetches, s.store, s.now))
    ensures Lasting(s', strategy)
  {
  }

  lemma LastingIssue(s: State, o: OpId, op: Op, strategy: Strategy)
    requires Lasting(s, strategy) && op.Got? && Noted(s, op.keys, op.at)
    ensures Lasting(IssueStep(s, o, op, strategy), strategy)
  {
  }

  lemma LastingCommit(s: State, o: OpId, op: Op, strategy: Strategy)
    requires Lasting(s, strategy) && IdsDistinct(s) && OpCoherent(s, op) && op.Computed?
    ensures Lasting(CommitStep(s, o, op, strategy), strategy)
  {
  }

  lemma OpStepLasting(s: State, e: Event, o: OpId, strategy: Strategy)
    requires Coherent(s) && IdsDistinct(s) && Lasting(s, strategy) && o in s.ops
    ensures Lasting(OpStep(s, e, o, s.ops[o], strategy), strategy)
  {
    var op := s.ops[o];
    assert OpCoherent(s, op);
    var s' := OpStep(s, e, o, op, strategy);
    if e.Commit? && op.Computed? {
      LastingCommit(s, o, op, strategy);
    } else if e.IssueToken? && op.Got? && op.purpose.Sign? {
      LastingIssue(s, o, op, strategy);
    } else if s'.fetches != s.fetches {
      LastingFetch(s, s', strategy);
    } else {
      LastingAges(s, s', strategy);
    }
  }

  lemma StepLasting(s: State, e: Event, strategy: Strategy)
    requires Coherent(s) && IdsDistinct(s) && Lasting(s, strategy)
    ensures Lasting(Step(s, e, strategy), strategy)
  {
    if !e.Tick? && !e.Load? && e.op in s.ops {
      OpStepLasting(s, e, e.op, strategy);
    } else {
      LastingAges(s, Step(s, e, strategy), strategy);
    }
  }

  // ---------------------------------------------------------------- the key list stays short

  ghost predicate Spaced(keys: seq<VerificationKey>, gap: Time) {
    forall j :: 0 <= j < |keys| - 1 ==> keys[j].expiry + gap <= keys[j + 1].expiry
  }

  /** Spacing, the age span of the list, and room for the key the next rotation will demote. */
  ghost predicate Tidy(keys: Keys, strategy: Strategy) {
    var vs := keys.verificationKeys;
    && Spaced(vs, strategy.rotationFrequency)
    && (keys.signingKeyPub.None? ==> vs == [])
    && (vs != [] ==>
          && vs[|vs| - 1].expiry - vs[0].expiry <= strategy.idTokenValidFor
          && vs[|vs| - 1].expiry + strategy.rotationFrequency <= keys.nextRotation + strategy.idTokenValidFor)
  }

  lemma {:induction false} ExpiriesIncrease(keys: seq<VerificationKey>, gap: Time, i: nat, j: nat)
    requires Spaced(keys, gap) && 0 < gap && i <= j < |keys|
    ensures keys[i].expiry + (j - i) * gap <= keys[j].expiry
    ensures keys[i].expiry <= keys[j].expiry
    decreases j
  {
    if i < j {
      ExpiriesIncrease(keys, gap, i, j - 1);
      assert keys[j - 1].expiry + gap <= keys[j].expiry;
      assert (j - i) * gap == (j - 1 - i) * gap + gap;
    }
  }

  /** In an increasing list only a prefix has expired. */
  lemma {:induction false} UnexpiredIsSuffix(keys: seq<VerificationKey>, gap: Time, tNow: Time) returns (k: nat)
    requires Spaced(keys, gap) && 0 < gap
    ensures k <= |keys| && Unexpired(keys, tNow) == keys[k..]
    ensures k < |keys| ==> tNow <= keys[k].expiry
  {
    if keys == [] {
      k := 0;
    } else {
      var init, last := keys[..|keys| - 1], keys[|keys| - 1];
      k := UnexpiredIsSuffix(init, gap, tNow);
      if Expired(last, tNow) {
        if k < |init| {
          ExpiriesIncrease(keys, gap, k, |keys| - 1);
        }
        k := |keys|;
      } else {
        assert keys == init + [last];
        assert keys[k..] == init[k..] + [last];
      }
    }
  }

  lemma SuffixSpaced(keys: seq<VerificationKey>, gap: Time, k: nat)
    requires Spaced(keys, gap) && k <= |keys|
    ensures Spaced(keys[k..], gap)
  {
  }

  lemma AppendSpaced(keys: seq<VerificationKey>, gap: Time, v: VerificationKey)
    requires Spaced(keys, gap) && (keys != [] ==> keys[|keys| - 1].expiry + gap <= v.expiry)
    ensures Spaced(keys + [v], gap)
  {
  }

  lemma RotationTidy(keys: Keys, id: KeyId, tNow: Time, tLater: Time, strategy: Strategy)
    requires Tidy(keys, strategy) && 0 < strategy.rotationFrequency && 0 <= strategy.idTokenValidFor
    requires keys.nextRotation <= tNow <= tLater
    ensures Tidy(Rotated(keys, id, tNow, tLater, strategy).value, strategy)
  {
    var vs, gap := keys.verificationKeys, strategy.rotationFrequency;
    var k := UnexpiredIsSuffix(vs, gap, tNow);
    var kept, ws := vs[k..], Rotated(keys, id, tNow, tLater, strategy).value.verificationKeys;
    if keys.signingKeyPub.Some? {
      var v := VerificationKey(keys.signingKeyPub.value, tNow + strategy.idTokenValidFor);
      assert ws == kept + [v];
      SuffixSpaced(vs, gap, k);
      if kept != [] {
        assert kept[|kept| - 1] == vs[|vs| - 1] && ws[0] == vs[k];
      }
      AppendSpaced(kept, gap, v);
    }
  }

  lemma AtLeastOneTime(d: int, f: int)
    requires 1 <= d && 0 < f
    ensures f <= d * f
  {
  }

  lemma QuotientBound(n: nat, f: int, v: int)
    requires 0 < f && 0 <= v && n * f <= v
    ensures n <= v / f
  {
    var q := v / f;
    assert v == q * f + v % f;
    assert (n - q) * f == n * f - q * f;
    if q < n {
      AtLeastOneTime(n - q, f);
      assert false;
    }
  }

  lemma TidyIsShort(keys: Keys, strategy: Strategy)
    requires Tidy(keys, strategy) && 0 < strategy.rotationFrequency && 0 <= strategy.idTokenValidFor
    ensures |keys.verificationKeys| <= strategy.idTokenValidFor / strategy.rotationFrequency + 1
  {
    var vs := keys.verificationKeys;
    if vs != [] {
      ExpiriesIncrease(vs, strategy.rotationFrequency, 0, |vs| - 1);
      QuotientBound(|vs| - 1, strategy.rotationFrequency, strategy.idTokenValidFor);
    }
  }

  lemma StepTidy(s: State, e: Event, strategy: Strategy)
    requires Coherent(s) && Tidy(s.store, strategy) && 0 < strategy.rotationFrequency && 0 <= strategy.idTokenValidFor
    ensures Tidy(Step(s, e, strategy).store, strategy)
  {
    OnlyCommitsRotate(s, e, strategy);
    if Commits(s, e) {
      var op := s.ops[e.op];
      assert OpCoherent(s, op);
      RotationTidy(op.keys, op.id, op.tNow, op.tLater, strategy);
    }
  }

  /** Every listed key was retired, and is listed for a token's lifetime from the stamp. */
  ghost predicate Stamped(s: State, strategy: Strategy) {
    forall v :: v in s.store.verificationKeys ==>
      v.publicKey in s.stamps && v.expiry == s.stamps[v.publicKey] + strategy.idTokenValidFor
  }

  lemma CommitStamped(s: State, o: OpId, op: Op, strategy: Strategy)
    requires Stamped(s, strategy) && IdsDistinct(s) && OpCoherent(s, op) && op.Computed?
    ensures Stamped(CommitStep(s, o, op, strategy), strategy)
  {
    var s' := CommitStep(s, o, op, strategy);
    if op.rev == s.rev {
      forall v | v in s'.store.verificationKeys
        ensures v.publicKey in s'.stamps && v.expiry == s'.stamps[v.publicKey] + strategy.idTokenValidFor
      {
        UnexpiredMembers(s.store.verificationKeys, op.tNow, v);
        assert v in Unexpired(s.store.verificationKeys, op.tNow) || v in Demoted(s.store, op.tNow, strategy);
      }
    }
  }

  lemma StepStamped(s: State, e: Event, strategy: Strategy)
    requires Coherent(s) && IdsDistinct(s) && Stamped(s, strategy)
    ensures Stamped(Step(s, e, strategy), strategy)
  {
    OnlyCommitsRotate(s, e, strategy);
    if Commits(s, e) {
      assert OpCoherent(s, s.ops[e.op]);
      CommitStamped(s, e.op, s.ops[e.op], strategy);
    }
  }

  // ---------------------------------------------------------------- which retired keys are listed

  ghost predicate Listed(keys: Keys, key: KeyId) {
    exists v :: v in keys.verificationKeys && v.publicKey == key
  }

  /** `retired` and `stamps` are about the same keys, each retired once, by an update that replaced a signing key. */
  ghost predicate RetiredOnce(s: State) {
    && (forall j :: 0 <= j < |s.retired| ==> s.retired[j] in s.stamps)
    && (forall key :: key in s.stamps ==> key in s.retired)
    && (forall j, k :: 0 <= j < k < |s.retired| ==> s.retired[j] != s.retired[k])
    && (s.store.signingKeyPub.None? ==> s.retired == [])
  }

  /** No later rotation read a clock past the time for which the `j`-th retired key was kept. */
  ghost predicate Outlasts(s: State, j: int, strategy: Strategy)
    requires RetiredOnce(s) && 0 <= j < |s.retired|
  {
    forall k :: j < k < |s.retired| ==>
      s.stamps[s.retired[k]] <= s.stamps[s.retired[j]] + strategy.idTokenValidFor
  }

  ghost predicate ListedExactly(s: State, strategy: Strategy) {
    RetiredOnce(s) && forall j :: 0 <= j < |s.retired| ==> (Listed(s.store, s.retired[j]) <==> Outlasts(s, j, strategy))
  }

  /** What a rotation leaves on the list: the key it demotes, and of the others those that have not expired. */
  lemma ListedAfter(keys: Keys, id: KeyId, tNow: Time, tLater: Time, strategy: Strategy, key: KeyId, expiry: Time)
    requires keys.nextRotation <= tNow
    requires forall v :: v in keys.verificationKeys && v.publicKey == key ==> v.expiry == expiry
    ensures Listed(Rotated(keys, id, tNow, tLater, strategy).value, key) <==>
            keys.signingKeyPub == Some(key) || (Listed(keys, key) && tNow <= expiry)
  {
    var rotated := Rotated(keys, id, tNow, tLater, strategy).value;
    if keys.signingKeyPub == Some(key) {
      var v := VerificationKey(key, tNow + strategy.idTokenValidFor);
      assert v in Demoted(keys, tNow, strategy);
      assert v in rotated.verificationKeys;
    } else if Listed(keys, key) && tNow <= expiry {
      var v :| v in keys.verificationKeys && v.publicKey == key;
      UnexpiredMembers(keys.verificationKeys, tNow, v);
      assert v in rotated.verificationKeys;
    } else if Listed(rotated, key) {
      var v :| v in rotated.verificationKeys && v.publicKey == key;
      assert v in Unexpired(keys.verificationKeys, tNow) || v in Demoted(keys, tNow, strategy);
      UnexpiredMembers(keys.verificationKeys, tNow, v);
    }
  }

  lemma CommitRetiresOnce(s: State, o: OpId, op: Op, strategy: Strategy)
    requires RetiredOnce(s) && IdsDistinct(s) && op.Computed?
    ensures RetiredOnce(CommitStep(s, o, op, strategy))
  {
    var s' := CommitStep(s, o, op, strategy);
    if s'.retired != s.retired {
      assert s.store.signingKeyPub.value !in s.stamps;
      assert s'.retired[|s.retired|] == s.store.signingKeyPub.value;
      forall key | key in s'.stamps
        ensures key in s'.retired
      {
        assert key in s.stamps ==> key in s.retired;
      }
    }
  }

  lemma OutlastsOneMore(s: State, s': State, j: int, strategy: Strategy)
    requires RetiredOnce(s) && RetiredOnce(s') && 0 <= j < |s.retired| == |s'.retired| - 1 && s.retired <= s'.retired
    requires forall key :: key in s.stamps ==> key in s'.stamps && s'.stamps[key] == s.stamps[key]
    ensures Outlasts(s', j, strategy) <==>
            Outlasts(s, j, strategy)
            && s'.stamps[s'.retired[|s.retired|]] <= s'.stamps[s'.retired[j]] + strategy.idTokenValidFor
  {
    if Outlasts(s', j, strategy) {
      forall k | j < k < |s.retired|
        ensures s.stamps[s.retired[k]] <= s.stamps[s.retired[j]] + strategy.idTokenValidFor
      {
        assert s'.retired[k] == s.retired[k];
      }
    }
  }

  lemma CommitListsExactly(s: State, o: OpId, op: Op, strategy: Strategy, j: int)
    requires ListedExactly(s, strategy) && Stamped(s, strategy) && IdsDistinct(s)
    requires OpCoherent(s, op) && op.Computed? && op.rev == s.rev
    requires RetiredOnce(CommitStep(s, o, op, strategy)) && 0 <= j < |CommitStep(s, o, op, strategy).retired|
    ensures var s' := CommitStep(s, o, op, strategy); Listed(s'.store, s'.retired[j]) <==> Outlasts(s', j, strategy)
  {
    var s' := CommitStep(s, o, op, strategy);
    var key := s'.retired[j];
    var expiry := s'.stamps[key] + strategy.idTokenValidFor;
    ListedAfter(s.store, op.id, op.tNow, op.tLater, strategy, key, expiry);
    if j < |s.retired| {
      assert key == s.retired[j] && s'.stamps[key] == s.stamps[key];
      assert s'.retired == s.retired + [s.store.signingKeyPub.value];
      assert Outlasts(s', j, strategy) <==> Outlasts(s, j, strategy) && op.tNow <= expiry by {
        OutlastsOneMore(s, s', j, strategy);
      }
    }
  }

  lemma CommitKeepsListing(s: State, o: OpId, op: Op, strategy: Strategy)
    requires ListedExactly(s, strategy) && Stamped(s, strategy) && IdsDistinct(s)
    requires OpCoherent(s, op) && op.Computed? && op.rev == s.rev
    ensures ListedExactly(CommitStep(s, o, op, strategy), strategy)
  {
    var s' := CommitStep(s, o, op, strategy);
    CommitRetiresOnce(s, o, op, strategy);
    forall j | 0 <= j < |s'.retired|
      ensures Listed(s'.store, s'.retired[j]) <==> Outlasts(s', j, strategy)
    {
      CommitListsExactly(s, o, op, strategy, j);
    }
  }

  lemma SameRecordLists(s: State, s': State, strategy: Strategy)
    requires ListedExactly(s, strategy) && SameRecord(s, s')
    ensures ListedExactly(s', strategy)
  {
    forall j | 0 <= j < |s'.retired|
      ensures Listed(s'.store, s'.retired[j]) <==> Outlasts(s', j, strategy)
    {
      assert Outlasts(s', j, strategy) == Outlasts(s, j, strategy);
    }
  }

  lemma StepListsExactly(s: State, e: Event, strategy: Strategy)
    requires Coherent(s) && IdsDistinct(s) && Stamped(s, strategy) && ListedExactly(s, strategy)
    ensures ListedExactly(Step(s, e, strategy), strategy)
  {
    OnlyCommitsRotate(s, e, strategy);
    if Commits(s, e) {
      assert OpCoherent(s, s.ops[e.op]);
      CommitKeepsListing(s, e.op, s.ops[e.op], strategy);
    } else {
      SameRecordLists(s, Step(s, e, strategy), strategy);
    }
  }

  // ---------------------------------------------------------------- all runs

  ghost predicate Safe(s: State, strategy: Strategy) {
    && Coherent(s) && IdsDistinct(s) && Lasting(s, strategy) && Stamped(s, strategy) && ListedExactly(s, strategy)
    && (0 < strategy.rotationFrequency && 0 <= strategy.idTokenValidFor ==> Tidy(s.store, strategy))
  }

  lemma {:induction false} RunsAreSafe(start: Time, run: seq<Event>, strategy: Strategy)
    requires 0 <= start
    ensures Safe(Run(Init(start), run, strategy), strategy)
  {
    if run != [] {
      var s, e := Run(Init(start), run[..|run| - 1], strategy), run[|run| - 1];
      RunsAreSafe(start, run[..|run| - 1], strategy);
      StepCoherent(s, e, strategy);
      StepIds(s, e, strategy);
      StepLasting(s, e, strategy);
      StepStamped(s, e, strategy);
      StepListsExactly(s, e, strategy);
      if 0 < strategy.rotationFrequency && 0 <= strategy.idTokenValidFor {
        StepTidy(s, e, strategy);
      }
    }
  }

  lemma PublishedMeansListed(s: State, strategy: Strategy, j: int, i: Instance)
    requires Safe(s, strategy) && 0 <= j < |s.retired|
    ensures s.retired[j] in PublicKeys(CachedKeys(s, i)) <==> Listed(s.store, s.retired[j])
  {
    assert CachedKeys(s, i) == s.store;
    assert s.retired[j] in s.stamps;
  }

  /**
   * In every run, every instance publishes a retired key if and only if no later rotation read a clock
   * more than a token's lifetime past the reading that retired the key.
   */
  lemma KeyPublishedExactly(start: Time, run: seq<Event>, strategy: Strategy, j: int, i: Instance)
    requires 0 <= start && 0 <= j < |Run(Init(start), run, strategy).retired|
    ensures var s := Run(Init(start), run, strategy);
            && RetiredOnce(s)
            && (s.retired[j] in PublicKeys(CachedKeys(s, i)) <==> Outlasts(s, j, strategy))
  {
    RunsAreSafe(start, run, strategy);
    PublishedMeansListed(Run(Init(start), run, strategy), strategy, j, i);
  }

  /** A token's key is published if and only if it has not been retired, or has but outlasts the later rotations. */
  lemma TokenVerifiableExactly(start: Time, run: seq<Event>, strategy: Strategy, token: Token, i: Instance)
    requires 0 <= start && token in Run(Init(start), run, strategy).tokens
    ensures var s := Run(Init(start), run, strategy);
            && RetiredOnce(s)
            && (token.key in PublicKeys(CachedKeys(s, i)) <==>
                forall j :: 0 <= j < |s.retired| && s.retired[j] == token.key ==> Outlasts(s, j, strategy))
  {
    RunsAreSafe(start, run, strategy);
    var s := Run(Init(start), run, strategy);
    assert Fetch(token.key, token.fetchedAt) in s.fetches;
    if token.key in s.retired {
      var j :| 0 <= j < |s.retired| && s.retired[j] == token.key;
      KeyPublishedExactly(start, run, strategy, j, i);
    } else {
      assert token.key !in s.stamps && CachedKeys(s, i) == s.store;
    }
  }

  /**
   * So a token's key is published at every instant of the token's life, short of the gap between
   * fetching the key and stamping the token and of the time by which the fetch came after the clock
   * reading of the rotation that retired the key.
   */
  lemma TokenStaysVerifiable(start: Time, run: seq<Event>, strategy: Strategy, token: Token, i: Instance)
    requires 0 <= start
    requires var s := Run(Init(start), run, strategy);
             && token in s.tokens
             && s.now <= token.expiry - (token.issuedAt - token.fetchedAt)
                         - Overtaken(s, Fetch(token.key, token.fetchedAt))
    ensures token.key in PublicKeys(CachedKeys(Run(Init(start), run, strategy), i))
  {
    RunsAreSafe(start, run, strategy);
    TokenVerifiableExactly(start, run, strategy, token, i);
  }

  /** Rotations read ever later clocks, a rotation period apart. */
  ghost predicate RetiredInOrder(s: State, strategy: Strategy)
    requires RetiredOnce(s)
  {
    && (forall j, k :: 0 <= j < k < |s.retired| ==> s.stamps[s.retired[j]] <= s.stamps[s.retired[k]])
    && (forall key :: key in s.stamps ==> s.stamps[key] + strategy.rotationFrequency <= s.store.nextRotation)
  }

  lemma CommitRetiresInOrder(s: State, o: OpId, op: Op, strategy: Strategy)
    requires OpCoherent(s, op) && op.Computed? && IdsDistinct(s) && RetiredOnce(s) && RetiredInOrder(s, strategy)
    requires 0 <= strategy.rotationFrequency && RetiredOnce(CommitStep(s, o, op, strategy))
    ensures RetiredInOrder(CommitStep(s, o, op, strategy), strategy)
  {
    var s' := CommitStep(s, o, op, strategy);
    forall j, k | 0 <= j < k < |s'.retired|
      ensures s'.stamps[s'.retired[j]] <= s'.stamps[s'.retired[k]]
    {
      assert s'.retired[j] == s.retired[j] && s.retired[j] in s.stamps;
    }
  }

  lemma StepRetiresInOrder(s: State, e: Event, strategy: Strategy)
    requires Coherent(s) && IdsDistinct(s) && RetiredOnce(s) && RetiredInOrder(s, strategy)
    requires 0 <= strategy.rotationFrequency && RetiredOnce(Step(s, e, strategy))
    ensures RetiredInOrder(Step(s, e, strategy), strategy)
  {
    OnlyCommitsRotate(s, e, strategy);
    if Commits(s, e) {
      assert OpCoherent(s, s.ops[e.op]);
      CommitRetiresInOrder(s, e.op, s.ops[e.op], strategy);
    }
  }

  lemma {:induction false} RunsRetireInOrder(start: Time, run: seq<Event>, strategy: Strategy)
    requires 0 <= start && 0 <= strategy.rotationFrequency
    ensures var s := Run(Init(start), run, strategy); RetiredOnce(s) && RetiredInOrder(s, strategy)
  {
    RunsAreSafe(start, run, strategy);
    if run != [] {
      var s, e := Run(Init(start), run[..|run| - 1], strategy), run[|run| - 1];
      RunsRetireInOrder(start, run[..|run| - 1], strategy);
      RunsAreSafe(start, run[..|run| - 1], strategy);
      StepRetiresInOrder(s, e, strategy);
    }
  }

  /** In order of retirement, a key outlasts the later rotations if and only if it outlasts all. */
  lemma OutlastsAll(s: State, key: KeyId, j: nat, strategy: Strategy)
    requires RetiredOnce(s) && RetiredInOrder(s, strategy) && 0 <= strategy.idTokenValidFor
    requires j < |s.retired| && s.retired[j] == key
    ensures Outlasts(s, j, strategy) <==>
            forall k :: k in s.stamps ==> s.stamps[k] <= s.stamps[key] + strategy.idTokenValidFor
  {
    if Outlasts(s, j, strategy) {
      forall k | k in s.stamps
        ensures s.stamps[k] <= s.stamps[key] + strategy.idTokenValidFor
      {
        var n :| 0 <= n < |s.retired| && s.retired[n] == k;
        assert n < j ==> s.stamps[s.retired[n]] <= s.stamps[s.retired[j]];
      }
    }
  }

  /** The exact condition without the order of retirement, for periods and lifetimes that are not negative. */
  lemma KeyPublishedWithin(start: Time, run: seq<Event>, strategy: Strategy, key: KeyId, i: Instance)
    requires 0 <= start && 0 <= strategy.rotationFrequency && 0 <= strategy.idTokenValidFor
    requires key in Run(Init(start), run, strategy).stamps
    ensures var s := Run(Init(start), run, strategy);
            key in PublicKeys(CachedKeys(s, i)) <==>
            forall k :: k in s.stamps ==> s.stamps[k] <= s.stamps[key] + strategy.idTokenValidFor
  {
    RunsRetireInOrder(start, run, strategy);
    var s := Run(Init(start), run, strategy);
    var j :| 0 <= j < |s.retired| && s.retired[j] == key;
    KeyPublishedExactly(start, run, strategy, j, i);
    OutlastsAll(s, key, j, strategy);
  }

  /** The same for tokens. */
  lemma TokenVerifiableWithin(start: Time, run: seq<Event>, strategy: Strategy, token: Token, i: Instance)
    requires 0 <= start && 0 <= strategy.rotationFrequency && 0 <= strategy.idTokenValidFor
    requires token in Run(Init(start), run, strategy).tokens
    ensures var s := Run(Init(start), run, strategy);
            token.key in PublicKeys(CachedKeys(s, i)) <==>
            token.key !in s.stamps
            || forall k :: k in s.stamps ==> s.stamps[k] <= s.stamps[token.key] + strategy.idTokenValidFor
  {
    var s := Run(Init(start), run, strategy);
    if token.key in s.stamps {
      KeyPublishedWithin(start, run, strategy, token.key, i);
    } else {
      RunsAreSafe(start, run, strategy);
      TokenVerifiableExactly(start, run, strategy, token, i);
    }
  }

  // ---------------------------------------------------------------- dropped for good

  /** What has been retired stays retired, with its place and its stamp. */
  ghost predicate KeepsRetired(s: State, s': State) {
    && s.retired <= s'.retired
    && forall key :: key in s.stamps ==> key in s'.stamps && s'.stamps[key] == s.stamps[key]
  }

  lemma StepKeepsRetired(s: State, e: Event, strategy: Strategy)
    requires IdsDistinct(s)
    ensures KeepsRetired(s, Step(s, e, strategy))
  {
    OnlyCommitsRotate(s, e, strategy);
  }

  lemma RunsKeepIds(start: Time, run: seq<Event>, strategy: Strategy)
    requires 0 <= start
    ensures IdsDistinct(Run(Init(start), run, strategy))
  {
    RunsAreSafe(start, run, strategy);
  }

  lemma {:induction false} RunsKeepRetired(start: Time, run: seq<Event>, more: seq<Event>, strategy: Strategy)
    requires 0 <= start
    ensures KeepsRetired(Run(Init(start), run, strategy), Run(Init(start), run + more, strategy))
  {
    var both := run + more;
    if more == [] {
      assert both == run;
    } else {
      assert both[..|both| - 1] == run + more[..|more| - 1];
      RunsKeepRetired(start, run, more[..|more| - 1], strategy);
      RunsKeepIds(start, both[..|both| - 1], strategy);
      StepKeepsRetired(Run(Init(start), both[..|both| - 1], strategy), both[|both| - 1], strategy);
    }
  }

  lemma OutlastsLess(s: State, s': State, j: int, strategy: Strategy)
    requires RetiredOnce(s) && RetiredOnce(s') && KeepsRetired(s, s') && 0 <= j < |s.retired|
    requires Outlasts(s', j, strategy)
    ensures Outlasts(s, j, strategy)
  {
    forall k | j < k < |s.retired|
      ensures s.stamps[s.retired[k]] <= s.stamps[s.retired[j]] + strategy.idTokenValidFor
    {
      assert s'.retired[k] == s.retired[k] && s'.retired[j] == s.retired[j];
    }
  }

  /** The place of a retired key. */
  lemma PlaceOf(start: Time, run: seq<Event>, strategy: Strategy, key: KeyId) returns (j: int)
    requires 0 <= start && key in Run(Init(start), run, strategy).stamps
    ensures var s := Run(Init(start), run, strategy); 0 <= j < |s.retired| && s.retired[j] == key
  {
    RunsAreSafe(start, run, strategy);
    var s := Run(Init(start), run, strategy);
    j :| 0 <= j < |s.retired| && s.retired[j] == key;
  }

  /** A retired key that is not published at some point of a run is not published again. */
  lemma DroppedForGood(
    start: Time, run: seq<Event>, more: seq<Event>, strategy: Strategy, key: KeyId, i: Instance, i': Instance)
    requires 0 <= start && key in Run(Init(start), run, strategy).stamps
    requires key !in PublicKeys(CachedKeys(Run(Init(start), run, strategy), i))
    ensures key !in PublicKeys(CachedKeys(Run(Init(start), run + more, strategy), i'))
  {
    var s, s' := Run(Init(start), run, strategy), Run(Init(start), run + more, strategy);
    var j := PlaceOf(start, run, strategy, key);
    RunsKeepRetired(start, run, more, strategy);
    KeyPublishedExactly(start, run, strategy, j, i);
    KeyPublishedExactly(start, run + more, strategy, j, i');
    if Outlasts(s', j, strategy) {
      OutlastsLess(s, s', j, strategy);
    }
  }

  lemma CommitOvertakes(s: State, o: OpId, op: Op, strategy: Strategy, j: int)
    requires Safe(s, strategy) && o in s.ops && s.ops[o] == op && op.Computed? && op.rev == s.rev
    requires 0 <= j < |s.retired| && s.stamps[s.retired[j]] + strategy.idTokenValidFor < op.tNow
    ensures var s' := CommitStep(s, o, op, strategy);
            RetiredOnce(s') && |s.retired| < |s'.retired| && s'.retired[j] == s.retired[j] && !Outlasts(s', j, strategy)
  {
    assert OpCoherent(s, op);
    CommitRetiresOnce(s, o, op, strategy);
    var s' := CommitStep(s, o, op, strategy);
    assert s'.retired[|s.retired|] == s.store.signingKeyPub.value;
  }

  lemma CommitRun(start: Time, run: seq<Event>, strategy: Strategy, o: OpId)
    requires Commits(Run(Init(start), run, strategy), Commit(o))
    ensures var s := Run(Init(start), run, strategy);
            Run(Init(start), run + [Commit(o)], strategy) == CommitStep(s, o, s.ops[o], strategy)
  {
    assert (run + [Commit(o)])[..|run|] == run;
    OnlyCommitsRotate(Run(Init(start), run, strategy), Commit(o), strategy);
  }

  /** A rotation whose clock is past what a retired key was stamped with ends its publication, then and later. */
  lemma ExpiredKeysAreDropped(
    start: Time, run: seq<Event>, more: seq<Event>, strategy: Strategy, o: OpId, key: KeyId, i: Instance)
    requires 0 <= start
    requires var s := Run(Init(start), run, strategy);
             && Commits(s, Commit(o)) && key in s.stamps
             && s.stamps[key] + strategy.idTokenValidFor < s.ops[o].tNow
    ensures key !in PublicKeys(CachedKeys(Run(Init(start), run + [Commit(o)] + more, strategy), i))
  {
    var s, next := Run(Init(start), run, strategy), run + [Commit(o)];
    var j := PlaceOf(start, run, strategy, key);
    assert Safe(s, strategy) by {
      RunsAreSafe(start, run, strategy);
    }
    CommitRun(start, run, strategy, o);
    CommitOvertakes(s, o, s.ops[o], strategy, j);
    KeyPublishedExactly(start, next, strategy, j, i);
    DroppedForGood(start, next, more, strategy, key, i, i);
  }

  // ---------------------------------------------------------------- storages with a lock

  predicate InUpdate(op: Op) {
    op.Updating? || op.Timed? || op.Computed?
  }

  /** An update is between its read and its commit. */
  ghost predicate Busy(s: State) {
    exists o :: o in s.ops && InUpdate(s.ops[o])
  }

  /** While an update holds the lock, nobody else reads the record or begins an update. */
  ghost predicate Allowed(s: State, e: Event) {
    Busy(s) ==> !e.ReadStorage? && !e.BeginUpdate?
  }

  /** The runs of a storage that holds its lock from the read of an update to its commit. */
  ghost predicate Locking(start: Time, run: seq<Event>, strategy: Strategy) {
    run == [] ||
      (Locking(start, run[..|run| - 1], strategy)
       && Allowed(Run(Init(start), run[..|run| - 1], strategy), run[|run| - 1]))
  }

  /** The fetches of the current signing key came no later than `tNow`. */
  ghost predicate Precede(s: State, tNow: Time) {
    forall f :: f in s.fetches && s.store.signingKeyPub == Some(f.key) ==> f.at <= tNow
  }

  /** Every fetch of a key precedes the clock reading that retires it, or is about to. */
  ghost predicate InOrder(s: State) {
    && (forall f :: f in s.fetches && f.key in s.stamps ==> f.at <= s.stamps[f.key])
    && (forall o, p :: o in s.ops && p in s.ops && InUpdate(s.ops[o]) && InUpdate(s.ops[p]) ==> o == p)
    && (forall o :: o in s.ops && (s.ops[o].Timed? || s.ops[o].Computed?) ==> Precede(s, s.ops[o].tNow))
    && (forall o :: o in s.ops && InUpdate(s.ops[o]) ==> s.ops[o].rev == s.rev)
  }

  /** An operation that moves without fetching, beginning, timing or committing. */
  lemma OrderKept(s: State, s': State, o: OpId)
    requires InOrder(s) && o in s.ops && s'.ops.Keys <= s.ops.Keys
    requires forall p :: p in s'.ops && p != o ==> s'.ops[p] == s.ops[p]
    requires s'.store == s.store && s'.rev == s.rev && s'.stamps == s.stamps && s'.fetches == s.fetches
    requires o in s'.ops && InUpdate(s'.ops[o]) ==> InUpdate(s.ops[o]) && s'.ops[o].rev == s.ops[o].rev
    requires o in s'.ops && (s'.ops[o].Timed? || s'.ops[o].Computed?) ==>
               if s.ops[o].Timed? || s.ops[o].Computed? then s'.ops[o].tNow == s.ops[o].tNow
               else forall f :: f in s.fetches ==> f.at <= s'.ops[o].tNow
    ensures InOrder(s')
  {
  }

  /** No cached record is served once the updater that will replace it has read its clock. */
  lemma NoHitWhileTimed(s: State, o: OpId, p: OpId)
    requires Coherent(s) && InOrder(s) && o in s.ops && s.ops[o].Loaded?
    requires p in s.ops && (s.ops[p].Timed? || s.ops[p].Computed?)
    ensures CheckCacheStep(s, o, s.ops[o]).ops[o].Missed?
  {
    assert OpCoherent(s, s.ops[o]) && OpCoherent(s, s.ops[p]);
  }

  lemma FetchKeepsOrder(s: State, s': State, o: OpId)
    requires Coherent(s) && IdsDistinct(s) && InOrder(s) && o in s.ops && !InUpdate(s.ops[o])
    requires exists op :: s' == Goto(s, o, op).(fetches := Recorded(s.fetches, s.store, s.now)) && !InUpdate(op)
    requires forall p :: p in s.ops ==> !s.ops[p].Timed? && !s.ops[p].Computed?
    ensures InOrder(s')
  {
  }

  lemma ReadStepInOrder(s: State, e: Event, o: OpId)
    requires Coherent(s) && IdsDistinct(s) && InOrder(s) && Allowed(s, e) && o in s.ops
    ensures InOrder(ReadStep(s, e, o, s.ops[o]))
  {
    var op, s' := s.ops[o], ReadStep(s, e, o, s.ops[o]);
    if s'.fetches == s.fetches {
      OrderKept(s, s', o);
    } else {
      if p :| p in s.ops && (s.ops[p].Timed? || s.ops[p].Computed?) {
        assert Busy(s);
        NoHitWhileTimed(s, o, p);
        assert false;
      }
      assert OpCoherent(s, op);
      assert s' == Goto(s, o, s'.ops[o]).(fetches := Recorded(s.fetches, s.store, s.now));
      FetchKeepsOrder(s, s', o);
    }
  }

  lemma CommitInOrder(s: State, o: OpId, op: Op, strategy: Strategy)
    requires Coherent(s) && IdsDistinct(s) && Lasting(s, strategy) && InOrder(s)
    requires o in s.ops && s.ops[o] == op && op.Computed?
    ensures InOrder(CommitStep(s, o, op, strategy))
  {
    assert OpCoherent(s, op) && Unborn(s, op.id);
    var s' := CommitStep(s, o, op, strategy);
    forall p | p in s'.ops
      ensures !InUpdate(s'.ops[p])
    {
    }
  }

  lemma UpdateStepInOrder(s: State, e: Event, o: OpId, strategy: Strategy)
    requires Coherent(s) && IdsDistinct(s) && Lasting(s, strategy) && InOrder(s) && Allowed(s, e) && o in s.ops
    ensures InOrder(UpdateStep(s, e, o, s.ops[o], strategy))
  {
    var op := s.ops[o];
    if e.Commit? && op.Computed? {
      CommitInOrder(s, o, op, strategy);
    } else if e.BeginUpdate? && op.Generated? {
      assert forall p :: p in s.ops ==> !InUpdate(s.ops[p]);
    } else {
      OrderKept(s, UpdateStep(s, e, o, op, strategy), o);
    }
  }

  lemma OpStepInOrder(s: State, e: Event, o: OpId, strategy: Strategy)
    requires Coherent(s) && IdsDistinct(s) && Lasting(s, strategy) && InOrder(s) && Allowed(s, e) && o in s.ops
    ensures InOrder(OpStep(s, e, o, s.ops[o], strategy))
  {
    if IsRead(e) {
      ReadStepInOrder(s, e, o);
    } else if IsUpdate(e) {
      UpdateStepInOrder(s, e, o, strategy);
    } else {
      OrderKept(s, OpStep(s, e, o, s.ops[o], strategy), o);
    }
  }

  lemma StepInOrder(s: State, e: Event, strategy: Strategy)
    requires Coherent(s) && IdsDistinct(s) && Lasting(s, strategy) && InOrder(s) && Allowed(s, e)
    ensures InOrder(Step(s, e, strategy))
  {
    match e
    case Tick(_) => assert Step(s, e, strategy).fetches == s.fetches;
    case Load(o, _, _) => assert Step(s, e, strategy).fetches == s.fetches;
    case _ =>
      if e.op in s.ops {
        OpStepInOrder(s, e, e.op, strategy);
      }
  }

  /** With a lock no key is fetched after the clock reading that retires it. */
  lemma {:induction false} LockedRunsStayInOrder(start: Time, run: seq<Event>, strategy: Strategy)
    requires 0 <= start && Locking(start, run, strategy)
    ensures InOrder(Run(Init(start), run, strategy))
  {
    if run != [] {
      var init := run[..|run| - 1];
      LockedRunsStayInOrder(start, init, strategy);
      RunsAreSafe(start, init, strategy);
      StepInOrder(Run(Init(start), init, strategy), run[|run| - 1], strategy);
    }
  }

  /** Over such a storage, a token stamped as its key is fetched can be verified for its whole life. */
  lemma TokenVerifiableForLife(start: Time, run: seq<Event>, strategy: Strategy, token: Token, i: Instance)
    requires 0 <= start && Locking(start, run, strategy)
    requires var s := Run(Init(start), run, strategy);
             token in s.tokens && s.now <= token.expiry - (token.issuedAt - token.fetchedAt)
    ensures token.key in PublicKeys(CachedKeys(Run(Init(start), run, strategy), i))
  {
    LockedRunsStayInOrder(start, run, strategy);
    RunsAreSafe(start, run, strategy);
    TokenStaysVerifiable(start, run, strategy, token, i);
  }

  /** GetKeys through any instance's cache answers what the storage holds. */
  lemma CacheIsTransparent(start: Time, run: seq<Event>, strategy: Strategy, i: Instance)
    requires 0 <= start
    ensures var s := Run(Init(start), run, strategy); CachedKeys(s, i) == s.store
  {
    RunsAreSafe(start, run, strategy);
  }

  /** An operation that takes its keys out of a cache takes the stored record of that instant. */
  lemma CacheHitReadsStorage(start: Time, run: seq<Event>, strategy: Strategy, o: OpId)
    requires 0 <= start
    requires var s := Run(Init(start), run, strategy);
             o in s.ops && s.ops[o].Loaded? && CheckCacheStep(s, o, s.ops[o]).ops[o].Got?
    ensures var s := Run(Init(start), run, strategy);
            CheckCacheStep(s, o, s.ops[o]).ops[o].keys == s.store
  {
    RunsAreSafe(start, run, strategy);
    var s := Run(Init(start), run, strategy);
    assert OpCoherent(s, s.ops[o]);
  }

  /** Until its max-age lapses, a /keys response not raised to the floor is what the server would answer. */
  lemma PublishedKeysStayAccurate(start: Time, run: seq<Event>, strategy: Strategy, p: Publication, i: Instance)
    requires 0 <= start
    requires var s := Run(Init(start), run, strategy);
             p in s.published && MIN_MAX_AGE <= p.keys.nextRotation - p.at && s.now < p.at + p.maxAge * SECOND
    ensures CachedKeys(Run(Init(start), run, strategy), i) == p.keys
  {
    RunsAreSafe(start, run, strategy);
  }

  /** However many instances race to rotate, the verification keys are few and spaced. */
  lemma KeyListStaysShort(start: Time, run: seq<Event>, strategy: Strategy)
    requires 0 <= start && 0 < strategy.rotationFrequency && 0 <= strategy.idTokenValidFor
    ensures var vs := Run(Init(start), run, strategy).store.verificationKeys;
            && |vs| <= strategy.idTokenValidFor / strategy.rotationFrequency + 1
            && forall j :: 0 <= j < |vs| - 1 ==> vs[j].expiry + strategy.rotationFrequency <= vs[j + 1].expiry
  {
    RunsAreSafe(start, run, strategy);
    TidyIsShort(Run(Init(start), run, strategy).store, strategy);
  }
}
