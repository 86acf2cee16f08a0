/**
 * How long a /keys response may be kept (server/handlers.go). A response promises a max-age of at
 * least two minutes, also when the next rotation is nearer than that, and then it can outlive the
 * rotation; otherwise it is accurate until it lapses.
 */
module KeyStaleness {
  import opened Common
  import opened Rotation
  import opened KeyProtocol
  import opened KeySafety
  import opened KeyRuns
  import opened KeySchedule

  /** The instant from which the response may no longer be used. */
  function Lapse(p: Publication): Time {
    p.at + p.maxAge * SECOND
  }

  /** Whatever happens after `run`, until the response lapses every instance answers what it says. */
  ghost predicate StaysAccurate(start: Time, run: seq<Event>, strategy: Strategy, p: Publication) {
    forall more, i ::
      Run(Init(start), run + more, strategy).now < Lapse(p) ==>
        CachedKeys(Run(Init(start), run + more, strategy), i) == p.keys
  }

  /** A response once given stays on record. */
  lemma {:induction false} PublishedForGood(
    start: Time, run: seq<Event>, more: seq<Event>, strategy: Strategy, p: Publication)
    requires p in Run(Init(start), run, strategy).published
    ensures p in Run(Init(start), run + more, strategy).published
  {
    if more == [] {
      assert run + more == run;
    } else {
      assert (run + more)[..|run + more| - 1] == run + more[..|more| - 1];
      PublishedForGood(start, run, more[..|more| - 1], strategy, p);
      StepMovesOn(Run(Init(start), run + more[..|more| - 1], strategy), more[|more| - 1], strategy);
    }
  }

  /** A response can be stale before it lapses if its record is gone, or due before that. */
  lemma ResponseGoesStale(start: Time, run: seq<Event>, strategy: Strategy, p: Publication, i: Instance)
    returns (more: seq<Event>)
    requires 0 <= start
    requires var s := Run(Init(start), run, strategy);
             s.now < Lapse(p) && (p.keys != s.store || p.keys.nextRotation < Lapse(p))
    ensures var s' := Run(Init(start), run + more, strategy); s'.now < Lapse(p) && CachedKeys(s', i) != p.keys
  {
    RunsAreSafe(start, run, strategy);
    var s := Run(Init(start), run, strategy);
    if p.keys != s.store {
      more := [];
      assert run + more == run;
    } else {
      more := RotationComes(s, strategy);
      RunConcat(Init(start), run, more, strategy);
    }
    CacheIsTransparent(start, run + more, strategy, i);
  }

  lemma AccurateTillRotation(
    start: Time, run: seq<Event>, more: seq<Event>, strategy: Strategy, p: Publication, i: Instance)
    requires 0 <= start && p in Run(Init(start), run, strategy).published
    requires Run(Init(start), run + more, strategy).now < p.keys.nextRotation
    ensures CachedKeys(Run(Init(start), run + more, strategy), i) == p.keys
  {
    PublishedForGood(start, run, more, strategy, p);
    RunsAreSafe(start, run + more, strategy);
  }

  /**
   * At any point of any run: a response given before stays accurate until it lapses, whatever happens,
   * if and only if it has lapsed, or its record is still the stored one and not due before it lapses.
   */
  lemma AccurateExactly(start: Time, run: seq<Event>, strategy: Strategy, p: Publication)
    requires 0 <= start && p in Run(Init(start), run, strategy).published
    ensures var s := Run(Init(start), run, strategy);
            StaysAccurate(start, run, strategy, p) <==>
            Lapse(p) <= s.now || (p.keys == s.store && Lapse(p) <= p.keys.nextRotation)
  {
    var s := Run(Init(start), run, strategy);
    if Lapse(p) <= s.now {
      forall more
        ensures s.now <= Run(Init(start), run + more, strategy).now
      {
        TimePasses(start, run, more, strategy);
      }
    } else if p.keys == s.store && Lapse(p) <= p.keys.nextRotation {
      forall more, i | Run(Init(start), run + more, strategy).now < Lapse(p)
        ensures CachedKeys(Run(Init(start), run + more, strategy), i) == p.keys
      {
        AccurateTillRotation(start, run, more, strategy, p, i);
      }
    } else {
      var more := ResponseGoesStale(start, run, strategy, p, 0);
    }
  }

  /** So a response just given stays accurate if and only if its max-age was not raised to the floor. */
  lemma RaisedResponsesGoStale(start: Time, run: seq<Event>, strategy: Strategy, p: Publication)
    requires 0 <= start
    requires var s := Run(Init(start), run, strategy); p in s.published && s.now == p.at
    ensures StaysAccurate(start, run, strategy, p) <==> MIN_MAX_AGE <= p.keys.nextRotation - p.at
  {
    RunsAreSafe(start, run, strategy);
    AccurateExactly(start, run, strategy, p);
  }

  /**
   * The max-age of every response, in whole seconds: what is left until the next rotation, rounded down,
   * and two minutes if less than that is left.
   */
  lemma MaxAgeOfResponses(start: Time, run: seq<Event>, strategy: Strategy, p: Publication)
    requires 0 <= start && p in Run(Init(start), run, strategy).published
    ensures var left := p.keys.nextRotation - p.at;
            if left < 120_000_000_000 then p.maxAge == 120
            else p.maxAge * 1_000_000_000 <= left < (p.maxAge + 1) * 1_000_000_000
  {
    RunsAreSafe(start, run, strategy);
  }

  /** So an unraised response may be kept as long as whole seconds allow, and a raised one for two minutes. */
  lemma ResponsesLapse(start: Time, run: seq<Event>, strategy: Strategy, p: Publication)
    requires 0 <= start && p in Run(Init(start), run, strategy).published
    ensures if MIN_MAX_AGE <= p.keys.nextRotation - p.at
            then p.keys.nextRotation - SECOND < Lapse(p) <= p.keys.nextRotation
            else Lapse(p) == p.at + MIN_MAX_AGE
  {
    MaxAgeOfResponses(start, run, strategy, p);
  }

  /** A /keys request that has got a record with a signing key answers that record, at the present. */
  lemma ResponseIsGiven(start: Time, run: seq<Event>, strategy: Strategy, o: OpId)
    returns (p: Publication)
    requires 0 <= start
    requires var s := Run(Init(start), run, strategy);
             o in s.ops && s.ops[o].Got? && s.ops[o].purpose.Publish? && s.ops[o].keys.signingKeyPub.Some?
    ensures var s, s' := Run(Init(start), run, strategy), Run(Init(start), run + [PublishKeys(o)], strategy);
            s'.published == s.published + {p} && p.keys == s.ops[o].keys && p.at == s.now
  {
    var s := Run(Init(start), run, strategy);
    assert (run + [PublishKeys(o)])[..|run|] == run;
    p := Publication(s.ops[o].keys, s.now, MaxAge(s.ops[o].keys.nextRotation, s.now) / SECOND);
  }

  /**
   * What a relying party needs: over a storage with a lock, a response that was not raised and has not
   * lapsed lists the key of every token that is still in its life, short of the gap between fetching
   * the key and stamping the token.
   */
  lemma UnlapsedResponseVerifies(start: Time, run: seq<Event>, strategy: Strategy, p: Publication, token: Token)
    requires 0 <= start && Locking(start, run, strategy)
    requires var s := Run(Init(start), run, strategy);
             && p in s.published && MIN_MAX_AGE <= p.keys.nextRotation - p.at && s.now < Lapse(p)
             && token in s.tokens && s.now <= token.expiry - (token.issuedAt - token.fetchedAt)
    ensures token.key in PublicKeys(p.keys)
  {
    PublishedKeysStayAccurate(start, run, strategy, p, 0);
    TokenVerifiableForLife(start, run, strategy, token, 0);
  }
}
