/**
 * When keys are rotated: a record is replaced no earlier than a rotation period after the second clock
 * reading of the updater that wrote it, and can be replaced as soon as that.
 */
module KeySchedule {
  import opened Common
  import opened Rotation
  import opened KeyProtocol
  import opened KeySafety
  import opened KeyRuns

  lemma StepMovesOn(s: State, e: Event, strategy: Strategy)
    ensures s.published <= Step(s, e, strategy).published && s.now <= Step(s, e, strategy).now
  {
  }

  lemma {:induction false} TimePasses(start: Time, run: seq<Event>, more: seq<Event>, strategy: Strategy)
    ensures Run(Init(start), run, strategy).now <= Run(Init(start), run + more, strategy).now
  {
    if more == [] {
      assert run + more == run;
    } else {
      assert (run + more)[..|run + more| - 1] == run + more[..|more| - 1];
      TimePasses(start, run, more[..|more| - 1], strategy);
      StepMovesOn(Run(Init(start), run + more[..|more| - 1], strategy), more[|more| - 1], strategy);
    }
  }

  /** From any state a rotation can be brought about as soon as it is due. */
  lemma RotationComes(s: State, strategy: Strategy) returns (more: seq<Event>)
    requires IdsDistinct(s)
    ensures var s' := Run(s, more, strategy);
            && s'.store != s.store
            && s'.now == if s.now < s.store.nextRotation then s.store.nextRotation else s.now
  {
    var o := FreshNumber(s.ops.Keys);
    var inst := FreshNumber(s.caches.Keys);
    var id := FreshNumber(s.used);
    var wait := if s.now < s.store.nextRotation then s.store.nextRotation - s.now else 0;
    more := [Tick(wait)] + Rotating(o, inst, id);
    Ticking(s, wait, Rotating(o, inst, id), strategy);
    RotationRuns(s.(now := s.now + wait), o, inst, id, strategy);
  }

  /** What a rotation that commits leaves in the record. */
  lemma CommitsAreScheduled(start: Time, run: seq<Event>, strategy: Strategy, o: OpId)
    requires Commits(Run(Init(start), run, strategy), Commit(o))
    requires 0 <= start
    ensures var s, s' := Run(Init(start), run, strategy), Run(Init(start), run + [Commit(o)], strategy);
            && s'.store.nextRotation == s.ops[o].tLater + strategy.rotationFrequency
            && s'.store.signingKey == s'.store.signingKeyPub == Some(s.ops[o].id)
            && s'.rev == s.rev + 1 && s'.now == s.now
  {
    RunsAreSafe(start, run, strategy);
    var s := Run(Init(start), run, strategy);
    assert OpCoherent(s, s.ops[o]);
    CommitRun(start, run, strategy, o);
  }

  lemma CommitsComeDue(s: State, e: Event)
    requires Coherent(s) && Commits(s, e)
    ensures s.store.nextRotation <= s.now
  {
    assert OpCoherent(s, s.ops[e.op]);
  }

  lemma RecordStays(s: State, e: Event, strategy: Strategy)
    requires Coherent(s) && s.now < s.store.nextRotation
    ensures Step(s, e, strategy).store == s.store
  {
    OnlyCommitsRotate(s, e, strategy);
    if Commits(s, e) {
      CommitsComeDue(s, e);
      assert false;
    }
  }

  /** Until it is due, a record is not replaced. */
  lemma {:induction false} NotReplacedBeforeDue(start: Time, run: seq<Event>, more: seq<Event>, strategy: Strategy)
    requires 0 <= start
    requires Run(Init(start), run + more, strategy).now < Run(Init(start), run, strategy).store.nextRotation
    ensures Run(Init(start), run + more, strategy).store == Run(Init(start), run, strategy).store
  {
    var both := run + more;
    if more == [] {
      assert both == run;
    } else {
      assert both[..|both| - 1] == run + more[..|more| - 1];
      var s := Run(Init(start), both[..|both| - 1], strategy);
      StepMovesOn(s, both[|both| - 1], strategy);
      NotReplacedBeforeDue(start, run, more[..|more| - 1], strategy);
      RunsAreSafe(start, both[..|both| - 1], strategy);
      RecordStays(s, both[|both| - 1], strategy);
    }
  }

  /**
   * A record whose updater read its clock a second time at `t` is the stored one at least until `t` plus
   * the rotation period, however many instances try to rotate.
   */
  lemma KeptForAPeriod(start: Time, run: seq<Event>, more: seq<Event>, strategy: Strategy, o: OpId)
    requires 0 <= start && Commits(Run(Init(start), run, strategy), Commit(o))
    requires var t := Run(Init(start), run, strategy).ops[o].tLater;
             Run(Init(start), run + [Commit(o)] + more, strategy).now < t + strategy.rotationFrequency
    ensures Run(Init(start), run + [Commit(o)] + more, strategy).store ==
            Run(Init(start), run + [Commit(o)], strategy).store
  {
    CommitsAreScheduled(start, run, strategy, o);
    NotReplacedBeforeDue(start, run + [Commit(o)], more, strategy);
  }

  /** And it can be replaced just then, or at once if that has passed. */
  lemma ReplacedAfterAPeriod(start: Time, run: seq<Event>, strategy: Strategy, o: OpId) returns (more: seq<Event>)
    requires 0 <= start && Commits(Run(Init(start), run, strategy), Commit(o))
    ensures var s := Run(Init(start), run, strategy);
            var s' := Run(Init(start), run + [Commit(o)] + more, strategy);
            var due := s.ops[o].tLater + strategy.rotationFrequency;
            && s'.store != Run(Init(start), run + [Commit(o)], strategy).store
            && s'.now == if s.now < due then due else s.now
  {
    CommitsAreScheduled(start, run, strategy, o);
    RunsAreSafe(start, run + [Commit(o)], strategy);
    more := RotationComes(Run(Init(start), run + [Commit(o)], strategy), strategy);
    RunConcat(Init(start), run + [Commit(o)], more, strategy);
  }
}
