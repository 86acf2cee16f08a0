/**
 * Pieces of runs of the key protocol, and the states they lead to: an operation that fetches the
 * record when it is due, and a rotation from beginning to end.
 */
module KeyRuns {
  import opened Common
  import opened Rotation
  import opened KeyProtocol

  /** An operation finds nothing cached, reads the storage and finds the record due for rotation. */
  function Fetching(o: OpId, inst: Instance, purpose: Purpose): seq<Event> {
    [Load(o, inst, purpose), CheckCache(o), ReadStorage(o), CheckFetched(o)]
  }

  /** Such an operation makes a key and updates the record, all but the commit. */
  function Computing(o: OpId, id: KeyId): seq<Event> {
    [GenerateKey(o, id), BeginUpdate(o)] + [FirstReading(o), SecondReading(o)]
  }

  lemma {:induction false} RunConcat(s: State, a: seq<Event>, b: seq<Event>, strategy: Strategy)
    ensures Run(s, a + b, strategy) == Run(Run(s, a, strategy), b, strategy)
  {
    if b == [] {
      assert a + b == a;
    } else {
      assert (a + b)[..|a + b| - 1] == a + b[..|b| - 1];
      RunConcat(s, a, b[..|b| - 1], strategy);
    }
  }

  lemma RunOne(s: State, e: Event, strategy: Strategy)
    ensures Run(s, [e], strategy) == Step(s, e, strategy)
  {
    assert [e][..0] == [];
  }

  lemma RunTwo(s: State, e: Event, e': Event, strategy: Strategy)
    ensures Run(s, [e, e'], strategy) == Step(Step(s, e, strategy), e', strategy)
  {
    assert [e, e'] == [e] + [e'];
    RunConcat(s, [e], [e'], strategy);
    RunOne(s, e, strategy);
    RunOne(Step(s, e, strategy), e', strategy);
  }

  lemma CacheMisses(s: State, o: OpId, inst: Instance, purpose: Purpose, strategy: Strategy)
    requires o !in s.ops && inst !in s.caches
    ensures Run(s, [Load(o, inst, purpose), CheckCache(o)], strategy) == Goto(s, o, Missed(inst, purpose))
  {
    RunTwo(s, Load(o, inst, purpose), CheckCache(o), strategy);
    var t := Step(s, Load(o, inst, purpose), strategy);
    assert t.ops[o] == Loaded(inst, purpose, None);
  }

  /** `s` after operation `o` has got the stored record. */
  function Answered(s: State, o: OpId, inst: Instance, purpose: Purpose): State {
    Goto(s, o, Got(inst, purpose, s.store, s.now)).(fetches := Recorded(s.fetches, s.store, s.now))
  }

  lemma StorageAnswers(s: State, o: OpId, inst: Instance, purpose: Purpose, strategy: Strategy)
    requires o !in s.ops && s.store.nextRotation <= s.now
    ensures Run(Goto(s, o, Missed(inst, purpose)), [ReadStorage(o), CheckFetched(o)], strategy) ==
            Answered(s, o, inst, purpose)
  {
    var t := Goto(s, o, Missed(inst, purpose));
    RunTwo(t, ReadStorage(o), CheckFetched(o), strategy);
    var u := Step(t, ReadStorage(o), strategy);
    assert u.ops[o] == Fetched(inst, purpose, s.store, s.now);
  }

  lemma FetchingReads(s: State, o: OpId, inst: Instance, purpose: Purpose, strategy: Strategy)
    requires o !in s.ops && inst !in s.caches && s.store.nextRotation <= s.now
    ensures Run(s, Fetching(o, inst, purpose), strategy) == Answered(s, o, inst, purpose)
  {
    var first, second := [Load(o, inst, purpose), CheckCache(o)], [ReadStorage(o), CheckFetched(o)];
    assert Fetching(o, inst, purpose) == first + second;
    RunConcat(s, first, second, strategy);
    CacheMisses(s, o, inst, purpose, strategy);
    StorageAnswers(s, o, inst, purpose, strategy);
  }

  lemma UpdateBegins(s: State, o: OpId, inst: Instance, id: KeyId, strategy: Strategy)
    requires o in s.ops && s.ops[o] == Got(inst, Rotate, s.store, s.now)
    requires s.store.nextRotation <= s.now && id !in s.used
    ensures Run(s, [GenerateKey(o, id), BeginUpdate(o)], strategy) ==
            Goto(s, o, Updating(id, s.store, s.rev)).(used := s.used + {id})
  {
    RunTwo(s, GenerateKey(o, id), BeginUpdate(o), strategy);
    assert Step(s, GenerateKey(o, id), strategy).ops[o] == Generated(id);
  }

  lemma UpdaterRuns(s: State, o: OpId, id: KeyId, strategy: Strategy)
    requires o in s.ops && s.ops[o] == Updating(id, s.store, s.rev) && s.store.nextRotation <= s.now
    ensures Run(s, [FirstReading(o), SecondReading(o)], strategy) ==
            Goto(s, o, Computed(id, s.store, s.rev, s.now, s.now))
  {
    RunTwo(s, FirstReading(o), SecondReading(o), strategy);
    assert Step(s, FirstReading(o), strategy).ops[o] == Timed(id, s.store, s.rev, s.now);
  }

  lemma ComputingRuns(s: State, o: OpId, inst: Instance, id: KeyId, strategy: Strategy)
    requires o !in s.ops && s.store.nextRotation <= s.now && id !in s.used
    ensures var s' := Run(Answered(s, o, inst, Rotate), Computing(o, id), strategy);
            && s'.ops == s.ops[o := Computed(id, s.store, s.rev, s.now, s.now)] && s'.used == s.used + {id}
            && s' == s.(ops := s'.ops, used := s'.used, fetches := s'.fetches)
  {
    var t := Answered(s, o, inst, Rotate);
    RunConcat(t, [GenerateKey(o, id), BeginUpdate(o)], [FirstReading(o), SecondReading(o)], strategy);
    UpdateBegins(t, o, inst, id, strategy);
    UpdaterRuns(Run(t, [GenerateKey(o, id), BeginUpdate(o)], strategy), o, id, strategy);
  }

  lemma Ticking(s: State, elapsed: nat, run: seq<Event>, strategy: Strategy)
    ensures Run(s, [Tick(elapsed)] + run, strategy) == Run(s.(now := s.now + elapsed), run, strategy)
  {
    RunConcat(s, [Tick(elapsed)], run, strategy);
    RunOne(s, Tick(elapsed), strategy);
  }

  /** The record has been rotated; the operations, caches, tokens and the clock are as before. */
  ghost predicate RotatedTo(s: State, s': State, id: KeyId, tNow: Time, strategy: Strategy)
    requires s.store.nextRotation <= tNow
  {
    && s'.store == Rotated(s.store, id, tNow, tNow, strategy).value && s'.rev == s.rev + 1
    && s'.now == s.now && s'.caches == s.caches && s'.tokens == s.tokens
  }

  lemma CommitRuns(s: State, o: OpId, id: KeyId, tNow: Time, strategy: Strategy)
    requires o in s.ops && s.ops[o] == Computed(id, s.store, s.rev, tNow, tNow) && s.store.nextRotation <= tNow
    ensures var s' := Step(s, Commit(o), strategy);
            RotatedTo(s, s', id, tNow, strategy) && s'.ops == s.ops - {o} && s'.used == s.used
  {
  }

  /** A rotation from beginning to end by a new operation. */
  function Rotating(o: OpId, inst: Instance, id: KeyId): seq<Event> {
    Fetching(o, inst, Rotate) + (Computing(o, id) + [Commit(o)])
  }

  lemma RotationRuns(s: State, o: OpId, inst: Instance, id: KeyId, strategy: Strategy)
    requires o !in s.ops && inst !in s.caches && s.store.nextRotation <= s.now && id !in s.used
    ensures var s' := Run(s, Rotating(o, inst, id), strategy);
            RotatedTo(s, s', id, s.now, strategy) && s'.ops == s.ops && s'.used == s.used + {id}
  {
    RunConcat(s, Fetching(o, inst, Rotate), Computing(o, id) + [Commit(o)], strategy);
    FetchingReads(s, o, inst, Rotate, strategy);
    var t := Answered(s, o, inst, Rotate);
    RunConcat(t, Computing(o, id), [Commit(o)], strategy);
    ComputingRuns(s, o, inst, id, strategy);
    var u := Run(t, Computing(o, id), strategy);
    RunOne(u, Commit(o), strategy);
    CommitRuns(u, o, id, s.now, strategy);
    assert u.ops - {o} == s.ops;
  }

  // ---------------------------------------------------------------- what caches and early checks save

  /** A record read before it is due ends up in the cache of the instance that read it. */
  lemma ReadsAreCached(s: State, o: OpId, strategy: Strategy)
    requires o in s.ops && s.ops[o].Fetched? && s.now < s.ops[o].keys.nextRotation
    ensures var op, s' := s.ops[o], Run(s, [CheckFetched(o), StoreCache(o)], strategy);
            && op.inst in s'.caches && s'.caches[op.inst] == op.keys
            && o in s'.ops && s'.ops[o] == Got(op.inst, op.purpose, op.keys, op.at)
  {
    RunTwo(s, CheckFetched(o), StoreCache(o), strategy);
  }

  /** From then on, until it is due, an operation of that instance gets it without reading the storage. */
  lemma CachedRecordsAreServed(s: State, o: OpId, inst: Instance, purpose: Purpose, strategy: Strategy)
    requires o !in s.ops && inst in s.caches && s.now < s.caches[inst].nextRotation
    ensures var s' := Run(s, [Load(o, inst, purpose), CheckCache(o)], strategy);
            o in s'.ops && s'.ops[o] == Got(inst, purpose, s.caches[inst], s.now)
  {
    RunTwo(s, Load(o, inst, purpose), CheckCache(o), strategy);
    assert Step(s, Load(o, inst, purpose), strategy).ops[o] == Loaded(inst, purpose, Some(s.caches[inst]));
  }

  /** A rotator that finds the record not yet due makes no key and goes away. */
  lemma NotDueNotRotated(s: State, o: OpId, id: KeyId, strategy: Strategy)
    requires o in s.ops && s.ops[o].Got? && s.ops[o].purpose.Rotate? && s.now < s.ops[o].keys.nextRotation
    ensures var s' := Step(s, GenerateKey(o, id), strategy);
            o !in s'.ops && s'.used == s.used && s'.store == s.store
  {
  }
}
