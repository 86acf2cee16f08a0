/**
 * Why the order of fetch and retirement counts: over a storage that does not hold a lock while
 * the updater runs, a token stamped as its key was fetched can outlive the publication of that key.
 */
module KeyLateness {
  import opened Common
  import opened Rotation
  import opened KeyProtocol
  import opened KeyRuns

  const STRATEGY := Strategy(6, 5)
  const TOKEN := Token(7, 9, 9, 14)

  const FIRST_ROTATION := Rotating(0, 0, 7)
  const SECOND_ROTATION_BEGUN := [Tick(6)] + Fetching(1, 0, Rotate) + Computing(1, 8)
  const SIGNING := [Tick(3)] + Fetching(2, 0, Sign) + [IssueToken(2), Commit(1)]
  const THIRD_ROTATION := [Tick(3)] + Rotating(3, 0, 9)

  const LATE_RUN := FIRST_ROTATION + SECOND_ROTATION_BEGUN + SIGNING + THIRD_ROTATION

  /** The shared record, the clock and the operations in flight; all else is without influence below. */
  ghost predicate Looks(s: State, now: Time, store: Keys, rev: nat, ops: map<OpId, Op>, used: set<KeyId>) {
    s.now == now && s.store == store && s.rev == rev && s.ops == ops && s.used == used && s.caches == map[]
  }

  const AFTER_FIRST := Keys(Some(7), Some(7), [], 6)
  const AFTER_SECOND := Keys(Some(8), Some(8), [VerificationKey(7, 11)], 12)
  const BEGUN := map[1 := Computed(8, AFTER_FIRST, 1, 6, 6)]

  lemma FirstRotation()
    ensures Looks(Run(Init(0), FIRST_ROTATION, STRATEGY), 0, AFTER_FIRST, 1, map[], {7})
  {
    RotationRuns(Init(0), 0, 0, 7, STRATEGY);
  }

  /** After a pause, an operation fetches the record and goes on. */
  lemma FetchingLater(s: State, elapsed: nat, o: OpId, purpose: Purpose, run: seq<Event>, strategy: Strategy)
    requires o !in s.ops && 0 !in s.caches && s.store.nextRotation <= s.now + elapsed
    ensures Run(s, [Tick(elapsed)] + Fetching(o, 0, purpose) + run, strategy) ==
            Run(Answered(s.(now := s.now + elapsed), o, 0, purpose), run, strategy)
  {
    assert [Tick(elapsed)] + Fetching(o, 0, purpose) + run == [Tick(elapsed)] + (Fetching(o, 0, purpose) + run);
    Ticking(s, elapsed, Fetching(o, 0, purpose) + run, strategy);
    var t := s.(now := s.now + elapsed);
    RunConcat(t, Fetching(o, 0, purpose), run, strategy);
    FetchingReads(t, o, 0, purpose, strategy);
  }

  lemma SecondRotationBegins(s: State)
    requires Looks(s, 0, AFTER_FIRST, 1, map[], {7})
    ensures Looks(Run(s, SECOND_ROTATION_BEGUN, STRATEGY), 6, AFTER_FIRST, 1, BEGUN, {7, 8})
  {
    FetchingLater(s, 6, 1, Rotate, Computing(1, 8), STRATEGY);
    ComputingRuns(s.(now := s.now + 6), 1, 0, 8, STRATEGY);
  }

  lemma TokenIsIssued(s: State)
    requires Looks(s, 9, AFTER_FIRST, 1, BEGUN[2 := Got(0, Sign, AFTER_FIRST, 9)], {7, 8})
    ensures Looks(Step(s, IssueToken(2), STRATEGY), 9, AFTER_FIRST, 1, BEGUN, {7, 8})
    ensures TOKEN in Step(s, IssueToken(2), STRATEGY).tokens
  {
    assert s.ops - {2} == BEGUN;
  }

  lemma CommitComesLate(s: State)
    requires Looks(s, 9, AFTER_FIRST, 1, BEGUN, {7, 8})
    ensures Looks(Step(s, Commit(1), STRATEGY), 9, AFTER_SECOND, 2, map[], {7, 8})
    ensures Step(s, Commit(1), STRATEGY).tokens == s.tokens
  {
    CommitRuns(s, 1, 8, 6, STRATEGY);
    assert s.ops - {1} == map[];
    assert Unexpired(AFTER_FIRST.verificationKeys, 6) == [];
  }

  lemma SigningThenCommit(s: State)
    requires Looks(s, 6, AFTER_FIRST, 1, BEGUN, {7, 8})
    ensures Looks(Run(s, SIGNING, STRATEGY), 9, AFTER_SECOND, 2, map[], {7, 8})
    ensures TOKEN in Run(s, SIGNING, STRATEGY).tokens
  {
    FetchingLater(s, 3, 2, Sign, [IssueToken(2), Commit(1)], STRATEGY);
    var t := Answered(s.(now := s.now + 3), 2, 0, Sign);
    RunTwo(t, IssueToken(2), Commit(1), STRATEGY);
    TokenIsIssued(t);
    CommitComesLate(Step(t, IssueToken(2), STRATEGY));
  }

  lemma ThirdRotation(s: State)
    requires Looks(s, 9, AFTER_SECOND, 2, map[], {7, 8})
    ensures var s' := Run(s, THIRD_ROTATION, STRATEGY);
            && s'.now == 12 && s'.caches == map[] && s'.tokens == s.tokens
            && s'.store == Keys(Some(9), Some(9), [VerificationKey(8, 17)], 18)
  {
    Ticking(s, 3, Rotating(3, 0, 9), STRATEGY);
    RotationRuns(s.(now := 12), 3, 0, 9, STRATEGY);
    assert AFTER_SECOND.verificationKeys[..0] == [];
    assert Unexpired(AFTER_SECOND.verificationKeys, 12) == [];
  }

  /**
   * The signing key is fetched after the rotation that retires it has read its clock and before it
   * commits. The token is stamped at the same instant, and two instants before it expires no
   * instance publishes its key.
   */
  lemma LateCommitShortensLife(i: Instance)
    ensures var s := Run(Init(0), LATE_RUN, STRATEGY);
            && TOKEN in s.tokens && TOKEN.issuedAt == TOKEN.fetchedAt && s.now < TOKEN.expiry
            && TOKEN.key !in PublicKeys(CachedKeys(s, i))
  {
    RunConcat(Init(0), FIRST_ROTATION + SECOND_ROTATION_BEGUN + SIGNING, THIRD_ROTATION, STRATEGY);
    RunConcat(Init(0), FIRST_ROTATION + SECOND_ROTATION_BEGUN, SIGNING, STRATEGY);
    RunConcat(Init(0), FIRST_ROTATION, SECOND_ROTATION_BEGUN, STRATEGY);
    FirstRotation();
    SecondRotationBegins(Run(Init(0), FIRST_ROTATION, STRATEGY));
    SigningThenCommit(Run(Init(0), FIRST_ROTATION + SECOND_ROTATION_BEGUN, STRATEGY));
    ThirdRotation(Run(Init(0), FIRST_ROTATION + SECOND_ROTATION_BEGUN + SIGNING, STRATEGY));
  }
}
