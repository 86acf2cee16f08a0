/**
 * Key rotation as a distributed protocol: any number of server instances, each with its own
 * key cache (server/server.go), rotating, signing and publishing over one shared record.
 *
 * Every clock reading, cache access and storage access is a separate event, so a run is any
 * interleaving of any number of operations. A storage update reads the record, runs the updater
 * with its two clock readings, and commits if nothing else was committed since the read. A storage
 * that holds a lock meanwhile has just the runs in which nobody else reads or updates in between.
 */
module KeyProtocol {
  import opened Common
  import opened Rotation

  type Instance = int
  type OpId = int

  /** What an operation wants the keys for. */
  datatype Purpose = Sign | Publish | Rotate

  /** Where an operation in flight stands, with its local variables. */
  datatype Op =
    | Loaded(inst: Instance, purpose: Purpose, cached: Option<Keys>)       // cache loaded, clock not yet read
    | Missed(inst: Instance, purpose: Purpose)                             // about to read the storage
    | Fetched(inst: Instance, purpose: Purpose, keys: Keys, at: Time)      // storage read, clock not yet read
    | Caching(inst: Instance, purpose: Purpose, keys: Keys, at: Time)      // about to overwrite the cache
    | Got(inst: Instance, purpose: Purpose, keys: Keys, at: Time)          // GetKeys has returned
    | Generated(id: KeyId)                                                 // new key made, update not begun
    | Updating(id: KeyId, keys: Keys, rev: nat)                            // storage read by the update
    | Timed(id: KeyId, keys: Keys, rev: nat, tNow: Time)                   // updater passed its clock check
    | Computed(id: KeyId, keys: Keys, rev: nat, tNow: Time, tLater: Time)  // updater returned

  datatype Event =
    | Tick(elapsed: nat)
    | Load(op: OpId, inst: Instance, purpose: Purpose)
    | CheckCache(op: OpId)
    | ReadStorage(op: OpId)
    | CheckFetched(op: OpId)
    | StoreCache(op: OpId)
    | IssueToken(op: OpId)
    | PublishKeys(op: OpId)
    | GenerateKey(op: OpId, id: KeyId)
    | BeginUpdate(op: OpId)
    | FirstReading(op: OpId)
    | SecondReading(op: OpId)
    | Commit(op: OpId)
    | Abort(op: OpId)

  /** `key` was the signing key of the record GetKeys returned, as of instant `at`. */
  datatype Fetch = Fetch(key: KeyId, at: Time)

  datatype Token = Token(key: KeyId, fetchedAt: Time, issuedAt: Time, expiry: Time)

  /** A /keys response: the record it was built from, the clock reading and the max-age in seconds. */
  datatype Publication = Publication(keys: Keys, at: Time, maxAge: int)

  datatype State = State(
    now: Time,
    store: Keys,
    rev: nat,
    caches: map<Instance, Keys>,
    ops: map<OpId, Op>,
    used: set<KeyId>,
    fetches: set<Fetch>,
    retired: seq<KeyId>,       // the keys rotations have replaced, in order
    stamps: map<KeyId, Time>,  // per retired key: the clock reading of the updater that retired it
    tokens: set<Token>,
    published: set<Publication>)

  function Init(now: Time): State {
    State(now, NO_KEYS, 0, map[], map[], {}, {}, [], map[], {}, {})
  }

  const SECOND: Time := 1_000_000_000
  const MIN_MAX_AGE: Time := 120 * SECOND

  /** The max-age of a /keys response, before it is cut to whole seconds. */
  function MaxAge(nextRotation: Time, now: Time): Time {
    if nextRotation - now < MIN_MAX_AGE then MIN_MAX_AGE else nextRotation - now
  }

  /** The keys a /keys response lists. */
  function PublicKeys(keys: Keys): set<KeyId> {
    (if keys.signingKeyPub.Some? then {keys.signingKeyPub.value} else {})
    + set v | v in keys.verificationKeys :: v.publicKey
  }

  /** What GetKeys answers at instance `i` when run without interruption in state `s`. */
  function CachedKeys(s: State, i: Instance): Keys {
    if i in s.caches && s.now < s.caches[i].nextRotation then s.caches[i] else s.store
  }

  function Recorded(fetches: set<Fetch>, keys: Keys, at: Time): set<Fetch> {
    if keys.signingKey.Some? then fetches + {Fetch(keys.signingKey.value, at)} else fetches
  }

  // The steps. Each is total: an event whose operation is not at the right point changes nothing.

  function End(s: State, o: OpId): State {
    s.(ops := s.ops - {o})
  }

  function Goto(s: State, o: OpId, op: Op): State {
    s.(ops := s.ops[o := op])
  }

  function CheckCacheStep(s: State, o: OpId, op: Op): State
    requires op.Loaded?
  {
    if op.cached.Some? && s.now < op.cached.value.nextRotation then
      Goto(s, o, Got(op.inst, op.purpose, op.cached.value, s.now))
        .(fetches := Recorded(s.fetches, op.cached.value, s.now))
    else Goto(s, o, Missed(op.inst, op.purpose))
  }

  function ReadStorageStep(s: State, o: OpId, op: Op): State
    requires op.Missed?
  {
    Goto(s, o, Fetched(op.inst, op.purpose, s.store, s.now))
      .(fetches := Recorded(s.fetches, s.store, s.now))
  }

  function CheckFetchedStep(s: State, o: OpId, op: Op): State
    requires op.Fetched?
  {
    if s.now < op.keys.nextRotation then Goto(s, o, Caching(op.inst, op.purpose, op.keys, op.at))
    else Goto(s, o, Got(op.inst, op.purpose, op.keys, op.at))
  }

  function StoreCacheStep(s: State, o: OpId, op: Op): State
    requires op.Caching?
  {
    Goto(s, o, Got(op.inst, op.purpose, op.keys, op.at)).(caches := s.caches[op.inst := op.keys])
  }

  function IssueStep(s: State, o: OpId, op: Op, strategy: Strategy): State
    requires op.Got?
  {
    if op.keys.signingKey.None? then End(s, o)
    else End(s, o).(tokens := s.tokens +
      {Token(op.keys.signingKey.value, op.at, s.now, s.now + strategy.idTokenValidFor)})
  }

  function PublishStep(s: State, o: OpId, op: Op): State
    requires op.Got?
  {
    if op.keys.signingKeyPub.None? then End(s, o)
    else End(s, o).(published := s.published +
      {Publication(op.keys, s.now, MaxAge(op.keys.nextRotation, s.now) / SECOND)})
  }

  function GenerateStep(s: State, o: OpId, op: Op, id: KeyId): State
    requires op.Got?
  {
    if s.now < op.keys.nextRotation then End(s, o)
    else if id in s.used then s
    else Goto(s, o, Generated(id)).(used := s.used + {id})
  }

  function FirstReadingStep(s: State, o: OpId, op: Op): State
    requires op.Updating?
  {
    if s.now < op.keys.nextRotation then End(s, o)
    else Goto(s, o, Timed(op.id, op.keys, op.rev, s.now))
  }

  function CommitStep(s: State, o: OpId, op: Op, strategy: Strategy): State
    requires op.Computed?
  {
    var result := Rotated(op.keys, op.id, op.tNow, op.tLater, strategy);
    if op.rev != s.rev || result.Err? then End(s, o)
    else End(s, o).(
      store := result.value,
      rev := s.rev + 1,
      retired := if s.store.signingKeyPub.Some? then s.retired + [s.store.signingKeyPub.value] else s.retired,
      stamps := if s.store.signingKeyPub.Some? then s.stamps[s.store.signingKeyPub.value := op.tNow] else s.stamps)
  }

  /** GetKeys, event by event. */
  function ReadStep(s: State, e: Event, o: OpId, op: Op): State {
    match e
    case CheckCache(_) => if op.Loaded? then CheckCacheStep(s, o, op) else s
    case ReadStorage(_) => if op.Missed? then ReadStorageStep(s, o, op) else s
    case CheckFetched(_) => if op.Fetched? then CheckFetchedStep(s, o, op) else s
    case StoreCache(_) => if op.Caching? then StoreCacheStep(s, o, op) else s
    case _ => s
  }

  /** UpdateKeys, event by event. */
  function UpdateStep(s: State, e: Event, o: OpId, op: Op, strategy: Strategy): State {
    match e
    case BeginUpdate(_) => if op.Generated? then Goto(s, o, Updating(op.id, s.store, s.rev)) else s
    case FirstReading(_) => if op.Updating? then FirstReadingStep(s, o, op) else s
    case SecondReading(_) => if op.Timed? then Goto(s, o, Computed(op.id, op.keys, op.rev, op.tNow, s.now)) else s
    case Commit(_) => if op.Computed? then CommitStep(s, o, op, strategy) else s
    case _ => s
  }

  predicate IsRead(e: Event) {
    e.CheckCache? || e.ReadStorage? || e.CheckFetched? || e.StoreCache?
  }

  predicate IsUpdate(e: Event) {
    e.BeginUpdate? || e.FirstReading? || e.SecondReading? || e.Commit?
  }

  function OpStep(s: State, e: Event, o: OpId, op: Op, strategy: Strategy): State {
    if IsRead(e) then ReadStep(s, e, o, op)
    else if IsUpdate(e) then UpdateStep(s, e, o, op, strategy)
    else match e
      case IssueToken(_) => if op.Got? && op.purpose.Sign? then IssueStep(s, o, op, strategy) else s
      case PublishKeys(_) => if op.Got? && op.purpose.Publish? then PublishStep(s, o, op) else s
      case GenerateKey(_, id) => if op.Got? && op.purpose.Rotate? then GenerateStep(s, o, op, id) else s
      case Abort(_) => End(s, o)
      case _ => s
  }

  function Step(s: State, e: Event, strategy: Strategy): State {
    match e
    case Tick(elapsed) => s.(now := s.now + elapsed)
    case Load(o, inst, purpose) =>
      if o in s.ops then s
      else Goto(s, o, Loaded(inst, purpose, if inst in s.caches then Some(s.caches[inst]) else None))
    case _ => if e.op in s.ops then OpStep(s, e, e.op, s.ops[e.op], strategy) else s
  }

  /** The state after the events of `run`, in order, from `s`. */
  function Run(s: State, run: seq<Event>, strategy: Strategy): State {
    if run == [] then s
    else Step(Run(s, run[..|run| - 1], strategy), run[|run| - 1], strategy)
  }

  /** The caching storage of one instance, undisturbed by the others. */
  class KeyCacher {
    var keys: Option<Keys>

    constructor ()
      ensures keys == None
    {
      keys := None;
    }

    /**
     * GetKeys: `t` and `t'` are its two clock readings, `stored` the storage's answer if it is asked
     * and works. A cache that is current, as every reachable one is, gives the storage's answer.
     */
    method GetKeys(t: Time, stored: Option<Keys>, t': Time) returns (r: Option<Keys>)
      requires t <= t'
      modifies this
      ensures r.Some? && r != stored ==> r == old(keys) && t < r.value.nextRotation
      ensures r.None? ==> stored.None? && !(old(keys).Some? && t < old(keys).value.nextRotation)
      ensures old(keys).Some? && stored.Some? && (old(keys) == stored || old(keys).value.nextRotation <= t) ==>
                r == stored
      ensures keys == old(keys) || (keys == stored == r && r.Some? && t' < r.value.nextRotation)
      ensures r.Some? && t' < r.value.nextRotation ==> keys == r
    {
      if keys.Some? && t < keys.value.nextRotation {
        return keys;
      }
      if stored.None? {
        return None;
      }
      if t' < stored.value.nextRotation {
        keys := stored;
      }
      return stored;
    }
  }
}
