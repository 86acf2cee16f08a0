/**
 * The etcd storage (storage/etcd/etcd.go): creates and deletes are single transactions, an
 * update reads, computes, and puts only if the key's revision has not moved.
 *
 * Any interleaving behaves as if every operation had run atomically at the point where it
 * completed, except that an update may be refused for a conflict, without effect.
 */
module Etcd {
  import opened Common

  type Key = string
  type Tid = int

  /** Stored documents. */
  type Value = string

  /** Computes the new document from the current one, if any; None is an error of the updater. */
  type Updater = Option<Value> -> Option<Value>

  datatype Entry = Entry(value: Value, createRev: int, modRev: int)

  datatype Operation =
    | Create(key: Key, value: Value)
    | Update(key: Key, updater: Updater)
    | Delete(key: Key)

  datatype Outcome = Done | AlreadyExists | NotFound | UpdaterFailed | Conflict

  datatype Completed = Completed(op: Operation, outcome: Outcome)

  /** An update that has read and computed, and waits for its transaction. */
  datatype Pending = Pending(key: Key, updater: Updater, read: Option<Value>, modRev: int)

  datatype State = State(kv: map<Key, Entry>, rev: int, pending: map<Tid, Pending>, log: seq<Completed>)

  const INIT := State(map[], 0, map[], [])

  datatype Event =
    | RunCreate(key: Key, value: Value)
    | RunDelete(key: Key)
    | BeginUpdate(t: Tid, key: Key, updater: Updater)
    | CommitUpdate(t: Tid)
    | Abandon(t: Tid)

  function Get(kv: map<Key, Entry>, key: Key): Option<Value> {
    if key in kv then Some(kv[key].value) else None
  }

  /** etcd reports revision 0 for a key that does not exist. */
  function ModRevision(kv: map<Key, Entry>, key: Key): int {
    if key in kv then kv[key].modRev else 0
  }

  function CreateRevision(kv: map<Key, Entry>, key: Key): int {
    if key in kv then kv[key].createRev else 0
  }

  function Put(s: State, key: Key, value: Value): State {
    var createRev := if key in s.kv then s.kv[key].createRev else s.rev + 1;
    s.(kv := s.kv[key := Entry(value, createRev, s.rev + 1)], rev := s.rev + 1)
  }

  function Logged(s: State, op: Operation, outcome: Outcome): State {
    s.(log := s.log + [Completed(op, outcome)])
  }

  function TxnCreate(s: State, key: Key, value: Value): State {
    if CreateRevision(s.kv, key) == 0 then Logged(Put(s, key, value), Create(key, value), Done)
    else Logged(s, Create(key, value), AlreadyExists)
  }

  function DeleteKey(s: State, key: Key): State {
    if key in s.kv then Logged(s.(kv := s.kv - {key}, rev := s.rev + 1), Delete(key), Done)
    else Logged(s, Delete(key), NotFound)
  }

  /** The read half of an update, with the updater run on what was read. */
  function TxnRead(s: State, t: Tid, key: Key, updater: Updater): State {
    var read := Get(s.kv, key);
    if updater(read).None? then Logged(s, Update(key, updater), UpdaterFailed)
    else s.(pending := s.pending[t := Pending(key, updater, read, ModRevision(s.kv, key))])
  }

  /** The write half: the transaction goes through only at the revision that was read. */
  function TxnPut(s: State, t: Tid): State
    requires t in s.pending && s.pending[t].updater(s.pending[t].read).Some?
  {
    var p := s.pending[t];
    var s' := s.(pending := s.pending - {t});
    if ModRevision(s.kv, p.key) == p.modRev
    then Logged(Put(s', p.key, p.updater(p.read).value), Update(p.key, p.updater), Done)
    else Logged(s', Update(p.key, p.updater), Conflict)
  }

  function Step(s: State, e: Event): State {
    match e
    case RunCreate(key, value) => TxnCreate(s, key, value)
    case RunDelete(key) => DeleteKey(s, key)
    case BeginUpdate(t, key, updater) => if t in s.pending then s else TxnRead(s, t, key, updater)
    case CommitUpdate(t) => if t in s.pending && s.pending[t].updater(s.pending[t].read).Some? then TxnPut(s, t) else s
    case Abandon(t) => s.(pending := s.pending - {t})
  }

  function Run(s: State, run: seq<Event>): State {
    if run == [] then s else Step(Run(s, run[..|run| - 1]), run[|run| - 1])
  }

  // ---------------------------------------------------------------- the atomic storage

  type Table = map<Key, Value>

  function Contents(kv: map<Key, Entry>): Table {
    map key | key in kv :: kv[key].value
  }

  function Look(docs: Table, key: Key): Option<Value> {
    if key in docs then Some(docs[key]) else None
  }

  /** One operation on a plain map, all at once. */
  function Atomically(docs: Table, op: Operation): (Table, Outcome) {
    match op
    case Create(key, value) => if key in docs then (docs, AlreadyExists) else (docs[key := value], Done)
    case Delete(key) => if key in docs then (docs - {key}, Done) else (docs, NotFound)
    case Update(key, updater) =>
      match updater(Look(docs, key))
      case None => (docs, UpdaterFailed)
      case Some(value) => (docs[key := value], Done)
  }

  /** `docs` after the logged operations, run atomically in order; operations in conflict do nothing. */
  function Replay(docs: Table, log: seq<Completed>): Table {
    if log == [] then docs
    else
      var before, last := Replay(docs, log[..|log| - 1]), log[|log| - 1];
      if last.outcome.Conflict? then before else Atomically(before, last.op).0
  }

  /** Run atomically in order, every operation has the outcome that was logged, or is an update in conflict. */
  ghost predicate Explained(docs: Table, log: seq<Completed>) {
    log == [] ||
      var init, last := log[..|log| - 1], log[|log| - 1];
      Explained(docs, init) &&
      if last.outcome.Conflict? then last.op.Update? else Atomically(Replay(docs, init), last.op).1 == last.outcome
  }

  // ---------------------------------------------------------------- linearizability

  /** If the key is still at the revision that was read, it still holds what was read. */
  ghost predicate Guarded(s: State, p: Pending) {
    && 0 <= p.modRev <= s.rev
    && (p.modRev == 0 ==> p.read.None?)
    && (ModRevision(s.kv, p.key) == p.modRev ==> Get(s.kv, p.key) == p.read)
    && p.updater(p.read).Some?
  }

  ghost predicate Consistent(s: State) {
    && 0 <= s.rev
    && (forall key :: key in s.kv ==> 0 < s.kv[key].createRev <= s.kv[key].modRev <= s.rev)
    && (forall t :: t in s.pending ==> Guarded(s, s.pending[t]))
  }

  lemma PutGuards(s: State, key: Key, value: Value, p: Pending)
    requires Consistent(s) && Guarded(s, p)
    ensures Guarded(Put(s, key, value), p)
  {
  }

  lemma CreateConsistent(s: State, key: Key, value: Value)
    requires Consistent(s)
    ensures Consistent(TxnCreate(s, key, value))
  {
    forall t | t in s.pending
      ensures Guarded(Put(s, key, value), s.pending[t])
    {
      PutGuards(s, key, value, s.pending[t]);
    }
  }

  lemma PutConsistent(s: State, t: Tid)
    requires Consistent(s) && t in s.pending
    ensures Consistent(TxnPut(s, t))
  {
    var p := s.pending[t];
    forall u | u in s.pending
      ensures Guarded(Put(s, p.key, p.updater(p.read).value), s.pending[u])
    {
      PutGuards(s, p.key, p.updater(p.read).value, s.pending[u]);
    }
  }

  lemma StepConsistent(s: State, e: Event)
    requires Consistent(s)
    ensures Consistent(Step(s, e))
  {
    match e
    case RunCreate(key, value) => CreateConsistent(s, key, value);
    case CommitUpdate(t) =>
      if t in s.pending {
        PutConsistent(s, t);
      }
    case _ =>
  }

  /** The log explains the store: in order of completion, on a plain map. */
  ghost predicate Linearized(s: State) {
    Explained(map[], s.log) && Replay(map[], s.log) == Contents(s.kv)
  }

  lemma LoggingExplains(s: State, s': State, op: Operation, outcome: Outcome)
    requires Linearized(s) && s'.log == s.log + [Completed(op, outcome)]
    requires if outcome.Conflict? then op.Update? && s'.kv == s.kv
             else Atomically(Contents(s.kv), op) == (Contents(s'.kv), outcome)
    ensures Linearized(s')
  {
    assert s'.log[..|s'.log| - 1] == s.log;
  }

  lemma CommitLinearized(s: State, t: Tid)
    requires Consistent(s) && Linearized(s) && t in s.pending
    ensures Guarded(s, s.pending[t]) && Linearized(TxnPut(s, t))
  {
    var p := s.pending[t];
    assert Look(Contents(s.kv), p.key) == Get(s.kv, p.key);
    if ModRevision(s.kv, p.key) == p.modRev {
      var value := p.updater(p.read).value;
      assert Contents(Put(s, p.key, value).kv) == Contents(s.kv)[p.key := value];
      LoggingExplains(s, TxnPut(s, t), Update(p.key, p.updater), Done);
    } else {
      LoggingExplains(s, TxnPut(s, t), Update(p.key, p.updater), Conflict);
    }
  }

  lemma StepLinearized(s: State, e: Event)
    requires Consistent(s) && Linearized(s)
    ensures Linearized(Step(s, e))
  {
    var s' := Step(s, e);
    match e
    case RunCreate(key, value) =>
      assert Contents(Put(s, key, value).kv) == Contents(s.kv)[key := value];
      LoggingExplains(s, s', Create(key, value), if key in s.kv then AlreadyExists else Done);
    case RunDelete(key) =>
      assert Contents(s.kv - {key}) == Contents(s.kv) - {key};
      LoggingExplains(s, s', Delete(key), if key in s.kv then Done else NotFound);
    case BeginUpdate(t, key, updater) =>
      assert Look(Contents(s.kv), key) == Get(s.kv, key);
      if t !in s.pending && updater(Get(s.kv, key)).None? {
        LoggingExplains(s, s', Update(key, updater), UpdaterFailed);
      }
    case CommitUpdate(t) =>
      if t in s.pending {
        CommitLinearized(s, t);
      }
    case Abandon(_) =>
  }

  /** Every interleaving equals its completed operations run atomically in the order of completion. */
  lemma {:induction false} RunsAreLinearizable(run: seq<Event>)
    ensures var s := Run(INIT, run); Consistent(s) && Linearized(s)
  {
    if run != [] {
      var s, e := Run(INIT, run[..|run| - 1]), run[|run| - 1];
      RunsAreLinearizable(run[..|run| - 1]);
      StepConsistent(s, e);
      StepLinearized(s, e);
    }
  }

  // ---------------------------------------------------------------- lost races stay lost

  /** A pending update whose key, present when it was read, has since changed. */
  ghost predicate Stale(s: State, t: Tid, p: Pending) {
    t in s.pending && s.pending[t] == p && 0 < p.modRev && ModRevision(s.kv, p.key) != p.modRev
  }

  lemma StaysStale(s: State, e: Event, t: Tid, p: Pending)
    requires Consistent(s) && Stale(s, t, p)
    ensures t in Step(s, e).pending && Step(s, e).pending[t] == p ==> Stale(Step(s, e), t, p)
  {
    assert Guarded(s, p);
  }

  /** The state after the first `n` events. */
  function After(run: seq<Event>, n: nat): State
    requires n <= |run|
  {
    Run(INIT, run[..n])
  }

  lemma AfterOneMore(run: seq<Event>, n: nat)
    requires n < |run|
    ensures After(run, n + 1) == Step(After(run, n), run[n])
  {
    assert run[..n + 1][..n] == run[..n];
  }

  /** While its update is in flight, a thread keeps what it read. */
  ghost predicate InFlight(run: seq<Event>, i: nat, j: nat, t: Tid, p: Pending)
    requires i <= j <= |run|
  {
    forall n :: i <= n <= j ==> t in After(run, n).pending && After(run, n).pending[t] == p
  }

  lemma StaleOneMore(run: seq<Event>, n: nat, t: Tid, p: Pending)
    requires n < |run| && Stale(After(run, n), t, p)
    requires t in After(run, n + 1).pending && After(run, n + 1).pending[t] == p
    ensures Stale(After(run, n + 1), t, p)
  {
    AfterOneMore(run, n);
    RunsAreLinearizable(run[..n]);
    StaysStale(After(run, n), run[n], t, p);
  }

  lemma {:induction false} StaysStaleInFlight(run: seq<Event>, i: nat, j: nat, t: Tid, p: Pending)
    requires i <= j <= |run| && InFlight(run, i, j, t, p)
    requires Stale(After(run, i), t, p)
    ensures Stale(After(run, j), t, p)
    decreases j
  {
    if i < j {
      StaysStaleInFlight(run, i, j - 1, t, p);
      StaleOneMore(run, j - 1, t, p);
    }
  }

  lemma StaleConflicts(s: State, t: Tid, p: Pending)
    requires Consistent(s) && Stale(s, t, p)
    ensures Step(s, CommitUpdate(t)).log == s.log + [Completed(Update(p.key, p.updater), Conflict)]
    ensures Step(s, CommitUpdate(t)).kv == s.kv
  {
    assert Guarded(s, p);
  }

  /** However its key changes in between, even deleted and created again, an overtaken update ends in conflict. */
  lemma OvertakenUpdateConflicts(run: seq<Event>, i: nat, j: nat, t: Tid, p: Pending)
    requires i <= j <= |run| && InFlight(run, i, j, t, p)
    requires Stale(After(run, i), t, p)
    ensures Stale(After(run, j), t, p)
    ensures Step(After(run, j), CommitUpdate(t)).log ==
            After(run, j).log + [Completed(Update(p.key, p.updater), Conflict)]
  {
    StaysStaleInFlight(run, i, j, t, p);
    RunsAreLinearizable(run[..j]);
    StaleConflicts(After(run, j), t, p);
  }

  /** Of two updates that read the same revision of a document, once one commits the other is overtaken. */
  lemma OneUpdatePerRevision(s: State, t: Tid, u: Tid)
    requires Consistent(s) && t in s.pending && u in s.pending && t != u
    requires s.pending[t].key == s.pending[u].key && 0 < s.pending[t].modRev == s.pending[u].modRev
    requires ModRevision(s.kv, s.pending[t].key) == s.pending[t].modRev
    ensures Stale(Step(s, CommitUpdate(t)), u, s.pending[u])
  {
    assert Guarded(s, s.pending[t]);
  }

  /** So along any run, of the updates that read one revision of a document at most one commits. */
  lemma OneCommitPerRevision(run: seq<Event>, i: nat, j: nat, t: Tid, u: Tid, p: Pending)
    requires i < j <= |run| && run[i] == CommitUpdate(t) && t != u
    requires InFlight(run, i, j, u, p) && 0 < p.modRev
    requires var s := After(run, i);
             t in s.pending && s.pending[t].key == p.key && s.pending[t].modRev == p.modRev == ModRevision(s.kv, p.key)
    ensures After(run, i + 1).log ==
            After(run, i).log + [Completed(Update(p.key, After(run, i).pending[t].updater), Done)]
    ensures Step(After(run, j), CommitUpdate(u)).log ==
            After(run, j).log + [Completed(Update(p.key, p.updater), Conflict)]
  {
    RunsAreLinearizable(run[..i]);
    var s := After(run, i);
    assert Guarded(s, s.pending[t]);
    AfterOneMore(run, i);
    OneUpdatePerRevision(s, t, u);
    OvertakenUpdateConflicts(run, i + 1, j, u, p);
  }

  // ---------------------------------------------------------------- etcd and the memory storage

  /** One operation on the memory storage: an update of a missing document never reaches the updater. */
  function InMemory(docs: Table, op: Operation): (Table, Outcome) {
    match op
    case Create(key, value) => if key in docs then (docs, AlreadyExists) else (docs[key := value], Done)
    case Delete(key) => if key !in docs then (docs, NotFound) else (docs - {key}, Done)
    case Update(key, updater) =>
      if key !in docs then (docs, NotFound)
      else if updater(Some(docs[key])).None? then (docs, UpdaterFailed)
      else (docs[key := updater(Some(docs[key])).value], Done)
  }

  /** What the memory storage holds after the logged operations, those in conflict left out. */
  function MemoryReplay(docs: Table, log: seq<Completed>): Table {
    if log == [] then docs
    else
      var before, last := MemoryReplay(docs, log[..|log| - 1]), log[|log| - 1];
      if last.outcome.Conflict? then before else InMemory(before, last.op).0
  }

  /** On the memory storage every logged operation not in conflict has the outcome that was logged. */
  ghost predicate MemoryExplains(docs: Table, log: seq<Completed>) {
    log == [] ||
      var init, last := log[..|log| - 1], log[|log| - 1];
      MemoryExplains(docs, init)
      && (last.outcome.Conflict? || InMemory(MemoryReplay(docs, init), last.op).1 == last.outcome)
  }

  /** Every logged update not in conflict found its document, the operations run atomically in order. */
  ghost predicate FoundAll(docs: Table, log: seq<Completed>) {
    log == [] ||
      var init, last := log[..|log| - 1], log[|log| - 1];
      FoundAll(docs, init)
      && (last.op.Update? && !last.outcome.Conflict? ==> last.op.key in Replay(docs, init))
  }

  lemma {:induction false} ReplaysAgree(docs: Table, log: seq<Completed>)
    requires Explained(docs, log)
    ensures MemoryExplains(docs, log) <==> FoundAll(docs, log)
    ensures FoundAll(docs, log) ==> MemoryReplay(docs, log) == Replay(docs, log)
  {
    if log != [] {
      ReplaysAgree(docs, log[..|log| - 1]);
    }
  }

  /**
   * The memory storage gives the operations of a run the same outcomes, and ends with the same contents,
   * if and only if no update that was not in conflict found its document missing.
   */
  lemma AgreesWithMemory(run: seq<Event>)
    ensures var s := Run(INIT, run);
            MemoryExplains(map[], s.log) && MemoryReplay(map[], s.log) == Contents(s.kv) <==> FoundAll(map[], s.log)
  {
    RunsAreLinearizable(run);
    ReplaysAgree(map[], Run(INIT, run).log);
  }
}
