/**
 * Schema migration (storage/sql/migrate.go): every instance loops, each turn one serializable
 * transaction that performs the next migration or finds none left. Any number of instances
 * may migrate at once.
 */
module Migrate {
  /** The largest number in the migrations table; no rows count as 0. */
  function MaxNum(rows: seq<int>): int {
    if rows == [] then 0
    else
      var m, last := MaxNum(rows[..|rows| - 1]), rows[|rows| - 1];
      if last > m then last else m
  }

  // ---------------------------------------------------------------- many instances

  datatype Status = Running | Finished | Failed

  /** An instance in `migrate`: the count it will return, and whether it has returned. */
  datatype Progress = Progress(count: int, status: Status)

  /** The migrations table, the statements executed and committed (by index), and the instances. */
  datatype State = State(rows: seq<int>, executed: seq<int>, instances: seq<Progress>)

  datatype Event =
    | Begin              // another instance starts to migrate
    | Turn(i: int)       // instance `i` runs its next transaction
    | Abort(i: int)      // a transaction of instance `i` fails and is rolled back

  function TurnStep(s: State, i: int, total: int): State
    requires 0 <= i < |s.instances|
  {
    var n, p := MaxNum(s.rows), s.instances[i];
    if n >= total then s.(instances := s.instances[i := p.(status := Finished)])
    else State(s.rows + [n + 1], s.executed + [n], s.instances[i := p.(count := p.count + 1)])
  }

  function Step(s: State, e: Event, total: int): State {
    match e
    case Begin => s.(instances := s.instances + [Progress(0, Running)])
    case Turn(i) => if 0 <= i < |s.instances| && s.instances[i].status.Running? then TurnStep(s, i, total) else s
    case Abort(i) =>
      if 0 <= i < |s.instances| && s.instances[i].status.Running?
      then s.(instances := s.instances[i := s.instances[i].(status := Failed)]) else s
  }

  function Run(s: State, run: seq<Event>, total: int): State {
    if run == [] then s else Step(Run(s, run[..|run| - 1], total), run[|run| - 1], total)
  }

  /** The rows of a database after migrations 1 to `n`. */
  function Upto(n: nat): seq<int> {
    seq(n, j => j + 1)
  }

  /** A database with `done` migrations behind it, nobody migrating. */
  function Start(done: nat): State {
    State(Upto(done), [], [])
  }

  function Sum(ps: seq<Progress>): int {
    if ps == [] then 0 else Sum(ps[..|ps| - 1]) + ps[|ps| - 1].count
  }

  lemma {:induction false} MaxOfUpto(n: nat)
    ensures MaxNum(Upto(n)) == n
  {
    if n != 0 {
      MaxOfUpto(n - 1);
      assert Upto(n)[..n - 1] == Upto(n - 1);
    }
  }

  lemma {:induction false} SumOfUpdate(ps: seq<Progress>, i: int, p: Progress)
    requires 0 <= i < |ps|
    ensures Sum(ps[i := p]) == Sum(ps) - ps[i].count + p.count
  {
    var init := ps[..|ps| - 1];
    if i == |ps| - 1 {
      assert ps[i := p][..|ps| - 1] == init;
    } else {
      assert ps[i := p][..|ps| - 1] == init[i := p];
      SumOfUpdate(init, i, p);
    }
  }

  /** Migrations done so far, in this run or before. */
  function Level(s: State, done: nat): int {
    done + |s.executed|
  }

  ghost predicate Inv(s: State, done: nat, total: int) {
    && s.rows == Upto(Level(s, done))
    && (forall j :: 0 <= j < |s.executed| ==> s.executed[j] == done + j)
    && (s.executed != [] ==> Level(s, done) <= total)
    && Sum(s.instances) == |s.executed|
    && (forall i :: 0 <= i < |s.instances| && s.instances[i].status.Finished? ==> total <= Level(s, done))
    && (forall i :: 0 <= i < |s.instances| ==> 0 <= s.instances[i].count)
  }

  lemma TurnKeeps(s: State, i: int, done: nat, total: int)
    requires Inv(s, done, total) && 0 <= i < |s.instances|
    ensures Inv(TurnStep(s, i, total), done, total)
  {
    MaxOfUpto(Level(s, done));
    var s' := TurnStep(s, i, total);
    SumOfUpdate(s.instances, i, s'.instances[i]);
    if s'.executed != s.executed {
      assert s'.rows == Upto(Level(s', done));
    }
  }

  lemma StepKeeps(s: State, e: Event, done: nat, total: int)
    requires Inv(s, done, total)
    ensures Inv(Step(s, e, total), done, total)
  {
    match e
    case Begin =>
      var ps := Step(s, e, total).instances;
      assert ps[..|ps| - 1] == s.instances;
    case Turn(i) =>
      if 0 <= i < |s.instances| {
        TurnKeeps(s, i, done, total);
      }
    case Abort(i) =>
      if 0 <= i < |s.instances| {
        SumOfUpdate(s.instances, i, s.instances[i].(status := Failed));
      }
  }

  lemma {:induction false} RunsKeep(run: seq<Event>, done: nat, total: int)
    ensures Inv(Run(Start(done), run, total), done, total)
  {
    if run != [] {
      RunsKeep(run[..|run| - 1], done, total);
      StepKeeps(Run(Start(done), run[..|run| - 1], total), run[|run| - 1], done, total);
    }
  }

  /**
   * However many instances migrate at once: the migrations that were pending run once each, in
   * order, and the counts returned add up to how many ran; once one instance is through, all have run.
   */
  lemma EachMigrationRunsOnce(run: seq<Event>, done: nat, total: int)
    ensures var s := Run(Start(done), run, total);
            && (forall j :: 0 <= j < |s.executed| ==> s.executed[j] == done + j)
            && Sum(s.instances) == |s.executed|
            && (s.executed != [] ==> done + |s.executed| <= total)
            && ((exists i :: 0 <= i < |s.instances| && s.instances[i].status.Finished?) && done <= total ==>
                  Sum(s.instances) == total - done)
  {
    RunsKeep(run, done, total);
  }

  // ---------------------------------------------------------------- the loops terminate

  /** Event `e` is a turn of the loop of instance `i`. */
  predicate Turns(s: State, e: Event, i: int) {
    e == Turn(i) && 0 <= i < |s.instances| && s.instances[i].status.Running?
  }

  /** How often instance `i` has gone round its loop. */
  function TurnsOf(run: seq<Event>, i: int, done: nat, total: int): nat {
    if run == [] then 0
    else
      var init := run[..|run| - 1];
      TurnsOf(init, i, done, total) + (if Turns(Run(Start(done), init, total), run[|run| - 1], i) then 1 else 0)
  }

  /** How often all instances together have. */
  function AllTurns(run: seq<Event>, done: nat, total: int): nat {
    if run == [] then 0
    else
      var init, e := run[..|run| - 1], run[|run| - 1];
      AllTurns(init, done, total) + (if e.Turn? && Turns(Run(Start(done), init, total), e, e.i) then 1 else 0)
  }

  /** Turns spent by an instance: one per migration it performed, and one to find none left. */
  function Spent(p: Progress): int {
    p.count + (if p.status.Finished? then 1 else 0)
  }

  function SumSpent(ps: seq<Progress>): int {
    if ps == [] then 0 else SumSpent(ps[..|ps| - 1]) + Spent(ps[|ps| - 1])
  }

  lemma {:induction false} SumSpentOfUpdate(ps: seq<Progress>, i: int, p: Progress)
    requires 0 <= i < |ps|
    ensures SumSpent(ps[i := p]) == SumSpent(ps) - Spent(ps[i]) + Spent(p)
  {
    var init := ps[..|ps| - 1];
    if i == |ps| - 1 {
      assert ps[i := p][..|ps| - 1] == init;
    } else {
      assert ps[i := p][..|ps| - 1] == init[i := p];
      SumSpentOfUpdate(init, i, p);
    }
  }

  lemma {:induction false} SumSpentBounds(ps: seq<Progress>)
    requires forall i :: 0 <= i < |ps| ==> 0 <= ps[i].count
    ensures 0 <= Sum(ps) && SumSpent(ps) <= Sum(ps) + |ps|
    ensures forall i :: 0 <= i < |ps| ==> ps[i].count <= Sum(ps)
  {
    if ps != [] {
      SumSpentBounds(ps[..|ps| - 1]);
      assert forall i :: 0 <= i < |ps| - 1 ==> ps[i] == ps[..|ps| - 1][i];
    }
  }

  lemma StepSpends(s: State, e: Event, total: int)
    ensures var s' := Step(s, e, total);
            && |s.instances| <= |s'.instances|
            && (forall i :: |s.instances| <= i < |s'.instances| ==> Spent(s'.instances[i]) == 0)
            && (forall i :: 0 <= i < |s.instances| ==>
                  Spent(s'.instances[i]) == Spent(s.instances[i]) + (if Turns(s, e, i) then 1 else 0))
            && SumSpent(s'.instances) == SumSpent(s.instances) + (if e.Turn? && Turns(s, e, e.i) then 1 else 0)
  {
    var s' := Step(s, e, total);
    if e.Begin? {
      assert s'.instances[..|s'.instances| - 1] == s.instances;
    } else if 0 <= e.i < |s.instances| {
      SumSpentOfUpdate(s.instances, e.i, s'.instances[e.i]);
      assert s.instances[e.i := s.instances[e.i]] == s.instances;
    }
  }

  /** The turns taken are exactly those spent. */
  lemma {:induction false} TurnsAreSpent(run: seq<Event>, done: nat, total: int)
    ensures var ps := Run(Start(done), run, total).instances;
            && (forall i :: TurnsOf(run, i, done, total) == if 0 <= i < |ps| then Spent(ps[i]) else 0)
            && AllTurns(run, done, total) == SumSpent(ps)
  {
    if run != [] {
      var init := run[..|run| - 1];
      TurnsAreSpent(init, done, total);
      StepSpends(Run(Start(done), init, total), run[|run| - 1], total);
    }
  }

  /** The migrations pending at the start. */
  function Pending(done: nat, total: int): nat {
    if done < total then total - done else 0
  }

  /**
   * Every loop terminates: an instance goes round at most once more than migrations were pending, and all
   * together at most as often as migrations were pending plus once each. An instance that has performed
   * `count` migrations has gone round that often, and once more if it is through.
   */
  lemma LoopsTerminate(run: seq<Event>, i: int, done: nat, total: int)
    ensures var ps := Run(Start(done), run, total).instances;
            && TurnsOf(run, i, done, total) <= Pending(done, total) + 1
            && AllTurns(run, done, total) <= Pending(done, total) + |ps|
            && (0 <= i < |ps| ==>
                  TurnsOf(run, i, done, total) == ps[i].count + (if ps[i].status.Finished? then 1 else 0))
  {
    RunsKeep(run, done, total);
    TurnsAreSpent(run, done, total);
    SumSpentBounds(Run(Start(done), run, total).instances);
  }

  // ---------------------------------------------------------------- later runs

  /** The state after the first `k` events. */
  function After(run: seq<Event>, k: nat, done: nat, total: int): State
    requires k <= |run|
  {
    Run(Start(done), run[..k], total)
  }

  /** Once an instance is through, nothing more is executed and newcomers count nothing. */
  lemma {:induction false} NothingLeft(run: seq<Event>, k: nat, n: nat, done: nat, total: int)
    requires k <= n <= |run| && total <= Level(After(run, k, done, total), done)
    ensures var s, s' := After(run, k, done, total), After(run, n, done, total);
            && |s.instances| <= |s'.instances| && s'.executed == s.executed
            && forall j :: |s.instances| <= j < |s'.instances| ==> s'.instances[j].count == 0
    decreases n
  {
    if k < n {
      NothingLeft(run, k, n - 1, done, total);
      assert run[..n][..n - 1] == run[..n - 1];
      RunsKeep(run[..n - 1], done, total);
      MaxOfUpto(Level(After(run, n - 1, done, total), done));
    }
  }

  /** An instance that starts after another is through returns 0, whatever else goes on. */
  lemma LaterRunsReturnZero(run: seq<Event>, k: nat, done: nat, total: int, i: int, later: int)
    requires k <= |run|
    requires var s := After(run, k, done, total); 0 <= i < |s.instances| && s.instances[i].status.Finished?
    requires |After(run, k, done, total).instances| <= later < |Run(Start(done), run, total).instances|
    ensures Run(Start(done), run, total).instances[later].count == 0
  {
    RunsKeep(run[..k], done, total);
    NothingLeft(run, k, |run|, done, total);
    assert run[..|run|] == run;
  }

  // ---------------------------------------------------------------- the loop of one instance

  class Database {
    var rows: seq<int>
    var executed: seq<int>

    constructor ()
      ensures rows == [] && executed == []
    {
      rows, executed := [], [];
    }

    /** The loop as written, undisturbed: performs exactly what is pending and returns how many that was. */
    method Migrate(total: nat) returns (i: int)
      requires rows == Upto(|rows|)
      modifies this
      ensures i == if |old(rows)| < total then total - |old(rows)| else 0
      ensures rows == Upto(|old(rows)| + i)
      ensures executed == old(executed) + seq(i, j requires 0 <= j < i => |old(rows)| + j)
    {
      i := 0;
      var done := false;
      while !done
        invariant 0 <= i && rows == Upto(|old(rows)| + i)
        invariant executed == old(executed) + seq(i, j requires 0 <= j < i => |old(rows)| + j)
        invariant 0 < i ==> |rows| <= total
        invariant done ==> total <= |rows|
        decreases total - |rows|, !done
      {
        MaxOfUpto(|rows|);
        var n := MaxNum(rows);
        if n >= total {
          done := true;
        } else {
          executed := executed + [n];
          rows := rows + [n + 1];
          i := i + 1;
        }
      }
    }
  }
}
