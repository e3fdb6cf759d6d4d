/** The bounded task pump (scan.rs:38-80), for every order in which the tasks complete. */
module Pump {

  /** How a task ends. */
  datatype Outcome<T, E> = Value(value: T) | Error(error: E) | Panicked

  datatype Result<T, E> = Ok(values: seq<T>) | Err(error: E)

  /** History: tasks are named by the position of their path. */
  datatype Event = Started(task: nat) | Joined(task: nat)

  function Alive(log: seq<Event>): int {
    if log == [] then 0 else Alive(log[..|log| - 1]) + if log[|log| - 1].Started? then 1 else -1
  }

  function Starts(log: seq<Event>): (r: seq<nat>)
    ensures |r| <= |log|
  {
    if log == [] then []
    else Starts(log[..|log| - 1]) + if log[|log| - 1].Started? then [log[|log| - 1].task] else []
  }

  function Joins(log: seq<Event>): (r: seq<nat>)
    ensures |r| <= |log|
  {
    if log == [] then []
    else Joins(log[..|log| - 1]) + if log[|log| - 1].Joined? then [log[|log| - 1].task] else []
  }

  /** 0, 1, …, n - 1 */
  function UpTo(n: nat): (r: seq<nat>)
    ensures |r| == n && forall i :: 0 <= i < n ==> r[i] == i
  {
    seq(n, i => i)
  }

  lemma Append(log: seq<Event>, e: Event)
    ensures Alive(log + [e]) == Alive(log) + if e.Started? then 1 else -1
    ensures Starts(log + [e]) == Starts(log) + if e.Started? then [e.task] else []
    ensures Joins(log + [e]) == Joins(log) + if e.Joined? then [e.task] else []
  {
    assert (log + [e])[..|log|] == log;
  }

  /** No moment of the run has more than `cap` tasks alive. */
  ghost predicate Bounded(log: seq<Event>, cap: nat) {
    forall k :: 0 <= k <= |log| ==> Alive(log[..k]) <= cap
  }

  lemma BoundedAppend(log: seq<Event>, e: Event, cap: nat)
    requires Bounded(log, cap) && Alive(log + [e]) <= cap
    ensures Bounded(log + [e], cap)
  {
    forall k | 0 <= k <= |log + [e]| ensures Alive((log + [e])[..k]) <= cap {
      if k <= |log| {
        assert (log + [e])[..k] == log[..k];
      } else {
        assert (log + [e])[..k] == log + [e];
      }
    }
  }

  /** The results are the values of the joined tasks, in the order they were joined. */
  ghost predicate ResultsOf<P, T, E>(results: seq<T>, paths: seq<P>, work: P -> Outcome<T, E>, joined: seq<nat>) {
    |results| == |joined| && forall k :: 0 <= k < |joined| ==> joined[k] < |paths| && work(paths[joined[k]]) == Value(results[k])
  }

  ghost predicate NoRepeats(s: seq<nat>) {
    forall i, j :: 0 <= i < j < |s| ==> s[i] != s[j]
  }

  ghost predicate AllTasks(joined: seq<nat>, n: nat) {
    NoRepeats(joined) && forall i :: i in joined <==> 0 <= i < n
  }

  lemma SetOfUpTo(n: nat, s: set<nat>)
    requires forall i :: i in s <==> 0 <= i < n
    ensures |s| == n
    decreases n
  {
    if n > 0 {
      SetOfUpTo(n - 1, s - {n - 1});
    }
  }

  /** Joined tasks and live tasks together are the started ones. */
  ghost predicate Tracks(joined: seq<nat>, alive: set<nat>, started: nat) {
    && NoRepeats(joined) && (forall i :: i in joined ==> i !in alive && i < started)
    && (forall i :: i in alive ==> i < started)
    && (forall i :: 0 <= i < started ==> i in joined || i in alive)
  }

  /** The history of a run so far. */
  ghost predicate Running(log: seq<Event>, alive: set<nat>, next: nat, cap: nat) {
    && Starts(log) == UpTo(next) && Alive(log) == |alive| <= cap && Bounded(log, cap)
    && Tracks(Joins(log), alive, next)
  }

  lemma StartKeeps(log: seq<Event>, alive: set<nat>, next: nat, cap: nat)
    requires Running(log, alive, next, cap) && |alive| < cap
    ensures Running(log + [Started(next)], alive + {next}, next + 1, cap)
    ensures Joins(log + [Started(next)]) == Joins(log) && |alive + {next}| == |alive| + 1
  {
    Append(log, Started(next));
    BoundedAppend(log, Started(next), cap);
    assert UpTo(next + 1) == UpTo(next) + [next];
  }

  lemma JoinKeeps(log: seq<Event>, alive: set<nat>, next: nat, cap: nat, done: nat)
    requires Running(log, alive, next, cap) && done in alive
    ensures Running(log + [Joined(done)], alive - {done}, next, cap)
    ensures Joins(log + [Joined(done)]) == Joins(log) + [done] && |alive - {done}| == |alive| - 1 < cap && done < next
  {
    Append(log, Joined(done));
    BoundedAppend(log, Joined(done), cap);
  }

  /** A failed task, and the error the caller gets for it. */
  predicate FailsWith<T(==), E(==)>(o: Outcome<T, E>, joinError: E, e: E) {
    o == Error(e) || (o.Panicked? && e == joinError)
  }

  lemma RunningEmpty(cap: nat)
    ensures Running([], {}, 0, cap)
  {
  }

  /** At the end of a run every task has been joined. */
  lemma RunningEnds(log: seq<Event>, n: nat, cap: nat)
    requires Running(log, {}, n, cap)
    ensures AllTasks(Joins(log), n) && |Joins(log)| == n
  {
    AllJoined(Joins(log), n);
  }

  /** What every run keeps, finished or not. */
  ghost predicate Orderly(log: seq<Event>, n: nat, cap: nat) {
    Bounded(log, cap) && |Starts(log)| <= n && Starts(log) == UpTo(|Starts(log)|)
  }

  lemma RunningIsOrderly(log: seq<Event>, alive: set<nat>, next: nat, n: nat, cap: nat)
    requires Running(log, alive, next, cap) && next <= n
    ensures Orderly(log, n, cap)
  {
  }

  /** The top-up before the first result. */
  method SpawnFirst(n: nat, cap: nat) returns (joinSet: set<nat>, next: nat, ghost log: seq<Event>)
    ensures next == (if n < cap then n else cap) && |joinSet| == next
    ensures Running(log, joinSet, next, cap) && Joins(log) == []
  {
    joinSet, next, log := {}, 0, [];
    RunningEmpty(cap);
    while next < n && next < cap
      invariant 0 <= next <= n && next <= cap
      invariant Running(log, joinSet, next, cap) && |joinSet| == next && Joins(log) == []
    {
      StartKeeps(log, joinSet, next, cap);
      log := log + [Started(next)];
      joinSet := joinSet + {next};
      next := next + 1;
    }
  }

  lemma ResultsAppend<P, T, E>(results: seq<T>, paths: seq<P>, work: P -> Outcome<T, E>, joined: seq<nat>, done: nat, v: T)
    requires ResultsOf(results, paths, work, joined) && done < |paths| && work(paths[done]) == Value(v)
    ensures ResultsOf(results + [v], paths, work, joined + [done])
  {
  }

  /** One `join_next`: a success is followed by one more spawn while there are paths left. */
  method JoinNext(joinSet: set<nat>, next: nat, n: nat, cap: nat, done: nat, success: bool, ghost log: seq<Event>)
    returns (joinSet': set<nat>, next': nat, ghost log': seq<Event>)
    requires Running(log, joinSet, next, cap) && done in joinSet && next <= n
    ensures Orderly(log', n, cap) && next <= next' <= n
    ensures success ==> Running(log', joinSet', next', cap) && Joins(log') == Joins(log) + [done]
    ensures success ==> next' == (if next < n then next + 1 else n) && |joinSet'| == |joinSet| - 1 + (next' - next)
    ensures !success ==> log' == log + [Joined(done)]
  {
    JoinKeeps(log, joinSet, next, cap, done);
    joinSet', next', log' := joinSet - {done}, next, log + [Joined(done)];
    RunningIsOrderly(log', joinSet', next', n, cap);
    if success && next < n {
      StartKeeps(log', joinSet', next, cap);
      joinSet', next', log' := joinSet' + {next}, next + 1, log' + [Started(next)];
      RunningIsOrderly(log', joinSet', next', n, cap);
    }
  }

  /**
    `bounded_parallel_scan`. On success there is one result for each path. In every run the paths
    are started in order and none twice, at most `cap` tasks are alive at any moment, and a failure
    is the last thing that happens: after it nothing is started and nothing more is joined.
  */
  method BoundedParallelScan<P, T(==), E(==)>(paths: seq<P>, cap: nat, work: P -> Outcome<T, E>, joinError: E)
    returns (r: Result<T, E>, ghost log: seq<Event>)
    requires cap > 0
    ensures Orderly(log, |paths|, cap)
    ensures r.Ok? ==> AllTasks(Joins(log), |paths|) && ResultsOf(r.values, paths, work, Joins(log)) && |r.values| == |paths|
    ensures r.Err? ==> log != [] && log[|log| - 1].Joined? && log[|log| - 1].task < |paths|
    ensures r.Err? ==> FailsWith(work(paths[log[|log| - 1].task]), joinError, r.error)
    ensures (forall p :: p in paths ==> work(p).Value?) ==> r.Ok?
  {
    var joinSet, next;
    joinSet, next, log := SpawnFirst(|paths|, cap);
    var results := [];
    while joinSet != {}
      invariant next <= |paths| && (joinSet == {} ==> next == |paths|)
      invariant Running(log, joinSet, next, cap)
      invariant ResultsOf(results, paths, work, Joins(log))
      decreases |paths| - next + |joinSet|, |paths| - next
    {
      var done :| done in joinSet;
      var outcome := work(paths[done]);
      ghost var joined := Joins(log);
      joinSet, next, log := JoinNext(joinSet, next, |paths|, cap, done, outcome.Value?, log);
      match outcome {
        case Value(v) =>
          ResultsAppend(results, paths, work, joined, done, v);
          results := results + [v];
        case Error(e) => return Err(e), log;
        case Panicked => return Err(joinError), log;
      }
    }
    RunningEnds(log, |paths|, cap);
    RunningIsOrderly(log, joinSet, next, |paths|, cap);
    r := Ok(results);
  }

  lemma AllJoined(joined: seq<nat>, n: nat)
    requires AllTasks(joined, n)
    ensures |joined| == n
  {
    var s := set i: nat | i in joined;
    SetOfUpTo(n, s);
    LengthIsCard(joined, s);
  }

  lemma {:induction false} LengthIsCard(joined: seq<nat>, s: set<nat>)
    requires NoRepeats(joined) && forall i :: i in s <==> i in joined
    ensures |s| == |joined|
    decreases |joined|
  {
    if joined != [] {
      var last := joined[|joined| - 1];
      var init := joined[..|joined| - 1];
      forall i ensures i in s - {last} <==> i in init {
        assert joined == init + [last];
      }
      LengthIsCard(init, s - {last});
    }
  }
}
