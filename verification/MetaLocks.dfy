/**
  The table of per-key metadata locks and the sweep that trims it (disk.rs:929-984).

  A mutex is an `Arc`: its strong count is the table's entry, the clients that cloned it, and the
  snapshots of sweeps in progress. The table's own mutex makes each step below one step.
*/
module MetaLocks {
  import opened Common

  type Hash = string
  type LockId = nat
  type Tid = nat

  /** A writer: it has cloned the lock of its hash, and holds it or waits for it. */
  datatype Client = Client(hash: Hash, lock: LockId, holds: bool)

  /** A sweep: the snapshot it still has to look at, and the hashes it has marked. */
  datatype Sweep = Looking(snapshot: seq<(Hash, LockId)>, next: nat, stale: seq<Hash>) | Removing(stale: seq<Hash>)

  datatype State = State(table: map<Hash, LockId>, nextLock: LockId, clients: map<Tid, Client>, sweeps: map<Tid, Sweep>)

  const INITIAL := State(map[], 0, map[], map[])

  datatype Action =
    | Lookup(t: Tid, hash: Hash)
    | Take(t: Tid)
    | Release(t: Tid)
    | Snapshot(t: Tid, order: seq<Hash>)
    | Look(t: Tid, missing: bool)
    | Drop(t: Tid)
    | Remove(t: Tid)

  // ---------- strong counts ----------

  function ClientsOf(s: State, lock: LockId): set<Tid> {
    set t | t in s.clients && s.clients[t].lock == lock
  }

  function SnapshotsOf(s: State, lock: LockId): set<Tid> {
    set t | t in s.sweeps && s.sweeps[t].Looking? && InSnapshot(s.sweeps[t].snapshot, lock)
  }

  predicate InSnapshot(snapshot: seq<(Hash, LockId)>, lock: LockId) {
    exists i :: 0 <= i < |snapshot| && snapshot[i].1 == lock
  }

  /** `Arc::strong_count` */
  function StrongCount(s: State, lock: LockId): nat {
    (if lock in s.table.Values then 1 else 0) + |ClientsOf(s, lock)| + |SnapshotsOf(s, lock)|
  }

  // ---------- steps ----------

  function SnapshotOf(s: State, order: seq<Hash>): seq<(Hash, LockId)>
    requires forall h :: h in order ==> h in s.table
  {
    seq(|order|, i requires 0 <= i < |order| => (order[i], s.table[order[i]]))
  }

  /** The last part of a sweep: marked hashes go if nobody but the table has their lock. */
  function RemoveStale(s: State, stale: seq<Hash>): State
    decreases |stale|
  {
    if stale == [] then s
    else if stale[0] in s.table && StrongCount(s, s.table[stale[0]]) == 1
    then RemoveStale(s.(table := s.table - {stale[0]}), stale[1..])
    else RemoveStale(s, stale[1..])
  }

  function Step(s: State, a: Action): Option<State> {
    match a
    case Lookup(t, hash) =>
      if t in s.clients then None
      else if hash in s.table then Some(s.(clients := s.clients[t := Client(hash, s.table[hash], false)]))
      else Some(s.(table := s.table[hash := s.nextLock], nextLock := s.nextLock + 1,
                   clients := s.clients[t := Client(hash, s.nextLock, false)]))
    case Take(t) =>
      if t in s.clients && !s.clients[t].holds && (forall u :: u in s.clients && s.clients[u].lock == s.clients[t].lock ==> !s.clients[u].holds)
      then Some(s.(clients := s.clients[t := s.clients[t].(holds := true)]))
      else None
    case Release(t) =>
      if t in s.clients then Some(s.(clients := s.clients - {t})) else None
    case Snapshot(t, order) =>
      if t in s.sweeps || !(forall h :: h in order ==> h in s.table) then None
      else Some(s.(sweeps := s.sweeps[t := Looking(SnapshotOf(s, order), 0, [])]))
    case Look(t, missing) =>
      if t in s.sweeps && s.sweeps[t].Looking? && s.sweeps[t].next < |s.sweeps[t].snapshot|
      then
        var w := s.sweeps[t];
        var (hash, lock) := w.snapshot[w.next];
        var busy := StrongCount(s, lock) > 2;
        var stale := if !busy && (|hash| < 5 || missing) then w.stale + [hash] else w.stale;
        Some(s.(sweeps := s.sweeps[t := Looking(w.snapshot, w.next + 1, stale)]))
      else None
    case Drop(t) =>
      if t in s.sweeps && s.sweeps[t].Looking? && s.sweeps[t].next == |s.sweeps[t].snapshot|
      then Some(s.(sweeps := s.sweeps[t := Removing(s.sweeps[t].stale)]))
      else None
    case Remove(t) =>
      if t in s.sweeps && s.sweeps[t].Removing?
      then Some(RemoveStale(s.(sweeps := s.sweeps - {t}), s.sweeps[t].stale))
      else None
  }

  function Run(s: State, actions: seq<Action>): Option<State>
    decreases |actions|
  {
    if actions == [] then Some(s)
    else match Step(s, actions[0])
      case None => None
      case Some(s') => Run(s', actions[1..])
  }

  // ---------- all writers of a key share one mutex ----------

  predicate BothHold(c: Client, d: Client) {
    c.lock == d.lock && c.holds && d.holds
  }

  /** Different hashes have different locks, all of them handed out before. */
  ghost predicate TableOk(table: map<Hash, LockId>, nextLock: LockId) {
    && (forall h :: h in table ==> table[h] < nextLock)
    && (forall h, h' :: h in table && h' in table && table[h] == table[h'] ==> h == h')
  }

  /** Every client uses the lock the table has for its hash. */
  ghost predicate ClientsOk(s: State) {
    forall t :: t in s.clients ==> s.clients[t].hash in s.table && s.table[s.clients[t].hash] == s.clients[t].lock
  }

  ghost predicate HoldersOk(s: State) {
    forall t, u :: t in s.clients && u in s.clients && BothHold(s.clients[t], s.clients[u]) ==> t == u
  }

  ghost predicate Inv(s: State) {
    TableOk(s.table, s.nextLock) && ClientsOk(s) && HoldersOk(s)
  }

  /** A client is a reference, so the lock it cloned cannot look unused. */
  lemma ClientsAreCounted(s: State, t: Tid)
    requires t in s.clients && s.clients[t].hash in s.table && s.table[s.clients[t].hash] == s.clients[t].lock
    ensures StrongCount(s, s.clients[t].lock) > 1
  {
    assert t in ClientsOf(s, s.clients[t].lock);
    assert ClientsOf(s, s.clients[t].lock) != {};
  }

  lemma {:induction false} RemoveStaleKeeps(s: State, stale: seq<Hash>)
    requires Inv(s)
    ensures Inv(RemoveStale(s, stale)) && RemoveStale(s, stale).clients == s.clients
    ensures forall h :: h in RemoveStale(s, stale).table ==> h in s.table && RemoveStale(s, stale).table[h] == s.table[h]
    ensures forall h :: h in s.table && h !in RemoveStale(s, stale).table ==> h in stale
    decreases |stale|
  {
    if stale != [] {
      if stale[0] in s.table && StrongCount(s, s.table[stale[0]]) == 1 {
        forall t | t in s.clients ensures s.clients[t].hash != stale[0] { ClientsAreCounted(s, t); }
        RemoveStaleKeeps(s.(table := s.table - {stale[0]}), stale[1..]);
      } else {
        RemoveStaleKeeps(s, stale[1..]);
      }
    }
  }

  lemma LookupKeeps(s: State, t: Tid, hash: Hash)
    requires Inv(s) && Step(s, Lookup(t, hash)).Some?
    ensures Inv(Step(s, Lookup(t, hash)).value)
  {
    var s' := Step(s, Lookup(t, hash)).value;
    if hash !in s.table { NewLockKeepsTable(s.table, s.nextLock, hash); }
    assert ClientsOk(s');
    assert HoldersOk(s');
  }

  lemma NewLockKeepsTable(table: map<Hash, LockId>, nextLock: LockId, hash: Hash)
    requires TableOk(table, nextLock) && hash !in table
    ensures TableOk(table[hash := nextLock], nextLock + 1)
  {
  }

  lemma TakeKeeps(s: State, t: Tid)
    requires Inv(s) && Step(s, Take(t)).Some?
    ensures Inv(Step(s, Take(t)).value)
  {
    var s' := Step(s, Take(t)).value;
    forall u, v | u in s'.clients && v in s'.clients && BothHold(s'.clients[u], s'.clients[v]) ensures u == v {
      if u != t && v != t { assert BothHold(s.clients[u], s.clients[v]); }
    }
  }

  lemma ReleaseKeeps(s: State, t: Tid)
    requires Inv(s) && Step(s, Release(t)).Some?
    ensures Inv(Step(s, Release(t)).value)
  {
  }

  /** A sweep does not touch the clients, and the table only at its end. */
  lemma SweepStepKeeps(s: State, a: Action)
    requires Inv(s) && Step(s, a).Some? && (a.Snapshot? || a.Look? || a.Drop?)
    ensures Inv(Step(s, a).value)
  {
    var s' := Step(s, a).value;
    assert s'.table == s.table && s'.nextLock == s.nextLock && s'.clients == s.clients;
  }

  lemma StepKeeps(s: State, a: Action)
    requires Inv(s) && Step(s, a).Some?
    ensures Inv(Step(s, a).value)
  {
    if a.Remove? {
      RemoveStaleKeeps(s.(sweeps := s.sweeps - {a.t}), s.sweeps[a.t].stale);
    } else if a.Lookup? {
      LookupKeeps(s, a.t, a.hash);
    } else if a.Take? {
      TakeKeeps(s, a.t);
    } else if a.Release? {
      ReleaseKeeps(s, a.t);
    } else {
      SweepStepKeeps(s, a);
    }
  }

  lemma {:induction false} RunKeeps(s: State, actions: seq<Action>)
    requires Inv(s) && Run(s, actions).Some?
    ensures Inv(Run(s, actions).value)
    decreases |actions|
  {
    if actions != [] {
      StepKeeps(s, actions[0]);
      RunKeeps(Step(s, actions[0]).value, actions[1..]);
    }
  }

  /** Holders and waiters of one hash share one mutex, which is the one a newcomer would get, whatever sweeps run. */
  lemma OneMutexPerHash(actions: seq<Action>, s: State, t: Tid, u: Tid)
    requires Run(INITIAL, actions) == Some(s) && t in s.clients && u in s.clients
    requires s.clients[t].hash == s.clients[u].hash
    ensures s.clients[t].lock == s.clients[u].lock
    ensures s.clients[t].hash in s.table && s.table[s.clients[t].hash] == s.clients[t].lock
  {
    RunKeeps(INITIAL, actions);
  }

  /** Two writers are never both inside one key's critical section. */
  lemma MutualExclusion(actions: seq<Action>, s: State, t: Tid, u: Tid)
    requires Run(INITIAL, actions) == Some(s) && t in s.clients && u in s.clients
    requires s.clients[t].hash == s.clients[u].hash && s.clients[t].holds && s.clients[u].holds
    ensures t == u
  {
    RunKeeps(INITIAL, actions);
  }

  /** A newcomer gets the lock of its hash, to wait for it. */
  lemma NewcomersWait(actions: seq<Action>, s: State, t: Tid, hash: Hash)
    requires Run(INITIAL, actions) == Some(s) && t !in s.clients
    ensures var next := Step(s, Lookup(t, hash));
            && next.Some? && t in next.value.clients && next.value.clients[t].hash == hash && !next.value.clients[t].holds
            && hash in next.value.table && next.value.clients[t].lock == next.value.table[hash]
  {
    RunKeeps(INITIAL, actions);
  }

  /** A waiting client can take its lock, or another client of its hash holds it and can hand it over. */
  lemma NobodyIsStuck(actions: seq<Action>, s: State, t: Tid)
    requires Run(INITIAL, actions) == Some(s) && t in s.clients && !s.clients[t].holds
    ensures Step(s, Take(t)).Some? ==> Step(s, Take(t)).value.clients[t] == s.clients[t].(holds := true)
    ensures Step(s, Take(t)).None? ==>
              exists u :: u in s.clients && u != t && s.clients[u].hash == s.clients[t].hash && s.clients[u].holds && HandsOver(s, u, t)
  {
    RunKeeps(INITIAL, actions);
    if Step(s, Take(t)).None? {
      var u :| u in s.clients && s.clients[u].lock == s.clients[t].lock && s.clients[u].holds;
      assert s.clients[u].hash == s.clients[t].hash;
      HolderHandsOver(s, u, t);
    }
  }

  predicate HandsOver(s: State, u: Tid, t: Tid) {
    Step(s, Release(u)).Some? && Step(Step(s, Release(u)).value, Take(t)).Some?
  }

  lemma HolderHandsOver(s: State, u: Tid, t: Tid)
    requires Inv(s) && u in s.clients && t in s.clients && s.clients[u].lock == s.clients[t].lock && s.clients[u].holds && !s.clients[t].holds
    ensures HandsOver(s, u, t)
  {
    var s' := Step(s, Release(u)).value;
    forall v | v in s'.clients && s'.clients[v].lock == s'.clients[t].lock ensures !s'.clients[v].holds {
      assert BothHold(s.clients[u], s.clients[v]) ==> u == v;
    }
  }

  /** A sweep always has its next step. */
  lemma SweepsGoOn(actions: seq<Action>, s: State, t: Tid, missing: bool)
    requires Run(INITIAL, actions) == Some(s) && t in s.sweeps
    ensures Step(s, Look(t, missing)).Some? || Step(s, Drop(t)).Some? || Step(s, Remove(t)).Some?
  {
    SweepsAreInRange(actions, s);
  }

  /** A sweep looks at its snapshot from the front. */
  lemma {:induction false} SweepsAreInRange(actions: seq<Action>, s: State)
    requires Run(INITIAL, actions) == Some(s)
    ensures forall t :: t in s.sweeps && s.sweeps[t].Looking? ==> s.sweeps[t].next <= |s.sweeps[t].snapshot|
  {
    RangeKeeps(INITIAL, actions);
  }

  lemma {:induction false} RangeKeeps(s: State, actions: seq<Action>)
    requires Run(s, actions).Some?
    requires forall t :: t in s.sweeps && s.sweeps[t].Looking? ==> s.sweeps[t].next <= |s.sweeps[t].snapshot|
    ensures forall t :: t in Run(s, actions).value.sweeps && Run(s, actions).value.sweeps[t].Looking? ==>
              Run(s, actions).value.sweeps[t].next <= |Run(s, actions).value.sweeps[t].snapshot|
    decreases |actions|
  {
    if actions != [] {
      var s' := Step(s, actions[0]).value;
      if actions[0].Remove? { RemoveStaleSweeps(s.(sweeps := s.sweeps - {actions[0].t}), s.sweeps[actions[0].t].stale); }
      RangeKeeps(s', actions[1..]);
    }
  }

  lemma {:induction false} RemoveStaleSweeps(s: State, stale: seq<Hash>)
    ensures RemoveStale(s, stale).sweeps == s.sweeps
    decreases |stale|
  {
    if stale != [] {
      if stale[0] in s.table && StrongCount(s, s.table[stale[0]]) == 1 {
        RemoveStaleSweeps(s.(table := s.table - {stale[0]}), stale[1..]);
      } else {
        RemoveStaleSweeps(s, stale[1..]);
      }
    }
  }

  /**
    Of the hashes still in the table a sweep marks exactly those whose lock only the table and this
    sweep refer to, and whose metadata is missing or whose name is too short for one.
  */
  lemma LookMarksIff(actions: seq<Action>, s: State, t: Tid, missing: bool)
    requires Run(INITIAL, actions) == Some(s) && t in s.sweeps && s.sweeps[t].Looking? && s.sweeps[t].next < |s.sweeps[t].snapshot|
    ensures var w := s.sweeps[t];
            var (hash, lock) := w.snapshot[w.next];
            var next := Step(s, Look(t, missing));
            && next.Some? && t in next.value.sweeps
            && next.value.sweeps[t].next == w.next + 1
            && (lock in s.table.Values ==>
                  next.value.sweeps[t].stale
                  == if ClientsOf(s, lock) == {} && SnapshotsOf(s, lock) == {t} && (missing || |hash| < 5) then w.stale + [hash] else w.stale)
  {
    var w := s.sweeps[t];
    var lock := w.snapshot[w.next].1;
    assert t in SnapshotsOf(s, lock);
    OnlyOne(SnapshotsOf(s, lock), t);
  }

  lemma OnlyOne(ts: set<Tid>, t: Tid)
    requires t in ts
    ensures |ts| >= 1 && (|ts| == 1 <==> ts == {t})
  {
    assert ts == (ts - {t}) + {t};
    if |ts| == 1 { assert |ts - {t}| == 0; }
  }

  /** What a sweep takes out of the table is exactly the marked hashes that nobody uses and no other sweep is looking at. */
  lemma SweepRemovesIff(actions: seq<Action>, s: State, t: Tid, hash: Hash)
    requires Run(INITIAL, actions) == Some(s) && t in s.sweeps && s.sweeps[t].Removing? && hash in s.table
    ensures Step(s, Remove(t)).Some?
    ensures hash !in Step(s, Remove(t)).value.table <==>
              hash in s.sweeps[t].stale && ClientsOf(s, s.table[hash]) == {} && SnapshotsOf(s, s.table[hash]) == {}
  {
    RunKeeps(INITIAL, actions);
    var s0 := s.(sweeps := s.sweeps - {t});
    assert SnapshotsOf(s0, s.table[hash]) == SnapshotsOf(s, s.table[hash]);
    RemovesIff(s0, s.sweeps[t].stale, hash);
  }

  lemma {:induction false} RemovesIff(s: State, stale: seq<Hash>, hash: Hash)
    requires Inv(s) && hash in s.table
    ensures hash !in RemoveStale(s, stale).table <==>
              hash in stale && ClientsOf(s, s.table[hash]) == {} && SnapshotsOf(s, s.table[hash]) == {}
    decreases |stale|
  {
    if stale != [] {
      if stale[0] in s.table && StrongCount(s, s.table[stale[0]]) == 1 {
        forall t | t in s.clients ensures s.clients[t].hash != stale[0] { ClientsAreCounted(s, t); }
        var s' := s.(table := s.table - {stale[0]});
        if stale[0] != hash {
          assert ClientsOf(s', s.table[hash]) == ClientsOf(s, s.table[hash]);
          assert SnapshotsOf(s', s.table[hash]) == SnapshotsOf(s, s.table[hash]);
          RemovesIff(s', stale[1..], hash);
        } else {
          assert s'.table.Keys !! {hash};
          RemoveStaleKeeps(s', stale[1..]);
        }
      } else {
        RemovesIff(s, stale[1..], hash);
      }
    }
  }
}
