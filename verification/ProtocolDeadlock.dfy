/**
  The lock order: commit lock, then metadata lock, then the fill-id lock. `active_fills` is not among
  the waits: its guard is never held across another await (disk.rs:1103-1111, 1191-1208, 1277-1291,
  1508-1511, 1665-1676), so a holder always releases it in the step that took it.
*/
module ProtocolDeadlock {
  import opened Common
  import opened Protocol
  import opened ProtocolInvariant
  import opened ProtocolKeyStep
  import opened ProtocolTheorems

  /** The call that holds the lock call `t` of key `k` is waiting for, if it is waiting. */
  function WaitsFor(s: System, k: nat, t: Tid): Option<Holder>
    requires k < |s.keys| && t in s.keys[k].reg.threads
  {
    var ks := s.keys[k];
    var entries := ks.reg.entries;
    var pc := ks.reg.threads[t];
    if pc.FillWantsCommit? && pc.e < |entries| && entries[pc.e].holder.Some?
    then Some(Holder(k, entries[pc.e].holder.value))
    else if pc.InvWantsCommit? && pc.inv.snap.Some? && pc.inv.snap.value < |entries| && entries[pc.inv.snap.value].holder.Some?
    then Some(Holder(k, entries[pc.inv.snap.value].holder.value))
    else if WantsMeta(pc) && ks.crit.Locked?
    then Some(Holder(k, ks.crit.tid))
    else if pc.Publishing? && ks.crit.Locked? && ks.crit.sec.WantsId? && s.g.idLock.Some?
    then s.g.idLock
    else None
  }

  /** How many kinds of lock may still be ahead of a call. */
  function Level(s: KeyState, t: Tid): nat
    requires t in s.reg.threads
  {
    var pc := s.reg.threads[t];
    if pc.FillWantsCommit? || pc.InvWantsCommit? then 3
    else if WantsMeta(pc) then 2
    else if pc.Publishing? && s.crit.Locked? && s.crit.sec.WantsId? then 1
    else 0
  }

  ghost predicate Runnable(s: System, k: nat, t: Tid) {
    && k < |s.keys| && t in s.keys[k].reg.threads
    && forall c :: KeyStep(s.g, k, s.keys[k], Advance(t, c)).To?
  }

  lemma CommitHolderIsAhead(s: KeyState, e: nat)
    requires CommitLocksOk(s.reg) && e < |s.reg.entries| && s.reg.entries[e].holder.Some?
    ensures s.reg.entries[e].holder.value in s.reg.threads && Level(s, s.reg.entries[e].holder.value) < 3
  {
  }

  lemma MetaHolderIsAhead(s: KeyState)
    requires MetaLockOk(s.reg, s.crit) && s.crit.Locked?
    ensures s.crit.tid in s.reg.threads && Level(s, s.crit.tid) < 2
  {
  }

  lemma IdHolderIsAhead(g: Globals, k: nat, s: KeyState)
    requires KeyInv(g, k, s) && g.idLock.Some? && g.idLock.value.key == k
    ensures g.idLock.value.tid in s.reg.threads && Level(s, g.idLock.value.tid) < 1
  {
    assert HoldsId(s, g.idLock.value.tid);
    assert MetaLockOk(s.reg, s.crit);
  }

  /** Whoever a call waits for is in flight and strictly further along the lock order, so waiting never forms a cycle. */
  lemma WaitingDescends(n: nat, evs: seq<Event>, s: System, k: nat, t: Tid)
    requires Reachable(n, evs, s) && k < |s.keys| && t in s.keys[k].reg.threads && WaitsFor(s, k, t).Some?
    ensures var h := WaitsFor(s, k, t).value;
            && h.key < |s.keys| && h.tid in s.keys[h.key].reg.threads
            && Level(s.keys[h.key], h.tid) < Level(s.keys[k], t)
  {
    ReachableIsSafe(n, evs, s);
    SafeWaitingDescends(s, k, t);
  }

  lemma SafeWaitingDescends(s: System, k: nat, t: Tid)
    requires Safe(s) && k < |s.keys| && t in s.keys[k].reg.threads && WaitsFor(s, k, t).Some?
    ensures var h := WaitsFor(s, k, t).value;
            && h.key < |s.keys| && h.tid in s.keys[h.key].reg.threads
            && Level(s.keys[h.key], h.tid) < Level(s.keys[k], t)
  {
    var ks := s.keys[k];
    var pc := ks.reg.threads[t];
    assert KeyInv(s.g, k, ks) by { KeyIsSafe(s, k); }
    if pc.FillWantsCommit? {
      CommitHolderIsAhead(ks, pc.e);
    } else if pc.InvWantsCommit? {
      CommitHolderIsAhead(ks, pc.inv.snap.value);
    } else if WantsMeta(pc) {
      MetaHolderIsAhead(ks);
    } else {
      var j := s.g.idLock.value.key;
      assert KeyInv(s.g, j, s.keys[j]) by { KeyIsSafe(s, j); }
      IdHolderIsAhead(s.g, j, s.keys[j]);
    }
  }

  lemma OuterCallRuns(g: Globals, k: nat, s: KeyState, t: Tid, c: Choice)
    requires RegInv(s.reg, s.crit) && t in s.reg.threads && !s.reg.threads[t].InMeta()
    requires var pc := s.reg.threads[t];
             && (pc.FillWantsCommit? && pc.e < |s.reg.entries| ==> s.reg.entries[pc.e].holder.None?)
             && (pc.InvWantsCommit? && pc.inv.snap.Some? && pc.inv.snap.value < |s.reg.entries| ==>
                   s.reg.entries[pc.inv.snap.value].holder.None?)
             && (WantsMeta(pc) ==> s.crit.Free?)
    ensures OuterStep(g, s, t, c).To?
  {
    if s.reg.threads[t].IsFill() { assert GuardOk(s.reg, s.reg.threads[t]); }
  }

  lemma SectionRuns(g: Globals, k: nat, s: KeyState, c: Choice)
    requires s.crit.Locked? && s.crit.tid in s.reg.threads
    requires SectionFits(s.reg, s.reg.threads[s.crit.tid], s.crit.sec)
    requires s.crit.sec.WantsId? ==> g.idLock.None?
    ensures SectionStep(g, k, s, s.crit.tid, c).To?
  {
  }

  /** A call that waits for nobody can take its next step, whatever the environment decides. */
  lemma NotWaitingRuns(n: nat, evs: seq<Event>, s: System, k: nat, t: Tid)
    requires Reachable(n, evs, s) && k < |s.keys| && t in s.keys[k].reg.threads && WaitsFor(s, k, t).None?
    ensures Runnable(s, k, t)
  {
    ReachableIsSafe(n, evs, s);
    SafeNotWaitingRuns(s, k, t);
  }

  lemma SafeNotWaitingRuns(s: System, k: nat, t: Tid)
    requires Safe(s) && k < |s.keys| && t in s.keys[k].reg.threads && WaitsFor(s, k, t).None?
    ensures Runnable(s, k, t)
  {
    assert KeyInv(s.g, k, s.keys[k]) by { KeyIsSafe(s, k); }
    var ks := s.keys[k];
    forall c
      ensures KeyStep(s.g, k, ks, Advance(t, c)).To?
    {
      if ks.reg.threads[t].InMeta() {
        SectionRuns(s.g, k, ks, c);
      } else {
        OuterCallRuns(s.g, k, ks, t, c);
      }
    }
  }

  /** No reachable state is deadlocked: following a waiting call always ends at one that can run. */
  lemma {:induction false} NoDeadlock(n: nat, evs: seq<Event>, s: System, k: nat, t: Tid) returns (j: nat, u: Tid)
    requires Reachable(n, evs, s) && k < |s.keys| && t in s.keys[k].reg.threads
    ensures Runnable(s, j, u)
    decreases if k < |s.keys| && t in s.keys[k].reg.threads then Level(s.keys[k], t) else 0
  {
    var w := WaitsFor(s, k, t);
    if w.None? {
      NotWaitingRuns(n, evs, s, k, t);
      j, u := k, t;
    } else {
      WaitingDescends(n, evs, s, k, t);
      j, u := NoDeadlock(n, evs, s, w.value.key, w.value.tid);
    }
  }
}
