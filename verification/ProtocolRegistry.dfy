/** The fill table and its locks: what steps outside the metadata lock keep. */
module ProtocolRegistry {
  import opened Common
  import opened Protocol
  import opened ProtocolInvariant

  function WithPc(r: Registry, t: Tid, pc: Pc): Registry {
    r.(threads := r.threads[t := pc])
  }

  function Without(r: Registry, t: Tid): Registry {
    r.(threads := r.threads - {t})
  }

  function WithHolder(r: Registry, e: nat, h: Option<Tid>): Registry
    requires e < |r.entries|
  {
    r.(entries := r.entries[e := r.entries[e].(holder := h)])
  }

  // ---------- the table, locks aside ----------

  /** Two program points of one call with the same standing in the fill table. */
  predicate SameStanding(r: Registry, a: Pc, b: Pc) {
    && (a.IsFill() <==> b.IsFill()) && (a.IsInv() <==> b.IsInv())
    && (b.IsFill() ==> b.g == a.g && GuardOk(r, b))
    && (b.IsInv() ==> b.inv == a.inv && (Bumped(b) ==> b.inv.cut <= r.bar))
  }

  lemma TableMove(r: Registry, t: Tid, pc: Pc)
    requires TableInv(r) && t in r.threads && SameStanding(r, r.threads[t], pc)
    ensures TableInv(WithPc(r, t, pc))
  {
    assert FillThreads(WithPc(r, t, pc)) == FillThreads(r);
  }

  lemma TableHolder(r: Registry, e: nat, h: Option<Tid>)
    requires TableInv(r) && e < |r.entries|
    ensures TableInv(WithHolder(r, e, h))
  {
    var r' := WithHolder(r, e, h);
    assert FillThreads(r') == FillThreads(r);
    forall t | t in r'.threads && r'.threads[t].IsFill()
      ensures GuardOk(r', r'.threads[t])
    {
      assert GuardOk(r, r.threads[t]);
    }
  }

  lemma TableLeave(r: Registry, t: Tid)
    requires TableInv(r) && (t in r.threads ==> !r.threads[t].IsFill())
    ensures TableInv(Without(r, t))
  {
    assert FillThreads(Without(r, t)) == FillThreads(r);
  }

  lemma TableJoin(r: Registry, t: Tid, pc: Pc)
    requires TableInv(r) && (t in r.threads ==> !r.threads[t].IsFill()) && !pc.IsFill()
    requires pc.IsInv() ==> pc.inv.snap == r.active && pc.inv.cut == r.begun && !Bumped(pc)
    ensures TableInv(WithPc(r, t, pc))
  {
    assert FillThreads(WithPc(r, t, pc)) == FillThreads(r);
  }

  lemma FillStartsGuards(s: KeyState, t: Tid)
    requires RefsOk(s.reg) && GuardsOk(s.reg) && s.reg.bar <= s.reg.begun && t !in s.reg.threads
    ensures GuardsOk(BeginFill(s, t).reg)
  {
    var r, r' := s.reg, BeginFill(s, t).reg;
    forall u | u in r'.threads && r'.threads[u].IsFill()
      ensures GuardOk(r', r'.threads[u])
    {
      if u != t {
        assert u in FillThreads(r);
        assert GuardOk(r, r.threads[u]);
      }
    }
  }

  lemma FillStartsTable(s: KeyState, t: Tid)
    requires TableInv(s.reg) && t !in s.reg.threads
    ensures TableInv(BeginFill(s, t).reg)
  {
    FillStartsRefs(s, t);
    FillStartsGuards(s, t);
    FillStartsSnapshots(s, t);
    FillStartsInvs(s, t);
  }

  lemma FillStartsRefs(s: KeyState, t: Tid)
    requires RefsOk(s.reg) && t !in s.reg.threads
    ensures RefsOk(BeginFill(s, t).reg)
  {
    assert FillThreads(BeginFill(s, t).reg) == FillThreads(s.reg) + {t};
  }

  lemma FillStartsInvs(s: KeyState, t: Tid)
    requires InvsOk(s.reg) && t !in s.reg.threads
    ensures InvsOk(BeginFill(s, t).reg)
  {
  }

  lemma FillStartsSnapshots(s: KeyState, t: Tid)
    requires TableInv(s.reg) && t !in s.reg.threads
    ensures SnapshotsOk(BeginFill(s, t).reg)
  {
    var r, r' := s.reg, BeginFill(s, t).reg;
    forall i, u | i in r'.threads && u in r'.threads && r'.threads[i].IsInv() && r'.threads[u].IsFill()
                  && r'.threads[u].g.fill < r'.threads[i].inv.cut
      ensures r'.active == r'.threads[i].inv.snap
    {
      assert u != t && i != t;
      assert u in FillThreads(r);
    }
  }

  lemma FillEndsTable(s: KeyState, t: Tid)
    requires TableInv(s.reg) && t in s.reg.threads && s.reg.threads[t].Finish?
    ensures TableInv(FinishFill(s, t).reg)
  {
    var r, r' := s.reg, FinishFill(s, t).reg;
    assert t in FillThreads(r);
    assert FillThreads(r') == FillThreads(r) - {t};
    assert GuardOk(r, r.threads[t]);
    if r.entries[r.active.value].refs == 1 {
      assert |FillThreads(r')| == 0;
      assert forall u :: u in r'.threads ==> u !in FillThreads(r');
    }
    forall u | u in r'.threads && r'.threads[u].IsFill()
      ensures GuardOk(r', r'.threads[u])
    {
      assert u in FillThreads(r');
      assert GuardOk(r, r.threads[u]);
    }
  }

  // ---------- the locks ----------

  lemma LockMove(r: Registry, crit: Crit, t: Tid, pc: Pc)
    requires LockInv(r, crit) && !pc.InMeta()
    requires if t in r.threads then !r.threads[t].InMeta() && r.threads[t].CommitHeld() == pc.CommitHeld()
             else pc.CommitHeld().None?
    ensures LockInv(WithPc(r, t, pc), crit)
  {
  }

  lemma LockLeave(r: Registry, crit: Crit, t: Tid)
    requires LockInv(r, crit)
    requires t in r.threads ==> !r.threads[t].InMeta() && r.threads[t].CommitHeld().None?
    ensures LockInv(Without(r, t), crit)
  {
  }

  lemma LockTake(r: Registry, crit: Crit, t: Tid, e: nat, pc: Pc)
    requires LockInv(r, crit) && t in r.threads && e < |r.entries| && r.entries[e].holder.None?
    requires !r.threads[t].InMeta() && !pc.InMeta()
    requires r.threads[t].CommitHeld().None? && pc.CommitHeld() == Some(e)
    ensures LockInv(WithPc(WithHolder(r, e, Some(t)), t, pc), crit)
  {
  }

  lemma LockDrop(r: Registry, crit: Crit, t: Tid, e: nat, pc: Pc)
    requires LockInv(r, crit) && t in r.threads && e < |r.entries|
    requires r.threads[t].CommitHeld() == Some(e) && !r.threads[t].InMeta()
    requires pc.CommitHeld().None? && !pc.InMeta()
    ensures LockInv(WithPc(WithHolder(r, e, None), t, pc), crit)
    ensures LockInv(Without(WithHolder(r, e, None), t), crit)
  {
  }

  // ---------- one step at a time ----------

  /** A program step that touches no lock. */
  lemma MoveKeeps(r: Registry, crit: Crit, t: Tid, pc: Pc)
    requires RegInv(r, crit) && t in r.threads && SameStanding(r, r.threads[t], pc)
    requires !r.threads[t].InMeta() && !pc.InMeta() && r.threads[t].CommitHeld() == pc.CommitHeld()
    ensures RegInv(WithPc(r, t, pc), crit)
  {
    TableMove(r, t, pc);
    LockMove(r, crit, t, pc);
  }

  /** Taking the commit lock of an entry nobody holds. */
  lemma TakeCommitKeeps(r: Registry, crit: Crit, t: Tid, e: nat, pc: Pc)
    requires RegInv(r, crit) && t in r.threads && e < |r.entries| && r.entries[e].holder.None?
    requires (r.threads[t].FillWantsCommit? && r.threads[t].e == e && pc == FillWantsMeta(r.threads[t].g, e))
             || (r.threads[t].InvWantsCommit? && r.threads[t].inv.snap == Some(e) && pc == InvBumps(r.threads[t].inv))
    ensures RegInv(WithPc(WithHolder(r, e, Some(t)), t, pc), crit)
  {
    TableHolder(r, e, Some(t));
    if pc.IsFill() { assert GuardOk(r, r.threads[t]); }
    TableMove(WithHolder(r, e, Some(t)), t, pc);
    LockTake(r, crit, t, e, pc);
  }

  /** A fill gives the commit lock back. */
  lemma FillUnlocksKeeps(r: Registry, crit: Crit, t: Tid)
    requires RegInv(r, crit) && t in r.threads && r.threads[t].FillUnlocks? && r.threads[t].e < |r.entries|
    ensures RegInv(WithPc(WithHolder(r, r.threads[t].e, None), t, Finish(r.threads[t].g)), crit)
  {
    var pc := r.threads[t];
    assert GuardOk(r, pc);
    TableHolder(r, pc.e, None);
    TableMove(WithHolder(r, pc.e, None), t, Finish(pc.g));
    LockDrop(r, crit, t, pc.e, Finish(pc.g));
  }

  /** An invalidating call returns. */
  lemma InvLeavesKeeps(r: Registry, crit: Crit, t: Tid)
    requires RegInv(r, crit) && t in r.threads && r.threads[t].InvUnlocks?
    ensures var snap := r.threads[t].inv.snap;
            && (snap.Some? ==> snap.value < |r.entries|)
            && RegInv(Without(if snap.Some? then WithHolder(r, snap.value, None) else r, t), crit)
  {
    var snap := r.threads[t].inv.snap;
    if snap.Some? {
      TableHolder(r, snap.value, None);
      TableLeave(WithHolder(r, snap.value, None), t);
      LockDrop(r, crit, t, snap.value, FirstProbe);
    } else {
      TableLeave(r, t);
      LockLeave(r, crit, t);
    }
  }

  /** A call that is not a fill arrives; `pc` is its first program point. */
  lemma ArriveKeeps(r: Registry, crit: Crit, t: Tid, pc: Pc)
    requires RegInv(r, crit) && t !in r.threads
    requires pc.FirstProbe? || pc.JobWantsMeta? || (pc.InvWantsCommit? && pc.inv.snap == r.active && pc.inv.cut == r.begun)
    ensures RegInv(WithPc(r, t, pc), crit)
  {
    TableJoin(r, t, pc);
    LockMove(r, crit, t, pc);
  }

  /** A lookup gives up at its first probe. */
  lemma DepartKeeps(r: Registry, crit: Crit, t: Tid)
    requires RegInv(r, crit) && t in r.threads && r.threads[t].FirstProbe?
    ensures RegInv(Without(r, t), crit)
  {
    TableLeave(r, t);
    LockLeave(r, crit, t);
  }

  lemma FillStartsLocks(s: KeyState, t: Tid)
    requires RegInv(s.reg, s.crit) && t !in s.reg.threads
    ensures LockInv(BeginFill(s, t).reg, s.crit)
  {
    var r, r' := s.reg, BeginFill(s, t).reg;
    assert forall e :: 0 <= e < |r.entries| ==> r'.entries[e].holder == r.entries[e].holder && r'.entries[e].gen == r.entries[e].gen;
  }

  lemma FillStartsKeeps(s: KeyState, t: Tid)
    requires RegInv(s.reg, s.crit) && t !in s.reg.threads
    ensures RegInv(BeginFill(s, t).reg, s.crit)
  {
    FillStartsTable(s, t);
    FillStartsLocks(s, t);
  }

  lemma FillEndsLocks(s: KeyState, t: Tid)
    requires LockInv(s.reg, s.crit) && t in s.reg.threads && s.reg.threads[t].Finish?
    ensures LockInv(FinishFill(s, t).reg, s.crit)
  {
    var r, r' := s.reg, FinishFill(s, t).reg;
    assert |r'.entries| == |r.entries|;
    assert forall e :: 0 <= e < |r.entries| ==> r'.entries[e].holder == r.entries[e].holder && r'.entries[e].gen == r.entries[e].gen;
  }

  lemma FillEndsKeeps(s: KeyState, t: Tid)
    requires RegInv(s.reg, s.crit) && t in s.reg.threads && s.reg.threads[t].Finish?
    ensures RegInv(FinishFill(s, t).reg, s.crit)
  {
    FillEndsTable(s, t);
    FillEndsLocks(s, t);
  }

  lemma BumpTable(r: Registry, inv: Inv)
    requires TableInv(r) && inv.cut <= r.begun
    requires forall u :: u in r.threads && r.threads[u].IsFill() && r.threads[u].g.fill < inv.cut ==> r.active == inv.snap
    ensures TableInv(Bump(r, inv))
  {
    var r' := Bump(r, inv);
    assert FillThreads(r') == FillThreads(r);
    forall u | u in r'.threads && r'.threads[u].IsFill()
      ensures GuardOk(r', r'.threads[u])
    {
      assert GuardOk(r, r.threads[u]);
    }
  }

  lemma BumpLocks(r: Registry, crit: Crit, t: Tid, inv: Inv)
    requires RegInv(r, crit) && t in r.threads
    requires r.threads[t] == InvBumps(inv) || r.threads[t] == Invalidating(inv)
    ensures LockInv(Bump(r, inv), crit)
  {
    assert r.threads[t].CommitHeld() == inv.snap;
    if crit.Locked? && r.threads[crit.tid].Publishing? {
      assert GuardOk(r, r.threads[crit.tid]);
      assert r.threads[crit.tid].CommitHeld().Some?;
    }
  }

  /** The bump fences off every unfinished fill that began before the call looked the entry up. */
  lemma BumpKeeps(r: Registry, crit: Crit, t: Tid, inv: Inv)
    requires RegInv(r, crit) && t in r.threads
    requires r.threads[t] == InvBumps(inv) || r.threads[t] == Invalidating(inv)
    ensures RegInv(Bump(r, inv), crit)
    ensures Bump(r, inv).threads == r.threads && inv.cut <= Bump(r, inv).bar && r.bar <= Bump(r, inv).bar
  {
    BumpTable(r, inv);
    BumpLocks(r, crit, t, inv);
  }

  /** Taking the metadata lock. */
  lemma TakeMetaKeeps(r: Registry, t: Tid, pc: Pc, sec: Section)
    requires RegInv(r, Free) && t in r.threads && pc.InMeta()
    requires match r.threads[t]
             case FillWantsMeta(g, e) => pc == Publishing(g, e) && sec == Late
             case InvWantsMeta(inv) => pc == Invalidating(inv) && SectionFits(r, pc, sec)
             case JobWantsMeta(job) => pc == Working(job) && SectionFits(r, pc, sec)
             case _ => false
    ensures RegInv(WithPc(r, t, pc), Locked(t, sec))
  {
    if r.threads[t].IsFill() { assert GuardOk(r, r.threads[t]); }
    TableMove(r, t, pc);
    LockEnter(r, t, pc, sec);
  }

  lemma LockEnter(r: Registry, t: Tid, pc: Pc, sec: Section)
    requires LockInv(r, Free) && t in r.threads && pc.InMeta() && r.threads[t].CommitHeld() == pc.CommitHeld()
    requires SectionFits(r, pc, sec)
    ensures LockInv(WithPc(r, t, pc), Locked(t, sec))
  {
  }

  lemma LockExit(r: Registry, crit: Crit, pc: Pc)
    requires crit.Locked? && LockInv(r, crit) && !pc.InMeta()
    requires r.threads[crit.tid].CommitHeld() == pc.CommitHeld()
    ensures LockInv(WithPc(r, crit.tid, pc), Free)
    ensures pc.CommitHeld().None? ==> LockInv(Without(r, crit.tid), Free)
  {
  }

  lemma FillReleases(r: Registry, crit: Crit)
    requires crit.Locked? && RegInv(r, crit) && r.threads[crit.tid].Publishing?
    ensures var pc := r.threads[crit.tid]; RegInv(WithPc(r, crit.tid, FillUnlocks(pc.g, pc.e)), Free)
  {
    var t, pc := crit.tid, r.threads[crit.tid];
    assert GuardOk(r, pc);
    TableMove(r, t, FillUnlocks(pc.g, pc.e));
    LockExit(r, crit, FillUnlocks(pc.g, pc.e));
  }

  lemma InvReleases(r: Registry, crit: Crit, result: Result)
    requires crit.Locked? && RegInv(r, crit) && r.threads[crit.tid].Invalidating?
    ensures RegInv(WithPc(r, crit.tid, InvUnlocks(r.threads[crit.tid].inv, result)), Free)
  {
    TableMove(r, crit.tid, InvUnlocks(r.threads[crit.tid].inv, result));
    LockExit(r, crit, InvUnlocks(r.threads[crit.tid].inv, result));
  }

  lemma JobReleases(r: Registry, crit: Crit)
    requires crit.Locked? && RegInv(r, crit) && r.threads[crit.tid].Working?
    ensures RegInv(Without(r, crit.tid), Free)
  {
    TableLeave(r, crit.tid);
    LockExit(r, crit, FirstProbe);
  }

  /** Giving the metadata lock back. */
  lemma ReleaseKeeps(s: KeyState, result: Result)
    requires s.crit.Locked? && RegInv(s.reg, s.crit)
    ensures RegInv(Release(s, s.crit.tid, result).reg, Free)
  {
    match s.reg.threads[s.crit.tid] {
      case Publishing(_, _) => FillReleases(s.reg, s.crit);
      case Invalidating(_) => InvReleases(s.reg, s.crit, result);
      case Working(_) => JobReleases(s.reg, s.crit);
    }
  }
}
