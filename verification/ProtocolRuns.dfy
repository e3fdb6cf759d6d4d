/** The invariant over whole runs of the system, restarts included. */
module ProtocolRuns {
  import opened Common
  import opened FillIds
  import opened Protocol
  import opened ProtocolInvariant
  import opened ProtocolSections
  import opened ProtocolKeyStep

  // ---------- other keys do not notice ----------

  lemma OthersKeep(g: Globals, g': Globals, k: nat, j: nat, s: KeyState)
    requires GlobalsOk(g) && KeyInv(g, j, s) && Extends(g, g', k) && j != k
    ensures KeyInv(g', j, s)
  {
  }

  // ---------- the statistics are the sum over the keys ----------

  lemma {:induction false} TotalUpdate(keys: seq<KeyState>, k: nat, s': KeyState)
    requires k < |keys|
    ensures Total(keys[k := s']).entries + Booked(keys[k]).entries == Total(keys).entries + Booked(s').entries
    ensures Total(keys[k := s']).bytes + Booked(keys[k]).bytes == Total(keys).bytes + Booked(s').bytes
    ensures Booked(keys[k]).entries <= Total(keys).entries && Booked(keys[k]).bytes <= Total(keys).bytes
  {
    if k == 0 {
      assert keys[k := s'][1..] == keys[1..];
    } else {
      assert keys[k := s'][1..] == keys[1..][k - 1 := s'];
      TotalUpdate(keys[1..], k - 1, s');
    }
  }

  // ---------- steps ----------

  lemma KeyEventStats(s: System, k: nat, a: Action)
    requires Safe(s) && k < |s.keys| && KeyStep(s.g, k, s.keys[k], a).To?
    ensures s.g.clean ==> Covers(s.g, s.keys[k])
    ensures var n := KeyStep(s.g, k, s.keys[k], a);
            s.g.clean && n.g.clean && Balanced(s.g, s.keys[k], n.g, n.s) ==> n.g.stats == Total(s.keys[k := n.s])
  {
    TotalUpdate(s.keys, k, KeyStep(s.g, k, s.keys[k], a).s);
  }

  lemma KeyEventKeeps(s: System, k: nat, a: Action)
    requires Safe(s) && k < |s.keys| && KeyStep(s.g, k, s.keys[k], a).To?
    ensures var n := KeyStep(s.g, k, s.keys[k], a);
            Safe(System(n.g, s.keys[k := n.s]))
  {
    KeyEventStats(s, k, a);
    KeyStepKept(s.g, k, s.keys[k], a);
    KeptIsSafe(s, k, KeyStep(s.g, k, s.keys[k], a).g, KeyStep(s.g, k, s.keys[k], a).s);
  }

  lemma KeptIsSafe(s: System, k: nat, g': Globals, s': KeyState)
    requires Safe(s) && k < |s.keys| && Kept(s.g, k, s.keys[k], g', s')
    requires g'.clean && s.g.clean && Balanced(s.g, s.keys[k], g', s') ==> g'.stats == Total(s.keys[k := s'])
    ensures Safe(System(g', s.keys[k := s']))
  {
    var keys' := s.keys[k := s'];
    forall j | 0 <= j < |keys'|
      ensures KeyInv(g', j, keys'[j])
    {
      if j != k {
        OthersKeep(s.g, g', k, j, s.keys[j]);
      }
    }
  }

  lemma {:induction false} FreeTotals(keys: seq<KeyState>)
    requires forall k :: 0 <= k < |keys| ==> keys[k].crit.Free?
    ensures Total(keys) == OnDiskTotal(keys)
  {
    if keys != [] {
      assert keys[0].crit.Free?;
      forall k | 0 <= k < |keys[1..]| ensures keys[1..][k].crit.Free? { assert keys[1..][k] == keys[k + 1]; }
      FreeTotals(keys[1..]);
    }
  }

  lemma RebootKeeps(g: Globals, g': Globals, k: nat, s: KeyState, sweep: bool)
    requires GlobalsOk(g) && KeyInv(g, k, s)
    requires g' == g.(nextId := g'.nextId, idLock := None, stats := g'.stats, clean := g'.clean) && Floor(g) <= g'.nextId
    requires g'.clean ==> Whole(Reboot(s, sweep).files.live)
    ensures KeyInv(g', k, Reboot(s, sweep))
  {
    var s' := Reboot(s, sweep);
    assert FillThreads(s'.reg) == {};
    assert FilesInv(g', k, s');
  }

  lemma StartIsSafe(g: Globals, readable: bool, scan: StartupScan)
    requires GlobalsOk(g) && LoadNextFillId(FoundCounter(g.counter, readable), scan).Start?
    ensures Floor(g) <= LoadNextFillId(FoundCounter(g.counter, readable), scan).next <= MAX_U64
  {
  }

  lemma RestartKeeps(s: System, ev: Event)
    requires Safe(s) && ev.Restart? && Step(s, ev).Reached?
    ensures Safe(Step(s, ev).s)
  {
    var s' := Step(s, ev).s;
    StartIsSafe(s.g, ev.readable, ev.scan);
    forall k | 0 <= k < |s'.keys|
      ensures KeyInv(s'.g, k, s'.keys[k])
    {
      assert KeyInv(s.g, k, s.keys[k]);
      RebootKeeps(s.g, s'.g, k, s.keys[k], k in ev.swept);
    }
    FreeTotals(s'.keys);
  }

  // ---------- a reconciliation scan makes the statistics right again ----------

  lemma ReconciledData(g: Globals, g': Globals, k: nat, s: KeyState)
    requires GlobalsOk(g) && DataInv(g, k, s) && s.crit.Free? && Undisturbed(s.reg)
    requires g' == g.(stats := g'.stats, clean := true)
    ensures DataInv(g', k, Reconciled(s))
  {
  }

  lemma ReconciledReg(s: KeyState)
    requires RegInv(s.reg, s.crit)
    ensures RegInv(Reconciled(s).reg, Reconciled(s).crit)
  {
  }

  lemma ReconcileKeeps(s: System)
    requires Safe(s) && Still(s.keys)
    ensures Safe(Step(s, Reconcile).s)
  {
    var s' := Step(s, Reconcile).s;
    forall k | 0 <= k < |s'.keys|
      ensures KeyInv(s'.g, k, s'.keys[k]) && s'.keys[k].crit.Free?
    {
      assert s.keys[k].crit.Free? && Undisturbed(s.keys[k].reg);
      assert KeyInv(s.g, k, s.keys[k]);
      ReconciledData(s.g, s'.g, k, s.keys[k]);
      ReconciledReg(s.keys[k]);
    }
    FreeTotals(s'.keys);
  }

  lemma StepKeeps(s: System, ev: Event)
    requires Safe(s) && Step(s, ev).Reached?
    ensures Safe(Step(s, ev).s) && |Step(s, ev).s.keys| == |s.keys|
  {
    match ev {
      case OnKey(k, a) => KeyEventKeeps(s, k, a);
      case Restart(_, _, _, _) => RestartKeeps(s, ev);
      case Reconcile => ReconcileKeeps(s);
    }
  }

  lemma {:induction false} TotalOfFresh(n: nat)
    ensures Total(Fresh(n).keys) == NOTHING
    decreases n
  {
    if n > 0 {
      var keys := Fresh(n).keys;
      assert keys[0] == EMPTY_KEY && Booked(EMPTY_KEY) == NOTHING;
      assert keys[1..] == Fresh(n - 1).keys;
      TotalOfFresh(n - 1);
      assert Total(keys) == Plus(Booked(keys[0]), Total(keys[1..]));
    }
  }

  lemma EmptyKeyHolds(g: Globals, k: nat)
    requires GlobalsOk(g) && g.idLock.None?
    ensures KeyInv(g, k, EMPTY_KEY)
  {
    assert FillThreads(EMPTY_KEY.reg) == {};
    assert FilesInv(g, k, EMPTY_KEY);
  }

  lemma FreshHolds(n: nat)
    ensures Safe(Fresh(n))
  {
    TotalOfFresh(n);
    forall k | 0 <= k < n
      ensures KeyInv(Fresh(n).g, k, Fresh(n).keys[k])
    {
      EmptyKeyHolds(Fresh(n).g, k);
    }
  }

  /** The invariant holds at every state of every run. */
  lemma {:induction false} RunKeeps(s: System, evs: seq<Event>)
    requires Safe(s) && Run(s, evs).Reached?
    ensures Safe(Run(s, evs).s) && |Run(s, evs).s.keys| == |s.keys|
    decreases |evs|
  {
    if evs != [] {
      StepKeeps(s, evs[0]);
      RunKeeps(Step(s, evs[0]).s, evs[1..]);
    }
  }

  // ---------- nothing recorded is taken back ----------

  lemma RemembersTransitive(a: Ledger, b: Ledger, c: Ledger)
    requires Remembers(a, b) && Remembers(b, c)
    ensures Remembers(a, c)
  {
    forall id | id in c.history && id !in a.history
      ensures a.lastId < id
    {
    }
  }

  lemma SectionRemembers(g: Globals, k: nat, s: KeyState, c: Choice)
    requires DataInv(g, k, s) && HolderFits(s) && !s.crit.sec.Done?
    requires SectionStep(g, k, s, s.crit.tid, c).To?
    ensures Remembers(s.led, SectionStep(g, k, s, s.crit.tid, c).s.led)
  {
    match s.reg.threads[s.crit.tid] {
      case Publishing(gd, _) =>
        if s.crit.sec.Pubs? { PublishRemembers(g, k, s, c); } else { FillRemembers(g, k, s, gd, c); }
      case Invalidating(inv) =>
        InvRemembers(g, s, inv, c);
      case Working(job) =>
        if job.Update? || job.Touch? { WriterRemembers(g, k, s, job, c); } else { JobRemembers(g, s, job, c); }
    }
  }

  lemma KeyStepRemembers(g: Globals, k: nat, s: KeyState, a: Action)
    requires KeyInv(g, k, s) && KeyStep(g, k, s, a).To?
    ensures Remembers(s.led, KeyStep(g, k, s, a).s.led)
  {
    if a.Advance? && s.reg.threads[a.t].InMeta() && !s.crit.sec.Done? {
      HolderKnown(s);
      SectionRemembers(g, k, s, a.c);
    } else {
      OutsideRemembers(g, k, s, a);
    }
  }

  lemma OutsideRemembers(g: Globals, k: nat, s: KeyState, a: Action)
    requires KeyStep(g, k, s, a).To?
    requires a.Advance? && s.reg.threads[a.t].InMeta() ==> s.crit.sec.Done?
    ensures KeyStep(g, k, s, a).s.led == s.led
  {
  }

  lemma StepRemembers(s: System, ev: Event, k: nat)
    requires Safe(s) && Step(s, ev).Reached? && k < |s.keys|
    ensures k < |Step(s, ev).s.keys| && Remembers(s.keys[k].led, Step(s, ev).s.keys[k].led)
  {
    if ev.OnKey? {
      KeyStepRemembers(s.g, ev.k, s.keys[ev.k], ev.a);
    }
  }

  lemma {:induction false} RunRemembers(s: System, evs: seq<Event>, k: nat)
    requires Safe(s) && Run(s, evs).Reached? && k < |s.keys|
    ensures k < |Run(s, evs).s.keys| && Remembers(s.keys[k].led, Run(s, evs).s.keys[k].led)
    decreases |evs|
  {
    if evs != [] {
      var s' := Step(s, evs[0]).s;
      StepKeeps(s, evs[0]);
      StepRemembers(s, evs[0], k);
      RunRemembers(s', evs[1..], k);
      RemembersTransitive(s.keys[k].led, s'.keys[k].led, Run(s, evs).s.keys[k].led);
    }
  }
}
