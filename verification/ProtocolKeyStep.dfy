/** Every step on a key keeps the key's invariant. */
module ProtocolKeyStep {
  import opened Common
  import opened Protocol
  import opened ProtocolInvariant
  import opened ProtocolSections
  import opened ProtocolRegistry

  // ---------- the fill table and the locks ----------

  /** Every step inside the metadata lock, the late bump aside, only moves its holder along. */
  lemma SectionMoves(g: Globals, k: nat, s: KeyState, c: Choice)
    requires s.crit.Locked? && s.crit.tid in s.reg.threads && !s.crit.sec.Done? && !s.crit.sec.LateBump?
    requires SectionFits(s.reg, s.reg.threads[s.crit.tid], s.crit.sec)
    requires s.reg.threads[s.crit.tid].Publishing? ==> GuardOk(s.reg, s.reg.threads[s.crit.tid])
    requires SectionStep(g, k, s, s.crit.tid, c).To?
    ensures Moved(s, SectionStep(g, k, s, s.crit.tid, c).s)
  {
    match s.reg.threads[s.crit.tid] {
      case Publishing(gd, _) =>
        if s.crit.sec.Pubs? {
          PublishFits(g, k, s, c);
        } else if s.crit.sec.Unbook? || s.crit.sec.Book? || s.crit.sec.Unpoison? {
          SettleFits(g, k, s, c);
        } else {
          ReserveFits(g, k, s, gd, c);
        }
      case Invalidating(inv) =>
        if s.crit.sec.Check? || s.crit.sec.OrphanBody? {
          CheckFits(g, k, s, inv, c);
        } else if s.crit.sec.MarkMemory? || s.crit.sec.MarkDisk? {
          PoisonFits(g, k, s, inv, c);
        } else {
          PurgeFits(g, k, s, inv, c);
        }
      case Working(job) =>
        match job {
          case Update(_, _) => WriterFits(g, k, s, job, c);
          case Touch(_, _) => WriterFits(g, k, s, job, c);
          case Lookup => LookupFits(g, k, s, c);
          case Evict(_, _) => EvictFits(g, k, s, job, c);
          case TidyBody => TidyFits(g, k, s, job, c);
          case TidyMarker => TidyFits(g, k, s, job, c);
          case TidyMeta => TidyFits(g, k, s, job, c);
        }
    }
  }

  lemma LateBumpReg(g: Globals, s: KeyState, inv: Inv, c: Choice)
    requires RegInv(s.reg, s.crit) && s.crit.Locked? && s.crit.sec.LateBump?
    requires s.reg.threads[s.crit.tid] == Invalidating(inv)
    ensures var s' := CheckSection(g, s, inv, c).s;
            RegInv(s'.reg, s'.crit) && s.reg.bar <= s'.reg.bar
  {
    BumpKeeps(s.reg, s.crit, s.crit.tid, inv);
    MovedKeepsReg(s.(reg := Bump(s.reg, inv)), CheckSection(g, s, inv, c).s);
  }

  lemma SectionReg(g: Globals, k: nat, s: KeyState, c: Choice)
    requires RegInv(s.reg, s.crit) && s.crit.Locked? && !s.crit.sec.Done?
    requires SectionStep(g, k, s, s.crit.tid, c).To?
    ensures var s' := SectionStep(g, k, s, s.crit.tid, c).s;
            RegInv(s'.reg, s'.crit) && s.reg.bar <= s'.reg.bar
  {
    if s.crit.sec.LateBump? {
      LateBumpReg(g, s, s.reg.threads[s.crit.tid].inv, c);
    } else {
      SectionMoves(g, k, s, c);
      MovedKeepsReg(s, SectionStep(g, k, s, s.crit.tid, c).s);
    }
  }

  /** The generation checks of commit_fill made outside the locks only move the fill along. */
  lemma FillMoves(g: Globals, s: KeyState, t: Tid, c: Choice)
    requires RegInv(s.reg, s.crit) && t in s.reg.threads && (s.reg.threads[t].Held? || s.reg.threads[t].PrePublish?)
    ensures OuterStep(g, s, t, c).To? && RegInv(OuterStep(g, s, t, c).s.reg, s.crit)
  {
    var pc := s.reg.threads[t];
    assert GuardOk(s.reg, pc);
    MoveKeeps(s.reg, s.crit, t,
      if c.ok && CurrentGen(s.reg) == pc.g.gen then (if pc.Held? then PrePublish(pc.g) else CloneEntry(pc.g)) else Finish(pc.g));
  }

  /** The key of an unfinished fill has an entry, so the "fill entry missing" branch is never taken (disk.rs:1259-1266). */
  lemma EntryIsPresent(g: Globals, s: KeyState, t: Tid, c: Choice)
    requires RegInv(s.reg, s.crit) && t in s.reg.threads && s.reg.threads[t].CloneEntry?
    ensures var gd := s.reg.threads[t].g;
            && OuterStep(g, s, t, c) == To(g, SetPc(s, t, FillWantsCommit(gd, gd.entry)))
            && RegInv(OuterStep(g, s, t, c).s.reg, s.crit)
  {
    var gd := s.reg.threads[t].g;
    assert GuardOk(s.reg, s.reg.threads[t]);
    MoveKeeps(s.reg, s.crit, t, FillWantsCommit(gd, gd.entry));
  }

  lemma FillReg(g: Globals, s: KeyState, t: Tid, c: Choice)
    requires RegInv(s.reg, s.crit) && t in s.reg.threads && s.reg.threads[t].IsFill() && !s.reg.threads[t].FillWantsMeta?
    requires OuterStep(g, s, t, c).To?
    ensures RegInv(OuterStep(g, s, t, c).s.reg, s.crit)
  {
    var pc := s.reg.threads[t];
    if pc.FillWantsCommit? {
      TakeCommitKeeps(s.reg, s.crit, t, pc.e, FillWantsMeta(pc.g, pc.e));
    } else if pc.FillUnlocks? {
      FillUnlocksKeeps(s.reg, s.crit, t);
    } else if pc.Finish? {
      FillEndsKeeps(s, t);
    } else if pc.CloneEntry? {
      EntryIsPresent(g, s, t, c);
    } else {
      FillMoves(g, s, t, c);
    }
  }

  lemma BumpMoves(r: Registry, crit: Crit, t: Tid, inv: Inv)
    requires RegInv(r, crit) && t in r.threads && r.threads[t] == InvBumps(inv)
    ensures RegInv(WithPc(Bump(r, inv), t, InvWantsMeta(inv)), crit) && r.bar <= Bump(r, inv).bar
  {
    BumpKeeps(r, crit, t, inv);
    MoveKeeps(Bump(r, inv), crit, t, InvWantsMeta(inv));
  }

  lemma InvBumpsIs(g: Globals, s: KeyState, t: Tid, c: Choice)
    requires t in s.reg.threads && s.reg.threads[t].InvBumps?
    ensures var inv := s.reg.threads[t].inv;
            OuterStep(g, s, t, c) == To(g, s.(reg := WithPc(if inv.expected.None? then Bump(s.reg, inv) else s.reg, t, InvWantsMeta(inv))))
  {
  }

  lemma InvBumpsReg(g: Globals, s: KeyState, t: Tid, c: Choice)
    requires RegInv(s.reg, s.crit) && t in s.reg.threads && s.reg.threads[t].InvBumps?
    ensures OuterStep(g, s, t, c).To? && RegInv(OuterStep(g, s, t, c).s.reg, s.crit) && s.reg.bar <= OuterStep(g, s, t, c).s.reg.bar
  {
    var inv := s.reg.threads[t].inv;
    InvBumpsIs(g, s, t, c);
    if inv.expected.None? {
      BumpMoves(s.reg, s.crit, t, inv);
    } else {
      MoveKeeps(s.reg, s.crit, t, InvWantsMeta(inv));
    }
  }

  lemma InvReturnsReg(g: Globals, s: KeyState, t: Tid, c: Choice)
    requires RegInv(s.reg, s.crit) && t in s.reg.threads && s.reg.threads[t].InvUnlocks?
    ensures OuterStep(g, s, t, c).To? && RegInv(OuterStep(g, s, t, c).s.reg, s.crit) && s.reg.bar <= OuterStep(g, s, t, c).s.reg.bar
  {
    InvLeavesKeeps(s.reg, s.crit, t);
    var snap := s.reg.threads[t].inv.snap;
    assert OuterStep(g, s, t, c).To?;
    assert OuterStep(g, s, t, c).s.reg == Without(if snap.Some? then WithHolder(s.reg, snap.value, None) else s.reg, t);
  }

  lemma InvTakesReg(g: Globals, s: KeyState, t: Tid, c: Choice)
    requires RegInv(s.reg, s.crit) && t in s.reg.threads && s.reg.threads[t].InvWantsCommit?
    requires OuterStep(g, s, t, c).To?
    ensures RegInv(OuterStep(g, s, t, c).s.reg, s.crit) && s.reg.bar <= OuterStep(g, s, t, c).s.reg.bar
  {
    var inv := s.reg.threads[t].inv;
    if inv.snap.Some? {
      TakeCommitKeeps(s.reg, s.crit, t, inv.snap.value, InvBumps(inv));
    } else {
      MoveKeeps(s.reg, s.crit, t, InvBumps(inv));
    }
  }

  lemma InvReg(g: Globals, s: KeyState, t: Tid, c: Choice)
    requires RegInv(s.reg, s.crit) && t in s.reg.threads && s.reg.threads[t].IsInv() && !s.reg.threads[t].InvWantsMeta?
    requires OuterStep(g, s, t, c).To?
    ensures RegInv(OuterStep(g, s, t, c).s.reg, s.crit) && s.reg.bar <= OuterStep(g, s, t, c).s.reg.bar
  {
    var pc := s.reg.threads[t];
    if pc.InvBumps? {
      InvBumpsReg(g, s, t, c);
    } else if pc.InvUnlocks? {
      InvReturnsReg(g, s, t, c);
    } else {
      InvTakesReg(g, s, t, c);
    }
  }

  lemma ProbeReg(g: Globals, s: KeyState, t: Tid, c: Choice)
    requires RegInv(s.reg, s.crit) && t in s.reg.threads && s.reg.threads[t].FirstProbe?
    ensures OuterStep(g, s, t, c).To? && RegInv(OuterStep(g, s, t, c).s.reg, s.crit)
  {
    if !c.ok || s.files.inMemory || s.files.marker {
      DepartKeeps(s.reg, s.crit, t);
    } else {
      MoveKeeps(s.reg, s.crit, t, JobWantsMeta(Lookup));
    }
    assert OuterStep(g, s, t, c).To?;
    assert OuterStep(g, s, t, c).s.reg ==
      if !c.ok || s.files.inMemory || s.files.marker then Without(s.reg, t) else WithPc(s.reg, t, JobWantsMeta(Lookup));
  }

  predicate WantsMeta(pc: Pc) {
    pc.FillWantsMeta? || pc.InvWantsMeta? || pc.JobWantsMeta?
  }

  lemma EnterReg(g: Globals, s: KeyState, t: Tid, c: Choice)
    requires RegInv(s.reg, s.crit) && t in s.reg.threads && s.crit.Free? && WantsMeta(s.reg.threads[t])
    ensures OuterStep(g, s, t, c).To?
    ensures RegInv(OuterStep(g, s, t, c).s.reg, OuterStep(g, s, t, c).s.crit)
  {
    var n := OuterStep(g, s, t, c);
    TakeMetaKeeps(s.reg, t, n.s.reg.threads[t], n.s.crit.sec);
  }

  lemma OuterReg(g: Globals, s: KeyState, t: Tid, c: Choice)
    requires RegInv(s.reg, s.crit) && t in s.reg.threads && !s.reg.threads[t].InMeta()
    requires OuterStep(g, s, t, c).To?
    ensures var s' := OuterStep(g, s, t, c).s;
            RegInv(s'.reg, s'.crit) && s.reg.bar <= s'.reg.bar
  {
    var pc := s.reg.threads[t];
    if WantsMeta(pc) {
      EnterReg(g, s, t, c);
    } else if pc.IsFill() {
      FillReg(g, s, t, c);
    } else if pc.IsInv() {
      InvReg(g, s, t, c);
    } else {
      ProbeReg(g, s, t, c);
    }
  }

  lemma StartReg(g: Globals, k: nat, s: KeyState, a: Action)
    requires RegInv(s.reg, s.crit) && !a.Advance? && KeyStep(g, k, s, a).To?
    ensures RegInv(KeyStep(g, k, s, a).s.reg, s.crit)
  {
    match a {
      case StartFill(t) => FillStartsKeeps(s, t);
      case StartInv(t, kind, expected) =>
        ArriveKeeps(s.reg, s.crit, t, InvWantsCommit(Inv(kind, expected, s.reg.active, s.reg.begun)));
      case StartLookup(t) => ArriveKeeps(s.reg, s.crit, t, FirstProbe);
      case StartJob(t, job) => ArriveKeeps(s.reg, s.crit, t, JobWantsMeta(job));
    }
  }

  /** The fill table and the locks stay consistent in every step, whatever the files do. */
  lemma RegStep(g: Globals, k: nat, s: KeyState, a: Action)
    requires RegInv(s.reg, s.crit) && KeyStep(g, k, s, a).To?
    ensures var s' := KeyStep(g, k, s, a).s;
            RegInv(s'.reg, s'.crit) && s.reg.bar <= s'.reg.bar
  {
    if !a.Advance? {
      StartReg(g, k, s, a);
    } else if !s.reg.threads[a.t].InMeta() {
      OuterReg(g, s, a.t, a.c);
    } else if s.crit.sec.Done? {
      ReleaseKeeps(s, s.crit.sec.result);
    } else {
      SectionReg(g, k, s, a.c);
    }
  }

  // ---------- files, results and statistics: steps outside the metadata lock ----------

  /** The files, the ledger and the shared state stay put while calls come, go and take locks. */
  lemma FilesFrame(g: Globals, g': Globals, k: nat, s: KeyState, s': KeyState)
    requires GlobalsOk(g) && FilesInv(g, k, s) && s'.files == s.files && s'.led == s.led
    requires g' == g.(clean := g'.clean) && (g'.clean ==> g.clean) && s.reg.bar <= s'.reg.bar
    requires s'.crit == s.crit
             || (s.crit.Free? && s'.crit.Locked? && SectionOk(g', k, s'))
             || (s.crit.Locked? && s.crit.sec.Done? && s'.crit.Free?)
    ensures FilesInv(g', k, s') && Extends(g, g', k)
  {
  }

  lemma CleanFrame(s: KeyState, s': KeyState)
    requires s'.crit == s.crit && s'.files == s.files && s'.led == s.led
    ensures Booked(s') == Booked(s) && (CleanOk(s) ==> CleanOk(s'))
  {
  }

  /** Only the call `t`, which does not hold the metadata lock, moved, and it does not report a result. */
  ghost predicate OnlyCall(g: Globals, s: KeyState, g': Globals, s': KeyState, t: Tid) {
    && g' == g.(clean := g'.clean) && (g'.clean ==> g.clean)
    && s'.crit == s.crit && s'.files == s.files && s'.led == s.led
    && (forall u :: u in s.reg.threads && u != t ==> u in s'.reg.threads && s'.reg.threads[u] == s.reg.threads[u])
    && (forall u :: u in s'.reg.threads && u != t ==> u in s.reg.threads)
    && (t in s'.reg.threads ==> !s'.reg.threads[t].InvUnlocks? && !s'.reg.threads[t].Working?)
    && (g'.clean && t in s'.reg.threads && s'.reg.threads[t].JobWantsMeta? ==>
          var job := s'.reg.threads[t].job; job.Update? || job.Touch? || job.Lookup?)
  }

  lemma OnlyCallData(g: Globals, k: nat, s: KeyState, g': Globals, s': KeyState, t: Tid)
    requires GlobalsOk(g) && DataInv(g, k, s) && OnlyCall(g, s, g', s', t) && s.reg.bar <= s'.reg.bar
    requires s.crit.Locked? ==> s.crit.tid != t && s.crit.tid in s.reg.threads
    ensures DataInv(g', k, s') && Extends(g, g', k) && Booked(s') == Booked(s)
  {
    FilesFrame(g, g', k, s, s');
    CleanFrame(s, s');
  }

  lemma FillOnlyCall(g: Globals, s: KeyState, t: Tid, c: Choice)
    requires t in s.reg.threads && s.reg.threads[t].IsFill() && !s.reg.threads[t].FillWantsMeta?
    requires OuterStep(g, s, t, c).To?
    ensures OnlyCall(g, s, OuterStep(g, s, t, c).g, OuterStep(g, s, t, c).s, t)
  {
  }

  lemma InvOnlyCall(g: Globals, s: KeyState, t: Tid, c: Choice)
    requires t in s.reg.threads && s.reg.threads[t].IsInv() && !s.reg.threads[t].InvWantsMeta?
    requires OuterStep(g, s, t, c).To?
    ensures OnlyCall(g, s, OuterStep(g, s, t, c).g, OuterStep(g, s, t, c).s, t)
  {
  }

  lemma ProbeOnlyCall(g: Globals, s: KeyState, t: Tid, c: Choice)
    requires t in s.reg.threads && s.reg.threads[t].FirstProbe?
    requires OuterStep(g, s, t, c).To?
    ensures OnlyCall(g, s, OuterStep(g, s, t, c).g, OuterStep(g, s, t, c).s, t)
  {
  }

  lemma StartOnlyCall(g: Globals, k: nat, s: KeyState, a: Action)
    requires !a.Advance? && KeyStep(g, k, s, a).To?
    ensures OnlyCall(g, s, KeyStep(g, k, s, a).g, KeyStep(g, k, s, a).s, a.t)
  {
  }

  lemma EnterClean(g: Globals, k: nat, s: KeyState, t: Tid, c: Choice)
    requires t in s.reg.threads && s.crit.Free? && WantsMeta(s.reg.threads[t])
    ensures var n := OuterStep(g, s, t, c);
            && n.To? && SectionOk(g, k, n.s) && Booked(n.s) == Booked(s)
            && (CleanOk(s) && Undisturbed(s.reg) ==> CleanOk(n.s))
  {
  }

  lemma EnterResults(g: Globals, s: KeyState, t: Tid, c: Choice)
    requires t in s.reg.threads && s.crit.Free? && ResultsOk(s) && WantsMeta(s.reg.threads[t])
    ensures ResultsOk(OuterStep(g, s, t, c).s) && ObservedOk(OuterStep(g, s, t, c).s)
  {
  }

  lemma EnterUndisturbed(g: Globals, s: KeyState, t: Tid, c: Choice)
    requires t in s.reg.threads && s.crit.Free? && WantsMeta(s.reg.threads[t])
    ensures Undisturbed(s.reg) ==> Undisturbed(OuterStep(g, s, t, c).s.reg)
  {
  }

  lemma EnterData(g: Globals, k: nat, s: KeyState, t: Tid, c: Choice)
    requires GlobalsOk(g) && DataInv(g, k, s) && t in s.reg.threads && s.crit.Free? && WantsMeta(s.reg.threads[t])
    ensures var n := OuterStep(g, s, t, c);
            n.To? && DataInv(n.g, k, n.s) && Extends(g, n.g, k) && Booked(n.s) == Booked(s)
  {
    var n := OuterStep(g, s, t, c);
    EnterClean(g, k, s, t, c);
    FilesFrame(g, n.g, k, s, n.s);
    EnterResults(g, s, t, c);
    EnterUndisturbed(g, s, t, c);
  }

  lemma OuterData(g: Globals, k: nat, s: KeyState, t: Tid, c: Choice)
    requires GlobalsOk(g) && DataInv(g, k, s) && t in s.reg.threads && !s.reg.threads[t].InMeta()
    requires s.crit.Locked? ==> s.crit.tid != t && s.crit.tid in s.reg.threads
    requires OuterStep(g, s, t, c).To? && s.reg.bar <= OuterStep(g, s, t, c).s.reg.bar
    ensures var n := OuterStep(g, s, t, c);
            DataInv(n.g, k, n.s) && Extends(g, n.g, k) && Booked(n.s) == Booked(s)
  {
    var n := OuterStep(g, s, t, c);
    var pc := s.reg.threads[t];
    if WantsMeta(pc) {
      EnterData(g, k, s, t, c);
    } else {
      if pc.IsFill() {
        FillOnlyCall(g, s, t, c);
      } else if pc.IsInv() {
        InvOnlyCall(g, s, t, c);
      } else {
        ProbeOnlyCall(g, s, t, c);
      }
      OnlyCallData(g, k, s, n.g, n.s, t);
    }
  }

  lemma ReleaseResults(s: KeyState)
    requires s.crit.Locked? && s.crit.sec.Done? && s.crit.tid in s.reg.threads && ResultsOk(s)
    ensures var s' := Release(s, s.crit.tid, s.crit.sec.result);
            ResultsOk(s') && ObservedOk(s') && (Undisturbed(s.reg) ==> Undisturbed(s'.reg))
            && (CleanOk(s) ==> CleanOk(s')) && Booked(s') == Booked(s)
  {
  }

  lemma ReleaseData(g: Globals, k: nat, s: KeyState)
    requires GlobalsOk(g) && DataInv(g, k, s) && s.crit.Locked? && s.crit.sec.Done? && s.crit.tid in s.reg.threads
    ensures var s' := Release(s, s.crit.tid, s.crit.sec.result);
            DataInv(g, k, s') && Extends(g, g, k) && Booked(s') == Booked(s)
  {
    var s' := Release(s, s.crit.tid, s.crit.sec.result);
    ReleaseResults(s);
    FilesFrame(g, g, k, s, s');
  }

  // ---------- files, results and statistics: steps inside the metadata lock ----------

  /** What a section step needs to know about the call that takes it. */
  predicate HolderFits(s: KeyState) {
    && s.crit.Locked? && s.crit.tid in s.reg.threads
    && SectionFits(s.reg, s.reg.threads[s.crit.tid], s.crit.sec)
    && (s.reg.threads[s.crit.tid].Publishing? ==> GuardOk(s.reg, s.reg.threads[s.crit.tid]))
  }

  lemma SectionFiles(g: Globals, k: nat, s: KeyState, c: Choice)
    requires GlobalsOk(g) && FilesInv(g, k, s) && HolderFits(s) && !s.crit.sec.Done? && !s.crit.sec.LateBump?
    requires SectionStep(g, k, s, s.crit.tid, c).To?
    ensures var n := SectionStep(g, k, s, s.crit.tid, c);
            FilesInv(n.g, k, n.s) && Extends(g, n.g, k)
  {
    match s.reg.threads[s.crit.tid] {
      case Publishing(gd, _) =>
        if s.crit.sec.Pubs? {
          PublishFiles(g, k, s, c);
        } else if s.crit.sec.Unbook? || s.crit.sec.Book? || s.crit.sec.Unpoison? {
          SettleFiles(g, k, s, c);
        } else {
          ReserveFiles(g, k, s, gd, c);
        }
      case Invalidating(inv) =>
        if s.crit.sec.Check? || s.crit.sec.OrphanBody? {
          CheckFiles(g, k, s, inv, c);
        } else if s.crit.sec.MarkMemory? || s.crit.sec.MarkDisk? {
          PoisonFiles(g, k, s, inv, c);
        } else {
          PurgeFiles(g, k, s, inv, c);
        }
      case Working(job) => JobFiles(g, k, s, job, c);
    }
  }

  lemma JobFiles(g: Globals, k: nat, s: KeyState, job: Job, c: Choice)
    requires GlobalsOk(g) && FilesInv(g, k, s) && s.crit.Locked? && s.crit.tid in s.reg.threads
    requires s.reg.threads[s.crit.tid] == Working(job) && JobSec(job, s.crit.sec)
    requires SectionStep(g, k, s, s.crit.tid, c).To?
    ensures var n := SectionStep(g, k, s, s.crit.tid, c);
            FilesInv(n.g, k, n.s) && Extends(g, n.g, k)
  {
    match job {
      case Update(_, _) => WriterFiles(g, k, s, job, c);
      case Touch(_, _) => WriterFiles(g, k, s, job, c);
      case Lookup => LookupFiles(g, k, s, c);
      case Evict(_, _) => EvictFiles(g, k, s, job, c);
      case TidyBody => TidyFiles(g, k, s, job, c);
      case TidyMarker => TidyFiles(g, k, s, job, c);
      case TidyMeta => TidyFiles(g, k, s, job, c);
    }
  }

  lemma CheckObserved(g: Globals, s: KeyState, inv: Inv, c: Choice)
    requires s.crit.Locked? && s.crit.tid in s.reg.threads && s.reg.threads[s.crit.tid] == Invalidating(inv)
    requires ObservedOk(s) && CheckSection(g, s, inv, c).To?
    ensures ObservedOk(CheckSection(g, s, inv, c).s)
  {
  }

  lemma PoisonObserved(g: Globals, s: KeyState, inv: Inv, c: Choice)
    requires s.crit.Locked? && s.crit.tid in s.reg.threads && s.reg.threads[s.crit.tid] == Invalidating(inv)
    requires ObservedOk(s) && PoisonSection(g, s, inv, c).To?
    ensures ObservedOk(PoisonSection(g, s, inv, c).s)
  {
  }

  lemma WriterObserved(g: Globals, s: KeyState, job: Job, c: Choice)
    requires s.crit.Locked? && s.crit.tid in s.reg.threads && s.reg.threads[s.crit.tid] == Working(job)
    requires WriterSection(g, s, job, c).To?
    ensures ObservedOk(WriterSection(g, s, job, c).s)
  {
  }

  lemma SectionObserved(g: Globals, k: nat, s: KeyState, c: Choice)
    requires s.crit.Locked? && !s.crit.sec.Done? && s.crit.tid in s.reg.threads && s.reg.threads[s.crit.tid].InMeta()
    requires ObservedOk(s) && SectionStep(g, k, s, s.crit.tid, c).To?
    ensures ObservedOk(SectionStep(g, k, s, s.crit.tid, c).s)
  {
    match s.reg.threads[s.crit.tid] {
      case Publishing(_, _) =>
      case Invalidating(inv) =>
        if s.crit.sec.Check? || s.crit.sec.LateBump? || s.crit.sec.OrphanBody? {
          CheckObserved(g, s, inv, c);
        } else if s.crit.sec.MarkMemory? || s.crit.sec.MarkDisk? {
          PoisonObserved(g, s, inv, c);
        }
      case Working(job) =>
        if job.Update? || job.Touch? { WriterObserved(g, s, job, c); }
    }
  }

  lemma SectionClean(g: Globals, k: nat, s: KeyState, c: Choice)
    requires DataInv(g, k, s) && HolderFits(s) && !s.crit.sec.Done? && !s.crit.sec.LateBump?
    requires SectionStep(g, k, s, s.crit.tid, c).To?
    requires g.clean && Covers(g, s)
    ensures var n := SectionStep(g, k, s, s.crit.tid, c);
            n.g.clean ==> CleanOk(n.s) && Balanced(g, s, n.g, n.s)
  {
    match s.reg.threads[s.crit.tid] {
      case Publishing(gd, _) =>
        if s.crit.sec.Pubs? {
          PublishClean(g, k, s, c);
        } else if s.crit.sec.Unbook? || s.crit.sec.Book? || s.crit.sec.Unpoison? {
          SettleClean(g, k, s, c);
        } else {
          ReserveClean(g, k, s, gd, c);
        }
      case Invalidating(inv) =>
        if s.crit.sec.Check? || s.crit.sec.OrphanBody? {
          CheckClean(g, k, s, inv, c);
        } else if s.crit.sec.MarkMemory? || s.crit.sec.MarkDisk? {
          PoisonClean(g, k, s, inv, c);
        } else {
          PurgeClean(g, k, s, inv, c);
        }
      case Working(job) =>
        if job.Lookup? { LookupClean(g, k, s, c); } else { WriterClean(g, k, s, job, c); }
    }
  }

  lemma LateBumpData(g: Globals, k: nat, s: KeyState, inv: Inv, c: Choice)
    requires GlobalsOk(g) && DataInv(g, k, s) && s.crit.Locked? && s.crit.sec.LateBump?
    requires s.crit.tid in s.reg.threads && s.reg.threads[s.crit.tid] == Invalidating(inv)
    ensures var n := CheckSection(g, s, inv, c);
            n.To? && DataInv(n.g, k, n.s) && Extends(g, n.g, k) && Balanced(g, s, n.g, n.s)
  {
    CheckObserved(g, s, inv, c);
  }

  lemma SectionData(g: Globals, k: nat, s: KeyState, c: Choice)
    requires GlobalsOk(g) && DataInv(g, k, s) && HolderFits(s) && !s.crit.sec.Done? && (g.clean ==> Covers(g, s))
    requires SectionStep(g, k, s, s.crit.tid, c).To?
    ensures var n := SectionStep(g, k, s, s.crit.tid, c);
            && DataInv(n.g, k, n.s) && Extends(g, n.g, k)
            && (g.clean && n.g.clean ==> Balanced(g, s, n.g, n.s))
  {
    var n := SectionStep(g, k, s, s.crit.tid, c);
    if s.crit.sec.LateBump? {
      LateBumpData(g, k, s, s.reg.threads[s.crit.tid].inv, c);
    } else {
      SectionFiles(g, k, s, c);
      SectionObserved(g, k, s, c);
      SectionMoves(g, k, s, c);
      MovedKeepsResults(s, n.s);
      if g.clean { SectionClean(g, k, s, c); }
    }
  }

  // ---------- every step ----------

  /** One key's side of the system invariant, and what the step did to everybody else's. */
  ghost predicate Kept(g: Globals, k: nat, s: KeyState, g': Globals, s': KeyState) {
    && KeyInv(g', k, s') && Extends(g, g', k)
    && (g.clean && g'.clean ==> Balanced(g, s, g', s'))
  }

  lemma DataStep(g: Globals, k: nat, s: KeyState, a: Action)
    requires GlobalsOk(g) && DataInv(g, k, s) && KeyStep(g, k, s, a).To? && (g.clean ==> Covers(g, s))
    requires s.crit.Locked? ==> HolderFits(s)
    requires s.reg.bar <= KeyStep(g, k, s, a).s.reg.bar
    requires forall t :: t in s.reg.threads && s.reg.threads[t].InMeta() ==> s.crit.Locked? && s.crit.tid == t
    requires a.t !in s.reg.threads ==> s.crit.Locked? ==> s.crit.tid != a.t
    ensures var n := KeyStep(g, k, s, a);
            && DataInv(n.g, k, n.s) && Extends(g, n.g, k)
            && (g.clean && n.g.clean ==> Balanced(g, s, n.g, n.s))
  {
    var n := KeyStep(g, k, s, a);
    if !a.Advance? {
      StartOnlyCall(g, k, s, a);
      OnlyCallData(g, k, s, n.g, n.s, a.t);
    } else if !s.reg.threads[a.t].InMeta() {
      OuterData(g, k, s, a.t, a.c);
    } else if s.crit.sec.Done? {
      ReleaseData(g, k, s);
    } else {
      SectionData(g, k, s, a.c);
    }
  }

  /** No step on a key breaks the key's invariant. */
  lemma KeyStepKept(g: Globals, k: nat, s: KeyState, a: Action)
    requires GlobalsOk(g) && KeyInv(g, k, s) && KeyStep(g, k, s, a).To? && (g.clean ==> Covers(g, s))
    ensures Kept(g, k, s, KeyStep(g, k, s, a).g, KeyStep(g, k, s, a).s)
  {
    RegStep(g, k, s, a);
    if s.crit.Locked? { HolderKnown(s); }
    DataStep(g, k, s, a);
  }

  lemma HolderKnown(s: KeyState)
    requires RegInv(s.reg, s.crit) && s.crit.Locked?
    ensures HolderFits(s)
  {
    if s.reg.threads[s.crit.tid].Publishing? { assert GuardOk(s.reg, s.reg.threads[s.crit.tid]); }
  }
}
