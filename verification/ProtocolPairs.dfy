/**
  What every step does to the published pair of a key: outside a publish phase nothing comes in, and
  a publish brings in only files of a fill that no invalidating call has fenced off.
*/
module ProtocolPairs {
  import opened Common
  import opened Protocol
  import opened ProtocolInvariant
  import opened ProtocolSections
  import opened ProtocolKeyStep
  import opened ProtocolRuns

  // ---------- steps outside the publish phase ----------

  /** Files may have gone; metadata may have been rewritten, by an update of the same publish. */
  predicate Thinner(p: Pair, p': Pair) {
    && (p'.body.Some? ==> p'.body == p.body)
    && (p'.meta.Some? ==> p.meta.Some? && p'.meta.value.writer == p.meta.value.writer && p'.meta.value.id == p.meta.value.id)
  }

  predicate InPublish(s: KeyState) {
    s.crit.Locked? && s.crit.sec.Pubs?
  }

  /** The step is one of a publish phase. */
  predicate Publishes(s: KeyState, a: Action) {
    InPublish(s) && a.Advance? && s.crit.tid == a.t
  }

  predicate Settles(s: KeyState) {
    s.crit.Locked? && s.crit.sec.Unpoison?
  }

  /** The marker goes only when a commit has published or a file is missing, the fence in memory when no file is left. */
  predicate Gentle(s: KeyState, s': KeyState) {
    && Thinner(s.files.live, s'.files.live)
    && (InPublish(s') ==> (s'.crit == s.crit && s'.files == s.files) || s'.crit.sec.p.prior == s'.files.live)
    && (s.files.marker && !s'.files.marker ==> Settles(s) || s'.files.live.body.None? || s'.files.live.meta.None?)
    && (s.files.inMemory && !s'.files.inMemory ==> Settles(s) || s'.files.live == Pair(None, None))
    && (Settles(s) && s' != s ==> s'.files.live == s.files.live)
  }

  lemma OutsideIsGentle(g: Globals, k: nat, s: KeyState, a: Action)
    requires KeyStep(g, k, s, a).To?
    requires a.Advance? && s.reg.threads[a.t].InMeta() ==> s.crit.sec.Done?
    ensures Gentle(s, KeyStep(g, k, s, a).s)
  {
  }

  lemma FillIsGentle(g: Globals, k: nat, s: KeyState, gd: Guard, c: Choice)
    requires s.crit.Locked? && FillSec(s.crit.sec) && !s.crit.sec.Pubs?
    ensures ReserveSection(g, k, s, gd, c).To? ==> Gentle(s, ReserveSection(g, k, s, gd, c).s)
    ensures SettleSection(g, s, c).To? ==> Gentle(s, SettleSection(g, s, c).s)
  {
  }

  lemma InvIsGentle(g: Globals, s: KeyState, inv: Inv, c: Choice)
    requires s.crit.Locked? && InvSec(s.crit.sec) && (s.crit.sec.ClearPoison? ==> s.files.live == Pair(None, None))
    ensures CheckSection(g, s, inv, c).To? ==> Gentle(s, CheckSection(g, s, inv, c).s)
    ensures PurgeSection(g, s, inv, c).To? ==> Gentle(s, PurgeSection(g, s, inv, c).s)
    ensures PoisonSection(g, s, inv, c).To? ==> Gentle(s, PoisonSection(g, s, inv, c).s)
  {
  }

  lemma ReaderIsGentle(g: Globals, s: KeyState, job: Job, c: Choice)
    requires s.crit.Locked? && JobSec(job, s.crit.sec)
    requires s.crit.sec.WriteMeta? ==> s.files.live.meta == Some(s.crit.sec.meta)
    ensures WriterSection(g, s, job, c).To? ==> Gentle(s, WriterSection(g, s, job, c).s)
    ensures LookupSection(g, s, c).To? ==> Gentle(s, LookupSection(g, s, c).s)
  {
  }

  lemma RemoverIsGentle(g: Globals, k: nat, s: KeyState, job: Job, c: Choice)
    requires s.crit.Locked? && JobSec(job, s.crit.sec) && SectionOk(g, k, s)
    ensures EvictSection(g, s, job, c).To? ==> Gentle(s, EvictSection(g, s, job, c).s)
    ensures TidySection(g, s, job, c).To? ==> Gentle(s, TidySection(g, s, job, c).s)
  {
  }

  lemma SectionIsGentle(g: Globals, k: nat, s: KeyState, c: Choice)
    requires HolderFits(s) && SectionOk(g, k, s) && !s.crit.sec.Done? && !s.crit.sec.Pubs?
    requires SectionStep(g, k, s, s.crit.tid, c).To?
    ensures Gentle(s, SectionStep(g, k, s, s.crit.tid, c).s)
  {
    match s.reg.threads[s.crit.tid] {
      case Publishing(gd, _) => FillIsGentle(g, k, s, gd, c);
      case Invalidating(inv) => InvIsGentle(g, s, inv, c);
      case Working(job) =>
        ReaderIsGentle(g, s, job, c);
        RemoverIsGentle(g, k, s, job, c);
    }
  }

  /** No step outside a publish phase brings a file into the pair. */
  lemma OthersAreGentle(g: Globals, k: nat, s: KeyState, a: Action)
    requires KeyInv(g, k, s) && KeyStep(g, k, s, a).To? && !Publishes(s, a)
    ensures Gentle(s, KeyStep(g, k, s, a).s)
  {
    if a.Advance? && s.reg.threads[a.t].InMeta() && !s.crit.sec.Done? {
      HolderKnown(s);
      SectionIsGentle(g, k, s, a.c);
    } else {
      OutsideIsGentle(g, k, s, a);
    }
  }

  // ---------- who publishes ----------

  /** A fill past its last check began after every fence. */
  lemma PublisherIsFresh(g: Globals, k: nat, s: KeyState)
    requires KeyInv(g, k, s) && s.crit.Locked? && (s.crit.sec.Pubs? || s.crit.sec.Unpoison?)
    ensures s.reg.bar <= s.crit.sec.p.newBody.writer && s.reg.bar <= s.crit.sec.p.newMeta.writer
    ensures s.crit.sec.Pubs? ==> PubOk(g, k, s.led, s.files, s.crit.sec.p)
    ensures s.crit.sec.Unpoison? ==> s.files.live == Pair(Some(s.crit.sec.p.newBody), Some(s.crit.sec.p.newMeta))
  {
    HolderKnown(s);
  }

  lemma PublishOf(g: Globals, k: nat, s: KeyState, a: Action)
    requires KeyInv(g, k, s) && KeyStep(g, k, s, a).To? && Publishes(s, a)
    ensures var s' := KeyStep(g, k, s, a).s;
            var (p', f') := PublishStep(s.crit.sec.p, s.files.live, a.c.ok);
            && s'.files == s.files.(live := f') && s'.reg == s.reg && p'.prior == s.crit.sec.p.prior
            && (InPublish(s') ==> s'.crit.sec.p == p')
  {
    HolderKnown(s);
  }

  // ---------- everything live began after the cut ----------

  predicate PairSince(p: Pair, cut: Fill) {
    (p.body.Some? ==> cut <= p.body.value.writer) && (p.meta.Some? ==> cut <= p.meta.value.writer)
  }

  /** Neither the pair nor what a commit in progress would give back has a file of a fill before `cut`. */
  predicate Since(s: KeyState, cut: Fill) {
    PairSince(s.files.live, cut) && (InPublish(s) ==> PairSince(s.crit.sec.p.prior, cut))
  }

  lemma PublishSince(g: Globals, k: nat, led: Ledger, files: Files, p: Pub, ok: bool, cut: Fill)
    requires PubOk(g, k, led, files, p) && PairSince(files.live, cut) && PairSince(p.prior, cut)
    requires cut <= p.newBody.writer && cut <= p.newMeta.writer
    ensures PairSince(PublishStep(p, files.live, ok).1, cut)
  {
  }

  lemma SinceStep(g: Globals, k: nat, s: KeyState, a: Action, cut: Fill)
    requires KeyInv(g, k, s) && KeyStep(g, k, s, a).To? && cut <= s.reg.bar && Since(s, cut)
    ensures var s' := KeyStep(g, k, s, a).s; cut <= s'.reg.bar && Since(s', cut)
  {
    RegStep(g, k, s, a);
    if Publishes(s, a) {
      PublisherIsFresh(g, k, s);
      PublishOf(g, k, s, a);
      PublishSince(g, k, s.led, s.files, s.crit.sec.p, a.c.ok, cut);
    } else {
      OthersAreGentle(g, k, s, a);
    }
  }

  // ---------- or the fence in memory is up ----------

  predicate Fenced(s: KeyState, cut: Fill) {
    s.files.inMemory || Since(s, cut)
  }

  lemma FencedStep(g: Globals, k: nat, s: KeyState, a: Action, cut: Fill)
    requires KeyInv(g, k, s) && KeyStep(g, k, s, a).To? && cut <= s.reg.bar && Fenced(s, cut)
    ensures var s' := KeyStep(g, k, s, a).s; cut <= s'.reg.bar && Fenced(s', cut)
  {
    RegStep(g, k, s, a);
    if Since(s, cut) {
      SinceStep(g, k, s, a, cut);
    } else if Publishes(s, a) {
      PublishOf(g, k, s, a);
    } else {
      OthersAreGentle(g, k, s, a);
      if Settles(s) { PublisherIsFresh(g, k, s); }
    }
  }

  // ---------- or the marker is there ----------

  /** Body and metadata are there, and one is of a fill before `cut`. */
  predicate Shows(p: Pair, cut: Fill) {
    p.body.Some? && p.meta.Some? && (p.body.value.writer < cut || p.meta.value.writer < cut)
  }

  predicate Exposed(s: KeyState, cut: Fill) {
    !s.files.marker && Shows(s.files.live, cut)
  }

  /** Nothing before `cut` is exposed, now or when a commit in progress gives back what was there. */
  predicate Marked(s: KeyState, cut: Fill) {
    !Exposed(s, cut) && (InPublish(s) && !s.files.marker ==> !Shows(s.crit.sec.p.prior, cut))
  }

  /**
    The two file operations that put files of two publishes side by side: the new body going in over
    metadata whose stat had failed, and the old metadata coming back while the new body is still there.
  */
  predicate MixingStep(s: KeyState, a: Action) {
    Publishes(s, a) && a.c.ok && Mixes(s.crit.sec.p, s.files.live).Some?
  }

  /** The metadata that would stand beside the new body. */
  function Mixes(p: Pub, live: Pair): Option<Meta> {
    if p.stage.PutBody? && !p.hadMeta then live.meta
    else if p.stage.RestoreMeta? && p.hadMeta && live.body == Some(p.newBody) then p.bakMeta
    else None
  }

  /** A mixing step that brings old metadata, with no marker over it. */
  predicate StaleMixingStep(s: KeyState, a: Action, cut: Fill) {
    MixingStep(s, a) && !s.files.marker && Mixes(s.crit.sec.p, s.files.live).value.writer < cut
  }

  lemma PublishShowsIff(g: Globals, k: nat, led: Ledger, files: Files, p: Pub, ok: bool, cut: Fill)
    requires PubOk(g, k, led, files, p) && !Shows(files.live, cut) && !Shows(p.prior, cut)
    requires cut <= p.newBody.writer && cut <= p.newMeta.writer
    ensures Shows(PublishStep(p, files.live, ok).1, cut) <==>
              ok && Mixes(p, files.live).Some? && Mixes(p, files.live).value.writer < cut
  {
  }

  /** From a state that exposes nothing, a step exposes something before `cut` if and only if it is a stale mixing step. */
  lemma MarkedStep(g: Globals, k: nat, s: KeyState, a: Action, cut: Fill)
    requires KeyInv(g, k, s) && KeyStep(g, k, s, a).To? && cut <= s.reg.bar && Marked(s, cut)
    ensures var s' := KeyStep(g, k, s, a).s;
            && cut <= s'.reg.bar && (Exposed(s', cut) <==> StaleMixingStep(s, a, cut))
            && (!Exposed(s', cut) ==> Marked(s', cut))
  {
    RegStep(g, k, s, a);
    if Publishes(s, a) {
      PublisherIsFresh(g, k, s);
      PublishOf(g, k, s, a);
      if !s.files.marker { PublishShowsIff(g, k, s.led, s.files, s.crit.sec.p, a.c.ok, cut); }
    } else {
      OthersAreGentle(g, k, s, a);
      if Settles(s) { PublisherIsFresh(g, k, s); }
    }
  }

  // ---------- what a call that took effect has left behind ----------

  /** A purge has left nothing older than its cut, a poison has left its marker. */
  predicate TookEffect(s: KeyState, inv: Inv) {
    inv.cut <= s.reg.bar && match inv.kind case Purge => Since(s, inv.cut) case Poison => s.files.marker
  }

  /** The call that holds the metadata lock goes the way of its kind, and when it is done it has taken effect. */
  predicate HolderOk(s: KeyState) {
    s.crit.Locked? && s.crit.tid in s.reg.threads && s.reg.threads[s.crit.tid].Invalidating? ==>
      var inv, sec := s.reg.threads[s.crit.tid].inv, s.crit.sec;
      && (inv.kind.Purge? ==> !sec.MarkMemory? && !sec.MarkDisk?)
      && (inv.kind.Poison? ==> !sec.PurgeBody? && !sec.PurgeMeta? && !sec.PurgeUnbook? && !sec.ClearPoison? && !sec.OrphanBody?)
      && (sec == Done(Applied) ==> TookEffect(s, inv))
  }

  /** A purge that is about to report success. What a poison has left, others may have removed by then. */
  predicate Purged(pc: Pc) {
    pc.InvUnlocks? && pc.result.Applied? && pc.inv.kind.Purge?
  }

  ghost predicate CallsOk(s: KeyState) {
    HolderOk(s) && forall t :: t in s.reg.threads && Purged(s.reg.threads[t]) ==> TookEffect(s, s.reg.threads[t].inv)
  }

  lemma InvHolder(g: Globals, s: KeyState, inv: Inv, c: Choice)
    requires HolderFits(s) && HolderOk(s) && s.reg.threads[s.crit.tid] == Invalidating(inv)
    requires s.crit.sec.ClearPoison? ==> s.files.live == Pair(None, None)
    ensures CheckSection(g, s, inv, c).To? ==> HolderOk(CheckSection(g, s, inv, c).s)
    ensures s.crit.sec.LateBump? || s.crit.sec.OrphanBody? || s.crit.sec.Check? || PurgeSection(g, s, inv, c).Blocked? || HolderOk(PurgeSection(g, s, inv, c).s)
    ensures PoisonSection(g, s, inv, c).To? ==> HolderOk(PoisonSection(g, s, inv, c).s)
  {
  }

  /** The table's calls stay where they are while one of them works inside the critical section. */
  lemma SectionThreads(g: Globals, k: nat, s: KeyState, c: Choice)
    requires HolderFits(s) && !s.crit.sec.Done? && SectionStep(g, k, s, s.crit.tid, c).To?
    ensures var s' := SectionStep(g, k, s, s.crit.tid, c).s;
            s'.reg.threads == s.reg.threads && s'.crit.Locked? && s'.crit.tid == s.crit.tid
  {
  }

  lemma SectionHolder(g: Globals, k: nat, s: KeyState, c: Choice)
    requires HolderFits(s) && SectionOk(g, k, s) && HolderOk(s) && !s.crit.sec.Done? && SectionStep(g, k, s, s.crit.tid, c).To?
    ensures HolderOk(SectionStep(g, k, s, s.crit.tid, c).s)
  {
    SectionThreads(g, k, s, c);
    if s.reg.threads[s.crit.tid].Invalidating? { InvHolder(g, s, s.reg.threads[s.crit.tid].inv, c); }
  }

  /** A call that is not inside takes the lock, or leaves lock, files and everybody else alone. */
  lemma OutsideCalls(g: Globals, k: nat, s: KeyState, a: Action)
    requires KeyStep(g, k, s, a).To? && (a.Advance? ==> !s.reg.threads[a.t].InMeta())
    ensures var s' := KeyStep(g, k, s, a).s;
            && (forall t :: t in s'.reg.threads && t != a.t ==> t in s.reg.threads && s'.reg.threads[t] == s.reg.threads[t])
            && (a.t in s'.reg.threads ==> !Purged(s'.reg.threads[a.t]))
            && s'.files == s.files
            && (s'.crit == s.crit || (s'.crit.Locked? && s'.crit.tid == a.t && !s'.crit.sec.Done?))
    ensures var s' := KeyStep(g, k, s, a).s; s'.crit != s.crit ==> HolderOk(s')
  {
  }

  lemma ReleaseCalls(s: KeyState)
    requires s.crit.Locked? && s.crit.tid in s.reg.threads && s.crit.sec.Done? && HolderOk(s)
    ensures var s' := Release(s, s.crit.tid, s.crit.sec.result);
            && s'.files == s.files && s'.reg.bar == s.reg.bar && s'.crit.Free?
            && (forall t :: t in s'.reg.threads && t != s.crit.tid ==> t in s.reg.threads && s'.reg.threads[t] == s.reg.threads[t])
            && (s.crit.tid in s'.reg.threads && Purged(s'.reg.threads[s.crit.tid]) ==> TookEffect(s, s'.reg.threads[s.crit.tid].inv))
  {
  }

  lemma EffectStays(g: Globals, k: nat, s: KeyState, a: Action, inv: Inv)
    requires KeyInv(g, k, s) && KeyStep(g, k, s, a).To? && TookEffect(s, inv) && inv.kind.Purge?
    ensures TookEffect(KeyStep(g, k, s, a).s, inv)
  {
    SinceStep(g, k, s, a, inv.cut);
  }

  lemma CallsStep(g: Globals, k: nat, s: KeyState, a: Action)
    requires KeyInv(g, k, s) && CallsOk(s) && KeyStep(g, k, s, a).To?
    ensures CallsOk(KeyStep(g, k, s, a).s)
  {
    var s' := KeyStep(g, k, s, a).s;
    RegStep(g, k, s, a);
    if s.crit.Locked? { HolderKnown(s); }
    forall t | t in s'.reg.threads && Purged(s'.reg.threads[t]) ensures TookEffect(s', s'.reg.threads[t].inv) {
      CallWasPurged(g, k, s, a, t);
      EffectStays(g, k, s, a, s'.reg.threads[t].inv);
    }
    HolderStep(g, k, s, a);
  }

  lemma CallWasPurged(g: Globals, k: nat, s: KeyState, a: Action, t: Tid)
    requires KeyInv(g, k, s) && CallsOk(s) && KeyStep(g, k, s, a).To? && (s.crit.Locked? ==> HolderFits(s))
    requires t in KeyStep(g, k, s, a).s.reg.threads && Purged(KeyStep(g, k, s, a).s.reg.threads[t])
    ensures TookEffect(s, KeyStep(g, k, s, a).s.reg.threads[t].inv)
  {
    if !a.Advance? || !s.reg.threads[a.t].InMeta() {
      OutsideCalls(g, k, s, a);
    } else if s.crit.sec.Done? {
      ReleaseCalls(s);
    } else {
      SectionThreads(g, k, s, a.c);
    }
  }

  lemma HolderStep(g: Globals, k: nat, s: KeyState, a: Action)
    requires KeyInv(g, k, s) && CallsOk(s) && KeyStep(g, k, s, a).To? && (s.crit.Locked? ==> HolderFits(s))
    requires s.reg.bar <= KeyStep(g, k, s, a).s.reg.bar
    ensures HolderOk(KeyStep(g, k, s, a).s)
  {
    if !a.Advance? || !s.reg.threads[a.t].InMeta() {
      OutsideCalls(g, k, s, a);
    } else if s.crit.sec.Done? {
      ReleaseCalls(s);
    } else {
      SectionHolder(g, k, s, a.c);
    }
  }

  // ---------- runs ----------

  lemma CallsEvent(s: System, ev: Event, k: nat)
    requires Safe(s) && k < |s.keys| && CallsOk(s.keys[k]) && Step(s, ev).Reached?
    ensures k < |Step(s, ev).s.keys| && CallsOk(Step(s, ev).s.keys[k])
  {
    if ev.OnKey? && ev.k == k { CallsStep(s.g, k, s.keys[k], ev.a); }
  }

  lemma {:induction false} CallsRun(s: System, evs: seq<Event>, k: nat)
    requires Safe(s) && k < |s.keys| && CallsOk(s.keys[k]) && Run(s, evs).Reached?
    ensures k < |Run(s, evs).s.keys| && CallsOk(Run(s, evs).s.keys[k])
    decreases |evs|
  {
    if evs != [] {
      StepKeeps(s, evs[0]);
      CallsEvent(s, evs[0], k);
      CallsRun(Step(s, evs[0]).s, evs[1..], k);
    }
  }

  lemma SinceEvent(s: System, ev: Event, k: nat, cut: Fill)
    requires Safe(s) && k < |s.keys| && cut <= s.keys[k].reg.bar && Since(s.keys[k], cut) && Step(s, ev).Reached?
    ensures var s' := Step(s, ev).s; k < |s'.keys| && cut <= s'.keys[k].reg.bar && Since(s'.keys[k], cut)
  {
    if ev.OnKey? && ev.k == k { SinceStep(s.g, k, s.keys[k], ev.a, cut); }
  }

  lemma {:induction false} SinceRun(s: System, evs: seq<Event>, k: nat, cut: Fill)
    requires Safe(s) && k < |s.keys| && cut <= s.keys[k].reg.bar && Since(s.keys[k], cut) && Run(s, evs).Reached?
    ensures k < |Run(s, evs).s.keys| && Since(Run(s, evs).s.keys[k], cut)
    decreases |evs|
  {
    if evs != [] {
      StepKeeps(s, evs[0]);
      SinceEvent(s, evs[0], k, cut);
      SinceRun(Step(s, evs[0]).s, evs[1..], k, cut);
    }
  }

  ghost predicate NoRestart(evs: seq<Event>) {
    forall i :: 0 <= i < |evs| ==> !evs[i].Restart?
  }

  /** A poison call is at the mark it makes in memory, or at the one it makes on disk. */
  predicate Marking(s: KeyState, inv: Inv) {
    && s.crit.Locked? && (s.crit.sec.MarkMemory? || s.crit.sec.MarkDisk?) && s.crit.tid in s.reg.threads
    && s.reg.threads[s.crit.tid] == Invalidating(inv)
  }

  predicate MarkedSoon(s: KeyState, inv: Inv) {
    inv.cut <= s.reg.bar && (Fenced(s, inv.cut) || (Marking(s, inv) && s.crit.sec.MarkMemory?))
  }

  lemma MarkingIsSoon(g: Globals, k: nat, s: KeyState, inv: Inv)
    requires KeyInv(g, k, s) && Marking(s, inv)
    ensures MarkedSoon(s, inv)
  {
    HolderKnown(s);
  }

  lemma MarkingStep(g: Globals, k: nat, s: KeyState, a: Action, inv: Inv)
    requires KeyInv(g, k, s) && KeyStep(g, k, s, a).To? && Marking(s, inv) && s.crit.sec.MarkMemory?
    ensures Fenced(KeyStep(g, k, s, a).s, inv.cut) || (Marking(KeyStep(g, k, s, a).s, inv) && KeyStep(g, k, s, a).s.crit == s.crit)
  {
    if !a.Advance? || !s.reg.threads[a.t].InMeta() { OutsideCalls(g, k, s, a); OutsideLeavesHolder(g, k, s, a); }
  }

  lemma OutsideLeavesHolder(g: Globals, k: nat, s: KeyState, a: Action)
    requires KeyStep(g, k, s, a).To? && (a.Advance? ==> !s.reg.threads[a.t].InMeta())
    requires s.crit.Locked? && s.crit.tid in s.reg.threads && s.reg.threads[s.crit.tid].InMeta()
    ensures var s' := KeyStep(g, k, s, a).s;
            s'.crit == s.crit && s.crit.tid in s'.reg.threads && s'.reg.threads[s.crit.tid] == s.reg.threads[s.crit.tid]
  {
  }

  lemma MarkedSoonEvent(s: System, ev: Event, k: nat, inv: Inv)
    requires Safe(s) && k < |s.keys| && MarkedSoon(s.keys[k], inv) && Step(s, ev).Reached? && !ev.Restart?
    ensures k < |Step(s, ev).s.keys| && MarkedSoon(Step(s, ev).s.keys[k], inv)
  {
    if ev.OnKey? && ev.k == k {
      RegStep(s.g, k, s.keys[k], ev.a);
      if Fenced(s.keys[k], inv.cut) {
        FencedStep(s.g, k, s.keys[k], ev.a, inv.cut);
      } else {
        MarkingStep(s.g, k, s.keys[k], ev.a, inv);
      }
    }
  }

  lemma {:induction false} MarkedSoonRun(s: System, evs: seq<Event>, k: nat, inv: Inv)
    requires Safe(s) && k < |s.keys| && MarkedSoon(s.keys[k], inv) && Run(s, evs).Reached? && NoRestart(evs)
    ensures k < |Run(s, evs).s.keys| && MarkedSoon(Run(s, evs).s.keys[k], inv)
    decreases |evs|
  {
    if evs != [] {
      StepKeeps(s, evs[0]);
      MarkedSoonEvent(s, evs[0], k, inv);
      assert NoRestart(evs[1..]) by {
        forall i | 0 <= i < |evs[1..]| ensures !evs[1..][i].Restart? { assert evs[1..][i] == evs[i + 1]; }
      }
      MarkedSoonRun(Step(s, evs[0]).s, evs[1..], k, inv);
    }
  }

  /** No event of the run is a stale mixing step of key `k`. */
  ghost predicate Unstale(s: System, evs: seq<Event>, k: nat, cut: Fill)
    decreases |evs|
  {
    evs == [] ||
    ( && (evs[0].OnKey? && evs[0].k == k && k < |s.keys| ==> !StaleMixingStep(s.keys[k], evs[0].a, cut))
      && (Step(s, evs[0]).Reached? ==> Unstale(Step(s, evs[0]).s, evs[1..], k, cut)))
  }

  lemma MarkedEvent(s: System, ev: Event, k: nat, cut: Fill)
    requires Safe(s) && k < |s.keys| && cut <= s.keys[k].reg.bar && Marked(s.keys[k], cut) && Step(s, ev).Reached?
    requires ev.OnKey? && ev.k == k ==> !StaleMixingStep(s.keys[k], ev.a, cut)
    ensures var s' := Step(s, ev).s; k < |s'.keys| && cut <= s'.keys[k].reg.bar && Marked(s'.keys[k], cut)
  {
    if ev.OnKey? && ev.k == k { MarkedStep(s.g, k, s.keys[k], ev.a, cut); }
  }

  lemma {:induction false} MarkedRun(s: System, evs: seq<Event>, k: nat, cut: Fill)
    requires Safe(s) && k < |s.keys| && cut <= s.keys[k].reg.bar && Marked(s.keys[k], cut)
    requires Run(s, evs).Reached? && Unstale(s, evs, k, cut)
    ensures k < |Run(s, evs).s.keys| && Marked(Run(s, evs).s.keys[k], cut)
    decreases |evs|
  {
    if evs != [] {
      StepKeeps(s, evs[0]);
      MarkedEvent(s, evs[0], k, cut);
      MarkedRun(Step(s, evs[0]).s, evs[1..], k, cut);
    }
  }

  // ---------- pairs of one publish ----------

  /** The pair is of one publish, and so is the pair a commit in progress would give back. */
  predicate CoherentKey(s: KeyState) {
    Coherent(s.files.live) && (InPublish(s) ==> Coherent(s.crit.sec.p.prior))
  }

  /** One file operation of a commit that starts from a coherent pair. */
  lemma PublishMixesIff(g: Globals, k: nat, led: Ledger, files: Files, p: Pub, ok: bool)
    requires PubOk(g, k, led, files, p) && Coherent(files.live) && Coherent(p.prior)
    ensures !Coherent(PublishStep(p, files.live, ok).1) <==> ok && Mixes(p, files.live).Some?
  {
  }

  lemma KeyMixesIff(g: Globals, k: nat, s: KeyState, a: Action)
    requires KeyInv(g, k, s) && CoherentKey(s) && KeyStep(g, k, s, a).To?
    ensures !Coherent(KeyStep(g, k, s, a).s.files.live) <==> MixingStep(s, a)
    ensures !MixingStep(s, a) ==> CoherentKey(KeyStep(g, k, s, a).s)
  {
    if Publishes(s, a) {
      PublisherIsFresh(g, k, s);
      PublishOf(g, k, s, a);
      PublishMixesIff(g, k, s.led, s.files, s.crit.sec.p, a.c.ok);
    } else {
      OthersAreGentle(g, k, s, a);
    }
  }

  /** No event of the run mixes the files of key `k`. */
  ghost predicate Unmixed(s: System, evs: seq<Event>, k: nat)
    decreases |evs|
  {
    evs == [] ||
    ( && (evs[0].OnKey? && evs[0].k == k && k < |s.keys| ==> !MixingStep(s.keys[k], evs[0].a))
      && (Step(s, evs[0]).Reached? ==> Unmixed(Step(s, evs[0]).s, evs[1..], k)))
  }

  lemma CoherentEvent(s: System, ev: Event, k: nat)
    requires Safe(s) && k < |s.keys| && CoherentKey(s.keys[k]) && Step(s, ev).Reached?
    requires ev.OnKey? && ev.k == k ==> !MixingStep(s.keys[k], ev.a)
    ensures k < |Step(s, ev).s.keys| && CoherentKey(Step(s, ev).s.keys[k])
  {
    if ev.OnKey? && ev.k == k { KeyMixesIff(s.g, k, s.keys[k], ev.a); }
  }

  lemma {:induction false} CoherentRun(s: System, evs: seq<Event>, k: nat)
    requires Safe(s) && k < |s.keys| && CoherentKey(s.keys[k]) && Run(s, evs).Reached? && Unmixed(s, evs, k)
    ensures k < |Run(s, evs).s.keys| && CoherentKey(Run(s, evs).s.keys[k])
    decreases |evs|
  {
    if evs != [] {
      StepKeeps(s, evs[0]);
      CoherentEvent(s, evs[0], k);
      CoherentRun(Step(s, evs[0]).s, evs[1..], k);
    }
  }
}
