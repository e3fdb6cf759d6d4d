/**
  What each call does when it finds its locks free and no operation fails, whatever the key's files
  are and whoever else is in flight. These are the promises that keeping the invariant does not make:
  that calls take effect at all.
*/
module ProtocolSolo {
  import opened Common
  import opened Protocol
  import opened ProtocolInvariant

  // ---------- steps of one call ----------

  /** `n` steps of call `t`, all with the outcome `c`. */
  function Solo(g: Globals, k: nat, s: KeyState, t: Tid, c: Choice, n: nat): Next {
    if n == 0 then To(g, s)
    else match Solo(g, k, s, t, c, n - 1)
      case Blocked => Blocked
      case To(h, now) => KeyStep(h, k, now, Advance(t, c))
  }

  /** Some number of steps of the call lead there. */
  ghost predicate Gets(g: Globals, k: nat, s: KeyState, t: Tid, c: Choice, g': Globals, s': KeyState) {
    exists n: nat :: Solo(g, k, s, t, c, n) == To(g', s')
  }

  /** The call's next step leads to this state of the key. */
  predicate Goes(g: Globals, k: nat, s: KeyState, t: Tid, c: Choice, s': KeyState) {
    KeyStep(g, k, s, Advance(t, c)).To? && KeyStep(g, k, s, Advance(t, c)).s == s'
  }

  lemma Begin(g: Globals, k: nat, s: KeyState, t: Tid, c: Choice)
    ensures Gets(g, k, s, t, c, g, s)
  {
    assert Solo(g, k, s, t, c, 0) == To(g, s);
  }

  /** One step more. */
  lemma Go(g0: Globals, k: nat, s0: KeyState, t: Tid, c: Choice, g: Globals, s: KeyState, s': KeyState) returns (g': Globals)
    requires Gets(g0, k, s0, t, c, g, s) && Goes(g, k, s, t, c, s')
    ensures Gets(g0, k, s0, t, c, g', s') && KeyStep(g, k, s, Advance(t, c)) == To(g', s')
  {
    var n: nat :| Solo(g0, k, s0, t, c, n) == To(g, s);
    g' := KeyStep(g, k, s, Advance(t, c)).g;
    assert Solo(g0, k, s0, t, c, n + 1) == To(g', s');
  }

  /** No call is inside, and none holds a commit lock. Others may wait, and fills may be under way. */
  predicate KeyFree(s: KeyState) {
    s.crit.Free? && forall e :: 0 <= e < |s.reg.entries| ==> s.reg.entries[e].holder == None
  }

  /** The call is inside its critical section at `sec`; `base` is the key without it. */
  function In(base: KeyState, t: Tid, pc: Pc, sec: Section, files: Files, led: Ledger): KeyState {
    SetPc(base, t, pc).(crit := Locked(t, sec), files := files, led := led)
  }

  /** The same with files and history as they were. */
  function Inside(base: KeyState, t: Tid, pc: Pc, sec: Section): KeyState {
    In(base, t, pc, sec, base.files, base.led)
  }

  // ---------- lookups ----------

  lemma LookupEnters(g: Globals, k: nat, s: KeyState, t: Tid, c: Choice)
    requires s.crit.Free? && c.ok
    ensures !s.files.inMemory && !s.files.marker ==> Goes(g, k, SetPc(s, t, FirstProbe), t, c, SetPc(s, t, JobWantsMeta(Lookup)))
    ensures s.files.inMemory || s.files.marker ==> Goes(g, k, SetPc(s, t, FirstProbe), t, c, Gone(SetPc(s, t, FirstProbe), t))
    ensures Goes(g, k, SetPc(s, t, JobWantsMeta(Lookup)), t, c, Inside(s, t, Working(Lookup), Recheck))
  {
  }

  lemma LookupReads(g: Globals, k: nat, s: KeyState, t: Tid, c: Choice)
    requires c.ok && !s.files.inMemory && !s.files.marker && s.files.live.meta.Some?
    ensures Goes(g, k, Inside(s, t, Working(Lookup), Recheck), t, c, Inside(s, t, Working(Lookup), ReadEntry))
    ensures Goes(g, k, Inside(s, t, Working(Lookup), ReadEntry), t, c, Inside(s, t, Working(Lookup), OpenBody(s.files.live.meta.value)))
    ensures s.files.live.body.Some? ==>
              Goes(g, k, Inside(s, t, Working(Lookup), OpenBody(s.files.live.meta.value)), t, c,
                   Inside(s, t, Working(Lookup), Found(s.files.live.meta.value, s.files.live.body.value)))
  {
  }

  /** A lookup that nothing disturbs answers with the whole, unpoisoned entry. */
  lemma LookupAnswers(g: Globals, k: nat, s: KeyState, t: Tid, c: Choice, m: Meta, b: Body) returns (g': Globals, s': KeyState)
    requires KeyFree(s) && t !in s.reg.threads && c.ok
    requires !s.files.marker && !s.files.inMemory && s.files.live == Pair(Some(b), Some(m))
    ensures KeyStep(g, k, s, StartLookup(t)) == To(g, SetPc(s, t, FirstProbe))
    ensures Gets(g, k, SetPc(s, t, FirstProbe), t, c, g', s') && s'.crit == Locked(t, Found(m, b)) && s'.files == s.files
  {
    var s0, pc := SetPc(s, t, FirstProbe), Working(Lookup);
    Begin(g, k, s0, t, c);
    LookupEnters(g, k, s, t, c);
    g' := Go(g, k, s0, t, c, g, s0, SetPc(s, t, JobWantsMeta(Lookup)));
    LookupEnters(g', k, s, t, c);
    g' := Go(g, k, s0, t, c, g', SetPc(s, t, JobWantsMeta(Lookup)), Inside(s, t, pc, Recheck));
    LookupReads(g', k, s, t, c);
    g' := Go(g, k, s0, t, c, g', Inside(s, t, pc, Recheck), Inside(s, t, pc, ReadEntry));
    LookupReads(g', k, s, t, c);
    g' := Go(g, k, s0, t, c, g', Inside(s, t, pc, ReadEntry), Inside(s, t, pc, OpenBody(m)));
    LookupReads(g', k, s, t, c);
    s' := Inside(s, t, pc, Found(m, b));
    g' := Go(g, k, s0, t, c, g', Inside(s, t, pc, OpenBody(m)), s');
  }

  // ---------- metadata writers, evictions and cleanups ----------

  lemma JobEnters(g: Globals, k: nat, s: KeyState, t: Tid, job: Job, c: Choice)
    requires s.crit.Free?
    ensures Goes(g, k, SetPc(s, t, JobWantsMeta(job)), t, c, Inside(s, t, Working(job), FirstSection(job)))
  {
  }

  lemma JobLeaves(g: Globals, k: nat, s: KeyState, t: Tid, job: Job, r: Result, files: Files, led: Ledger, c: Choice)
    requires s.crit.Free? && t !in s.reg.threads
    ensures Goes(g, k, In(s, t, Working(job), Done(r), files, led), t, c, s.(files := files, led := led))
  {
    assert s.reg.threads[t := Working(job)] - {t} == s.reg.threads;
  }

  /** The call is waiting for the metadata lock, which is free. */
  predicate JobReady(s: KeyState, t: Tid, c: Choice) {
    KeyFree(s) && t !in s.reg.threads && c.ok
  }

  /** Writes the metadata an update or a touch has accepted. */
  predicate Accepts(job: Job, live: Pair) {
    match job
    case Update(expected, submitted) => live.body.Some? && live.meta.Some? && live.meta.value.id == expected && live.meta.value.version == submitted
    case Touch(expected, now) => live.meta.Some? && live.meta.value.id == expected && live.meta.value.accessed < now
    case _ => false
  }

  /** The metadata as the accepted call leaves it. */
  function Written(job: Job, m: Meta, c: Choice): Meta {
    match job
    case Update(_, _) => m.(version := SatAdd(m.version, 1), content := c.content, size := c.meta + 1)
    case Touch(_, now) => m.(accessed := now, size := c.meta + 1)
    case _ => m
  }

  lemma WriterSteps(g: Globals, k: nat, s: KeyState, t: Tid, job: Job, c: Choice)
    requires c.ok && (job.Update? || job.Touch?)
    ensures !Accepts(job, s.files.live) ==> Goes(g, k, Inside(s, t, Working(job), ReadMeta), t, c, Inside(s, t, Working(job), Done(Refused)))
    ensures Accepts(job, s.files.live) ==> Goes(g, k, Inside(s, t, Working(job), ReadMeta), t, c, Inside(s, t, Working(job), WriteMeta(s.files.live.meta.value)))
  {
  }

  lemma WriterWrites(g: Globals, k: nat, s: KeyState, t: Tid, job: Job, c: Choice, m: Meta)
    requires c.ok && (job.Update? || job.Touch?)
    ensures var m' := Written(job, m, c);
            var files, led := s.files.(live := s.files.live.(meta := Some(m'))), Retell(s.led, job, m, m');
            && Goes(g, k, Inside(s, t, Working(job), WriteMeta(m)), t, c, In(s, t, Working(job), Rebook(m.size, m'.size), files, led))
            && Goes(g, k, In(s, t, Working(job), Rebook(m.size, m'.size), files, led), t, c, In(s, t, Working(job), Done(Applied), files, led))
  {
  }

  /** An undisturbed update or touch writes exactly when it matches, and changes the metadata and nothing else. */
  lemma WriterWritesIff(g: Globals, k: nat, s: KeyState, t: Tid, job: Job, c: Choice) returns (g': Globals, s': KeyState)
    requires JobReady(s, t, c) && (job.Update? || job.Touch?)
    ensures KeyStep(g, k, s, StartJob(t, job)) == To(g, SetPc(s, t, JobWantsMeta(job)))
    ensures Gets(g, k, SetPc(s, t, JobWantsMeta(job)), t, c, g', s') && s'.reg == s.reg && s'.crit == s.crit
    ensures s'.files == if Accepts(job, s.files.live)
                        then s.files.(live := s.files.live.(meta := Some(Written(job, s.files.live.meta.value, c))))
                        else s.files
    ensures !Accepts(job, s.files.live) ==> s' == s
  {
    var s0, pc := SetPc(s, t, JobWantsMeta(job)), Working(job);
    Begin(g, k, s0, t, c);
    JobEnters(g, k, s, t, job, c);
    g' := Go(g, k, s0, t, c, g, s0, Inside(s, t, pc, ReadMeta));
    WriterSteps(g', k, s, t, job, c);
    if Accepts(job, s.files.live) {
      var m := s.files.live.meta.value;
      var m' := Written(job, m, c);
      var files, led := s.files.(live := s.files.live.(meta := Some(m'))), Retell(s.led, job, m, m');
      g' := Go(g, k, s0, t, c, g', Inside(s, t, pc, ReadMeta), Inside(s, t, pc, WriteMeta(m)));
      WriterWrites(g', k, s, t, job, c, m);
      g' := Go(g, k, s0, t, c, g', Inside(s, t, pc, WriteMeta(m)), In(s, t, pc, Rebook(m.size, m'.size), files, led));
      WriterWrites(g', k, s, t, job, c, m);
      g' := Go(g, k, s0, t, c, g', In(s, t, pc, Rebook(m.size, m'.size), files, led), In(s, t, pc, Done(Applied), files, led));
      JobLeaves(g', k, s, t, job, Applied, files, led, c);
      s' := s.(files := files, led := led);
      g' := Go(g, k, s0, t, c, g', In(s, t, pc, Done(Applied), files, led), s');
    } else {
      g' := Go(g, k, s0, t, c, g', Inside(s, t, pc, ReadMeta), Inside(s, t, pc, Done(Refused)));
      JobLeaves(g', k, s, t, job, Refused, s.files, s.led, c);
      s' := s;
      g' := Go(g, k, s0, t, c, g', Inside(s, t, pc, Done(Refused)), s');
    }
  }

  /** What is on disk is what the scan saw, or has no metadata that says otherwise. */
  predicate AsScanned(job: Job, live: Pair) {
    job.Evict? && (live.meta.None? || (live.meta.value.id == job.id && live.meta.value.accessed == job.accessed))
  }

  lemma EvictLooks(g: Globals, k: nat, s: KeyState, t: Tid, job: Job, c: Choice)
    requires c.ok && job.Evict?
    ensures !AsScanned(job, s.files.live) ==> Goes(g, k, Inside(s, t, Working(job), EvictCheck), t, c, Inside(s, t, Working(job), Done(Refused)))
    ensures AsScanned(job, s.files.live) ==> Goes(g, k, Inside(s, t, Working(job), EvictCheck), t, c, Inside(s, t, Working(job), EvictBody))
  {
  }

  lemma EvictRemoves(g: Globals, k: nat, s: KeyState, t: Tid, job: Job, c: Choice)
    requires c.ok && job.Evict?
    ensures var bodyless, empty := s.files.(live := s.files.live.(body := None)), s.files.(live := Pair(None, None));
            && Goes(g, k, Inside(s, t, Working(job), EvictBody), t, c, In(s, t, Working(job), EvictMeta(true), bodyless, s.led))
            && Goes(g, k, In(s, t, Working(job), EvictMeta(true), bodyless, s.led), t, c, In(s, t, Working(job), EvictMarker(true, true), empty, s.led))
  {
  }

  lemma EvictFinishes(g: Globals, k: nat, s: KeyState, t: Tid, job: Job, c: Choice)
    requires c.ok && job.Evict?
    ensures var empty := s.files.(live := Pair(None, None));
            && Goes(g, k, In(s, t, Working(job), EvictMarker(true, true), empty, s.led), t, c, In(s, t, Working(job), EvictUnbook, empty.(marker := false), s.led))
            && Goes(g, k, In(s, t, Working(job), EvictUnbook, empty.(marker := false), s.led), t, c, In(s, t, Working(job), Done(Applied), empty.(marker := false), s.led))
  {
  }

  /** An undisturbed eviction takes the entry and its marker exactly when it is still the one that was scanned. */
  lemma EvictsIff(g: Globals, k: nat, s: KeyState, t: Tid, job: Job, c: Choice) returns (g': Globals, s': KeyState)
    requires JobReady(s, t, c) && job.Evict?
    ensures KeyStep(g, k, s, StartJob(t, job)) == To(g.(clean := false), SetPc(s, t, JobWantsMeta(job)))
    ensures Gets(g.(clean := false), k, SetPc(s, t, JobWantsMeta(job)), t, c, g', s')
    ensures s' == if AsScanned(job, s.files.live) then s.(files := s.files.(live := Pair(None, None), marker := false)) else s
  {
    var s0, pc, h := SetPc(s, t, JobWantsMeta(job)), Working(job), g.(clean := false);
    var bodyless, empty := s.files.(live := s.files.live.(body := None)), s.files.(live := Pair(None, None));
    Begin(h, k, s0, t, c);
    JobEnters(h, k, s, t, job, c);
    g' := Go(h, k, s0, t, c, h, s0, Inside(s, t, pc, EvictCheck));
    EvictLooks(g', k, s, t, job, c);
    if AsScanned(job, s.files.live) {
      g' := Go(h, k, s0, t, c, g', Inside(s, t, pc, EvictCheck), Inside(s, t, pc, EvictBody));
      EvictRemoves(g', k, s, t, job, c);
      g' := Go(h, k, s0, t, c, g', Inside(s, t, pc, EvictBody), In(s, t, pc, EvictMeta(true), bodyless, s.led));
      EvictRemoves(g', k, s, t, job, c);
      g' := Go(h, k, s0, t, c, g', In(s, t, pc, EvictMeta(true), bodyless, s.led), In(s, t, pc, EvictMarker(true, true), empty, s.led));
      EvictFinishes(g', k, s, t, job, c);
      g' := Go(h, k, s0, t, c, g', In(s, t, pc, EvictMarker(true, true), empty, s.led), In(s, t, pc, EvictUnbook, empty.(marker := false), s.led));
      EvictFinishes(g', k, s, t, job, c);
      g' := Go(h, k, s0, t, c, g', In(s, t, pc, EvictUnbook, empty.(marker := false), s.led), In(s, t, pc, Done(Applied), empty.(marker := false), s.led));
      JobLeaves(g', k, s, t, job, Applied, empty.(marker := false), s.led, c);
      s' := s.(files := empty.(marker := false));
      g' := Go(h, k, s0, t, c, g', In(s, t, pc, Done(Applied), empty.(marker := false), s.led), s');
    } else {
      g' := Go(h, k, s0, t, c, g', Inside(s, t, pc, EvictCheck), Inside(s, t, pc, Done(Refused)));
      JobLeaves(g', k, s, t, job, Refused, s.files, s.led, c);
      s' := s;
      g' := Go(h, k, s0, t, c, g', Inside(s, t, pc, Done(Refused)), s');
    }
  }

  /** What a deferred cleanup is for. */
  predicate IsLeftover(job: Job, live: Pair) {
    if job.TidyMeta? then live.body.None? else live.meta.None?
  }

  /** The files after the cleanup. */
  function Tidied(job: Job, f: Files): Files {
    match job
    case TidyBody => f.(live := f.live.(body := None))
    case TidyMarker => f.(marker := false)
    case _ => f.(live := f.live.(meta := None), marker := false)
  }

  lemma TidySteps(g: Globals, k: nat, s: KeyState, t: Tid, job: Job, c: Choice)
    requires c.ok && (job.TidyBody? || job.TidyMarker? || job.TidyMeta?)
    ensures !IsLeftover(job, s.files.live) ==> Goes(g, k, Inside(s, t, Working(job), Probe), t, c, Inside(s, t, Working(job), Done(Refused)))
    ensures IsLeftover(job, s.files.live) ==>
              Goes(g, k, Inside(s, t, Working(job), Probe), t, c,
                   Inside(s, t, Working(job), match job case TidyBody => RemoveBody case TidyMarker => RemoveMarker case _ => RemoveMeta))
  {
  }

  lemma TidyRemoves(g: Globals, k: nat, s: KeyState, t: Tid, job: Job, c: Choice, files: Files)
    requires c.ok && (job.TidyBody? || job.TidyMarker? || job.TidyMeta?)
    ensures Goes(g, k, In(s, t, Working(job), RemoveBody, files, s.led), t, c,
                 In(s, t, Working(job), Done(Applied), files.(live := files.live.(body := None)), s.led))
    ensures Goes(g, k, In(s, t, Working(job), RemoveMeta, files, s.led), t, c,
                 In(s, t, Working(job), RemoveMarker, files.(live := files.live.(meta := None)), s.led))
  {
  }

  lemma TidyUnmarks(g: Globals, k: nat, s: KeyState, t: Tid, job: Job, c: Choice, files: Files)
    requires c.ok && (job.TidyMarker? || job.TidyMeta?)
    ensures Goes(g, k, In(s, t, Working(job), RemoveMarker, files, s.led), t, c,
                 In(s, t, Working(job), Done(Applied), files.(marker := false), s.led))
  {
  }

  /** An undisturbed cleanup removes its leftover exactly when it is one. */
  lemma TidiesIff(g: Globals, k: nat, s: KeyState, t: Tid, job: Job, c: Choice) returns (g': Globals, s': KeyState)
    requires JobReady(s, t, c) && (job.TidyBody? || job.TidyMarker? || job.TidyMeta?)
    ensures KeyStep(g, k, s, StartJob(t, job)) == To(g.(clean := false), SetPc(s, t, JobWantsMeta(job)))
    ensures Gets(g.(clean := false), k, SetPc(s, t, JobWantsMeta(job)), t, c, g', s')
    ensures s' == if IsLeftover(job, s.files.live) then s.(files := Tidied(job, s.files)) else s
  {
    var s0, pc, h := SetPc(s, t, JobWantsMeta(job)), Working(job), g.(clean := false);
    Begin(h, k, s0, t, c);
    JobEnters(h, k, s, t, job, c);
    g' := Go(h, k, s0, t, c, h, s0, Inside(s, t, pc, Probe));
    TidySteps(g', k, s, t, job, c);
    if IsLeftover(job, s.files.live) {
      var sec := match job case TidyBody => RemoveBody case TidyMarker => RemoveMarker case _ => RemoveMeta;
      g' := Go(h, k, s0, t, c, g', Inside(s, t, pc, Probe), Inside(s, t, pc, sec));
      var files := s.files;
      TidyRemoves(g', k, s, t, job, c, files);
      if job.TidyMeta? {
        files := files.(live := files.live.(meta := None));
        g' := Go(h, k, s0, t, c, g', Inside(s, t, pc, RemoveMeta), In(s, t, pc, RemoveMarker, files, s.led));
        TidyRemoves(g', k, s, t, job, c, files);
        sec := RemoveMarker;
      }
      if !job.TidyBody? { TidyUnmarks(g', k, s, t, job, c, files); }
      g' := Go(h, k, s0, t, c, g', In(s, t, pc, sec, files, s.led), In(s, t, pc, Done(Applied), Tidied(job, s.files), s.led));
      JobLeaves(g', k, s, t, job, Applied, Tidied(job, s.files), s.led, c);
      s' := s.(files := Tidied(job, s.files));
      g' := Go(h, k, s0, t, c, g', In(s, t, pc, Done(Applied), Tidied(job, s.files), s.led), s');
    } else {
      g' := Go(h, k, s0, t, c, g', Inside(s, t, pc, Probe), Inside(s, t, pc, Done(Refused)));
      JobLeaves(g', k, s, t, job, Refused, s.files, s.led, c);
      s' := s;
      g' := Go(h, k, s0, t, c, g', Inside(s, t, pc, Done(Refused)), s');
    }
  }

  // ---------- purges and poisons ----------

  /** With the commit lock of the entry the call has looked up, if there was one. */
  function Hold(s: KeyState, snap: Option<nat>, h: Option<Tid>): KeyState
    requires snap.Some? ==> snap.value < |s.reg.entries|
  {
    if snap.Some? then SetHolder(s, snap.value, h) else s
  }

  function Bumped(s: KeyState, inv: Inv): KeyState {
    s.(reg := Bump(s.reg, inv))
  }

  /** A purge or poison is about to begin, with its locks free. */
  predicate InvReady(s: KeyState, t: Tid, inv: Inv, c: Choice) {
    KeyFree(s) && t !in s.reg.threads && c.ok && (inv.snap.Some? ==> inv.snap.value < |s.reg.entries|)
  }

  function FirstOf(inv: Inv): Section {
    if inv.expected.Some? then Check else if inv.kind.Purge? then PurgeBody else MarkMemory
  }

  /** Up to the critical section; an unconditional call has fenced off the fills. */
  function Entered(s: KeyState, t: Tid, inv: Inv): KeyState
    requires inv.snap.Some? ==> inv.snap.value < |s.reg.entries|
  {
    var held := Hold(s, inv.snap, Some(t));
    if inv.expected.None? then Bumped(held, inv) else held
  }

  lemma InvEnters(g: Globals, k: nat, s: KeyState, t: Tid, inv: Inv, c: Choice)
    requires InvReady(s, t, inv, c)
    ensures Goes(g, k, SetPc(s, t, InvWantsCommit(inv)), t, c, SetPc(Hold(s, inv.snap, Some(t)), t, InvBumps(inv)))
  {
  }

  lemma InvBumpsGoes(g: Globals, k: nat, s: KeyState, t: Tid, inv: Inv, c: Choice)
    requires InvReady(s, t, inv, c)
    ensures Goes(g, k, SetPc(Hold(s, inv.snap, Some(t)), t, InvBumps(inv)), t, c, SetPc(Entered(s, t, inv), t, InvWantsMeta(inv)))
  {
  }

  lemma InvGetsIn(g: Globals, k: nat, s: KeyState, t: Tid, inv: Inv, c: Choice)
    requires InvReady(s, t, inv, c)
    ensures Goes(g, k, SetPc(Entered(s, t, inv), t, InvWantsMeta(inv)), t, c, Inside(Entered(s, t, inv), t, Invalidating(inv), FirstOf(inv)))
  {
  }

  lemma InvWalksIn(g: Globals, k: nat, s: KeyState, t: Tid, inv: Inv, c: Choice) returns (g': Globals)
    requires InvReady(s, t, inv, c)
    ensures Gets(g, k, SetPc(s, t, InvWantsCommit(inv)), t, c, g', Inside(Entered(s, t, inv), t, Invalidating(inv), FirstOf(inv)))
  {
    var s0, held, entered := SetPc(s, t, InvWantsCommit(inv)), Hold(s, inv.snap, Some(t)), Entered(s, t, inv);
    Begin(g, k, s0, t, c);
    InvEnters(g, k, s, t, inv, c);
    g' := Go(g, k, s0, t, c, g, s0, SetPc(held, t, InvBumps(inv)));
    InvBumpsGoes(g', k, s, t, inv, c);
    g' := Go(g, k, s0, t, c, g', SetPc(held, t, InvBumps(inv)), SetPc(entered, t, InvWantsMeta(inv)));
    InvGetsIn(g', k, s, t, inv, c);
    g' := Go(g, k, s0, t, c, g', SetPc(entered, t, InvWantsMeta(inv)), Inside(entered, t, Invalidating(inv), FirstOf(inv)));
  }

  /** Out of the critical section, about to report. */
  function Reports(base: KeyState, t: Tid, inv: Inv, r: Result, files: Files, led: Ledger): KeyState {
    SetPc(base, t, InvUnlocks(inv, r)).(crit := Free, files := files, led := led)
  }

  lemma InvComesOut(g: Globals, k: nat, base: KeyState, t: Tid, inv: Inv, r: Result, files: Files, led: Ledger, c: Choice)
    ensures Goes(g, k, In(base, t, Invalidating(inv), Done(r), files, led), t, c, Reports(base, t, inv, r, files, led))
  {
  }

  lemma CheckSteps(g: Globals, k: nat, base: KeyState, t: Tid, inv: Inv, c: Choice)
    requires c.ok && inv.expected.Some?
    ensures var live := base.files.live;
            Goes(g, k, Inside(base, t, Invalidating(inv), Check), t, c,
                 Inside(base, t, Invalidating(inv),
                        if live.meta.None? then (if inv.kind.Purge? then OrphanBody else Done(Refused))
                        else if live.meta.value.id == inv.expected.value then LateBump else Done(Refused)))
    ensures Goes(g, k, Inside(base, t, Invalidating(inv), LateBump), t, c,
                 Inside(Bumped(base, inv), t, Invalidating(inv), if inv.kind.Purge? then PurgeBody else MarkMemory))
  {
  }

  lemma PurgeRemoves(g: Globals, k: nat, base: KeyState, t: Tid, inv: Inv, c: Choice)
    requires c.ok
    ensures var live := base.files.live;
            var bodyless, empty := base.files.(live := live.(body := None)), base.files.(live := Pair(None, None));
            && (live != Pair(None, None) ==> Goes(g, k, Inside(base, t, Invalidating(inv), PurgeBody), t, c, In(base, t, Invalidating(inv), PurgeMeta(SizeOf(live)), bodyless, base.led)))
            && (live == Pair(None, None) ==> Goes(g, k, Inside(base, t, Invalidating(inv), PurgeBody), t, c, In(base, t, Invalidating(inv), ClearPoison(Applied), empty, base.led)))
            && Goes(g, k, In(base, t, Invalidating(inv), PurgeMeta(SizeOf(live)), bodyless, base.led), t, c, In(base, t, Invalidating(inv), PurgeUnbook(SizeOf(live)), empty, base.led))
  {
  }

  lemma PurgeClears(g: Globals, k: nat, base: KeyState, t: Tid, inv: Inv, c: Choice, seen: Footprint, files: Files, r: Result)
    requires c.ok
    ensures Goes(g, k, In(base, t, Invalidating(inv), PurgeUnbook(seen), files, base.led), t, c, In(base, t, Invalidating(inv), ClearPoison(Applied), files, base.led))
    ensures Goes(g, k, In(base, t, Invalidating(inv), ClearPoison(r), files, base.led), t, c,
                 In(base, t, Invalidating(inv), Done(r), Files(files.live, false, false), if r.Applied? then Fence(base.led, inv.cut) else base.led))
  {
  }

  const NO_FILES := Files(Pair(None, None), false, false)

  /** From the removal on: nothing is left, neither files nor poison. */
  lemma PurgeEmpties(g0: Globals, s0: KeyState, g: Globals, k: nat, base: KeyState, t: Tid, inv: Inv, c: Choice) returns (g': Globals)
    requires c.ok && Gets(g0, k, s0, t, c, g, Inside(base, t, Invalidating(inv), PurgeBody))
    ensures Gets(g0, k, s0, t, c, g', Reports(base, t, inv, Applied, NO_FILES, Fence(base.led, inv.cut)))
  {
    var live, pc := base.files.live, Invalidating(inv);
    var bodyless, empty := base.files.(live := live.(body := None)), base.files.(live := Pair(None, None));
    PurgeRemoves(g, k, base, t, inv, c);
    if live == Pair(None, None) {
      g' := Go(g0, k, s0, t, c, g, Inside(base, t, pc, PurgeBody), In(base, t, pc, ClearPoison(Applied), empty, base.led));
    } else {
      g' := Go(g0, k, s0, t, c, g, Inside(base, t, pc, PurgeBody), In(base, t, pc, PurgeMeta(SizeOf(live)), bodyless, base.led));
      PurgeRemoves(g', k, base, t, inv, c);
      g' := Go(g0, k, s0, t, c, g', In(base, t, pc, PurgeMeta(SizeOf(live)), bodyless, base.led), In(base, t, pc, PurgeUnbook(SizeOf(live)), empty, base.led));
      PurgeClears(g', k, base, t, inv, c, SizeOf(live), empty, Applied);
      g' := Go(g0, k, s0, t, c, g', In(base, t, pc, PurgeUnbook(SizeOf(live)), empty, base.led), In(base, t, pc, ClearPoison(Applied), empty, base.led));
    }
    PurgeClears(g', k, base, t, inv, c, SizeOf(live), empty, Applied);
    g' := Go(g0, k, s0, t, c, g', In(base, t, pc, ClearPoison(Applied), empty, base.led), In(base, t, pc, Done(Applied), NO_FILES, Fence(base.led, inv.cut)));
    InvComesOut(g', k, base, t, inv, Applied, NO_FILES, Fence(base.led, inv.cut), c);
    g' := Go(g0, k, s0, t, c, g', In(base, t, pc, Done(Applied), NO_FILES, Fence(base.led, inv.cut)), Reports(base, t, inv, Applied, NO_FILES, Fence(base.led, inv.cut)));
  }

  lemma PoisonSteps(g: Globals, k: nat, base: KeyState, t: Tid, inv: Inv, c: Choice)
    requires c.ok
    ensures var files, led := base.files.(inMemory := true), base.led.(memFence := Max(base.led.memFence, inv.cut));
            && Goes(g, k, Inside(base, t, Invalidating(inv), MarkMemory), t, c, In(base, t, Invalidating(inv), MarkDisk, files, led))
            && Goes(g, k, In(base, t, Invalidating(inv), MarkDisk, files, led), t, c, In(base, t, Invalidating(inv), Done(Applied), files.(marker := true), Fence(led, inv.cut)))
  {
  }

  /** From the mark on: the files stay, and both the fence in memory and the marker are up. */
  lemma PoisonMarks(g0: Globals, s0: KeyState, g: Globals, k: nat, base: KeyState, t: Tid, inv: Inv, c: Choice) returns (g': Globals, led: Ledger)
    requires c.ok && Gets(g0, k, s0, t, c, g, Inside(base, t, Invalidating(inv), MarkMemory))
    ensures Gets(g0, k, s0, t, c, g', Reports(base, t, inv, Applied, Files(base.files.live, true, true), led))
    ensures led.fence == Max(base.led.fence, inv.cut)
  {
    var pc, files, led1 := Invalidating(inv), base.files.(inMemory := true), base.led.(memFence := Max(base.led.memFence, inv.cut));
    led := Fence(led1, inv.cut);
    PoisonSteps(g, k, base, t, inv, c);
    g' := Go(g0, k, s0, t, c, g, Inside(base, t, pc, MarkMemory), In(base, t, pc, MarkDisk, files, led1));
    PoisonSteps(g', k, base, t, inv, c);
    g' := Go(g0, k, s0, t, c, g', In(base, t, pc, MarkDisk, files, led1), In(base, t, pc, Done(Applied), files.(marker := true), led));
    InvComesOut(g', k, base, t, inv, Applied, files.(marker := true), led, c);
    g' := Go(g0, k, s0, t, c, g', In(base, t, pc, Done(Applied), files.(marker := true), led), Reports(base, t, inv, Applied, files.(marker := true), led));
  }

  lemma OrphanSteps(g: Globals, k: nat, base: KeyState, t: Tid, inv: Inv, c: Choice)
    requires c.ok && base.files.live.meta.None?
    ensures Goes(g, k, Inside(base, t, Invalidating(inv), OrphanBody), t, c,
                 In(base, t, Invalidating(inv), ClearPoison(Refused), base.files.(live := Pair(None, None)), base.led))
  {
  }

  /** The entry the call is for is there, or the call is for any entry. */
  predicate Meant(inv: Inv, live: Pair) {
    inv.expected.Some? ==> live.meta.Some? && live.meta.value.id == inv.expected.value
  }

  /** What an undisturbed purge or poison leaves of the files. */
  function Invalidated(inv: Inv, f: Files): Files {
    if Meant(inv, f.live) then (if inv.kind.Purge? then NO_FILES else Files(f.live, true, true))
    else if inv.kind.Purge? && f.live.meta.None? then NO_FILES
    else f
  }

  /** The call has come to its report. */
  predicate Reported(s: KeyState, t: Tid, inv: Inv, r: Result) {
    t in s.reg.threads && s.reg.threads[t] == InvUnlocks(inv, r) && s.crit.Free?
  }

  lemma Turned(g0: Globals, s0: KeyState, g: Globals, k: nat, base: KeyState, t: Tid, inv: Inv, c: Choice) returns (g': Globals, s': KeyState)
    requires c.ok && inv.expected.Some? && !Meant(inv, base.files.live)
    requires Gets(g0, k, s0, t, c, g, Inside(base, t, Invalidating(inv), Check))
    ensures Gets(g0, k, s0, t, c, g', s') && Reported(s', t, inv, Refused) && s'.files == Invalidated(inv, base.files) && s'.led == base.led
  {
    var pc, files := Invalidating(inv), base.files;
    CheckSteps(g, k, base, t, inv, c);
    if inv.kind.Purge? && files.live.meta.None? {
      g' := Go(g0, k, s0, t, c, g, Inside(base, t, pc, Check), Inside(base, t, pc, OrphanBody));
      OrphanSteps(g', k, base, t, inv, c);
      files := files.(live := Pair(None, None));
      g' := Go(g0, k, s0, t, c, g', Inside(base, t, pc, OrphanBody), In(base, t, pc, ClearPoison(Refused), files, base.led));
      PurgeClears(g', k, base, t, inv, c, NOTHING, files, Refused);
      g' := Go(g0, k, s0, t, c, g', In(base, t, pc, ClearPoison(Refused), files, base.led), In(base, t, pc, Done(Refused), NO_FILES, base.led));
      files := NO_FILES;
    } else {
      g' := Go(g0, k, s0, t, c, g, Inside(base, t, pc, Check), Inside(base, t, pc, Done(Refused)));
    }
    InvComesOut(g', k, base, t, inv, Refused, files, base.led, c);
    s' := Reports(base, t, inv, Refused, files, base.led);
    g' := Go(g0, k, s0, t, c, g', In(base, t, pc, Done(Refused), files, base.led), s');
  }

  /**
    An undisturbed purge or poison reports success exactly when it is meant for what is there; then
    the purge has left nothing and the poison both its marks, and otherwise nothing but a body
    without metadata has gone.
  */
  lemma InvalidatesIff(g: Globals, k: nat, s: KeyState, t: Tid, kind: InvKind, expected: Option<nat>, c: Choice)
    returns (inv: Inv, g': Globals, s': KeyState)
    requires KeyFree(s) && t !in s.reg.threads && c.ok && (s.reg.active.Some? ==> s.reg.active.value < |s.reg.entries|)
    ensures inv == Inv(kind, expected, s.reg.active, s.reg.begun)
    ensures KeyStep(g, k, s, StartInv(t, kind, expected)) == To(g, SetPc(s, t, InvWantsCommit(inv)))
    ensures Gets(g, k, SetPc(s, t, InvWantsCommit(inv)), t, c, g', s')
    ensures Reported(s', t, inv, if Meant(inv, s.files.live) then Applied else Refused)
    ensures s'.files == Invalidated(inv, s.files)
    ensures if Meant(inv, s.files.live) then s'.led.fence == Max(s.led.fence, inv.cut) else s'.led == s.led
  {
    inv := Inv(kind, expected, s.reg.active, s.reg.begun);
    var s0, base := SetPc(s, t, InvWantsCommit(inv)), Entered(s, t, inv);
    g' := InvWalksIn(g, k, s, t, inv, c);
    if expected.Some? {
      if !Meant(inv, s.files.live) {
        g', s' := Turned(g, s0, g', k, base, t, inv, c);
        return;
      }
      CheckSteps(g', k, base, t, inv, c);
      g' := Go(g, k, s0, t, c, g', Inside(base, t, Invalidating(inv), Check), Inside(base, t, Invalidating(inv), LateBump));
      CheckSteps(g', k, base, t, inv, c);
      var bumped := Bumped(base, inv);
      g' := Go(g, k, s0, t, c, g', Inside(base, t, Invalidating(inv), LateBump), Inside(bumped, t, Invalidating(inv), if kind.Purge? then PurgeBody else MarkMemory));
      base := bumped;
    }
    if kind.Purge? {
      g' := PurgeEmpties(g, s0, g', k, base, t, inv, c);
      s' := Reports(base, t, inv, Applied, NO_FILES, Fence(base.led, inv.cut));
    } else {
      var led;
      g', led := PoisonMarks(g, s0, g', k, base, t, inv, c);
      s' := Reports(base, t, inv, Applied, Files(base.files.live, true, true), led);
    }
  }

  // ---------- fills ----------

  /** The table with the fill that has just begun, and the entry it uses. */
  function GuardOf(s: KeyState, t: Tid): Guard {
    var vacant := s.reg.active.None? || s.reg.active.value >= |s.reg.entries|;
    var e := if vacant then |s.reg.entries| else s.reg.active.value;
    Guard(s.reg.begun, e, if vacant then 0 else s.reg.entries[e].gen)
  }

  lemma FillBegins(s: KeyState, t: Tid)
    requires KeyFree(s)
    ensures var b, gd := BeginFill(s, t), GuardOf(s, t);
            && b.reg.threads == s.reg.threads[t := Held(gd)] && b.reg.active == Some(gd.entry) && gd.entry < |b.reg.entries|
            && b.reg.entries[gd.entry].gen == gd.gen && b.reg.entries[gd.entry].holder == None
            && b.crit.Free? && b.files == s.files && b.led == s.led && KeyFree(b)
  {
  }

  /** A fill that has begun, as the next steps need it. */
  predicate Begun(b: KeyState, t: Tid, gd: Guard) {
    && b.reg.active == Some(gd.entry) && gd.entry < |b.reg.entries| && b.reg.entries[gd.entry].gen == gd.gen && KeyFree(b)
    && t in b.reg.threads && b.reg.threads[t] == Held(gd)
  }

  lemma FillChecks(g: Globals, k: nat, b: KeyState, t: Tid, gd: Guard, c: Choice)
    requires Begun(b, t, gd) && c.ok
    ensures Goes(g, k, b, t, c, SetPc(b, t, PrePublish(gd)))
    ensures Goes(g, k, SetPc(b, t, PrePublish(gd)), t, c, SetPc(b, t, CloneEntry(gd)))
    ensures Goes(g, k, SetPc(b, t, CloneEntry(gd)), t, c, SetPc(b, t, FillWantsCommit(gd, gd.entry)))
  {
  }

  lemma FillLocks(g: Globals, k: nat, b: KeyState, t: Tid, gd: Guard, c: Choice)
    requires Begun(b, t, gd) && c.ok
    ensures var h := SetHolder(b, gd.entry, Some(t));
            && Goes(g, k, SetPc(b, t, FillWantsCommit(gd, gd.entry)), t, c, SetPc(h, t, FillWantsMeta(gd, gd.entry)))
            && Goes(g, k, SetPc(h, t, FillWantsMeta(gd, gd.entry)), t, c, Inside(h, t, Publishing(gd, gd.entry), Late))
            && Goes(g, k, Inside(h, t, Publishing(gd, gd.entry), Late), t, c, Inside(h, t, Publishing(gd, gd.entry), WantsId))
  {
  }

  /** While a fill only moves, the allocator stays as it is. */
  lemma FillWalksIn(g: Globals, k: nat, b: KeyState, t: Tid, gd: Guard, c: Choice)
    requires Begun(b, t, gd) && c.ok
    ensures Gets(g, k, b, t, c, g, Inside(SetHolder(b, gd.entry, Some(t)), t, Publishing(gd, gd.entry), WantsId))
  {
    var h := SetHolder(b, gd.entry, Some(t));
    Begin(g, k, b, t, c);
    FillChecks(g, k, b, t, gd, c);
    FillLocks(g, k, b, t, gd, c);
    MovesOnly(g, k, b, t, gd, c);
    var g' := Go(g, k, b, t, c, g, b, SetPc(b, t, PrePublish(gd)));
    g' := Go(g, k, b, t, c, g, SetPc(b, t, PrePublish(gd)), SetPc(b, t, CloneEntry(gd)));
    g' := Go(g, k, b, t, c, g, SetPc(b, t, CloneEntry(gd)), SetPc(b, t, FillWantsCommit(gd, gd.entry)));
    g' := Go(g, k, b, t, c, g, SetPc(b, t, FillWantsCommit(gd, gd.entry)), SetPc(h, t, FillWantsMeta(gd, gd.entry)));
    g' := Go(g, k, b, t, c, g, SetPc(h, t, FillWantsMeta(gd, gd.entry)), Inside(h, t, Publishing(gd, gd.entry), Late));
    g' := Go(g, k, b, t, c, g, Inside(h, t, Publishing(gd, gd.entry), Late), Inside(h, t, Publishing(gd, gd.entry), WantsId));
  }

  /** A fill at a step that touches nothing shared. */
  predicate JustMoves(s: KeyState, t: Tid) {
    && t in s.reg.threads && s.reg.threads[t].IsFill()
    && (!s.reg.threads[t].Publishing? || (s.crit.Locked? && s.crit.sec.Late?))
  }

  lemma MovesOnly(g: Globals, k: nat, b: KeyState, t: Tid, gd: Guard, c: Choice)
    ensures forall s: KeyState :: JustMoves(s, t) && KeyStep(g, k, s, Advance(t, c)).To? ==> KeyStep(g, k, s, Advance(t, c)).g == g
  {
  }

  /** With the id the fill takes. */
  function Taking(g: Globals, k: nat, t: Tid): Globals {
    g.(idLock := Some(Holder(k, t)))
  }

  function Taken(g: Globals, k: nat, gd: Guard): Globals {
    g.(nextId := g.nextId + 1, counter := Some(g.nextId + 1), owner := g.owner[g.nextId := Owner(k, gd.fill)])
  }

  lemma FillTakesId(g: Globals, k: nat, h: KeyState, t: Tid, gd: Guard, e: nat, c: Choice)
    requires c.ok && g.idLock == None && g.nextId < MAX_U64
    ensures KeyStep(g, k, Inside(h, t, Publishing(gd, e), WantsId), Advance(t, c)) == To(Taking(g, k, t), Inside(h, t, Publishing(gd, e), Reserving))
    ensures KeyStep(Taking(g, k, t), k, Inside(h, t, Publishing(gd, e), Reserving), Advance(t, c))
         == To(Taking(g, k, t).(nextId := g.nextId + 1), Inside(h, t, Publishing(gd, e), Persisting(g.nextId)))
    ensures KeyStep(Taking(g, k, t).(nextId := g.nextId + 1), k, Inside(h, t, Publishing(gd, e), Persisting(g.nextId)), Advance(t, c))
         == To(Taken(g, k, gd), Inside(h, t, Publishing(gd, e), Pubs(StartPub(gd, g.nextId, h.files.live, c))))
  {
  }

  /** What the publish phase leaves after some of its operations, all of which succeed. */
  function AfterStages(p: Pub, f: Pair, n: nat): (Pub, Pair) {
    if n == 0 then (p, f) else var (q, h) := AfterStages(p, f, n - 1); PublishStep(q, h, true)
  }

  lemma StagesPublish(p: Pub, f: Pair)
    requires p.stage.StageMeta?
    ensures var (q, h) := AfterStages(p, f, 7);
            q.stage.Published? && h == Pair(Some(p.newBody), Some(p.newMeta)) && q.newBody == p.newBody && q.newMeta == p.newMeta
    ensures forall n :: 0 <= n < 7 ==> !AfterStages(p, f, n).0.stage.Published? && !AfterStages(p, f, n).0.stage.RolledBack?
  {
    var a1 := PublishStep(p, f, true);
    assert AfterStages(p, f, 0) == (p, f);
    assert AfterStages(p, f, 1) == a1;
    var a2 := PublishStep(a1.0, a1.1, true);
    assert AfterStages(p, f, 2) == a2;
    var a3 := PublishStep(a2.0, a2.1, true);
    assert AfterStages(p, f, 3) == a3;
    var a4 := PublishStep(a3.0, a3.1, true);
    assert AfterStages(p, f, 4) == a4;
    var a5 := PublishStep(a4.0, a4.1, true);
    assert AfterStages(p, f, 5) == a5;
    var a6 := PublishStep(a5.0, a5.1, true);
    assert AfterStages(p, f, 6) == a6;
    assert AfterStages(p, f, 7) == PublishStep(a6.0, a6.1, true);
    forall n | 0 <= n < 7 ensures !AfterStages(p, f, n).0.stage.Published? && !AfterStages(p, f, n).0.stage.RolledBack? {
      assert n == 0 || n == 1 || n == 2 || n == 3 || n == 4 || n == 5 || n == 6;
    }
  }

  lemma StageGoes(g: Globals, k: nat, base: KeyState, t: Tid, gd: Guard, e: nat, c: Choice, p: Pub, files: Files)
    requires c.ok && !p.stage.RolledBack?
    ensures var (p', f') := PublishStep(p, files.live, true);
            !p'.stage.Published? && !p'.stage.RolledBack? ==>
              Goes(g, k, In(base, t, Publishing(gd, e), Pubs(p), files, base.led), t, c, In(base, t, Publishing(gd, e), Pubs(p'), files.(live := f'), base.led))
    ensures var (p', f') := PublishStep(p, files.live, true);
            p'.stage.Published? ==>
              var led := base.led.(lastId := p.newMeta.id, history := base.led.history[p.newMeta.id := Story([p.newMeta.content], p.newMeta.accessed)]);
              Goes(g, k, In(base, t, Publishing(gd, e), Pubs(p), files, base.led), t, c, In(base, t, Publishing(gd, e), Unbook(p'), files.(live := f'), led))
  {
  }

  /** One operation of the publish phase more, short of the last. */
  lemma StageMore(g0: Globals, s0: KeyState, g: Globals, k: nat, base: KeyState, t: Tid, gd: Guard, e: nat, c: Choice, p: Pub, f: Pair, p': Pub, f': Pair)
    returns (g': Globals)
    requires c.ok && !p.stage.RolledBack? && !p'.stage.RolledBack? && !p'.stage.Published? && PublishStep(p, f, true) == (p', f')
    requires Gets(g0, k, s0, t, c, g, In(base, t, Publishing(gd, e), Pubs(p), base.files.(live := f), base.led))
    ensures Gets(g0, k, s0, t, c, g', In(base, t, Publishing(gd, e), Pubs(p'), base.files.(live := f'), base.led))
  {
    var files := base.files.(live := f);
    StageGoes(g, k, base, t, gd, e, c, p, files);
    assert files.(live := f') == base.files.(live := f');
    g' := Go(g0, k, s0, t, c, g, In(base, t, Publishing(gd, e), Pubs(p), files, base.led),
             In(base, t, Publishing(gd, e), Pubs(p'), base.files.(live := f'), base.led));
  }

  lemma {:induction false} StagesGo(g0: Globals, s0: KeyState, g: Globals, k: nat, base: KeyState, t: Tid, gd: Guard, e: nat, c: Choice, p: Pub, n: nat)
    returns (g': Globals)
    requires c.ok && p.stage.StageMeta? && n < 7
    requires Gets(g0, k, s0, t, c, g, Inside(base, t, Publishing(gd, e), Pubs(p)))
    ensures var (q, f) := AfterStages(p, base.files.live, n);
            Gets(g0, k, s0, t, c, g', In(base, t, Publishing(gd, e), Pubs(q), base.files.(live := f), base.led))
  {
    if n == 0 {
      assert base.files.(live := base.files.live) == base.files;
      g' := g;
    } else {
      g' := StagesGo(g0, s0, g, k, base, t, gd, e, c, p, n - 1);
      StagesPublish(p, base.files.live);
      var (q, f) := AfterStages(p, base.files.live, n - 1);
      var (q', f') := AfterStages(p, base.files.live, n);
      g' := StageMore(g0, s0, g', k, base, t, gd, e, c, q, f, q', f');
    }
  }

  lemma FillSettles(g: Globals, k: nat, base: KeyState, t: Tid, gd: Guard, e: nat, c: Choice, p: Pub, files: Files, led: Ledger)
    requires c.ok
    ensures Goes(g, k, In(base, t, Publishing(gd, e), Unbook(p), files, led), t, c, In(base, t, Publishing(gd, e), Book(p), files, led))
    ensures Goes(g, k, In(base, t, Publishing(gd, e), Book(p), files, led), t, c, In(base, t, Publishing(gd, e), Unpoison(p), files, led))
    ensures Goes(g, k, In(base, t, Publishing(gd, e), Unpoison(p), files, led), t, c,
                 In(base, t, Publishing(gd, e), Done(Applied), Files(files.live, false, false), led))
  {
  }

  lemma FillComesOut(g: Globals, k: nat, base: KeyState, t: Tid, gd: Guard, e: nat, c: Choice, files: Files, led: Ledger)
    requires e < |base.reg.entries|
    ensures var out := base.(crit := Free, files := files, led := led);
            && Goes(g, k, In(base, t, Publishing(gd, e), Done(Applied), files, led), t, c, SetPc(out, t, FillUnlocks(gd, e)))
            && Goes(g, k, SetPc(out, t, FillUnlocks(gd, e)), t, c, SetPc(SetHolder(out, e, None), t, Finish(gd)))
            && Goes(g, k, SetPc(SetHolder(out, e, None), t, Finish(gd)), t, c, FinishFill(SetPc(SetHolder(out, e, None), t, Finish(gd)), t))
  {
  }

  /** Published in full, and no poison left. */
  function FilledBy(gd: Guard, id: nat, c: Choice): Files {
    Files(Pair(Some(Body(gd.fill, id, c.body)), Some(Meta(gd.fill, id, 0, c.accessed, c.content, c.meta + 1))), false, false)
  }

  /** The publish phase up to its last operation, which installs the phase's own pair. */
  lemma NearlyPublished(g0: Globals, s0: KeyState, g: Globals, k: nat, base: KeyState, t: Tid, gd: Guard, e: nat, c: Choice, p: Pub)
    returns (g': Globals, q: Pub, f: Pair, q': Pub)
    requires c.ok && p.stage.StageMeta? && Gets(g0, k, s0, t, c, g, Inside(base, t, Publishing(gd, e), Pubs(p)))
    ensures Gets(g0, k, s0, t, c, g', In(base, t, Publishing(gd, e), Pubs(q), base.files.(live := f), base.led))
    ensures PublishStep(q, f, true) == (q', Pair(Some(p.newBody), Some(p.newMeta))) && !q.stage.RolledBack? && q'.stage.Published?
    ensures q.newMeta == p.newMeta
  {
    g' := StagesGo(g0, s0, g, k, base, t, gd, e, c, p, 6);
    StagesPublish(p, base.files.live);
    KeepsNew(p, base.files.live, 6);
    q, f := AfterStages(p, base.files.live, 6).0, AfterStages(p, base.files.live, 6).1;
    assert AfterStages(p, base.files.live, 7) == PublishStep(q, f, true);
    q' := PublishStep(q, f, true).0;
  }

  lemma FillPublishes(g0: Globals, s0: KeyState, g: Globals, k: nat, base: KeyState, t: Tid, gd: Guard, e: nat, c: Choice, id: nat) returns (g': Globals, led: Ledger)
    requires c.ok && Gets(g0, k, s0, t, c, g, Inside(base, t, Publishing(gd, e), Pubs(StartPub(gd, id, base.files.live, c))))
    ensures Gets(g0, k, s0, t, c, g', In(base, t, Publishing(gd, e), Done(Applied), FilledBy(gd, id, c), led))
  {
    var q, f, q';
    var p := StartPub(gd, id, base.files.live, c);
    g', q, f, q' := NearlyPublished(g0, s0, g, k, base, t, gd, e, c, p);
    var before, files := base.files.(live := f), base.files.(live := FilledBy(gd, id, c).live);
    led := base.led.(lastId := p.newMeta.id, history := base.led.history[p.newMeta.id := Story([p.newMeta.content], p.newMeta.accessed)]);
    StageGoes(g', k, base, t, gd, e, c, q, before);
    assert before.(live := FilledBy(gd, id, c).live) == files;
    g' := Go(g0, k, s0, t, c, g', In(base, t, Publishing(gd, e), Pubs(q), before, base.led), In(base, t, Publishing(gd, e), Unbook(q'), files, led));
    g' := FillSettlesAll(g0, s0, g', k, base, t, gd, e, c, q', files, led);
  }

  lemma FillSettlesAll(g0: Globals, s0: KeyState, g: Globals, k: nat, base: KeyState, t: Tid, gd: Guard, e: nat, c: Choice, p: Pub, files: Files, led: Ledger)
    returns (g': Globals)
    requires c.ok && Gets(g0, k, s0, t, c, g, In(base, t, Publishing(gd, e), Unbook(p), files, led))
    ensures Gets(g0, k, s0, t, c, g', In(base, t, Publishing(gd, e), Done(Applied), Files(files.live, false, false), led))
  {
    FillSettles(g, k, base, t, gd, e, c, p, files, led);
    g' := Go(g0, k, s0, t, c, g, In(base, t, Publishing(gd, e), Unbook(p), files, led), In(base, t, Publishing(gd, e), Book(p), files, led));
    FillSettles(g', k, base, t, gd, e, c, p, files, led);
    g' := Go(g0, k, s0, t, c, g', In(base, t, Publishing(gd, e), Book(p), files, led), In(base, t, Publishing(gd, e), Unpoison(p), files, led));
    FillSettles(g', k, base, t, gd, e, c, p, files, led);
    g' := Go(g0, k, s0, t, c, g', In(base, t, Publishing(gd, e), Unpoison(p), files, led), In(base, t, Publishing(gd, e), Done(Applied), Files(files.live, false, false), led));
  }

  lemma KeepsNew(p: Pub, f: Pair, n: nat)
    ensures AfterStages(p, f, n).0.newBody == p.newBody && AfterStages(p, f, n).0.newMeta == p.newMeta
  {
  }

  /**
    An undisturbed fill publishes, whatever was there, whoever else is in flight and whether or not
    the key was poisoned; it leaves its own pair and no poison, and the locks as free as they were.
  */
  lemma FillsAndLiftsPoison(g: Globals, k: nat, s: KeyState, t: Tid, c: Choice) returns (g': Globals, s': KeyState)
    requires KeyFree(s) && t !in s.reg.threads && c.ok && g.idLock == None && g.nextId < MAX_U64
    ensures KeyStep(g, k, s, StartFill(t)) == To(g, BeginFill(s, t))
    ensures Gets(g, k, BeginFill(s, t), t, c, g', s') && KeyFree(s') && s'.reg.threads == s.reg.threads
    ensures s'.files == FilledBy(GuardOf(s, t), g.nextId, c)
  {
    var b, gd := BeginFill(s, t), GuardOf(s, t);
    FillBegins(s, t);
    var h, pc := SetHolder(b, gd.entry, Some(t)), Publishing(gd, gd.entry);
    FillWalksIn(g, k, b, t, gd, c);
    FillTakesId(g, k, h, t, gd, gd.entry, c);
    g' := Go(g, k, b, t, c, g, Inside(h, t, pc, WantsId), Inside(h, t, pc, Reserving));
    g' := Go(g, k, b, t, c, g', Inside(h, t, pc, Reserving), Inside(h, t, pc, Persisting(g.nextId)));
    g' := Go(g, k, b, t, c, g', Inside(h, t, pc, Persisting(g.nextId)), Inside(h, t, pc, Pubs(StartPub(gd, g.nextId, h.files.live, c))));
    var led;
    g', led := FillPublishes(g, b, g', k, h, t, gd, gd.entry, c, g.nextId);
    var files := FilledBy(gd, g.nextId, c);
    var out := h.(crit := Free, files := files, led := led);
    FillComesOut(g', k, h, t, gd, gd.entry, c, files, led);
    g' := Go(g, k, b, t, c, g', In(h, t, pc, Done(Applied), files, led), SetPc(out, t, FillUnlocks(gd, gd.entry)));
    FillComesOut(g', k, h, t, gd, gd.entry, c, files, led);
    g' := Go(g, k, b, t, c, g', SetPc(out, t, FillUnlocks(gd, gd.entry)), SetPc(SetHolder(out, gd.entry, None), t, Finish(gd)));
    FillComesOut(g', k, h, t, gd, gd.entry, c, files, led);
    s' := FinishFill(SetPc(SetHolder(out, gd.entry, None), t, Finish(gd)), t);
    g' := Go(g, k, b, t, c, g', SetPc(SetHolder(out, gd.entry, None), t, Finish(gd)), s');
    assert s'.reg.threads == s.reg.threads;
  }

  /** So a poisoned key is answered again once a fill has published: by a lookup that follows, with the fill's own pair. */
  lemma FilledIsAnswered(g: Globals, k: nat, s: KeyState, t: Tid, u: Tid, c: Choice) returns (filled: Globals, s1: KeyState, g': Globals, s': KeyState)
    requires KeyFree(s) && t !in s.reg.threads && c.ok && g.idLock == None && g.nextId < MAX_U64
    requires u !in s.reg.threads
    ensures Gets(g, k, BeginFill(s, t), t, c, filled, s1) && Gets(filled, k, SetPc(s1, u, FirstProbe), u, c, g', s')
    ensures var gd := GuardOf(s, t);
            s'.crit == Locked(u, Found(Meta(gd.fill, g.nextId, 0, c.accessed, c.content, c.meta + 1), Body(gd.fill, g.nextId, c.body)))
  {
    filled, s1 := FillsAndLiftsPoison(g, k, s, t, c);
    var gd := GuardOf(s, t);
    g', s' := LookupAnswers(filled, k, s1, u, c, s1.files.live.meta.value, s1.files.live.body.value);
  }
}
