/**
  Runs that show the theorems speak of something: a fill publishes and a lookup finds what it
  published; and after a poison succeeded, three failures and a crash let a lookup return a new body
  under the old metadata, so that after a poison the metadata needs the condition that
  PoisonCoversMetadata has. (After a purge it needs none: NoStaleRead.)
*/
module ProtocolExample {
  import opened Common
  import opened FillIds
  import opened Protocol
  import opened ProtocolInvariant
  import opened ProtocolPairs
  import opened ProtocolTheorems

  const OK := Choice(true, true, 10, 5, "content", 7)
  const BAD := OK.(ok := false)

  // ---------- one event more ----------

  lemma {:induction false} RunAppend(s: System, evs: seq<Event>, ev: Event)
    requires Run(s, evs).Reached?
    ensures Run(s, evs + [ev]) == Step(Run(s, evs).s, ev)
    decreases |evs|
  {
    if evs == [] {
      assert evs + [ev] == [ev];
      assert [ev][1..] == [];
    } else {
      assert (evs + [ev])[0] == evs[0] && (evs + [ev])[1..] == evs[1..] + [ev];
      RunAppend(Step(s, evs[0]).s, evs[1..], ev);
    }
  }

  /** The events lead from `s0` to this state of the only key. */
  ghost predicate Path(s0: System, evs: seq<Event>, g: Globals, ks: KeyState) {
    Run(s0, evs) == Reached(System(g, [ks]))
  }

  lemma NextEvent(s0: System, evs: seq<Event>, g: Globals, ks: KeyState, ev: Event, g': Globals, ks': KeyState) returns (evs': seq<Event>)
    requires Path(s0, evs, g, ks) && Step(System(g, [ks]), ev) == Reached(System(g', [ks']))
    ensures Path(s0, evs', g', ks')
  {
    evs' := evs + [ev];
    RunAppend(s0, evs, ev);
  }

  /** A step of the only key. */
  predicate Goes(g: Globals, ks: KeyState, a: Action, g': Globals, ks': KeyState) {
    KeyStep(g, 0, ks, a) == To(g', ks')
  }

  lemma Next(s0: System, evs: seq<Event>, g: Globals, ks: KeyState, a: Action) returns (evs': seq<Event>, g': Globals, ks': KeyState)
    requires Path(s0, evs, g, ks) && KeyStep(g, 0, ks, a).To?
    ensures Path(s0, evs', g', ks') && Goes(g, ks, a, g', ks')
  {
    g', ks' := KeyStep(g, 0, ks, a).g, KeyStep(g, 0, ks, a).s;
    assert System(g, [ks]).keys[0 := ks'] == [ks'];
    evs' := NextEvent(s0, evs, g, ks, OnKey(0, a), g', ks');
  }

  // ---------- a lookup of an idle key ----------

  /** Nobody uses the key. */
  predicate Idle(ks: KeyState) {
    ks.crit.Free? && ks.reg.threads == map[] && ks.reg.active == None
  }

  function Alone(ks: KeyState, t: Tid, pc: Pc): KeyState {
    ks.(reg := ks.reg.(threads := map[t := pc]))
  }

  function Inside(ks: KeyState, t: Tid, pc: Pc, sec: Section): KeyState {
    Alone(ks, t, pc).(crit := Locked(t, sec))
  }

  lemma LookupEnters(g: Globals, ks: KeyState, t: Tid)
    requires Idle(ks) && !ks.files.marker && !ks.files.inMemory
    ensures Goes(g, ks, StartLookup(t), g, Alone(ks, t, FirstProbe))
    ensures Goes(g, Alone(ks, t, FirstProbe), Advance(t, OK), g, Alone(ks, t, JobWantsMeta(Lookup)))
    ensures Goes(g, Alone(ks, t, JobWantsMeta(Lookup)), Advance(t, OK), g, Inside(ks, t, Working(Lookup), Recheck))
  {
  }

  lemma LookupReads(g: Globals, ks: KeyState, t: Tid, m: Meta, b: Body)
    requires !ks.files.marker && !ks.files.inMemory && ks.files.live == Pair(Some(b), Some(m))
    ensures Goes(g, Inside(ks, t, Working(Lookup), Recheck), Advance(t, OK), g, Inside(ks, t, Working(Lookup), ReadEntry))
    ensures Goes(g, Inside(ks, t, Working(Lookup), ReadEntry), Advance(t, OK), g, Inside(ks, t, Working(Lookup), OpenBody(m)))
    ensures Goes(g, Inside(ks, t, Working(Lookup), OpenBody(m)), Advance(t, OK), g, Inside(ks, t, Working(Lookup), Found(m, b)))
  {
  }

  /** A lookup finds the entry of an idle key that is not poisoned. */
  lemma LookupFinds(s0: System, evs: seq<Event>, g: Globals, ks: KeyState, t: Tid, m: Meta, b: Body) returns (evs': seq<Event>)
    requires Path(s0, evs, g, ks) && Idle(ks) && !ks.files.marker && !ks.files.inMemory && ks.files.live == Pair(Some(b), Some(m))
    ensures Path(s0, evs', g, Inside(ks, t, Working(Lookup), Found(m, b)))
  {
    var h, now := g, ks;
    LookupEnters(g, ks, t);
    LookupReads(g, ks, t, m, b);
    evs', h, now := Next(s0, evs, h, now, StartLookup(t));
    evs', h, now := Next(s0, evs', h, now, Advance(t, OK));
    evs', h, now := Next(s0, evs', h, now, Advance(t, OK));
    evs', h, now := Next(s0, evs', h, now, Advance(t, OK));
    evs', h, now := Next(s0, evs', h, now, Advance(t, OK));
    evs', h, now := Next(s0, evs', h, now, Advance(t, OK));
  }

  // ---------- a fill of an idle key ----------

  function GuardOf(ks: KeyState): Guard {
    Guard(ks.reg.begun, |ks.reg.entries|, 0)
  }

  /** The only fill of a key that was idle in `ks`. */
  function Filling(ks: KeyState, t: Tid, pc: Pc, holder: Option<Tid>): KeyState {
    ks.(reg := Registry(map[t := pc], ks.reg.entries + [FillEntry(1, 0, holder)], Some(|ks.reg.entries|), ks.reg.begun + 1, ks.reg.bar))
  }

  function FillInside(ks: KeyState, t: Tid, sec: Section): KeyState {
    Filling(ks, t, Publishing(GuardOf(ks), |ks.reg.entries|), Some(t)).(crit := Locked(t, sec))
  }

  lemma FillArrives(g: Globals, ks: KeyState, t: Tid)
    requires Idle(ks)
    ensures Goes(g, ks, StartFill(t), g, Filling(ks, t, Held(GuardOf(ks)), None))
  {
    var entries := ks.reg.entries + [FillEntry(0, 0, None)];
    assert entries[|ks.reg.entries| := FillEntry(1, 0, None)] == ks.reg.entries + [FillEntry(1, 0, None)];
    assert BeginFill(ks, t).reg == Filling(ks, t, Held(GuardOf(ks)), None).reg;
  }

  lemma FillChecks(g: Globals, ks: KeyState, t: Tid)
    ensures var gd := GuardOf(ks);
            && Goes(g, Filling(ks, t, Held(gd), None), Advance(t, OK), g, Filling(ks, t, PrePublish(gd), None))
            && Goes(g, Filling(ks, t, PrePublish(gd), None), Advance(t, OK), g, Filling(ks, t, CloneEntry(gd), None))
  {
    assert CurrentGen(Filling(ks, t, Held(GuardOf(ks)), None).reg) == 0;
    assert CurrentGen(Filling(ks, t, PrePublish(GuardOf(ks)), None).reg) == 0;
  }

  lemma FillLocks(g: Globals, ks: KeyState, t: Tid)
    requires Idle(ks)
    ensures var gd, e := GuardOf(ks), |ks.reg.entries|;
            && Goes(g, Filling(ks, t, CloneEntry(gd), None), Advance(t, OK), g, Filling(ks, t, FillWantsCommit(gd, e), None))
            && Goes(g, Filling(ks, t, FillWantsCommit(gd, e), None), Advance(t, OK), g, Filling(ks, t, FillWantsMeta(gd, e), Some(t)))
            && Goes(g, Filling(ks, t, FillWantsMeta(gd, e), Some(t)), Advance(t, OK), g, FillInside(ks, t, Late))
  {
    var e := |ks.reg.entries|;
    assert (ks.reg.entries + [FillEntry(1, 0, None)])[e := FillEntry(1, 0, Some(t))] == ks.reg.entries + [FillEntry(1, 0, Some(t))];
  }

  /** While the fill takes an id, and with the id reserved for it. */
  function Taking(g: Globals, t: Tid): Globals {
    g.(idLock := Some(Holder(0, t)))
  }

  function Reserved(g: Globals, ks: KeyState): Globals {
    g.(nextId := g.nextId + 1, counter := Some(g.nextId + 1), owner := g.owner[g.nextId := Owner(0, ks.reg.begun)])
  }

  function PubOf(g: Globals, ks: KeyState, stage: Stage): Pub {
    StartPub(GuardOf(ks), g.nextId, ks.files.live, OK).(stage := stage)
  }

  lemma FillWantsIt(g: Globals, ks: KeyState, t: Tid)
    requires g.idLock == None
    ensures Goes(g, FillInside(ks, t, Late), Advance(t, OK), g, FillInside(ks, t, WantsId))
    ensures Goes(g, FillInside(ks, t, WantsId), Advance(t, OK), Taking(g, t), FillInside(ks, t, Reserving))
  {
    assert CurrentGen(FillInside(ks, t, Late).reg) == 0;
  }

  lemma FillTakes(g: Globals, ks: KeyState, t: Tid)
    requires g.idLock == None && g.nextId < MAX_U64
    ensures Goes(Taking(g, t), FillInside(ks, t, Reserving), Advance(t, OK), Taking(g, t).(nextId := g.nextId + 1), FillInside(ks, t, Persisting(g.nextId)))
    ensures Goes(Taking(g, t).(nextId := g.nextId + 1), FillInside(ks, t, Persisting(g.nextId)), Advance(t, OK),
                 Reserved(g, ks), FillInside(ks, t, Pubs(PubOf(g, ks, StageMeta))))
  {
  }

  lemma FillLooks(g: Globals, ks: KeyState, t: Tid, h: Globals, c: Choice)
    requires c in {OK, BAD} && ks.files.live.body.None? && (ks.files.live.meta.None? || c == BAD)
    ensures Goes(h, FillInside(ks, t, Pubs(PubOf(g, ks, StageMeta))), Advance(t, OK), h, FillInside(ks, t, Pubs(PubOf(g, ks, StatBody))))
    ensures Goes(h, FillInside(ks, t, Pubs(PubOf(g, ks, StatBody))), Advance(t, OK), h, FillInside(ks, t, Pubs(PubOf(g, ks, StatMeta))))
    ensures Goes(h, FillInside(ks, t, Pubs(PubOf(g, ks, StatMeta))), Advance(t, c), After(h, c.ok), FillInside(ks, t, Pubs(PubOf(g, ks, SaveBody))))
  {
  }

  /** Between the two renames. */
  function Halfway(g: Globals, ks: KeyState, t: Tid): KeyState {
    SetBody(FillInside(ks, t, Pubs(PubOf(g, ks, PutMeta))), Some(PubOf(g, ks, PutMeta).newBody))
  }

  lemma FillRenames(g: Globals, ks: KeyState, t: Tid, h: Globals)
    ensures Goes(h, FillInside(ks, t, Pubs(PubOf(g, ks, SaveBody))), Advance(t, OK), h, FillInside(ks, t, Pubs(PubOf(g, ks, SaveMeta))))
    ensures Goes(h, FillInside(ks, t, Pubs(PubOf(g, ks, SaveMeta))), Advance(t, OK), h, FillInside(ks, t, Pubs(PubOf(g, ks, PutBody))))
    ensures Goes(h, FillInside(ks, t, Pubs(PubOf(g, ks, PutBody))), Advance(t, OK), h, Halfway(g, ks, t))
  {
  }

  lemma FillGetsInside(s0: System, evs: seq<Event>, g: Globals, ks: KeyState, t: Tid) returns (evs': seq<Event>)
    requires Path(s0, evs, g, ks) && Idle(ks) && g.idLock == None && g.nextId < MAX_U64
    ensures Path(s0, evs', Reserved(g, ks), FillInside(ks, t, Pubs(PubOf(g, ks, StageMeta))))
  {
    var h, now := g, ks;
    FillArrives(g, ks, t);
    FillChecks(g, ks, t);
    FillLocks(g, ks, t);
    FillWantsIt(g, ks, t);
    FillTakes(g, ks, t);
    evs', h, now := Next(s0, evs, h, now, StartFill(t));
    evs', h, now := Next(s0, evs', h, now, Advance(t, OK));
    evs', h, now := Next(s0, evs', h, now, Advance(t, OK));
    evs', h, now := Next(s0, evs', h, now, Advance(t, OK));
    evs', h, now := Next(s0, evs', h, now, Advance(t, OK));
    evs', h, now := Next(s0, evs', h, now, Advance(t, OK));
    evs', h, now := Next(s0, evs', h, now, Advance(t, OK));
    evs', h, now := Next(s0, evs', h, now, Advance(t, OK));
    evs', h, now := Next(s0, evs', h, now, Advance(t, OK));
    evs', h, now := Next(s0, evs', h, now, Advance(t, OK));
  }

  /**
    A fill of an idle key without a body gets as far as between its two renames; when its stat of the
    metadata fails (`c`), metadata that is there stays in place.
  */
  lemma FillGetsHalfway(s0: System, evs: seq<Event>, g: Globals, ks: KeyState, t: Tid, c: Choice) returns (evs': seq<Event>)
    requires Path(s0, evs, g, ks) && Idle(ks) && g.idLock == None && g.nextId < MAX_U64 && c in {OK, BAD}
    requires ks.files.live.body.None? && (ks.files.live.meta.None? || c == BAD)
    ensures Path(s0, evs', After(Reserved(g, ks), c.ok), Halfway(g, ks, t))
  {
    evs' := FillGetsInside(s0, evs, g, ks, t);
    var h, now := Reserved(g, ks), FillInside(ks, t, Pubs(PubOf(g, ks, StageMeta)));
    FillLooks(g, ks, t, h, c);
    FillRenames(g, ks, t, After(h, c.ok));
    evs', h, now := Next(s0, evs', h, now, Advance(t, OK));
    evs', h, now := Next(s0, evs', h, now, Advance(t, OK));
    evs', h, now := Next(s0, evs', h, now, Advance(t, c));
    evs', h, now := Next(s0, evs', h, now, Advance(t, OK));
    evs', h, now := Next(s0, evs', h, now, Advance(t, OK));
    evs', h, now := Next(s0, evs', h, now, Advance(t, OK));
  }

  // ---------- the first fill goes on to publish ----------

  const START := Fresh(1)
  const IDS := Reserved(START.g, EMPTY_KEY)
  const FIRST := PubOf(START.g, EMPTY_KEY, Published)
  const NEW := Pair(Some(FIRST.newBody), Some(FIRST.newMeta))
  const COUNTED := IDS.(stats := Footprint(1, 16))

  /** Published, and the fill gone. */
  const FULL := EMPTY_KEY.(
    reg := Registry(map[], [FillEntry(0, 0, None)], None, 1, 0), files := Files(NEW, false, false),
    led := Ledger(0, 0, false, map[1 := Story(["content"], 7)], 1))

  function Settling(sec: Section): KeyState {
    FillInside(EMPTY_KEY, 0, sec).(files := FULL.files, led := FULL.led)
  }

  function Leaving(pc: Pc, holder: Option<Tid>): KeyState {
    Filling(EMPTY_KEY, 0, pc, holder).(files := FULL.files, led := FULL.led)
  }

  lemma FirstPublishes()
    ensures Goes(IDS, Halfway(START.g, EMPTY_KEY, 0), Advance(0, OK), IDS, Settling(Unbook(FIRST)))
    ensures Goes(IDS, Settling(Unbook(FIRST)), Advance(0, OK), IDS, Settling(Book(FIRST)))
  {
  }

  lemma FirstIsBooked()
    ensures Goes(IDS, Settling(Book(FIRST)), Advance(0, OK), COUNTED, Settling(Unpoison(FIRST)))
    ensures Goes(COUNTED, Settling(Unpoison(FIRST)), Advance(0, OK), COUNTED, Settling(Done(Applied)))
  {
  }

  lemma FirstLeaves()
    ensures Goes(COUNTED, Settling(Done(Applied)), Advance(0, OK), COUNTED, Leaving(FillUnlocks(GuardOf(EMPTY_KEY), 0), Some(0)))
    ensures Goes(COUNTED, Leaving(FillUnlocks(GuardOf(EMPTY_KEY), 0), Some(0)), Advance(0, OK), COUNTED, Leaving(Finish(GuardOf(EMPTY_KEY)), None))
    ensures Goes(COUNTED, Leaving(Finish(GuardOf(EMPTY_KEY)), None), Advance(0, OK), COUNTED, FULL)
  {
  }

  lemma UpToFull() returns (evs: seq<Event>)
    ensures Path(START, evs, COUNTED, FULL)
  {
    assert START.keys == [EMPTY_KEY];
    evs := FillGetsHalfway(START, [], START.g, EMPTY_KEY, 0, OK);
    var h, now := IDS, Halfway(START.g, EMPTY_KEY, 0);
    FirstPublishes();
    FirstIsBooked();
    FirstLeaves();
    evs, h, now := Next(START, evs, h, now, Advance(0, OK));
    evs, h, now := Next(START, evs, h, now, Advance(0, OK));
    evs, h, now := Next(START, evs, h, now, Advance(0, OK));
    evs, h, now := Next(START, evs, h, now, Advance(0, OK));
    evs, h, now := Next(START, evs, h, now, Advance(0, OK));
    evs, h, now := Next(START, evs, h, now, Advance(0, OK));
    evs, h, now := Next(START, evs, h, now, Advance(0, OK));
  }

  /** A run in which a fill publishes and a lookup answers with it. */
  lemma AFillIsFound() returns (evs: seq<Event>, s: System)
    ensures Reachable(1, evs, s) && Answers(s.keys[0], NEW.meta.value, NEW.body.value)
    ensures Coherent(s.keys[0].files.live) && s.g.clean && s.g.stats == Footprint(1, 16)
  {
    evs := UpToFull();
    evs := LookupFinds(START, evs, COUNTED, FULL, 1, NEW.meta.value, NEW.body.value);
    s := System(COUNTED, [Inside(FULL, 1, Working(Lookup), Found(NEW.meta.value, NEW.body.value))]);
  }

  // ---------- a poison, half an eviction ----------

  const POISONING := Inv(Poison, None, None, 1)

  const BUMPED := FULL.(reg := FULL.reg.(bar := 1))
  const FENCED := BUMPED.(files := Files(NEW, false, true), led := FULL.led.(memFence := 1))
  const POISONED := BUMPED.(files := Files(NEW, true, true), led := FULL.led.(fence := 1, memFence := 1))

  /** The poison call is about to report success. */
  const REPORTED := Alone(POISONED, 2, InvUnlocks(POISONING, Applied))

  lemma PoisonBumps()
    ensures Goes(COUNTED, FULL, StartInv(2, Poison, None), COUNTED, Alone(FULL, 2, InvWantsCommit(POISONING)))
    ensures Goes(COUNTED, Alone(FULL, 2, InvWantsCommit(POISONING)), Advance(2, OK), COUNTED, Alone(FULL, 2, InvBumps(POISONING)))
    ensures Goes(COUNTED, Alone(FULL, 2, InvBumps(POISONING)), Advance(2, OK), COUNTED, Alone(BUMPED, 2, InvWantsMeta(POISONING)))
  {
  }

  lemma PoisonEnters()
    ensures Goes(COUNTED, Alone(BUMPED, 2, InvWantsMeta(POISONING)), Advance(2, OK), COUNTED, Inside(BUMPED, 2, Invalidating(POISONING), MarkMemory))
    ensures Goes(COUNTED, Inside(BUMPED, 2, Invalidating(POISONING), MarkMemory), Advance(2, OK), COUNTED, Inside(FENCED, 2, Invalidating(POISONING), MarkDisk))
  {
  }

  lemma PoisonMarks()
    ensures Goes(COUNTED, Inside(FENCED, 2, Invalidating(POISONING), MarkDisk), Advance(2, OK), COUNTED, Inside(POISONED, 2, Invalidating(POISONING), Done(Applied)))
    ensures Goes(COUNTED, Inside(POISONED, 2, Invalidating(POISONING), Done(Applied)), Advance(2, OK), COUNTED, REPORTED)
  {
  }

  lemma UpToThePoison() returns (evs: seq<Event>)
    ensures Path(START, evs, COUNTED, REPORTED)
  {
    evs := UpToFull();
    var h, now := COUNTED, FULL;
    PoisonBumps();
    PoisonEnters();
    PoisonMarks();
    evs, h, now := Next(START, evs, h, now, StartInv(2, Poison, None));
    evs, h, now := Next(START, evs, h, now, Advance(2, OK));
    evs, h, now := Next(START, evs, h, now, Advance(2, OK));
    evs, h, now := Next(START, evs, h, now, Advance(2, OK));
    evs, h, now := Next(START, evs, h, now, Advance(2, OK));
    evs, h, now := Next(START, evs, h, now, Advance(2, OK));
    evs, h, now := Next(START, evs, h, now, Advance(2, OK));
  }

  const OLDEST := Evict(1, 7)
  const DIRTY := COUNTED.(clean := false)
  const LEFTOVER := Pair(None, NEW.meta)
  const BODYLESS := POISONED.(files := Files(LEFTOVER, true, true))

  /** The eviction removed the body and the marker but not the metadata. */
  const HALF := POISONED.(files := Files(LEFTOVER, false, true))

  lemma EvictionArrives()
    ensures Goes(COUNTED, REPORTED, Advance(2, OK), COUNTED, POISONED)
    ensures Goes(COUNTED, POISONED, StartJob(3, OLDEST), DIRTY, Alone(POISONED, 3, JobWantsMeta(OLDEST)))
    ensures Goes(DIRTY, Alone(POISONED, 3, JobWantsMeta(OLDEST)), Advance(3, OK), DIRTY, Inside(POISONED, 3, Working(OLDEST), EvictCheck))
  {
    assert REPORTED.reg.threads - {2} == map[];
  }

  lemma EvictionLooks()
    ensures Goes(DIRTY, Inside(POISONED, 3, Working(OLDEST), EvictCheck), Advance(3, OK), DIRTY, Inside(POISONED, 3, Working(OLDEST), EvictBody))
  {
  }

  lemma EvictionHalfRemoves()
    ensures Goes(DIRTY, Inside(POISONED, 3, Working(OLDEST), EvictBody), Advance(3, OK), DIRTY, Inside(BODYLESS, 3, Working(OLDEST), EvictMeta(true)))
    ensures Goes(DIRTY, Inside(BODYLESS, 3, Working(OLDEST), EvictMeta(true)), Advance(3, BAD), DIRTY, Inside(BODYLESS, 3, Working(OLDEST), EvictMarker(true, false)))
  {
  }

  lemma EvictionLeaves()
    ensures Goes(DIRTY, Inside(BODYLESS, 3, Working(OLDEST), EvictMarker(true, false)), Advance(3, OK), DIRTY, Inside(HALF, 3, Working(OLDEST), Done(Errored)))
    ensures Goes(DIRTY, Inside(HALF, 3, Working(OLDEST), Done(Errored)), Advance(3, OK), DIRTY, HALF)
  {
    assert map[3 := Working(OLDEST)] - {3} == map[];
  }

  lemma UpToTheLeftover(s: System) returns (evs: seq<Event>)
    requires s == System(COUNTED, [REPORTED])
    ensures Path(s, evs, DIRTY, HALF)
  {
    evs := [];
    var h, now := COUNTED, REPORTED;
    EvictionArrives();
    EvictionLooks();
    EvictionHalfRemoves();
    EvictionLeaves();
    evs, h, now := Next(s, evs, h, now, Advance(2, OK));
    evs, h, now := Next(s, evs, h, now, StartJob(3, OLDEST));
    evs, h, now := Next(s, evs, h, now, Advance(3, OK));
    evs, h, now := Next(s, evs, h, now, Advance(3, OK));
    evs, h, now := Next(s, evs, h, now, Advance(3, OK));
    evs, h, now := Next(s, evs, h, now, Advance(3, BAD));
    evs, h, now := Next(s, evs, h, now, Advance(3, OK));
    evs, h, now := Next(s, evs, h, now, Advance(3, OK));
  }

  // ---------- the second fill, and the crash ----------

  const IDS2 := Reserved(DIRTY, HALF)
  const BETWEEN := Halfway(DIRTY, HALF, 4)
  const MIXTURE := Pair(Some(PubOf(DIRTY, HALF, PutMeta).newBody), NEW.meta)

  /** After the restart. */
  const RUINED := KeyState(
    Registry(map[], [], None, 2, 1), Free, Files(MIXTURE, false, false), POISONED.led)

  const CRASH := Restart(StartupScan(1, true, false), true, {}, NOTHING)

  lemma TheCrash()
    ensures Step(System(IDS2, [BETWEEN]), CRASH) == Reached(System(IDS2.(stats := NOTHING), [RUINED]))
  {
    var keys := [BETWEEN];
    assert keys[0].files.live.meta.value.id == 1;
    assert OnDisk(keys, 1);
    assert RebootAll(keys, {}) == [RUINED];
    assert OnDiskTotal([RUINED]).entries == 1;
  }

  /**
    The hypotheses of NoStaleRead can be met, and after a poison its metadata half would be false.
    Fill 0 publishes and the key is poisoned successfully. An eviction then removes the body and the
    marker but fails on the metadata; the next fill cannot examine that metadata and leaves it in
    place; the process stops between the two renames. A lookup of the next process returns the new
    body under metadata that the poison had fenced off.
  */
  lemma StaleMetadataUnderANewBody() returns (before: seq<Event>, s: System, after: seq<Event>, s': System, m: Meta, b: Body)
    ensures Reaches(1, before, s, after, s') && ReportsSuccess(s.keys[0], 2, POISONING) && Answers(s'.keys[0], m, b)
    ensures m.writer < POISONING.cut <= b.writer && !Coherent(s'.keys[0].files.live)
  {
    before := UpToThePoison();
    s := System(COUNTED, [REPORTED]);
    after := UpToTheLeftover(s);
    after := FillGetsHalfway(s, after, DIRTY, HALF, 4, BAD);
    TheCrash();
    after := NextEvent(s, after, IDS2, BETWEEN, CRASH, IDS2.(stats := NOTHING), RUINED);
    m, b := MIXTURE.meta.value, MIXTURE.body.value;
    after := LookupFinds(s, after, IDS2.(stats := NOTHING), RUINED, 5, m, b);
    s' := System(IDS2.(stats := NOTHING), [Inside(RUINED, 5, Working(Lookup), Found(m, b))]);
  }
}
