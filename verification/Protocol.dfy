/**
  The consistency protocol of the disk cache as a step system. Any number of calls run at once;
  each lock acquisition, map access, rename, remove and marker write is one step.

  A key's state has three parts. `Registry` is the in-memory fill table (`active_fills`) with the
  calls that are in flight. `crit` is the per-key metadata lock together with the locals of the
  call that holds it. `Files` is what is on disk at the final paths. The remaining fields,
  `Ledger`, are history that no step reads.

  Steps are functions of a `Choice`, which resolves everything the environment decides: whether
  an I/O call succeeds, and what the caller passes in.
*/
module Protocol {
  import opened Common
  import opened FillIds

  type Tid = nat
  /** The position of a `begin_fill` call in the order of `begin_fill` calls on its key. */
  type Fill = nat
  type Content = string

  // ---------- files ----------

  /** `id` is history: the body file itself does not carry the fill id its publish was given. */
  datatype Body = Body(writer: Fill, id: nat, size: nat)

  /** A parsed `.meta.json`; `content` stands for every field the store does not own. */
  datatype Meta = Meta(writer: Fill, id: nat, version: nat, accessed: int, content: Content, size: nat)

  datatype Pair = Pair(body: Option<Body>, meta: Option<Meta>)

  /** The published pair, the durable `.poisoned` marker and the in-memory poison fence. */
  datatype Files = Files(live: Pair, marker: bool, inMemory: bool)

  datatype Footprint = Footprint(entries: nat, bytes: nat)

  const NOTHING := Footprint(0, 0)

  function SizeOf(p: Pair): Footprint {
    Footprint(
      if p.body.Some? || p.meta.Some? then 1 else 0,
      (if p.body.Some? then p.body.value.size else 0) + (if p.meta.Some? then p.meta.value.size else 0))
  }

  // ---------- calls in flight ----------

  /** `FillGuard`. `fill` and `entry` are history; the source's guard carries the generation only. */
  datatype Guard = Guard(fill: Fill, entry: nat, gen: nat)

  /** `FillEntry`; the entries of a key are never forgotten, an index plays the part of the `Arc`. */
  datatype FillEntry = FillEntry(refs: nat, gen: nat, holder: Option<Tid>)

  datatype InvKind = Purge | Poison

  /** `purge`, `purge_if_unchanged`, `poison`, `poison_if_unchanged`: the `Arc` read from
      `active_fills`, and how many fills had begun when it was read. */
  datatype Inv = Inv(kind: InvKind, expected: Option<nat>, snap: Option<nat>, cut: Fill)

  datatype Result = Applied | Refused | Errored

  datatype Job =
    | Update(expected: nat, submitted: nat)
    | Touch(expected: nat, now: int)
    | Lookup
    | Evict(id: nat, accessed: int)
    | TidyBody
    | TidyMarker
    | TidyMeta

  datatype Pc =
    | Held(g: Guard)
    | PrePublish(g: Guard)
    | CloneEntry(g: Guard)
    | FillWantsCommit(g: Guard, e: nat)
    | FillWantsMeta(g: Guard, e: nat)
    | Publishing(g: Guard, e: nat)
    | FillUnlocks(g: Guard, e: nat)
    | Finish(g: Guard)
    | InvWantsCommit(inv: Inv)
    | InvBumps(inv: Inv)
    | InvWantsMeta(inv: Inv)
    | Invalidating(inv: Inv)
    | InvUnlocks(inv: Inv, result: Result)
    | FirstProbe
    | JobWantsMeta(job: Job)
    | Working(job: Job)
  {
    predicate IsFill() {
      Held? || PrePublish? || CloneEntry? || FillWantsCommit? || FillWantsMeta? || Publishing? || FillUnlocks? || Finish?
    }

    predicate IsInv() {
      InvWantsCommit? || InvBumps? || InvWantsMeta? || Invalidating? || InvUnlocks?
    }

    predicate InMeta() {
      Publishing? || Invalidating? || Working?
    }

    /** The entry whose commit lock a call at this point holds. */
    function CommitHeld(): Option<nat> {
      if FillWantsMeta? || Publishing? || FillUnlocks? then Some(e)
      else if InvBumps? || InvWantsMeta? || Invalidating? || InvUnlocks? then inv.snap
      else None
    }
  }

  datatype Registry = Registry(
    threads: map<Tid, Pc>,
    entries: seq<FillEntry>,
    active: Option<nat>,
    begun: Fill,
    bar: Fill)     // history: fills before this one have been fenced off by a generation bump

  // ---------- inside the metadata lock ----------

  datatype Stage =
    | StageMeta | StatBody | StatMeta | SaveBody | SaveMeta | PutBody | PutMeta
    | UnsaveBody | UndoPutBody | UndoPutMeta | RestoreMeta | Published | RolledBack

  /** Locals of the publish phase. `prior` is history: the pair that was live when it began. */
  datatype Pub = Pub(
    stage: Stage, newBody: Body, newMeta: Meta, prior: Pair,
    hadBody: bool, hadMeta: bool, bakBody: Option<Body>, bakMeta: Option<Meta>)

  datatype Section =
    | Late
    | WantsId
    | Reserving
    | Persisting(id: nat)
    | Pubs(p: Pub)
    | Unbook(p: Pub)
    | Book(p: Pub)
    | Unpoison(p: Pub)
    | Check
    | LateBump
    | OrphanBody
    | PurgeBody
    | PurgeMeta(seen: Footprint)
    | PurgeUnbook(seen: Footprint)
    | ClearPoison(result: Result)
    | MarkMemory
    | MarkDisk
    | ReadMeta
    | WriteMeta(meta: Meta)
    | Rebook(before: nat, now: nat)
    | Recheck
    | ReadEntry
    | OpenBody(meta: Meta)
    | DropOrphan
    | DropMeta(meta: Meta)
    | Found(meta: Meta, body: Body)
    | EvictCheck
    | EvictBody
    | EvictMeta(bodyGone: bool)
    | EvictMarker(bodyGone: bool, metaGone: bool)
    | EvictUnbook
    | Probe
    | RemoveBody
    | RemoveMeta
    | RemoveMarker
    | Done(result: Result)

  datatype Crit = Free | Locked(tid: Tid, sec: Section)

  /** Every metadata content ever published under one fill id, by `metadata_version`, and its last access time. */
  datatype Story = Story(contents: seq<Content>, accessed: int)

  datatype Ledger = Ledger(
    fence: Fill,       // fills before this one were invalidated by a call that succeeded
    memFence: Fill,    // the same, counting poison calls whose marker write failed
    saturated: bool,   // a metadata version was updated past u64::MAX
    history: map<nat, Story>,
    lastId: nat)

  datatype KeyState = KeyState(reg: Registry, crit: Crit, files: Files, led: Ledger)

  // ---------- shared by all keys ----------

  datatype Holder = Holder(key: nat, tid: Tid)
  datatype Owner = Owner(key: nat, fill: Fill)

  datatype Globals = Globals(
    nextId: nat, counter: Option<nat>, idLock: Option<Holder>,
    stats: Footprint,
    owner: map<nat, Owner>,   // history: the fill each fill id was handed to
    clean: bool)              // history: no I/O failure and no eviction since the statistics were right

  /** What the environment decides in one step. */
  datatype Choice = Choice(ok: bool, durable: bool, body: nat, meta: nat, content: Content, accessed: int)

  function Less(a: Footprint, b: Footprint): Footprint {
    Footprint(SatSub(a.entries, b.entries), SatSub(a.bytes, b.bytes))
  }

  function Plus(a: Footprint, b: Footprint): Footprint {
    Footprint(a.entries + b.entries, a.bytes + b.bytes)
  }

  // ---------- the publish phase of commit_fill_inner ----------

  /** One file operation of the publish phase (disk.rs:1311-1459). A failed stat counts as "absent". */
  function PublishStep(p: Pub, f: Pair, ok: bool): (Pub, Pair) {
    match p.stage
    case StageMeta =>
      (p.(stage := if ok then StatBody else RolledBack), f)
    case StatBody =>
      (p.(stage := StatMeta, hadBody := ok && f.body.Some?), f)
    case StatMeta =>
      (p.(stage := SaveBody, hadMeta := ok && f.meta.Some?), f)
    case SaveBody =>
      if !p.hadBody then (p.(stage := SaveMeta), f)
      else if ok then (p.(stage := SaveMeta, bakBody := f.body), f.(body := None))
      else (p.(stage := RolledBack), f)
    case SaveMeta =>
      if !p.hadMeta then (p.(stage := PutBody), f)
      else if ok then (p.(stage := PutBody, bakMeta := f.meta), f.(meta := None))
      else (p.(stage := if p.hadBody then UnsaveBody else RolledBack), f)
    case PutBody =>
      if ok then (p.(stage := PutMeta), f.(body := Some(p.newBody)))
      else (p.(stage := if p.hadBody then UndoPutBody else RestoreMeta), f)
    case PutMeta =>
      if ok then (p.(stage := Published), f.(meta := Some(p.newMeta)))
      else (p.(stage := UndoPutMeta), f)
    case UnsaveBody =>
      (p.(stage := RolledBack), if ok then f.(body := p.bakBody) else f)
    case UndoPutBody =>
      (p.(stage := RestoreMeta), if ok then f.(body := p.bakBody) else f)
    case UndoPutMeta =>
      (p.(stage := RestoreMeta),
       if !ok then f else if p.hadBody then f.(body := p.bakBody) else f.(body := None))
    case RestoreMeta =>
      (p.(stage := RolledBack), if p.hadMeta && ok then f.(meta := p.bakMeta) else f)
    case Published => (p, f)
    case RolledBack => (p, f)
  }

  function StartPub(g: Guard, id: nat, f: Pair, c: Choice): Pub {
    Pub(StageMeta, Body(g.fill, id, c.body), Meta(g.fill, id, 0, c.accessed, c.content, c.meta + 1),
        f, false, false, None, None)
  }

  // ---------- steps inside the metadata lock ----------

  datatype Next = Blocked | To(g: Globals, s: KeyState)

  /** The holder's next section, everything else unchanged. */
  function Goto(g: Globals, s: KeyState, sec: Section): Next
    requires s.crit.Locked?
  {
    To(g, s.(crit := s.crit.(sec := sec)))
  }

  function SetPair(s: KeyState, f: Pair): KeyState {
    s.(files := s.files.(live := f))
  }

  function SetBody(s: KeyState, b: Option<Body>): KeyState {
    SetPair(s, s.files.live.(body := b))
  }

  function SetMeta(s: KeyState, m: Option<Meta>): KeyState {
    SetPair(s, s.files.live.(meta := m))
  }

  /** A file operation that failed ends the claim that nothing has failed so far. */
  function After(g: Globals, ok: bool): Globals {
    if ok then g else g.(clean := false)
  }

  /** commit_fill_inner under both locks, up to the reserved fill id, disk.rs:1277-1307. */
  function ReserveSection(g: Globals, k: nat, s: KeyState, gd: Guard, c: Choice): Next
    requires s.crit.Locked?
  {
    match s.crit.sec
    case Late =>
      Goto(g, s, if CurrentGen(s.reg) == gd.gen then WantsId else Done(Refused))
    case WantsId =>
      if g.idLock.Some? then Blocked
      else Goto(g.(idLock := Some(Holder(k, s.crit.tid))), s, Reserving)
    case Reserving =>
      if g.nextId >= MAX_U64 then Goto(g.(idLock := None, clean := false), s, Done(Errored))
      else Goto(g.(nextId := g.nextId + 1), s, Persisting(g.nextId))
    case Persisting(id) =>
      var written := g.(idLock := None, counter := if c.ok || c.durable then Some(SatAdd(id, 1)) else g.counter);
      if c.ok
      then Goto(written.(owner := g.owner[id := Owner(k, gd.fill)]), s, Pubs(StartPub(gd, id, s.files.live, c)))
      else Goto(After(written, false), s, Done(Errored))
    case _ => Blocked
  }

  /** The publish phase, disk.rs:1311-1459. */
  function PublishSection(g: Globals, s: KeyState, c: Choice): Next
    requires s.crit.Locked?
  {
    match s.crit.sec
    case Pubs(p) =>
      var (p', f') := PublishStep(p, s.files.live, c.ok);
      var led' := if p'.stage.Published?
        then s.led.(lastId := p.newMeta.id, history := s.led.history[p.newMeta.id := Story([p.newMeta.content], p.newMeta.accessed)])
        else s.led;
      var s' := SetPair(s, f').(led := led');
      Goto(After(g, c.ok), s', if p'.stage.Published? then Unbook(p') else if p'.stage.RolledBack? then Done(Errored) else Pubs(p'))
    case _ => Blocked
  }

  /** Statistics and poison after a successful publish, disk.rs:1461-1490. */
  function SettleSection(g: Globals, s: KeyState, c: Choice): Next
    requires s.crit.Locked?
  {
    match s.crit.sec
    case Unbook(p) =>
      var seen := Pair(if p.hadBody then p.prior.body else None, if p.hadMeta then p.prior.meta else None);
      Goto(if SizeOf(seen).bytes > 0 then g.(stats := Less(g.stats, SizeOf(seen).(entries := 1))) else g, s, Book(p))
    case Book(p) =>
      Goto(g.(stats := Plus(g.stats, Footprint(1, p.newBody.size + p.newMeta.size))), s, Unpoison(p))
    case Unpoison(p) =>
      Goto(g, s.(files := s.files.(inMemory := false, marker := s.files.marker && !c.ok)), Done(Applied))
    case _ => Blocked
  }

  /** The check of a conditional purge or poison, disk.rs:1530-1565, 1763-1783. */
  function CheckSection(g: Globals, s: KeyState, inv: Inv, c: Choice): Next
    requires s.crit.Locked?
  {
    var live := s.files.live;
    match s.crit.sec
    case Check =>
      if !c.ok then Goto(After(g, false), s, Done(Errored))
      else if live.meta.None? then Goto(g, s, if inv.kind.Purge? then OrphanBody else Done(Refused))
      else if inv.expected.Some? && live.meta.value.id != inv.expected.value then Goto(g, s, Done(Refused))
      else Goto(g, s, LateBump)
    case LateBump =>
      Goto(g, s.(reg := Bump(s.reg, inv)), if inv.kind.Purge? then PurgeBody else MarkMemory)
    case OrphanBody =>
      if !c.ok then Goto(After(g, false), s, Done(Errored))
      else if live.body.None? then Goto(g, s, ClearPoison(Refused))
      else Goto(g.(stats := Less(g.stats, Footprint(1, live.body.value.size))), SetBody(s, None), ClearPoison(Refused))
    case _ => Blocked
  }

  /** purge_inner after its check, disk.rs:1567-1634. */
  function PurgeSection(g: Globals, s: KeyState, inv: Inv, c: Choice): Next
    requires s.crit.Locked?
  {
    var live := s.files.live;
    match s.crit.sec
    case PurgeBody =>
      if live.body.None? && live.meta.None? then Goto(g, s, ClearPoison(Applied))
      else if c.ok then Goto(g, SetBody(s, None), PurgeMeta(SizeOf(live)))
      else Goto(After(g, false), s, Done(Errored))
    case PurgeMeta(seen) =>
      if c.ok then Goto(g, SetMeta(s, None), PurgeUnbook(seen))
      else Goto(After(g, false), s, Done(Errored))
    case PurgeUnbook(seen) =>
      Goto(g.(stats := Less(g.stats, seen)), s, ClearPoison(Applied))
    case ClearPoison(r) =>
      var led := if r.Applied? then Fence(s.led, inv.cut) else s.led;
      Goto(g, s.(files := s.files.(inMemory := false, marker := s.files.marker && !c.ok), led := led), Done(r))
    case _ => Blocked
  }

  /** poison after its check: the fence in memory, then the durable marker, disk.rs:1738-1739, 1785-1786. */
  function PoisonSection(g: Globals, s: KeyState, inv: Inv, c: Choice): Next
    requires s.crit.Locked?
  {
    match s.crit.sec
    case MarkMemory =>
      Goto(g, s.(files := s.files.(inMemory := true), led := s.led.(memFence := Max(s.led.memFence, inv.cut))), MarkDisk)
    case MarkDisk =>
      if c.ok then Goto(g, s.(files := s.files.(marker := true), led := Fence(s.led, inv.cut)), Done(Applied))
      else Goto(After(g, false), s, Done(Errored))
    case _ => Blocked
  }

  function Fence(l: Ledger, cut: Fill): Ledger {
    l.(fence := Max(l.fence, cut), memFence := Max(l.memFence, cut))
  }

  /** The generation bump that fences off in-flight fills, disk.rs:1518, 1563, 1732, 1782. */
  function Bump(r: Registry, inv: Inv): Registry {
    var r := r.(bar := Max(r.bar, inv.cut));
    if inv.snap.Some? && inv.snap.value < |r.entries|
    then var e := inv.snap.value; r.(entries := r.entries[e := r.entries[e].(gen := r.entries[e].gen + 1)])
    else r
  }

  /** update_metadata_if_unchanged, disk.rs:1803-1889; rewrite_last_accessed, disk.rs:1126-1178. */
  function WriterSection(g: Globals, s: KeyState, job: Job, c: Choice): Next
    requires s.crit.Locked?
  {
    var live := s.files.live;
    match s.crit.sec
    case ReadMeta =>
      if !c.ok then Goto(After(g, false), s, Done(Errored))
      else if live.meta.None? then Goto(g, s, Done(Refused))
      else
        var m := live.meta.value;
        var accept := match job
          case Update(expected, submitted) => live.body.Some? && m.id == expected && m.version == submitted
          case Touch(expected, now) => m.id == expected && m.accessed < now
          case _ => false;
        Goto(g, s, if accept then WriteMeta(m) else Done(Refused))
    case WriteMeta(m) =>
      var m' := match job
        case Update(_, _) => m.(version := SatAdd(m.version, 1), content := c.content, size := c.meta + 1)
        case Touch(_, now) => m.(accessed := now, size := c.meta + 1)
        case _ => m;
      if c.ok
      then Goto(g, SetMeta(s, Some(m')).(led := Retell(s.led, job, m, m')), Rebook(m.size, m'.size))
      else Goto(After(g, false), s, Done(Errored))
    case Rebook(before, now) =>
      Goto(if now >= before then g.(stats := g.stats.(bytes := g.stats.bytes + (now - before)))
           else g.(stats := g.stats.(bytes := SatSub(g.stats.bytes, before - now))), s, Done(Applied))
    case _ => Blocked
  }

  /** lookup_inner, disk.rs:1966-2115. */
  function LookupSection(g: Globals, s: KeyState, c: Choice): Next
    requires s.crit.Locked?
  {
    var live := s.files.live;
    match s.crit.sec
    case Recheck =>
      if !c.ok then Goto(After(g, false), s, Done(Errored))
      else Goto(g, s, if s.files.inMemory || s.files.marker then Done(Refused) else ReadEntry)
    case ReadEntry =>
      if !c.ok then Goto(After(g, false), s, Done(Errored))
      else Goto(g, s, if live.meta.Some? then OpenBody(live.meta.value) else DropOrphan)
    case OpenBody(m) =>
      if !c.ok then Goto(After(g, false), s, Done(Errored))
      else Goto(g, s, if live.body.Some? then Found(m, live.body.value) else DropMeta(m))
    case DropOrphan =>
      if c.ok && live.body.Some?
      then Goto(g.(stats := Less(g.stats, Footprint(1, live.body.value.size))), SetBody(s, None), Done(Refused))
      else Goto(After(g, c.ok), s, Done(Refused))
    case DropMeta(m) =>
      Goto(After(g, c.ok).(stats := Less(g.stats, Footprint(1, m.size + c.body))), if c.ok then SetMeta(s, None) else s, Done(Refused))
    case Found(_, _) => Goto(g, s, Done(Applied))
    case _ => Blocked
  }

  /** try_evict_candidate, eviction.rs:1214-1407. */
  function EvictSection(g: Globals, s: KeyState, job: Job, c: Choice): Next
    requires s.crit.Locked?
  {
    var live := s.files.live;
    match s.crit.sec
    case EvictCheck =>
      if !c.ok then Goto(After(g, false), s, Done(Errored))
      else if live.meta.Some? && job.Evict? && (live.meta.value.id != job.id || live.meta.value.accessed != job.accessed)
      then Goto(g, s, Done(Refused))
      else Goto(g, s, EvictBody)
    case EvictBody =>
      Goto(After(g, c.ok), if c.ok then SetBody(s, None) else s, EvictMeta(c.ok || live.body.None?))
    case EvictMeta(bodyGone) =>
      Goto(After(g, c.ok), if c.ok then SetMeta(s, None) else s, EvictMarker(bodyGone, c.ok || live.meta.None?))
    case EvictMarker(bodyGone, metaGone) =>
      var s' := if c.ok && (bodyGone || metaGone) then s.(files := s.files.(marker := false)) else s;
      Goto(After(g, c.ok), s', if bodyGone && metaGone then EvictUnbook else Done(Errored))
    case EvictUnbook =>
      Goto(g.(stats := Less(g.stats, Footprint(1, c.body))), s, Done(Applied))
    case _ => Blocked
  }

  /** process_deferred_cleanups, eviction.rs:655-923: an orphan body, an orphan marker, metadata without a body. */
  function TidySection(g: Globals, s: KeyState, job: Job, c: Choice): Next
    requires s.crit.Locked?
  {
    var live := s.files.live;
    match s.crit.sec
    case Probe =>
      if !c.ok then Goto(After(g, false), s, Done(Errored))
      else if job.TidyMeta? then Goto(g, s, if live.body.Some? then Done(Refused) else RemoveMeta)
      else Goto(g, s, if live.meta.Some? then Done(Refused) else if job.TidyBody? then RemoveBody else RemoveMarker)
    case RemoveBody =>
      Goto(After(g, c.ok), if c.ok then SetBody(s, None) else s, Done(Applied))
    case RemoveMeta =>
      Goto(After(g, c.ok), if c.ok then SetMeta(s, None) else s, RemoveMarker)
    case RemoveMarker =>
      Goto(After(g, c.ok), if c.ok then s.(files := s.files.(marker := false)) else s, Done(Applied))
    case _ => Blocked
  }

  function Retell(l: Ledger, job: Job, m: Meta, m': Meta): Ledger {
    if m.id !in l.history then l
    else
      var story := l.history[m.id];
      var story' := if job.Update? then story.(contents := story.contents + [m'.content]) else story.(accessed := m'.accessed);
      l.(history := l.history[m.id := story'], saturated := l.saturated || m.version >= MAX_U64)
  }

  // ---------- steps outside the metadata lock ----------

  function SetPc(s: KeyState, t: Tid, pc: Pc): KeyState {
    s.(reg := s.reg.(threads := s.reg.threads[t := pc]))
  }

  function Gone(s: KeyState, t: Tid): KeyState {
    s.(reg := s.reg.(threads := s.reg.threads - {t}))
  }

  function SetHolder(s: KeyState, e: nat, h: Option<Tid>): KeyState
    requires e < |s.reg.entries|
  {
    s.(reg := s.reg.(entries := s.reg.entries[e := s.reg.entries[e].(holder := h)]))
  }

  /** begin_fill, disk.rs:1661-1676. */
  function BeginFill(s: KeyState, t: Tid): KeyState {
    var r := s.reg;
    var vacant := r.active.None? || r.active.value >= |r.entries|;
    var e := if vacant then |r.entries| else r.active.value;
    var entries := if vacant then r.entries + [FillEntry(0, 0, None)] else r.entries;
    var entries' := entries[e := entries[e].(refs := entries[e].refs + 1)];
    s.(reg := r.(entries := entries', active := Some(e), begun := r.begun + 1,
       threads := r.threads[t := Held(Guard(r.begun, e, entries[e].gen))]))
  }

  /** finish_fill, disk.rs:1103-1111. */
  function FinishFill(s: KeyState, t: Tid): KeyState {
    var r := s.reg;
    if r.active.None? || r.active.value >= |r.entries| then Gone(s, t)
    else
      var e := r.active.value;
      var prev := r.entries[e].refs;
      var r' := r.(entries := r.entries[e := r.entries[e].(refs := SatSub(prev, 1))],
                   active := if prev <= 1 then None else r.active);
      Gone(s.(reg := r'), t)
  }

  /** The generation a check of the fill table sees; 0 when the key has no entry. */
  function CurrentGen(r: Registry): nat {
    if r.active.Some? && r.active.value < |r.entries| then r.entries[r.active.value].gen else 0
  }

  /** The first section of a job. */
  function FirstSection(job: Job): Section {
    match job
    case Update(_, _) => ReadMeta
    case Touch(_, _) => ReadMeta
    case Lookup => Recheck
    case Evict(_, _) => EvictCheck
    case TidyBody => Probe
    case TidyMarker => Probe
    case TidyMeta => Probe
  }

  /** The step a call takes while it does not hold the metadata lock. */
  function OuterStep(g: Globals, s: KeyState, t: Tid, c: Choice): Next
    requires t in s.reg.threads
  {
    var pc := s.reg.threads[t];
    match pc
    // commit_fill, disk.rs:1191-1275, or abort_fill when the caller gives up
    case Held(gd) =>
      To(g, SetPc(s, t, if c.ok && CurrentGen(s.reg) == gd.gen then PrePublish(gd) else Finish(gd)))
    case PrePublish(gd) =>
      To(g, SetPc(s, t, if c.ok && CurrentGen(s.reg) == gd.gen then CloneEntry(gd) else Finish(gd)))
    case CloneEntry(gd) =>
      To(g, SetPc(s, t, if s.reg.active.Some? then FillWantsCommit(gd, s.reg.active.value) else Finish(gd)))
    case FillWantsCommit(gd, e) =>
      if e >= |s.reg.entries| || s.reg.entries[e].holder.Some? then Blocked
      else To(g, SetPc(SetHolder(s, e, Some(t)), t, FillWantsMeta(gd, e)))
    case FillWantsMeta(gd, e) =>
      if s.crit.Locked? then Blocked
      else To(g, SetPc(s, t, Publishing(gd, e)).(crit := Locked(t, Late)))
    case FillUnlocks(gd, e) =>
      if e >= |s.reg.entries| then Blocked
      else To(g, SetPc(SetHolder(s, e, None), t, Finish(gd)))
    case Finish(gd) =>
      To(g, FinishFill(s, t))
    case InvWantsCommit(inv) =>
      if inv.snap.None? then To(g, SetPc(s, t, InvBumps(inv)))
      else if inv.snap.value >= |s.reg.entries| || s.reg.entries[inv.snap.value].holder.Some? then Blocked
      else To(g, SetPc(SetHolder(s, inv.snap.value, Some(t)), t, InvBumps(inv)))
    case InvBumps(inv) =>
      var s' := if inv.expected.None? then s.(reg := Bump(s.reg, inv)) else s;
      To(g, SetPc(s', t, InvWantsMeta(inv)))
    case InvWantsMeta(inv) =>
      if s.crit.Locked? then Blocked
      else
        var sec := if inv.expected.Some? then Check else if inv.kind.Purge? then PurgeBody else MarkMemory;
        To(g, SetPc(s, t, Invalidating(inv)).(crit := Locked(t, sec)))
    case InvUnlocks(inv, r) =>
      if inv.snap.None? then To(g, Gone(s, t))
      else if inv.snap.value >= |s.reg.entries| then Blocked
      else To(g, Gone(SetHolder(s, inv.snap.value, None), t))
    case FirstProbe =>
      To(After(g, c.ok), if !c.ok || s.files.inMemory || s.files.marker then Gone(s, t) else SetPc(s, t, JobWantsMeta(Lookup)))
    case JobWantsMeta(job) =>
      if s.crit.Locked? then Blocked
      else To(g, SetPc(s, t, Working(job)).(crit := Locked(t, FirstSection(job))))
    case _ => Blocked
  }

  /** Releasing the metadata lock. */
  function Release(s: KeyState, t: Tid, r: Result): KeyState
    requires t in s.reg.threads
  {
    var s' := s.(crit := Free);
    match s.reg.threads[t]
    case Publishing(gd, e) => SetPc(s', t, FillUnlocks(gd, e))
    case Invalidating(inv) => SetPc(s', t, InvUnlocks(inv, r))
    case _ => Gone(s', t)
  }

  function SectionStep(g: Globals, k: nat, s: KeyState, t: Tid, c: Choice): Next
    requires t in s.reg.threads && s.crit.Locked?
  {
    if s.crit.sec.Done? then To(g, Release(s, t, s.crit.sec.result))
    else
      match s.reg.threads[t]
      case Publishing(gd, _) =>
        if s.crit.sec.Pubs? then PublishSection(g, s, c)
        else if s.crit.sec.Unbook? || s.crit.sec.Book? || s.crit.sec.Unpoison? then SettleSection(g, s, c)
        else ReserveSection(g, k, s, gd, c)
      case Invalidating(inv) =>
        if s.crit.sec.Check? || s.crit.sec.LateBump? || s.crit.sec.OrphanBody? then CheckSection(g, s, inv, c)
        else if s.crit.sec.MarkMemory? || s.crit.sec.MarkDisk? then PoisonSection(g, s, inv, c)
        else PurgeSection(g, s, inv, c)
      case Working(job) =>
        (match job
         case Update(_, _) => WriterSection(g, s, job, c)
         case Touch(_, _) => WriterSection(g, s, job, c)
         case Lookup => LookupSection(g, s, c)
         case Evict(_, _) => EvictSection(g, s, job, c)
         case _ => TidySection(g, s, job, c))
      case _ => Blocked
  }

  // ---------- events on one key ----------

  datatype Action =
    | StartFill(t: Tid)
    | StartInv(t: Tid, kind: InvKind, expected: Option<nat>)
    | StartLookup(t: Tid)
    | StartJob(t: Tid, job: Job)
    | Advance(t: Tid, c: Choice)

  function KeyStep(g: Globals, k: nat, s: KeyState, a: Action): Next {
    match a
    case StartFill(t) =>
      if t in s.reg.threads then Blocked else To(g, BeginFill(s, t))
    case StartInv(t, kind, expected) =>
      if t in s.reg.threads then Blocked
      else To(g, SetPc(s, t, InvWantsCommit(Inv(kind, expected, s.reg.active, s.reg.begun))))
    case StartLookup(t) =>
      if t in s.reg.threads then Blocked else To(g, SetPc(s, t, FirstProbe))
    case StartJob(t, job) =>
      if t in s.reg.threads || job.Lookup? then Blocked
      else To(if job.Update? || job.Touch? then g else g.(clean := false), SetPc(s, t, JobWantsMeta(job)))
    case Advance(t, c) =>
      if t !in s.reg.threads then Blocked
      else if s.reg.threads[t].InMeta()
      then if s.crit.Locked? && s.crit.tid == t then SectionStep(g, k, s, t, c) else Blocked
      else OuterStep(g, s, t, c)
  }

  // ---------- the whole system ----------

  datatype System = System(g: Globals, keys: seq<KeyState>)

  /**
    What happens next: a step on a key; a crash and a restart, with what the startup scan found,
    whether the counter file could be read, the keys whose bodies without metadata the scan removed,
    and the statistics it came up with; or a reconciliation scan that nothing disturbs.
  */
  datatype Event =
    | OnKey(k: nat, a: Action)
    | Restart(scan: StartupScan, readable: bool, swept: set<nat>, stats: Footprint)
    | Reconcile

  datatype Outcome = Stuck | Reached(s: System)

  /** The files a startup scan leaves: a body without metadata goes if it can be removed. */
  function Swept(f: Files, sweep: bool): Files {
    if sweep && f.live.meta.None? then f.(live := f.live.(body := None)) else f
  }

  /** A stopped process leaves the files; a new one starts with empty tables. */
  function Reboot(s: KeyState, sweep: bool): KeyState {
    KeyState(Registry(map[], [], None, s.reg.begun, s.reg.bar), Free, Swept(s.files, sweep).(inMemory := false),
             s.led.(memFence := s.led.fence))
  }

  function RebootAll(keys: seq<KeyState>, swept: set<nat>): (r: seq<KeyState>)
    ensures |r| == |keys| && forall i :: 0 <= i < |keys| ==> r[i] == Reboot(keys[i], i in swept)
  {
    seq(|keys|, i requires 0 <= i < |keys| => Reboot(keys[i], i in swept))
  }

  /** A scan without failures leaves whole entries, and removes half entries and markers without metadata. */
  function Reconciled(s: KeyState): KeyState {
    if s.files.live.body.Some? && s.files.live.meta.Some? then s
    else s.(files := s.files.(live := Pair(None, None), marker := false))
  }

  function ReconcileAll(keys: seq<KeyState>): (r: seq<KeyState>)
    ensures |r| == |keys| && forall i :: 0 <= i < |keys| ==> r[i] == Reconciled(keys[i])
  {
    seq(|keys|, i requires 0 <= i < |keys| => Reconciled(keys[i]))
  }

  /** Entries and bytes on disk. */
  function OnDiskTotal(keys: seq<KeyState>): Footprint {
    if keys == [] then NOTHING else Plus(SizeOf(keys[0].files.live), OnDiskTotal(keys[1..]))
  }

  /** No eviction or cleanup is waiting for the key. */
  ghost predicate Undisturbed(r: Registry) {
    forall t :: t in r.threads && (r.threads[t].JobWantsMeta? || r.threads[t].Working?) ==>
      r.threads[t].job.Update? || r.threads[t].job.Touch? || r.threads[t].job.Lookup?
  }

  /** Nobody is inside a critical section, and no eviction or cleanup is under way. */
  ghost predicate Still(keys: seq<KeyState>) {
    forall k :: 0 <= k < |keys| ==> keys[k].crit.Free? && Undisturbed(keys[k].reg)
  }

  predicate Whole(p: Pair) {
    p.body.Some? <==> p.meta.Some?
  }

  /** The statistics count what is on disk, and no entry is a half one. */
  ghost predicate RightStats(keys: seq<KeyState>, stats: Footprint) {
    stats == OnDiskTotal(keys) && forall k :: 0 <= k < |keys| ==> Whole(keys[k].files.live)
  }

  /** The fill ids a startup scan can meet. */
  ghost predicate OnDisk(keys: seq<KeyState>, id: nat) {
    exists k :: 0 <= k < |keys| && keys[k].files.live.meta.Some? && keys[k].files.live.meta.value.id == id
  }

  /** What the startup scan promises about `max_fill_id` (StartupScanner.ScanServesRestart). */
  ghost predicate ScanIsSound(scan: StartupScan, keys: seq<KeyState>) {
    && (scan.maxFillId == 0 || OnDisk(keys, scan.maxFillId))
    && (scan.incomplete || forall id: nat :: OnDisk(keys, id) ==> id <= scan.maxFillId)
  }

  function FoundCounter(counter: Option<nat>, readable: bool): CounterFile {
    if !readable then Damaged else if counter.Some? then Stored(counter.value) else Missing
  }

  ghost function Step(s: System, ev: Event): Outcome {
    match ev
    case OnKey(k, a) =>
      if k >= |s.keys| then Stuck
      else
        (match KeyStep(s.g, k, s.keys[k], a)
         case Blocked => Stuck
         case To(g', ks') => Reached(System(g', s.keys[k := ks'])))
    case Restart(scan, readable, swept, stats) =>
      if !ScanIsSound(scan, s.keys) then Stuck
      else
        (match LoadNextFillId(FoundCounter(s.g.counter, readable), scan)
         case Refuse => Stuck
         case Start(next) =>
           var keys := RebootAll(s.keys, swept);
           Reached(System(s.g.(nextId := next, idLock := None, stats := stats, clean := RightStats(keys, stats)), keys)))
    case Reconcile =>
      if !Still(s.keys) then Stuck
      else
        var keys := ReconcileAll(s.keys);
        Reached(System(s.g.(stats := OnDiskTotal(keys), clean := true), keys))
  }

  /** The state after a list of events; `Stuck` if one of them is impossible. */
  ghost function Run(s: System, evs: seq<Event>): Outcome
    decreases |evs|
  {
    if evs == [] then Reached(s)
    else
      (match Step(s, evs[0])
       case Stuck => Stuck
       case Reached(s') => Run(s', evs[1..]))
  }

  const EMPTY_KEY := KeyState(
    Registry(map[], [], None, 0, 0), Free, Files(Pair(None, None), false, false), Ledger(0, 0, false, map[], 0))

  /** An empty cache directory with room for `n` keys. */
  function Fresh(n: nat): System {
    System(Globals(1, None, None, NOTHING, map[], true), seq(n, _ => EMPTY_KEY))
  }
}
