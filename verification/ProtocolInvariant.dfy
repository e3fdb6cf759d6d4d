/** What every step of the protocol keeps. */
module ProtocolInvariant {
  import opened Common
  import opened Protocol

  // ---------- the fill table ----------

  function FillThreads(r: Registry): set<Tid> {
    set t | t in r.threads && r.threads[t].IsFill()
  }

  /** A key is in `active_fills` exactly while it has unfinished guards, and the refcount is their number. */
  ghost predicate RefsOk(r: Registry) {
    match r.active
    case None => FillThreads(r) == {}
    case Some(e) => e < |r.entries| && FillThreads(r) != {} && r.entries[e].refs == |FillThreads(r)|
  }

  /** A guard names the active entry, and a fenced-off guard is behind its generation. */
  predicate GuardOk(r: Registry, pc: Pc)
    requires pc.IsFill()
  {
    var g := pc.g;
    && r.active == Some(g.entry) && g.entry < |r.entries|
    && g.fill < r.begun
    && g.gen <= r.entries[g.entry].gen
    && (g.fill < r.bar ==> g.gen < r.entries[g.entry].gen)
    && (pc.FillWantsCommit? || pc.FillWantsMeta? || pc.Publishing? || pc.FillUnlocks? ==> pc.e == g.entry)
  }

  ghost predicate GuardsOk(r: Registry) {
    forall t :: t in r.threads && r.threads[t].IsFill() ==> GuardOk(r, r.threads[t])
  }

  /** The calls past their generation bump. A conditional call bumps inside the metadata lock. */
  predicate Bumped(pc: Pc)
    requires pc.IsInv()
  {
    && pc.inv.expected.None?
    && (pc.InvWantsMeta? || pc.Invalidating? || pc.InvUnlocks?)
  }

  ghost predicate InvsOk(r: Registry) {
    forall t :: t in r.threads && r.threads[t].IsInv() ==>
      var inv := r.threads[t].inv;
      && inv.cut <= r.begun
      && (inv.snap.Some? ==> inv.snap.value < |r.entries|)
      && (Bumped(r.threads[t]) ==> inv.cut <= r.bar)
  }

  /** An unfinished fill older than an invalidating call still uses the entry that call looked up. */
  ghost predicate SnapshotsOk(r: Registry) {
    forall t, u ::
      t in r.threads && u in r.threads && r.threads[t].IsInv() && r.threads[u].IsFill()
      && r.threads[u].g.fill < r.threads[t].inv.cut
      ==> r.active == r.threads[t].inv.snap
  }

  ghost predicate CommitLocksOk(r: Registry) {
    && (forall t :: t in r.threads && r.threads[t].CommitHeld().Some? ==>
          var e := r.threads[t].CommitHeld().value;
          e < |r.entries| && r.entries[e].holder == Some(t))
    && (forall e :: 0 <= e < |r.entries| && r.entries[e].holder.Some? ==>
          var t := r.entries[e].holder.value;
          t in r.threads && r.threads[t].CommitHeld() == Some(e))
  }

  ghost predicate MetaLockOk(r: Registry, crit: Crit) {
    && (crit.Locked? ==> crit.tid in r.threads && r.threads[crit.tid].InMeta())
    && (forall t :: t in r.threads && r.threads[t].InMeta() ==> crit.Locked? && crit.tid == t)
  }

  predicate FillSec(sec: Section) {
    sec.Late? || PastLate(sec)
  }

  /** Past the generation check made under both locks. */
  predicate PastLate(sec: Section) {
    sec.WantsId? || sec.Reserving? || sec.Persisting? || sec.Pubs? || sec.Unbook? || sec.Book? || sec.Unpoison?
  }

  predicate InvSec(sec: Section) {
    sec.Check? || sec.OrphanBody? || sec.LateBump? || sec.ClearPoison? || PastBump(sec)
  }

  predicate PastBump(sec: Section) {
    sec.PurgeBody? || sec.PurgeMeta? || sec.PurgeUnbook? || sec.MarkMemory? || sec.MarkDisk?
    || (sec.ClearPoison? && sec.result.Applied?)
  }

  /** The sections a metadata writer, lookup, eviction or cleanup goes through. */
  predicate JobSec(job: Job, sec: Section) {
    match job
    case Update(_, _) => sec.ReadMeta? || sec.WriteMeta? || sec.Rebook?
    case Touch(_, _) => sec.ReadMeta? || sec.WriteMeta? || sec.Rebook?
    case Lookup => sec.Recheck? || sec.ReadEntry? || sec.OpenBody? || sec.DropOrphan? || sec.DropMeta? || sec.Found?
    case Evict(_, _) => sec.EvictCheck? || sec.EvictBody? || sec.EvictMeta? || sec.EvictMarker? || sec.EvictUnbook?
    case TidyBody => sec.Probe? || sec.RemoveBody?
    case TidyMarker => sec.Probe? || sec.RemoveMarker?
    case TidyMeta => sec.Probe? || sec.RemoveMeta? || sec.RemoveMarker?
  }

  /** The holder of the metadata lock is where its call says it is. */
  predicate SectionFits(r: Registry, pc: Pc, sec: Section) {
    match pc
    case Publishing(g, e) =>
      && (FillSec(sec) || sec.Done?)
      && (PastLate(sec) ==> g.entry < |r.entries| && g.gen == r.entries[g.entry].gen)
      && (sec.Pubs? || sec.Unbook? || sec.Book? || sec.Unpoison? ==>
            sec.p.newMeta.writer == g.fill && sec.p.newBody.writer == g.fill)
    case Invalidating(inv) =>
      && (InvSec(sec) || sec.Done?)
      && (PastBump(sec) ==> inv.cut <= r.bar)
    case Working(job) => JobSec(job, sec) || sec.Done?
    case _ => false
  }

  ghost predicate TableInv(r: Registry) {
    r.bar <= r.begun && RefsOk(r) && GuardsOk(r) && InvsOk(r) && SnapshotsOk(r)
  }

  ghost predicate LockInv(r: Registry, crit: Crit) {
    && CommitLocksOk(r) && MetaLockOk(r, crit)
    && (crit.Locked? ==> SectionFits(r, r.threads[crit.tid], crit.sec))
  }

  ghost predicate RegInv(r: Registry, crit: Crit) {
    TableInv(r) && LockInv(r, crit)
  }

  // ---------- the files ----------

  /** Body and metadata of one publish, or at most one file. */
  predicate Coherent(p: Pair) {
    p.body.Some? && p.meta.Some? ==> p.body.value.id == p.meta.value.id
  }

  /** The body of a fenced-off fill is poisoned or has no metadata. */
  predicate Hidden(p: Pair, poisoned: bool, fence: Fill) {
    p.body.Some? && p.body.value.writer < fence ==> poisoned || p.meta.None?
  }

  predicate Sound(p: Pair, marker: bool, inMemory: bool, led: Ledger) {
    Hidden(p, marker, led.fence) && Hidden(p, marker || inMemory, led.memFence)
  }

  /** The first fill id a restart could hand out. */
  function Floor(g: Globals): nat {
    if g.counter.Some? then g.counter.value else 1
  }

  /** The metadata is the latest chapter of the story of its fill id, and that fill was given that id. */
  predicate MetaOk(g: Globals, k: nat, led: Ledger, m: Meta) {
    && m.id in led.history && m.id == led.lastId
    && m.id in g.owner && g.owner[m.id] == Owner(k, m.writer)
    && m.size > 0
    && var story := led.history[m.id];
       && story.contents != [] && story.contents[|story.contents| - 1] == m.content
       && story.accessed == m.accessed
       && (!led.saturated ==> |story.contents| == m.version + 1)
  }

  /** The body was written by the fill that was given its id. */
  predicate OptBodyOk(g: Globals, k: nat, b: Option<Body>) {
    b.Some? ==> b.value.id in g.owner && g.owner[b.value.id] == Owner(k, b.value.writer)
  }

  predicate OptMetaOk(g: Globals, k: nat, led: Ledger, m: Option<Meta>) {
    m.Some? ==> MetaOk(g, k, led, m.value)
  }

  ghost predicate LedgerOk(g: Globals, led: Ledger, bar: Fill) {
    && led.fence <= led.memFence <= bar
    && led.lastId < Floor(g)
    && (forall id :: id in led.history ==> id <= led.lastId && led.history[id].contents != [])
  }

  /** Where the bodies are at each stage of a publish. */
  predicate BodyStage(p: Pub, body: Option<Body>) {
    var saved := p.hadBody && body.None? && p.bakBody == p.prior.body;
    match p.stage
    case StageMeta => body == p.prior.body && !p.hadBody
    case StatBody => body == p.prior.body && !p.hadBody
    case StatMeta => body == p.prior.body
    case SaveBody => body == p.prior.body
    case SaveMeta => if p.hadBody then saved else body == p.prior.body
    case PutBody => if p.hadBody then saved else body == p.prior.body
    case PutMeta => body == Some(p.newBody) && (p.hadBody ==> p.bakBody == p.prior.body)
    case UnsaveBody => saved
    case UndoPutBody => saved
    case UndoPutMeta => body == Some(p.newBody) && (p.hadBody ==> p.bakBody == p.prior.body)
    case RestoreMeta => body.None? || body == p.prior.body || body == Some(p.newBody)
    case RolledBack => body.None? || body == p.prior.body || body == Some(p.newBody)
    case Published => body == Some(p.newBody)
  }

  /** Where the metadata files are at each stage of a publish. */
  predicate MetaStage(p: Pub, meta: Option<Meta>) {
    match p.stage
    case StageMeta => meta == p.prior.meta && !p.hadMeta
    case StatBody => meta == p.prior.meta && !p.hadMeta
    case StatMeta => meta == p.prior.meta && !p.hadMeta
    case SaveBody => meta == p.prior.meta
    case SaveMeta => meta == p.prior.meta
    case UnsaveBody => meta == p.prior.meta
    case RolledBack => meta.None? || meta == p.prior.meta
    case Published => meta == Some(p.newMeta)
    case _ => if p.hadMeta then meta.None? && p.bakMeta == p.prior.meta else meta == p.prior.meta
  }

  predicate PubShape(p: Pub, f: Pair) {
    && (p.hadBody ==> p.prior.body.Some?) && (p.hadMeta ==> p.prior.meta.Some?)
    && p.newBody.writer == p.newMeta.writer && p.newBody.id == p.newMeta.id
    && BodyStage(p, f.body) && MetaStage(p, f.meta)
  }

  predicate FreshMeta(g: Globals, k: nat, led: Ledger, m: Meta) {
    && led.lastId < m.id < Floor(g)
    && m.id in g.owner && g.owner[m.id] == Owner(k, m.writer)
    && m.version == 0 && m.size > 0
  }

  /** What holds throughout a publish: the new metadata is unheard of and the prior pair was sound. */
  predicate PubFacts(g: Globals, k: nat, led: Ledger, f: Files, p: Pub) {
    && FreshMeta(g, k, led, p.newMeta)
    && OptMetaOk(g, k, led, p.prior.meta) && OptBodyOk(g, k, p.prior.body)
    && Sound(p.prior, f.marker, f.inMemory, led)
  }

  predicate PubOk(g: Globals, k: nat, led: Ledger, f: Files, p: Pub) {
    && PubShape(p, f.live) && PubFacts(g, k, led, f, p)
    && !p.stage.Published? && !p.stage.RolledBack?
  }

  /** What the holder of the metadata lock knows about the files. */
  predicate SectionOk(g: Globals, k: nat, s: KeyState)
    requires s.crit.Locked?
  {
    var f := s.files;
    var live := f.live;
    var visible := !f.marker && !f.inMemory;
    match s.crit.sec
    case Reserving => g.idLock == Some(Holder(k, s.crit.tid))
    case Persisting(id) => g.idLock == Some(Holder(k, s.crit.tid)) && Floor(g) <= id && id + 1 == g.nextId && id < MAX_U64
    case Pubs(p) => PubOk(g, k, s.led, s.files, p)
    case Unbook(p) => p.newBody.writer == p.newMeta.writer && live == Pair(Some(p.newBody), Some(p.newMeta))
    case Book(p) => p.newBody.writer == p.newMeta.writer && live == Pair(Some(p.newBody), Some(p.newMeta))
    case Unpoison(p) => p.newBody.writer == p.newMeta.writer && live == Pair(Some(p.newBody), Some(p.newMeta))
    case PurgeMeta(_) => live.body.None?
    case PurgeUnbook(_) => live == Pair(None, None)
    case ClearPoison(_) => live == Pair(None, None)
    case OrphanBody => live.meta.None?
    case MarkDisk => f.inMemory
    case WriteMeta(m) => live.meta == Some(m)
    case ReadEntry => visible
    case OpenBody(m) => visible && live.meta == Some(m)
    case DropMeta(m) => live == Pair(None, Some(m))
    case Found(m, b) => visible && live == Pair(Some(b), Some(m))
    case EvictMeta(bodyGone) => bodyGone ==> live.body.None?
    case EvictMarker(bodyGone, metaGone) => (bodyGone ==> live.body.None?) && (metaGone ==> live.meta.None?)
    case RemoveBody => live.meta.None?
    case RemoveMeta => live.body.None?
    case RemoveMarker => live.body.None? || live.meta.None?
    case DropOrphan => live.meta.None?
    case _ => true
  }

  predicate HoldsId(s: KeyState, tid: Tid) {
    s.crit.Locked? && s.crit.tid == tid && (s.crit.sec.Reserving? || s.crit.sec.Persisting?)
  }

  ghost predicate FilesInv(g: Globals, k: nat, s: KeyState) {
    && LedgerOk(g, s.led, s.reg.bar)
    && OptMetaOk(g, k, s.led, s.files.live.meta) && OptBodyOk(g, k, s.files.live.body)
    && Sound(s.files.live, s.files.marker, s.files.inMemory, s.led)
    && (s.crit.Locked? ==> SectionOk(g, k, s))
    && (g.idLock.Some? && g.idLock.value.key == k ==> HoldsId(s, g.idLock.value.tid))
  }

  /** A call that reports success has raised the fence over every fill begun before it looked. */
  ghost predicate ResultsOk(s: KeyState) {
    && (forall t :: t in s.reg.threads && s.reg.threads[t].InvUnlocks? && s.reg.threads[t].result.Applied? ==>
          s.reg.threads[t].inv.cut <= s.led.fence)
    && (s.crit.Locked? && s.crit.sec == Done(Applied) ==>
          s.crit.tid in s.reg.threads
          && (s.reg.threads[s.crit.tid].Invalidating? ==> s.reg.threads[s.crit.tid].inv.cut <= s.led.fence))
  }

  /** The steps with which an invalidating call takes effect. */
  predicate Acting(sec: Section) {
    sec.LateBump? || sec.PurgeBody? || sec.PurgeMeta? || sec.MarkMemory? || sec.MarkDisk?
  }

  /** A conditional call acts only on the entry its caller observed. */
  ghost predicate ObservedOk(s: KeyState) {
    s.crit.Locked? && s.crit.tid in s.reg.threads ==>
      match s.reg.threads[s.crit.tid]
      case Invalidating(inv) =>
        inv.expected.Some? && Acting(s.crit.sec)
        ==> s.files.live.meta.Some? && s.files.live.meta.value.id == inv.expected.value
      case Working(job) =>
        s.crit.sec.WriteMeta? ==>
          (match job
           case Update(expected, submitted) => s.crit.sec.meta.id == expected && s.crit.sec.meta.version == submitted
           case Touch(expected, now) => s.crit.sec.meta.id == expected && s.crit.sec.meta.accessed < now
           case _ => false)
      case _ => true
  }

  // ---------- the statistics ----------

  /** What the statistics currently count for this key. */
  function Booked(s: KeyState): Footprint {
    if s.crit.Free? then SizeOf(s.files.live)
    else
      match s.crit.sec
      case Pubs(p) => SizeOf(p.prior)
      case Unbook(p) => SizeOf(p.prior)
      case Book(_) => NOTHING
      case PurgeMeta(seen) => seen
      case PurgeUnbook(seen) => seen
      case Rebook(before, now) =>
        var size := SizeOf(s.files.live);
        size.(bytes := SatSub(size.bytes, now) + before)
      case _ => SizeOf(s.files.live)
  }

  /** While nothing has failed, a key's entry is whole outside the windows that replace or remove it. */
  predicate CleanOk(s: KeyState) {
    if s.crit.Free? then Whole(s.files.live)
       else
         match s.crit.sec
         case Pubs(p) =>
           && Whole(p.prior)
           && (p.stage.StageMeta? || p.stage.StatBody? || p.hadBody == p.prior.body.Some?)
           && (p.stage.StageMeta? || p.stage.StatBody? || p.stage.StatMeta? || p.hadMeta == p.prior.meta.Some?)
           && (p.stage.StageMeta? || p.stage.StatBody? || p.stage.StatMeta? || p.stage.SaveBody?
               || p.stage.SaveMeta? || p.stage.PutBody? || p.stage.PutMeta?)
         case Unbook(p) => Whole(p.prior) && p.hadBody == p.prior.body.Some? && p.hadMeta == p.prior.meta.Some?
                           && (p.prior.meta.Some? ==> p.prior.meta.value.size > 0)
         case PurgeMeta(seen) => s.files.live.meta.Some? && seen.entries == 1
         case PurgeUnbook(seen) => seen.entries == 1
         case Rebook(before, now) => Whole(s.files.live) && s.files.live.meta.Some? && s.files.live.meta.value.size == now
         case DropMeta(_) => false
         case EvictBody => false
         case EvictMeta(_) => false
         case EvictMarker(_, _) => false
         case EvictUnbook => false
         case EvictCheck => false
         case Probe => false
         case RemoveBody => false
         case RemoveMeta => false
         case RemoveMarker => false
         case _ => Whole(s.files.live)
  }

  function Total(keys: seq<KeyState>): Footprint {
    if keys == [] then NOTHING else Plus(Booked(keys[0]), Total(keys[1..]))
  }

  // ---------- everything ----------

  ghost predicate DataInv(g: Globals, k: nat, s: KeyState) {
    FilesInv(g, k, s) && ResultsOk(s) && ObservedOk(s) && (g.clean ==> CleanOk(s) && Undisturbed(s.reg))
  }

  ghost predicate KeyInv(g: Globals, k: nat, s: KeyState) {
    RegInv(s.reg, s.crit) && DataInv(g, k, s)
  }

  ghost predicate GlobalsOk(g: Globals) {
    && 1 <= Floor(g) <= g.nextId <= MAX_U64
    && (forall id :: id in g.owner ==> 1 <= id < Floor(g))
  }

  ghost predicate Safe(s: System) {
    && GlobalsOk(s.g)
    && (forall k :: 0 <= k < |s.keys| ==> KeyInv(s.g, k, s.keys[k]))
    && (s.g.idLock.Some? ==> s.g.idLock.value.key < |s.keys|)
    && (s.g.clean ==> s.g.stats == Total(s.keys))
  }
}
