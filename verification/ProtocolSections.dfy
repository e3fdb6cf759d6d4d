/** Steps taken under the metadata lock keep the invariant of their key. */
module ProtocolSections {
  import opened Common
  import opened Protocol
  import opened ProtocolInvariant

  /** What a step on key `k` may do to the state shared with other keys. */
  ghost predicate Extends(g: Globals, g': Globals, k: nat) {
    && GlobalsOk(g')
    && g.owner.Keys <= g'.owner.Keys && (forall id :: id in g.owner ==> g'.owner[id] == g.owner[id])
    && Floor(g) <= Floor(g')
    && (g'.clean ==> g.clean)
    && (g.idLock.Some? && g.idLock.value.key != k ==>
          g'.idLock == g.idLock && g'.nextId == g.nextId && g'.counter == g.counter)
    && (g'.idLock.Some? && g'.idLock.value.key != k ==> g'.idLock == g.idLock)
  }

  /** The statistics move with what they count for the key. */
  predicate Balanced(g: Globals, s: KeyState, g': Globals, s': KeyState) {
    && g.stats.entries + Booked(s').entries == g'.stats.entries + Booked(s).entries
    && g.stats.bytes + Booked(s').bytes == g'.stats.bytes + Booked(s).bytes
  }

  predicate Covers(g: Globals, s: KeyState) {
    Booked(s).entries <= g.stats.entries && Booked(s).bytes <= g.stats.bytes
  }

  /** The holder of the metadata lock moved on; the fill table did not. */
  ghost predicate Moved(s: KeyState, s': KeyState) {
    && s.crit.Locked? && s.crit.tid in s.reg.threads
    && s'.crit.Locked? && s'.crit.tid == s.crit.tid
    && s'.reg == s.reg
    && SectionFits(s.reg, s.reg.threads[s.crit.tid], s'.crit.sec)
    && s.led.fence <= s'.led.fence
    && (s'.crit.sec == Done(Applied) && s.reg.threads[s.crit.tid].Invalidating? ==>
          s.reg.threads[s.crit.tid].inv.cut <= s'.led.fence)
  }

  lemma MovedKeepsReg(s: KeyState, s': KeyState)
    requires RegInv(s.reg, s.crit) && Moved(s, s')
    ensures RegInv(s'.reg, s'.crit)
  {
  }

  lemma MovedKeepsResults(s: KeyState, s': KeyState)
    requires ResultsOk(s) && Moved(s, s')
    ensures ResultsOk(s')
  {
  }

  /** Nothing shared with other keys changed but the statistics. */
  predicate OnlyBooks(g: Globals, g': Globals) {
    g' == g.(stats := g'.stats, clean := g'.clean) && (g'.clean ==> g.clean)
  }

  /** What a step inside the critical section owes for the files, when it leaves fill ids and history alone. */
  predicate FilesFit(g: Globals, k: nat, s: KeyState)
    requires s.crit.Locked?
  {
    && OptMetaOk(g, k, s.led, s.files.live.meta) && OptBodyOk(g, k, s.files.live.body)
    && Sound(s.files.live, s.files.marker, s.files.inMemory, s.led)
    && SectionOk(g, k, s)
  }

  predicate FilesFitHere(g: Globals, k: nat, s: KeyState) {
    s.crit.Locked? && FilesFit(g, k, s)
  }

  predicate AboutIds(sec: Section) {
    sec.Reserving? || sec.Persisting?
  }

  lemma FilesFrameInside(g: Globals, g': Globals, k: nat, s: KeyState, s': KeyState)
    requires GlobalsOk(g) && FilesInv(g, k, s) && OnlyBooks(g, g') && s'.led == s.led && s'.reg == s.reg
    requires s.crit.Locked? && s'.crit.Locked? && s'.crit.tid == s.crit.tid && !AboutIds(s.crit.sec) && !AboutIds(s'.crit.sec)
    requires FilesFit(g', k, s')
    ensures FilesInv(g', k, s') && Extends(g, g', k)
  {
  }

  /** The same for a step that only raises the fences, up to a generation bump that was made. */
  lemma FenceFrame(g: Globals, g': Globals, k: nat, s: KeyState, s': KeyState)
    requires GlobalsOk(g) && FilesInv(g, k, s) && OnlyBooks(g, g') && s'.reg == s.reg
    requires s'.led == s.led.(fence := s'.led.fence, memFence := s'.led.memFence)
    requires s'.led.fence <= s'.led.memFence <= s.reg.bar
    requires s.crit.Locked? && s'.crit.Locked? && s'.crit.tid == s.crit.tid && !AboutIds(s.crit.sec) && !AboutIds(s'.crit.sec)
    requires FilesFit(g', k, s')
    ensures FilesInv(g', k, s') && Extends(g, g', k)
  {
  }

  /** One file operation of the publish phase keeps the shape that belongs to its stage. */
  lemma PublishShape(p: Pub, f: Pair, ok: bool)
    requires PubShape(p, f) && !p.stage.Published? && !p.stage.RolledBack?
    ensures var (p', f') := PublishStep(p, f, ok);
            && PubShape(p', f')
            && p'.newBody == p.newBody && p'.newMeta == p.newMeta && p'.prior == p.prior
  {
  }

  /** At no stage is a fenced-off body in sight, whatever fails. */
  lemma ShapeIsSound(p: Pub, f: Pair, marker: bool, inMemory: bool, led: Ledger)
    requires PubShape(p, f) && Sound(p.prior, marker, inMemory, led)
    requires led.fence <= led.memFence <= p.newMeta.writer
    ensures Sound(f, marker, inMemory, led)
  {
  }

  lemma PublishFilesOf(g: Globals, k: nat, s: KeyState, p: Pub, ok: bool)
    requires s.crit.Locked? && s.crit.sec == Pubs(p) && PubOk(g, k, s.led, s.files, p)
    requires s.led.fence <= s.led.memFence <= p.newMeta.writer
    ensures var (p', f') := PublishStep(p, s.files.live, ok);
            && PubShape(p', f')
            && p'.newBody == p.newBody && p'.newMeta == p.newMeta && p'.prior == p.prior
            && Sound(f', s.files.marker, s.files.inMemory, s.led)
            && (!p'.stage.Published? ==> f'.meta.None? || f'.meta == p.prior.meta)
            && (f'.body.None? || f'.body == p.prior.body || f'.body == Some(p.newBody))
  {
    var (p', f') := PublishStep(p, s.files.live, ok);
    PublishShape(p, s.files.live, ok);
    ShapeIsSound(p', f', s.files.marker, s.files.inMemory, s.led);
  }

  /** Nothing that was ever recorded about a key is taken back. */
  ghost predicate Remembers(l: Ledger, l': Ledger) {
    && l.fence <= l'.fence && l.lastId <= l'.lastId
    && (l.saturated ==> l'.saturated)
    && (forall id :: id in l.history ==>
          id in l'.history && l.history[id].contents <= l'.history[id].contents && l.history[id].accessed <= l'.history[id].accessed)
    && (forall id :: id in l'.history && id !in l.history ==> l.lastId < id)
  }

  lemma PublishRemembers(g: Globals, k: nat, s: KeyState, c: Choice)
    requires FilesInv(g, k, s) && s.crit.Locked? && s.crit.sec.Pubs?
    ensures PublishSection(g, s, c).To? && Remembers(s.led, PublishSection(g, s, c).s.led)
  {
  }

  lemma WriterRemembers(g: Globals, k: nat, s: KeyState, job: Job, c: Choice)
    requires FilesInv(g, k, s) && s.crit.Locked? && WriterSection(g, s, job, c).To?
    requires s.crit.sec.WriteMeta? && job.Touch? ==> s.crit.sec.meta.accessed < job.now
    ensures Remembers(s.led, WriterSection(g, s, job, c).s.led)
  {
  }

  lemma FillRemembers(g: Globals, k: nat, s: KeyState, gd: Guard, c: Choice)
    requires s.crit.Locked?
    ensures ReserveSection(g, k, s, gd, c).To? ==> ReserveSection(g, k, s, gd, c).s.led == s.led
    ensures SettleSection(g, s, c).To? ==> SettleSection(g, s, c).s.led == s.led
  {
  }

  lemma InvRemembers(g: Globals, s: KeyState, inv: Inv, c: Choice)
    requires s.crit.Locked?
    ensures CheckSection(g, s, inv, c).To? ==> CheckSection(g, s, inv, c).s.led == s.led
    ensures PurgeSection(g, s, inv, c).To? ==> Remembers(s.led, PurgeSection(g, s, inv, c).s.led)
    ensures PoisonSection(g, s, inv, c).To? ==> Remembers(s.led, PoisonSection(g, s, inv, c).s.led)
  {
  }

  lemma JobRemembers(g: Globals, s: KeyState, job: Job, c: Choice)
    requires s.crit.Locked?
    ensures LookupSection(g, s, c).To? ==> LookupSection(g, s, c).s.led == s.led
    ensures EvictSection(g, s, job, c).To? ==> EvictSection(g, s, job, c).s.led == s.led
    ensures TidySection(g, s, job, c).To? ==> TidySection(g, s, job, c).s.led == s.led
  {
  }

  // ---------- commit_fill_inner ----------

  lemma ReserveFits(g: Globals, k: nat, s: KeyState, gd: Guard, c: Choice)
    requires s.crit.Locked? && s.crit.tid in s.reg.threads && s.reg.threads[s.crit.tid].Publishing? && s.reg.threads[s.crit.tid].g == gd
             && GuardOk(s.reg, s.reg.threads[s.crit.tid])
    requires SectionFits(s.reg, s.reg.threads[s.crit.tid], s.crit.sec)
    requires s.crit.sec.Late? || s.crit.sec.WantsId? || s.crit.sec.Reserving? || s.crit.sec.Persisting?
    requires ReserveSection(g, k, s, gd, c).To?
    ensures Moved(s, ReserveSection(g, k, s, gd, c).s)
  {
  }

  lemma ReserveFiles(g: Globals, k: nat, s: KeyState, gd: Guard, c: Choice)
    requires GlobalsOk(g) && FilesInv(g, k, s) && s.crit.Locked?
    requires s.crit.sec.Late? || s.crit.sec.WantsId? || s.crit.sec.Reserving? || s.crit.sec.Persisting?
    requires ReserveSection(g, k, s, gd, c).To?
    ensures var n := ReserveSection(g, k, s, gd, c);
            FilesInv(n.g, k, n.s) && Extends(g, n.g, k)
  {
    if s.crit.sec.Late? || s.crit.sec.WantsId? {
      EntersIdFiles(g, k, s, gd, c);
    } else {
      ReservesFiles(g, k, s, gd, c);
    }
  }

  lemma EntersIdFiles(g: Globals, k: nat, s: KeyState, gd: Guard, c: Choice)
    requires GlobalsOk(g) && FilesInv(g, k, s) && s.crit.Locked? && (s.crit.sec.Late? || s.crit.sec.WantsId?)
    requires ReserveSection(g, k, s, gd, c).To?
    ensures var n := ReserveSection(g, k, s, gd, c);
            FilesInv(n.g, k, n.s) && Extends(g, n.g, k)
  {
  }

  lemma ReservesFiles(g: Globals, k: nat, s: KeyState, gd: Guard, c: Choice)
    requires GlobalsOk(g) && FilesInv(g, k, s) && s.crit.Locked? && (s.crit.sec.Reserving? || s.crit.sec.Persisting?)
    requires ReserveSection(g, k, s, gd, c).To?
    ensures var n := ReserveSection(g, k, s, gd, c);
            FilesInv(n.g, k, n.s) && Extends(g, n.g, k)
  {
  }

  lemma ReserveClean(g: Globals, k: nat, s: KeyState, gd: Guard, c: Choice)
    requires FilesInv(g, k, s) && s.crit.Locked? && CleanOk(s)
    requires s.crit.sec.Late? || s.crit.sec.WantsId? || s.crit.sec.Reserving? || s.crit.sec.Persisting?
    requires ReserveSection(g, k, s, gd, c).To?
    requires g.clean && Covers(g, s)
    ensures var n := ReserveSection(g, k, s, gd, c);
            n.g.clean ==> CleanOk(n.s) && Balanced(g, s, n.g, n.s)
  {
  }

  lemma PublishFits(g: Globals, k: nat, s: KeyState, c: Choice)
    requires s.crit.Locked? && s.crit.tid in s.reg.threads && s.reg.threads[s.crit.tid].Publishing?
    requires SectionFits(s.reg, s.reg.threads[s.crit.tid], s.crit.sec)
    requires s.crit.sec.Pubs?
    requires PublishSection(g, s, c).To?
    ensures Moved(s, PublishSection(g, s, c).s)
  {
  }

  lemma PublishFiles(g: Globals, k: nat, s: KeyState, c: Choice)
    requires GlobalsOk(g) && FilesInv(g, k, s) && s.crit.Locked?
    requires s.crit.sec.Pubs?
    requires PublishSection(g, s, c).To?
    requires s.reg.bar <= s.crit.sec.p.newMeta.writer
    ensures var n := PublishSection(g, s, c);
            FilesInv(n.g, k, n.s) && Extends(g, n.g, k)
  {
    if PublishStep(s.crit.sec.p, s.files.live, c.ok).0.stage.Published? {
      LastPublishFiles(g, k, s, c);
    } else {
      EarlyPublishFiles(g, k, s, c);
    }
  }

  lemma LastPublishFiles(g: Globals, k: nat, s: KeyState, c: Choice)
    requires GlobalsOk(g) && FilesInv(g, k, s) && s.crit.Locked? && s.crit.sec.Pubs?
    requires PublishStep(s.crit.sec.p, s.files.live, c.ok).0.stage.Published?
    requires s.reg.bar <= s.crit.sec.p.newMeta.writer
    ensures var n := PublishSection(g, s, c);
            n.To? && FilesInv(n.g, k, n.s) && Extends(g, n.g, k)
  {
    PublishFilesOf(g, k, s, s.crit.sec.p, c.ok);
  }

  lemma EarlyPublishFiles(g: Globals, k: nat, s: KeyState, c: Choice)
    requires GlobalsOk(g) && FilesInv(g, k, s) && s.crit.Locked? && s.crit.sec.Pubs?
    requires !PublishStep(s.crit.sec.p, s.files.live, c.ok).0.stage.Published?
    requires s.reg.bar <= s.crit.sec.p.newMeta.writer
    ensures var n := PublishSection(g, s, c);
            n.To? && FilesInv(n.g, k, n.s) && Extends(g, n.g, k)
  {
    PublishFilesOf(g, k, s, s.crit.sec.p, c.ok);
    var n := PublishSection(g, s, c);
    FilesFrameInside(g, n.g, k, s, n.s);
  }

  lemma PublishClean(g: Globals, k: nat, s: KeyState, c: Choice)
    requires FilesInv(g, k, s) && s.crit.Locked? && CleanOk(s)
    requires s.crit.sec.Pubs?
    requires PublishSection(g, s, c).To?
    requires g.clean && Covers(g, s)
    ensures var n := PublishSection(g, s, c);
            n.g.clean ==> CleanOk(n.s) && Balanced(g, s, n.g, n.s)
  {
  }

  lemma SettleFits(g: Globals, k: nat, s: KeyState, c: Choice)
    requires s.crit.Locked? && s.crit.tid in s.reg.threads && s.reg.threads[s.crit.tid].Publishing?
    requires SectionFits(s.reg, s.reg.threads[s.crit.tid], s.crit.sec)
    requires s.crit.sec.Unbook? || s.crit.sec.Book? || s.crit.sec.Unpoison?
    requires SettleSection(g, s, c).To?
    ensures Moved(s, SettleSection(g, s, c).s)
  {
  }

  lemma SettleFitsFiles(g: Globals, k: nat, s: KeyState, c: Choice)
    requires FilesFitHere(g, k, s) && (s.crit.sec.Unbook? || s.crit.sec.Book? || s.crit.sec.Unpoison?)
    requires s.led.memFence <= s.crit.sec.p.newMeta.writer && s.led.fence <= s.led.memFence
    ensures var n := SettleSection(g, s, c);
            n.To? && FilesFitHere(n.g, k, n.s)
  {
  }

  lemma SettleFiles(g: Globals, k: nat, s: KeyState, c: Choice)
    requires GlobalsOk(g) && FilesInv(g, k, s) && s.crit.Locked?
    requires s.crit.sec.Unbook? || s.crit.sec.Book? || s.crit.sec.Unpoison?
    requires SettleSection(g, s, c).To?
    requires s.reg.bar <= s.crit.sec.p.newMeta.writer
    ensures var n := SettleSection(g, s, c);
            FilesInv(n.g, k, n.s) && Extends(g, n.g, k)
  {
    SettleFitsFiles(g, k, s, c);
    var n := SettleSection(g, s, c);
    FilesFrameInside(g, n.g, k, s, n.s);
  }

  lemma SettleClean(g: Globals, k: nat, s: KeyState, c: Choice)
    requires FilesInv(g, k, s) && s.crit.Locked? && CleanOk(s)
    requires s.crit.sec.Unbook? || s.crit.sec.Book? || s.crit.sec.Unpoison?
    requires SettleSection(g, s, c).To?
    requires g.clean && Covers(g, s)
    ensures var n := SettleSection(g, s, c);
            n.g.clean ==> CleanOk(n.s) && Balanced(g, s, n.g, n.s)
  {
  }

  // ---------- purge and poison ----------

  lemma CheckFits(g: Globals, k: nat, s: KeyState, inv: Inv, c: Choice)
    requires s.crit.Locked? && s.crit.tid in s.reg.threads && s.reg.threads[s.crit.tid] == Invalidating(inv)
    requires SectionFits(s.reg, s.reg.threads[s.crit.tid], s.crit.sec)
    requires s.crit.sec.Check? || s.crit.sec.OrphanBody?
    requires CheckSection(g, s, inv, c).To?
    ensures Moved(s, CheckSection(g, s, inv, c).s)
  {
  }

  lemma CheckFitsFiles(g: Globals, k: nat, s: KeyState, inv: Inv, c: Choice)
    requires FilesFitHere(g, k, s) && (s.crit.sec.Check? || s.crit.sec.OrphanBody?)
    ensures var n := CheckSection(g, s, inv, c);
            n.To? && FilesFitHere(n.g, k, n.s)
  {
  }

  lemma CheckFiles(g: Globals, k: nat, s: KeyState, inv: Inv, c: Choice)
    requires GlobalsOk(g) && FilesInv(g, k, s) && s.crit.Locked?
    requires s.crit.sec.Check? || s.crit.sec.OrphanBody?
    requires CheckSection(g, s, inv, c).To?
    ensures var n := CheckSection(g, s, inv, c);
            FilesInv(n.g, k, n.s) && Extends(g, n.g, k)
  {
    CheckFitsFiles(g, k, s, inv, c);
    var n := CheckSection(g, s, inv, c);
    FilesFrameInside(g, n.g, k, s, n.s);
  }

  lemma CheckClean(g: Globals, k: nat, s: KeyState, inv: Inv, c: Choice)
    requires FilesInv(g, k, s) && s.crit.Locked? && CleanOk(s)
    requires s.crit.sec.Check? || s.crit.sec.OrphanBody?
    requires CheckSection(g, s, inv, c).To?
    requires g.clean && Covers(g, s)
    ensures var n := CheckSection(g, s, inv, c);
            n.g.clean ==> CleanOk(n.s) && Balanced(g, s, n.g, n.s)
  {
  }

  lemma PurgeFits(g: Globals, k: nat, s: KeyState, inv: Inv, c: Choice)
    requires s.crit.Locked? && s.crit.tid in s.reg.threads && s.reg.threads[s.crit.tid] == Invalidating(inv)
    requires SectionFits(s.reg, s.reg.threads[s.crit.tid], s.crit.sec)
    requires s.crit.sec.PurgeBody? || s.crit.sec.PurgeMeta? || s.crit.sec.PurgeUnbook? || s.crit.sec.ClearPoison?
    requires PurgeSection(g, s, inv, c).To?
    ensures Moved(s, PurgeSection(g, s, inv, c).s)
  {
  }

  lemma PurgeFiles(g: Globals, k: nat, s: KeyState, inv: Inv, c: Choice)
    requires GlobalsOk(g) && FilesInv(g, k, s) && s.crit.Locked?
    requires s.crit.sec.PurgeBody? || s.crit.sec.PurgeMeta? || s.crit.sec.PurgeUnbook? || s.crit.sec.ClearPoison?
    requires PurgeSection(g, s, inv, c).To?
    requires PastBump(s.crit.sec) ==> inv.cut <= s.reg.bar
    ensures var n := PurgeSection(g, s, inv, c);
            FilesInv(n.g, k, n.s) && Extends(g, n.g, k)
  {
    if s.crit.sec.ClearPoison? {
      ClearFiles(g, k, s, inv, c);
    } else {
      RemoveFiles(g, k, s, inv, c);
    }
  }

  lemma RemoveFitsFiles(g: Globals, k: nat, s: KeyState, inv: Inv, c: Choice)
    requires FilesFitHere(g, k, s) && (s.crit.sec.PurgeBody? || s.crit.sec.PurgeMeta? || s.crit.sec.PurgeUnbook?)
    ensures var n := PurgeSection(g, s, inv, c);
            n.To? && FilesFitHere(n.g, k, n.s)
  {
  }

  lemma RemoveFiles(g: Globals, k: nat, s: KeyState, inv: Inv, c: Choice)
    requires GlobalsOk(g) && FilesInv(g, k, s) && s.crit.Locked?
    requires s.crit.sec.PurgeBody? || s.crit.sec.PurgeMeta? || s.crit.sec.PurgeUnbook?
    ensures var n := PurgeSection(g, s, inv, c);
            n.To? && FilesInv(n.g, k, n.s) && Extends(g, n.g, k)
  {
    RemoveFitsFiles(g, k, s, inv, c);
    var n := PurgeSection(g, s, inv, c);
    FilesFrameInside(g, n.g, k, s, n.s);
  }

  lemma ClearFiles(g: Globals, k: nat, s: KeyState, inv: Inv, c: Choice)
    requires GlobalsOk(g) && FilesInv(g, k, s) && s.crit.Locked? && s.crit.sec.ClearPoison?
    requires PastBump(s.crit.sec) ==> inv.cut <= s.reg.bar
    ensures var n := PurgeSection(g, s, inv, c);
            n.To? && FilesInv(n.g, k, n.s) && Extends(g, n.g, k)
  {
    var n := PurgeSection(g, s, inv, c);
    FenceFrame(g, n.g, k, s, n.s);
  }

  lemma PurgeClean(g: Globals, k: nat, s: KeyState, inv: Inv, c: Choice)
    requires FilesInv(g, k, s) && s.crit.Locked? && CleanOk(s)
    requires s.crit.sec.PurgeBody? || s.crit.sec.PurgeMeta? || s.crit.sec.PurgeUnbook? || s.crit.sec.ClearPoison?
    requires PurgeSection(g, s, inv, c).To?
    requires g.clean && Covers(g, s)
    ensures var n := PurgeSection(g, s, inv, c);
            n.g.clean ==> CleanOk(n.s) && Balanced(g, s, n.g, n.s)
  {
  }

  lemma PoisonFits(g: Globals, k: nat, s: KeyState, inv: Inv, c: Choice)
    requires s.crit.Locked? && s.crit.tid in s.reg.threads && s.reg.threads[s.crit.tid] == Invalidating(inv)
    requires SectionFits(s.reg, s.reg.threads[s.crit.tid], s.crit.sec)
    requires s.crit.sec.MarkMemory? || s.crit.sec.MarkDisk?
    requires PoisonSection(g, s, inv, c).To?
    ensures Moved(s, PoisonSection(g, s, inv, c).s)
  {
  }

  lemma PoisonFiles(g: Globals, k: nat, s: KeyState, inv: Inv, c: Choice)
    requires GlobalsOk(g) && FilesInv(g, k, s) && s.crit.Locked?
    requires s.crit.sec.MarkMemory? || s.crit.sec.MarkDisk?
    requires PoisonSection(g, s, inv, c).To?
    requires PastBump(s.crit.sec) ==> inv.cut <= s.reg.bar
    ensures var n := PoisonSection(g, s, inv, c);
            FilesInv(n.g, k, n.s) && Extends(g, n.g, k)
  {
    var n := PoisonSection(g, s, inv, c);
    FenceFrame(g, n.g, k, s, n.s);
  }

  lemma PoisonClean(g: Globals, k: nat, s: KeyState, inv: Inv, c: Choice)
    requires FilesInv(g, k, s) && s.crit.Locked? && CleanOk(s)
    requires s.crit.sec.MarkMemory? || s.crit.sec.MarkDisk?
    requires PoisonSection(g, s, inv, c).To?
    requires g.clean && Covers(g, s)
    ensures var n := PoisonSection(g, s, inv, c);
            n.g.clean ==> CleanOk(n.s) && Balanced(g, s, n.g, n.s)
  {
  }

  // ---------- metadata writers, lookups, eviction ----------

  lemma WriterFits(g: Globals, k: nat, s: KeyState, job: Job, c: Choice)
    requires s.crit.Locked? && s.crit.tid in s.reg.threads && s.reg.threads[s.crit.tid] == Working(job) && (job.Update? || job.Touch?)
    requires SectionFits(s.reg, s.reg.threads[s.crit.tid], s.crit.sec)
    requires s.crit.sec.ReadMeta? || s.crit.sec.WriteMeta? || s.crit.sec.Rebook?
    requires WriterSection(g, s, job, c).To?
    ensures Moved(s, WriterSection(g, s, job, c).s)
  {
  }

  lemma WriterFiles(g: Globals, k: nat, s: KeyState, job: Job, c: Choice)
    requires GlobalsOk(g) && FilesInv(g, k, s) && s.crit.Locked?
    requires s.crit.sec.ReadMeta? || s.crit.sec.WriteMeta? || s.crit.sec.Rebook?
    requires WriterSection(g, s, job, c).To?
    ensures var n := WriterSection(g, s, job, c);
            FilesInv(n.g, k, n.s) && Extends(g, n.g, k)
  {
    if s.crit.sec.WriteMeta? {
      WriterWrites(g, k, s, job, c);
    } else {
      WriterReads(g, k, s, job, c);
    }
  }

  lemma WriterReadsFit(g: Globals, k: nat, s: KeyState, job: Job, c: Choice)
    requires FilesFitHere(g, k, s) && (s.crit.sec.ReadMeta? || s.crit.sec.Rebook?)
    ensures var n := WriterSection(g, s, job, c);
            n.To? && FilesFitHere(n.g, k, n.s)
  {
  }

  lemma WriterReads(g: Globals, k: nat, s: KeyState, job: Job, c: Choice)
    requires GlobalsOk(g) && FilesInv(g, k, s) && s.crit.Locked?
    requires s.crit.sec.ReadMeta? || s.crit.sec.Rebook?
    ensures var n := WriterSection(g, s, job, c);
            n.To? && FilesInv(n.g, k, n.s) && Extends(g, n.g, k)
  {
    WriterReadsFit(g, k, s, job, c);
    var n := WriterSection(g, s, job, c);
    FilesFrameInside(g, n.g, k, s, n.s);
  }

  lemma WriterWrites(g: Globals, k: nat, s: KeyState, job: Job, c: Choice)
    requires GlobalsOk(g) && FilesInv(g, k, s) && s.crit.Locked? && s.crit.sec.WriteMeta?
    requires WriterSection(g, s, job, c).To?
    ensures var n := WriterSection(g, s, job, c);
            FilesInv(n.g, k, n.s) && Extends(g, n.g, k)
  {
  }

  lemma WriterClean(g: Globals, k: nat, s: KeyState, job: Job, c: Choice)
    requires FilesInv(g, k, s) && s.crit.Locked? && CleanOk(s)
    requires s.crit.sec.ReadMeta? || s.crit.sec.WriteMeta? || s.crit.sec.Rebook?
    requires WriterSection(g, s, job, c).To?
    requires g.clean && Covers(g, s)
    ensures var n := WriterSection(g, s, job, c);
            n.g.clean ==> CleanOk(n.s) && Balanced(g, s, n.g, n.s)
  {
  }

  lemma LookupFits(g: Globals, k: nat, s: KeyState, c: Choice)
    requires s.crit.Locked? && s.crit.tid in s.reg.threads && s.reg.threads[s.crit.tid] == Working(Job.Lookup)
    requires SectionFits(s.reg, s.reg.threads[s.crit.tid], s.crit.sec)
    requires s.crit.sec.Recheck? || s.crit.sec.ReadEntry? || s.crit.sec.OpenBody? || s.crit.sec.DropOrphan? || s.crit.sec.DropMeta? || s.crit.sec.Found?
    requires LookupSection(g, s, c).To?
    ensures Moved(s, LookupSection(g, s, c).s)
  {
  }

  lemma LookupFiles(g: Globals, k: nat, s: KeyState, c: Choice)
    requires GlobalsOk(g) && FilesInv(g, k, s) && s.crit.Locked?
    requires s.crit.sec.Recheck? || s.crit.sec.ReadEntry? || s.crit.sec.OpenBody? || s.crit.sec.DropOrphan? || s.crit.sec.DropMeta? || s.crit.sec.Found?
    requires LookupSection(g, s, c).To?
    ensures var n := LookupSection(g, s, c);
            FilesInv(n.g, k, n.s) && Extends(g, n.g, k)
  {
    if s.crit.sec.DropOrphan? || s.crit.sec.DropMeta? {
      LookupDrops(g, k, s, c);
    } else {
      LookupReads(g, k, s, c);
    }
  }

  lemma LookupReadsFit(g: Globals, k: nat, s: KeyState, c: Choice)
    requires FilesFitHere(g, k, s) && (s.crit.sec.Recheck? || s.crit.sec.ReadEntry? || s.crit.sec.OpenBody? || s.crit.sec.Found?)
    ensures var n := LookupSection(g, s, c);
            n.To? && FilesFitHere(n.g, k, n.s)
  {
  }

  lemma LookupReads(g: Globals, k: nat, s: KeyState, c: Choice)
    requires GlobalsOk(g) && FilesInv(g, k, s) && s.crit.Locked?
    requires s.crit.sec.Recheck? || s.crit.sec.ReadEntry? || s.crit.sec.OpenBody? || s.crit.sec.Found?
    ensures var n := LookupSection(g, s, c);
            n.To? && FilesInv(n.g, k, n.s) && Extends(g, n.g, k)
  {
    LookupReadsFit(g, k, s, c);
    var n := LookupSection(g, s, c);
    FilesFrameInside(g, n.g, k, s, n.s);
  }

  lemma LookupDropsFit(g: Globals, k: nat, s: KeyState, c: Choice)
    requires FilesFitHere(g, k, s) && (s.crit.sec.DropOrphan? || s.crit.sec.DropMeta?)
    ensures var n := LookupSection(g, s, c);
            n.To? && FilesFitHere(n.g, k, n.s)
  {
  }

  lemma LookupDrops(g: Globals, k: nat, s: KeyState, c: Choice)
    requires GlobalsOk(g) && FilesInv(g, k, s) && s.crit.Locked?
    requires s.crit.sec.DropOrphan? || s.crit.sec.DropMeta?
    ensures var n := LookupSection(g, s, c);
            n.To? && FilesInv(n.g, k, n.s) && Extends(g, n.g, k)
  {
    LookupDropsFit(g, k, s, c);
    var n := LookupSection(g, s, c);
    FilesFrameInside(g, n.g, k, s, n.s);
  }

  lemma LookupClean(g: Globals, k: nat, s: KeyState, c: Choice)
    requires FilesInv(g, k, s) && s.crit.Locked? && CleanOk(s)
    requires s.crit.sec.Recheck? || s.crit.sec.ReadEntry? || s.crit.sec.OpenBody? || s.crit.sec.DropOrphan? || s.crit.sec.DropMeta? || s.crit.sec.Found?
    requires LookupSection(g, s, c).To?
    requires g.clean && Covers(g, s)
    ensures var n := LookupSection(g, s, c);
            n.g.clean ==> CleanOk(n.s) && Balanced(g, s, n.g, n.s)
  {
  }

  lemma EvictFits(g: Globals, k: nat, s: KeyState, job: Job, c: Choice)
    requires s.crit.Locked? && s.crit.tid in s.reg.threads && s.reg.threads[s.crit.tid] == Working(job) && job.Evict?
    requires SectionFits(s.reg, s.reg.threads[s.crit.tid], s.crit.sec)
    requires s.crit.sec.EvictCheck? || s.crit.sec.EvictBody? || s.crit.sec.EvictMeta? || s.crit.sec.EvictMarker? || s.crit.sec.EvictUnbook?
    requires EvictSection(g, s, job, c).To?
    ensures Moved(s, EvictSection(g, s, job, c).s)
  {
  }

  lemma EvictFiles(g: Globals, k: nat, s: KeyState, job: Job, c: Choice)
    requires GlobalsOk(g) && FilesInv(g, k, s) && s.crit.Locked?
    requires s.crit.sec.EvictCheck? || s.crit.sec.EvictBody? || s.crit.sec.EvictMeta? || s.crit.sec.EvictMarker? || s.crit.sec.EvictUnbook?
    requires EvictSection(g, s, job, c).To?
    ensures var n := EvictSection(g, s, job, c);
            FilesInv(n.g, k, n.s) && Extends(g, n.g, k)
  {
    if s.crit.sec.EvictCheck? || s.crit.sec.EvictUnbook? {
      EvictLooks(g, k, s, job, c);
    } else {
      EvictRemoves(g, k, s, job, c);
    }
  }

  lemma EvictLooksFit(g: Globals, k: nat, s: KeyState, job: Job, c: Choice)
    requires FilesFitHere(g, k, s) && (s.crit.sec.EvictCheck? || s.crit.sec.EvictUnbook?)
    ensures var n := EvictSection(g, s, job, c);
            n.To? && FilesFitHere(n.g, k, n.s)
  {
  }

  lemma EvictLooks(g: Globals, k: nat, s: KeyState, job: Job, c: Choice)
    requires GlobalsOk(g) && FilesInv(g, k, s) && s.crit.Locked? && (s.crit.sec.EvictCheck? || s.crit.sec.EvictUnbook?)
    ensures var n := EvictSection(g, s, job, c);
            n.To? && FilesInv(n.g, k, n.s) && Extends(g, n.g, k)
  {
    EvictLooksFit(g, k, s, job, c);
    var n := EvictSection(g, s, job, c);
    FilesFrameInside(g, n.g, k, s, n.s);
  }

  lemma EvictRemovesFit(g: Globals, k: nat, s: KeyState, job: Job, c: Choice)
    requires FilesFitHere(g, k, s) && (s.crit.sec.EvictBody? || s.crit.sec.EvictMeta? || s.crit.sec.EvictMarker?)
    ensures var n := EvictSection(g, s, job, c);
            n.To? && FilesFitHere(n.g, k, n.s)
  {
  }

  lemma EvictRemoves(g: Globals, k: nat, s: KeyState, job: Job, c: Choice)
    requires GlobalsOk(g) && FilesInv(g, k, s) && s.crit.Locked?
    requires s.crit.sec.EvictBody? || s.crit.sec.EvictMeta? || s.crit.sec.EvictMarker?
    ensures var n := EvictSection(g, s, job, c);
            n.To? && FilesInv(n.g, k, n.s) && Extends(g, n.g, k)
  {
    EvictRemovesFit(g, k, s, job, c);
    var n := EvictSection(g, s, job, c);
    FilesFrameInside(g, n.g, k, s, n.s);
  }

  lemma TidyFits(g: Globals, k: nat, s: KeyState, job: Job, c: Choice)
    requires s.crit.Locked? && s.crit.tid in s.reg.threads && s.reg.threads[s.crit.tid] == Working(job) && (job.TidyBody? || job.TidyMarker? || job.TidyMeta?)
    requires SectionFits(s.reg, s.reg.threads[s.crit.tid], s.crit.sec)
    requires s.crit.sec.Probe? || s.crit.sec.RemoveBody? || s.crit.sec.RemoveMeta? || s.crit.sec.RemoveMarker?
    requires TidySection(g, s, job, c).To?
    ensures Moved(s, TidySection(g, s, job, c).s)
  {
  }

  lemma TidyFitsFiles(g: Globals, k: nat, s: KeyState, job: Job, c: Choice)
    requires FilesFitHere(g, k, s) && (s.crit.sec.Probe? || s.crit.sec.RemoveBody? || s.crit.sec.RemoveMeta? || s.crit.sec.RemoveMarker?)
    ensures var n := TidySection(g, s, job, c);
            n.To? && FilesFitHere(n.g, k, n.s)
  {
  }

  lemma TidyFiles(g: Globals, k: nat, s: KeyState, job: Job, c: Choice)
    requires GlobalsOk(g) && FilesInv(g, k, s) && s.crit.Locked?
    requires s.crit.sec.Probe? || s.crit.sec.RemoveBody? || s.crit.sec.RemoveMeta? || s.crit.sec.RemoveMarker?
    requires TidySection(g, s, job, c).To?
    ensures var n := TidySection(g, s, job, c);
            FilesInv(n.g, k, n.s) && Extends(g, n.g, k)
  {
    TidyFitsFiles(g, k, s, job, c);
    var n := TidySection(g, s, job, c);
    FilesFrameInside(g, n.g, k, s, n.s);
  }

}
