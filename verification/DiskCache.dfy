/**
  The disk cache as one object, for callers that take turns. Its `Drive` may fail any operation. The
  interleaving model (Protocol) and this object share the publish phase and the vocabulary of
  results; a commit here is proved to be a run of that phase to its end (PublishPhase).
*/
module DiskCache {
  import opened Common
  import opened Protocol
  import PublishPhase

  type Key = string

  /** `FillEntry` */
  datatype Filling = Filling(refs: nat, gen: nat)

  /** `FillGuard` */
  datatype Ticket = Ticket(key: Key, gen: nat)

  /**
    What lookup reads in a metadata file: not metadata, metadata of another key with the same hash,
    or the key's own with the content length it names.
  */
  datatype MetaContent = Corrupt | Stranger | Ours(claimed: nat)

  datatype Lookup = Hit(meta: Meta, body: Body) | Miss | Failure

  function PairAt(live: map<Key, Pair>, key: Key): Pair {
    if key in live then live[key] else Pair(None, None)
  }

  // ---------- the drive ----------

  /** The published pairs, the poison markers and the counter file. `failed` is history: some operation has failed. */
  class Drive {
    var live: map<Key, Pair>
    var markers: set<Key>
    var counter: Option<nat>
    ghost var failed: bool

    constructor ()
      ensures live == map[] && markers == {} && counter == None && !failed
    {
      live, markers, counter, failed := map[], {}, None, false;
    }

    /** Whether the next operation succeeds. */
    method Try() returns (ok: bool)
      modifies this`failed
      ensures failed == (old(failed) || !ok)
    {
      ok := *;
      failed := failed || !ok;
    }

    /** Writes the counter file; an error may come before or after the rename. */
    method PersistCounter(n: nat) returns (ok: bool)
      modifies this`counter, this`failed
      ensures failed == (old(failed) || !ok)
      ensures ok ==> counter == Some(n)
      ensures counter == old(counter) || counter == Some(n)
    {
      ok := Try();
      var renamed := *;
      if ok || renamed { counter := Some(n); }
    }

    /** Replaces, removes or restores the body file. */
    method PutBody(key: Key, body: Option<Body>) returns (ok: bool)
      modifies this`live, this`failed
      ensures failed == (old(failed) || !ok)
      ensures live == if ok then old(live)[key := PairAt(old(live), key).(body := body)] else old(live)
    {
      ok := Try();
      if ok { live := live[key := PairAt(live, key).(body := body)]; }
    }

    /** Replaces, removes or restores the metadata file. */
    method PutMeta(key: Key, meta: Option<Meta>) returns (ok: bool)
      modifies this`live, this`failed
      ensures failed == (old(failed) || !ok)
      ensures live == if ok then old(live)[key := PairAt(old(live), key).(meta := meta)] else old(live)
    {
      ok := Try();
      if ok { live := live[key := PairAt(live, key).(meta := meta)]; }
    }

    method SetMarker(key: Key, on: bool) returns (ok: bool)
      modifies this`markers, this`failed
      ensures failed == (old(failed) || !ok)
      ensures markers == if !ok then old(markers) else if on then old(markers) + {key} else old(markers) - {key}
    {
      ok := Try();
      if ok { markers := if on then markers + {key} else markers - {key}; }
    }
  }

  // ---------- the publish phase, step by step ----------

  /** The outcomes met so far. */
  type Log = map<Stage, bool>

  ghost predicate Follows(io: PublishPhase.Io, log: Log) {
    forall s :: s in log ==> io(s) == log[s]
  }

  /** Whatever is still to come, the phase from here on ends as it does from its start. */
  ghost predicate Underway(start: Pub, prior: Pair, p: Pub, f: Pair, log: Log) {
    && (forall io :: Follows(io, log) ==> PublishPhase.Finish(start, prior, io) == PublishPhase.Finish(p, f, io))
    && (forall s :: s in log ==> PublishPhase.Rank(s) > PublishPhase.Rank(p.stage))
  }

  lemma NextStage(start: Pub, prior: Pair, p: Pub, f: Pair, log: Log, ok: bool)
    requires Underway(start, prior, p, f, log) && PublishPhase.Rank(p.stage) > 0
    ensures Underway(start, prior, PublishStep(p, f, ok).0, PublishStep(p, f, ok).1, log[p.stage := ok])
  {
    var log' := log[p.stage := ok];
    forall io | Follows(io, log')
      ensures PublishPhase.Finish(start, prior, io)
           == PublishPhase.Finish(PublishStep(p, f, ok).0, PublishStep(p, f, ok).1, io)
    {
      assert p.stage in log' && io(p.stage) == ok;
      assert Follows(io, log) by {
        forall s | s in log ensures io(s) == log[s] { assert s in log' && log'[s] == log[s]; }
      }
    }
  }

  /** This outcome of a commit's publish phase is one the phase can have. */
  ghost predicate EndsAs(start: Pub, prior: Pair, p: Pub, f: Pair) {
    exists io :: PublishPhase.Finish(start, prior, io) == (p, f)
  }

  lemma AtTheEnd(start: Pub, prior: Pair, p: Pub, f: Pair, log: Log)
    requires Underway(start, prior, p, f, log) && PublishPhase.Rank(p.stage) == 0
    ensures EndsAs(start, prior, p, f)
  {
    var io: PublishPhase.Io := s => s in log && log[s];
    assert Follows(io, log);
    assert PublishPhase.Finish(start, prior, io) == (p, f);
  }

  /** Where the code is in the publish phase, and that this is where the phase would be. */
  ghost predicate At(start: Pub, prior: Pair, p: Pub, log: Log, live: map<Key, Pair>, key: Key, rest: map<Key, Pair>) {
    Underway(start, prior, p, PairAt(live, key), log) && live - {key} == rest
  }

  /** The code made the step its stage asks for. */
  lemma Tell(start: Pub, prior: Pair, p: Pub, log: Log, live: map<Key, Pair>, live': map<Key, Pair>, key: Key, rest: map<Key, Pair>, ok: bool)
    returns (p': Pub, log': Log)
    requires At(start, prior, p, log, live, key, rest) && PublishPhase.Rank(p.stage) > 0
    requires PairAt(live', key) == PublishStep(p, PairAt(live, key), ok).1 && live' - {key} == rest
    ensures p' == PublishStep(p, PairAt(live, key), ok).0
    ensures At(start, prior, p', log', live', key, rest)
  {
    p', log' := PublishStep(p, PairAt(live, key), ok).0, log[p.stage := ok];
    NextStage(start, prior, p, PairAt(live, key), log, ok);
  }

  /** The way back when a rename failed: the body, if there is something to undo, and then the metadata. */
  method RollBack(drive: Drive, key: Key, undoBody: bool, body: Option<Body>, hadMeta: bool, meta: Option<Meta>,
                  ghost start: Pub, ghost prior: Pair, ghost p0: Pub, ghost log0: Log, ghost rest: map<Key, Pair>)
    returns (ghost p: Pub)
    requires At(start, prior, p0, log0, drive.live, key, rest) && hadMeta == p0.hadMeta && (hadMeta ==> meta == p0.bakMeta)
    requires p0.stage.UndoPutBody? || p0.stage.UndoPutMeta? || p0.stage.RestoreMeta?
    requires undoBody <==> !p0.stage.RestoreMeta?
    requires undoBody ==> body == if p0.stage.UndoPutBody? || p0.hadBody then p0.bakBody else None
    modifies drive`live, drive`failed
    ensures old(drive.failed) ==> drive.failed
    ensures EndsAs(start, prior, p, PairAt(drive.live, key)) && p.stage.RolledBack?
    ensures drive.live - {key} == rest
  {
    ghost var log := log0;
    p := p0;
    if undoBody {
      ghost var live := drive.live;
      var ok := drive.PutBody(key, body);
      p, log := Tell(start, prior, p, log, live, drive.live, key, rest, ok);
    }
    p := RestoreMeta(drive, key, hadMeta, meta, start, prior, p, log, rest);
  }

  method RestoreMeta(drive: Drive, key: Key, hadMeta: bool, meta: Option<Meta>,
                     ghost start: Pub, ghost prior: Pair, ghost p0: Pub, ghost log: Log, ghost rest: map<Key, Pair>)
    returns (ghost p: Pub)
    requires At(start, prior, p0, log, drive.live, key, rest) && hadMeta == p0.hadMeta && (hadMeta ==> meta == p0.bakMeta)
    requires p0.stage.RestoreMeta?
    modifies drive`live, drive`failed
    ensures old(drive.failed) ==> drive.failed
    ensures EndsAs(start, prior, p, PairAt(drive.live, key)) && p.stage.RolledBack?
    ensures drive.live - {key} == rest
  {
    ghost var live := drive.live;
    var ok := true;
    if hadMeta { ok := drive.PutMeta(key, meta); }
    ghost var log';
    p, log' := Tell(start, prior, p0, log, live, drive.live, key, rest, ok);
    AtTheEnd(start, prior, p, PairAt(drive.live, key), log');
  }

  /** Which old files the commit can see; a failed stat counts as absent (disk.rs:1354-1357). */
  method LookAtOld(drive: Drive, key: Key, ghost start: Pub, ghost prior: Pair, ghost p0: Pub, ghost log0: Log, ghost rest: map<Key, Pair>)
    returns (hadBody: bool, hadMeta: bool, ghost p: Pub, ghost log: Log)
    requires At(start, prior, p0, log0, drive.live, key, rest) && p0.stage.StatBody?
    modifies drive`failed
    ensures old(drive.failed) ==> drive.failed
    ensures !drive.failed ==> hadBody == PairAt(drive.live, key).body.Some? && hadMeta == PairAt(drive.live, key).meta.Some?
    ensures At(start, prior, p, log, drive.live, key, rest) && p.stage.SaveBody?
    ensures p.hadBody == hadBody && p.hadMeta == hadMeta && p.newBody == p0.newBody && p.newMeta == p0.newMeta
  {
    var ok := drive.Try();
    hadBody := ok && PairAt(drive.live, key).body.Some?;
    p, log := Tell(start, prior, p0, log0, drive.live, drive.live, key, rest, ok);
    ok := drive.Try();
    hadMeta := ok && PairAt(drive.live, key).meta.Some?;
    p, log := Tell(start, prior, p, log, drive.live, drive.live, key, rest, ok);
  }

  /** Moves the old files out of the way, or puts back the one that was already moved (disk.rs:1363-1394). */
  method SaveOld(drive: Drive, key: Key, hadBody: bool, hadMeta: bool,
                 ghost start: Pub, ghost prior: Pair, ghost p0: Pub, ghost log0: Log, ghost rest: map<Key, Pair>)
    returns (ok: bool, body: Option<Body>, meta: Option<Meta>, ghost p: Pub, ghost log: Log)
    requires At(start, prior, p0, log0, drive.live, key, rest) && p0.stage.SaveBody?
    requires p0.hadBody == hadBody && p0.hadMeta == hadMeta
    modifies drive`live, drive`failed
    ensures old(drive.failed) || !ok ==> drive.failed
    ensures ok ==> At(start, prior, p, log, drive.live, key, rest) && p.stage.PutBody?
    ensures ok ==> p.hadBody == hadBody && p.hadMeta == hadMeta && (hadBody ==> body == p.bakBody) && (hadMeta ==> meta == p.bakMeta)
    ensures ok ==> p.newBody == p0.newBody && p.newMeta == p0.newMeta
    ensures body == PairAt(old(drive.live), key).body && meta == PairAt(old(drive.live), key).meta
    ensures !ok ==> EndsAs(start, prior, p, PairAt(drive.live, key)) && p.stage.RolledBack? && drive.live - {key} == rest
  {
    ghost var live := drive.live;
    body, meta := PairAt(drive.live, key).body, PairAt(drive.live, key).meta;
    ok := true;
    if hadBody { ok := drive.PutBody(key, None); }
    p, log := Tell(start, prior, p0, log0, live, drive.live, key, rest, ok);
    if !ok {
      AtTheEnd(start, prior, p, PairAt(drive.live, key), log);
      return;
    }
    live := drive.live;
    if hadMeta { ok := drive.PutMeta(key, None); }
    p, log := Tell(start, prior, p, log, live, drive.live, key, rest, ok);
    if !ok {
      if hadBody {
        live := drive.live;
        var restored := drive.PutBody(key, body);
        p, log := Tell(start, prior, p, log, live, drive.live, key, rest, restored);
      }
      AtTheEnd(start, prior, p, PairAt(drive.live, key), log);
    }
  }

  /** Whatever was live before, the phase leaves the new pair, or the old metadata, or none. */
  lemma PublishLeaves(newBody: Body, newMeta: Meta, prior: Pair, p: Pub, f: Pair)
    requires EndsAs(PublishPhase.Start(newBody, newMeta, prior), prior, p, f)
    ensures p.stage.Published? ==> f == Pair(Some(newBody), Some(newMeta))
    ensures p.stage.RolledBack? ==> f.meta.None? || f.meta == prior.meta
  {
    var start := PublishPhase.Start(newBody, newMeta, prior);
    var io :| PublishPhase.Finish(start, prior, io) == (p, f);
    PublishPhase.EndsOldOrNew(start, prior, prior.meta, io);
  }

  /** The publish phase of `commit_fill_inner` (disk.rs:1311-1459): every run of this code is a run of the phase. */
  method Publish(drive: Drive, key: Key, newBody: Body, newMeta: Meta) returns (ok: bool, known: Pair, ghost p: Pub)
    modifies drive`live, drive`failed
    ensures old(drive.failed) || !ok ==> drive.failed
    ensures !drive.failed ==> known == PairAt(old(drive.live), key)
    ensures ok ==> KnownOf(known, PairAt(old(drive.live), key))
    ensures EndsAs(PublishPhase.Start(newBody, newMeta, PairAt(old(drive.live), key)), PairAt(old(drive.live), key), p, PairAt(drive.live, key))
    ensures p.stage == if ok then Published else RolledBack
    ensures drive.live - {key} == old(drive.live) - {key}
  {
    ghost var prior, rest := PairAt(drive.live, key), drive.live - {key};
    ghost var start := PublishPhase.Start(newBody, newMeta, prior);
    ghost var log: Log := map[];
    p, known := start, Pair(None, None);
    var hadBody, body, hadMeta, meta;
    ok := drive.Try();
    p, log := Tell(start, prior, p, log, drive.live, drive.live, key, rest, ok);
    if !ok {
      AtTheEnd(start, prior, p, PairAt(drive.live, key), log);
      return;
    }
    hadBody, hadMeta, p, log := LookAtOld(drive, key, start, prior, p, log, rest);
    ok, body, meta, p, log := SaveOld(drive, key, hadBody, hadMeta, start, prior, p, log, rest);
    if !ok { return; }
    known := Pair(if hadBody then body else None, if hadMeta then meta else None);
    ok, p := Install(drive, key, newBody, newMeta, hadBody, body, hadMeta, meta, start, prior, p, log, rest);
  }

  /** Its end: both files are renamed into place, or what was done is taken back. */
  method Install(drive: Drive, key: Key, newBody: Body, newMeta: Meta, hadBody: bool, body: Option<Body>, hadMeta: bool, meta: Option<Meta>,
                 ghost start: Pub, ghost prior: Pair, ghost p0: Pub, ghost log0: Log, ghost rest: map<Key, Pair>)
    returns (ok: bool, ghost p: Pub)
    requires At(start, prior, p0, log0, drive.live, key, rest) && p0.stage.PutBody?
    requires p0.newBody == newBody && p0.newMeta == newMeta && p0.hadBody == hadBody && p0.hadMeta == hadMeta
    requires (hadBody ==> body == p0.bakBody) && (hadMeta ==> meta == p0.bakMeta)
    modifies drive`live, drive`failed
    ensures old(drive.failed) || !ok ==> drive.failed
    ensures EndsAs(start, prior, p, PairAt(drive.live, key)) && drive.live - {key} == rest
    ensures p.stage == if ok then Published else RolledBack
  {
    p := p0;
    ghost var log, live := log0, drive.live;
    ok := drive.PutBody(key, Some(newBody));
    p, log := Tell(start, prior, p, log, live, drive.live, key, rest, ok);
    if !ok {
      p := RollBack(drive, key, hadBody, body, hadMeta, meta, start, prior, p, log, rest);
      return;
    }
    live := drive.live;
    ok := drive.PutMeta(key, Some(newMeta));
    p, log := Tell(start, prior, p, log, live, drive.live, key, rest, ok);
    if ok {
      AtTheEnd(start, prior, p, PairAt(drive.live, key), log);
    } else {
      p := RollBack(drive, key, true, if hadBody then body else None, hadMeta, meta, start, prior, p, log, rest);
    }
  }

  // ---------- the object ----------

  function GenerationOf(fills: map<Key, Filling>, key: Key): nat {
    if key in fills then fills[key].gen else 0
  }

  function Begun(fills: map<Key, Filling>, key: Key): map<Key, Filling> {
    fills[key := Filling(if key in fills then fills[key].refs + 1 else 1, GenerationOf(fills, key))]
  }

  function Finished(fills: map<Key, Filling>, key: Key): map<Key, Filling> {
    if key !in fills then fills
    else if fills[key].refs <= 1 then fills - {key}
    else fills[key := fills[key].(refs := fills[key].refs - 1)]
  }

  /** The generation bump that fences off the fills in flight. */
  function Fenced(fills: map<Key, Filling>, key: Key): map<Key, Filling> {
    if key in fills then fills[key := fills[key].(gen := fills[key].gen + 1)] else fills
  }

  predicate Matches(expected: Option<nat>, meta: Option<Meta>) {
    expected.Some? ==> meta.Some? && meta.value.id == expected.value
  }

  predicate SameId(m: Option<Meta>, n: Option<Meta>) {
    m.Some? && n.Some? && m.value.id == n.value.id
  }

  /** Every published fill id is behind the persisted counter, and no two keys share one. */
  ghost predicate IdsOk(live: map<Key, Pair>, counter: Option<nat>) {
    && (forall k :: k in live && live[k].meta.Some? ==> counter.Some? && live[k].meta.value.id < counter.value)
    && (forall j, k :: j in live && k in live && SameId(live[j].meta, live[k].meta) ==> j == k)
  }

  /** The id is larger than every published one. */
  ghost predicate NewId(live: map<Key, Pair>, id: nat) {
    forall k :: k in live && live[k].meta.Some? ==> live[k].meta.value.id < id
  }

  lemma IdsKept(live: map<Key, Pair>, live': map<Key, Pair>, key: Key, counter: Option<nat>, id: nat)
    requires IdsOk(live, counter) && live' - {key} == live - {key} && NewId(live, id) && counter == Some(id + 1)
    requires var m := PairAt(live', key).meta; m.None? || m == PairAt(live, key).meta || m.value.id == id
    ensures IdsOk(live', counter)
  {
    forall k | k in live' && k != key ensures k in live && live'[k] == live[k] {
      assert k in live' - {key} && (live' - {key})[k] == (live - {key})[k];
    }
  }

  /** What a successful commit does to the statistics, given the old files it knew of. */
  function Settled(stats: Footprint, known: Pair, size: nat): Footprint {
    Plus(if SizeOf(known).bytes > 0 then Less(stats, SizeOf(known).(entries := 1)) else stats, Footprint(1, size))
  }

  /** The old pair as far as the commit knew of it. */
  predicate KnownOf(known: Pair, prior: Pair) {
    (known.body.None? || known.body == prior.body) && (known.meta.None? || known.meta == prior.meta)
  }

  /** A fill that ends leaves the table as it was before it began. */
  lemma FinishUndoesBegin(fills: map<Key, Filling>, key: Key)
    requires key in fills ==> fills[key].refs >= 1
    ensures Finished(Begun(fills, key), key) == fills
    ensures key in Begun(fills, key) && GenerationOf(Begun(fills, key), key) == GenerationOf(fills, key)
  {
  }

  /** A settled commit has exchanged the old entry for the new one in the books. */
  lemma SettledBalances(stats: Footprint, prior: Pair, size: nat)
    requires Whole(prior) && (prior.meta.Some? ==> prior.meta.value.size > 0)
    requires SizeOf(prior).entries <= stats.entries && SizeOf(prior).bytes <= stats.bytes
    ensures Settled(stats, prior, size) == Footprint(stats.entries - SizeOf(prior).entries + 1, stats.bytes - SizeOf(prior).bytes + size)
  {
  }

  class DiskCache {
    const drive: Drive
    var fills: map<Key, Filling>
    var poisoned: set<Key>
    var nextFillId: nat
    var stats: Footprint

    constructor (drive: Drive, nextFillId: nat)
      requires drive.live == map[] && drive.counter == None && 1 <= nextFillId <= MAX_U64
      ensures Valid() && this.drive == drive && fills == map[] && poisoned == {} && stats == NOTHING
    {
      this.drive, this.nextFillId := drive, nextFillId;
      fills, poisoned, stats := map[], {}, NOTHING;
    }

    ghost predicate Valid()
      reads this, drive
    {
      && nextFillId <= MAX_U64
      && (drive.counter.Some? ==> drive.counter.value <= nextFillId)
      && IdsOk(drive.live, drive.counter)
    }

    function View(key: Key): Pair
      reads drive
    {
      PairAt(drive.live, key)
    }

    predicate IsPoisoned(key: Key)
      reads this, drive
    {
      key in poisoned || key in drive.markers
    }

    /** `begin_fill` */
    method BeginFill(key: Key) returns (t: Ticket)
      requires Valid()
      modifies this`fills
      ensures Valid() && fills == Begun(old(fills), key) && t == Ticket(key, GenerationOf(fills, key))
    {
      fills := fills[key := Filling(if key in fills then fills[key].refs + 1 else 1, if key in fills then fills[key].gen else 0)];
      t := Ticket(key, fills[key].gen);
    }

    /** `finish_fill`, and so `abort_fill` */
    method FinishFill(key: Key)
      requires Valid()
      modifies this`fills
      ensures Valid() && fills == Finished(old(fills), key)
    {
      if key in fills {
        if fills[key].refs <= 1 {
          fills := fills - {key};
        } else {
          fills := fills[key := fills[key].(refs := fills[key].refs - 1)];
        }
      }
    }

    /** `reserve_fill_id`: the id is persisted as used before it is handed out, and the last one never is. */
    method ReserveFillId() returns (r: Option<nat>)
      requires Valid()
      modifies this`nextFillId, drive`counter, drive`failed
      ensures Valid() && nextFillId >= old(nextFillId)
      ensures r.Some? ==> r.value == old(nextFillId) < MAX_U64 && drive.counter == Some(r.value + 1)
      ensures r.Some? ==> NewId(drive.live, r.value)
      ensures old(drive.failed) ==> drive.failed
      ensures !drive.failed ==> (r.Some? <==> old(nextFillId) < MAX_U64)
      ensures old(nextFillId) == MAX_U64 ==> r.None? && nextFillId == MAX_U64 && drive.counter == old(drive.counter)
    {
      if nextFillId == MAX_U64 { return None; }
      var id := nextFillId;
      nextFillId := nextFillId + 1;
      var ok := drive.PersistCounter(SatAdd(id, 1));
      r := if ok then Some(id) else None;
    }

    /** Clears the poison: the fence in memory always, the marker if the removal works. */
    method ClearPoison(key: Key)
      requires Valid()
      modifies this`poisoned, drive`markers, drive`failed
      ensures Valid() && poisoned == old(poisoned) - {key}
      ensures drive.markers == old(drive.markers) || drive.markers == old(drive.markers) - {key}
      ensures old(drive.failed) ==> drive.failed
      ensures !drive.failed ==> drive.markers == old(drive.markers) - {key}
    {
      poisoned := poisoned - {key};
      var ok := drive.SetMarker(key, false);
    }

    /**
      `commit_fill`. A fill that was fenced off is refused and touches nothing. A commit that
      publishes leaves exactly its own pair, the statistics settled and the key unpoisoned in
      memory; one that fails leaves statistics and poison alone, and the pair is where the publish
      phase can end. Without failures every other fill publishes while there are ids left, and
      leaves no poison behind.
    */
    method CommitFill(t: Ticket, writer: Fill, bodySize: nat, metaSize: nat, content: Content, accessed: int)
      returns (r: Result, ghost known: Pair, ghost p: Pub)
      requires Valid() && metaSize > 0
      modifies this`fills, this`poisoned, this`nextFillId, this`stats, drive
      ensures Valid() && fills == Finished(old(fills), t.key)
      ensures r.Refused? <==> GenerationOf(old(fills), t.key) != t.gen
      ensures r.Refused? ==> drive.live == old(drive.live) && stats == old(stats) && poisoned == old(poisoned)
                             && drive.counter == old(drive.counter) && nextFillId == old(nextFillId)
      ensures r.Errored? ==> stats == old(stats) && poisoned == old(poisoned) && drive.markers == old(drive.markers)
      ensures r.Errored? ==> View(t.key).meta.None? || View(t.key).meta == old(View(t.key)).meta
      ensures var body, meta := Body(writer, old(nextFillId), bodySize), Meta(writer, old(nextFillId), 0, accessed, content, metaSize);
              && (r.Errored? ==> View(t.key) == old(View(t.key)) || p.stage.RolledBack?)
              && (r.Applied? || View(t.key) != old(View(t.key)) ==>
                    EndsAs(PublishPhase.Start(body, meta, old(View(t.key))), old(View(t.key)), p, View(t.key)))
      ensures r.Applied? ==>
                var meta := Meta(writer, old(nextFillId), 0, accessed, content, metaSize);
                && View(t.key) == Pair(Some(Body(writer, old(nextFillId), bodySize)), Some(meta))
                && poisoned == old(poisoned) - {t.key}
                && KnownOf(known, old(View(t.key))) && stats == Settled(old(stats), known, bodySize + metaSize)
      ensures drive.live - {t.key} == old(drive.live) - {t.key}
      ensures old(drive.failed) ==> drive.failed
      ensures !drive.failed && !r.Refused? ==> (r.Applied? <==> old(nextFillId) < MAX_U64)
      ensures !drive.failed && r.Applied? ==> !IsPoisoned(t.key) && drive.markers == old(drive.markers) - {t.key}
                                              && known == old(View(t.key)) && drive.counter == Some(old(nextFillId) + 1)
    {
      known, p := Pair(None, None), PublishPhase.Start(Body(0, 0, 0), Meta(0, 0, 0, 0, "", 0), Pair(None, None));
      if GenerationOf(fills, t.key) != t.gen {
        FinishFill(t.key);
        return Refused, known, p;
      }
      var id := ReserveFillId();
      var ok := id.Some?;
      if ok {
        ghost var live := drive.live;
        var body, meta := Body(writer, id.value, bodySize), Meta(writer, id.value, 0, accessed, content, metaSize);
        var seen;
        ok, seen, p := Publish(drive, t.key, body, meta);
        PublishLeaves(body, meta, PairAt(live, t.key), p, View(t.key));
        IdsKept(live, drive.live, t.key, drive.counter, id.value);
        if ok {
          known := seen;
          stats := Settled(stats, seen, bodySize + metaSize);
          ClearPoison(t.key);
        }
      }
      FinishFill(t.key);
      r := if ok then Applied else Errored;
    }

    /** `cleanup_orphaned_body_after_metadata_miss`; the result says whether the body is gone. */
    method DropOrphanBody(key: Key) returns (gone: bool)
      requires Valid() && View(key).meta.None?
      modifies this`stats, drive`live, drive`failed
      ensures Valid() && drive.live - {key} == old(drive.live) - {key}
      ensures View(key) == if gone then Pair(None, None) else old(View(key))
      ensures stats == old(stats) || (gone && old(View(key)).body.Some? && stats == Less(old(stats), SizeOf(old(View(key)))))
      ensures old(drive.failed) ==> drive.failed
      ensures !drive.failed ==> gone && (old(View(key)).body.Some? ==> stats == Less(old(stats), SizeOf(old(View(key)))))
    {
      ghost var live := drive.live;
      var measured := drive.Try();
      var body := View(key).body;
      if body.None? { return true; }
      gone := drive.PutBody(key, None);
      FilesGone(live, drive.live, key, drive.counter);
      if gone && measured { stats := Less(stats, Footprint(1, body.value.size)); }
    }

    /** Body first, metadata second; the first failure ends it. */
    method RemoveFiles(key: Key) returns (ok: bool)
      requires Valid()
      modifies drive`live, drive`failed
      ensures Valid() && drive.live - {key} == old(drive.live) - {key}
      ensures if ok then View(key) == Pair(None, None) else View(key) == old(View(key)) || View(key) == old(View(key)).(body := None)
      ensures old(drive.failed) || !ok ==> drive.failed
    {
      ghost var live := drive.live;
      ok := true;
      if View(key).body.Some? { ok := drive.PutBody(key, None); }
      if ok && View(key).meta.Some? { ok := drive.PutMeta(key, None); }
      FilesGone(live, drive.live, key, drive.counter);
    }

    /** The sizes of both files; one that cannot be measured counts as nothing. */
    method Measure(key: Key) returns (bytes: nat)
      modifies drive`failed
      ensures old(drive.failed) ==> drive.failed
      ensures bytes <= SizeOf(View(key)).bytes && (!drive.failed ==> bytes == SizeOf(View(key)).bytes)
    {
      var measured := drive.Try();
      bytes := if measured && View(key).body.Some? then View(key).body.value.size else 0;
      measured := drive.Try();
      bytes := bytes + if measured && View(key).meta.Some? then View(key).meta.value.size else 0;
    }

    /** The removals of `purge_inner` (disk.rs:1567-1634). */
    method RemovePair(key: Key) returns (r: Result)
      requires Valid()
      modifies this`stats, this`poisoned, drive`live, drive`markers, drive`failed
      ensures Valid() && drive.live - {key} == old(drive.live) - {key}
      ensures !r.Errored? ==> View(key) == Pair(None, None) && poisoned == old(poisoned) - {key}
      ensures r.Refused? ==> stats == old(stats)
      ensures r.Applied? ==> Unbooked(old(stats), stats, SizeOf(old(View(key))))
      ensures r.Applied? <==> !r.Errored? && old(View(key)) != Pair(None, None)
      ensures r.Errored? ==> stats == old(stats) && poisoned == old(poisoned) && drive.markers == old(drive.markers)
      ensures r.Errored? ==> View(key) == old(View(key)) || View(key) == old(View(key)).(body := None)
      ensures old(drive.failed) || r.Errored? ==> drive.failed
      ensures !drive.failed ==> !IsPoisoned(key) && (r.Applied? ==> stats == Less(old(stats), SizeOf(old(View(key))).(entries := 1)))
    {
      var seen := View(key);
      var ok := drive.Try();
      if !ok { return Errored; }
      if seen.body.None? && seen.meta.None? {
        ClearPoison(key);
        return Refused;
      }
      var bytes := Measure(key);
      ok := RemoveFiles(key);
      if !ok { return Errored; }
      stats := Less(stats, Footprint(1, bytes));
      ClearPoison(key);
      r := Applied;
    }

    /**
      `purge` and `purge_if_unchanged`. Without an expected fill id every call fences off the fills
      in flight. With one, the call acts only on that entry: otherwise it leaves fills, metadata and
      statistics alone, apart from a body that has no metadata.
    */
    method Purge(key: Key, expected: Option<nat>) returns (r: Result)
      requires Valid()
      modifies this`fills, this`stats, this`poisoned, drive`live, drive`markers, drive`failed
      ensures Valid() && drive.live - {key} == old(drive.live) - {key}
      ensures expected.None? ==> fills == Fenced(old(fills), key)
      ensures expected.None? && !r.Errored? ==> View(key) == Pair(None, None) && key !in poisoned
      ensures expected.Some? && r.Applied? ==> Matches(expected, old(View(key)).meta) && fills == Fenced(old(fills), key) && View(key) == Pair(None, None)
      ensures expected.Some? && !Matches(expected, old(View(key)).meta) ==>
                !r.Applied? && fills == old(fills) && View(key).meta == old(View(key)).meta
      ensures expected.Some? && old(View(key)).meta.Some? && !Matches(expected, old(View(key)).meta) ==>
                View(key) == old(View(key)) && stats == old(stats) && poisoned == old(poisoned) && drive.markers == old(drive.markers)
      ensures r.Applied? ==> Unbooked(old(stats), stats, SizeOf(old(View(key))))
      ensures old(drive.failed) || r.Errored? ==> drive.failed
      ensures !drive.failed ==> (r.Applied? <==> if expected.None? then old(View(key)) != Pair(None, None) else Matches(expected, old(View(key)).meta))
      ensures !drive.failed && r.Applied? ==> !IsPoisoned(key) && stats == Less(old(stats), SizeOf(old(View(key))).(entries := 1))
      ensures !drive.failed && expected.Some? && old(View(key)).meta.None? ==> View(key) == Pair(None, None) && !IsPoisoned(key)
    {
      if expected.None? {
        fills := Fenced(fills, key);
      } else {
        var ok := drive.Try();
        if !ok { return Errored; }
        if View(key).meta.None? {
          var gone := DropOrphanBody(key);
          if !gone { return Errored; }
          ClearPoison(key);
          return Refused;
        }
        if View(key).meta.value.id != expected.value { return Refused; }
        fills := Fenced(fills, key);
      }
      r := RemovePair(key);
    }

    /**
      `poison` and `poison_if_unchanged`. The fence in memory comes before the marker, so a call
      that reports an error has still hidden the entry if it got that far.
    */
    method Poison(key: Key, expected: Option<nat>) returns (r: Result)
      requires Valid()
      modifies this`fills, this`poisoned, drive`markers, drive`failed
      ensures Valid() && stats == old(stats)
      ensures expected.None? ==> !r.Refused? && fills == Fenced(old(fills), key) && poisoned == old(poisoned) + {key}
      ensures r.Applied? ==> Matches(expected, View(key).meta) && fills == Fenced(old(fills), key) && poisoned == old(poisoned) + {key}
      ensures r.Applied? ==> drive.markers == old(drive.markers) + {key}
      ensures !r.Applied? ==> drive.markers == old(drive.markers)
      ensures r.Refused? || !Matches(expected, View(key).meta) ==> fills == old(fills) && poisoned == old(poisoned) && !r.Applied?
      ensures r.Refused? ==> !Matches(expected, View(key).meta)
      ensures old(drive.failed) || r.Errored? ==> drive.failed
      ensures !drive.failed ==> (r.Applied? <==> Matches(expected, View(key).meta))
    {
      if expected.Some? {
        var ok := drive.Try();
        if !ok { return Errored; }
        if View(key).meta.None? || View(key).meta.value.id != expected.value { return Refused; }
      }
      fills := Fenced(fills, key);
      poisoned := poisoned + {key};
      var marked := drive.SetMarker(key, true);
      r := if marked then Applied else Errored;
    }

    /**
      `lookup`, `peek` and `peek_body`. `content` is what a metadata file of the key says when it is
      read. An answer is the whole, unpoisoned pair under metadata that is the key's own, and
      answering changes nothing; such a pair is missed only when an operation fails. On the way to
      a miss, half an entry or one with corrupt metadata may be removed; a stranger's is left alone.
    */
    method Find(key: Key, content: MetaContent) returns (r: Lookup)
      requires Valid()
      modifies this`stats, drive`live, drive`failed
      ensures Valid() && drive.live - {key} == old(drive.live) - {key}
      ensures r.Hit? ==> !IsPoisoned(key) && content.Ours? && View(key) == Pair(Some(r.body), Some(r.meta))
      ensures key in poisoned ==> r.Miss?
      ensures r.Miss? ==> IsPoisoned(key) || !content.Ours? || !Both(old(View(key)))
      ensures !r.Miss? || IsPoisoned(key) || (content.Stranger? && old(View(key)).meta.Some?) || (content.Ours? && Both(old(View(key)))) ==>
                View(key) == old(View(key)) && stats == old(stats)
      ensures View(key) == old(View(key)) || (r.Miss? && Remainder(View(key), old(View(key))))
      ensures content.Corrupt? && r.Miss? && !IsPoisoned(key) && old(View(key)).meta.Some? ==>
                Unbooked(old(stats), stats, SizeOf(old(View(key))))
      ensures old(drive.failed) || r.Failure? ==> drive.failed
      ensures !drive.failed && !IsPoisoned(key) && content.Ours? && Both(old(View(key))) ==>
                r == Hit(old(View(key)).meta.value, old(View(key)).body.value)
      ensures !drive.failed && !r.Hit? && !IsPoisoned(key) && !(content.Stranger? && old(View(key)).meta.Some?) ==> View(key) == Pair(None, None)
    {
      if key in poisoned { return Miss; }
      var ok := drive.Try();
      if !ok { return Failure; }
      if key in drive.markers { return Miss; }
      ok := drive.Try();
      if !ok { return Failure; }
      var meta, body := View(key).meta, View(key).body;
      if meta.None? {
        var gone := DropOrphanBody(key);
        return Miss;
      }
      match content {
        case Corrupt =>
          RemoveCorrupt(key);
          return Miss;
        case Stranger =>
          return Miss;
        case Ours(claimed) =>
          ok := drive.Try();
          if !ok { return Failure; }
          if body.None? {
            ghost var live := drive.live;
            ok := drive.PutMeta(key, None);
            FilesGone(live, drive.live, key, drive.counter);
            stats := Less(stats, Footprint(1, meta.value.size + claimed));
            return Miss;
          }
          r := Hit(meta.value, body.value);
      }
    }

    /** What lookup does with metadata it cannot parse: both files go, if they can, and the entry leaves the statistics either way. */
    method RemoveCorrupt(key: Key)
      requires Valid() && View(key).meta.Some?
      modifies this`stats, drive`live, drive`failed
      ensures Valid() && drive.live - {key} == old(drive.live) - {key}
      ensures Remainder(View(key), old(View(key)))
      ensures Unbooked(old(stats), stats, SizeOf(old(View(key))))
      ensures old(drive.failed) ==> drive.failed
      ensures !drive.failed ==> View(key) == Pair(None, None) && stats == Less(old(stats), SizeOf(old(View(key))))
    {
      ghost var live := drive.live;
      var size := SizeOf(View(key)).bytes;
      var measured := drive.Try();
      if View(key).body.Some? && !measured { size := View(key).meta.value.size; }
      var gone := drive.PutMeta(key, None);
      gone := drive.PutBody(key, None);
      FilesGone(live, drive.live, key, drive.counter);
      stats := Less(stats, Footprint(1, size));
    }

    /** `update_metadata_if_unchanged`: the version goes up by one, and everything the store owns stays. */
    method UpdateMetadata(key: Key, expected: nat, submitted: nat, content: Content, size: nat) returns (r: Result)
      requires Valid()
      modifies this`stats, drive`live, drive`failed
      ensures Valid() && drive.live - {key} == old(drive.live) - {key}
      ensures r.Applied? ==>
                && old(View(key)).body.Some? && old(View(key)).meta.Some?
                && var m := old(View(key)).meta.value;
                   && m.id == expected && m.version == submitted
                   && View(key) == Pair(old(View(key)).body, Some(m.(version := SatAdd(m.version, 1), content := content, size := size)))
                   && stats == Resized(old(stats), m.size, size)
      ensures !r.Applied? ==> drive.live == old(drive.live) && stats == old(stats)
      ensures r.Refused? ==> old(View(key)).body.None? || old(View(key)).meta.None?
                             || old(View(key)).meta.value.id != expected || old(View(key)).meta.value.version != submitted
      ensures old(drive.failed) || r.Errored? ==> drive.failed
      ensures !drive.failed ==>
                (r.Applied? <==> Both(old(View(key))) && old(View(key)).meta.value.id == expected && old(View(key)).meta.value.version == submitted)
    {
      var ok := drive.Try();
      if !ok { return Errored; }
      if View(key).body.None? || View(key).meta.None? { return Refused; }
      var m := View(key).meta.value;
      if m.id != expected || m.version != submitted { return Refused; }
      r := WriteMeta(key, m, m.(version := SatAdd(m.version, 1), content := content, size := size));
    }

    /** `rewrite_last_accessed`: forward in time only, and only on the entry that was hit. */
    method Touch(key: Key, expected: nat, now: int, size: nat) returns (r: Result)
      requires Valid()
      modifies this`stats, drive`live, drive`failed
      ensures Valid() && drive.live - {key} == old(drive.live) - {key}
      ensures r.Applied? ==>
                && old(View(key)).meta.Some?
                && var m := old(View(key)).meta.value;
                   && m.id == expected && m.accessed < now
                   && View(key) == old(View(key)).(meta := Some(m.(accessed := now, size := size)))
                   && stats == Resized(old(stats), m.size, size)
      ensures !r.Applied? ==> drive.live == old(drive.live) && stats == old(stats)
      ensures r.Refused? ==> old(View(key)).meta.None? || old(View(key)).meta.value.id != expected || old(View(key)).meta.value.accessed >= now
      ensures old(drive.failed) || r.Errored? ==> drive.failed
      ensures !drive.failed ==>
                (r.Applied? <==> old(View(key)).meta.Some? && old(View(key)).meta.value.id == expected && old(View(key)).meta.value.accessed < now)
    {
      var ok := drive.Try();
      if !ok { return Errored; }
      if View(key).meta.None? { return Refused; }
      var m := View(key).meta.value;
      if m.id != expected || m.accessed >= now { return Refused; }
      r := WriteMeta(key, m, m.(accessed := now, size := size));
    }

    /** Renames rewritten metadata into place and books the difference in size. */
    method WriteMeta(key: Key, m: Meta, m': Meta) returns (r: Result)
      requires Valid() && View(key).meta == Some(m) && m'.id == m.id
      modifies this`stats, drive`live, drive`failed
      ensures Valid() && drive.live - {key} == old(drive.live) - {key}
      ensures r.Applied? ==> View(key) == old(View(key)).(meta := Some(m')) && stats == Resized(old(stats), m.size, m'.size)
      ensures !r.Applied? ==> r.Errored? && drive.live == old(drive.live) && stats == old(stats)
      ensures old(drive.failed) || !r.Applied? ==> drive.failed
    {
      ghost var live := drive.live;
      var ok := drive.PutMeta(key, Some(m'));
      IdUnchanged(live, drive.live, key, drive.counter);
      if !ok { return Errored; }
      stats := if m'.size >= m.size then stats.(bytes := stats.bytes + (m'.size - m.size))
               else stats.(bytes := SatSub(stats.bytes, m.size - m'.size));
      r := Applied;
    }
  }

  /** One entry less, and no more bytes than it had; fewer when a stat failed, until the next scan. */
  predicate Unbooked(before: Footprint, after: Footprint, entry: Footprint) {
    after.entries == SatSub(before.entries, 1) && SatSub(before.bytes, entry.bytes) <= after.bytes <= before.bytes
  }

  predicate Both(p: Pair) {
    p.body.Some? && p.meta.Some?
  }

  /** What is left of a pair when some of its files were removed. */
  predicate Remainder(p: Pair, before: Pair) {
    (p.body.None? || p.body == before.body) && (p.meta.None? || p.meta == before.meta)
  }

  /** The byte count after a metadata file changed its size. */
  function Resized(stats: Footprint, before: nat, now: nat): Footprint {
    stats.(bytes := if before - now > stats.bytes then 0 else stats.bytes + now - before)
  }

  lemma FilesGone(live: map<Key, Pair>, live': map<Key, Pair>, key: Key, counter: Option<nat>)
    requires IdsOk(live, counter) && live' - {key} == live - {key}
    requires PairAt(live', key).meta.None? || PairAt(live', key).meta == PairAt(live, key).meta
    ensures IdsOk(live', counter)
  {
    forall k | k in live' && k != key ensures k in live && live'[k] == live[k] {
      assert k in live' - {key} && (live' - {key})[k] == (live - {key})[k];
    }
  }

  lemma IdUnchanged(live: map<Key, Pair>, live': map<Key, Pair>, key: Key, counter: Option<nat>)
    requires IdsOk(live, counter) && live' - {key} == live - {key} && PairAt(live, key).meta.Some?
    requires PairAt(live', key).meta.Some? && PairAt(live', key).meta.value.id == PairAt(live, key).meta.value.id
    ensures IdsOk(live', counter)
  {
    assert key in live && key in live';
    forall k | k in live' && k != key ensures k in live && live'[k] == live[k] {
      assert k in live' - {key} && (live' - {key})[k] == (live - {key})[k];
    }
  }

  // ---------- what callers can rely on ----------

  /** A fill that began before a successful purge publishes nothing, and the key stays empty. */
  method PurgeBeatsFill(cache: DiskCache, key: Key, writer: Fill, content: Content, read: MetaContent) returns (purged: Result, filled: Result, found: Lookup)
    requires cache.Valid()
    modifies cache, cache.drive
    ensures !purged.Errored? ==> filled.Refused? && !found.Hit? && cache.View(key) == Pair(None, None)
  {
    var t := cache.BeginFill(key);
    purged := cache.Purge(key, None);
    ghost var known, p;
    filled, known, p := cache.CommitFill(t, writer, 1, 1, content, 0);
    found := cache.Find(key, read);
  }

  /** After a poison, even one that could not write its marker, the old entry is not found and older fills publish nothing. */
  method PoisonBeatsFill(cache: DiskCache, key: Key, writer: Fill, content: Content, read: MetaContent) returns (filled: Result, found: Lookup)
    requires cache.Valid()
    modifies cache, cache.drive
    ensures filled.Refused? && found.Miss?
    ensures cache.View(key) == old(cache.View(key))
  {
    var t := cache.BeginFill(key);
    var poisoned := cache.Poison(key, None);
    ghost var known, p;
    filled, known, p := cache.CommitFill(t, writer, 1, 1, content, 0);
    found := cache.Find(key, read);
  }

  /**
    A fill that began after the poison replaces the entry and lifts the fence in memory; and without
    failures it lifts the durable marker too, and the new entry is found.
  */
  method FillAfterPoison(cache: DiskCache, key: Key, writer: Fill, content: Content, claimed: nat) returns (filled: Result, found: Lookup)
    requires cache.Valid()
    modifies cache, cache.drive
    ensures !filled.Refused?
    ensures !cache.drive.failed && old(cache.nextFillId) < MAX_U64 ==>
              && filled.Applied? && !cache.IsPoisoned(key)
              && found == Hit(Meta(writer, old(cache.nextFillId), 0, 0, content, 1), Body(writer, old(cache.nextFillId), 1))
    ensures filled.Applied? ==> cache.View(key).body == Some(Body(writer, old(cache.nextFillId), 1)) && key !in cache.poisoned
    ensures filled.Errored? ==> key in cache.poisoned
  {
    var poisoned := cache.Poison(key, None);
    var t := cache.BeginFill(key);
    ghost var known, p;
    filled, known, p := cache.CommitFill(t, writer, 1, 1, content, 0);
    found := cache.Find(key, Ours(claimed));
  }
}
