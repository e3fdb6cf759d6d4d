/**
  The publish phase of one fill run to its end (disk.rs:1311-1459), for every pattern of I/O
  failures. Each stage happens at most once, so one outcome per stage is every pattern.
*/
module PublishPhase {
  import opened Common
  import opened Protocol
  import opened ProtocolInvariant

  type Io = Stage -> bool

  function Rank(stage: Stage): nat {
    match stage
    case StageMeta => 10
    case StatBody => 9
    case StatMeta => 8
    case SaveBody => 7
    case SaveMeta => 6
    case PutBody => 5
    case PutMeta => 4
    case UnsaveBody => 2
    case UndoPutBody => 3
    case UndoPutMeta => 3
    case RestoreMeta => 2
    case Published => 0
    case RolledBack => 0
  }

  /** The live pairs a crash could leave behind, from this point of the phase on. */
  function Trace(p: Pub, f: Pair, io: Io): (r: seq<Pair>)
    ensures |r| > 0 && r[0] == f
    decreases Rank(p.stage)
  {
    if Rank(p.stage) == 0 then [f]
    else var (p', f') := PublishStep(p, f, io(p.stage)); [f] + Trace(p', f', io)
  }

  /** Where the phase ends. */
  function Finish(p: Pub, f: Pair, io: Io): (Pub, Pair)
    decreases Rank(p.stage)
  {
    if Rank(p.stage) == 0 then (p, f)
    else var (p', f') := PublishStep(p, f, io(p.stage)); Finish(p', f', io)
  }

  function Start(newBody: Body, newMeta: Meta, prior: Pair): Pub {
    Pub(StageMeta, newBody, newMeta, prior, false, false, None, None)
  }

  /** The new files belong to one publish, and their fill id is one nothing live carries. */
  predicate NewFill(newBody: Body, newMeta: Meta, prior: Pair) {
    && newBody.id == newMeta.id
    && (prior.body.Some? ==> prior.body.value.id != newBody.id)
    && (prior.meta.Some? ==> prior.meta.value.id != newBody.id)
  }

  ghost predicate AllCoherent(trace: seq<Pair>) {
    forall i :: 0 <= i < |trace| ==> Coherent(trace[i])
  }

  lemma AllCoherentCons(f: Pair, rest: seq<Pair>)
    ensures AllCoherent([f] + rest) <==> Coherent(f) && AllCoherent(rest)
  {
    if AllCoherent([f] + rest) {
      assert ([f] + rest)[0] == f;
      forall i | 0 <= i < |rest| ensures Coherent(rest[i]) { assert ([f] + rest)[i + 1] == rest[i]; }
    }
  }

  predicate SawBody(prior: Pair, io: Io) {
    io(StatBody) && prior.body.Some?
  }

  predicate SawMeta(prior: Pair, io: Io) {
    io(StatMeta) && prior.meta.Some?
  }

  /** Both old files the commit knows of are out of the way, and the new body is in place. */
  predicate PutsBody(prior: Pair, io: Io) {
    io(StageMeta) && (SawBody(prior, io) ==> io(SaveBody)) && (SawMeta(prior, io) ==> io(SaveMeta)) && io(PutBody)
  }

  /**
    The failures that leave files of two fills side by side. Either the old metadata could not be
    examined and so was never moved away, or the metadata rename failed and the new body stayed
    while the old metadata came back.
  */
  predicate Hazard(prior: Pair, io: Io) {
    && prior.meta.Some? && PutsBody(prior, io)
    && (!io(StatMeta) || (!io(PutMeta) && !io(UndoPutMeta) && io(RestoreMeta)))
  }

  /** The backing out after a failure gives every file back that the commit had moved away or replaced. */
  predicate Restores(prior: Pair, io: Io) {
    if !io(StageMeta) || (SawBody(prior, io) && !io(SaveBody)) then true
    else if SawMeta(prior, io) && !io(SaveMeta) then SawBody(prior, io) ==> io(UnsaveBody)
    else
      && (SawMeta(prior, io) ==> io(RestoreMeta))
      && if !io(PutBody) then SawBody(prior, io) ==> io(UndoPutBody)
         else io(UndoPutMeta) && (SawBody(prior, io) <==> prior.body.Some?)
  }

  /** Everything known when the phase arrives at a stage: the locals and the files as functions of what was live and what failed. */
  predicate Arrived(p: Pub, f: Pair, prior: Pair, io: Io) {
    var sawBody, sawMeta := SawBody(prior, io), SawMeta(prior, io);
    var saved := (sawBody ==> io(SaveBody)) && p.hadBody == sawBody && p.hadMeta == sawMeta
                 && (sawBody ==> p.bakBody == prior.body);
    var cleared := saved && (sawMeta ==> io(SaveMeta) && p.bakMeta == prior.meta)
                   && f.meta == if sawMeta then None else prior.meta;
    var gap := if sawBody then None else prior.body;
    && NewFill(p.newBody, p.newMeta, prior) && Coherent(prior)
    && (p.stage.StageMeta? || p.stage.RolledBack? || io(StageMeta))
    && (match p.stage
        case StageMeta => f == prior && !p.hadBody && !p.hadMeta
        case StatBody => f == prior && !p.hadBody && !p.hadMeta
        case StatMeta => f == prior && p.hadBody == sawBody && !p.hadMeta
        case SaveBody => f == prior && p.hadBody == sawBody && p.hadMeta == sawMeta
        case SaveMeta => saved && f == Pair(gap, prior.meta)
        case UnsaveBody => saved && sawBody && sawMeta && !io(SaveMeta) && f == Pair(None, prior.meta)
        case PutBody => cleared && f.body == gap
        case UndoPutBody => cleared && sawBody && !io(PutBody) && f.body == None
        case PutMeta => cleared && PutsBody(prior, io) && f.body == Some(p.newBody)
        case UndoPutMeta => cleared && PutsBody(prior, io) && !io(PutMeta) && f.body == Some(p.newBody)
        case RestoreMeta => cleared && AfterUndo(p, f, prior, io)
        case RolledBack => !(PutsBody(prior, io) && io(PutMeta)) && (f == prior <==> Restores(prior, io))
        case Published => PutsBody(prior, io) && io(PutMeta) && f == Pair(Some(p.newBody), Some(p.newMeta)))
  }

  predicate AfterUndo(p: Pub, f: Pair, prior: Pair, io: Io) {
    var sawBody := SawBody(prior, io);
    if !io(PutBody) then f.body == if !sawBody || io(UndoPutBody) then prior.body else None
    else !io(PutMeta) && f.body == if !io(UndoPutMeta) then Some(p.newBody) else if sawBody then prior.body else None
  }

  lemma StepArrives(p: Pub, f: Pair, prior: Pair, io: Io)
    requires Arrived(p, f, prior, io) && Rank(p.stage) > 0
    ensures Arrived(PublishStep(p, f, io(p.stage)).0, PublishStep(p, f, io(p.stage)).1, prior, io)
  {
  }

  lemma {:induction false} WalkToTheEnd(p: Pub, f: Pair, prior: Pair, io: Io)
    requires Arrived(p, f, prior, io)
    ensures var (p', f') := Finish(p, f, io);
            Arrived(p', f', prior, io) && Rank(p'.stage) == 0 && p'.newBody == p.newBody && p'.newMeta == p.newMeta
    decreases Rank(p.stage)
  {
    if Rank(p.stage) > 0 {
      StepArrives(p, f, prior, io);
      var (p', f') := PublishStep(p, f, io(p.stage));
      WalkToTheEnd(p', f', prior, io);
    }
  }

  /** From a late stage of the way back, the rest of the trace is this pair and the one after the metadata restore. */
  predicate EndsCoherent(p: Pub, f: Pair, io: Io) {
    Coherent(f) && (p.stage.RestoreMeta? && p.hadMeta && io(RestoreMeta) ==> Coherent(f.(meta := p.bakMeta)))
  }

  lemma {:induction false} WalkCoherence(p: Pub, f: Pair, prior: Pair, io: Io)
    requires Arrived(p, f, prior, io)
    ensures AllCoherent(Trace(p, f, io)) <==>
            if p.stage.RestoreMeta? || p.stage.RolledBack? then EndsCoherent(p, f, io)
            else p.stage.Published? || !Hazard(prior, io)
    decreases Rank(p.stage)
  {
    if Rank(p.stage) > 0 {
      StepArrives(p, f, prior, io);
      var (p', f') := PublishStep(p, f, io(p.stage));
      AllCoherentCons(f, Trace(p', f', io));
      WalkCoherence(p', f', prior, io);
    } else {
      assert Trace(p, f, io) == [f];
    }
  }

  /** No crash point of a commit exposes a mixed pair, exactly when the failures are not the hazardous ones. */
  lemma NeverMixedIff(newBody: Body, newMeta: Meta, prior: Pair, io: Io)
    requires NewFill(newBody, newMeta, prior) && Coherent(prior)
    ensures AllCoherent(Trace(Start(newBody, newMeta, prior), prior, io)) <==> !Hazard(prior, io)
  {
    WalkCoherence(Start(newBody, newMeta, prior), prior, prior, io);
  }

  /** A commit publishes exactly when its renames succeed, and then both new files are live and nothing else. */
  lemma PublishesIff(newBody: Body, newMeta: Meta, prior: Pair, io: Io)
    requires NewFill(newBody, newMeta, prior) && Coherent(prior)
    ensures var end := Finish(Start(newBody, newMeta, prior), prior, io);
            && (end.0.stage.Published? <==> PutsBody(prior, io) && io(PutMeta))
            && (end.0.stage.Published? ==> end.1 == Pair(Some(newBody), Some(newMeta)))
            && (!end.0.stage.Published? ==> end.0.stage.RolledBack?)
  {
    WalkToTheEnd(Start(newBody, newMeta, prior), prior, prior, io);
    assert Rank(Finish(Start(newBody, newMeta, prior), prior, io).0.stage) == 0;
  }

  /** A commit that fails leaves the old pair exactly when every step of the way back succeeded on files it knew of. */
  lemma RollbackRestoresIff(newBody: Body, newMeta: Meta, prior: Pair, io: Io)
    requires NewFill(newBody, newMeta, prior) && Coherent(prior)
    requires !(PutsBody(prior, io) && io(PutMeta))
    ensures Finish(Start(newBody, newMeta, prior), prior, io).1 == prior <==> Restores(prior, io)
  {
    WalkToTheEnd(Start(newBody, newMeta, prior), prior, prior, io);
  }

  /** With no failure on the way back, a failed commit whose stats succeeded leaves the old pair. */
  lemma FailedCommitIsInvisible(newBody: Body, newMeta: Meta, prior: Pair, io: Io)
    requires NewFill(newBody, newMeta, prior) && Coherent(prior)
    requires !(PutsBody(prior, io) && io(PutMeta))
    requires io(StatBody) && io(StatMeta) && io(UnsaveBody) && io(UndoPutBody) && io(UndoPutMeta) && io(RestoreMeta)
    ensures Finish(Start(newBody, newMeta, prior), prior, io).1 == prior
    ensures AllCoherent(Trace(Start(newBody, newMeta, prior), prior, io))
  {
    RollbackRestoresIff(newBody, newMeta, prior, io);
    NeverMixedIff(newBody, newMeta, prior, io);
  }

  /**
    A commit that succeeds can still expose a mixed pair on the way: when only the stat of the old
    metadata fails, a crash between the two renames leaves the new body under the old metadata.
  */
  lemma FailedStatMixes(newBody: Body, newMeta: Meta, prior: Pair)
    requires NewFill(newBody, newMeta, prior) && prior.body.Some? && prior.meta.Some? && Coherent(prior)
    ensures var io := (stage: Stage) => !stage.StatMeta?;
            && Finish(Start(newBody, newMeta, prior), prior, io).0.stage.Published?
            && Pair(Some(newBody), prior.meta) in Trace(Start(newBody, newMeta, prior), prior, io)
  {
    var io := (stage: Stage) => !stage.StatMeta?;
    PublishesIff(newBody, newMeta, prior, io);
    var start := Start(newBody, newMeta, prior);
    var p := start.(stage := PutMeta, hadBody := true, bakBody := prior.body);
    var f := Pair(Some(newBody), prior.meta);
    assert Trace(p, f, io)[0] == f;
    var p5 := p.(stage := PutBody);
    var f5 := prior.(body := None);
    assert PublishStep(p5, f5, true) == (p, f);
    assert Trace(p5, f5, io)[1] == f;
    assert Trace(p.(stage := SaveMeta), f5, io)[2] == f;
    assert Trace(start.(stage := SaveBody, hadBody := true), prior, io)[3] == f;
    assert Trace(start.(stage := StatMeta, hadBody := true), prior, io)[4] == f;
    assert Trace(start.(stage := StatBody), prior, io)[5] == f;
    assert Trace(start, prior, io)[6] == f;
  }

  /** The metadata so far is the old one or none; at the end it is that, or the new pair is published. */
  predicate OldOrNone(p: Pub, f: Pair, before: Option<Meta>) {
    && (f.meta.None? || f.meta == before || p.stage.Published?) && (p.bakMeta.None? || p.bakMeta == before)
    && (p.stage.PutMeta? ==> f.body == Some(p.newBody))
    && (p.stage.Published? ==> f == Pair(Some(p.newBody), Some(p.newMeta)))
  }

  lemma StepOldOrNone(p: Pub, f: Pair, before: Option<Meta>, ok: bool)
    requires OldOrNone(p, f, before)
    ensures OldOrNone(PublishStep(p, f, ok).0, PublishStep(p, f, ok).1, before)
    ensures PublishStep(p, f, ok).0.newBody == p.newBody && PublishStep(p, f, ok).0.newMeta == p.newMeta
  {
  }

  /** Whatever was live before, a commit leaves its own pair, or the old metadata, or none. */
  lemma {:induction false} EndsOldOrNew(p: Pub, f: Pair, before: Option<Meta>, io: Io)
    requires OldOrNone(p, f, before)
    ensures var end := Finish(p, f, io);
            Rank(end.0.stage) == 0 && OldOrNone(end.0, end.1, before) && end.0.newBody == p.newBody && end.0.newMeta == p.newMeta
    decreases Rank(p.stage)
  {
    if Rank(p.stage) > 0 {
      StepOldOrNone(p, f, before, io(p.stage));
      var (p', f') := PublishStep(p, f, io(p.stage));
      EndsOldOrNew(p', f', before, io);
    }
  }
}
