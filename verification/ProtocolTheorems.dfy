/** What the protocol promises its callers, for every run from an empty cache directory. */
module ProtocolTheorems {
  import opened Common
  import opened Protocol
  import opened ProtocolInvariant
  import opened ProtocolSections
  import opened ProtocolKeyStep
  import opened ProtocolRuns
  import opened ProtocolPairs

  /** `s` is reached from an empty cache directory; no event changes the number of keys (RunKeeps). */
  ghost predicate Reachable(n: nat, evs: seq<Event>, s: System) {
    Run(Fresh(n), evs) == Reached(s) && |s.keys| == n
  }

  /** `b` is reached from `a`, which is itself reached from an empty cache directory. */
  ghost predicate Reaches(n: nat, before: seq<Event>, a: System, after: seq<Event>, b: System) {
    Reachable(n, before, a) && Run(a, after) == Reached(b) && |b.keys| == n
  }

  lemma ReachableIsSafe(n: nat, evs: seq<Event>, s: System)
    requires Reachable(n, evs, s)
    ensures Safe(s)
  {
    FreshHolds(n);
    RunKeeps(Fresh(n), evs);
  }

  lemma KeyIsSafe(s: System, k: nat)
    requires Safe(s) && k < |s.keys|
    ensures KeyInv(s.g, k, s.keys[k])
  {
  }

  // ---------- no stale reads ----------

  /** A call that purged or poisoned the key is about to return success. */
  predicate ReportsSuccess(s: KeyState, t: Tid, inv: Inv) {
    t in s.reg.threads && s.reg.threads[t] == InvUnlocks(inv, Applied)
  }

  /** Some lookup or peek of the key has found an entry it will return. */
  predicate Answers(s: KeyState, m: Meta, b: Body) {
    s.crit.Locked? && s.crit.sec == Found(m, b)
  }

  /**
    Once a purge or poison has succeeded, no later lookup returns the body of a fill that began
    before the call looked at `active_fills`, whatever fails and whatever runs in between, crashes
    and restarts included; after a purge, none returns the metadata of such a fill either.
  */
  lemma NoStaleRead(n: nat, before: seq<Event>, s: System, after: seq<Event>, s': System,
                    k: nat, t: Tid, inv: Inv, m: Meta, b: Body)
    requires Reaches(n, before, s, after, s') && k < n
    requires ReportsSuccess(s.keys[k], t, inv)
    requires Answers(s'.keys[k], m, b)
    ensures inv.cut <= b.writer
    ensures inv.kind.Purge? ==> inv.cut <= m.writer
  {
    ReachableIsSafe(n, before, s);
    RunKeeps(s, after);
    RunRemembers(s, after, k);
    SuccessIsFenced(s, k, t, inv);
    AnswerIsUnfenced(s', k, m, b);
    if inv.kind.Purge? {
      ReachableCalls(n, before, s, k);
      SinceRun(s, after, k, inv.cut);
    }
  }

  lemma SuccessIsFenced(s: System, k: nat, t: Tid, inv: Inv)
    requires Safe(s) && k < |s.keys| && ReportsSuccess(s.keys[k], t, inv)
    ensures inv.cut <= s.keys[k].led.fence
  {
    KeyIsSafe(s, k);
  }

  lemma AnswerIsUnfenced(s: System, k: nat, m: Meta, b: Body)
    requires Safe(s) && k < |s.keys| && Answers(s.keys[k], m, b)
    ensures s.keys[k].led.fence <= b.writer && s.keys[k].led.memFence <= b.writer
    ensures s.keys[k].files.live == Pair(Some(b), Some(m)) && !s.keys[k].files.marker && !s.keys[k].files.inMemory
    ensures Coherent(s.keys[k].files.live) ==> m.writer == b.writer
  {
    KeyIsSafe(s, k);
  }

  lemma ReachableCalls(n: nat, evs: seq<Event>, s: System, k: nat)
    requires Reachable(n, evs, s) && k < n
    ensures CallsOk(s.keys[k])
  {
    FreshHolds(n);
    CallsRun(Fresh(n), evs, k);
  }

  /** What a lookup returns is exactly what is published at that moment, body and metadata, and is not poisoned. */
  lemma AnswersAreLive(n: nat, evs: seq<Event>, s: System, k: nat, m: Meta, b: Body)
    requires Reachable(n, evs, s) && k < n && Answers(s.keys[k], m, b)
    ensures s.keys[k].files.live == Pair(Some(b), Some(m))
    ensures !s.keys[k].files.marker && !s.keys[k].files.inMemory
    ensures s.keys[k].led.memFence <= b.writer
    ensures Coherent(s.keys[k].files.live) ==> m.writer == b.writer
  {
    ReachableIsSafe(n, evs, s);
    AnswerIsUnfenced(s, k, m, b);
  }

  /**
    A poison call fails closed: from the moment it marks the key in memory, even if its marker is
    never written, no lookup of the same process returns body or metadata of a fill that began
    before the call looked at `active_fills`, mixtures included.
  */
  lemma PoisonFailsClosed(n: nat, before: seq<Event>, s: System, after: seq<Event>, s': System,
                          k: nat, inv: Inv, m: Meta, b: Body)
    requires Reaches(n, before, s, after, s') && k < n && NoRestart(after)
    requires Marking(s.keys[k], inv)
    requires Answers(s'.keys[k], m, b)
    ensures inv.cut <= b.writer && inv.cut <= m.writer
  {
    ReachableIsSafe(n, before, s);
    KeyIsSafe(s, k);
    MarkingIsSoon(s.g, k, s.keys[k], inv);
    RunKeeps(s, after);
    MarkedSoonRun(s, after, k, inv);
    AnswerIsUnfenced(s', k, m, b);
  }

  /** A poison call has written its marker and is about to leave its critical section. */
  predicate HasPoisoned(s: KeyState, inv: Inv) {
    && s.crit.Locked? && s.crit.sec == Done(Applied) && s.crit.tid in s.reg.threads
    && s.reg.threads[s.crit.tid] == Invalidating(inv) && inv.kind.Poison?
  }

  /**
    With the marker on disk nothing older than the last generation bump is ever answered, restarts
    and mixtures included, as long as no stale mixing step happens. This holds from every reachable
    state with a marker, mixed or not.
  */
  lemma MarkerHides(n: nat, before: seq<Event>, s: System, after: seq<Event>, s': System, k: nat, cut: Fill, m: Meta, b: Body)
    requires Reaches(n, before, s, after, s') && k < n
    requires s.keys[k].files.marker && cut <= s.keys[k].reg.bar && Unstale(s, after, k, cut)
    requires Answers(s'.keys[k], m, b)
    ensures cut <= b.writer && cut <= m.writer
  {
    ReachableIsSafe(n, before, s);
    RunKeeps(s, after);
    MarkedRun(s, after, k, cut);
    AnswerIsUnfenced(s', k, m, b);
  }

  /** In particular after a poison that wrote its marker; StaleMetadataUnderANewBody (ProtocolExample) is a run with a stale mixing step. */
  lemma PoisonCoversMetadata(n: nat, before: seq<Event>, s: System, after: seq<Event>, s': System, k: nat, inv: Inv, m: Meta, b: Body)
    requires Reaches(n, before, s, after, s') && k < n
    requires HasPoisoned(s.keys[k], inv) && Unstale(s, after, k, inv.cut)
    requires Answers(s'.keys[k], m, b)
    ensures inv.cut <= b.writer && inv.cut <= m.writer
  {
    ReachableCalls(n, before, s, k);
    MarkerHides(n, before, s, after, s', k, inv.cut, m, b);
  }

  /**
    The condition is exact for each step: where nothing of a fill before `cut` is exposed, a step
    exposes a pair with such a file if and only if it is a stale mixing step.
  */
  lemma StaleMixingIff(n: nat, evs: seq<Event>, s: System, k: nat, a: Action, cut: Fill)
    requires Reachable(n, evs, s) && k < n && cut <= s.keys[k].reg.bar && Marked(s.keys[k], cut)
    requires KeyStep(s.g, k, s.keys[k], a).To?
    ensures Exposed(KeyStep(s.g, k, s.keys[k], a).s, cut) <==> StaleMixingStep(s.keys[k], a, cut)
    ensures !StaleMixingStep(s.keys[k], a, cut) ==> Marked(KeyStep(s.g, k, s.keys[k], a).s, cut)
  {
    ReachableIsSafe(n, evs, s);
    KeyIsSafe(s, k);
    MarkedStep(s.g, k, s.keys[k], a, cut);
  }

  // ---------- publishing is crash-atomic ----------

  /** A step of a key whose pair is of one publish makes it a mixture if and only if it is a mixing step. */
  lemma MixingIff(n: nat, evs: seq<Event>, s: System, k: nat, a: Action)
    requires Reachable(n, evs, s) && k < n && CoherentKey(s.keys[k]) && KeyStep(s.g, k, s.keys[k], a).To?
    ensures !Coherent(KeyStep(s.g, k, s.keys[k], a).s.files.live) <==> MixingStep(s.keys[k], a)
    ensures !MixingStep(s.keys[k], a) ==> CoherentKey(KeyStep(s.g, k, s.keys[k], a).s)
  {
    ReachableIsSafe(n, evs, s);
    KeyIsSafe(s, k);
    KeyMixesIff(s.g, k, s.keys[k], a);
  }

  /** A commit that publishes leaves its own pair, whatever was there before. */
  lemma PublishingHeals(g: Globals, k: nat, s: KeyState, a: Action)
    requires KeyInv(g, k, s) && KeyStep(g, k, s, a).To? && Publishes(s, a)
    requires PublishStep(s.crit.sec.p, s.files.live, a.c.ok).0.stage.Published?
    ensures CoherentKey(KeyStep(g, k, s, a).s)
  {
    PublisherIsFresh(g, k, s);
    PublishOf(g, k, s, a);
    PublishShape(s.crit.sec.p, s.files.live, a.c.ok);
  }

  /**
    At every step, and so at every crash, the live files are one publish's body and metadata or at
    most one file. This holds from every coherent state on, not only from the empty directory, for as
    long as no mixing step happens; and a publish or the removal of a file makes the key coherent again.
  */
  lemma CrashAtomic(n: nat, before: seq<Event>, s: System, after: seq<Event>, s': System, k: nat)
    requires Reaches(n, before, s, after, s') && k < n && CoherentKey(s.keys[k]) && Unmixed(s, after, k)
    ensures Coherent(s'.keys[k].files.live)
  {
    ReachableIsSafe(n, before, s);
    CoherentRun(s, after, k);
  }

  /** Every entry a lookup returns is body and metadata of one fill, as long as no mixing step happens. */
  lemma AnswersAreWhole(n: nat, before: seq<Event>, s: System, after: seq<Event>, s': System, k: nat, m: Meta, b: Body)
    requires Reaches(n, before, s, after, s') && k < n && CoherentKey(s.keys[k]) && Unmixed(s, after, k)
    requires Answers(s'.keys[k], m, b)
    ensures b.id == m.id && b.writer == m.writer
  {
    CrashAtomic(n, before, s, after, s', k);
    ReachableIsSafe(n, before, s);
    RunKeeps(s, after);
    AnswerIsUnfenced(s', k, m, b);
  }

  // ---------- fill ids ----------

  /** The persisted counter exceeds every published fill id, and no two keys share one. */
  lemma FillIdsAreUnique(n: nat, evs: seq<Event>, s: System, j: nat, k: nat)
    requires Reachable(n, evs, s) && j < n && k < n
    requires s.keys[j].files.live.meta.Some? && s.keys[k].files.live.meta.Some?
    ensures s.g.counter.Some? && s.keys[k].files.live.meta.value.id < s.g.counter.value
    ensures s.keys[j].files.live.meta.value.id == s.keys[k].files.live.meta.value.id ==> j == k
  {
    ReachableIsSafe(n, evs, s);
    KeyIsSafe(s, j);
    KeyIsSafe(s, k);
  }

  /** Along one key, later publishes carry larger fill ids, and one fill id is one fill. */
  lemma FillIdsIncrease(n: nat, before: seq<Event>, s: System, after: seq<Event>, s': System, k: nat)
    requires Reaches(n, before, s, after, s') && k < n
    requires s.keys[k].files.live.meta.Some? && s'.keys[k].files.live.meta.Some?
    ensures var m, m' := s.keys[k].files.live.meta.value, s'.keys[k].files.live.meta.value;
            m.id <= m'.id && (m.id == m'.id ==> m.writer == m'.writer)
  {
    ReachableIsSafe(n, before, s);
    RunKeeps(s, after);
    RunRemembers(s, after, k);
    OwnersStay(s, after);
    KeyIsSafe(s, k);
    KeyIsSafe(s', k);
  }

  /** A restart does not use up ids: the next one is the first of all, the stored counter, or just after one that is on disk. */
  lemma RestartIsNotAhead(s: System, ev: Event)
    requires ev.Restart? && Step(s, ev).Reached?
    ensures var next := Step(s, ev).s.g.nextId;
            || next == 1 || s.g.counter == Some(next)
            || exists id: nat :: OnDisk(s.keys, id) && next == SatAdd(id, 1)
  {
    if ev.scan.maxFillId != 0 { assert OnDisk(s.keys, ev.scan.maxFillId); }
  }

  ghost predicate SameOwners(g: Globals, g': Globals) {
    forall id :: id in g.owner ==> id in g'.owner && g'.owner[id] == g.owner[id]
  }

  lemma OwnersStep(s: System, ev: Event)
    requires Safe(s) && Step(s, ev).Reached?
    ensures SameOwners(s.g, Step(s, ev).s.g)
  {
    if ev.OnKey? {
      KeyEventStats(s, ev.k, ev.a);
      KeyStepKept(s.g, ev.k, s.keys[ev.k], ev.a);
    }
  }

  lemma {:induction false} OwnersStay(s: System, evs: seq<Event>)
    requires Safe(s) && Run(s, evs).Reached?
    ensures SameOwners(s.g, Run(s, evs).s.g)
    decreases |evs|
  {
    if evs != [] {
      StepKeeps(s, evs[0]);
      OwnersStep(s, evs[0]);
      OwnersStay(Step(s, evs[0]).s, evs[1..]);
    }
  }

  /** No fill id ever reaches `u64::MAX`: the last reservation is refused and changes nothing, instead of wrapping. */
  lemma OverflowIsRefused(n: nat, evs: seq<Event>, s: System, k: nat, gd: Guard, c: Choice)
    requires Reachable(n, evs, s) && k < n
    ensures s.g.nextId <= MAX_U64
    ensures s.keys[k].files.live.meta.Some? ==> s.keys[k].files.live.meta.value.id < MAX_U64
    ensures s.keys[k].crit.Locked? && s.keys[k].crit.sec.Reserving? && s.g.nextId == MAX_U64 ==>
              var next := ReserveSection(s.g, k, s.keys[k], gd, c);
              && next.To? && next.s.crit.sec == Done(Errored) && next.s.files == s.keys[k].files
              && next.g.nextId == MAX_U64 && next.g.counter == s.g.counter
  {
    ReachableIsSafe(n, evs, s);
    KeyIsSafe(s, k);
  }

  // ---------- conditional calls ----------

  /**
    `(fill_id, metadata_version)` names one metadata content for ever, versions and access times of
    one fill never go back, and what an update wrote stays in the story of the fill.
  */
  lemma NoAba(n: nat, before: seq<Event>, s: System, after: seq<Event>, s': System, k: nat)
    requires Reaches(n, before, s, after, s') && k < n && !s'.keys[k].led.saturated
    requires s.keys[k].files.live.meta.Some? && s'.keys[k].files.live.meta.Some?
    requires s.keys[k].files.live.meta.value.id == s'.keys[k].files.live.meta.value.id
    ensures var m, m' := s.keys[k].files.live.meta.value, s'.keys[k].files.live.meta.value;
            && m.version <= m'.version && m.accessed <= m'.accessed
            && (m.version == m'.version ==> m.content == m'.content)
            && m.id in s'.keys[k].led.history
            && var story := s'.keys[k].led.history[m.id].contents;
               m.version < |story| && m'.version < |story| && story[m.version] == m.content && story[m'.version] == m'.content
  {
    ReachableIsSafe(n, before, s);
    RunKeeps(s, after);
    RunRemembers(s, after, k);
    LiveMetaIsTold(s, k);
    LiveMetaIsTold(s', k);
    StoriesGrow(s.keys[k].led, s'.keys[k].led, s.keys[k].files.live.meta.value, s'.keys[k].files.live.meta.value);
  }

  /** The metadata is the latest chapter of its fill's story. */
  predicate Told(led: Ledger, m: Meta) {
    && m.id in led.history
    && var story := led.history[m.id];
       && story.contents != [] && story.contents[|story.contents| - 1] == m.content && story.accessed == m.accessed
       && (!led.saturated ==> |story.contents| == m.version + 1)
  }

  lemma LiveMetaIsTold(s: System, k: nat)
    requires Safe(s) && k < |s.keys| && s.keys[k].files.live.meta.Some?
    ensures Told(s.keys[k].led, s.keys[k].files.live.meta.value)
  {
    KeyIsSafe(s, k);
  }

  lemma StoriesGrow(led: Ledger, led': Ledger, m: Meta, m': Meta)
    requires Told(led, m) && Told(led', m') && Remembers(led, led') && !led'.saturated && m.id == m'.id
    ensures m.version <= m'.version && m.accessed <= m'.accessed && (m.version == m'.version ==> m.content == m'.content)
    ensures var story := led'.history[m.id].contents;
            m.version < |story| && m'.version < |story| && story[m.version] == m.content && story[m'.version] == m'.content
  {
  }

  /** A conditional purge or poison touches files, marker or generation only while the entry its caller saw is live. */
  lemma ConditionalCallsMatch(n: nat, evs: seq<Event>, s: System, k: nat, c: Choice)
    requires Reachable(n, evs, s) && k < n && s.keys[k].crit.Locked?
    requires var ks := s.keys[k];
             && ks.crit.tid in ks.reg.threads && ks.reg.threads[ks.crit.tid].Invalidating?
             && ks.reg.threads[ks.crit.tid].inv.expected.Some?
    requires Acting(s.keys[k].crit.sec)
    ensures var ks := s.keys[k];
            && ks.files.live.meta.Some?
            && ks.files.live.meta.value.id == ks.reg.threads[ks.crit.tid].inv.expected.value
  {
    ReachableIsSafe(n, evs, s);
    KeyIsSafe(s, k);
  }

  /** Same files, same history, same statistics, and no fill rejected. */
  predicate NothingDone(g: Globals, s: KeyState, g': Globals, s': KeyState) {
    && g' == g.(clean := g'.clean) && s'.files == s.files && s'.led == s.led
    && s'.reg.bar == s.reg.bar && s'.reg.active == s.reg.active && |s'.reg.entries| == |s.reg.entries|
    && forall e :: 0 <= e < |s.reg.entries| ==> s'.reg.entries[e].gen == s.reg.entries[e].gen && s'.reg.entries[e].refs == s.reg.entries[e].refs
  }

  /** A conditional call is inside its critical section, at a step with which it takes effect or clears up an entry without metadata. */
  predicate TakesEffect(s: KeyState, t: Tid) {
    && s.crit.Locked? && s.crit.tid == t
    && (Acting(s.crit.sec) || s.crit.sec.OrphanBody? || s.crit.sec.PurgeUnbook? || s.crit.sec.ClearPoison?)
  }

  /** The call has found another entry than the one it was meant for, or has been turned away. */
  predicate TurnedAway(s: KeyState, t: Tid, inv: Inv) {
    && inv.expected.Some? && t in s.reg.threads
    && match s.reg.threads[t]
       case Invalidating(i) =>
         && i == inv && s.crit.Locked? && s.crit.tid == t
         && (s.crit.sec == Done(Refused)
             || (s.crit.sec.Check? && s.files.live.meta.Some? && s.files.live.meta.value.id != inv.expected.value))
       case InvUnlocks(i, r) => i == inv && r.Refused?
       case _ => false
  }

  /** A step of a conditional call that is not one of those does nothing at all. */
  lemma OnlyTheseStepsAct(n: nat, evs: seq<Event>, s: System, k: nat, t: Tid, inv: Inv, c: Choice)
    requires Reachable(n, evs, s) && k < n && t in s.keys[k].reg.threads
    requires s.keys[k].reg.threads[t].IsInv() && s.keys[k].reg.threads[t].inv == inv && inv.expected.Some?
    requires !TakesEffect(s.keys[k], t)
    ensures var next := KeyStep(s.g, k, s.keys[k], Advance(t, c));
            next.To? ==> NothingDone(s.g, s.keys[k], next.g, next.s)
  {
    ReachableIsSafe(n, evs, s);
    KeyIsSafe(s, k);
    if s.keys[k].crit.Locked? { HolderKnown(s.keys[k]); }
    InvActs(s.g, k, s.keys[k], t, c);
  }

  lemma InvActs(g: Globals, k: nat, s: KeyState, t: Tid, c: Choice)
    requires t in s.reg.threads && s.reg.threads[t].IsInv() && s.reg.threads[t].inv.expected.Some? && !TakesEffect(s, t)
    requires s.crit.Locked? ==> HolderFits(s)
    ensures var next := KeyStep(g, k, s, Advance(t, c)); next.To? ==> NothingDone(g, s, next.g, next.s)
  {
  }

  /**
    A conditional call that meets another fill id does nothing from then on to its return, however
    its steps interleave with others': its own step does nothing and leaves it turned away or gone.
  */
  lemma MismatchChangesNothing(n: nat, evs: seq<Event>, s: System, k: nat, t: Tid, inv: Inv, c: Choice)
    requires Reachable(n, evs, s) && k < n && TurnedAway(s.keys[k], t, inv)
    requires s.keys[k].crit.Locked? && s.keys[k].crit.sec.Check? && s.keys[k].crit.tid == t ==> c.ok
    ensures var next := KeyStep(s.g, k, s.keys[k], Advance(t, c));
            && next.To? && NothingDone(s.g, s.keys[k], next.g, next.s)
            && (t !in next.s.reg.threads || TurnedAway(next.s, t, inv))
  {
    ReachableIsSafe(n, evs, s);
    KeyIsSafe(s, k);
    TurnedAwayStep(s.g, k, s.keys[k], t, inv, c);
  }

  lemma TurnedAwayStep(g: Globals, k: nat, s: KeyState, t: Tid, inv: Inv, c: Choice)
    requires RegInv(s.reg, s.crit) && TurnedAway(s, t, inv) && (s.crit.Locked? && s.crit.sec.Check? && s.crit.tid == t ==> c.ok)
    ensures var next := KeyStep(g, k, s, Advance(t, c));
            && next.To? && NothingDone(g, s, next.g, next.s)
            && (t !in next.s.reg.threads || TurnedAway(next.s, t, inv))
  {
    if s.reg.threads[t].InvUnlocks? {
      TurnedAwayUnlocks(g, k, s, t, inv, c);
    } else {
      TurnedAwayInside(g, k, s, t, inv, c);
    }
  }

  lemma TurnedAwayUnlocks(g: Globals, k: nat, s: KeyState, t: Tid, inv: Inv, c: Choice)
    requires InvsOk(s.reg) && TurnedAway(s, t, inv) && s.reg.threads[t].InvUnlocks?
    ensures var next := KeyStep(g, k, s, Advance(t, c));
            next.To? && NothingDone(g, s, next.g, next.s) && t !in next.s.reg.threads
  {
  }

  lemma TurnedAwayInside(g: Globals, k: nat, s: KeyState, t: Tid, inv: Inv, c: Choice)
    requires TurnedAway(s, t, inv) && s.reg.threads[t].Invalidating? && (s.crit.sec.Check? ==> c.ok)
    ensures var next := KeyStep(g, k, s, Advance(t, c));
            next.To? && NothingDone(g, s, next.g, next.s) && TurnedAway(next.s, t, inv)
  {
  }

  /** And nobody else's step, crash apart, gets it out of that. */
  lemma OthersLeaveItTurnedAway(n: nat, evs: seq<Event>, s: System, k: nat, t: Tid, inv: Inv, ev: Event)
    requires Reachable(n, evs, s) && k < n && TurnedAway(s.keys[k], t, inv) && Step(s, ev).Reached?
    requires !ev.Restart? && (ev.OnKey? && ev.k == k ==> ev.a.t != t)
    ensures k < |Step(s, ev).s.keys| && TurnedAway(Step(s, ev).s.keys[k], t, inv)
  {
    ReachableIsSafe(n, evs, s);
    KeyIsSafe(s, k);
    if ev.OnKey? && ev.k == k { OthersStep(s.g, k, s.keys[k], t, ev.a); }
  }

  /** A call's place, and the lock and files while it is inside, are its own. */
  lemma OthersStep(g: Globals, k: nat, s: KeyState, t: Tid, a: Action)
    requires RegInv(s.reg, s.crit) && t in s.reg.threads && a.t != t && KeyStep(g, k, s, a).To?
    ensures var s' := KeyStep(g, k, s, a).s;
            && t in s'.reg.threads && s'.reg.threads[t] == s.reg.threads[t]
            && (s.crit.Locked? && s.crit.tid == t ==> s'.crit == s.crit && s'.files == s.files)
  {
    if !a.Advance? || !s.reg.threads[a.t].InMeta() {
      OutsideLeavesOthers(g, k, s, t, a);
    } else if s.crit.sec.Done? {
      ReleaseLeavesOthers(s, t);
    } else {
      HolderKnown(s);
      SectionLeavesOthers(g, k, s, a.c, t);
    }
  }

  lemma OutsideLeavesOthers(g: Globals, k: nat, s: KeyState, t: Tid, a: Action)
    requires t in s.reg.threads && a.t != t && KeyStep(g, k, s, a).To?
    requires !a.Advance? || !s.reg.threads[a.t].InMeta()
    ensures var s' := KeyStep(g, k, s, a).s;
            && t in s'.reg.threads && s'.reg.threads[t] == s.reg.threads[t]
            && (s.crit.Locked? ==> s'.crit == s.crit && s'.files == s.files)
  {
  }

  lemma ReleaseLeavesOthers(s: KeyState, t: Tid)
    requires s.crit.Locked? && s.crit.sec.Done? && s.crit.tid in s.reg.threads && t in s.reg.threads && t != s.crit.tid
    ensures var s' := Release(s, s.crit.tid, s.crit.sec.result); t in s'.reg.threads && s'.reg.threads[t] == s.reg.threads[t]
  {
  }

  lemma SectionLeavesOthers(g: Globals, k: nat, s: KeyState, c: Choice, t: Tid)
    requires HolderFits(s) && !s.crit.sec.Done? && t in s.reg.threads && t != s.crit.tid && SectionStep(g, k, s, s.crit.tid, c).To?
    ensures var s' := SectionStep(g, k, s, s.crit.tid, c).s; t in s'.reg.threads && s'.reg.threads[t] == s.reg.threads[t]
  {
  }

  /** A successful metadata update appends to the story of the exact version its caller submitted. */
  lemma UpdatesChain(n: nat, evs: seq<Event>, s: System, k: nat, job: Job, c: Choice)
    requires Reachable(n, evs, s) && k < n && s.keys[k].crit.Locked? && s.keys[k].crit.sec.WriteMeta? && c.ok
    requires s.keys[k].crit.tid in s.keys[k].reg.threads
    requires job.Update? && s.keys[k].reg.threads[s.keys[k].crit.tid] == Working(job)
    requires !s.keys[k].led.saturated && s.keys[k].crit.sec.meta.version < MAX_U64
    ensures var ks := s.keys[k];
            var w := WriterSection(s.g, ks, job, c);
            && w.To? && w.s.files.live.meta.Some? && ks.files.live.meta.Some?
            && job.expected in ks.led.history && job.expected in w.s.led.history
            && var m' := w.s.files.live.meta.value;
               && m'.id == job.expected && m'.version == job.submitted + 1
               && m'.writer == ks.files.live.meta.value.writer && m'.accessed == ks.files.live.meta.value.accessed
               && w.s.led.history[m'.id].contents == ks.led.history[m'.id].contents + [c.content]
               && |ks.led.history[m'.id].contents| == job.submitted + 1
  {
    ReachableIsSafe(n, evs, s);
    KeyIsSafe(s, k);
  }

  // ---------- guards ----------

  /** A key is in `active_fills` exactly while it has unfinished guards, the refcount is their number, and all share its entry. */
  lemma GuardsAreCounted(n: nat, evs: seq<Event>, s: System, k: nat)
    requires Reachable(n, evs, s) && k < n
    ensures var r := s.keys[k].reg;
            && (r.active.Some? <==> FillThreads(r) != {})
            && (r.active.Some? ==> r.active.value < |r.entries| && r.entries[r.active.value].refs == |FillThreads(r)|)
            && (forall t :: t in FillThreads(r) ==>
                  GuardOk(r, r.threads[t]))
  {
    ReachableIsSafe(n, evs, s);
    KeyIsSafe(s, k);
    var r := s.keys[k].reg;
    forall t | t in FillThreads(r) ensures GuardOk(r, r.threads[t]) { assert GuardOk(r, r.threads[t]); }
  }

  /**
    No fill that began before some call fenced the key off is ever past its last generation check,
    so removing and recreating the key's entry does not revive a rejected fill.
  */
  lemma FencedFillsNeverPublish(n: nat, evs: seq<Event>, s: System, k: nat, t: Tid, gd: Guard, e: nat)
    requires Reachable(n, evs, s) && k < n && t in s.keys[k].reg.threads && s.keys[k].reg.threads[t] == Publishing(gd, e)
    requires s.keys[k].crit.Locked? && PastLate(s.keys[k].crit.sec)
    ensures s.keys[k].reg.bar <= gd.fill && s.keys[k].led.memFence <= gd.fill
  {
    ReachableIsSafe(n, evs, s);
    KeyIsSafe(s, k);
    assert GuardOk(s.keys[k].reg, s.keys[k].reg.threads[t]);
  }

  // ---------- statistics ----------

  ghost predicate Quiet(keys: seq<KeyState>) {
    forall k :: 0 <= k < |keys| ==> keys[k].crit.Free?
  }

  /** The event makes the statistics right, whatever they were. */
  ghost predicate SetsRight(s: System, ev: Event) {
    ev.Reconcile? || (ev.Restart? && RightStats(RebootAll(s.keys, ev.swept), ev.stats))
  }

  /** A call that gives its fill up; the other choices say whether an operation worked. */
  predicate GivesUp(s: KeyState, t: Tid) {
    t in s.reg.threads && (s.reg.threads[t].Held? || s.reg.threads[t].PrePublish?)
  }

  predicate OutOfIds(g: Globals, s: KeyState, t: Tid) {
    s.crit.Locked? && s.crit.tid == t && s.crit.sec.Reserving? && g.nextId >= MAX_U64
  }

  /** No operation fails, fill ids are left, and no eviction or cleanup starts. */
  predicate Harmless(s: System, ev: Event) {
    && ev.OnKey? && ev.k < |s.keys|
    && match ev.a
       case StartJob(_, job) => job.Update? || job.Touch?
       case Advance(t, c) => (c.ok || GivesUp(s.keys[ev.k], t)) && !OutOfIds(s.g, s.keys[ev.k], t)
       case _ => true
  }

  /** Since the statistics were last right, every event of the run has been harmless. */
  ghost predicate StaysRight(s: System, evs: seq<Event>, right: bool)
    decreases |evs|
  {
    if evs == [] then right
    else Step(s, evs[0]).Reached?
         && StaysRight(Step(s, evs[0]).s, evs[1..], SetsRight(s, evs[0]) || (right && Harmless(s, evs[0])))
  }

  lemma HarmlessSection(g: Globals, k: nat, s: KeyState, c: Choice)
    requires HolderFits(s) && !s.crit.sec.Done? && SectionStep(g, k, s, s.crit.tid, c).To?
    requires g.clean && c.ok && !OutOfIds(g, s, s.crit.tid)
    ensures SectionStep(g, k, s, s.crit.tid, c).g.clean
  {
  }

  lemma HarmlessOutside(g: Globals, k: nat, s: KeyState, a: Action)
    requires KeyStep(g, k, s, a).To? && g.clean
    requires a.Advance? && s.reg.threads[a.t].InMeta() ==> s.crit.sec.Done?
    requires match a
             case StartJob(_, job) => job.Update? || job.Touch?
             case Advance(t, c) => c.ok || GivesUp(s, t)
             case _ => true
    ensures KeyStep(g, k, s, a).g.clean
  {
  }

  lemma HarmlessStep(s: System, ev: Event)
    requires Safe(s) && s.g.clean && Harmless(s, ev) && Step(s, ev).Reached?
    ensures Step(s, ev).s.g.clean
  {
    var ks := s.keys[ev.k];
    KeyIsSafe(s, ev.k);
    if ev.a.Advance? && ks.reg.threads[ev.a.t].InMeta() && !ks.crit.sec.Done? {
      HolderKnown(ks);
      HarmlessSection(s.g, ev.k, ks, ev.a.c);
    } else {
      HarmlessOutside(s.g, ev.k, ks, ev.a);
    }
  }

  lemma {:induction false} RightIsClean(s: System, evs: seq<Event>, right: bool)
    requires Safe(s) && Run(s, evs).Reached? && StaysRight(s, evs, right) && (right ==> s.g.clean)
    ensures Safe(Run(s, evs).s) && |Run(s, evs).s.keys| == |s.keys| && Run(s, evs).s.g.clean
    decreases |evs|
  {
    if evs != [] {
      StepKeeps(s, evs[0]);
      if !SetsRight(s, evs[0]) && right && Harmless(s, evs[0]) { HarmlessStep(s, evs[0]); }
      RightIsClean(Step(s, evs[0]).s, evs[1..], SetsRight(s, evs[0]) || (right && Harmless(s, evs[0])));
    }
  }

  lemma CleanIsExact(s: System)
    requires Safe(s) && s.g.clean && Quiet(s.keys)
    ensures RightStats(s.keys, s.g.stats)
  {
    FreeTotals(s.keys);
    forall k | 0 <= k < |s.keys| ensures Whole(s.keys[k].files.live) {
      KeyIsSafe(s, k);
      assert s.keys[k].crit.Free?;
    }
  }

  /**
    When nobody is inside a critical section, the statistics are what is on disk and every entry is
    whole: in every run from an empty directory whose events were harmless since the start, or since
    the last undisturbed scan.
  */
  lemma StatsAreExact(n: nat, evs: seq<Event>, s: System)
    requires Reachable(n, evs, s) && StaysRight(Fresh(n), evs, true) && Quiet(s.keys)
    ensures s.g.stats == OnDiskTotal(s.keys)
    ensures forall k :: 0 <= k < n ==> Whole(s.keys[k].files.live)
  {
    FreshHolds(n);
    RightIsClean(Fresh(n), evs, true);
    CleanIsExact(s);
  }

  /** In such runs no saturating subtraction of the statistics saturates. */
  lemma NoSaturation(n: nat, evs: seq<Event>, s: System, k: nat)
    requires Reachable(n, evs, s) && StaysRight(Fresh(n), evs, true) && k < n && s.keys[k].crit.Locked?
    ensures match s.keys[k].crit.sec
            case Unbook(p) => SizeOf(p.prior).entries <= s.g.stats.entries && SizeOf(p.prior).bytes <= s.g.stats.bytes
            case PurgeUnbook(seen) => seen.entries <= s.g.stats.entries && seen.bytes <= s.g.stats.bytes
            case Rebook(before, now) => before <= s.g.stats.bytes
            case _ => true
  {
    FreshHolds(n);
    RightIsClean(Fresh(n), evs, true);
    TotalUpdate(s.keys, k, s.keys[k]);
    KeyIsSafe(s, k);
  }

  /**
    Whatever drifted before, in any run with failures, crashes and evictions: once a scan that
    nothing disturbs has made the statistics right, they stay right for as long as events are
    harmless. The scans that do so are those of ScanServesReconcile and ScanServesStart (ProtocolScans).
  */
  lemma ReconcilingRestores(n: nat, before: seq<Event>, s: System, after: seq<Event>, s': System)
    requires Reaches(n, before, s, after, s') && StaysRight(s, after, false) && Quiet(s'.keys)
    ensures RightStats(s'.keys, s'.g.stats)
  {
    ReachableIsSafe(n, before, s);
    RightIsClean(s, after, false);
    CleanIsExact(s');
  }
}
