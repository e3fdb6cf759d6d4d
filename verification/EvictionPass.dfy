/** One eviction pass (eviction.rs:1060-1441): reconcile, sort by last access, evict until under the budget. */
module EvictionPass {
  import opened Common
  import opened Filesystem
  import opened Layout
  import opened Accounting
  import opened EvictionScan
  import opened DeferredCleanups
  import opened Reconciliation

  // ---------- the LRU order ----------

  function Insert(c: Candidate, cs: seq<Candidate>): (r: seq<Candidate>)
    ensures multiset(r) == multiset([c]) + multiset(cs)
  {
    if cs == [] || c.accessed <= cs[0].accessed then [c] + cs
    else
      assert cs == [cs[0]] + cs[1..];
      [cs[0]] + Insert(c, cs[1..])
  }

  /** `sort_by_key(last_accessed_at)`: a stable sort, oldest first. */
  function Lru(cs: seq<Candidate>): (r: seq<Candidate>)
    ensures multiset(r) == multiset(cs)
  {
    if cs == [] then []
    else
      assert cs == [cs[0]] + cs[1..];
      Insert(cs[0], Lru(cs[1..]))
  }

  predicate OldestFirst(cs: seq<Candidate>) {
    forall i, j :: 0 <= i < j < |cs| ==> cs[i].accessed <= cs[j].accessed
  }

  function AccessedAt(cs: seq<Candidate>, time: int): seq<Candidate> {
    if cs == [] then [] else IfAt(cs[0], time) + AccessedAt(cs[1..], time)
  }

  lemma {:induction false} InsertSorts(c: Candidate, cs: seq<Candidate>)
    requires OldestFirst(cs)
    ensures OldestFirst(Insert(c, cs))
  {
    if cs != [] && c.accessed > cs[0].accessed {
      InsertSorts(c, cs[1..]);
      var r := Insert(c, cs[1..]);
      forall x | x in r ensures cs[0].accessed <= x.accessed {
        assert x in multiset(r);
        assert x == c || x in cs[1..];
      }
    }
  }

  function IfAt(c: Candidate, time: int): seq<Candidate> {
    if c.accessed == time then [c] else []
  }

  lemma AccessedCons(c: Candidate, cs: seq<Candidate>, time: int)
    ensures AccessedAt([c] + cs, time) == IfAt(c, time) + AccessedAt(cs, time)
  {
    assert ([c] + cs)[1..] == cs;
  }

  lemma {:induction false} InsertIsStable(c: Candidate, cs: seq<Candidate>, time: int)
    ensures AccessedAt(Insert(c, cs), time) == IfAt(c, time) + AccessedAt(cs, time)
  {
    if cs == [] || c.accessed <= cs[0].accessed {
      AccessedCons(c, cs, time);
    } else {
      InsertIsStable(c, cs[1..], time);
      AccessedCons(cs[0], Insert(c, cs[1..]), time);
      AccessedCons(cs[0], cs[1..], time);
      assert [cs[0]] + cs[1..] == cs;
      OneIsEmpty(IfAt(cs[0], time), IfAt(c, time), AccessedAt(cs[1..], time));
    }
  }

  lemma OneIsEmpty(a: seq<Candidate>, b: seq<Candidate>, r: seq<Candidate>)
    requires a == [] || b == []
    ensures a + (b + r) == b + (a + r)
  {
    if a == [] { assert [] + (b + r) == b + ([] + r); }
  }

  /** The eviction order is by last access, and entries accessed at the same time keep the scan's order. */
  lemma {:induction false} LruIsStableSort(cs: seq<Candidate>)
    ensures OldestFirst(Lru(cs))
    ensures forall time :: AccessedAt(Lru(cs), time) == AccessedAt(cs, time)
  {
    if cs != [] {
      LruIsStableSort(cs[1..]);
      InsertSorts(cs[0], Lru(cs[1..]));
      forall time ensures AccessedAt(Lru(cs), time) == AccessedAt(cs, time) {
        InsertIsStable(cs[0], Lru(cs[1..]), time);
        assert AccessedAt(cs, time) == IfAt(cs[0], time) + AccessedAt(cs[1..], time);
      }
    }
  }

  // ---------- one candidate ----------

  /** `remaining_bytes_after_failed_remove` */
  method RemainingBytes(disk: Disk, gone: bool, p: Path) returns (r: Option<nat>)
    requires gone ==> p !in disk.files
    modifies disk`failed
    ensures old(disk.failed) ==> disk.failed
    ensures r.Some? ==> r.value == SizeAt(disk.files, p)
  {
    if gone { return Some(0); }
    r := PreStatSize(disk, p);
  }

  /** The entry on disk is not the one that was scanned. */
  predicate Replaced(c: Candidate, files: Files) {
    c.meta in files && files[c.meta].parsed.Some? && files[c.meta].parsed.value != Header(c.fillId, c.accessed)
  }

  /** The files an eviction of this candidate may take. */
  function Touched(c: Candidate): set<Path> {
    {c.body, c.meta, InShard(c.body.shard, c.hash, POISON)}
  }

  function TouchedBy(cs: seq<Candidate>): set<Path> {
    set c, p | c in cs && p in Touched(c) :: p
  }

  predicate Evicted(files: Files, c: Candidate) {
    c.body !in files && c.meta !in files
  }

  /** An evicted candidate leaves the statistics; nothing else changes them. */
  twostate predicate StatsFollow(stats: CacheStats, c: Candidate, evicted: bool)
    reads stats
  {
    && stats.evictionCount == old(stats.evictionCount)
    && stats.totalBytes == (if evicted then SatSub(old(stats.totalBytes), c.size) else old(stats.totalBytes))
    && stats.entryCount == (if evicted then SatSub(old(stats.entryCount), 1) else old(stats.entryCount))
  }

  /**
    `try_evict_candidate`. `left` is what the budget counts for this candidate afterwards: at least
    what is on disk of it, at most what was counted, and nothing once both files are gone.
  */
  method TryEvict(disk: Disk, stats: CacheStats, c: Candidate, current: nat) returns (current': nat, evicted: bool, ghost left: nat)
    requires c.size <= current && SizeAt(disk.files, c.body) + SizeAt(disk.files, c.meta) <= c.size
    modifies disk, stats
    ensures old(disk.failed) ==> disk.failed
    ensures Removes(old(disk.files), disk.files, Touched(c))
    ensures current' == current - c.size + left
    ensures SizeAt(disk.files, c.body) + SizeAt(disk.files, c.meta) <= left <= c.size
    ensures StatsFollow(stats, c, evicted) && (evicted ==> Evicted(disk.files, c) && left == 0)
    ensures !disk.failed && IsEntry(c, old(disk.files)) ==> evicted
    ensures !disk.failed && evicted ==> InShard(c.body.shard, c.hash, POISON) !in disk.files
    ensures Replaced(c, old(disk.files)) ==> disk.files == old(disk.files) && !evicted
  {
    evicted := false;
    var content := disk.Read(c.meta);
    if content.Failed? {
      return current, false, c.size;
    }
    if content.Ok? && content.value.parsed.Some? && content.value.parsed.value != Header(c.fillId, c.accessed) {
      current', left := Remeasure(disk, c, current, false, false);
      return;
    }
    var bodyRes := disk.Remove(c.body);
    var metaRes := disk.Remove(c.meta);
    var bodyGone, metaGone := !bodyRes.Failed?, !metaRes.Failed?;
    if bodyGone || metaGone {
      var poisonRes := disk.Remove(InShard(c.body.shard, c.hash, POISON));
    }
    if bodyGone && metaGone {
      stats.entryCount := SatSub(stats.entryCount, 1);
      stats.totalBytes := SatSub(stats.totalBytes, c.size);
      return SatSub(current, c.size), true, 0;
    }
    current', left := Remeasure(disk, c, current, bodyGone, metaGone);
  }

  /** What the budget still counts for a candidate that could not be removed. */
  method Remeasure(disk: Disk, c: Candidate, current: nat, bodyGone: bool, metaGone: bool) returns (current': nat, ghost left: nat)
    requires c.size <= current && SizeAt(disk.files, c.body) + SizeAt(disk.files, c.meta) <= c.size
    requires (bodyGone ==> c.body !in disk.files) && (metaGone ==> c.meta !in disk.files)
    modifies disk`failed
    ensures old(disk.failed) ==> disk.failed
    ensures current' == current - c.size + left
    ensures SizeAt(disk.files, c.body) + SizeAt(disk.files, c.meta) <= left <= c.size
  {
    var body := RemainingBytes(disk, bodyGone, c.body);
    var meta := RemainingBytes(disk, metaGone, c.meta);
    if body.Some? && meta.Some? {
      current', left := SatSub(current, c.size) + (body.value + meta.value), body.value + meta.value;
    } else {
      current', left := current, c.size;
    }
  }

  // ---------- the loop ----------

  function NatSum(ns: seq<nat>): nat {
    if ns == [] then 0 else ns[0] + NatSum(ns[1..])
  }

  /** The claims after some candidates have been tried: what is left of those, the full size of the others. */
  function After(cs: seq<Candidate>, left: seq<nat>): (r: seq<Claim>)
    requires |left| <= |cs|
    ensures |r| == |cs|
    ensures forall i :: 0 <= i < |cs| ==> r[i] == Claim({cs[i].body, cs[i].meta}, if i < |left| then left[i] else cs[i].size)
  {
    seq(|cs|, i requires 0 <= i < |cs| => Claim({cs[i].body, cs[i].meta}, if i < |left| then left[i] else cs[i].size))
  }

  lemma {:induction false} AfterSum(cs: seq<Candidate>, left: seq<nat>)
    requires |left| <= |cs|
    ensures AmountSum(After(cs, left)) == NatSum(left) + SizeSum(cs[|left|..])
    decreases |cs|
  {
    if cs != [] {
      var left' := if left == [] then [] else left[1..];
      assert After(cs, left)[1..] == After(cs[1..], left');
      AfterSum(cs[1..], left');
      if left == [] {
        assert cs[0..] == cs;
      } else {
        assert cs[|left|..] == cs[1..][|left'|..];
      }
    }
  }

  lemma {:induction false} NatSumAppend(ns: seq<nat>, n: nat)
    ensures NatSum(ns + [n]) == NatSum(ns) + n
  {
    if ns == [] {
      assert ns + [n] == [n];
    } else {
      assert (ns + [n])[1..] == ns[1..] + [n];
      NatSumAppend(ns[1..], n);
    }
  }

  /** Trying candidate `i` replaces its claim by what is left. */
  lemma AfterStep(cs: seq<Candidate>, left: seq<nat>, rest: seq<Claim>, n: nat, files: Files, files': Files)
    requires |left| < |cs| && Holds(After(cs, left) + rest, files) && Shrinks(files, files')
    requires cs[|left|].body != cs[|left|].meta
    requires SizeAt(files', cs[|left|].body) + SizeAt(files', cs[|left|].meta) <= n
    ensures Holds(After(cs, left + [n]) + rest, files')
  {
    var i := |left|;
    BytesTwo(cs[i].body, cs[i].meta, files');
    HoldsShrink(After(cs, left) + rest, files, files');
    var claims, claims' := After(cs, left) + rest, After(cs, left + [n]) + rest;
    forall j | 0 <= j < |claims'| ensures BytesOf(claims'[j].paths, files') <= claims'[j].amount {
      if j != i { assert claims'[j] == claims[j]; }
    }
  }

  /** What the loop knows before each candidate: the budget is the unreclaimed bytes, what is left of the tried, and the untried. */
  ghost predicate Budget(cs: seq<Candidate>, left: seq<nat>, rest: seq<Claim>, current: nat, files: Files) {
    && |left| <= |cs|
    && current == AmountSum(rest) + NatSum(left) + SizeSum(cs[|left|..])
    && Holds(After(cs, left) + rest, files)
  }

  lemma BudgetStep(cs: seq<Candidate>, left: seq<nat>, rest: seq<Claim>, current: nat, n: nat, files: Files, files': Files)
    requires Budget(cs, left, rest, current, files) && |left| < |cs| && Shrinks(files, files')
    requires cs[|left|].body != cs[|left|].meta
    requires SizeAt(files', cs[|left|].body) + SizeAt(files', cs[|left|].meta) <= n
    ensures cs[|left|].size <= current
    ensures Budget(cs, left + [n], rest, current - cs[|left|].size + n, files')
  {
    AfterStep(cs, left, rest, n, files, files');
    NatSumAppend(left, n);
    assert cs[|left|..][0] == cs[|left|] && cs[|left|..][1..] == cs[|left| + 1..];
  }

  lemma BudgetCovers(cs: seq<Candidate>, left: seq<nat>, rest: seq<Claim>, current: nat, unseen: set<Path>, files0: Files, files: Files)
    requires Budget(cs, left, rest, current, files) && Shrinks(files0, files)
    requires forall p :: p in EntryFiles(files0) && p !in unseen ==> InClaims(p, ClaimsOf(cs) + rest)
    ensures EntryBytes(files) <= current + BytesOf(unseen, files)
  {
    assert After(cs, []) == ClaimsOf(cs);
    forall p | p in EntryFiles(files) && p !in unseen ensures InClaims(p, After(cs, left) + rest) {
      assert p in EntryFiles(files0);
      var i :| 0 <= i < |After(cs, []) + rest| && p in (After(cs, []) + rest)[i].paths;
      assert (After(cs, left) + rest)[i].paths == (After(cs, []) + rest)[i].paths;
    }
    AmountAppend(After(cs, left), rest);
    AfterSum(cs, left);
    ClaimedBut(unseen, After(cs, left) + rest, files);
  }

  lemma SizeHeld(cs: seq<Candidate>, left: seq<nat>, rest: seq<Claim>, current: nat, files: Files)
    requires Budget(cs, left, rest, current, files) && |left| < |cs| && cs[|left|].body != cs[|left|].meta
    ensures SizeAt(files, cs[|left|].body) + SizeAt(files, cs[|left|].meta) <= cs[|left|].size <= current
  {
    BudgetStep(cs, left, rest, current, SizeAt(files, cs[|left|].body) + SizeAt(files, cs[|left|].meta), files, files);
    BytesTwo(cs[|left|].body, cs[|left|].meta, files);
    assert (After(cs, left) + rest)[|left|] == ClaimOf(cs[|left|]);
  }

  /** What the loop did with the candidates it tried, in order: the budget before, what was left of each, and whether it went. */
  datatype Tries = Tries(before: seq<nat>, left: seq<nat>, gone: seq<bool>)

  /** Only tried candidates lost files, and the ones that went are gone. */
  ghost predicate Tried(h: Tries, cs: seq<Candidate>, files0: Files, files: Files) {
    && |h.before| == |h.left| == |h.gone| <= |cs|
    && Removes(files0, files, TouchedBy(cs[..|h.left|]))
    && (forall i :: 0 <= i < |h.gone| && h.gone[i] ==> Evicted(files, cs[i]) && h.left[i] == 0)
  }

  function GoneCount(gone: seq<bool>): nat {
    if gone == [] then 0 else GoneCount(gone[..|gone| - 1]) + if gone[|gone| - 1] then 1 else 0
  }

  lemma TriedOneMore(h: Tries, cs: seq<Candidate>, files0: Files, files: Files, files': Files, before: nat, n: nat, gone: bool)
    requires Tried(h, cs, files0, files) && |h.left| < |cs| && Removes(files, files', Touched(cs[|h.left|]))
    requires gone ==> Evicted(files', cs[|h.left|]) && n == 0
    ensures Tried(Try(h, before, n, gone), cs, files0, files')
    ensures GoneCount(h.gone + [gone]) == GoneCount(h.gone) + if gone then 1 else 0
  {
    var i := |h.left|;
    assert cs[..i + 1] == cs[..i] + [cs[i]];
    assert (h.gone + [gone])[..i] == h.gone;
    forall p | p in files0 && p !in files' ensures p in TouchedBy(cs[..i + 1]) {
      if p in files { assert cs[i] in cs[..i + 1]; } else {
        var c :| c in cs[..i] && p in Touched(c);
        assert c in cs[..i + 1];
      }
    }
  }

  /** Whole entries that do not share files, so that evicting one leaves the others whole. */
  ghost predicate Separate(cs: seq<Candidate>, from: nat, files: Files) {
    && (forall i, j :: 0 <= i < |cs| && 0 <= j < |cs| && i != j ==> Touched(cs[i]) !! ClaimOf(cs[j]).paths)
    && (forall j :: from <= j < |cs| ==> IsEntry(cs[j], files))
  }

  lemma StillSeparate(cs: seq<Candidate>, i: nat, files: Files, files': Files)
    requires Separate(cs, i, files) && i < |cs| && Removes(files, files', Touched(cs[i]))
    ensures Separate(cs, i + 1, files')
  {
    forall j | i < j < |cs| ensures IsEntry(cs[j], files') {
      assert Touched(cs[i]) !! ClaimOf(cs[j]).paths;
    }
  }

  function Try(h: Tries, before: nat, left: nat, gone: bool): Tries {
    Tries(h.before + [before], h.left + [left], h.gone + [gone])
  }

  ghost predicate AllWent(h: Tries, cs: seq<Candidate>, files: Files) {
    (forall i :: 0 <= i < |h.gone| ==> h.gone[i]) && Separate(cs, |h.gone|, files)
  }

  lemma OneMoreWent(h: Tries, cs: seq<Candidate>, before: nat, left: nat, files: Files, files': Files)
    requires AllWent(h, cs, files) && |h.gone| < |cs| && Removes(files, files', Touched(cs[|h.gone|]))
    ensures AllWent(Try(h, before, left, true), cs, files')
  {
    StillSeparate(cs, |h.gone|, files, files');
  }

  /** Halfway through the candidates. */
  ghost predicate Evicting(h: Tries, cs: seq<Candidate>, rest: seq<Claim>, current: nat, maxBytes: nat, files0: Files, files: Files) {
    && Tried(h, cs, files0, files) && Budget(cs, h.left, rest, current, files)
    && forall i :: 0 <= i < |h.before| ==> h.before[i] > maxBytes
  }

  lemma EvictingStep(h: Tries, cs: seq<Candidate>, rest: seq<Claim>, current: nat, maxBytes: nat, files0: Files, files: Files, files': Files,
                     n: nat, gone: bool)
    requires Evicting(h, cs, rest, current, maxBytes, files0, files) && |h.left| < |cs| && current > maxBytes
    requires cs[|h.left|].body != cs[|h.left|].meta && Removes(files, files', Touched(cs[|h.left|]))
    requires SizeAt(files', cs[|h.left|].body) + SizeAt(files', cs[|h.left|].meta) <= n
    requires gone ==> Evicted(files', cs[|h.left|]) && n == 0
    ensures cs[|h.left|].size <= current
    ensures Evicting(Try(h, current, n, gone), cs, rest, current - cs[|h.left|].size + n, maxBytes, files0, files')
    ensures GoneCount(h.gone + [gone]) == GoneCount(h.gone) + if gone then 1 else 0
  {
    BudgetStep(cs, h.left, rest, current, n, files, files');
    TriedOneMore(h, cs, files0, files, files', current, n, gone);
  }

  /** What the loop does to the statistics. */
  predicate StatsAre(stats: CacheStats, entries: int, total: nat, count: nat)
    reads stats
  {
    stats.entryCount == entries && total <= stats.totalBytes && stats.evictionCount == count
  }

  /** One round of the loop. */
  method EvictNext(disk: Disk, stats: CacheStats, cs: seq<Candidate>, i: nat, current: nat, maxBytes: nat,
                   ghost h: Tries, ghost rest: seq<Claim>, ghost files0: Files)
    returns (current': nat, gone: bool, ghost h': Tries)
    requires Evicting(h, cs, rest, current, maxBytes, files0, disk.files) && |h.left| == i < |cs| && TwoFiles(cs)
    requires current > maxBytes && current <= stats.totalBytes && stats.entryCount > 0
    modifies disk, stats
    ensures old(disk.failed) ==> disk.failed
    ensures Evicting(h', cs, rest, current', maxBytes, files0, disk.files) && |h'.left| == i + 1
    ensures GoneCount(h'.gone) == GoneCount(h.gone) + if gone then 1 else 0
    ensures !disk.failed && AllWent(h, cs, old(disk.files)) ==> AllWent(h', cs, disk.files)
    ensures StatsAre(stats, old(stats.entryCount) - if gone then 1 else 0, current', old(stats.evictionCount))
  {
    ghost var n: nat;
    SizeHeld(cs, h.left, rest, current, disk.files);
    current', gone, n := TryEvict(disk, stats, cs[i], current);
    EvictingStep(h, cs, rest, current, maxBytes, files0, old(disk.files), disk.files, n, gone);
    if !disk.failed && AllWent(h, cs, old(disk.files)) { OneMoreWent(h, cs, current, n, old(disk.files), disk.files); }
    h' := Try(h, current, n, gone);
  }

  /**
    The eviction loop, over the candidates in LRU order. The budget is exact at every point and
    never below what is on disk, but for files nobody saw; every attempt starts over the budget, the
    loop stops under `maxBytes` or after the last candidate, and files of later candidates are not
    touched. Without failures every candidate tried goes.
  */
  method EvictUntil(disk: Disk, stats: CacheStats, cs: seq<Candidate>, total: nat, maxBytes: nat, ghost rest: seq<Claim>, ghost unseen: set<Path>)
    returns (current: nat, evicted: nat, ghost h: Tries)
    requires Budget(cs, [], rest, total, disk.files) && stats.totalBytes == total && stats.entryCount == |cs|
    requires forall p :: p in EntryFiles(disk.files) && p !in unseen ==> InClaims(p, ClaimsOf(cs) + rest)
    requires TwoFiles(cs)
    modifies disk, stats
    ensures old(disk.failed) ==> disk.failed
    ensures Tried(h, cs, old(disk.files), disk.files)
    ensures current == AmountSum(rest) + NatSum(h.left) + SizeSum(cs[|h.left|..])
    ensures EntryBytes(disk.files) <= current + BytesOf(unseen, disk.files) && current <= stats.totalBytes
    ensures current <= maxBytes || |h.left| == |cs|
    ensures forall i :: 0 <= i < |h.before| ==> h.before[i] > maxBytes
    ensures evicted == GoneCount(h.gone) && stats.entryCount == |cs| - evicted
    ensures stats.evictionCount == old(stats.evictionCount) + evicted
    ensures !disk.failed && Separate(cs, 0, old(disk.files)) ==> AllWent(h, cs, disk.files)
  {
    ghost var files0, quiet := disk.files, Separate(cs, 0, disk.files);
    current, evicted, h := total, 0, Tries([], [], []);
    var i := 0;
    while i < |cs| && current > maxBytes
      invariant 0 <= i <= |cs| && |h.left| == i
      invariant old(disk.failed) ==> disk.failed
      invariant Evicting(h, cs, rest, current, maxBytes, files0, disk.files)
      invariant evicted == GoneCount(h.gone) <= i
      invariant StatsAre(stats, |cs| - evicted, current, old(stats.evictionCount))
      invariant !disk.failed && quiet ==> AllWent(h, cs, disk.files)
    {
      var gone;
      current, gone, h := EvictNext(disk, stats, cs, i, current, maxBytes, h, rest, files0);
      if gone { evicted := evicted + 1; }
      i := i + 1;
    }
    BudgetCovers(cs, h.left, rest, current, unseen, files0, disk.files);
    stats.evictionCount := stats.evictionCount + evicted;
  }

  lemma {:induction false} InsertSum(c: Candidate, cs: seq<Candidate>)
    ensures SizeSum(Insert(c, cs)) == c.size + SizeSum(cs)
  {
    if cs == [] || c.accessed <= cs[0].accessed {
      assert ([c] + cs)[1..] == cs;
    } else {
      InsertSum(c, cs[1..]);
      assert ([cs[0]] + Insert(c, cs[1..]))[1..] == Insert(c, cs[1..]);
    }
  }

  lemma {:induction false} LruSum(cs: seq<Candidate>)
    ensures SizeSum(Lru(cs)) == SizeSum(cs)
  {
    if cs != [] {
      LruSum(cs[1..]);
      InsertSum(cs[0], Lru(cs[1..]));
    }
  }

  lemma SameCandidates(cs: seq<Candidate>, c: Candidate)
    ensures c in Lru(cs) <==> c in cs
  {
    assert c in Lru(cs) <==> c in multiset(Lru(cs));
    assert c in cs <==> c in multiset(cs);
  }

  lemma HoldsReordered(cs: seq<Candidate>, cs': seq<Candidate>, rest: seq<Claim>, files: Files)
    requires Holds(ClaimsOf(cs) + rest, files) && forall c :: c in cs' ==> c in cs
    ensures Holds(ClaimsOf(cs') + rest, files)
  {
    forall i | 0 <= i < |ClaimsOf(cs') + rest|
      ensures BytesOf((ClaimsOf(cs') + rest)[i].paths, files) <= (ClaimsOf(cs') + rest)[i].amount
    {
      if i < |cs'| {
        assert cs'[i] in cs';
        var j :| 0 <= j < |cs| && cs[j] == cs'[i];
        assert (ClaimsOf(cs) + rest)[j] == (ClaimsOf(cs') + rest)[i];
      } else {
        assert (ClaimsOf(cs) + rest)[|cs| + (i - |cs'|)] == rest[i - |cs'|];
      }
    }
  }

  lemma ClaimsReordered(cs: seq<Candidate>, cs': seq<Candidate>, rest: seq<Claim>, p: Path)
    requires InClaims(p, ClaimsOf(cs) + rest) && forall c :: c in cs ==> c in cs'
    ensures InClaims(p, ClaimsOf(cs') + rest)
  {
    var j :| 0 <= j < |cs| + |rest| && p in (ClaimsOf(cs) + rest)[j].paths;
    if j < |cs| {
      assert cs[j] in cs';
      var i :| 0 <= i < |cs'| && cs'[i] == cs[j];
      assert (ClaimsOf(cs') + rest)[i] == ClaimOf(cs[j]);
    } else {
      assert (ClaimsOf(cs') + rest)[|cs'| + (j - |cs|)] == rest[j - |cs|];
    }
  }

  /** Sorting changes neither what the scan found nor what it adds up to. */
  lemma SortedBudget(cs: seq<Candidate>, rest: seq<Claim>, total: nat, unseen: set<Path>, files: Files)
    requires total == SizeSum(cs) + AmountSum(rest) && Holds(ClaimsOf(cs) + rest, files) && TwoFiles(cs)
    requires forall p :: p in EntryFiles(files) && p !in unseen ==> InClaims(p, ClaimsOf(cs) + rest)
    ensures Budget(Lru(cs), [], rest, total, files) && TwoFiles(Lru(cs))
    ensures forall p :: p in EntryFiles(files) && p !in unseen ==> InClaims(p, ClaimsOf(Lru(cs)) + rest)
  {
    var sorted := Lru(cs);
    forall c ensures c in sorted <==> c in cs { SameCandidates(cs, c); }
    LruSum(cs);
    HoldsReordered(cs, sorted, rest, files);
    assert sorted[0..] == sorted && After(sorted, []) == ClaimsOf(sorted);
    forall p | p in EntryFiles(files) && p !in unseen ensures InClaims(p, ClaimsOf(sorted) + rest) {
      ClaimsReordered(cs, sorted, rest, p);
    }
    forall i | 0 <= i < |sorted| ensures sorted[i].body != sorted[i].meta {
      assert sorted[i] in cs;
    }
  }

  // ---------- a pass without failures ----------

  lemma TouchesApart(a: Candidate, b: Candidate, files: Files)
    requires IsEntry(a, files) && IsEntry(b, files) && TidyPath(a.meta) && TidyPath(b.meta) && a.meta != b.meta
    ensures Touched(a) !! ClaimOf(b).paths
  {
    CandidatesDisjoint(a, b, files);
    TrimOnce(a.hash, POISON);
    TrimOnce(b.hash, BODY);
    OneSuffix(a.hash + POISON);
  }

  lemma {:induction false} DistinctMetas(cs: seq<Candidate>, i: nat, j: nat)
    requires Distinct(Metas(cs)) && i < j < |cs|
    ensures cs[i].meta != cs[j].meta
  {
    assert Metas(cs)[i] != Metas(cs)[j];
  }

  /** A stable sort keeps entries apart that were apart. */
  lemma LruApart(cs: seq<Candidate>, i: nat, j: nat)
    requires Distinct(Metas(cs)) && i < j < |Lru(cs)|
    ensures Lru(cs)[i].meta != Lru(cs)[j].meta
  {
    if Lru(cs)[i].meta == Lru(cs)[j].meta {
      var a, b := Lru(cs)[i], Lru(cs)[j];
      SameCandidates(cs, a);
      SameCandidates(cs, b);
      var k :| 0 <= k < |cs| && cs[k] == a;
      var l :| 0 <= l < |cs| && cs[l] == b;
      if k != l { DistinctMetas(cs, if k < l then k else l, if k < l then l else k); }
      TwiceIn(Lru(cs), i, j);
      assert multiset(cs)[a] >= 2;
      OnceIn(cs, k);
    }
  }

  lemma TwiceIn(cs: seq<Candidate>, i: nat, j: nat)
    requires i < j < |cs| && cs[i] == cs[j]
    ensures multiset(cs)[cs[i]] >= 2
  {
    assert cs == cs[..j] + [cs[j]] + cs[j + 1..];
    assert cs[..j][i] in multiset(cs[..j]);
  }

  lemma OnceIn(cs: seq<Candidate>, k: nat)
    requires k < |cs| && Distinct(Metas(cs))
    ensures multiset(cs)[cs[k]] == 1
  {
    assert cs == cs[..k] + [cs[k]] + cs[k + 1..];
    forall i | 0 <= i < |cs| && i != k ensures cs[i] != cs[k] {
      DistinctMetas(cs, if i < k then i else k, if i < k then k else i);
    }
    assert cs[k] !in cs[..k] && cs[k] !in cs[k + 1..];
  }

  lemma ListedAreSeparate(cs: seq<Candidate>, files: Files)
    requires Lists(cs, files)
    ensures Separate(Lru(cs), 0, files)
  {
    var sorted := Lru(cs);
    forall i | 0 <= i < |sorted| ensures Listed(sorted[i], files) {
      SameCandidates(cs, sorted[i]);
    }
    forall i, j | 0 <= i < |sorted| && 0 <= j < |sorted| && i != j ensures Touched(sorted[i]) !! ClaimOf(sorted[j]).paths {
      LruApart(cs, if i < j then i else j, if i < j then j else i);
      TouchesApart(sorted[i], sorted[j], files);
    }
  }

  lemma {:induction false} ZeroSum(ns: seq<nat>)
    requires forall i :: 0 <= i < |ns| ==> ns[i] == 0
    ensures NatSum(ns) == 0
  {
    if ns != [] { ZeroSum(ns[1..]); }
  }

  lemma {:induction false} CountAll(gone: seq<bool>)
    requires forall i :: 0 <= i < |gone| ==> gone[i]
    ensures GoneCount(gone) == |gone|
  {
    if gone != [] { CountAll(gone[..|gone| - 1]); }
  }

  lemma RemainingClaim(c: Candidate, files0: Files, files: Files)
    requires Listed(c, files0) && IsEntry(c, files)
    ensures BytesOf(ClaimOf(c).paths, files) == c.size && ClaimOf(c).paths <= EntryFiles(files)
  {
    WholeBytes(c, files);
  }

  lemma RemainingAreExact(rest: seq<Candidate>, files0: Files, files: Files)
    requires forall i :: 0 <= i < |rest| ==> Listed(rest[i], files0)
    requires Separate(rest, 0, files)
    ensures Exact(ClaimsOf(rest), files)
    ensures forall i :: 0 <= i < |rest| ==> ClaimsOf(rest)[i].paths <= EntryFiles(files)
  {
    var claims := ClaimsOf(rest);
    forall i | 0 <= i < |claims|
      ensures BytesOf(claims[i].paths, files) == claims[i].amount && claims[i].paths <= EntryFiles(files)
    {
      RemainingClaim(rest[i], files0, files);
    }
    forall i, j | 0 <= i < j < |claims| ensures claims[i].paths !! claims[j].paths {
      assert Touched(rest[i]) !! ClaimOf(rest[j]).paths;
    }
  }

  lemma ListedLater(cs: seq<Candidate>, sorted: seq<Candidate>, k: nat, files: Files)
    requires Lists(cs, files) && k <= |sorted| && forall c :: c in sorted ==> c in cs
    ensures forall i :: 0 <= i < |sorted[k..]| ==> Listed(sorted[k..][i], files)
  {
    forall i | 0 <= i < |sorted[k..]| ensures Listed(sorted[k..][i], files) { assert sorted[k + i] in cs; }
  }

  lemma LaterAreSeparate(cs: seq<Candidate>, k: nat, files: Files)
    requires k <= |cs| && Separate(cs, k, files)
    ensures Separate(cs[k..], 0, files)
  {
    forall i, j | 0 <= i < |cs[k..]| && 0 <= j < |cs[k..]| && i != j ensures Touched(cs[k..][i]) !! ClaimOf(cs[k..][j]).paths {
      assert Touched(cs[k + i]) !! ClaimOf(cs[k + j]).paths;
    }
  }

  lemma ClaimedLater(cs: seq<Candidate>, sorted: seq<Candidate>, k: nat, p: Path)
    requires InClaims(p, ClaimsOf(cs)) && k <= |sorted|
    requires forall c :: c in cs ==> c in sorted
    requires forall i :: 0 <= i < k ==> p !in ClaimOf(sorted[i]).paths
    ensures InClaims(p, ClaimsOf(sorted[k..]))
  {
    var i :| 0 <= i < |ClaimsOf(cs)| && p in ClaimsOf(cs)[i].paths;
    assert cs[i] in sorted;
    var j :| 0 <= j < |sorted| && sorted[j] == cs[i];
    assert ClaimsOf(sorted[k..])[j - k] == ClaimOf(sorted[j]);
  }

  lemma RemainingAreAll(cs: seq<Candidate>, sorted: seq<Candidate>, files0: Files, h: Tries, files: Files)
    requires forall p :: p in EntryFiles(files0) ==> InClaims(p, ClaimsOf(cs))
    requires forall c :: c in cs ==> c in sorted
    requires Tried(h, sorted, files0, files) && forall i :: 0 <= i < |h.gone| ==> h.gone[i]
    ensures forall p :: p in EntryFiles(files) ==> InClaims(p, ClaimsOf(sorted[|h.left|..]))
  {
    forall p | p in EntryFiles(files) ensures InClaims(p, ClaimsOf(sorted[|h.left|..])) {
      assert p in EntryFiles(files0);
      forall i | 0 <= i < |h.left| ensures p !in ClaimOf(sorted[i]).paths { assert Evicted(files, sorted[i]); }
      ClaimedLater(cs, sorted, |h.left|, p);
    }
  }

  /** What remains on disk is exactly the candidates that were not tried. */
  lemma QuietPassIsExact(cs: seq<Candidate>, files0: Files, h: Tries, files: Files)
    requires Lists(cs, files0) && Tried(h, Lru(cs), files0, files) && AllWent(h, Lru(cs), files)
    ensures EntryBytes(files) == SizeSum(Lru(cs)[|h.left|..]) && NatSum(h.left) == 0 && GoneCount(h.gone) == |h.left|
  {
    ZeroSum(h.left);
    CountAll(h.gone);
    LaterAreSeparate(Lru(cs), |h.left|, files);
    forall c ensures c in Lru(cs) <==> c in cs { SameCandidates(cs, c); }
    ListedLater(cs, Lru(cs), |h.left|, files0);
    RemainingAreExact(Lru(cs)[|h.left|..], files0, files);
    RemainingAreAll(cs, Lru(cs), files0, h, files);
    ExactSum(EntryFiles(files), ClaimsOf(Lru(cs)[|h.left|..]), files);
  }

  /** How a pass ends: the probe of `objects/` failed, the scan failed, or it ran. */
  datatype Pass = Skipped | ScanFailed | Ran(finalSize: nat, evicted: nat)

  /** What a pass worked on: the disk after the scan, the scan's candidates, and what else it answers for. */
  datatype Scanned = Scanned(candidates: seq<Candidate>, total: nat, rest: seq<Claim>, files: Files)

  /** Every file the scan could see is in a claim, and the claims are never too small. */
  ghost predicate ScannedAll(f: Scanned, files0: Files) {
    && Shrinks(files0, f.files) && f.total == SizeSum(f.candidates) + AmountSum(f.rest)
    && Holds(ClaimsOf(f.candidates) + f.rest, f.files)
    && (forall p :: p in EntryFiles(f.files) && p !in UnseenFiles(files0) ==> InClaims(p, ClaimsOf(f.candidates) + f.rest))
  }

  /**
    `run_eviction_pass_inner`. Unless the pass is skipped or the scan fails, which leave the
    statistics alone, it tries the scan's candidates in LRU order and ends under the budget or with
    every candidate tried, with a byte total that covers what is on disk but for files no scan sees.
    Without failures, on a tidy disk, it evicts exactly what it tries, and the total is exact.
  */
  method RunEvictionPass(disk: Disk, stats: CacheStats, maxBytes: nat)
    returns (r: Pass, ghost f: Scanned, ghost h: Tries)
    requires disk.Valid()
    modifies disk, stats
    ensures Shrinks(old(disk.files), disk.files)
    ensures !r.Ran? ==> stats.totalBytes == old(stats.totalBytes) && stats.entryCount == old(stats.entryCount)
                        && stats.evictionCount == old(stats.evictionCount)
    ensures r.Skipped? ==> disk.files == old(disk.files)
    ensures r.Ran? ==>
              && ScannedAll(f, old(disk.files)) && Tried(h, Lru(f.candidates), f.files, disk.files)
              && r.finalSize == AmountSum(f.rest) + NatSum(h.left) + SizeSum(Lru(f.candidates)[|h.left|..])
              && EntryBytes(disk.files) <= r.finalSize + BytesOf(UnseenFiles(old(disk.files)), disk.files)
              && r.finalSize <= stats.totalBytes
              && (r.finalSize <= maxBytes || |h.left| == |f.candidates|)
              && (forall i :: 0 <= i < |h.before| ==> h.before[i] > maxBytes)
              && r.evicted == GoneCount(h.gone) && stats.entryCount == |f.candidates| - r.evicted
              && stats.evictionCount == old(stats.evictionCount) + r.evicted
    ensures !disk.failed && Tidy(old(disk.files)) ==>
              && r.Ran? && ExactScan(f.candidates, f.total, f.files)
              && r.evicted == |h.left| && r.finalSize == EntryBytes(disk.files)
  {
    ghost var files0 := disk.files;
    f, h := Scanned([], 0, [], disk.files), Tries([], [], []);
    var fails := disk.Fails();
    if fails { return Skipped, f, h; }
    var candidates, total := [], 0;
    if disk.objects.Some? {
      var scan;
      ghost var rest;
      scan, rest := CollectCandidates(disk, stats);
      if scan.None? { return ScanFailed, f, h; }
      candidates, total := scan.value.candidates, scan.value.totalBytes;
      f := Scanned(candidates, total, rest, disk.files);
    } else {
      assert EntryFiles(disk.files) == {};
      stats.entryCount, stats.totalBytes := 0, 0;
    }
    SortedBudget(candidates, f.rest, total, UnseenFiles(files0), disk.files);
    SameLength(candidates);
    candidates := Lru(candidates);
    var current, evicted;
    current, evicted, h := EvictUntil(disk, stats, candidates, total, maxBytes, f.rest, UnseenFiles(files0));
    if !disk.failed && Tidy(files0) {
      ListedAreSeparate(f.candidates, f.files);
      QuietPassIsExact(f.candidates, f.files, h, disk.files);
    }
    r := Ran(current, evicted);
  }

  lemma SameLength(cs: seq<Candidate>)
    ensures |Lru(cs)| == |cs|
  {
    assert |multiset(Lru(cs))| == |Lru(cs)| && |multiset(cs)| == |cs|;
  }
}
