/**
  `process_deferred_cleanups` and `collect_candidates` (eviction.rs:645-1034): after the scan the
  byte total is at least what is on disk, and with no failure it is exactly that.
*/
module Reconciliation {
  import opened Common
  import opened Filesystem
  import opened Layout
  import opened KeyHash
  import opened Accounting
  import opened EvictionScan
  import opened DeferredCleanups

  /** `CacheStats`, the counters the scan overwrites and the eviction loop adjusts. */
  class CacheStats {
    var entryCount: nat
    var totalBytes: nat
    var evictionCount: nat

    constructor ()
      ensures entryCount == 0 && totalBytes == 0 && evictionCount == 0
    {
      entryCount, totalBytes, evictionCount := 0, 0, 0;
    }
  }

  /** The ones no scan accounts for; there are none among the names the cache writes (TidyIsSeen). */
  ghost function UnseenFiles(files: Files): set<Path> {
    set p | p in files && EntryFile(p) && !Seen(p, files)
  }

  // ---------- the deferred cleanups ----------

  ghost predicate Answered(cs: seq<Cleanup>, t: Tally, rest: seq<Claim>, files: Files) {
    forall i, p :: 0 <= i < |cs| && p in Handles(cs[i]) && p in files ==> InClaims(p, Claims(t, rest))
  }

  ghost predicate AllJustified(cs: seq<Cleanup>, files: Files) {
    forall i :: 0 <= i < |cs| ==> Justified(cs[i], files)
  }

  /** Every cleanup's metadata is still there, and no cleanup takes what another one will handle. */
  ghost predicate Independent(cs: seq<Cleanup>, files: Files) {
    && (forall i :: 0 <= i < |cs| ==> MetaThere(cs[i], files))
    && (forall i, j :: 0 <= i < j < |cs| ==> Touches(cs[i]) !! Handles(cs[j]))
  }

  ghost predicate AllGone(cs: seq<Cleanup>, files: Files) {
    forall i, p :: 0 <= i < |cs| && p in Touches(cs[i]) ==> p !in files
  }

  function AllTouched(cs: seq<Cleanup>): set<Path> {
    set c, p | c in cs && p in Touches(c) :: p
  }

  lemma StillJustified(cs: seq<Cleanup>, files: Files, files': Files)
    requires AllJustified(cs, files) && Shrinks(files, files')
    ensures AllJustified(cs, files')
  {
    forall i | 0 <= i < |cs| ensures Justified(cs[i], files') { JustifiedShrinks(cs[i], files, files'); }
  }

  lemma StillAnswered(cs: seq<Cleanup>, t: Tally, rest: seq<Claim>, t': Tally, rest': seq<Claim>, files: Files, files': Files)
    requires Answered(cs, t, rest, files) && Extends(t, rest, t', rest') && Shrinks(files, files')
    ensures Answered(cs, t', rest', files')
  {
    forall i, p | 0 <= i < |cs| && p in Handles(cs[i]) && p in files' ensures InClaims(p, Claims(t', rest')) {
      ExtendsAnswers(t, rest, t', rest', p);
    }
  }

  lemma StillIndependent(cs: seq<Cleanup>, files: Files, files': Files)
    requires cs != [] && Independent(cs, files) && Removes(files, files', Touches(cs[0]))
    ensures Independent(cs[1..], files')
  {
    forall i | 0 <= i < |cs[1..]| ensures MetaThere(cs[1..][i], files') {
      var c := cs[1..][i];
      assert c == cs[i + 1];
      assert MetaThere(c, files);
      assert Touches(cs[0]) !! Handles(c);
    }
    forall i, j | 0 <= i < j < |cs[1..]| ensures Touches(cs[1..][i]) !! Handles(cs[1..][j]) {
      assert cs[1..][i] == cs[i + 1] && cs[1..][j] == cs[j + 1];
    }
  }

  lemma QuietStep(cs: seq<Cleanup>, i: nat, files: Files, files': Files, t: Tally, r: Option<Tally>)
    requires i < |cs| && Independent(cs[i..], files) && AllGone(cs[..i], files) && Justified(cs[i], files)
    requires Removes(files, files', Touches(cs[i])) && CleanedQuietly(files, files', cs[i], t, r)
    ensures r == Some(t) && AllGone(cs[..i + 1], files') && Independent(cs[i + 1..], files')
  {
    assert cs[i..][0] == cs[i];
    StillIndependent(cs[i..], files, files');
    assert cs[i..][1..] == cs[i + 1..];
    assert cs[..i + 1] == cs[..i] + [cs[i]];
  }

  /** Halfway through the list: the cleanups done are answered for, the others are still justified. */
  ghost predicate Halfway(cs: seq<Cleanup>, i: nat, t0: Tally, rest0: seq<Claim>, t: Tally, rest: seq<Claim>, files0: Files, files: Files) {
    && i <= |cs| && AllJustified(cs, files) && Removes(files0, files, AllTouched(cs))
    && Extends(t0, rest0, t, rest) && Answered(cs[..i], t, rest, files)
  }

  lemma OneMoreCleaned(cs: seq<Cleanup>, i: nat, t0: Tally, rest0: seq<Claim>, t: Tally, rest: seq<Claim>, t': Tally, rest': seq<Claim>,
                       files0: Files, files: Files, files': Files)
    requires i < |cs| && Halfway(cs, i, t0, rest0, t, rest, files0, files)
    requires Cleaned(files, files', cs[i], t, rest, Some(t'), rest')
    ensures Halfway(cs, i + 1, t0, rest0, t', rest', files0, files')
  {
    assert cs[i] in cs;
    StillJustified(cs, files, files');
    StillAnswered(cs[..i], t, rest, t', rest', files, files');
    assert cs[..i + 1] == cs[..i] + [cs[i]];
  }

  /** The whole list: what is left on disk of any of these files is in the totals. */
  method ProcessCleanups(disk: Disk, cs: seq<Cleanup>, t: Tally, ghost rest: seq<Claim>)
    returns (r: Option<Tally>, ghost rest': seq<Claim>)
    requires Keeps(t, rest, disk.files) && AllJustified(cs, disk.files)
    modifies disk
    ensures old(disk.failed) ==> disk.failed
    ensures Removes(old(disk.files), disk.files, AllTouched(cs))
    ensures r.Some? ==> Keeps(r.value, rest', disk.files) && Extends(t, rest, r.value, rest')
    ensures r.Some? ==> Answered(cs, r.value, rest', disk.files)
    ensures !disk.failed && Independent(cs, old(disk.files)) ==> r == Some(t) && AllGone(cs, disk.files)
  {
    ghost var files0, quiet := disk.files, Independent(cs, disk.files);
    var now := t;
    rest' := rest;
    var i := 0;
    while i < |cs|
      invariant 0 <= i <= |cs|
      invariant old(disk.failed) ==> disk.failed
      invariant Keeps(now, rest', disk.files) && Halfway(cs, i, t, rest, now, rest', files0, disk.files)
      invariant !disk.failed && quiet ==> now == t && AllGone(cs[..i], disk.files) && Independent(cs[i..], disk.files)
    {
      ghost var files1, rest1 := disk.files, rest';
      r, rest' := Clean(disk, cs[i], now, rest');
      if !disk.failed && quiet { QuietStep(cs, i, files1, disk.files, t, r); }
      if r.None? {
        assert cs[i] in cs;
        return;
      }
      OneMoreCleaned(cs, i, t, rest, now, rest1, r.value, rest', files0, files1, disk.files);
      now := r.value;
      i := i + 1;
    }
    assert cs[..i] == cs;
    r := Some(now);
  }

  // ---------- adding the shards up ----------

  function Merge(a: DirScan, b: DirScan): DirScan {
    DirScan(a.candidates + b.candidates, a.totalBytes + b.totalBytes, a.entryCount + b.entryCount, a.cleanups + b.cleanups)
  }

  /** Every file in these shards that a scan sees is in a candidate or in a cleanup. */
  ghost predicate CompleteOver(r: DirScan, shards: seq<Shard>, files: Files) {
    && (forall p :: p in files && p.shard in shards && Seen(p, files) ==> Covers(r, p))
    && (forall p: Path :: p.shard in shards && StrayMarker(p, files) ==> Clears(r, p))
  }

  lemma MergeClears(a: DirScan, b: DirScan, p: Path)
    requires Clears(a, p) || Clears(b, p)
    ensures Clears(Merge(a, b), p)
  {
    var m := Merge(a, b);
    if i :| 0 <= i < |a.cleanups| && p in Touches(a.cleanups[i]) {
      assert m.cleanups[i] == a.cleanups[i];
    } else {
      var i :| 0 <= i < |b.cleanups| && p in Touches(b.cleanups[i]);
      assert m.cleanups[|a.cleanups| + i] == b.cleanups[i];
    }
  }

  lemma MergeSound(a: DirScan, b: DirScan, files: Files)
    requires Sound(a, files) && Sound(b, files)
    ensures Sound(Merge(a, b), files)
  {
    SizeSumAppend(a.candidates, b.candidates);
  }

  lemma MergeCovers(a: DirScan, b: DirScan, p: Path)
    requires Covers(a, p) || Covers(b, p)
    ensures Covers(Merge(a, b), p)
  {
    var m := Merge(a, b);
    if i :| 0 <= i < |a.candidates| && p in ClaimOf(a.candidates[i]).paths {
      assert m.candidates[i] == a.candidates[i];
    } else if i :| 0 <= i < |a.cleanups| && p in Handles(a.cleanups[i]) {
      assert m.cleanups[i] == a.cleanups[i];
    } else if i :| 0 <= i < |b.candidates| && p in ClaimOf(b.candidates[i]).paths {
      assert m.candidates[|a.candidates| + i] == b.candidates[i];
    } else {
      var i :| 0 <= i < |b.cleanups| && p in Handles(b.cleanups[i]);
      assert m.cleanups[|a.cleanups| + i] == b.cleanups[i];
    }
  }

  lemma MergeComplete(a: DirScan, b: DirScan, shards: seq<Shard>, d: Shard, files: Files)
    requires CompleteOver(a, shards, files) && Complete(b, d, files)
    ensures CompleteOver(Merge(a, b), shards + [d], files)
  {
    forall p | p in files && p.shard in shards + [d] && Seen(p, files) ensures Covers(Merge(a, b), p) { MergeCovers(a, b, p); }
    forall p: Path | p.shard in shards + [d] && StrayMarker(p, files) ensures Clears(Merge(a, b), p) { MergeClears(a, b, p); }
  }

  lemma DistinctConcat(a: seq<Path>, b: seq<Path>)
    requires Distinct(a) && Distinct(b) && forall p :: p in a ==> p !in b
    ensures Distinct(a + b)
  {
    forall i, j | 0 <= i < j < |a + b| ensures (a + b)[i] != (a + b)[j] {
      if i < |a| <= j { assert a[i] in a && b[j - |a|] in b; }
    }
  }

  lemma MergeSeparate(a: DirScan, b: DirScan, shards: seq<Shard>, d: Shard, files: Files)
    requires SeparateIn(a, shards, files) && SeparateIn(b, [d], files) && d !in shards
    ensures SeparateIn(Merge(a, b), shards + [d], files)
  {
    var m := Merge(a, b);
    assert Metas(m.candidates) == Metas(a.candidates) + Metas(b.candidates);
    assert Sources(m.cleanups) == Sources(a.cleanups) + Sources(b.cleanups);
    DistinctConcat(Metas(a.candidates), Metas(b.candidates));
    DistinctConcat(Sources(a.cleanups), Sources(b.cleanups));
  }

  /** Phases 2 and 3: every shard is scanned and the results are added up (eviction.rs:979-1008). */
  method ScanShards(disk: Disk, dirs: seq<Shard>) returns (r: Option<DirScan>)
    requires disk.Valid() && Distinct(dirs) && forall d :: d in dirs ==> HashShard(d)
    modifies disk`failed
    ensures old(disk.failed) ==> disk.failed
    ensures r.Some? ==> Sound(r.value, disk.files) && CompleteOver(r.value, dirs, disk.files) && SeparateIn(r.value, dirs, disk.files)
    ensures Tidy(disk.files) && !disk.failed ==> r.Some?
  {
    r := Some(DirScan([], 0, 0, []));
    var i := 0;
    while i < |dirs|
      invariant 0 <= i <= |dirs|
      invariant old(disk.failed) ==> disk.failed
      invariant r.Some? && Sound(r.value, disk.files)
      invariant CompleteOver(r.value, dirs[..i], disk.files) && SeparateIn(r.value, dirs[..i], disk.files)
    {
      var dir := ScanShard(disk, dirs[i]);
      if dir.None? { return None; }
      MergeSound(r.value, dir.value, disk.files);
      MergeComplete(r.value, dir.value, dirs[..i], dirs[i], disk.files);
      MergeSeparate(r.value, dir.value, dirs[..i], dirs[i], disk.files);
      assert dirs[..i + 1] == dirs[..i] + [dirs[i]];
      r := Some(Merge(r.value, dir.value));
      i := i + 1;
    }
    assert dirs[..i] == dirs;
  }

  // ---------- the scan result is never below what is on disk ----------

  lemma CandidatesHold(r: DirScan, files: Files)
    requires Sound(r, files)
    ensures Keeps(Tally(r.candidates, r.totalBytes, r.entryCount, 0), [], files)
  {
    var t := Tally(r.candidates, r.totalBytes, r.entryCount, 0);
    assert Claims(t, []) == ClaimsOf(r.candidates);
    forall i | 0 <= i < |r.candidates|
      ensures BytesOf(ClaimOf(r.candidates[i]).paths, files) == r.candidates[i].size
      ensures r.candidates[i].body != r.candidates[i].meta
    {
      NamedApart(r.candidates[i].meta, r.candidates[i].body, r.candidates[i].hash);
      WholeBytes(r.candidates[i], files);
    }
  }

  lemma WholeBytes(c: Candidate, files: Files)
    requires IsEntry(c, files)
    ensures BytesOf(ClaimOf(c).paths, files) == c.size
  {
    NamedApart(c.meta, c.body, c.hash);
    BytesTwo(c.body, c.meta, files);
  }

  /** What is on disk after the cleanups is in the total, except for what the scan did not see. */
  lemma NeverUndercounted(scan: DirScan, files0: Files, t: Tally, rest: seq<Claim>, files: Files, dirs: seq<Shard>)
    requires CompleteOver(scan, dirs, files0) && Shrinks(files0, files)
    requires forall p :: p in files0 && EntryFile(p) ==> p.shard in dirs
    requires Extends(Tally(scan.candidates, scan.totalBytes, scan.entryCount, 0), [], t, rest)
    requires Keeps(t, rest, files) && Answered(scan.cleanups, t, rest, files)
    ensures forall p :: p in EntryFiles(files) && p !in UnseenFiles(files0) ==> InClaims(p, Claims(t, rest))
    ensures EntryBytes(files) <= t.totalBytes + BytesOf(UnseenFiles(files0), files)
  {
    forall p | p in EntryFiles(files) && p !in UnseenFiles(files0) ensures InClaims(p, Claims(t, rest)) {
      assert Seen(p, files0);
      if i :| 0 <= i < |scan.candidates| && p in ClaimOf(scan.candidates[i]).paths {
        assert Claims(t, rest)[i] == ClaimOf(t.candidates[i]);
      } else {
        var i :| 0 <= i < |scan.cleanups| && p in Handles(scan.cleanups[i]);
      }
    }
    AmountAppend(ClaimsOf(t.candidates), rest);
    ClaimedBut(UnseenFiles(files0), Claims(t, rest), files);
  }

  /** Claims that answer for all files but some bound the bytes of all files but those. */
  lemma ClaimedBut(unseen: set<Path>, claims: seq<Claim>, files: Files)
    requires Holds(claims, files)
    requires forall p :: p in EntryFiles(files) && p !in unseen ==> InClaims(p, claims)
    ensures EntryBytes(files) <= AmountSum(claims) + BytesOf(unseen, files)
  {
    var all := EntryFiles(files);
    BytesSplit(all, unseen, files);
    BytesMonotone(all * unseen, unseen, files, files);
    ClaimsBound(all - unseen, claims, files);
  }

  // ---------- a scan without failures is exact ----------

  /** On a tidy disk nothing is unseen. */
  lemma TidyIsSeen(files: Files)
    requires Tidy(files)
    ensures UnseenFiles(files) == {}
  {
    forall p | p in files && EntryFile(p) ensures Seen(p, files) {
      if IsBody(p) {
        var stem: string :| Plain(stem) &&
          (p == InShard(p.shard, stem, BODY) || p == InShard(p.shard, stem, META) || p == InShard(p.shard, stem, POISON));
        OneSuffix(p.name.text);
        TrimOnce(stem, META);
        TrimOnce(stem, POISON);
        SingleSuffixIsSeen(p.shard, stem, files);
      }
    }
  }

  /** Whatever else is on disk, no scan overlooks a file of a key. */
  lemma KeyFilesAreSeen(d: Digest, files: Files)
    ensures BodyOf(d) !in UnseenFiles(files) && MetaOf(d) !in UnseenFiles(files)
  {
    KeyFiles(d);
    HashIsStem(d);
    SingleSuffixIsSeen(ShardOf(d), HashHex(d), files);
  }

  /** Every file of every key is in a claim. */
  ghost predicate KeysClaimed(files: Files, claims: seq<Claim>) {
    && (forall d: Digest :: BodyOf(d) in files ==> InClaims(BodyOf(d), claims))
    && (forall d: Digest :: MetaOf(d) in files ==> InClaims(MetaOf(d), claims))
  }

  lemma ClaimedKeys(unseen: Files, files: Files, claims: seq<Claim>)
    requires forall p :: p in EntryFiles(files) && p !in UnseenFiles(unseen) ==> InClaims(p, claims)
    ensures KeysClaimed(files, claims)
  {
    forall d: Digest | BodyOf(d) in files ensures InClaims(BodyOf(d), claims) {
      KeyFiles(d);
      KeyFilesAreSeen(d, unseen);
    }
    forall d: Digest | MetaOf(d) in files ensures InClaims(MetaOf(d), claims) {
      KeyFiles(d);
      KeyFilesAreSeen(d, unseen);
    }
  }

  /** The stem an item belongs to, told by its source. */
  predicate OfStem(c: Cleanup, d: Shard, stem: string) {
    match c
    case OrphanBody(body, hash) => hash == stem && body == InShard(d, stem, BODY)
    case OrphanPoison(_, _) => false
    case CorruptEntry(p) => PathsOf(p, d, stem)
    case MalformedHash(p) => PathsOf(p, d, stem)
    case MissingBody(p) => PathsOf(p, d, stem)
  }

  predicate PathsOf(p: EntryPaths, d: Shard, stem: string) {
    p == EntryPaths(InShard(d, stem, META), InShard(d, stem, BODY), InShard(d, stem, POISON), stem)
  }

  /** On a tidy disk a file that a cleanup handles tells its stem. */
  lemma HandledStem(c: Cleanup, files: Files, q: Path) returns (stem: string)
    requires Justified(c, files) && TidyPath(Source(c)) && q in Handles(c)
    ensures OfStem(c, Source(c).shard, stem) && q.shard == Source(c).shard
    ensures q == InShard(q.shard, stem, BODY) || q == InShard(q.shard, stem, META)
  {
    StemOf(Source(c));
    match c {
      case OrphanBody(_, hash) => stem := hash;
      case CorruptEntry(p) => stem := p.hash;
      case MalformedHash(p) => stem := p.hash;
      case MissingBody(p) => stem := p.hash;
    }
  }

  lemma SameStem(d: Shard, stem: string, stem': string, q: Path)
    requires q == InShard(d, stem, BODY) || q == InShard(d, stem, META)
    requires q == InShard(d, stem', BODY) || q == InShard(d, stem', META)
    ensures stem == stem'
  {
    var n := q.name.text;
    TrimOnce(stem, BODY);
    TrimOnce(stem, META);
    TrimOnce(stem', BODY);
    TrimOnce(stem', META);
    OneSuffix(n);
    assert q == InShard(d, stem, BODY) ==> n[..|n| - |BODY|] == stem;
    assert q == InShard(d, stem', BODY) ==> n[..|n| - |BODY|] == stem';
    assert q == InShard(d, stem, META) ==> n[..|n| - |META|] == stem;
    assert q == InShard(d, stem', META) ==> n[..|n| - |META|] == stem';
  }

  lemma MarkersApart(c: Cleanup, files: Files, q: Path, stem: string)
    requires Justified(c, files) && q in Touches(c)
    requires q == InShard(q.shard, stem, BODY) || q == InShard(q.shard, stem, META)
    ensures q in Handles(c)
  {
    TrimOnce(stem, BODY);
    TrimOnce(stem, META);
    OneSuffix(q.name.text);
    match c {
      case OrphanBody(_, _) =>
      case OrphanPoison(_, _) =>
      case CorruptEntry(p) => TrimOnce(p.hash, POISON);
      case MalformedHash(p) => TrimOnce(p.hash, POISON);
      case MissingBody(p) => TrimOnce(p.hash, POISON);
    }
  }

  /** Two cleanups for one stem have one source. */
  lemma OneSourcePerStem(a: Cleanup, b: Cleanup, files: Files, d: Shard, stem: string)
    requires OfStem(a, d, stem) && OfStem(b, d, stem)
    requires Justified(a, files) && Justified(b, files) && Source(a) in files && Source(b) in files
    ensures Source(a) == Source(b)
  {
  }

  lemma CleanupsIndependent(scan: DirScan, dirs: seq<Shard>, files: Files)
    requires Sound(scan, files) && SeparateIn(scan, dirs, files) && Tidy(files)
    requires forall d :: d in dirs ==> HashShard(d)
    ensures Independent(scan.cleanups, files)
  {
    var cs := scan.cleanups;
    forall i | 0 <= i < |cs| ensures Source(cs[i]) in files && TidyPath(Source(cs[i])) && MetaThere(cs[i], files) {
      assert Sources(cs)[i] in Sources(cs);
    }
    forall i, j | 0 <= i < j < |cs| ensures Touches(cs[i]) !! Handles(cs[j]) {
      assert Sources(cs)[i] != Sources(cs)[j];
      forall q | q in Touches(cs[i]) && q in Handles(cs[j]) ensures false {
        var stem := HandledStem(cs[j], files, q);
        MarkersApart(cs[i], files, q, stem);
        var stem' := HandledStem(cs[i], files, q);
        SameStem(q.shard, stem, stem', q);
        OneSourcePerStem(cs[i], cs[j], files, q.shard, stem);
      }
    }
  }

  /** A cleanup and a candidate never have the same stem. */
  lemma NoCleanupForCandidate(c: Cleanup, k: Candidate, files: Files)
    requires IsEntry(k, files) && Justified(c, files) && Source(c) in files
    requires k.meta == InShard(k.meta.shard, k.hash, META)
    ensures !OfStem(c, k.meta.shard, k.hash)
  {
  }

  lemma SharedFileSharedStem(c: Cleanup, d: Shard, stem: string, files: Files, q: Path)
    requires Justified(c, files) && TidyPath(Source(c)) && q in Touches(c)
    requires q == InShard(d, stem, BODY) || q == InShard(d, stem, META)
    ensures OfStem(c, d, stem)
  {
    MarkersApart(c, files, q, stem);
    var stem' := HandledStem(c, files, q);
    SameStem(d, stem', stem, q);
  }

  lemma OtherStemsApart(c: Cleanup, d: Shard, stem: string, files: Files)
    requires Justified(c, files) && TidyPath(Source(c)) && !OfStem(c, d, stem)
    ensures Touches(c) !! {InShard(d, stem, BODY), InShard(d, stem, META)}
  {
    forall q | q in Touches(c) ensures q !in {InShard(d, stem, BODY), InShard(d, stem, META)} {
      if q == InShard(d, stem, BODY) || q == InShard(d, stem, META) {
        SharedFileSharedStem(c, d, stem, files, q);
      }
    }
  }

  lemma CandidateNames(k: Candidate, files: Files)
    requires IsEntry(k, files) && TidyPath(k.meta)
    ensures k.meta == InShard(k.meta.shard, k.hash, META) && k.body == InShard(k.meta.shard, k.hash, BODY)
  {
    StemOf(k.meta);
  }

  /** No cleanup touches a file of a candidate. */
  lemma CandidatesApart(c: Cleanup, k: Candidate, files: Files)
    requires IsEntry(k, files) && Justified(c, files) && TidyPath(k.meta) && TidyPath(Source(c)) && Source(c) in files
    ensures Touches(c) !! ClaimOf(k).paths
  {
    CandidateNames(k, files);
    NoCleanupForCandidate(c, k, files);
    OtherStemsApart(c, k.meta.shard, k.hash, files);
  }

  lemma PairsDisjoint(d: Shard, stem: string, d': Shard, stem': string)
    requires InShard(d, stem, META) != InShard(d', stem', META)
    ensures {InShard(d, stem, BODY), InShard(d, stem, META)} !! {InShard(d', stem', BODY), InShard(d', stem', META)}
  {
    var mine, others := {InShard(d, stem, BODY), InShard(d, stem, META)}, {InShard(d', stem', BODY), InShard(d', stem', META)};
    forall q | q in mine && q in others ensures false {
      SameStem(d, stem, stem', q);
    }
  }

  lemma CandidatesDisjoint(a: Candidate, b: Candidate, files: Files)
    requires IsEntry(a, files) && IsEntry(b, files) && TidyPath(a.meta) && TidyPath(b.meta) && a.meta != b.meta
    ensures ClaimOf(a).paths !! ClaimOf(b).paths
  {
    CandidateNames(a, files);
    CandidateNames(b, files);
    PairsDisjoint(a.meta.shard, a.hash, b.meta.shard, b.hash);
  }

  /** `ScanResult`, and what the totals say. */
  datatype Scan = Scan(candidates: seq<Candidate>, totalBytes: nat, failures: nat)

  /** The candidates are the entries on disk, each once. */
  ghost predicate Lists(candidates: seq<Candidate>, files: Files) {
    && (forall i :: 0 <= i < |candidates| ==> Listed(candidates[i], files))
    && (forall p :: p in EntryFiles(files) ==> InClaims(p, ClaimsOf(candidates)))
    && Distinct(Metas(candidates))
  }

  ghost predicate Listed(c: Candidate, files: Files) {
    IsEntry(c, files) && TidyPath(c.meta) && ClaimOf(c).paths <= EntryFiles(files)
  }

  /** And the total is their size. */
  ghost predicate ExactScan(candidates: seq<Candidate>, totalBytes: nat, files: Files) {
    Lists(candidates, files) && totalBytes == SizeSum(candidates) == EntryBytes(files)
  }

  /** After a scan and its cleanups, with no failure in between. */
  ghost predicate QuietScan(scan: DirScan, dirs: seq<Shard>, files0: Files, files: Files) {
    && Sound(scan, files0) && SeparateIn(scan, dirs, files0) && CompleteOver(scan, dirs, files0) && Tidy(files0)
    && (forall d :: d in dirs ==> HashShard(d))
    && (forall p :: p in files0 && EntryFile(p) ==> p.shard in dirs)
    && Removes(files0, files, AllTouched(scan.cleanups)) && AllGone(scan.cleanups, files)
  }

  lemma CandidatesAreExact(scan: DirScan, dirs: seq<Shard>, files0: Files, files: Files)
    requires QuietScan(scan, dirs, files0, files)
    ensures Exact(ClaimsOf(scan.candidates), files)
    ensures forall i :: 0 <= i < |scan.candidates| ==> IsEntry(scan.candidates[i], files)
    ensures forall i :: 0 <= i < |scan.candidates| ==> ClaimsOf(scan.candidates)[i].paths <= EntryFiles(files)
  {
    var cs := scan.candidates;
    forall i | 0 <= i < |cs|
      ensures IsEntry(cs[i], files) && BytesOf(ClaimOf(cs[i]).paths, files) == cs[i].size && ClaimOf(cs[i]).paths <= EntryFiles(files)
    {
      CandidateStays(scan, dirs, files0, files, i);
      WholeBytes(cs[i], files);
    }
    forall i, j | 0 <= i < j < |cs| ensures ClaimOf(cs[i]).paths !! ClaimOf(cs[j]).paths {
      assert Metas(cs)[i] != Metas(cs)[j];
      assert Metas(cs)[i] in Metas(cs) && Metas(cs)[j] in Metas(cs);
      CandidatesDisjoint(cs[i], cs[j], files0);
    }
  }

  lemma CandidatesAreAll(scan: DirScan, dirs: seq<Shard>, files0: Files, files: Files)
    requires QuietScan(scan, dirs, files0, files)
    ensures forall p :: p in EntryFiles(files) ==> InClaims(p, ClaimsOf(scan.candidates))
  {
    TidyIsSeen(files0);
    forall p | p in EntryFiles(files) ensures InClaims(p, ClaimsOf(scan.candidates)) {
      assert p !in UnseenFiles(files0);
      assert Covers(scan, p);
      if i :| 0 <= i < |scan.candidates| && p in ClaimOf(scan.candidates[i]).paths {
        assert p in ClaimsOf(scan.candidates)[i].paths;
      }
    }
  }

  /** The candidates' files are what is on disk, and nothing is counted twice. */
  lemma QuietIsExact(scan: DirScan, dirs: seq<Shard>, files0: Files, files: Files)
    requires QuietScan(scan, dirs, files0, files)
    ensures ExactScan(scan.candidates, scan.totalBytes, files)
  {
    CandidatesAreExact(scan, dirs, files0, files);
    CandidatesAreAll(scan, dirs, files0, files);
    ExactSum(EntryFiles(files), ClaimsOf(scan.candidates), files);
    forall i | 0 <= i < |scan.candidates| ensures Listed(scan.candidates[i], files) {
      assert Metas(scan.candidates)[i] in Metas(scan.candidates);
      assert ClaimsOf(scan.candidates)[i].paths <= EntryFiles(files);
    }
  }

  lemma CandidateStays(scan: DirScan, dirs: seq<Shard>, files0: Files, files: Files, i: nat)
    requires Sound(scan, files0) && SeparateIn(scan, dirs, files0) && Tidy(files0)
    requires forall d :: d in dirs ==> HashShard(d)
    requires Removes(files0, files, AllTouched(scan.cleanups)) && i < |scan.candidates|
    ensures IsEntry(scan.candidates[i], files) && ClaimOf(scan.candidates[i]).paths <= EntryFiles(files)
  {
    var k := scan.candidates[i];
    assert Metas(scan.candidates)[i] in Metas(scan.candidates);
    StemOf(k.meta);
    HashesArePlain(k.hash);
    forall c | c in scan.cleanups ensures Touches(c) !! ClaimOf(k).paths {
      var j :| 0 <= j < |scan.cleanups| && scan.cleanups[j] == c;
      assert Sources(scan.cleanups)[j] in Sources(scan.cleanups);
      CandidatesApart(c, k, files0);
    }
  }

  /** Whole entries with metadata that can be read, under a name the scans accept. */
  predicate WholeEntry(meta: Path, files: Files) {
    && HashShard(meta.shard) && IsMeta(meta) && HashStem(TrimEnd(meta.name.text, META))
    && meta in files && files[meta].parsed.Some? && BodyFor(meta) in files
  }

  ghost predicate KeepsWhole(files: Files, files': Files) {
    forall meta :: WholeEntry(meta, files) ==> meta in files' && BodyFor(meta) in files'
  }

  /** A cleanup never handles the metadata of a whole entry. */
  lemma NoCleanupForWhole(c: Cleanup, files: Files, meta: Path)
    requires Justified(c, files) && TidyPath(Source(c)) && Source(c) in files && WholeEntry(meta, files)
    ensures meta !in Handles(c)
  {
    BodyForIsBody(meta);
    OneSuffix(meta.name.text);
    if meta in Handles(c) {
      var stem := HandledStem(c, files, meta);
      TrimOnce(stem, BODY);
    }
  }

  lemma NoneForWhole(scan: DirScan, dirs: seq<Shard>, files: Files, meta: Path)
    requires Sound(scan, files) && SeparateIn(scan, dirs, files) && Tidy(files) && WholeEntry(meta, files)
    requires forall d :: d in dirs ==> HashShard(d)
    ensures forall i :: 0 <= i < |scan.cleanups| ==> meta !in Handles(scan.cleanups[i])
  {
    forall i | 0 <= i < |scan.cleanups| ensures meta !in Handles(scan.cleanups[i]) {
      assert Sources(scan.cleanups)[i] in Sources(scan.cleanups);
      NoCleanupForWhole(scan.cleanups[i], files, meta);
    }
  }

  lemma WholeIsCandidate(scan: DirScan, dirs: seq<Shard>, files0: Files, files: Files, meta: Path) returns (i: nat)
    requires QuietScan(scan, dirs, files0, files) && WholeEntry(meta, files0)
    ensures i < |scan.candidates| && scan.candidates[i].meta == meta
  {
    assert Seen(meta, files0) && Covers(scan, meta);
    NoneForWhole(scan, dirs, files0, meta);
    i :| 0 <= i < |scan.candidates| && meta in ClaimOf(scan.candidates[i]).paths;
    MetaOfCandidate(scan.candidates[i], files0, meta);
  }

  lemma MetaOfCandidate(c: Candidate, files: Files, meta: Path)
    requires IsEntry(c, files) && IsMeta(meta) && meta in ClaimOf(c).paths
    ensures c.meta == meta
  {
    BodyForIsBody(meta);
    TrimOnce(c.hash, BODY);
  }

  /** No whole entry is lost to the cleanups. */
  lemma WholeStays(scan: DirScan, dirs: seq<Shard>, files0: Files, files: Files)
    requires QuietScan(scan, dirs, files0, files)
    ensures KeepsWhole(files0, files)
  {
    forall meta | WholeEntry(meta, files0) ensures meta in files && BodyFor(meta) in files {
      var i := WholeIsCandidate(scan, dirs, files0, files, meta);
      CandidateStays(scan, dirs, files0, files, i);
    }
  }

  // ---------- markers ----------

  /** No key's marker outlives its metadata, and a whole entry keeps its marker. */
  ghost predicate MarkersFollow(files: Files, files': Files) {
    && (forall key: Digest :: PoisonOf(key) in files' ==> MetaOf(key) in files')
    && (forall key: Digest :: WholeEntry(MetaOf(key), files) && PoisonOf(key) in files ==> PoisonOf(key) in files')
  }

  /** A cleanup that takes a key's metadata takes its marker. */
  lemma MarkerGoesToo(c: Cleanup, files: Files, key: Digest)
    requires Justified(c, files) && TidyPath(Source(c)) && MetaOf(key) in Touches(c)
    ensures PoisonOf(key) in Touches(c)
  {
    MarkersApart(c, files, MetaOf(key), HashHex(key));
    var stem := HandledStem(c, files, MetaOf(key));
    SameStem(ShardOf(key), stem, HashHex(key), MetaOf(key));
    NotAnOrphan(c, files, key);
  }

  lemma NotAnOrphan(c: Cleanup, files: Files, key: Digest)
    requires Justified(c, files) && MetaOf(key) in Handles(c)
    ensures !c.OrphanBody? && !c.OrphanPoison?
  {
    KeyFiles(key);
  }

  /** And one that takes the marker has found the metadata missing or takes it too. */
  lemma MarkerGoesWithMeta(c: Cleanup, files: Files, key: Digest)
    requires Justified(c, files) && TidyPath(Source(c)) && PoisonOf(key) in Touches(c)
    ensures MetaOf(key) !in files || MetaOf(key) in Handles(c)
  {
    match c {
      case OrphanBody(body, _) => MarkerIsNoBody(body, key);
      case OrphanPoison(poison, _) => MarkerBeside(poison, key);
      case CorruptEntry(p) => EntryPoison(p, key);
      case MalformedHash(p) => EntryPoison(p, key);
      case MissingBody(p) => EntryPoison(p, key);
    }
  }

  lemma MarkerIsNoBody(body: Path, key: Digest)
    requires IsBody(body)
    ensures body != PoisonOf(key)
  {
    KeyFiles(key);
  }

  lemma MarkerBeside(poison: Path, key: Digest)
    requires poison == PoisonOf(key)
    ensures IsPoison(poison) && MetaForPoison(poison) == MetaOf(key)
  {
    KeyFiles(key);
  }

  lemma EntryPoison(p: EntryPaths, key: Digest)
    requires NamedPaths(p) && TidyPath(p.meta) && PoisonOf(key) in {p.body, p.meta, p.poison}
    ensures p.meta == MetaOf(key)
  {
    StemOf(p.meta);
    SamePoison(p, key);
  }

  lemma SamePoison(p: EntryPaths, key: Digest)
    requires NamedPaths(p) && p.meta == InShard(p.meta.shard, p.hash, META)
    ensures PoisonOf(key) in {p.body, p.meta, p.poison} ==> p.meta == MetaOf(key)
  {
    KeyFiles(key);
    TrimOnce(p.hash, BODY);
    TrimOnce(p.hash, META);
    if PoisonOf(key) == p.poison {
      var n := PoisonOf(key).name.text;
      assert n[..|n| - |POISON|] == HashHex(key) && n[..|n| - |POISON|] == p.hash;
    }
  }

  lemma StrayIsCleared(scan: DirScan, dirs: seq<Shard>, files0: Files, files: Files, key: Digest)
    requires QuietScan(scan, dirs, files0, files) && ShardOf(key) in dirs && PoisonOf(key) in files0 && MetaOf(key) !in files0
    ensures PoisonOf(key) !in files
  {
    KeyFiles(key);
    assert StrayMarker(PoisonOf(key), files0);
    var i :| 0 <= i < |scan.cleanups| && PoisonOf(key) in Touches(scan.cleanups[i]);
  }

  lemma MarkerLeaves(scan: DirScan, dirs: seq<Shard>, files0: Files, files: Files, key: Digest)
    requires QuietScan(scan, dirs, files0, files) && MetaOf(key) in files0 && MetaOf(key) !in files
    ensures PoisonOf(key) !in files
  {
    assert MetaOf(key) in AllTouched(scan.cleanups);
    var c :| c in scan.cleanups && MetaOf(key) in Touches(c);
    var i :| 0 <= i < |scan.cleanups| && scan.cleanups[i] == c;
    assert Sources(scan.cleanups)[i] in Sources(scan.cleanups);
    MarkerGoesToo(c, files0, key);
  }

  /** The scan has been where the key's files are. */
  ghost predicate IsDir(dirs: seq<Shard>, key: Digest, files: Files) {
    PoisonOf(key) in files ==> ShardOf(key) in dirs
  }

  lemma WholeKeepsMarker(scan: DirScan, dirs: seq<Shard>, files0: Files, files: Files, key: Digest)
    requires QuietScan(scan, dirs, files0, files) && WholeEntry(MetaOf(key), files0) && PoisonOf(key) in files0
    ensures PoisonOf(key) in files
  {
    if PoisonOf(key) !in files {
      assert PoisonOf(key) in AllTouched(scan.cleanups);
      var c :| c in scan.cleanups && PoisonOf(key) in Touches(c);
      var i :| 0 <= i < |scan.cleanups| && scan.cleanups[i] == c;
      assert Sources(scan.cleanups)[i] in Sources(scan.cleanups);
      MarkerGoesWithMeta(c, files0, key);
      NoCleanupForWhole(c, files0, MetaOf(key));
    }
  }

  lemma QuietMarkers(scan: DirScan, dirs: seq<Shard>, files0: Files, files: Files)
    requires QuietScan(scan, dirs, files0, files) && forall key: Digest :: IsDir(dirs, key, files0)
    ensures MarkersFollow(files0, files)
  {
    forall key: Digest | PoisonOf(key) in files ensures MetaOf(key) in files {
      if MetaOf(key) !in files {
        assert IsDir(dirs, key, files0);
        if MetaOf(key) in files0 { MarkerLeaves(scan, dirs, files0, files, key); } else { StrayIsCleared(scan, dirs, files0, files, key); }
      }
    }
    forall key: Digest | WholeEntry(MetaOf(key), files0) && PoisonOf(key) in files0 ensures PoisonOf(key) in files {
      WholeKeepsMarker(scan, dirs, files0, files, key);
    }
  }

  /** Phases 2 to 4. */
  method ReconcileShards(disk: Disk, dirs: seq<Shard>) returns (r: Option<Tally>, ghost rest: seq<Claim>)
    requires disk.Valid() && Distinct(dirs) && forall d :: d in dirs ==> HashShard(d)
    requires forall p :: p in disk.files && EntryFile(p) ==> p.shard in dirs
    requires forall key: Digest :: IsDir(dirs, key, disk.files)
    modifies disk
    ensures old(disk.failed) ==> disk.failed
    ensures Shrinks(old(disk.files), disk.files)
    ensures r.Some? ==> Keeps(r.value, rest, disk.files)
    ensures r.Some? ==> EntryBytes(disk.files) <= r.value.totalBytes + BytesOf(UnseenFiles(old(disk.files)), disk.files)
    ensures r.Some? ==> forall p :: p in EntryFiles(disk.files) && p !in UnseenFiles(old(disk.files)) ==> InClaims(p, Claims(r.value, rest))
    ensures !disk.failed && Tidy(old(disk.files)) ==>
              r.Some? && ExactScan(r.value.candidates, r.value.totalBytes, disk.files)
              && KeepsWhole(old(disk.files), disk.files) && MarkersFollow(old(disk.files), disk.files)
  {
    ghost var files0 := disk.files;
    rest := [];
    var scan := ScanShards(disk, dirs);
    if scan.None? { return None, rest; }
    CandidatesHold(scan.value, disk.files);
    var start := Tally(scan.value.candidates, scan.value.totalBytes, scan.value.entryCount, 0);
    r, rest := ProcessCleanups(disk, scan.value.cleanups, start, rest);
    if Tidy(files0) && !disk.failed {
      CleanupsIndependent(scan.value, dirs, files0);
      QuietIsExact(scan.value, dirs, files0, disk.files);
      WholeStays(scan.value, dirs, files0, disk.files);
      QuietMarkers(scan.value, dirs, files0, disk.files);
    }
    if r.Some? { NeverUndercounted(scan.value, files0, r.value, rest, disk.files, dirs); }
  }

  /**
    `collect_candidates`. An error leaves the statistics alone. Otherwise they are overwritten with
    a total that is at least what is on disk and is the candidates plus the unreclaimed bytes; and
    when nothing failed on a tidy disk, the total is exactly what is on disk and the candidates are
    exactly the entries there, so drift from earlier does not last.
  */
  method CollectCandidates(disk: Disk, stats: CacheStats) returns (r: Option<Scan>, ghost rest: seq<Claim>)
    requires disk.Valid()
    modifies disk, stats
    ensures disk.Valid() && Shrinks(old(disk.files), disk.files) && (old(disk.failed) ==> disk.failed)
    ensures stats.evictionCount == old(stats.evictionCount)
    ensures r.None? ==> stats.totalBytes == old(stats.totalBytes) && stats.entryCount == old(stats.entryCount)
    ensures r.Some? ==> stats.totalBytes == r.value.totalBytes && stats.entryCount == |r.value.candidates|
    ensures r.Some? ==> EntryBytes(disk.files) <= r.value.totalBytes + BytesOf(UnseenFiles(old(disk.files)), disk.files)
    ensures r.Some? ==> r.value.totalBytes == SizeSum(r.value.candidates) + AmountSum(rest)
    ensures r.Some? ==> Holds(ClaimsOf(r.value.candidates) + rest, disk.files) && TwoFiles(r.value.candidates)
    ensures r.Some? ==> forall p :: p in EntryFiles(disk.files) && p !in UnseenFiles(old(disk.files)) ==>
                          InClaims(p, ClaimsOf(r.value.candidates) + rest)
    ensures r.Some? ==> KeysClaimed(disk.files, ClaimsOf(r.value.candidates) + rest)
    ensures !disk.failed && Tidy(old(disk.files)) ==>
              r.Some? && ExactScan(r.value.candidates, r.value.totalBytes, disk.files)
              && KeepsWhole(old(disk.files), disk.files) && MarkersFollow(old(disk.files), disk.files)
  {
    ghost var files0 := disk.files;
    rest := [];
    var walk := CollectHashDirs(disk, Strict);
    if walk.None? { return None, rest; }
    var dirs := walk.value.dirs;
    var t := Some(Tally([], 0, 0, 0));
    if dirs != [] {
      t, rest := ReconcileShards(disk, dirs);
    } else {
      assert EntryFiles(disk.files) == {};
    }
    if t.None? { return None, rest; }
    stats.totalBytes, stats.entryCount := t.value.totalBytes, t.value.entryCount;
    r := Some(Scan(t.value.candidates, t.value.totalBytes, t.value.failures));
    ClaimedKeys(files0, disk.files, ClaimsOf(t.value.candidates) + rest);
  }
}
