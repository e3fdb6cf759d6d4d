/**
  The scans of the disk against the scan events of the protocol: when the files of the shards are
  those of the protocol's keys, an undisturbed scan leaves the files of the keys after the event and
  comes up with the statistics the event has.
*/
module ProtocolScans {
  import opened Common
  import opened Filesystem
  import opened KeyHash
  import opened Layout
  import opened Accounting
  import opened EvictionScan
  import opened Reconciliation
  import StartupScanner
  import StartupTotals
  import P = Protocol

  /** The files of one key, its marker included. */
  predicate StoredAt(at: Digest, f: P.Files, files: Files) {
    && (PoisonOf(at) in files <==> f.marker)
    && PairStored(at, f.live, files)
  }

  predicate PairStored(at: Digest, live: P.Pair, files: Files) {
    && (if live.body.Some? then BodyOf(at) in files && files[BodyOf(at)].size == live.body.value.size else BodyOf(at) !in files)
    && (if live.meta.Some?
        then MetaOf(at) in files && files[MetaOf(at)] == File(live.meta.value.size, Some(Header(live.meta.value.id, live.meta.value.accessed)))
        else MetaOf(at) !in files)
  }

  function KeyPaths(at: Digest, live: P.Pair): set<Path> {
    (if live.body.Some? then {BodyOf(at)} else {}) + (if live.meta.Some? then {MetaOf(at)} else {})
  }

  /** The shards hold the keys' files and no other body or metadata file. */
  ghost predicate Stored(places: seq<Digest>, keys: seq<P.KeyState>, files: Files) {
    && |places| == |keys| && Distinct(places)
    && (forall k :: 0 <= k < |keys| ==> StoredAt(places[k], keys[k].files, files))
    && (forall p :: p in EntryFiles(files) ==> exists k :: 0 <= k < |places| && (p == BodyOf(places[k]) || p == MetaOf(places[k])))
  }

  // ---------- adding up the keys ----------

  lemma PlacesApart(a: Digest, b: Digest)
    requires a != b
    ensures {BodyOf(a), MetaOf(a)} !! {BodyOf(b), MetaOf(b)}
  {
    var mine, others := {BodyOf(a), MetaOf(a)}, {BodyOf(b), MetaOf(b)};
    forall p | p in mine && p in others ensures false {
      SameStem(p.shard, HashHex(a), HashHex(b), p);
      HexTells(a, b);
    }
  }

  function ClaimsOfKeys(places: seq<Digest>, keys: seq<P.KeyState>): (r: seq<Claim>)
    requires |places| == |keys|
    ensures |r| == |keys|
    ensures forall k :: 0 <= k < |keys| ==>
              r[k] == Claim(KeyPaths(places[k], keys[k].files.live), P.SizeOf(keys[k].files.live).bytes)
  {
    seq(|keys|, k requires 0 <= k < |keys| => Claim(KeyPaths(places[k], keys[k].files.live), P.SizeOf(keys[k].files.live).bytes))
  }

  lemma {:induction false} KeysAmount(places: seq<Digest>, keys: seq<P.KeyState>)
    requires |places| == |keys|
    ensures AmountSum(ClaimsOfKeys(places, keys)) == P.OnDiskTotal(keys).bytes
  {
    if keys != [] {
      assert ClaimsOfKeys(places, keys)[1..] == ClaimsOfKeys(places[1..], keys[1..]);
      KeysAmount(places[1..], keys[1..]);
    }
  }

  lemma KeyPathsAreEntries(at: Digest, live: P.Pair, files: Files)
    requires PairStored(at, live, files)
    ensures KeyPaths(at, live) <= EntryFiles(files) && BodyOf(at) != MetaOf(at)
  {
    KeyFiles(at);
  }

  lemma KeyBytes(at: Digest, live: P.Pair, files: Files)
    requires PairStored(at, live, files)
    ensures BytesOf(KeyPaths(at, live), files) == P.SizeOf(live).bytes && KeyPaths(at, live) <= EntryFiles(files)
  {
    KeyPathsAreEntries(at, live, files);
    if live.body.Some? && live.meta.Some? {
      assert KeyPaths(at, live) == {BodyOf(at), MetaOf(at)};
      BytesTwo(BodyOf(at), MetaOf(at), files);
    } else if live.body.Some? {
      assert KeyPaths(at, live) == {BodyOf(at)};
      BytesOne(BodyOf(at), files);
    } else if live.meta.Some? {
      assert KeyPaths(at, live) == {MetaOf(at)};
      BytesOne(MetaOf(at), files);
    } else {
      assert KeyPaths(at, live) == {};
    }
  }

  lemma StoredBytes(places: seq<Digest>, keys: seq<P.KeyState>, files: Files)
    requires Stored(places, keys, files)
    ensures EntryBytes(files) == P.OnDiskTotal(keys).bytes
  {
    var claims := ClaimsOfKeys(places, keys);
    forall k | 0 <= k < |claims|
      ensures BytesOf(claims[k].paths, files) == claims[k].amount && claims[k].paths <= EntryFiles(files)
    {
      KeyBytes(places[k], keys[k].files.live, files);
    }
    forall j, k | 0 <= j < k < |claims| ensures claims[j].paths !! claims[k].paths {
      PlacesApart(places[j], places[k]);
    }
    forall p | p in EntryFiles(files) ensures InClaims(p, claims) {
      var k :| 0 <= k < |places| && (p == BodyOf(places[k]) || p == MetaOf(places[k]));
      assert StoredAt(places[k], keys[k].files, files);
      assert p in claims[k].paths;
    }
    ExactSum(EntryFiles(files), claims, files);
    KeysAmount(places, keys);
  }

  // ---------- counting entries ----------

  function BodiesAt(places: seq<Digest>, keys: seq<P.KeyState>): set<Path>
    requires |places| == |keys|
  {
    set k | 0 <= k < |keys| && keys[k].files.live.body.Some? :: BodyOf(places[k])
  }

  lemma {:induction false} BodiesCount(places: seq<Digest>, keys: seq<P.KeyState>)
    requires |places| == |keys| && Distinct(places) && forall k :: 0 <= k < |keys| ==> P.Whole(keys[k].files.live)
    ensures |BodiesAt(places, keys)| == P.OnDiskTotal(keys).entries
  {
    if keys != [] {
      var mine := if keys[0].files.live.body.Some? then {BodyOf(places[0])} else {};
      var rest := BodiesAt(places[1..], keys[1..]);
      forall p | p in rest ensures p !in mine {
        var k :| 0 <= k < |keys[1..]| && keys[1..][k].files.live.body.Some? && p == BodyOf(places[1..][k]);
        assert places[0] != places[k + 1];
        PlacesApart(places[0], places[k + 1]);
      }
      forall p | p in BodiesAt(places, keys) ensures p in mine + rest {
        var k :| 0 <= k < |keys| && keys[k].files.live.body.Some? && p == BodyOf(places[k]);
        if k > 0 { assert keys[1..][k - 1] == keys[k] && places[1..][k - 1] == places[k]; }
      }
      forall p | p in rest ensures p in BodiesAt(places, keys) {
        var k :| 0 <= k < |keys[1..]| && keys[1..][k].files.live.body.Some? && p == BodyOf(places[1..][k]);
        assert keys[k + 1] == keys[1..][k] && places[k + 1] == places[1..][k];
      }
      assert BodiesAt(places, keys) == mine + rest;
      BodiesCount(places[1..], keys[1..]);
    } else {
      assert BodiesAt(places, keys) == {};
    }
  }

  lemma StoredBodies(places: seq<Digest>, keys: seq<P.KeyState>, files: Files)
    requires Stored(places, keys, files)
    ensures StartupTotals.Bodies(EntryFiles(files)) == BodiesAt(places, keys)
  {
    var bodies := StartupTotals.Bodies(EntryFiles(files));
    forall p | p in bodies ensures p in BodiesAt(places, keys) {
      var k :| 0 <= k < |places| && (p == BodyOf(places[k]) || p == MetaOf(places[k]));
      KeyFiles(places[k]);
      assert StoredAt(places[k], keys[k].files, files);
    }
    forall p | p in BodiesAt(places, keys) ensures p in bodies {
      var k :| 0 <= k < |keys| && keys[k].files.live.body.Some? && p == BodyOf(places[k]);
      KeyFiles(places[k]);
      assert StoredAt(places[k], keys[k].files, files);
    }
  }

  lemma {:induction false} DistinctCount(ps: seq<Path>)
    requires Distinct(ps)
    ensures |set p | p in ps| == |ps|
  {
    if ps == [] {
      assert (set p | p in ps) == {};
    } else {
      var n := |ps| - 1;
      assert (set p | p in ps) == (set p | p in ps[..n]) + {ps[n]};
      DistinctCount(ps[..n]);
    }
  }

  function BodiesOf(cs: seq<Candidate>): seq<Path> {
    seq(|cs|, i requires 0 <= i < |cs| => cs[i].body)
  }

  lemma DistinctBodies(cs: seq<Candidate>, files: Files)
    requires Lists(cs, files)
    ensures Distinct(BodiesOf(cs))
  {
    forall i, j | 0 <= i < j < |cs| ensures BodiesOf(cs)[i] != BodiesOf(cs)[j] {
      assert Metas(cs)[i] != Metas(cs)[j];
      assert Listed(cs[i], files) && Listed(cs[j], files);
      CandidatesDisjoint(cs[i], cs[j], files);
    }
  }

  lemma BodyOfCandidate(c: Candidate, files: Files, p: Path)
    requires Listed(c, files) && p in ClaimOf(c).paths
    ensures IsBody(p) <==> p == c.body
    ensures IsBody(p) ==> MetaFor(p) == c.meta
    ensures IsMeta(p) ==> BodyFor(p) == c.body
  {
    CandidateNames(c, files);
    HashesArePlain(c.hash);
    TrimOnce(c.hash, BODY);
    TrimOnce(c.hash, META);
    OneSuffix(c.hash + BODY);
    OneSuffix(c.hash + META);
  }

  lemma BodyIsListed(cs: seq<Candidate>, files: Files, p: Path)
    requires Lists(cs, files) && p in StartupTotals.Bodies(EntryFiles(files))
    ensures p in BodiesOf(cs)
  {
    var i :| 0 <= i < |ClaimsOf(cs)| && p in ClaimsOf(cs)[i].paths;
    BodyOfCandidate(cs[i], files, p);
    assert BodiesOf(cs)[i] == p;
  }

  lemma ListedIsBody(cs: seq<Candidate>, files: Files, p: Path)
    requires Lists(cs, files) && p in BodiesOf(cs)
    ensures p in StartupTotals.Bodies(EntryFiles(files))
  {
    var i :| 0 <= i < |cs| && p == BodiesOf(cs)[i];
    BodyOfCandidate(cs[i], files, p);
  }

  lemma ListedBodies(cs: seq<Candidate>, files: Files)
    requires Lists(cs, files)
    ensures |StartupTotals.Bodies(EntryFiles(files))| == |cs|
  {
    var bodies := StartupTotals.Bodies(EntryFiles(files));
    forall p | p in bodies ensures p in BodiesOf(cs) { BodyIsListed(cs, files, p); }
    forall p | p in BodiesOf(cs) ensures p in bodies { ListedIsBody(cs, files, p); }
    assert bodies == set p | p in BodiesOf(cs);
    DistinctBodies(cs, files);
    DistinctCount(BodiesOf(cs));
  }

  // ---------- the reconciliation scan ----------

  /** Files that only went away are still only the keys'. */
  lemma StillStored(places: seq<Digest>, keys: seq<P.KeyState>, files0: Files, keys': seq<P.KeyState>, files: Files)
    requires Stored(places, keys, files0) && |keys'| == |keys| && Shrinks(files0, files)
    requires forall k :: 0 <= k < |keys'| ==> StoredAt(places[k], keys'[k].files, files)
    ensures Stored(places, keys', files)
  {
    assert EntryFiles(files) <= EntryFiles(files0);
  }

  /** What is left of a key after an undisturbed scan. */
  lemma ReconciledAt(at: Digest, s: P.KeyState, cs: seq<Candidate>, files0: Files, files: Files)
    requires StoredAt(at, s.files, files0)
    requires Shrinks(files0, files) && KeepsWhole(files0, files) && MarkersFollow(files0, files) && Lists(cs, files)
    ensures StoredAt(at, P.Reconciled(s).files, files)
  {
    KeyFiles(at);
    DigestsHaveShards(at);
    HashIsStem(at);
    if s.files.live.body.Some? && s.files.live.meta.Some? {
      assert WholeEntry(MetaOf(at), files0);
    } else {
      NoHalves(at, cs, files);
    }
  }

  /** The candidates' files are all there is, and they are whole entries. */
  lemma NoHalves(at: Digest, cs: seq<Candidate>, files: Files)
    requires Lists(cs, files)
    ensures BodyOf(at) in files <==> MetaOf(at) in files
  {
    KeyFiles(at);
    if BodyOf(at) in files {
      assert BodyOf(at) in EntryFiles(files);
      OfCandidate(BodyOf(at), cs, files);
    }
    if MetaOf(at) in files {
      assert MetaOf(at) in EntryFiles(files);
      OfCandidate(MetaOf(at), cs, files);
    }
  }

  lemma OfCandidate(p: Path, cs: seq<Candidate>, files: Files)
    requires Lists(cs, files) && p in EntryFiles(files)
    ensures IsBody(p) ==> MetaFor(p) in files
    ensures IsMeta(p) ==> BodyFor(p) in files
  {
    var i :| 0 <= i < |ClaimsOf(cs)| && p in ClaimsOf(cs)[i].paths;
    assert Listed(cs[i], files);
    BodyOfCandidate(cs[i], files, p);
  }

  /**
    A reconciliation scan that succeeds on a tidy disk leaves the files the protocol's event leaves,
    and sets the statistics the event sets (CollectCandidates promises the hypotheses).
  */
  lemma ScanServesReconcile(places: seq<Digest>, keys: seq<P.KeyState>, files0: Files, files: Files, cs: seq<Candidate>, total: nat)
    requires Stored(places, keys, files0) && Shrinks(files0, files)
    requires ExactScan(cs, total, files) && KeepsWhole(files0, files) && MarkersFollow(files0, files)
    ensures Stored(places, P.ReconcileAll(keys), files)
    ensures P.RightStats(P.ReconcileAll(keys), P.Footprint(|cs|, total))
  {
    var keys' := P.ReconcileAll(keys);
    forall k | 0 <= k < |keys'| ensures StoredAt(places[k], keys'[k].files, files) {
      ReconciledAt(places[k], keys[k], cs, files0, files);
    }
    StillStored(places, keys, files0, keys', files);
    StoredBytes(places, keys', files);
    StoredBodies(places, keys', files);
    BodiesCount(places, keys');
    ListedBodies(cs, files);
  }

  /** `collect_candidates` while nothing else runs is the event `Reconcile`. */
  method CollectIsReconcile(disk: Disk, stats: CacheStats, ghost places: seq<Digest>, ghost keys: seq<P.KeyState>)
    requires disk.Valid() && Stored(places, keys, disk.files)
    modifies disk, stats
    ensures !disk.failed && Tidy(old(disk.files)) ==>
              && Stored(places, P.ReconcileAll(keys), disk.files)
              && P.RightStats(P.ReconcileAll(keys), P.Footprint(stats.entryCount, stats.totalBytes))
  {
    ghost var files0 := disk.files;
    var scan;
    ghost var rest;
    scan, rest := CollectCandidates(disk, stats);
    if !disk.failed && Tidy(files0) {
      ScanServesReconcile(places, keys, files0, disk.files, scan.value.candidates, scan.value.totalBytes);
    }
  }

  // ---------- the startup scan ----------

  lemma SweptAt(at: Digest, s: P.KeyState, files0: Files, files: Files)
    requires StoredAt(at, s.files, files0)
    requires StartupScanner.OnlyOrphansGone(files0, files)
    ensures StoredAt(at, P.Swept(s.files, s.files.live.meta.None? && BodyOf(at) !in files), files)
  {
    KeyFiles(at);
    assert StartupTotals.Orphan(BodyOf(at), files0) <==> MetaOf(at) !in files0;
    assert !StartupTotals.Orphan(PoisonOf(at), files0);
    assert MetaOf(at) in files0 <==> MetaOf(at) in files by { StartupScanner.MetaStays(files0, files, MetaOf(at)); }
  }

  /**
    A startup scan leaves the files a restart leaves, for some choice of swept bodies; and when no
    metadata is left alone, the entries and bytes on disk are what the statistics should be
    (ScanExisting counts just these when nothing fails on a tidy disk).
  */
  lemma ScanServesStart(places: seq<Digest>, keys: seq<P.KeyState>, files0: Files, files: Files) returns (swept: set<nat>)
    requires Stored(places, keys, files0) && StartupScanner.OnlyOrphansGone(files0, files)
    ensures Stored(places, P.RebootAll(keys, swept), files)
    ensures (forall k :: 0 <= k < |keys| ==> P.Whole(P.RebootAll(keys, swept)[k].files.live)) ==>
              P.RightStats(P.RebootAll(keys, swept), P.Footprint(|StartupTotals.Bodies(EntryFiles(files))|, EntryBytes(files)))
  {
    swept := set k | 0 <= k < |keys| && keys[k].files.live.meta.None? && BodyOf(places[k]) !in files;
    var keys' := P.RebootAll(keys, swept);
    forall k | 0 <= k < |keys'| ensures StoredAt(places[k], keys'[k].files, files) {
      SweptAt(places[k], keys[k], files0, files);
    }
    StillStored(places, keys, files0, keys', files);
    StoredBytes(places, keys', files);
    StoredBodies(places, keys', files);
    if forall k :: 0 <= k < |keys| ==> P.Whole(keys'[k].files.live) { BodiesCount(places, keys'); }
  }

  /** `scan_existing_stats` does to the files what the event `Restart` does, and without failures it makes the statistics right. */
  method ScanIsRestart(disk: Disk, ghost places: seq<Digest>, ghost keys: seq<P.KeyState>)
    returns (scan: StartupScanner.DirScan, ghost swept: set<nat>)
    requires disk.Valid() && Stored(places, keys, disk.files)
    modifies disk
    ensures Stored(places, P.RebootAll(keys, swept), disk.files)
    ensures !disk.failed && Tidy(old(disk.files))
            && (forall k :: 0 <= k < |keys| ==> P.Whole(P.RebootAll(keys, swept)[k].files.live)) ==>
              P.RightStats(P.RebootAll(keys, swept), P.Footprint(scan.entryCount, scan.totalBytes))
  {
    ghost var files0 := disk.files;
    scan := StartupScanner.ScanExisting(disk);
    swept := ScanServesStart(places, keys, files0, disk.files);
  }
}
