/**
  The scan of one shard for eviction (eviction.rs:233-444). Every file of an entry ends up in a
  candidate or in a deferred cleanup, so that a byte that may still be on disk is never counted as zero.
*/
module EvictionScan {
  import opened Common
  import opened Filesystem
  import opened Accounting

  /** `EvictionCandidate` */
  datatype Candidate = Candidate(body: Path, meta: Path, hash: string, fillId: nat, accessed: int, size: nat)

  datatype EntryPaths = EntryPaths(meta: Path, body: Path, poison: Path, hash: string)

  /** `DeferredCleanup` */
  datatype Cleanup =
    | OrphanBody(body: Path, hash: string)
    | OrphanPoison(poison: Path, hash: string)
    | CorruptEntry(paths: EntryPaths)
    | MalformedHash(paths: EntryPaths)
    | MissingBody(paths: EntryPaths)

  /** `DirScanResult` */
  datatype DirScan = DirScan(candidates: seq<Candidate>, totalBytes: nat, entryCount: nat, cleanups: seq<Cleanup>)

  function SizeSum(cs: seq<Candidate>): nat {
    if cs == [] then 0 else cs[0].size + SizeSum(cs[1..])
  }

  /** What a candidate answers for. */
  function ClaimOf(c: Candidate): Claim {
    Claim({c.body, c.meta}, c.size)
  }

  function ClaimsOf(cs: seq<Candidate>): (r: seq<Claim>)
    ensures |r| == |cs| && forall i :: 0 <= i < |cs| ==> r[i] == ClaimOf(cs[i])
    ensures AmountSum(r) == SizeSum(cs)
  {
    if cs == [] then [] else
      var rest := ClaimsOf(cs[1..]);
      assert ([ClaimOf(cs[0])] + rest)[1..] == rest;
      [ClaimOf(cs[0])] + rest
  }

  /** The files a cleanup will remove or account for. */
  function Handles(c: Cleanup): set<Path> {
    match c
    case OrphanBody(body, _) => {body}
    case OrphanPoison(_, _) => {}
    case CorruptEntry(p) => {p.body, p.meta}
    case MalformedHash(p) => {p.body, p.meta}
    case MissingBody(p) => {p.body, p.meta}
  }

  /** The two files of a cleanup, and the marker beside them. */
  function Touches(c: Cleanup): set<Path> {
    match c
    case OrphanBody(body, _) => {body}
    case OrphanPoison(poison, _) => {poison}
    case CorruptEntry(p) => {p.body, p.meta, p.poison}
    case MalformedHash(p) => {p.body, p.meta, p.poison}
    case MissingBody(p) => {p.body, p.meta, p.poison}
  }

  ghost predicate Covers(r: DirScan, p: Path) {
    (exists i :: 0 <= i < |r.candidates| && p in ClaimOf(r.candidates[i]).paths)
    || (exists i :: 0 <= i < |r.cleanups| && p in Handles(r.cleanups[i]))
  }

  /** A candidate is a whole entry whose metadata parses, and its size is the size of its two files. */
  predicate IsEntry(c: Candidate, files: Files) {
    && c.meta in files && c.body in files && files[c.meta].parsed == Some(Header(c.fillId, c.accessed))
    && c.size == files[c.body].size + files[c.meta].size
    && HashStem(c.hash) && Named(c.meta, c.body, c.hash)
  }

  /** The stem is the metadata name without its suffix, and the body name is made from the stem. */
  predicate Named(meta: Path, body: Path, hash: string) {
    && meta.name.Utf8? && EndsWith(meta.name.text, META) && hash == TrimEnd(meta.name.text, META)
    && body == InShard(meta.shard, hash, BODY)
  }

  predicate NamedPaths(p: EntryPaths) {
    Named(p.meta, p.body, p.hash) && p.poison == InShard(p.meta.shard, p.hash, POISON)
  }

  /** Why a cleanup was deferred. */
  predicate Justified(c: Cleanup, files: Files) {
    match c
    case OrphanBody(body, hash) =>
      && body.name.Utf8? && EndsWith(body.name.text, BODY) && hash == TrimEnd(body.name.text, BODY)
      && InShard(body.shard, hash, META) !in files
    case OrphanPoison(poison, hash) =>
      && poison.name.Utf8? && EndsWith(poison.name.text, POISON) && hash == TrimEnd(poison.name.text, POISON)
      && InShard(poison.shard, hash, META) !in files
    case CorruptEntry(p) => NamedPaths(p) && (p.meta in files ==> files[p.meta].parsed.None?)
    case MalformedHash(p) => NamedPaths(p) && !HashStem(p.hash)
    case MissingBody(p) => NamedPaths(p) && p.body !in files
  }

  /** The listed name an item comes from. */
  function Source(c: Cleanup): Path {
    match c
    case OrphanBody(body, _) => body
    case OrphanPoison(poison, _) => poison
    case CorruptEntry(p) => p.meta
    case MalformedHash(p) => p.meta
    case MissingBody(p) => p.meta
  }

  function Metas(cs: seq<Candidate>): seq<Path> {
    seq(|cs|, i requires 0 <= i < |cs| => cs[i].meta)
  }

  function Sources(cs: seq<Cleanup>): seq<Path> {
    seq(|cs|, i requires 0 <= i < |cs| => Source(cs[i]))
  }

  lemma JustifiedShrinks(c: Cleanup, files: Files, files': Files)
    requires Justified(c, files) && Shrinks(files, files')
    ensures Justified(c, files')
  {
  }

  lemma NamedApart(meta: Path, body: Path, hash: string)
    requires Named(meta, body, hash)
    ensures meta != body
  {
    TrimOnce(hash, BODY);
    OneSuffix(hash + BODY);
  }

  // ---------- scanning a shard ----------

  /**
    What a scan sees: all metadata, a body without metadata, and the bodies it looks for beside the
    metadata files. Since a suffix is stripped as often as it occurs, a body whose stem ends in a
    suffix can lie beside its metadata and still not be looked for.
  */
  ghost predicate Seen(p: Path, files: Files) {
    IsMeta(p) || (IsBody(p) && (MetaFor(p) !in files || exists m :: m in files && IsMeta(m) && BodyFor(m) == p))
  }

  /** A body is seen, whatever else is there, when its stem does not end in a suffix itself. */
  lemma SingleSuffixIsSeen(d: Shard, stem: string, files: Files)
    requires !EndsWith(stem, BODY) && !EndsWith(stem, META)
    ensures Seen(InShard(d, stem, BODY), files)
  {
    var p, m := InShard(d, stem, BODY), InShard(d, stem, META);
    TrimOnce(stem, BODY);
    TrimOnce(stem, META);
    assert IsBody(p) && MetaFor(p) == m && IsMeta(m) && BodyFor(m) == p;
  }

  /** A body with its suffix twice, beside the metadata of an entry, is not seen. */
  lemma RepeatedSuffixIsNotSeen(d: Shard, stem: string)
    requires Plain(stem)
    ensures var files := map[InShard(d, stem, META) := File(1, None), InShard(d, stem + BODY, BODY) := File(1, None)];
            !Seen(InShard(d, stem + BODY, BODY), files)
  {
    var twice := InShard(d, stem + BODY, BODY);
    TrimOnce(stem, BODY);
    TrimOnce(stem, META);
    OneSuffix(twice.name.text);
    TrimTwice(stem);
    assert MetaFor(twice) == InShard(d, stem, META);
    assert BodyFor(InShard(d, stem, META)) == InShard(d, stem, BODY);
    assert |(stem + BODY) + BODY| > |stem + BODY|;
  }

  lemma TrimTwice(stem: string)
    requires !EndsWith(stem, BODY)
    ensures EndsWith((stem + BODY) + BODY, BODY) && TrimEnd((stem + BODY) + BODY, BODY) == stem
  {
    TrimOnce(stem, BODY);
    TrimOnce(stem + BODY, BODY);
    assert ((stem + BODY) + BODY)[..|stem + BODY|] == stem + BODY;
  }

  /** What one listed name must have contributed. */
  ghost predicate Visited(p: Path, files: Files, r: DirScan) {
    && (p in files && IsMeta(p) ==> Covers(r, p) && Covers(r, BodyFor(p)))
    && (p in files && IsBody(p) && MetaFor(p) !in files ==> Covers(r, p))
    && (p in files && IsPoison(p) && MetaForPoison(p) !in files ==> Clears(r, p))
  }

  ghost predicate Grows(r: DirScan, r': DirScan) {
    && r.candidates <= r'.candidates && r.cleanups <= r'.cleanups
  }

  ghost predicate Sound(r: DirScan, files: Files) {
    && r.totalBytes == SizeSum(r.candidates) && r.entryCount == |r.candidates|
    && (forall i :: 0 <= i < |r.candidates| ==> IsEntry(r.candidates[i], files))
    && (forall i :: 0 <= i < |r.cleanups| ==> Justified(r.cleanups[i], files))
  }

  /** At most one item more, and it comes from `p`. */
  ghost predicate OneMore(r: DirScan, r': DirScan, p: Path) {
    && (Metas(r'.candidates) == Metas(r.candidates) || Metas(r'.candidates) == Metas(r.candidates) + [p])
    && (Sources(r'.cleanups) == Sources(r.cleanups) || Sources(r'.cleanups) == Sources(r.cleanups) + [p])
  }

  /** Some cleanup will remove this file. */
  ghost predicate Clears(r: DirScan, p: Path) {
    exists i :: 0 <= i < |r.cleanups| && p in Touches(r.cleanups[i])
  }

  lemma VisitedGrows(p: Path, files: Files, r: DirScan, r': DirScan)
    requires Visited(p, files, r) && Grows(r, r')
    ensures Visited(p, files, r')
  {
    forall p | Covers(r, p) ensures Covers(r', p) {
      if i :| 0 <= i < |r.candidates| && p in ClaimOf(r.candidates[i]).paths {
        assert r'.candidates[i] == r.candidates[i];
      } else {
        var i :| 0 <= i < |r.cleanups| && p in Handles(r.cleanups[i]);
        assert r'.cleanups[i] == r.cleanups[i];
      }
    }
    if Clears(r, p) {
      var i :| 0 <= i < |r.cleanups| && p in Touches(r.cleanups[i]);
      assert r'.cleanups[i] == r.cleanups[i];
    }
  }

  function Defer(r: DirScan, c: Cleanup): DirScan {
    r.(cleanups := r.cleanups + [c])
  }

  function Promote(r: DirScan, c: Candidate): DirScan {
    r.(candidates := r.candidates + [c], totalBytes := r.totalBytes + c.size, entryCount := r.entryCount + 1)
  }

  lemma DeferSound(r: DirScan, c: Cleanup, files: Files)
    requires Sound(r, files) && Justified(c, files)
    ensures Sound(Defer(r, c), files) && Grows(r, Defer(r, c)) && OneMore(r, Defer(r, c), Source(c))
    ensures forall p :: p in Handles(c) ==> Covers(Defer(r, c), p)
    ensures forall p :: p in Touches(c) ==> Clears(Defer(r, c), p)
  {
    assert Defer(r, c).cleanups[|r.cleanups|] == c;
  }

  lemma {:induction false} SizeSumAppend(cs: seq<Candidate>, more: seq<Candidate>)
    ensures SizeSum(cs + more) == SizeSum(cs) + SizeSum(more)
  {
    if cs == [] {
      assert cs + more == more;
    } else {
      assert (cs + more)[1..] == cs[1..] + more;
      SizeSumAppend(cs[1..], more);
    }
  }

  lemma PromoteSound(r: DirScan, c: Candidate, files: Files)
    requires Sound(r, files) && IsEntry(c, files)
    ensures Sound(Promote(r, c), files) && Grows(r, Promote(r, c)) && OneMore(r, Promote(r, c), c.meta)
    ensures Covers(Promote(r, c), c.body) && Covers(Promote(r, c), c.meta)
  {
    SizeSumAppend(r.candidates, [c]);
    assert SizeSum([c]) == c.size + SizeSum([]);
    assert Promote(r, c).candidates[|r.candidates|] == c;
  }

  /** A `.body` name, or a `.poisoned` one: deferred unless its metadata is there (eviction.rs:291-340). */
  method ScanBody(disk: Disk, d: Shard, name: string, r0: DirScan) returns (r: Option<DirScan>)
    requires Sound(r0, disk.files) && EndsWith(name, BODY)
    modifies disk`failed
    ensures disk.failed == (old(disk.failed) || r.None?)
    ensures r.Some? ==> Sound(r.value, disk.files) && Grows(r0, r.value) && Visited(Path(d, Utf8(name)), disk.files, r.value)
    ensures r.Some? ==> OneMore(r0, r.value, Path(d, Utf8(name)))
  {
    var hash := TrimEnd(name, BODY);
    var probe := disk.Exists(InShard(d, hash, META));
    if probe.Failed? { return None; }
    r := Some(r0);
    if probe == Io.Ok(false) {
      var c := OrphanBody(Path(d, Utf8(name)), hash);
      DeferSound(r0, c, disk.files);
      r := Some(Defer(r0, c));
    }
    OneSuffix(name);
  }

  method ScanPoison(disk: Disk, d: Shard, name: string, r0: DirScan) returns (r: Option<DirScan>)
    requires Sound(r0, disk.files) && EndsWith(name, POISON)
    modifies disk`failed
    ensures disk.failed == (old(disk.failed) || r.None?)
    ensures r.Some? ==> Sound(r.value, disk.files) && Grows(r0, r.value) && Visited(Path(d, Utf8(name)), disk.files, r.value)
    ensures r.Some? ==> OneMore(r0, r.value, Path(d, Utf8(name)))
  {
    var hash := TrimEnd(name, POISON);
    var probe := disk.Exists(InShard(d, hash, META));
    if probe.Failed? { return None; }
    r := Some(r0);
    if probe == Io.Ok(false) {
      var c := OrphanPoison(Path(d, Utf8(name)), hash);
      DeferSound(r0, c, disk.files);
      r := Some(Defer(r0, c));
    }
    OneSuffix(name);
  }

  /** A `.meta.json` name: a candidate, or a cleanup, or gone (eviction.rs:342-441). */
  method ScanMeta(disk: Disk, d: Shard, name: string, r0: DirScan) returns (r: Option<DirScan>)
    requires Sound(r0, disk.files) && EndsWith(name, META)
    modifies disk`failed
    ensures disk.failed == (old(disk.failed) || r.None?)
    ensures r.Some? ==> Sound(r.value, disk.files) && Grows(r0, r.value) && Visited(Path(d, Utf8(name)), disk.files, r.value)
    ensures r.Some? ==> OneMore(r0, r.value, Path(d, Utf8(name)))
  {
    var hash := TrimEnd(name, META);
    var meta, body := Path(d, Utf8(name)), InShard(d, hash, BODY);
    var paths := EntryPaths(meta, body, InShard(d, hash, POISON), hash);
    r := Some(r0);
    var content := disk.Read(meta);
    if content.Failed? { return None; }
    if content.Ok? {
      var file := content.value;
      if file.parsed.None? || !HashStem(hash) {
        var c := if file.parsed.None? then CorruptEntry(paths) else MalformedHash(paths);
        DeferSound(r0, c, disk.files);
        r := Some(Defer(r0, c));
      } else {
        var size := disk.Stat(body);
        match size {
          case Failed => return None;
          case Missing =>
            DeferSound(r0, MissingBody(paths), disk.files);
            r := Some(Defer(r0, MissingBody(paths)));
          case Ok(bodySize) =>
            var header := file.parsed.value;
            var c := Candidate(body, meta, hash, header.fillId, header.accessed, bodySize + file.size);
            PromoteSound(r0, c, disk.files);
            r := Some(Promote(r0, c));
        }
      }
    }
    OneSuffix(name);
  }

  method ScanName(disk: Disk, d: Shard, name: string, r0: DirScan) returns (r: Option<DirScan>)
    requires Sound(r0, disk.files)
    modifies disk`failed
    ensures disk.failed == (old(disk.failed) || r.None?)
    ensures r.Some? ==> Sound(r.value, disk.files) && Grows(r0, r.value) && Visited(Path(d, Utf8(name)), disk.files, r.value)
    ensures r.Some? ==> OneMore(r0, r.value, Path(d, Utf8(name)))
  {
    if EndsWith(name, META) {
      r := ScanMeta(disk, d, name, r0);
    } else if EndsWith(name, BODY) {
      r := ScanBody(disk, d, name, r0);
    } else if EndsWith(name, POISON) {
      r := ScanPoison(disk, d, name, r0);
    } else {
      r := Some(r0);
    }
  }

  lemma AllVisitedGrow(d: Shard, names: seq<Name>, files: Files, r: DirScan, r': DirScan)
    requires Grows(r, r') && forall j :: 0 <= j < |names| ==> Visited(Path(d, names[j]), files, r)
    ensures forall j :: 0 <= j < |names| ==> Visited(Path(d, names[j]), files, r')
  {
    forall j | 0 <= j < |names| ensures Visited(Path(d, names[j]), files, r') { VisitedGrows(Path(d, names[j]), files, r, r'); }
  }

  /** The items come from different listed names. */
  ghost predicate FromNames(sources: seq<Path>, d: Shard, names: seq<Name>) {
    Distinct(sources) && forall k :: 0 <= k < |sources| ==> sources[k].shard == d && sources[k].name in names
  }

  lemma FromMoreNames(r: DirScan, r': DirScan, d: Shard, names: seq<Name>, n: Name)
    requires FromNames(Metas(r.candidates), d, names) && FromNames(Sources(r.cleanups), d, names)
    requires n !in names && OneMore(r, r', Path(d, n))
    ensures FromNames(Metas(r'.candidates), d, names + [n]) && FromNames(Sources(r'.cleanups), d, names + [n])
  {
    AddedIsNew(Metas(r.candidates), Metas(r'.candidates), d, names, n);
    AddedIsNew(Sources(r.cleanups), Sources(r'.cleanups), d, names, n);
  }

  lemma AddedIsNew(sources: seq<Path>, sources': seq<Path>, d: Shard, names: seq<Name>, n: Name)
    requires FromNames(sources, d, names) && n !in names
    requires sources' == sources || sources' == sources + [Path(d, n)]
    ensures FromNames(sources', d, names + [n])
  {
  }

  /** A marker without metadata. */
  predicate StrayMarker(p: Path, files: Files) {
    p in files && IsPoison(p) && MetaForPoison(p) !in files
  }

  /** Exactly the files the scan sees are in a candidate or in a cleanup, and stray markers will be removed. */
  ghost predicate Complete(r: DirScan, d: Shard, files: Files) {
    && (forall p :: p in files && p.shard == d ==> (Covers(r, p) <==> Seen(p, files)))
    && (forall p: Path :: p.shard == d && StrayMarker(p, files) ==> Clears(r, p))
  }

  lemma AllVisited(d: Shard, names: seq<Name>, files: Files, r: DirScan)
    requires forall n :: n in names <==> Path(d, n) in files
    requires forall j :: 0 <= j < |names| ==> Visited(Path(d, names[j]), files, r)
    requires Sound(r, files) && SeparateIn(r, [d], files)
    ensures Complete(r, d, files)
  {
    forall p | p in files && p.shard == d
      ensures Covers(r, p) <==> Seen(p, files)
    {
      if Seen(p, files) {
        var from := p;
        if IsBody(p) && MetaFor(p) in files {
          OneSuffix(p.name.text);
          from :| from in files && IsMeta(from) && BodyFor(from) == p;
        }
        assert from == Path(d, from.name);
        var j :| 0 <= j < |names| && names[j] == from.name;
        assert Visited(Path(d, names[j]), files, r);
      }
      if Covers(r, p) { CoveredIsSeen(r, [d], files, p); }
    }
    forall p: Path | p.shard == d && StrayMarker(p, files) ensures Clears(r, p) {
      assert p == Path(d, p.name);
      var j :| 0 <= j < |names| && names[j] == p.name;
      assert Visited(Path(d, names[j]), files, r);
    }
  }

  lemma CoveredIsSeen(r: DirScan, shards: seq<Shard>, files: Files, p: Path)
    requires Sound(r, files) && SeparateIn(r, shards, files) && Covers(r, p) && p in files
    ensures Seen(p, files)
  {
    if i :| 0 <= i < |r.candidates| && p in ClaimOf(r.candidates[i]).paths {
      var c := r.candidates[i];
      TrimOnce(c.hash, BODY);
      assert IsMeta(c.meta) && BodyFor(c.meta) == c.body;
    } else {
      var i :| 0 <= i < |r.cleanups| && p in Handles(r.cleanups[i]);
      assert Sources(r.cleanups)[i] in Sources(r.cleanups);
      CleanupIsSeen(r.cleanups[i], files, p);
    }
  }

  lemma CleanupIsSeen(c: Cleanup, files: Files, p: Path)
    requires Justified(c, files) && Source(c) in files && p in Handles(c) && p in files
    ensures Seen(p, files)
  {
    match c {
      case OrphanBody(_, _) =>
      case CorruptEntry(q) => assert IsMeta(q.meta) && BodyFor(q.meta) == q.body; TrimOnce(q.hash, BODY);
      case MalformedHash(q) => assert IsMeta(q.meta) && BodyFor(q.meta) == q.body; TrimOnce(q.hash, BODY);
      case MissingBody(q) => assert IsMeta(q.meta) && BodyFor(q.meta) == q.body; TrimOnce(q.hash, BODY);
    }
  }

  /** The items of a scan come from different files of the scanned shards. */
  ghost predicate SeparateIn(r: DirScan, shards: seq<Shard>, files: Files) {
    && Distinct(Metas(r.candidates)) && Distinct(Sources(r.cleanups))
    && (forall p :: p in Metas(r.candidates) || p in Sources(r.cleanups) ==> p in files && p.shard in shards)
  }

  lemma AreSeparate(r: DirScan, d: Shard, names: seq<Name>, files: Files)
    requires forall n :: n in names <==> Path(d, n) in files
    requires FromNames(Metas(r.candidates), d, names) && FromNames(Sources(r.cleanups), d, names)
    ensures SeparateIn(r, [d], files)
  {
    forall p | p in Metas(r.candidates) || p in Sources(r.cleanups)
      ensures p in files && p.shard in [d]
    {
      assert p == Path(d, p.name) && p.name in names;
    }
  }

  /** `scan_hash_dir_for_eviction`: the error is a failed operation, or a name that is not UTF-8. */
  method ScanShard(disk: Disk, d: Shard) returns (r: Option<DirScan>)
    requires disk.Valid()
    modifies disk`failed
    ensures old(disk.failed) ==> disk.failed
    ensures r.None? ==> disk.failed || exists n: Name :: n.Raw? && Path(d, n) in disk.files
    ensures r.Some? ==> Sound(r.value, disk.files) && Complete(r.value, d, disk.files)
    ensures r.Some? ==> SeparateIn(r.value, [d], disk.files)
  {
    r := Some(DirScan([], 0, 0, []));
    var listing := disk.ReadShard(d);
    match listing {
      case Missing => return;
      case Failed => return None;
      case Ok(names) =>
        var i := 0;
        while i < |names|
          invariant 0 <= i <= |names|
          invariant old(disk.failed) ==> disk.failed
          invariant r.Some? && Sound(r.value, disk.files)
          invariant FromNames(Metas(r.value.candidates), d, names[..i]) && FromNames(Sources(r.value.cleanups), d, names[..i])
          invariant forall j :: 0 <= j < |names[..i]| ==> Visited(Path(d, names[..i][j]), disk.files, r.value)
        {
          var fails := disk.Fails();
          if fails { return None; }
          var name := names[i];
          if name.Raw? {
            assert Path(d, name) in disk.files;
            return None;
          }
          var next := ScanName(disk, d, name.text, r.value);
          if next.None? { return None; }
          AllVisitedGrow(d, names[..i], disk.files, r.value, next.value);
          assert name !in names[..i];
          FromMoreNames(r.value, next.value, d, names[..i], name);
          assert names[..i + 1] == names[..i] + [name];
          r := next;
          i := i + 1;
        }
        assert names[..i] == names;
        AreSeparate(r.value, d, names, disk.files);
        AllVisited(d, names, disk.files, r.value);
    }
  }
}
