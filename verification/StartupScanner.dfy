/**
  The startup scan of the shards (disk.rs:585-892): the fill id it lets the allocator start from, and
  the statistics the cache starts with.
*/
module StartupScanner {
  import opened Common
  import opened FillIds
  import opened Filesystem
  import opened Layout
  import opened KeyHash
  import opened Accounting
  import opened StartupTotals
  import DeferredCleanups
  import Protocol

  /** `DirScanStats` */
  datatype DirScan = DirScan(maxFillId: nat, sawCacheFiles: bool, incomplete: bool, totalBytes: nat, entryCount: nat,
                             unreclaimed: nat, unknownOrphans: nat)

  // ---------- fill ids ----------

  /** Either the scan says it may have missed a fill id, or it has this one. */
  predicate Knows(r: DirScan, f: File) {
    r.incomplete || (f.parsed.Some? && f.parsed.value.fillId <= r.maxFillId)
  }

  predicate Grows(r: DirScan, r': DirScan) {
    r.maxFillId <= r'.maxFillId && (r.incomplete ==> r'.incomplete) && (r.sawCacheFiles ==> r'.sawCacheFiles)
    && r.totalBytes <= r'.totalBytes && r.entryCount <= r'.entryCount
  }

  /** The largest fill id is one of the shard's, so nothing on disk makes the counter run away. */
  ghost predicate Occurs(id: nat, files: Files) {
    id == 0 || exists p :: p in files && files[p].parsed.Some? && files[p].parsed.value.fillId == id
  }

  /** Only bodies without metadata are removed. */
  ghost predicate OnlyOrphansGone(files0: Files, files: Files) {
    && (forall p :: p in files ==> p in files0 && files[p] == files0[p])
    && (forall p {:trigger Orphan(p, files0)} :: p in files0 && p !in files ==> Orphan(p, files0))
  }

  lemma MetaStays(files0: Files, files: Files, p: Path)
    requires OnlyOrphansGone(files0, files) && IsMeta(p)
    ensures p in files0 <==> p in files
  {
    OneSuffix(p.name.text);
    assert !Orphan(p, files0);
  }

  /** Reading the metadata that belongs to a listed name; `size` is how many bytes were read. */
  method ReadFillId(disk: Disk, meta: Path, ghost files0: Files, result: DirScan) returns (r: DirScan, size: Io<nat>)
    requires OnlyOrphansGone(files0, disk.files) && Occurs(result.maxFillId, files0)
    modifies disk`failed
    ensures disk.failed == (old(disk.failed) || size.Failed?)
    ensures Grows(result, r) && Occurs(r.maxFillId, files0)
    ensures r == result.(maxFillId := r.maxFillId, incomplete := r.incomplete)
    ensures r.incomplete ==> result.incomplete || size.Failed? || (meta in disk.files && disk.files[meta].parsed.None?)
    ensures meta in disk.files ==> Knows(r, disk.files[meta])
    ensures size.Ok? ==> meta in disk.files && size.value == disk.files[meta].size
    ensures size.Missing? ==> meta !in disk.files
  {
    r := result;
    var content := disk.Read(meta);
    match content {
      case Ok(file) =>
        size := Io.Ok(file.size);
        match file.parsed {
          case Some(header) => r := r.(maxFillId := Max(r.maxFillId, header.fillId));
          case None => r := r.(incomplete := true);
        }
      case Missing => size := Io.Missing;
      case Failed =>
        size := Io.Failed;
        r := r.(incomplete := true);
    }
  }

  /** What one listed name tells: about the metadata beside a body, and about metadata without a body. */
  ghost predicate Looked(p: Path, files: Files, r: DirScan) {
    && (IsBody(p) && MetaFor(p) in files ==> Knows(r, files[MetaFor(p)]))
    && (IsMeta(p) && p in files && BodyFor(p) !in files ==> Knows(r, files[p]))
  }

  // ---------- one name ----------

  /** What every step of the scan keeps. */
  ghost predicate Scanning(files: Files, files0: Files, r: DirScan) {
    OnlyOrphansGone(files0, files) && Occurs(r.maxFillId, files0)
  }

  /** The sizes of an entry's two files; what cannot be measured is left out. */
  method CountEntry(disk: Disk, body: Path, meta: Path) returns (bytes: nat, entries: nat)
    modifies disk`failed
    ensures old(disk.failed) ==> disk.failed
    ensures bytes <= SizeAt(disk.files, body) + SizeAt(disk.files, meta) && entries <= 1
    ensures !disk.failed ==> bytes == SizeAt(disk.files, body) + SizeAt(disk.files, meta) && entries == if body in disk.files then 1 else 0
  {
    bytes, entries := 0, 0;
    var size := disk.Stat(body);
    if size.Ok? { bytes, entries := size.value, 1; }
    size := disk.Stat(meta);
    if size.Ok? { bytes := bytes + size.value; }
  }

  /** Metadata whose name leads back to it from the body's name; all that the cache writes is (TidyPair). */
  predicate Own(p: Path) {
    IsMeta(p) && MetaFor(BodyFor(p)) == p
  }

  /** What a body's name should count, for itself and its metadata. */
  predicate BodyShare(p: Path, files: Files, bytes: nat, entries: nat, quiet: bool)
    requires IsBody(p)
  {
    p in files ==>
      if Orphan(p, files) then bytes <= files[p].size && entries == 0 && (quiet ==> bytes == 0)
      else bytes <= files[p].size + files[MetaFor(p)].size && entries <= 1
           && (quiet ==> bytes == files[p].size + files[MetaFor(p)].size && entries == 1)
  }

  /** What a metadata file's name should count. */
  predicate MetaShare(p: Path, files: Files, bytes: nat, quiet: bool)
    requires IsMeta(p)
  {
    p in files && Own(p) ==>
      if BodyFor(p) in files then bytes == 0 else bytes <= files[p].size && (quiet ==> bytes == files[p].size)
  }

  /** What one listed name adds to the totals. */
  predicate Adds(result: DirScan, r: DirScan, p: Path, files: Files, quiet: bool) {
    && Grows(result, r)
    && var bytes, entries := r.totalBytes - result.totalBytes, r.entryCount - result.entryCount;
    if IsBody(p) then BodyShare(p, files, bytes, entries, quiet)
    else entries == 0 && if IsMeta(p) then MetaShare(p, files, bytes, quiet) else bytes == 0
  }

  /** What one listed name adds to what is known of orphans: their bytes, or that there are bytes nobody knows the number of. */
  ghost predicate Tells(result: DirScan, r: DirScan, p: Path, files0: Files, files: Files, quiet: bool) {
    && result.unreclaimed <= r.unreclaimed && result.unknownOrphans <= r.unknownOrphans
    && r.unreclaimed - result.unreclaimed <= r.totalBytes - result.totalBytes
    && (quiet ==> r.unreclaimed == result.unreclaimed && r.unknownOrphans == result.unknownOrphans)
    && (Orphan(p, files0) && !r.incomplete && r.unknownOrphans == result.unknownOrphans ==>
          SizeAt(files, p) <= r.unreclaimed - result.unreclaimed)
    && (quiet && r.incomplete ==> result.incomplete || Unparsed(files0))
  }

  /** Some metadata file cannot be parsed. */
  ghost predicate Unparsed(files: Files) {
    exists p :: p in files && IsMeta(p) && files[p].parsed.None?
  }

  /** The scan says that it may have missed a fill id only after a failure or over metadata that does not parse. */
  ghost predicate FlagHasCause(r: DirScan, files0: Files, quiet: bool) {
    quiet && r.incomplete ==> Unparsed(files0)
  }

  lemma AddsItsShare(result: DirScan, r: DirScan, p: Path, files: Files, quiet: bool)
    requires Adds(result, r, p, files, quiet) && Tidy(files) && HashShard(p.shard) && p in files
    ensures Counted(r.totalBytes - result.totalBytes, r.entryCount - result.entryCount, Share(p, files), files, quiet)
  {
    var bytes, entries := r.totalBytes - result.totalBytes, r.entryCount - result.entryCount;
    if IsBody(p) {
      if Orphan(p, files) { CountedOrphan(p, files, bytes, quiet); } else { CountedEntry(p, files, bytes, entries, quiet); }
    } else if IsMeta(p) {
      TidyPair(p);
      CountedLeftover(p, files, bytes, quiet);
    } else {
      ShareOfOther(p, files);
      CountedNothing(files, quiet);
    }
  }

  /** What each name of the shard adds is its share. */
  ghost predicate Fitting(d: Shard, files: Files) {
    forall result, r, p, quiet :: Adds(result, r, p, files, quiet) && p.shard == d && p in files ==>
      Counted(r.totalBytes - result.totalBytes, r.entryCount - result.entryCount, Share(p, files), files, quiet)
  }

  lemma TidyIsFitting(d: Shard, files: Files)
    requires Tidy(files) && HashShard(d)
    ensures Fitting(d, files)
  {
    forall result, r, p, quiet | Adds(result, r, p, files, quiet) && p.shard == d && p in files
      ensures Counted(r.totalBytes - result.totalBytes, r.entryCount - result.entryCount, Share(p, files), files, quiet)
    {
      AddsItsShare(result, r, p, files, quiet);
    }
  }

  /** An orphan is removed; bytes that may be left of it are counted if their number is known. */
  method DropOrphan(disk: Disk, p: Path) returns (bytes: Option<nat>)
    modifies disk
    ensures old(disk.failed) ==> disk.failed
    ensures DeferredCleanups.Removes(old(disk.files), disk.files, {p})
    ensures bytes.Some? ==> SizeAt(disk.files, p) <= bytes.value <= SizeAt(old(disk.files), p)
    ensures !disk.failed ==> bytes == Some(0) && p !in disk.files
  {
    bytes := DeferredCleanups.RemoveOrReclaim(disk, p);
  }

  /** A body name: the entry is counted and its metadata read, or the orphan is removed. */
  method ScanBody(disk: Disk, p: Path, result: DirScan, ghost files0: Files) returns (r: DirScan)
    requires Scanning(disk.files, files0, result) && IsBody(p)
    modifies disk
    ensures old(disk.failed) ==> disk.failed
    ensures Scanning(disk.files, files0, r) && DeferredCleanups.Removes(old(disk.files), disk.files, {p})
    ensures Looked(p, files0, r) && Adds(result, r, p, files0, !disk.failed)
    ensures Tells(result, r, p, files0, disk.files, !disk.failed)
    ensures !disk.failed && Orphan(p, files0) ==> p !in disk.files
  {
    r := result;
    OneSuffix(p.name.text);
    MetaForIsMeta(p);
    MetaStays(files0, disk.files, MetaFor(p));
    var bytes, entries := 0, 0;
    var probe := disk.Exists(MetaFor(p));
    if probe.Failed? {
      r := r.(incomplete := true);
    } else if probe == Io.Ok(true) {
      bytes, entries := CountEntry(disk, p, MetaFor(p));
      var size;
      r, size := ReadFillId(disk, MetaFor(p), files0, r);
    } else {
      var unreclaimed := DropOrphan(disk, p);
      match unreclaimed {
        case Some(n) =>
          bytes := n;
          r := r.(unreclaimed := r.unreclaimed + n);
        case None => r := r.(unknownOrphans := r.unknownOrphans + 1);
      }
    }
    r := r.(totalBytes := r.totalBytes + bytes, entryCount := r.entryCount + entries);
  }

  /** Metadata without a body: its id, and its size, measured again when it cannot be read. */
  method ReadLeftover(disk: Disk, p: Path, result: DirScan, ghost files0: Files) returns (r: DirScan, bytes: nat)
    requires Scanning(disk.files, files0, result)
    modifies disk`failed
    ensures old(disk.failed) ==> disk.failed
    ensures Occurs(r.maxFillId, files0) && Grows(result, r) && r == result.(maxFillId := r.maxFillId, incomplete := r.incomplete)
    ensures p in disk.files ==> Knows(r, disk.files[p])
    ensures bytes <= SizeAt(disk.files, p) && (!disk.failed ==> bytes == SizeAt(disk.files, p))
    ensures r.incomplete ==> result.incomplete || disk.failed || (p in disk.files && disk.files[p].parsed.None?)
  {
    var size;
    r, size := ReadFillId(disk, p, files0, result);
    if size.Failed? { size := disk.Stat(p); }
    bytes := if size.Ok? then size.value else 0;
  }

  /** A metadata name: read and counted unless its body is there, in which case the body's name does that. */
  method ScanMeta(disk: Disk, p: Path, result: DirScan, ghost files0: Files) returns (r: DirScan)
    requires Scanning(disk.files, files0, result) && IsMeta(p)
    modifies disk`failed
    ensures old(disk.failed) ==> disk.failed
    ensures Scanning(disk.files, files0, r)
    ensures Looked(p, files0, r) && Adds(result, r, p, files0, !disk.failed)
    ensures Tells(result, r, p, files0, disk.files, !disk.failed)
  {
    r := result;
    OneSuffix(p.name.text);
    MetaStays(files0, disk.files, p);
    BodyForIsBody(p);
    assert p in files0 && Own(p) ==> !Orphan(BodyFor(p), files0);
    var bytes := 0;
    var body := disk.Stat(BodyFor(p));
    match body {
      case Ok(_) =>
      case Missing => r, bytes := ReadLeftover(disk, p, r, files0);
      case Failed => r := r.(incomplete := true);
    }
    r := r.(totalBytes := r.totalBytes + bytes);
  }

  method ScanName(disk: Disk, p: Path, result: DirScan, ghost files0: Files) returns (r: DirScan)
    requires Scanning(disk.files, files0, result)
    modifies disk
    ensures old(disk.failed) ==> disk.failed
    ensures Scanning(disk.files, files0, r) && DeferredCleanups.Removes(old(disk.files), disk.files, {p})
    ensures Looked(p, files0, r) && Adds(result, r, p, files0, !disk.failed)
    ensures Tells(result, r, p, files0, disk.files, !disk.failed)
    ensures !disk.failed && Orphan(p, files0) ==> p !in disk.files
    ensures p.name.Utf8? ==> r.sawCacheFiles
  {
    r := result;
    if p.name.Utf8? {
      r := r.(sawCacheFiles := true);
      if EndsWith(p.name.text, BODY) {
        r := ScanBody(disk, p, r, files0);
        return;
      } else if EndsWith(p.name.text, META) {
        r := ScanMeta(disk, p, r, files0);
        return;
      }
    }
  }

  // ---------- one shard ----------

  /**
    The bytes that orphans still have on disk are counted as unreclaimed, unless the scan says that
    it missed something or does not know a size.
  */
  ghost predicate OrphansTold(r: DirScan, orphans: set<Path>, files: Files, quiet: bool) {
    && r.unreclaimed <= r.totalBytes
    && (quiet ==> r.unreclaimed == 0 && r.unknownOrphans == 0)
    && (!r.incomplete && r.unknownOrphans == 0 ==> BytesOf(orphans, files) <= r.unreclaimed)
  }

  function OrphansAmong(d: Shard, names: seq<Name>, files: Files): set<Path> {
    set p | p in files && p.shard == d && p.name in names && Orphan(p, files)
  }

  function OrphansOver(shards: seq<Shard>, files: Files): set<Path> {
    set p | p in files && p.shard in shards && Orphan(p, files)
  }

  lemma OneMoreTold(result: DirScan, r: DirScan, d: Shard, names: seq<Name>, n: Name, files0: Files, files1: Files, files2: Files, before: bool, quiet: bool)
    requires OrphansTold(result, OrphansAmong(d, names, files0), files1, before) && (quiet ==> before)
    requires Tells(result, r, Path(d, n), files0, files2, quiet) && Grows(result, r)
    requires n !in names && Path(d, n) in files0 && Shrinks(files1, files2)
    ensures OrphansTold(r, OrphansAmong(d, names + [n], files0), files2, quiet)
  {
    var told, p := OrphansAmong(d, names, files0), Path(d, n);
    BytesMonotone(told, told, files1, files2);
    if Orphan(p, files0) {
      assert OrphansAmong(d, names + [n], files0) == told + {p};
      BytesUnion(told, {p}, files2);
      BytesOne(p, files2);
    } else {
      assert OrphansAmong(d, names + [n], files0) == told;
    }
  }

  lemma ShardsTold(r: DirScan, dir: DirScan, done: seq<Shard>, d: Shard, files0: Files, files1: Files, files2: Files, before: bool, quiet: bool)
    requires OrphansTold(r, OrphansOver(done, files0), files1, before) && (quiet ==> before) && d !in done
    requires OrphansTold(dir, OrphansOver([d], files1), files2, quiet)
    requires Untouched(done, files0, files1) && OnlyOrphansGone(files1, files2)
    ensures OrphansTold(Merge(r, dir), OrphansOver(done + [d], files0), files2, quiet)
  {
    var mine, more := OrphansOver(done, files0), OrphansOver([d], files0);
    assert more == OrphansOver([d], files1);
    assert OrphansOver(done + [d], files0) == mine + more;
    BytesMonotone(mine, mine, files1, files2);
    BytesUnion(mine, more, files2);
  }

  /** Nothing is taken from other shards. */
  ghost predicate Elsewhere(d: Shard, files0: Files, files: Files) {
    forall p {:trigger p in files} :: p in files0 && p.shard != d ==> p in files
  }

  lemma StillElsewhere(d: Shard, n: Name, files0: Files, files1: Files, files2: Files)
    requires Elsewhere(d, files0, files1) && DeferredCleanups.Removes(files1, files2, {Path(d, n)})
    ensures Elsewhere(d, files0, files2)
  {
  }

  /** What is known after some names of the shard. */
  ghost predicate Partly(d: Shard, names: seq<Name>, files0: Files, files: Files, quiet: bool, tidy: bool, r: DirScan) {
    && Scanning(files, files0, r)
    && (forall n :: n in names ==> Looked(Path(d, n), files0, r) && (n.Utf8? ==> r.sawCacheFiles))
    && (quiet ==> forall n :: n in names && Orphan(Path(d, n), files0) ==> Path(d, n) !in files)
    && (tidy ==> Counted(r.totalBytes, r.entryCount, Shares(d, names, files0), files0, quiet))
    && OrphansTold(r, OrphansAmong(d, names, files0), files, quiet)
    && Elsewhere(d, files0, files) && FlagHasCause(r, files0, quiet)
  }

  lemma OneMoreAdded(result: DirScan, r: DirScan, d: Shard, names: seq<Name>, n: Name, files0: Files, before: bool, quiet: bool)
    requires Adds(result, r, Path(d, n), files0, quiet) && (quiet ==> before)
    requires Fitting(d, files0) && n !in names && Path(d, n) in files0
    requires Counted(result.totalBytes, result.entryCount, Shares(d, names, files0), files0, before)
    ensures Counted(r.totalBytes, r.entryCount, Shares(d, names + [n], files0), files0, quiet)
  {
    assert Counted(r.totalBytes - result.totalBytes, r.entryCount - result.entryCount, Share(Path(d, n), files0), files0, quiet);
    SharesGrow(d, names, n, files0);
    CountedBoth(result.totalBytes, result.entryCount, Shares(d, names, files0),
                r.totalBytes - result.totalBytes, r.entryCount - result.entryCount, Share(Path(d, n), files0), files0, quiet);
  }

  /** One name more. */
  method ScanNext(disk: Disk, d: Shard, ghost names: seq<Name>, n: Name, result: DirScan, ghost files0: Files, ghost tidy: bool) returns (r: DirScan)
    requires tidy ==> Fitting(d, files0)
    requires disk.Valid() && Partly(d, names, files0, disk.files, !disk.failed, tidy, result) && n !in names && Path(d, n) in files0
    modifies disk
    ensures disk.Valid() && (old(disk.failed) ==> disk.failed)
    ensures DeferredCleanups.Removes(old(disk.files), disk.files, {Path(d, n)})
    ensures Partly(d, names + [n], files0, disk.files, !disk.failed, tidy, r) && Grows(result, r)
  {
    r := ScanName(disk, Path(d, n), result, files0);
    StillElsewhere(d, n, files0, old(disk.files), disk.files);
    OneMoreTold(result, r, d, names, n, files0, old(disk.files), disk.files, !old(disk.failed), !disk.failed);
    if tidy {
      OneMoreAdded(result, r, d, names, n, files0, !old(disk.failed), !disk.failed);
    }
  }

  /** Every file of the shard's entries. */
  ghost predicate Totals(r: DirScan, d: Shard, files0: Files, files: Files, quiet: bool) {
    && Counted(r.totalBytes, r.entryCount, ShardFiles(d, files0), files0, quiet)
    && (quiet ==> forall p :: p in ShardFiles(d, files0) && Orphan(p, files0) ==> p !in files)
  }

  ghost predicate KnowsShard(r: DirScan, d: Shard, files: Files) {
    && (forall p :: p in files && p.shard == d && Own(p) ==> Knows(r, files[p]))
    && (forall p :: p in files && p.shard == d && p.name.Utf8? ==> r.incomplete || r.sawCacheFiles)
  }

  /** What the scan of a shard owes. */
  ghost predicate ShardScanned(r: DirScan, d: Shard, files0: Files, files: Files, quiet: bool) {
    && Scanning(files, files0, r) && KnowsShard(r, d, files0)
    && Elsewhere(d, files0, files)
    && (Tidy(files0) && HashShard(d) ==> Totals(r, d, files0, files, quiet))
    && OrphansTold(r, OrphansOver([d], files0), files, quiet) && FlagHasCause(r, files0, quiet)
  }

  lemma NextIsNew(names: seq<Name>, i: nat)
    requires Distinct(names) && i < |names|
    ensures names[i] !in names[..i] && names[..i + 1] == names[..i] + [names[i]]
  {
  }

  /** The loop over the listed names; it may break off. */
  method ScanNames(disk: Disk, d: Shard, names: seq<Name>, ghost tidy: bool) returns (r: DirScan, whole: bool)
    requires disk.Valid() && Distinct(names) && forall n :: n in names ==> Path(d, n) in disk.files
    requires tidy ==> Fitting(d, disk.files)
    modifies disk
    ensures old(disk.failed) || !whole ==> disk.failed
    ensures disk.Valid()
    ensures whole ==> Partly(d, names, old(disk.files), disk.files, !disk.failed, tidy, r)
    ensures !whole ==> r.incomplete && BrokeOff(d, names, old(disk.files), disk.files, tidy, r)
  {
    ghost var files0 := disk.files;
    r, whole := DirScan(0, false, false, 0, 0, 0, 0), true;
    var i := 0;
    NoNamesYet(d, files0, !disk.failed, tidy);
    while i < |names|
      invariant 0 <= i <= |names| && whole
      invariant old(disk.failed) ==> disk.failed
      invariant disk.Valid() && Partly(d, names[..i], files0, disk.files, !disk.failed, tidy, r)
    {
      var fails := disk.Fails();
      if fails {
        ScanBreaksOff(r, d, names, i, files0, disk.files, tidy);
        r, whole := r.(incomplete := true), false;
        return;
      }
      NextIsNew(names, i);
      r := ScanNext(disk, d, names[..i], names[i], r, files0, tidy);
      i := i + 1;
    }
    assert names[..i] == names;
  }

  /** `scan_hash_dir` */
  method ScanHashDir(disk: Disk, d: Shard) returns (r: DirScan)
    requires disk.Valid()
    modifies disk
    ensures old(disk.failed) ==> disk.failed
    ensures disk.Valid() && ShardScanned(r, d, old(disk.files), disk.files, !disk.failed)
  {
    ghost var files0 := disk.files;
    r := DirScan(0, false, false, 0, 0, 0, 0);
    var entries := disk.ReadShard(d);
    match entries {
      case Missing =>
        assert ShardFiles(d, files0) == {} && OrphansOver([d], files0) == {};
        CountedNothing(files0, !disk.failed);
      case Failed =>
        r := r.(incomplete := true);
        NothingCounted(d, files0);
      case Ok(names) =>
        if Tidy(files0) && HashShard(d) { TidyIsFitting(d, files0); }
        var whole;
        r, whole := ScanNames(disk, d, names, Tidy(files0) && HashShard(d));
        if whole {
          ScanEnds(r, d, names, files0, disk.files, !disk.failed);
        } else {
          ScanBrokeOff(r, d, names, files0, disk.files);
        }
    }
  }

  /** What is known when the listing breaks off: nothing was counted twice. */
  ghost predicate BrokeOff(d: Shard, names: seq<Name>, files0: Files, files: Files, tidy: bool, r: DirScan) {
    && Scanning(files, files0, r) && r.unreclaimed <= r.totalBytes && Elsewhere(d, files0, files)
    && (tidy ==> Counted(r.totalBytes, r.entryCount, Shares(d, names, files0), files0, false))
  }

  lemma ScanBreaksOff(r: DirScan, d: Shard, names: seq<Name>, i: nat, files0: Files, files: Files, tidy: bool)
    requires i <= |names| && Partly(d, names[..i], files0, files, false, tidy, r)
    ensures BrokeOff(d, names, files0, files, tidy, r.(incomplete := true))
  {
    CountedMore(r, Shares(d, names[..i], files0), Shares(d, names, files0), files0, tidy);
  }

  lemma CountedMore(r: DirScan, some: set<Path>, all: set<Path>, files: Files, tidy: bool)
    requires some <= all && (tidy ==> exists quiet :: Counted(r.totalBytes, r.entryCount, some, files, quiet))
    ensures tidy ==> Counted(r.totalBytes, r.entryCount, all, files, false)
  {
    BytesMonotone(some, all, files, files);
    assert Bodies(all) == Bodies(some) + Bodies(all - some);
  }

  lemma NoNamesYet(d: Shard, files: Files, quiet: bool, tidy: bool)
    ensures Partly(d, [], files, files, quiet, tidy, DirScan(0, false, false, 0, 0, 0, 0))
  {
    assert Shares(d, [], files) == {} && OrphansAmong(d, [], files) == {};
    CountedNothing(files, quiet);
  }

  lemma NothingCounted(d: Shard, files: Files)
    ensures Counted(0, 0, ShardFiles(d, files), files, false)
  {
  }

  /** When the listing breaks off, what was counted so far is not too much. */
  lemma ScanBrokeOff(r: DirScan, d: Shard, names: seq<Name>, files0: Files, files: Files)
    requires BrokeOff(d, names, files0, files, Tidy(files0) && HashShard(d), r) && r.incomplete
    requires Elsewhere(d, files0, files)
    ensures ShardScanned(r, d, files0, files, false)
  {
    CountedMore(r, Shares(d, names, files0), ShardFiles(d, files0), files0, Tidy(files0) && HashShard(d));
  }

  lemma ScanEnds(r: DirScan, d: Shard, names: seq<Name>, files0: Files, files: Files, quiet: bool)
    requires forall n :: n in names <==> Path(d, n) in files0
    requires Partly(d, names, files0, files, quiet, Tidy(files0) && HashShard(d), r)
    ensures ShardScanned(r, d, files0, files, quiet)
  {
    AllShares(d, names, files0);
    EveryMetaKnown(d, names, files0, r);
    forall p | p in files0 && p.shard == d ensures p.name in names { assert p == Path(d, p.name); }
    assert OrphansAmong(d, names, files0) == OrphansOver([d], files0);
  }

  /** Metadata with a body is known from the body's name, metadata without one from its own. */
  lemma EveryMetaKnown(d: Shard, names: seq<Name>, files: Files, r: DirScan)
    requires forall n :: n in names <==> Path(d, n) in files
    requires forall n :: n in names ==> Looked(Path(d, n), files, r) && (n.Utf8? ==> r.sawCacheFiles)
    ensures KnowsShard(r, d, files)
  {
    forall p | p in files && p.shard == d && Own(p) ensures Knows(r, files[p]) {
      BodyForIsBody(p);
      var from := if BodyFor(p) in files then BodyFor(p) else p;
      assert from == Path(d, from.name);
    }
    forall p | p in files && p.shard == d ensures p.name in names { assert p == Path(d, p.name); }
  }

  // ---------- all shards ----------

  /** Metadata files the cache could have written: in a shard of the layout, under their own name. */
  predicate EntryMeta(p: Path) {
    HashShard(p.shard) && Own(p)
  }

  /** What a scan of these shards owes for every metadata file in them. */
  ghost predicate Accounts(r: DirScan, files: Files, shards: seq<Shard>) {
    forall p :: p in files && EntryMeta(p) && p.shard in shards ==> Knows(r, files[p]) && (r.incomplete || r.sawCacheFiles)
  }

  function Merge(r: DirScan, dir: DirScan): DirScan {
    DirScan(Max(r.maxFillId, dir.maxFillId), r.sawCacheFiles || dir.sawCacheFiles, r.incomplete || dir.incomplete,
            r.totalBytes + dir.totalBytes, r.entryCount + dir.entryCount,
            r.unreclaimed + dir.unreclaimed, r.unknownOrphans + dir.unknownOrphans)
  }

  /** The shards done so far, and the others as they were. */
  ghost predicate Untouched(shards: seq<Shard>, files0: Files, files: Files) {
    OnlyOrphansGone(files0, files) && forall p :: p in files0 && p.shard !in shards ==> p in files
  }

  lemma MergeAccounts(r: DirScan, dir: DirScan, files0: Files, files1: Files, done: seq<Shard>, d: Shard)
    requires Accounts(r, files0, done) && OnlyOrphansGone(files0, files1) && KnowsShard(dir, d, files1)
    ensures Accounts(Merge(r, dir), files0, done + [d])
  {
    forall p | p in files0 && EntryMeta(p) && p.shard in done + [d]
      ensures Knows(Merge(r, dir), files0[p]) && (Merge(r, dir).incomplete || Merge(r, dir).sawCacheFiles)
    {
      if p.shard !in done { MetaStays(files0, files1, p); }
    }
  }

  lemma OrphansGoneTwice(files0: Files, files1: Files, files2: Files)
    requires OnlyOrphansGone(files0, files1) && OnlyOrphansGone(files1, files2)
    ensures OnlyOrphansGone(files0, files2)
  {
    forall p | p in files0 && p !in files2 ensures Orphan(p, files0) {
      if p in files1 {
        assert Orphan(p, files1);
        MetaForIsMeta(p);
        MetaStays(files0, files1, MetaFor(p));
      }
    }
  }

  /** The body and metadata files of these shards. */
  function FilesOver(shards: seq<Shard>, files: Files): set<Path> {
    set p | p in files && p.shard in shards && (IsBody(p) || IsMeta(p))
  }

  ghost predicate TotalsOver(r: DirScan, shards: seq<Shard>, files0: Files, files: Files, quiet: bool) {
    && Counted(r.totalBytes, r.entryCount, FilesOver(shards, files0), files0, quiet)
    && (quiet ==> forall p :: p in FilesOver(shards, files0) && Orphan(p, files0) ==> p !in files)
  }

  /** A shard nobody has scanned yet counts the same before and after the others were. */
  lemma CountedLater(bytes: nat, entries: nat, d: Shard, files0: Files, files1: Files, quiet: bool)
    requires Counted(bytes, entries, ShardFiles(d, files1), files1, quiet) && OnlyOrphansGone(files0, files1)
    requires forall p :: p in files0 && p.shard == d ==> p in files1
    ensures Counted(bytes, entries, ShardFiles(d, files0), files0, quiet)
  {
    var all := ShardFiles(d, files0);
    assert all == ShardFiles(d, files1);
    assert Kept(all, files0) == Kept(all, files1);
    BytesMonotone(all, all, files0, files1);
    BytesMonotone(all, all, files1, files0);
    BytesMonotone(Kept(all, files0), Kept(all, files0), files0, files1);
    BytesMonotone(Kept(all, files0), Kept(all, files0), files1, files0);
  }

  lemma NoOrphansLeft(done: seq<Shard>, d: Shard, files0: Files, files1: Files, files2: Files)
    requires OnlyOrphansGone(files0, files1) && OnlyOrphansGone(files1, files2)
    requires forall p :: p in FilesOver(done, files0) && Orphan(p, files0) ==> p !in files1
    requires forall p :: p in ShardFiles(d, files1) && Orphan(p, files1) ==> p !in files2
    ensures forall p :: p in FilesOver(done + [d], files0) && Orphan(p, files0) ==> p !in files2
  {
    forall p | p in FilesOver(done + [d], files0) && Orphan(p, files0) ensures p !in files2 {
      if p.shard == d && p in files1 { assert p in ShardFiles(d, files1) && Orphan(p, files1); }
    }
  }

  lemma FilesOverOneMore(done: seq<Shard>, d: Shard, files: Files)
    requires d !in done
    ensures FilesOver(done + [d], files) == FilesOver(done, files) + ShardFiles(d, files)
    ensures FilesOver(done, files) !! ShardFiles(d, files)
  {
  }

  lemma MergeTotals(r: DirScan, dir: DirScan, done: seq<Shard>, d: Shard, files0: Files, files1: Files, files2: Files, before: bool, quiet: bool)
    requires TotalsOver(r, done, files0, files1, before) && Untouched(done, files0, files1) && d !in done && (quiet ==> before)
    requires Totals(dir, d, files1, files2, quiet) && OnlyOrphansGone(files1, files2)
    ensures TotalsOver(Merge(r, dir), done + [d], files0, files2, quiet)
  {
    var mine, more := FilesOver(done, files0), ShardFiles(d, files0);
    FilesOverOneMore(done, d, files0);
    CountedLater(dir.totalBytes, dir.entryCount, d, files0, files1, quiet);
    assert Counted(r.totalBytes, r.entryCount, mine, files0, quiet);
    CountedBoth(r.totalBytes, r.entryCount, mine, dir.totalBytes, dir.entryCount, more, files0, quiet);
    if quiet { NoOrphansLeft(done, d, files0, files1, files2); }
  }

  /** Without failures the totals are what the scan leaves on disk. */
  lemma TotalsAreExact(r: DirScan, shards: seq<Shard>, files0: Files, files: Files)
    requires TotalsOver(r, shards, files0, files, true) && OnlyOrphansGone(files0, files)
    requires FilesOver(shards, files0) == EntryFiles(files0)
    ensures r.totalBytes == EntryBytes(files) && r.entryCount == |Bodies(EntryFiles(files))|
  {
    var left := Kept(EntryFiles(files0), files0);
    assert left == EntryFiles(files);
    BytesMonotone(left, left, files0, files);
    BytesMonotone(left, left, files, files0);
  }

  lemma TotalsAreNoMore(r: DirScan, shards: seq<Shard>, files0: Files, files: Files, quiet: bool)
    requires TotalsOver(r, shards, files0, files, quiet) && forall d :: d in shards ==> HashShard(d)
    ensures r.totalBytes <= EntryBytes(files0) && r.entryCount <= |Bodies(EntryFiles(files0))|
  {
    var some, all := FilesOver(shards, files0), EntryFiles(files0);
    BytesMonotone(some, all, files0, files0);
    assert Bodies(all) == Bodies(some) + Bodies(all - some);
  }

  lemma TotalsAtTheEnd(r: DirScan, shards: seq<Shard>, files0: Files, files: Files, quiet: bool)
    requires TotalsOver(r, shards, files0, files, quiet) && OnlyOrphansGone(files0, files)
    requires forall d :: d in shards ==> HashShard(d)
    requires quiet ==> forall p :: p in files0 && HashShard(p.shard) ==> p.shard in shards
    ensures r.totalBytes <= EntryBytes(files0) && r.entryCount <= |Bodies(EntryFiles(files0))|
    ensures quiet ==> r.totalBytes == EntryBytes(files) && r.entryCount == |Bodies(EntryFiles(files))|
  {
    TotalsAreNoMore(r, shards, files0, files, quiet);
    if quiet {
      assert FilesOver(shards, files0) == EntryFiles(files0);
      TotalsAreExact(r, shards, files0, files);
    }
  }

  /** The orphans in the shards of the layout. */
  function OrphanFiles(files: Files): set<Path> {
    set p | p in files && HashShard(p.shard) && Orphan(p, files)
  }

  /** What is known after some shards. */
  ghost predicate Halfway(done: seq<Shard>, files0: Files, files: Files, quiet: bool, r: DirScan) {
    && Scanning(files, files0, r) && Untouched(done, files0, files) && Accounts(r, files0, done)
    && (Tidy(files0) ==> TotalsOver(r, done, files0, files, quiet))
    && OrphansTold(r, OrphansOver(done, files0), files, quiet) && FlagHasCause(r, files0, quiet)
  }

  lemma OneShardMore(r: DirScan, dir: DirScan, done: seq<Shard>, d: Shard, files0: Files, files1: Files, files2: Files, before: bool, quiet: bool)
    requires Halfway(done, files0, files1, before, r) && d !in done && HashShard(d) && (quiet ==> before)
    requires ShardScanned(dir, d, files1, files2, quiet)
    ensures Halfway(done + [d], files0, files2, quiet, Merge(r, dir))
  {
    OrphansGoneTwice(files0, files1, files2);
    MergeAccounts(r, dir, files0, files1, done, d);
    ShardsTold(r, dir, done, d, files0, files1, files2, before, quiet);
    assert Unparsed(files1) ==> Unparsed(files0);
    if Tidy(files0) {
      assert Tidy(files1);
      MergeTotals(r, dir, done, d, files0, files1, files2, before, quiet);
    }
  }

  /** The fill id of every key's metadata is known, or the scan is flagged. */
  ghost predicate KnowsKeys(r: DirScan, files: Files) {
    forall key: Digest :: MetaOf(key) in files ==> Knows(r, files[MetaOf(key)]) && (r.incomplete || r.sawCacheFiles)
  }

  lemma KeyMetaIsEntryMeta(key: Digest)
    ensures EntryMeta(MetaOf(key))
  {
    DigestsHaveShards(key);
    KeyFiles(key);
  }

  /** What a whole scan owes. */
  ghost predicate AllScanned(r: DirScan, files0: Files, files: Files, quiet: bool) {
    && KnowsKeys(r, files0)
    && (Tidy(files0) ==> r.totalBytes <= EntryBytes(files0) && r.entryCount <= |Bodies(EntryFiles(files0))|)
    && (Tidy(files0) && quiet ==> r.totalBytes == EntryBytes(files) && r.entryCount == |Bodies(EntryFiles(files))|)
    && OrphansTold(r, OrphanFiles(files0), files, quiet) && FlagHasCause(r, files0, quiet)
  }

  lemma ScanIsOver(r: DirScan, dirs: seq<Shard>, files0: Files, files: Files, quiet: bool, complete: bool)
    requires Halfway(dirs, files0, files, quiet, r) && forall d :: d in dirs ==> HashShard(d)
    requires if complete then forall p :: p in files0 && HashShard(p.shard) ==> p.shard in dirs else r.incomplete && !quiet
    ensures AllScanned(r, files0, files, quiet)
  {
    if Tidy(files0) { TotalsAtTheEnd(r, dirs, files0, files, quiet); }
    if complete { assert OrphansOver(dirs, files0) == OrphanFiles(files0); }
    forall key: Digest | MetaOf(key) in files0
      ensures Knows(r, files0[MetaOf(key)]) && (r.incomplete || r.sawCacheFiles)
    {
      KeyMetaIsEntryMeta(key);
    }
  }

  lemma NoShardYet(r: DirScan, files: Files, quiet: bool)
    requires r == DirScan(0, false, r.incomplete, 0, 0, 0, 0) && (r.incomplete ==> !quiet)
    ensures Halfway([], files, files, quiet, r)
  {
    CountedNothing(files, quiet);
    assert FilesOver([], files) == {} && OrphansOver([], files) == {};
  }

  /** The shards, one after another. */
  method ScanDirs(disk: Disk, dirs: seq<Shard>, incomplete: bool) returns (r: DirScan)
    requires disk.Valid() && Distinct(dirs) && (forall d :: d in dirs ==> HashShard(d)) && (incomplete ==> disk.failed)
    modifies disk
    ensures disk.Valid() && (old(disk.failed) ==> disk.failed) && (incomplete ==> r.incomplete)
    ensures Halfway(dirs, old(disk.files), disk.files, !disk.failed, r)
  {
    ghost var files0 := disk.files;
    r := DirScan(0, false, incomplete, 0, 0, 0, 0);
    var i := 0;
    NoShardYet(r, files0, !disk.failed);
    while i < |dirs|
      invariant 0 <= i <= |dirs|
      invariant disk.Valid() && (old(disk.failed) ==> disk.failed) && (incomplete ==> r.incomplete)
      invariant Halfway(dirs[..i], files0, disk.files, !disk.failed, r)
    {
      ghost var files1, before := disk.files, !disk.failed;
      var dir := ScanHashDir(disk, dirs[i]);
      NextDirIsNew(dirs, i);
      OneShardMore(r, dir, dirs[..i], dirs[i], files0, files1, disk.files, before, !disk.failed);
      r := Merge(r, dir);
      i := i + 1;
    }
    assert dirs[..i] == dirs;
  }

  lemma NextDirIsNew(dirs: seq<Shard>, i: nat)
    requires Distinct(dirs) && i < |dirs|
    ensures dirs[i] in dirs && dirs[i] !in dirs[..i] && dirs[..i + 1] == dirs[..i] + [dirs[i]]
  {
  }

  /**
    `scan_existing_stats_inner`: walk, scan every shard, aggregate. Nothing but orphan bodies is
    removed, no fill id and no byte of an orphan is missed silently. On a tidy disk the totals are
    never more than what was there, and without failures exactly what is left.
  */
  method ScanExisting(disk: Disk) returns (r: DirScan)
    requires disk.Valid()
    modifies disk
    ensures old(disk.failed) ==> disk.failed
    ensures disk.Valid() && Scanning(disk.files, old(disk.files), r)
    ensures AllScanned(r, old(disk.files), disk.files, !disk.failed)
  {
    ghost var files0 := disk.files;
    var walk := CollectHashDirs(disk, BestEffort);
    r := ScanDirs(disk, walk.value.dirs, walk.value.incomplete);
    ScanIsOver(r, walk.value.dirs, files0, disk.files, !disk.failed, !walk.value.incomplete);
  }

  // ---------- what follows ----------

  /**
    The first fill id handed out exceeds every fill id on disk, or the allocator is at its end and
    refuses, or startup is refused. With a counter file this rests on the counter being ahead of
    every published fill id, which is what the allocator keeps (Protocol).
  */
  lemma FirstIdIsNew(r: DirScan, files: Files, counter: CounterFile)
    requires KnowsKeys(r, files)
    requires forall p :: p in files && files[p].parsed.Some? ==> files[p].parsed.value.fillId <= MAX_U64
    requires counter.Stored? && counter.value > 0 ==>
               forall p :: p in files && files[p].parsed.Some? ==> files[p].parsed.value.fillId < counter.value
    ensures var start := LoadNextFillId(counter, StartupScan(r.maxFillId, r.sawCacheFiles, r.incomplete));
            && (start.Refuse? <==> counter.Damaged? || counter == Stored(0) || (counter.Missing? && r.incomplete))
            && (start.Start? ==> start.next >= 1)
            && (start.Start? ==> forall key: Digest :: MetaOf(key) in files && files[MetaOf(key)].parsed.Some? ==>
                  files[MetaOf(key)].parsed.value.fillId < start.next || start.next == MAX_U64)
  {
  }

  /** What a first id can come from: the stored counter, or a fill id that is on disk, or nothing at all. */
  ghost predicate HasCause(next: nat, counter: CounterFile, files: Files) {
    || next == 1 || counter == Stored(next)
    || exists p :: p in files && files[p].parsed.Some? && next == SatAdd(files[p].parsed.value.fillId, 1)
  }

  /**
    Nor is the allocator ahead of what exists: while neither the stored counter nor a fill id on disk
    is at its end, the next reservation is not refused (DiskCache.ReserveFillId).
  */
  lemma FirstIdHasCause(r: DirScan, files: Files, counter: CounterFile)
    requires Occurs(r.maxFillId, files)
    ensures var start := LoadNextFillId(counter, StartupScan(r.maxFillId, r.sawCacheFiles, r.incomplete));
            && (start.Start? ==> HasCause(start.next, counter, files))
            && (start.Start? && (counter.Stored? ==> counter.value < MAX_U64)
                && (forall p :: p in files && files[p].parsed.Some? ==> files[p].parsed.value.fillId < MAX_U64 - 1)
                ==> start.next < MAX_U64)
  {
    if r.maxFillId != 0 {
      var p :| p in files && files[p].parsed.Some? && files[p].parsed.value.fillId == r.maxFillId;
    }
  }

  /** The metadata files on disk are those of the protocol's keys. */
  ghost predicate Represents(files: Files, keys: seq<Protocol.KeyState>) {
    && (forall k :: 0 <= k < |keys| && keys[k].files.live.meta.Some? ==> InFiles(files, keys[k].files.live.meta.value.id))
    && (forall p :: p in files && files[p].parsed.Some? ==> Protocol.OnDisk(keys, files[p].parsed.value.fillId))
  }

  ghost predicate InFiles(files: Files, id: nat) {
    exists key: Digest :: MetaOf(key) in files && files[MetaOf(key)].parsed.Some? && files[MetaOf(key)].parsed.value.fillId == id
  }

  /** What ScanExisting promises is what the protocol assumes of a restart. */
  lemma ScanServesRestart(r: DirScan, files: Files, keys: seq<Protocol.KeyState>)
    requires Represents(files, keys) && Occurs(r.maxFillId, files) && KnowsKeys(r, files)
    ensures Protocol.ScanIsSound(StartupScan(r.maxFillId, r.sawCacheFiles, r.incomplete), keys)
  {
    forall id: nat | Protocol.OnDisk(keys, id) ensures r.incomplete || id <= r.maxFillId {
      var k :| 0 <= k < |keys| && keys[k].files.live.meta.Some? && keys[k].files.live.meta.value.id == id;
      assert InFiles(files, id);
    }
  }
}
