/** The cleanups an eviction scan defers until it can take the key's lock (eviction.rs:452-922). */
module DeferredCleanups {
  import opened Common
  import opened Filesystem
  import opened Accounting
  import opened EvictionScan

  /** The running totals `process_deferred_cleanups` updates. */
  datatype Tally = Tally(candidates: seq<Candidate>, totalBytes: nat, entryCount: nat, failures: nat)

  /** Everything the totals answer for: the candidates, and what removals left behind. */
  function Claims(t: Tally, rest: seq<Claim>): seq<Claim> {
    ClaimsOf(t.candidates) + rest
  }

  /** The byte total is the candidates plus the unreclaimed bytes. */
  predicate Booked(t: Tally, rest: seq<Claim>) {
    t.totalBytes == SizeSum(t.candidates) + AmountSum(rest)
  }

  predicate TwoFiles(cs: seq<Candidate>) {
    forall i :: 0 <= i < |cs| ==> cs[i].body != cs[i].meta
  }

  ghost predicate Keeps(t: Tally, rest: seq<Claim>, files: Files) {
    Booked(t, rest) && Holds(Claims(t, rest), files) && t.entryCount == |t.candidates| && TwoFiles(t.candidates)
  }

  /** The totals go on answering for what they answered for. */
  ghost predicate Extends(t: Tally, rest: seq<Claim>, t': Tally, rest': seq<Claim>) {
    t.candidates <= t'.candidates && rest <= rest' && t.totalBytes <= t'.totalBytes
  }

  lemma ExtendsAnswers(t: Tally, rest: seq<Claim>, t': Tally, rest': seq<Claim>, p: Path)
    requires Extends(t, rest, t', rest') && InClaims(p, Claims(t, rest))
    ensures InClaims(p, Claims(t', rest'))
  {
    var i :| 0 <= i < |Claims(t, rest)| && p in Claims(t, rest)[i].paths;
    if i < |t.candidates| {
      assert Claims(t', rest')[i] == ClaimOf(t.candidates[i]);
    } else {
      assert Claims(t', rest')[|t'.candidates| + i - |t.candidates|] == rest[i - |t.candidates|];
    }
  }

  /** Only these files disappeared. */
  predicate Removes(files: Files, files': Files, paths: set<Path>) {
    Shrinks(files, files') && forall p :: p in files && p !in files' ==> p in paths
  }

  // ---------- removing one file ----------

  /** `pre_stat_size` */
  method PreStatSize(disk: Disk, p: Path) returns (r: Option<nat>)
    modifies disk`failed
    ensures disk.failed == (old(disk.failed) || r.None?)
    ensures r.Some? ==> r.value == SizeAt(disk.files, p)
  {
    var s := disk.Stat(p);
    r := match s case Ok(size) => Some(size) case Missing => Some(0) case Failed => None;
  }

  /** `measure_unreclaimed_after_failed_remove`; `None` is the error that aborts the pass. */
  method MeasureUnreclaimed(disk: Disk, p: Path, pre: Option<nat>) returns (r: Option<nat>)
    requires pre.Some? ==> SizeAt(disk.files, p) <= pre.value
    modifies disk`failed
    ensures old(disk.failed) || r.None? ==> disk.failed
    ensures r.Some? ==> SizeAt(disk.files, p) <= r.value
    ensures r.Some? ==> r.value == SizeAt(disk.files, p) || pre == r
    ensures r.None? ==> pre.None?
  {
    var s := disk.Stat(p);
    r := match s case Ok(size) => Some(size) case Missing => Some(0) case Failed => pre;
  }

  /**
    `remove_file_or_reclaim_size`: the bytes that may still be on disk for this path. Never less
    than what is there, never more than what was there, and an error only when both stats failed.
  */
  method RemoveOrReclaim(disk: Disk, p: Path) returns (r: Option<nat>)
    modifies disk
    ensures old(disk.failed) || r.None? ==> disk.failed
    ensures Removes(old(disk.files), disk.files, {p})
    ensures r.Some? ==> SizeAt(disk.files, p) <= r.value <= SizeAt(old(disk.files), p)
    ensures !disk.failed ==> r == Some(0) && p !in disk.files
  {
    var pre := PreStatSize(disk, p);
    var removed := disk.Remove(p);
    if removed.Failed? {
      r := MeasureUnreclaimed(disk, p, pre);
    } else {
      r := Some(0);
    }
  }

  // ---------- booking what could not be removed ----------

  /** `account_unreclaimed` */
  function Account(t: Tally, unreclaimed: nat): Tally {
    t.(totalBytes := t.totalBytes + unreclaimed)
  }

  /** The cleanup is counted as failed once if it left bytes behind. */
  function Partial(t: Tally, unreclaimed: nat): Tally {
    if unreclaimed > 0 then t.(failures := t.failures + 1) else t
  }

  lemma AccountKeeps(t: Tally, rest: seq<Claim>, files: Files, files': Files, p: Path, n: nat)
    requires Keeps(t, rest, files) && Shrinks(files, files') && SizeAt(files', p) <= n
    ensures Keeps(Account(t, n), rest + [Claim({p}, n)], files')
    ensures Extends(t, rest, Account(t, n), rest + [Claim({p}, n)])
    ensures InClaims(p, Claims(Account(t, n), rest + [Claim({p}, n)]))
  {
    var c := Claim({p}, n);
    AmountAppend(rest, [c]);
    AmountOne(c);
    HoldsShrink(Claims(t, rest), files, files');
    BytesOne(p, files');
    assert Claims(Account(t, n), rest + [c]) == Claims(t, rest) + [c];
    assert (Claims(t, rest) + [c])[|Claims(t, rest)|] == c;
  }

  lemma RecoverKeeps(t: Tally, rest: seq<Claim>, files: Files, c: Candidate)
    requires Keeps(t, rest, files) && c.body != c.meta && SizeAt(files, c.body) + SizeAt(files, c.meta) <= c.size
    ensures var t' := t.(candidates := t.candidates + [c], totalBytes := t.totalBytes + c.size, entryCount := t.entryCount + 1);
            && Keeps(t', rest, files) && Extends(t, rest, t', rest)
            && InClaims(c.body, Claims(t', rest)) && InClaims(c.meta, Claims(t', rest))
  {
    var t' := t.(candidates := t.candidates + [c], totalBytes := t.totalBytes + c.size, entryCount := t.entryCount + 1);
    SizeSumAppend(t.candidates, [c]);
    assert [c][1..] == [];
    BytesTwo(c.body, c.meta, files);
    assert Claims(t', rest)[|t.candidates|] == ClaimOf(c);
    forall i | 0 <= i < |Claims(t', rest)| ensures BytesOf(Claims(t', rest)[i].paths, files) <= Claims(t', rest)[i].amount {
      if i < |t.candidates| {
        assert Claims(t, rest)[i] == Claims(t', rest)[i];
      } else if i > |t.candidates| {
        assert Claims(t, rest)[i - 1] == Claims(t', rest)[i];
      }
    }
  }

  /** Removes one file and books what may be left of it. */
  method RemoveAndAccount(disk: Disk, p: Path, t: Tally, ghost rest: seq<Claim>)
    returns (r: Option<Tally>, left: nat, ghost rest': seq<Claim>)
    requires Keeps(t, rest, disk.files)
    modifies disk
    ensures old(disk.failed) || r.None? ==> disk.failed
    ensures Removes(old(disk.files), disk.files, {p})
    ensures r.Some? ==> r.value == Account(t, left) && left <= SizeAt(old(disk.files), p)
    ensures r.Some? ==> Keeps(r.value, rest', disk.files) && Extends(t, rest, r.value, rest')
    ensures r.Some? ==> InClaims(p, Claims(r.value, rest'))
    ensures !disk.failed ==> r.Some? && left == 0 && p !in disk.files
  {
    var n := RemoveOrReclaim(disk, p);
    if n.None? { return None, 0, rest; }
    AccountKeeps(t, rest, old(disk.files), disk.files, p, n.value);
    r, left, rest' := Some(Account(t, n.value)), n.value, rest + [Claim({p}, n.value)];
  }

  /** What every cleanup does: it answers for its files and takes nobody else's. */
  ghost predicate Cleaned(files: Files, files': Files, c: Cleanup, t: Tally, rest: seq<Claim>, r: Option<Tally>, rest': seq<Claim>) {
    && Removes(files, files', Touches(c))
    && (r.Some? ==> Keeps(r.value, rest', files') && Extends(t, rest, r.value, rest'))
    && (r.Some? ==> forall p :: p in Handles(c) && p in files' ==> InClaims(p, Claims(r.value, rest')))
  }

  /** With no failure a cleanup whose reason still holds removes its files and counts nothing. */
  ghost predicate CleanedQuietly(files: Files, files': Files, c: Cleanup, t: Tally, r: Option<Tally>) {
    Justified(c, files) && MetaThere(c, files) ==> r == Some(t) && forall p :: p in Touches(c) ==> p !in files'
  }

  predicate MetaThere(c: Cleanup, files: Files) {
    match c
    case OrphanBody(_, _) => true
    case OrphanPoison(_, _) => true
    case CorruptEntry(p) => p.meta in files
    case MalformedHash(p) => p.meta in files
    case MissingBody(p) => p.meta in files
  }

  /** Removes two files and books what may be left of them. */
  method RemoveTwo(disk: Disk, p: Path, q: Path, t: Tally, ghost rest: seq<Claim>)
    returns (r: Option<Tally>, left: nat, ghost rest': seq<Claim>)
    requires Keeps(t, rest, disk.files)
    modifies disk
    ensures old(disk.failed) ==> disk.failed
    ensures Removes(old(disk.files), disk.files, {p, q})
    ensures r.Some? ==> Keeps(r.value, rest', disk.files) && Extends(t, rest, r.value, rest')
    ensures r.Some? ==> InClaims(p, Claims(r.value, rest')) && InClaims(q, Claims(r.value, rest'))
    ensures !disk.failed ==> r == Some(t) && left == 0 && p !in disk.files && q !in disk.files
  {
    var first, second;
    var n, m;
    ghost var rest1;
    first, n, rest1 := RemoveAndAccount(disk, p, t, rest);
    if first.None? { return None, 0, rest; }
    second, m, rest' := RemoveAndAccount(disk, q, first.value, rest1);
    if second.None? { return None, 0, rest; }
    ExtendsAnswers(first.value, rest1, second.value, rest', p);
    r, left := second, n + m;
  }

  /** Removed these three files, or answers for the first two. */
  ghost predicate EntryCleaned(files: Files, files': Files, paths: EntryPaths, t: Tally, rest: seq<Claim>, r: Option<Tally>, rest': seq<Claim>) {
    && Removes(files, files', {paths.body, paths.meta, paths.poison})
    && (r.Some? ==> Keeps(r.value, rest', files') && Extends(t, rest, r.value, rest') && InClaims(paths.meta, Claims(r.value, rest')))
    && (r.Some? && paths.body in files' ==> InClaims(paths.body, Claims(r.value, rest')))
  }

  /** `remove_entry_files`, then `account_unreclaimed` (eviction.rs:534-541). */
  method RemoveEntryFiles(disk: Disk, paths: EntryPaths, t: Tally, ghost rest: seq<Claim>)
    returns (r: Option<Tally>, ghost rest': seq<Claim>)
    requires Keeps(t, rest, disk.files)
    modifies disk
    ensures old(disk.failed) ==> disk.failed
    ensures EntryCleaned(old(disk.files), disk.files, paths, t, rest, r, rest')
    ensures !disk.failed ==> r == Some(t) && paths.body !in disk.files && paths.meta !in disk.files && paths.poison !in disk.files
  {
    var pair, poison;
    var n, m;
    ghost var rest1;
    pair, n, rest1 := RemoveTwo(disk, paths.meta, paths.body, t, rest);
    if pair.None? { return None, rest; }
    poison, m, rest' := RemoveAndAccount(disk, paths.poison, pair.value, rest1);
    if poison.None? { return None, rest; }
    ExtendsAnswers(pair.value, rest1, poison.value, rest', paths.meta);
    ExtendsAnswers(pair.value, rest1, poison.value, rest', paths.body);
    r := Some(Partial(poison.value, n + m));
  }

  /** The body is gone: the metadata and the marker go too (eviction.rs:780-805, 864-888). */
  method RemoveLeftovers(disk: Disk, paths: EntryPaths, t: Tally, ghost rest: seq<Claim>)
    returns (r: Option<Tally>, ghost rest': seq<Claim>)
    requires Keeps(t, rest, disk.files) && paths.body !in disk.files
    modifies disk
    ensures old(disk.failed) ==> disk.failed
    ensures EntryCleaned(old(disk.files), disk.files, paths, t, rest, r, rest')
    ensures !disk.failed ==> r == Some(t) && paths.body !in disk.files && paths.meta !in disk.files && paths.poison !in disk.files
  {
    var left;
    r, left, rest' := RemoveTwo(disk, paths.meta, paths.poison, t, rest);
    if r.Some? { r := Some(Partial(r.value, left)); }
  }

  /** A body whose metadata was missing when the shard was scanned (eviction.rs:655-730). */
  method CleanOrphanBody(disk: Disk, c: Cleanup, t: Tally, ghost rest: seq<Claim>)
    returns (r: Option<Tally>, ghost rest': seq<Claim>)
    requires Keeps(t, rest, disk.files) && c.OrphanBody? && Justified(c, disk.files)
    modifies disk
    ensures old(disk.failed) ==> disk.failed
    ensures Cleaned(old(disk.files), disk.files, c, t, rest, r, rest')
    ensures !disk.failed ==> CleanedQuietly(old(disk.files), disk.files, c, t, r)
  {
    r, rest' := Some(t), rest;
    var probe := disk.Exists(InShard(c.body.shard, c.hash, META));
    if probe == Io.Ok(false) {
      var left: nat;
      r, left, rest' := RemoveAndAccount(disk, c.body, t, rest);
      if r.Some? { r := Some(Partial(r.value, left)); }
    } else if probe.Failed? {
      var size := disk.Stat(c.body);
      match size {
        case Ok(n) =>
          AccountKeeps(t, rest, disk.files, disk.files, c.body, n);
          r, rest' := Some(Account(t, n).(failures := t.failures + 1)), rest + [Claim({c.body}, n)];
        case Missing =>
        case Failed => r := None;
      }
    }
  }

  /** A marker whose metadata was missing (eviction.rs:731-769). */
  method CleanOrphanPoison(disk: Disk, c: Cleanup, t: Tally, ghost rest: seq<Claim>)
    returns (r: Option<Tally>, ghost rest': seq<Claim>)
    requires Keeps(t, rest, disk.files) && c.OrphanPoison? && Justified(c, disk.files)
    modifies disk
    ensures old(disk.failed) ==> disk.failed
    ensures Cleaned(old(disk.files), disk.files, c, t, rest, r, rest')
    ensures !disk.failed ==> CleanedQuietly(old(disk.files), disk.files, c, t, r)
  {
    r, rest' := Some(t), rest;
    var probe := disk.Exists(InShard(c.poison.shard, c.hash, META));
    if probe == Io.Ok(false) {
      var left: nat;
      r, left, rest' := RemoveAndAccount(disk, c.poison, t, rest);
      if r.Some? { r := Some(Partial(r.value, left)); }
    } else if probe.Failed? {
      r := Some(t.(failures := t.failures + 1));
    }
  }

  /** `RecoverOutcome` */
  datatype Recovery = Recovered(candidate: Candidate) | NoBody | BodyStatError | MetaReadError | MetaParseError

  /** `try_recover_entry` */
  method TryRecover(disk: Disk, paths: EntryPaths) returns (r: Recovery)
    modifies disk`failed
    ensures old(disk.failed) ==> disk.failed
    ensures r.Recovered? ==>
              var c := r.candidate;
              && c.body == paths.body && c.meta == paths.meta && c.body in disk.files && c.meta in disk.files
              && c.size == SizeAt(disk.files, c.body) + SizeAt(disk.files, c.meta)
              && disk.files[c.meta].parsed == Some(Header(c.fillId, c.accessed))
    ensures r.NoBody? ==> paths.body !in disk.files
    ensures r.MetaParseError? ==> paths.meta in disk.files && disk.files[paths.meta].parsed.None?
    ensures !disk.failed ==> !r.BodyStatError? && (r.MetaReadError? ==> paths.meta !in disk.files)
  {
    var size := disk.Stat(paths.body);
    if size.Missing? { return NoBody; }
    if size.Failed? { return BodyStatError; }
    var content := disk.Read(paths.meta);
    if !content.Ok? { return MetaReadError; }
    match content.value.parsed {
      case None => r := MetaParseError;
      case Some(header) =>
        r := Recovered(Candidate(paths.body, paths.meta, paths.hash, header.fillId, header.accessed, size.value + content.value.size));
    }
  }

  /** Metadata that did not parse, or whose body was missing (eviction.rs:770-839, 855-919). */
  method CleanEntry(disk: Disk, c: Cleanup, paths: EntryPaths, t: Tally, ghost rest: seq<Claim>)
    returns (r: Option<Tally>, ghost rest': seq<Claim>)
    requires Keeps(t, rest, disk.files) && (c == CorruptEntry(paths) || c == MissingBody(paths)) && paths.body != paths.meta
    modifies disk
    ensures old(disk.failed) ==> disk.failed
    ensures Cleaned(old(disk.files), disk.files, c, t, rest, r, rest')
    ensures !disk.failed ==> CleanedQuietly(old(disk.files), disk.files, c, t, r)
  {
    var outcome := TryRecover(disk, paths);
    match outcome {
      case Recovered(candidate) =>
        RecoverKeeps(t, rest, disk.files, candidate);
        r := Some(t.(candidates := t.candidates + [candidate], totalBytes := t.totalBytes + candidate.size,
                     entryCount := t.entryCount + 1));
        rest' := rest;
      case NoBody =>
        r, rest' := RemoveLeftovers(disk, paths, t, rest);
      case BodyStatError =>
        r, rest' := None, rest;
      case MetaReadError =>
        r, rest' := None, rest;
      case MetaParseError =>
        r, rest' := RemoveEntryFiles(disk, paths, t, rest);
    }
  }

  method Clean(disk: Disk, c: Cleanup, t: Tally, ghost rest: seq<Claim>) returns (r: Option<Tally>, ghost rest': seq<Claim>)
    requires Keeps(t, rest, disk.files) && Justified(c, disk.files)
    modifies disk
    ensures old(disk.failed) ==> disk.failed
    ensures Cleaned(old(disk.files), disk.files, c, t, rest, r, rest')
    ensures !disk.failed ==> CleanedQuietly(old(disk.files), disk.files, c, t, r)
  {
    match c {
      case OrphanBody(_, _) => r, rest' := CleanOrphanBody(disk, c, t, rest);
      case OrphanPoison(_, _) => r, rest' := CleanOrphanPoison(disk, c, t, rest);
      case CorruptEntry(paths) =>
        NamedApart(paths.meta, paths.body, paths.hash);
        r, rest' := CleanEntry(disk, c, paths, t, rest);
      case MalformedHash(paths) => r, rest' := RemoveEntryFiles(disk, paths, t, rest);
      case MissingBody(paths) =>
        NamedApart(paths.meta, paths.body, paths.hash);
        r, rest' := CleanEntry(disk, c, paths, t, rest);
    }
  }
}
