/**
  What the startup scan adds up (disk.rs:655-892). Entries are counted from their body's name, a
  leftover metadata file from its own, so on a tidy disk every file is counted under one name.
*/
module StartupTotals {
  import opened Common
  import opened Filesystem
  import opened Layout
  import opened Accounting

  /** The body and metadata files of one shard. */
  function ShardFiles(d: Shard, files: Files): set<Path> {
    set p | p in files && p.shard == d && (IsBody(p) || IsMeta(p))
  }

  /** A body that lies there without metadata. */
  predicate Orphan(p: Path, files: Files) {
    IsBody(p) && MetaFor(p) !in files
  }

  function Kept(paths: set<Path>, files: Files): set<Path> {
    set p | p in paths && !Orphan(p, files)
  }

  function Bodies(paths: set<Path>): set<Path> {
    set p | p in paths && IsBody(p)
  }

  /** The name under which a file is counted. */
  function Under(p: Path, files: Files): Name {
    if IsMeta(p) && BodyFor(p) in files then BodyFor(p).name else p.name
  }

  /** The files counted under one name, and under some. */
  function Share(p: Path, files: Files): set<Path> {
    set q | q in ShardFiles(p.shard, files) && Under(q, files) == p.name
  }

  function Shares(d: Shard, names: seq<Name>, files: Files): set<Path> {
    set q | q in ShardFiles(d, files) && Under(q, files) in names
  }

  /** Never too much, and just right when nothing failed. */
  ghost predicate Counted(bytes: nat, entries: nat, paths: set<Path>, files: Files, quiet: bool) {
    && bytes <= BytesOf(paths, files) && entries <= |Bodies(paths)|
    && (quiet ==> bytes == BytesOf(Kept(paths, files), files) && entries == |Bodies(Kept(paths, files))|)
  }

  // ---------- adding up ----------

  lemma BytesUnion(a: set<Path>, b: set<Path>, files: Files)
    requires a !! b
    ensures BytesOf(a + b, files) == BytesOf(a, files) + BytesOf(b, files)
  {
    BytesSplit(a + b, a, files);
    assert (a + b) * a == a && (a + b) - a == b;
  }

  lemma BodiesUnion(a: set<Path>, b: set<Path>)
    requires a !! b
    ensures |Bodies(a + b)| == |Bodies(a)| + |Bodies(b)|
  {
    assert Bodies(a + b) == Bodies(a) + Bodies(b);
  }

  lemma CountedBoth(bytes: nat, entries: nat, a: set<Path>, bytes': nat, entries': nat, b: set<Path>, files: Files, quiet: bool)
    requires a !! b && Counted(bytes, entries, a, files, quiet) && Counted(bytes', entries', b, files, quiet)
    ensures Counted(bytes + bytes', entries + entries', a + b, files, quiet)
  {
    var keptA, keptB := Kept(a, files), Kept(b, files);
    BytesUnion(a, b, files);
    BodiesUnion(a, b);
    BytesUnion(keptA, keptB, files);
    BodiesUnion(keptA, keptB);
    assert Kept(a + b, files) == keptA + keptB;
  }

  lemma SharesGrow(d: Shard, names: seq<Name>, n: Name, files: Files)
    requires n !in names
    ensures Shares(d, names + [n], files) == Shares(d, names, files) + Share(Path(d, n), files)
    ensures Shares(d, names, files) !! Share(Path(d, n), files)
  {
  }

  lemma AllShares(d: Shard, names: seq<Name>, files: Files)
    requires forall n :: n in names <==> Path(d, n) in files
    ensures Shares(d, names, files) == ShardFiles(d, files)
  {
    forall p | p in ShardFiles(d, files) ensures Under(p, files) in names {
      if IsMeta(p) && BodyFor(p) in files {
        assert BodyFor(p) == Path(d, BodyFor(p).name);
      } else {
        assert p == Path(d, p.name);
      }
    }
  }

  // ---------- what one name counts ----------

  /** On a tidy disk the two names of an entry lead to each other. */
  lemma TidyPair(p: Path)
    requires TidyPath(p)
    ensures IsBody(p) ==> BodyFor(MetaFor(p)) == p
    ensures IsMeta(p) ==> MetaFor(BodyFor(p)) == p
  {
    var stem: string :| Plain(stem) &&
      (p == InShard(p.shard, stem, BODY) || p == InShard(p.shard, stem, META) || p == InShard(p.shard, stem, POISON));
    OneSuffix(p.name.text);
    TrimOnce(stem, META);
    TrimOnce(stem, BODY);
    TrimOnce(stem, POISON);
  }

  lemma MetaForIsMeta(body: Path)
    requires IsBody(body)
    ensures IsMeta(MetaFor(body)) && !IsBody(MetaFor(body))
  {
    TrimOnce(TrimEnd(body.name.text, BODY), META);
    OneSuffix(MetaFor(body).name.text);
  }

  lemma InShareOfBody(p: Path, q: Path, files: Files)
    requires Tidy(files) && HashShard(p.shard) && IsBody(p) && q in Share(p, files)
    ensures q == p || (q == MetaFor(p) && q in files)
  {
    if IsMeta(q) && BodyFor(q) in files {
      TidyPair(q);
      assert BodyFor(q) == Path(p.shard, p.name);
    }
  }

  lemma ShareOfBody(p: Path, files: Files)
    requires Tidy(files) && HashShard(p.shard) && p in files && IsBody(p)
    ensures Share(p, files) == if Orphan(p, files) then {p} else {p, MetaFor(p)}
  {
    TidyPair(p);
    MetaForIsMeta(p);
    OneSuffix(p.name.text);
    forall q | q in Share(p, files) ensures q == p || (q == MetaFor(p) && q in files) { InShareOfBody(p, q, files); }
    assert p in Share(p, files);
    if MetaFor(p) in files { assert Under(MetaFor(p), files) == p.name; }
  }

  lemma ShareOfMeta(p: Path, files: Files)
    requires p in files && IsMeta(p)
    ensures Share(p, files) == if BodyFor(p) in files then {} else {p}
  {
    forall q | IsMeta(q) ensures IsBody(BodyFor(q)) && !IsBody(q) { BodyForIsBody(q); }
    forall q | q in Share(p, files) ensures q == p && BodyFor(p) !in files { assert q == Path(q.shard, q.name); }
  }

  lemma ShareOfOther(p: Path, files: Files)
    requires !IsBody(p) && !IsMeta(p)
    ensures Share(p, files) == {}
  {
    forall q | IsMeta(q) ensures IsBody(BodyFor(q)) && !IsBody(q) { BodyForIsBody(q); }
    forall q ensures q !in Share(p, files) { assert q == Path(q.shard, q.name); }
  }

  lemma CountedNothing(files: Files, quiet: bool)
    ensures Counted(0, 0, {}, files, quiet)
  {
    assert Bodies({}) == {} && Kept({}, files) == {};
  }

  /** An entry counted from its body; a stat that fails leaves its part out. */
  lemma CountedEntry(p: Path, files: Files, bytes: nat, entries: nat, quiet: bool)
    requires Tidy(files) && HashShard(p.shard) && p in files && IsBody(p) && MetaFor(p) in files
    requires bytes <= files[p].size + files[MetaFor(p)].size && entries <= 1
    requires quiet ==> bytes == files[p].size + files[MetaFor(p)].size && entries == 1
    ensures Counted(bytes, entries, Share(p, files), files, quiet)
  {
    ShareOfBody(p, files);
    MetaForIsMeta(p);
    BytesTwo(p, MetaFor(p), files);
    assert Bodies({p, MetaFor(p)}) == {p};
    assert Kept({p, MetaFor(p)}, files) == {p, MetaFor(p)};
  }

  lemma CountedOrphan(p: Path, files: Files, bytes: nat, quiet: bool)
    requires Tidy(files) && HashShard(p.shard) && p in files && Orphan(p, files)
    requires bytes <= files[p].size && (quiet ==> bytes == 0)
    ensures Counted(bytes, 0, Share(p, files), files, quiet)
  {
    ShareOfBody(p, files);
    BytesOne(p, files);
    assert Kept({p}, files) == {};
    assert Bodies(Kept({p}, files)) == {};
  }

  lemma CountedLeftover(p: Path, files: Files, bytes: nat, quiet: bool)
    requires p in files && IsMeta(p)
    requires if BodyFor(p) in files then bytes == 0 else bytes <= files[p].size && (quiet ==> bytes == files[p].size)
    ensures Counted(bytes, 0, Share(p, files), files, quiet)
  {
    ShareOfMeta(p, files);
    BodyForIsBody(p);
    BytesOne(p, files);
    if BodyFor(p) in files {
      CountedNothing(files, quiet);
    } else {
      assert Kept({p}, files) == {p} && Bodies({p}) == {};
    }
  }
}
