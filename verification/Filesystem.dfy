/**
  The `objects/XX/YY/` tree as the cache's scans see it. Every operation may fail, whatever is on
  disk; an operation that does not fail tells the truth. Nothing else writes while a scan runs.
*/
module Filesystem {
  import opened Common

  const BODY := ".body"
  const META := ".meta.json"
  const POISON := ".poisoned"

  // ---------- file names ----------

  /** A directory entry's name; `Raw` is one that is not UTF-8. */
  datatype Name = Utf8(text: string) | Raw(bytes: seq<nat>)

  /** `objects/<high>/<low>/` */
  datatype Shard = Shard(high: Name, low: Name)

  datatype Path = Path(shard: Shard, name: Name)

  predicate EndsWith(s: string, suffix: string) {
    |suffix| <= |s| && s[|s| - |suffix|..] == suffix
  }

  /** `str::trim_end_matches`: strips the suffix as often as it occurs. */
  function TrimEnd(s: string, suffix: string): (r: string)
    requires suffix != ""
    ensures !EndsWith(r, suffix) && r <= s
    ensures !EndsWith(s, suffix) ==> r == s
  {
    if EndsWith(s, suffix) then TrimEnd(s[..|s| - |suffix|], suffix) else s
  }

  function InShard(d: Shard, stem: string, suffix: string): Path {
    Path(d, Utf8(stem + suffix))
  }

  /** A stem the suffix-stripping of the scans gives back unchanged. */
  predicate Plain(stem: string) {
    !EndsWith(stem, BODY) && !EndsWith(stem, META) && !EndsWith(stem, POISON)
  }

  lemma TrimOnce(stem: string, suffix: string)
    requires suffix != ""
    ensures EndsWith(stem + suffix, suffix)
    ensures !EndsWith(stem, suffix) ==> TrimEnd(stem + suffix, suffix) == stem
  {
    assert (stem + suffix)[..|stem|] == stem;
  }

  /** Stripping a name leads back to the stem it was made from exactly when the stem does not itself end in the suffix. */
  lemma StemComesBackIff(stem: string, suffix: string)
    requires suffix != ""
    ensures TrimEnd(stem + suffix, suffix) == stem <==> !EndsWith(stem, suffix)
  {
    TrimOnce(stem, suffix);
  }

  lemma LetterAt(s: string, suffix: string, i: nat)
    requires i < |suffix|
    ensures EndsWith(s, suffix) ==> s[|s| - |suffix| + i] == suffix[i]
  {
    if EndsWith(s, suffix) { assert s[|s| - |suffix|..][i] == suffix[i]; }
  }

  /** The three suffixes are told apart by their last letter, so no name has two of them. */
  lemma OneSuffix(s: string)
    ensures !(EndsWith(s, BODY) && EndsWith(s, META)) && !(EndsWith(s, BODY) && EndsWith(s, POISON))
    ensures !(EndsWith(s, META) && EndsWith(s, POISON))
  {
    LetterAt(s, BODY, 4);
    LetterAt(s, META, 9);
    LetterAt(s, POISON, 8);
  }

  predicate HexDigit(c: char) {
    '0' <= c <= '9' || 'a' <= c <= 'f' || 'A' <= c <= 'F'
  }

  /** The stems the scans accept as hashes. */
  predicate HashStem(stem: string) {
    |stem| >= 5 && forall i :: 0 <= i < |stem| ==> HexDigit(stem[i])
  }

  /** Every hash the cache writes is plain, so the scans and the writers agree on its three names. */
  lemma HashesArePlain(stem: string)
    requires HashStem(stem)
    ensures Plain(stem)
  {
    LetterAt(stem, BODY, 4);
    LetterAt(stem, META, 9);
    LetterAt(stem, POISON, 4);
  }

  predicate IsMeta(p: Path) {
    p.name.Utf8? && EndsWith(p.name.text, META)
  }

  predicate IsBody(p: Path) {
    p.name.Utf8? && EndsWith(p.name.text, BODY)
  }

  predicate IsPoison(p: Path) {
    p.name.Utf8? && EndsWith(p.name.text, POISON)
  }

  /** The metadata the scan looks for beside a marker. */
  function MetaForPoison(poison: Path): Path
    requires IsPoison(poison)
  {
    InShard(poison.shard, TrimEnd(poison.name.text, POISON), META)
  }

  /** The body the scan looks for beside a metadata file, and the metadata it looks for beside a body. */
  function BodyFor(meta: Path): Path
    requires IsMeta(meta)
  {
    InShard(meta.shard, TrimEnd(meta.name.text, META), BODY)
  }

  function MetaFor(body: Path): Path
    requires IsBody(body)
  {
    InShard(body.shard, TrimEnd(body.name.text, BODY), META)
  }

  // ---------- what is on disk ----------

  /** The two fields of a `.meta.json` the scans read. */
  datatype Header = Header(fillId: nat, accessed: int)

  /** `parsed` is what the content says when read as metadata, `None` when it is not metadata. */
  datatype File = File(size: nat, parsed: Option<Header>)

  type Files = map<Path, File>

  datatype Io<+T> = Ok(value: T) | Missing | Failed

  /** An entry of a directory above the shards. */
  datatype Node = Dir(entries: map<Name, Node>) | Other

  class Disk {
    var files: Files
    /** `objects/`, when it exists. */
    const objects: Option<map<Name, Node>>
    ghost var failed: bool

    /** A shard that holds a file is a directory of the tree. */
    ghost predicate Valid()
      reads this
    {
      forall p :: p in files ==> IsShard(p.shard)
    }

    ghost predicate IsShard(d: Shard) {
      objects.Some? && d.high in objects.value && objects.value[d.high].Dir?
      && d.low in objects.value[d.high].entries && objects.value[d.high].entries[d.low].Dir?
    }

    constructor (objects: Option<map<Name, Node>>, files: Files)
      ensures this.objects == objects && this.files == files && !failed
    {
      this.objects := objects;
      this.files := files;
      failed := false;
    }

    /** Whether the next operation fails. */
    method Fails() returns (r: bool)
      modifies this`failed
      ensures failed == (old(failed) || r)
    {
      r := *;
      failed := failed || r;
    }

    method Stat(p: Path) returns (r: Io<nat>)
      modifies this`failed
      ensures failed == (old(failed) || r.Failed?)
      ensures r.Ok? ==> p in files && r.value == files[p].size
      ensures r.Missing? ==> p !in files
    {
      var fails := Fails();
      r := if fails then Failed else if p in files then Ok(files[p].size) else Missing;
    }

    method Exists(p: Path) returns (r: Io<bool>)
      modifies this`failed
      ensures failed == (old(failed) || r.Failed?)
      ensures r.Ok? ==> r.value == (p in files)
      ensures !r.Missing?
    {
      var fails := Fails();
      r := if fails then Failed else Ok(p in files);
    }

    method Read(p: Path) returns (r: Io<File>)
      modifies this`failed
      ensures failed == (old(failed) || r.Failed?)
      ensures r.Ok? ==> p in files && r.value == files[p]
      ensures r.Missing? ==> p !in files
    {
      var fails := Fails();
      r := if fails then Failed else if p in files then Ok(files[p]) else Missing;
    }

    /** A removal that reports an error may or may not have happened. */
    method Remove(p: Path) returns (r: Io<()>)
      modifies this
      ensures failed == (old(failed) || r.Failed?)
      ensures files == old(files) || files == old(files) - {p}
      ensures !r.Failed? ==> p !in files
    {
      var fails := Fails();
      if fails {
        r := Failed;
        var gone := *;
        if gone { files := files - {p}; }
      } else {
        r := if p in files then Ok(()) else Missing;
        files := files - {p};
      }
    }

    /** The names in a shard, each once, in any order. */
    method ReadShard(d: Shard) returns (r: Io<seq<Name>>)
      requires Valid()
      modifies this`failed
      ensures failed == (old(failed) || r.Failed?)
      ensures r.Ok? ==> forall n :: n in r.value <==> Path(d, n) in files
      ensures r.Ok? ==> Distinct(r.value)
      ensures r.Missing? ==> forall p :: p in files ==> p.shard != d
    {
      var fails := Fails();
      if fails { return Failed; }
      var names := set p | p in files && p.shard == d :: p.name;
      var listed := Listing(names);
      forall n ensures n in listed <==> Path(d, n) in files {
        if Path(d, n) in files { assert Path(d, n).name in names; }
      }
      r := Ok(listed);
    }
  }

  ghost predicate Distinct<T(!new)>(s: seq<T>) {
    forall i, j :: 0 <= i < j < |s| ==> s[i] != s[j]
  }

  /** The members of a set in some order. */
  method Listing<T(==, !new)>(names: set<T>) returns (r: seq<T>)
    ensures (forall n :: n in r <==> n in names) && Distinct(r)
  {
    r := [];
    var left := names;
    while left != {}
      invariant left <= names && Distinct(r)
      invariant forall n :: n in r <==> n in names - left
      decreases left
    {
      var n :| n in left;
      left := left - {n};
      assert n !in r;
      r := r + [n];
    }
  }

  // ---------- counting bytes ----------

  function SizeAt(files: Files, p: Path): nat {
    if p in files then files[p].size else 0
  }

  ghost function BytesOf(paths: set<Path>, files: Files): nat {
    if paths == {} then 0 else var p :| p in paths; SizeAt(files, p) + BytesOf(paths - {p}, files)
  }

  lemma {:induction false} BytesRemove(paths: set<Path>, files: Files, q: Path)
    requires q in paths
    ensures BytesOf(paths, files) == SizeAt(files, q) + BytesOf(paths - {q}, files)
  {
    var p :| p in paths && BytesOf(paths, files) == SizeAt(files, p) + BytesOf(paths - {p}, files);
    if p != q {
      BytesRemove(paths - {p}, files, q);
      BytesRemove(paths - {q}, files, p);
      assert paths - {p} - {q} == paths - {q} - {p};
    }
  }

  lemma {:induction false} BytesMonotone(paths: set<Path>, more: set<Path>, files: Files, files': Files)
    requires paths <= more
    requires forall p :: p in paths ==> SizeAt(files', p) <= SizeAt(files, p)
    ensures BytesOf(paths, files') <= BytesOf(more, files)
    decreases more
  {
    if more != {} {
      var p :| p in more;
      BytesRemove(more, files, p);
      if p in paths { BytesRemove(paths, files', p); }
      BytesMonotone(paths - {p}, more - {p}, files, files');
      if p !in paths { assert paths - {p} == paths; }
    }
  }
}
