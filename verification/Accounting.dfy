/** Bytes on disk against the bytes somebody answers for. */
module Accounting {
  import opened Common
  import opened Filesystem
  import opened Layout
  import opened KeyHash

  /** These paths hold at most `amount` bytes between them. */
  datatype Claim = Claim(paths: set<Path>, amount: nat)

  function AmountSum(claims: seq<Claim>): nat {
    if claims == [] then 0 else claims[0].amount + AmountSum(claims[1..])
  }

  ghost predicate Holds(claims: seq<Claim>, files: Files) {
    forall i :: 0 <= i < |claims| ==> BytesOf(claims[i].paths, files) <= claims[i].amount
  }

  ghost predicate InClaims(p: Path, claims: seq<Claim>) {
    exists i :: 0 <= i < |claims| && p in claims[i].paths
  }

  /** Files disappear; none appears or grows. */
  predicate Shrinks(files: Files, files': Files) {
    forall p :: p in files' ==> p in files && files'[p] == files[p]
  }

  lemma {:induction false} AmountAppend(a: seq<Claim>, b: seq<Claim>)
    ensures AmountSum(a + b) == AmountSum(a) + AmountSum(b)
  {
    if a == [] {
      assert a + b == b;
    } else {
      assert (a + b)[1..] == a[1..] + b;
      AmountAppend(a[1..], b);
    }
  }

  lemma AmountOne(c: Claim)
    ensures AmountSum([c]) == c.amount
  {
    assert [c][1..] == [];
  }

  lemma HoldsShrink(claims: seq<Claim>, files: Files, files': Files)
    requires Holds(claims, files) && Shrinks(files, files')
    ensures Holds(claims, files')
  {
    forall i | 0 <= i < |claims| ensures BytesOf(claims[i].paths, files') <= claims[i].amount {
      BytesMonotone(claims[i].paths, claims[i].paths, files, files');
    }
  }

  lemma BytesOne(p: Path, files: Files)
    ensures BytesOf({p}, files) == SizeAt(files, p)
  {
    BytesRemove({p}, files, p);
    assert {p} - {p} == {};
  }

  lemma BytesTwo(p: Path, q: Path, files: Files)
    requires p != q
    ensures BytesOf({p, q}, files) == SizeAt(files, p) + SizeAt(files, q)
  {
    BytesRemove({p, q}, files, p);
    assert {p, q} - {p} == {q};
    BytesOne(q, files);
  }

  lemma {:induction false} BytesSplit(paths: set<Path>, part: set<Path>, files: Files)
    ensures BytesOf(paths, files) == BytesOf(paths * part, files) + BytesOf(paths - part, files)
    decreases paths
  {
    if paths == {} {
      assert paths * part == {} && paths - part == {};
    } else {
      var p :| p in paths;
      BytesRemove(paths, files, p);
      BytesSplit(paths - {p}, part, files);
      if p in part {
        BytesRemove(paths * part, files, p);
        assert paths * part - {p} == (paths - {p}) * part;
        assert paths - part == (paths - {p}) - part;
      } else {
        BytesRemove(paths - part, files, p);
        assert paths - part - {p} == (paths - {p}) - part;
        assert paths * part == (paths - {p}) * part;
      }
    }
  }

  /** Paths that all lie in some claim hold no more bytes than the claims add up to. */
  lemma {:induction false} ClaimsBound(paths: set<Path>, claims: seq<Claim>, files: Files)
    requires Holds(claims, files)
    requires forall p :: p in paths ==> InClaims(p, claims)
    ensures BytesOf(paths, files) <= AmountSum(claims)
    decreases |claims|
  {
    if claims == [] {
      assert paths == {};
    } else {
      var part := claims[0].paths;
      BytesSplit(paths, part, files);
      BytesMonotone(paths * part, part, files, files);
      forall p | p in paths - part ensures InClaims(p, claims[1..]) {
        var i :| 0 <= i < |claims| && p in claims[i].paths;
        assert claims[1..][i - 1] == claims[i];
      }
      assert Holds(claims[1..], files);
      ClaimsBound(paths - part, claims[1..], files);
    }
  }

  /** Claims on separate, present files add up to no more than what is on disk. */
  ghost predicate Exact(claims: seq<Claim>, files: Files) {
    && (forall i :: 0 <= i < |claims| ==> BytesOf(claims[i].paths, files) == claims[i].amount)
    && (forall i, j :: 0 <= i < j < |claims| ==> claims[i].paths !! claims[j].paths)
  }

  lemma {:induction false} ExactBound(paths: set<Path>, claims: seq<Claim>, files: Files)
    requires Exact(claims, files)
    requires forall i :: 0 <= i < |claims| ==> claims[i].paths <= paths
    ensures AmountSum(claims) <= BytesOf(paths, files)
    decreases |claims|
  {
    if claims != [] {
      var part := claims[0].paths;
      BytesSplit(paths, part, files);
      assert paths * part == part;
      forall i | 0 <= i < |claims[1..]| ensures claims[1..][i].paths <= paths - part {
        assert claims[1..][i] == claims[i + 1];
      }
      ExactBound(paths - part, claims[1..], files);
    }
  }

  /** Separate claims that cover the paths and nothing else add up to exactly what is there. */
  lemma ExactSum(paths: set<Path>, claims: seq<Claim>, files: Files)
    requires Exact(claims, files)
    requires forall i :: 0 <= i < |claims| ==> claims[i].paths <= paths
    requires forall p :: p in paths ==> InClaims(p, claims)
    ensures AmountSum(claims) == BytesOf(paths, files)
  {
    ExactBound(paths, claims, files);
    ClaimsBound(paths, claims, files);
  }

  // ---------- the files of the entries ----------

  /** A body or metadata file, in a shard of the layout. */
  predicate EntryFile(p: Path) {
    HashShard(p.shard) && (IsBody(p) || IsMeta(p))
  }

  function EntryFiles(files: Files): set<Path> {
    set p | p in files && EntryFile(p)
  }

  /** Body and metadata bytes on disk. */
  ghost function EntryBytes(files: Files): nat {
    BytesOf(EntryFiles(files), files)
  }

  /** The files of a key are files of an entry, whose names lead to each other. */
  lemma KeyFiles(d: Digest)
    ensures IsBody(BodyOf(d)) && IsMeta(MetaOf(d)) && !IsMeta(BodyOf(d)) && !IsBody(MetaOf(d))
    ensures BodyFor(MetaOf(d)) == BodyOf(d) && MetaFor(BodyOf(d)) == MetaOf(d)
    ensures EntryFile(BodyOf(d)) && EntryFile(MetaOf(d))
    ensures TrimEnd(MetaOf(d).name.text, META) == HashHex(d)
    ensures IsPoison(PoisonOf(d)) && MetaForPoison(PoisonOf(d)) == MetaOf(d) && !IsBody(PoisonOf(d)) && !IsMeta(PoisonOf(d))
  {
    DigestsHaveShards(d);
    HashIsStem(d);
    TrimOnce(HashHex(d), BODY);
    TrimOnce(HashHex(d), META);
    TrimOnce(HashHex(d), POISON);
    OneSuffix(HashHex(d) + BODY);
    OneSuffix(HashHex(d) + META);
    OneSuffix(HashHex(d) + POISON);
  }

  /** A name the cache writes: a plain stem and one of the three suffixes. */
  ghost predicate TidyPath(p: Path) {
    exists stem: string :: Plain(stem) &&
      (p == InShard(p.shard, stem, BODY) || p == InShard(p.shard, stem, META) || p == InShard(p.shard, stem, POISON))
  }

  /** Whatever is named like a file of the cache is one; other files may lie around, if their names can be read. */
  ghost predicate Tidy(files: Files) {
    forall p :: p in files && HashShard(p.shard) ==>
      p.name.Utf8? && (EndsWith(p.name.text, BODY) || EndsWith(p.name.text, META) || EndsWith(p.name.text, POISON) ==> TidyPath(p))
  }

  lemma StemOf(p: Path)
    requires TidyPath(p) && p.name.Utf8?
    ensures EndsWith(p.name.text, META) ==> p == InShard(p.shard, TrimEnd(p.name.text, META), META)
    ensures EndsWith(p.name.text, BODY) ==> p == InShard(p.shard, TrimEnd(p.name.text, BODY), BODY)
  {
    var stem: string :| Plain(stem) &&
      (p == InShard(p.shard, stem, BODY) || p == InShard(p.shard, stem, META) || p == InShard(p.shard, stem, POISON));
    OneSuffix(p.name.text);
    TrimOnce(stem, META);
    TrimOnce(stem, BODY);
    TrimOnce(stem, POISON);
  }

  lemma BodyForIsBody(meta: Path)
    requires IsMeta(meta)
    ensures IsBody(BodyFor(meta)) && !IsBody(meta)
  {
    OneSuffix(meta.name.text);
    TrimOnce(TrimEnd(meta.name.text, META), BODY);
  }
}
