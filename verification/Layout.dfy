/** The walk that finds the shard directories under `objects/` (layout.rs:32-186). */
module Layout {
  import opened Common
  import opened Filesystem
  import opened KeyHash

  datatype Mode = Strict | BestEffort

  /** `HashDirCollection` */
  datatype Walk = Walk(dirs: seq<Shard>, incomplete: bool)

  /** `is_hash_shard_name` */
  predicate HashShardName(n: Name) {
    n.Utf8? && |n.text| == 2 && forall i :: 0 <= i < 2 ==> '0' <= n.text[i] <= '9' || 'a' <= n.text[i] <= 'f'
  }

  predicate HashShard(d: Shard) {
    HashShardName(d.high) && HashShardName(d.low)
  }

  /** Every key's files are in a directory with a shard's name. */
  lemma DigestsHaveShards(d: Digest)
    ensures HashShard(ShardOf(d))
  {
    HexLetters(d);
  }

  /** The shards under some of the names of `objects/`. */
  ghost predicate Misses(dirs: seq<Shard>, disk: Disk, names: set<Name>) {
    exists d: Shard :: d.high in names && HashShard(d) && disk.IsShard(d) && d !in dirs
  }

  ghost predicate Found(dirs: seq<Shard>, disk: Disk) {
    Distinct(dirs) && forall d :: d in dirs ==> HashShard(d) && disk.IsShard(d)
  }

  lemma AppendKeeps(dirs: seq<Shard>, more: seq<Shard>, disk: Disk, high: Name, done: set<Name>)
    requires Found(dirs, disk) && Found(more, disk) && high !in done
    requires forall d :: d in dirs ==> d.high in done
    requires forall d :: d in more ==> d.high == high
    ensures Found(dirs + more, disk)
  {
  }

  /** The inner loop: the shards under one directory of `objects/`. */
  method CollectLow(disk: Disk, mode: Mode, high: Name, entries: map<Name, Node>) returns (r: Option<Walk>)
    requires disk.objects.Some? && high in disk.objects.value && disk.objects.value[high] == Dir(entries)
    requires HashShardName(high)
    modifies disk`failed
    ensures old(disk.failed) ==> disk.failed
    ensures !disk.failed ==> r.Some? && !r.value.incomplete
    ensures mode.BestEffort? ==> r.Some?
    ensures r.Some? ==> Found(r.value.dirs, disk) && (forall d :: d in r.value.dirs ==> d.high == high)
    ensures r.Some? && !r.value.incomplete ==> !Misses(r.value.dirs, disk, {high})
    ensures r.Some? && mode.Strict? ==> !r.value.incomplete
  {
    var fails := disk.Fails();
    if fails {
      return if mode.Strict? then None else Some(Walk([], true));
    }
    var dirs, incomplete := [], false;
    var names := Listing(entries.Keys);
    var i := 0;
    while i < |names|
      invariant 0 <= i <= |names|
      invariant old(disk.failed) ==> disk.failed
      invariant incomplete ==> mode.BestEffort? && disk.failed
      invariant Found(dirs, disk) && forall d :: d in dirs ==> d.high == high && d.low in names[..i]
      invariant !incomplete ==> forall j :: 0 <= j < i && HashShardName(names[j]) && entries[names[j]].Dir? ==> Shard(high, names[j]) in dirs
    {
      fails := disk.Fails();
      if fails {
        if mode.Strict? { return None; }
        incomplete := true;
        break;
      }
      var name := names[i];
      if HashShardName(name) {
        fails := disk.Fails();
        if fails {
          if mode.Strict? { return None; }
          incomplete := true;
        } else if entries[name].Dir? {
          dirs := dirs + [Shard(high, name)];
        }
      }
      i := i + 1;
    }
    r := Some(Walk(dirs, incomplete));
    if !incomplete {
      forall d: Shard | d.high == high && HashShard(d) && disk.IsShard(d)
        ensures d in dirs
      {
        var j :| 0 <= j < |names| && names[j] == d.low;
      }
    }
  }

  /**
    `collect_hash_dirs_inner`. The strict walk finds every shard or reports the error; the
    best-effort walk never fails, and says when it may have missed one.
  */
  method CollectHashDirs(disk: Disk, mode: Mode) returns (r: Option<Walk>)
    modifies disk`failed
    ensures old(disk.failed) ==> disk.failed
    ensures !disk.failed ==> r.Some? && !r.value.incomplete
    ensures mode.BestEffort? ==> r.Some?
    ensures r.Some? ==> Found(r.value.dirs, disk)
    ensures r.Some? && mode.Strict? ==> !r.value.incomplete
    ensures r.Some? && !r.value.incomplete ==> forall d :: HashShard(d) && disk.IsShard(d) ==> d in r.value.dirs
    ensures r.Some? && !r.value.incomplete ==> forall key: Digest :: disk.IsShard(ShardOf(key)) ==> ShardOf(key) in r.value.dirs
  {
    var fails := disk.Fails();
    if fails {
      return if mode.Strict? then None else Some(Walk([], true));
    }
    if disk.objects.None? {
      return Some(Walk([], false));
    }
    var objects := disk.objects.value;
    var dirs, incomplete := [], false;
    var names := Listing(objects.Keys);
    var i := 0;
    while i < |names|
      invariant 0 <= i <= |names|
      invariant old(disk.failed) ==> disk.failed
      invariant incomplete ==> mode.BestEffort? && disk.failed
      invariant Found(dirs, disk) && forall d :: d in dirs ==> d.high in names[..i]
      invariant !incomplete ==> forall j :: 0 <= j < i ==> !Misses(dirs, disk, {names[j]})
    {
      fails := disk.Fails();
      if fails {
        if mode.Strict? { return None; }
        incomplete := true;
        break;
      }
      var name := names[i];
      if HashShardName(name) {
        fails := disk.Fails();
        if fails {
          if mode.Strict? { return None; }
          incomplete := true;
        } else if objects[name].Dir? {
          var low := CollectLow(disk, mode, name, objects[name].entries);
          if low.None? { return None; }
          AppendKeeps(dirs, low.value.dirs, disk, name, set n | n in names[..i]);
          dirs := dirs + low.value.dirs;
          incomplete := incomplete || low.value.incomplete;
        }
      }
      i := i + 1;
    }
    r := Some(Walk(dirs, incomplete));
    if !incomplete {
      forall d: Shard | HashShard(d) && disk.IsShard(d)
        ensures d in dirs
      {
        var j :| 0 <= j < |names| && names[j] == d.high;
        assert !Misses(dirs, disk, {names[j]});
      }
      forall key: Digest | disk.IsShard(ShardOf(key)) ensures ShardOf(key) in dirs { DigestsHaveShards(key); }
    }
  }
}
