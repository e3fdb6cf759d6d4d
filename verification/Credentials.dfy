/**
  The credential index (credentials.rs:237-411): the loader groups entries by access key, and a
  lookup in the index is a lookup in the plain map from (access key, session token) to credential.
*/
module Credentials {
  import opened Common
  import opened Text

  /** One parsed entry; also the stored `InboundCredential`. */
  datatype Entry = Entry(keyId: string, secret: string, token: Option<string>, expiresAt: Option<int>)

  datatype CredentialsFile = CredentialsFile(version: nat, credentials: seq<Entry>)

  datatype LoadError =
    | UnsupportedVersion | NoCredentials | EmptyKeyId | PaddedKeyId | EmptySecret | PaddedSecret
    | TokenInVersion1 | TokenWithoutExpiry | EmptyToken | Duplicate

  datatype Loaded = Ok(store: Store) | Err(error: LoadError)

  /** `StaticInboundCredentials` */
  datatype Store = Store(buckets: map<string, seq<Entry>>, len: nat)

  // ---------- validation ----------

  /** The checks of one entry, in the order the loader makes them. */
  function ProblemOf(version: nat, e: Entry): Option<LoadError> {
    if e.keyId == "" then Some(EmptyKeyId)
    else if Trim(e.keyId) != e.keyId then Some(PaddedKeyId)
    else if e.secret == "" then Some(EmptySecret)
    else if Trim(e.secret) != e.secret then Some(PaddedSecret)
    else if version == 1 && (e.token.Some? || e.expiresAt.Some?) then Some(TokenInVersion1)
    else if e.token.Some? && e.expiresAt.None? then Some(TokenWithoutExpiry)
    else if e.token == Some("") then Some(EmptyToken)
    else None
  }

  /** The tuple an entry is looked up by. */
  function Tuple(e: Entry): (string, Option<string>) {
    (e.keyId, e.token)
  }

  ghost predicate DistinctTuples(entries: seq<Entry>) {
    forall i, j :: 0 <= i < j < |entries| ==> Tuple(entries[i]) != Tuple(entries[j])
  }

  ghost predicate Loadable(version: nat, entries: seq<Entry>) {
    (forall e :: e in entries ==> ProblemOf(version, e).None?) && DistinctTuples(entries)
  }

  // ---------- the index ----------

  /** Σ of the bucket lengths. */
  ghost function Stored(buckets: map<string, seq<Entry>>): nat {
    if buckets == map[] then 0
    else var k :| k in buckets; |buckets[k]| + Stored(buckets - {k})
  }

  lemma {:induction false} StoredRemove(buckets: map<string, seq<Entry>>, k: string)
    requires k in buckets
    ensures Stored(buckets) == |buckets[k]| + Stored(buckets - {k})
    decreases |buckets|
  {
    var j :| j in buckets && Stored(buckets) == |buckets[j]| + Stored(buckets - {j});
    if j != k {
      StoredRemove(buckets - {j}, k);
      StoredRemove(buckets - {k}, j);
      assert buckets - {j} - {k} == buckets - {k} - {j};
    }
  }

  function Bucket(buckets: map<string, seq<Entry>>, k: string): seq<Entry> {
    if k in buckets then buckets[k] else []
  }

  lemma StoredPush(buckets: map<string, seq<Entry>>, e: Entry)
    ensures Stored(buckets[e.keyId := Bucket(buckets, e.keyId) + [e]]) == Stored(buckets) + 1
  {
    var k := e.keyId;
    var after := buckets[k := Bucket(buckets, k) + [e]];
    StoredRemove(after, k);
    if k in buckets {
      StoredRemove(buckets, k);
      assert after - {k} == buckets - {k};
    } else {
      assert after - {k} == buckets;
    }
  }

  /** Each bucket is the entries with its key, in file order. */
  function WithKey(entries: seq<Entry>, k: string): (r: seq<Entry>)
    ensures forall e :: e in r <==> e in entries && e.keyId == k
  {
    if entries == [] then []
    else
      var last := entries[|entries| - 1];
      var rest := WithKey(entries[..|entries| - 1], k);
      assert entries == entries[..|entries| - 1] + [last];
      if last.keyId == k then rest + [last] else rest
  }

  ghost predicate Indexes(buckets: map<string, seq<Entry>>, entries: seq<Entry>) {
    forall k :: Bucket(buckets, k) == WithKey(entries, k)
  }

  lemma PushIndexes(buckets: map<string, seq<Entry>>, entries: seq<Entry>, e: Entry)
    requires Indexes(buckets, entries)
    ensures Indexes(buckets[e.keyId := Bucket(buckets, e.keyId) + [e]], entries + [e])
  {
    forall k ensures Bucket(buckets[e.keyId := Bucket(buckets, e.keyId) + [e]], k) == WithKey(entries + [e], k) {
      assert (entries + [e])[..|entries|] == entries;
    }
  }

  /** The inner loop: is there an entry in the bucket with this token? */
  method HasToken(bucket: seq<Entry>, token: Option<string>) returns (r: bool)
    ensures r <==> exists e :: e in bucket && e.token == token
  {
    var i := 0;
    while i < |bucket|
      invariant 0 <= i <= |bucket|
      invariant forall j :: 0 <= j < i ==> bucket[j].token != token
    {
      if bucket[i].token == token { return true; }
      i := i + 1;
    }
    r := false;
  }

  lemma LoadableAppend(version: nat, entries: seq<Entry>, e: Entry)
    requires Loadable(version, entries)
    ensures Loadable(version, entries + [e]) <==>
              ProblemOf(version, e).None? && !(exists d :: d in WithKey(entries, e.keyId) && d.token == e.token)
  {
    var all := entries + [e];
    if exists d :: d in WithKey(entries, e.keyId) && d.token == e.token {
      var d :| d in WithKey(entries, e.keyId) && d.token == e.token;
      var i :| 0 <= i < |entries| && entries[i] == d;
      assert Tuple(all[i]) == Tuple(all[|entries|]);
    } else if ProblemOf(version, e).None? {
      forall i | 0 <= i < |entries| ensures Tuple(all[i]) != Tuple(e) {
        assert entries[i] in entries;
        if entries[i].keyId == e.keyId { assert entries[i] in WithKey(entries, e.keyId); }
      }
    } else {
      assert e in all;
    }
  }

  /** What the loader says about the first entry it cannot take. */
  ghost predicate FailsAt(version: nat, entries: seq<Entry>, i: nat, error: LoadError) {
    && i < |entries| && Loadable(version, entries[..i])
    && !Loadable(version, entries[..i + 1])
    && error == (if ProblemOf(version, entries[i]).Some? then ProblemOf(version, entries[i]).value else Duplicate)
  }

  lemma PrefixLoadable(version: nat, entries: seq<Entry>, i: nat)
    requires Loadable(version, entries) && i <= |entries|
    ensures Loadable(version, entries[..i])
  {
  }

  /**
    The validation and the bucket-building loop of `load_from_file`: it succeeds exactly when every
    entry is valid and no tuple occurs twice, and then the index holds exactly the entries.
  */
  method Load(file: CredentialsFile) returns (r: Loaded)
    ensures r.Ok? <==> (file.version == 1 || file.version == 2) && file.credentials != [] && Loadable(file.version, file.credentials)
    ensures r.Ok? ==> Indexes(r.store.buckets, file.credentials)
    ensures r.Ok? ==> r.store.len == |file.credentials| == Stored(r.store.buckets)
    ensures r.Err? && (file.version == 1 || file.version == 2) && file.credentials != [] ==>
              exists i :: FailsAt(file.version, file.credentials, i, r.error)
  {
    if file.version != 1 && file.version != 2 { return Err(UnsupportedVersion); }
    if file.credentials == [] { return Err(NoCredentials); }
    var entries := file.credentials;
    var buckets: map<string, seq<Entry>>, total := map[], 0;
    var i := 0;
    while i < |entries|
      invariant 0 <= i <= |entries|
      invariant Loadable(file.version, entries[..i]) && Indexes(buckets, entries[..i])
      invariant total == i == Stored(buckets)
    {
      var e := entries[i];
      assert entries[..i + 1] == entries[..i] + [e];
      LoadableAppend(file.version, entries[..i], e);
      var problem := ProblemOf(file.version, e);
      var taken := false;
      if problem.None? { taken := HasToken(Bucket(buckets, e.keyId), e.token); }
      if problem.Some? || taken {
        if Loadable(file.version, entries) { PrefixLoadable(file.version, entries, i + 1); }
        assert FailsAt(file.version, entries, i, if problem.Some? then problem.value else Duplicate);
        return Err(if problem.Some? then problem.value else Duplicate);
      }
      PushIndexes(buckets, entries[..i], e);
      StoredPush(buckets, e);
      buckets := buckets[e.keyId := Bucket(buckets, e.keyId) + [e]];
      total := total + 1;
      i := i + 1;
    }
    assert entries[..i] == entries;
    r := Ok(Store(buckets, total));
  }

  // ---------- lookup ----------

  datatype Answer = Unknown | Expired(at: int) | Found(credential: Entry)

  /** `iter().find` on the bucket. */
  function Find(bucket: seq<Entry>, token: Option<string>): (r: Option<Entry>)
    ensures r.Some? ==> r.value in bucket && r.value.token == token
    ensures r.None? ==> forall e :: e in bucket ==> e.token != token
  {
    if bucket == [] then None
    else if bucket[0].token == token then Some(bucket[0])
    else Find(bucket[1..], token)
  }

  /** The expiry test of `resolve`. */
  function Judge(c: Option<Entry>, now: int): Answer {
    match c
    case None => Unknown
    case Some(e) => if e.expiresAt.Some? && now >= e.expiresAt.value then Expired(e.expiresAt.value) else Found(e)
  }

  /** `resolve` */
  function Resolve(store: Store, keyId: string, token: Option<string>, now: int): Answer {
    if keyId !in store.buckets then Unknown
    else Judge(Find(store.buckets[keyId], token), now)
  }

  /** The plain map the index stands for. */
  function TupleMap(entries: seq<Entry>): map<(string, Option<string>), Entry> {
    if entries == [] then map[]
    else TupleMap(entries[..|entries| - 1])[Tuple(entries[|entries| - 1]) := entries[|entries| - 1]]
  }

  function Lookup<K, V>(m: map<K, V>, k: K): Option<V> {
    if k in m then Some(m[k]) else None
  }

  lemma {:induction false} TupleMapHolds(entries: seq<Entry>)
    requires DistinctTuples(entries)
    ensures MapsTo(TupleMap(entries), entries)
  {
    if entries != [] {
      var init, last := entries[..|entries| - 1], entries[|entries| - 1];
      TupleMapHolds(init);
      LastIsNew(entries);
      MapGrows(TupleMap(init), init, last);
      assert init + [last] == entries;
    }
  }

  lemma LastIsNew(entries: seq<Entry>)
    requires entries != [] && DistinctTuples(entries)
    ensures forall e :: e in entries[..|entries| - 1] ==> Tuple(e) != Tuple(entries[|entries| - 1])
  {
    var init := entries[..|entries| - 1];
    forall e | e in init ensures Tuple(e) != Tuple(entries[|entries| - 1]) {
      var i :| 0 <= i < |init| && init[i] == e;
      assert entries[i] == e;
    }
  }

  ghost predicate MapsTo(m: map<(string, Option<string>), Entry>, entries: seq<Entry>) {
    && (forall e :: e in entries ==> Tuple(e) in m && m[Tuple(e)] == e)
    && (forall t :: t in m ==> m[t] in entries && Tuple(m[t]) == t)
  }

  lemma MapGrows(m: map<(string, Option<string>), Entry>, init: seq<Entry>, last: Entry)
    requires MapsTo(m, init) && forall e :: e in init ==> Tuple(e) != Tuple(last)
    ensures MapsTo(m[Tuple(last) := last], init + [last])
  {
  }

  /** A loaded index answers as the plain map of its tuples does, followed by the expiry test. */
  lemma ResolveIsMapLookup(version: nat, entries: seq<Entry>, store: Store, keyId: string, token: Option<string>, now: int)
    requires Loadable(version, entries) && Indexes(store.buckets, entries)
    ensures Resolve(store, keyId, token, now) == Judge(Lookup(TupleMap(entries), (keyId, token)), now)
  {
    TupleMapHolds(entries);
    var bucket := Bucket(store.buckets, keyId);
    assert bucket == WithKey(entries, keyId);
    var found := Find(bucket, token);
    if found.Some? {
      assert found.value in entries && Tuple(found.value) == (keyId, token);
    } else {
      assert forall e :: e in entries && e.keyId == keyId ==> e in bucket;
    }
  }

  /** This entry is the one asked for. */
  predicate AskedFor(entries: seq<Entry>, e: Entry, keyId: string, token: Option<string>) {
    e in entries && e.keyId == keyId && e.token == token
  }

  /**
    What a loaded index answers, in terms of the file: the entry with this key and token while it is
    valid, its expiry from that time on, and nothing for a tuple that is not in the file.
  */
  lemma ResolveAnswers(version: nat, entries: seq<Entry>, store: Store, keyId: string, token: Option<string>, now: int)
    requires Loadable(version, entries) && Indexes(store.buckets, entries)
    ensures forall e :: Resolve(store, keyId, token, now) == Found(e) <==>
              AskedFor(entries, e, keyId, token) && (e.expiresAt.None? || now < e.expiresAt.value)
    ensures forall at :: Resolve(store, keyId, token, now) == Expired(at) <==>
              at <= now && exists e :: AskedFor(entries, e, keyId, token) && e.expiresAt == Some(at)
    ensures Resolve(store, keyId, token, now) == Unknown <==> forall e :: !AskedFor(entries, e, keyId, token)
  {
    ResolveIsMapLookup(version, entries, store, keyId, token, now);
    TupleMapHolds(entries);
    var all := TupleMap(entries);
    forall e | AskedFor(entries, e, keyId, token) ensures (keyId, token) in all && all[(keyId, token)] == e {
      assert Tuple(e) == (keyId, token);
    }
    if (keyId, token) in all { assert AskedFor(entries, all[(keyId, token)], keyId, token); }
  }

  /** Once expired, a credential stays expired, and what is found now was found before. */
  lemma ExpiryIsFinal(version: nat, entries: seq<Entry>, store: Store, keyId: string, token: Option<string>, now: int, later: int)
    requires Loadable(version, entries) && Indexes(store.buckets, entries) && now <= later
    ensures Resolve(store, keyId, token, now).Expired? ==> Resolve(store, keyId, token, later) == Resolve(store, keyId, token, now)
    ensures Resolve(store, keyId, token, later).Found? ==> Resolve(store, keyId, token, now) == Resolve(store, keyId, token, later)
  {
    ResolveAnswers(version, entries, store, keyId, token, now);
    ResolveAnswers(version, entries, store, keyId, token, later);
    match Resolve(store, keyId, token, now) {
      case Expired(at) => assert Resolve(store, keyId, token, later) == Expired(at);
      case _ =>
    }
    match Resolve(store, keyId, token, later) {
      case Found(e) => assert Resolve(store, keyId, token, now) == Found(e);
      case _ =>
    }
  }

  /** Which entries a file may hold, said without the order of the checks. */
  lemma ValidIff(version: nat, e: Entry)
    ensures ProblemOf(version, e).None? <==>
              && Unpadded(e.keyId) && Unpadded(e.secret)
              && (version == 1 ==> e.token.None? && e.expiresAt.None?)
              && (e.token.Some? ==> e.expiresAt.Some? && e.token.value != "")
  {
    TrimmedIff(e.keyId);
    TrimmedIff(e.secret);
  }

  /** Every error means what it says. */
  lemma ProblemMeans(version: nat, e: Entry)
    ensures ProblemOf(version, e) == Some(EmptyKeyId) <==> e.keyId == ""
    ensures ProblemOf(version, e) == Some(PaddedKeyId) <==> e.keyId != "" && !Unpadded(e.keyId)
    ensures ProblemOf(version, e) == Some(EmptySecret) ==> e.secret == ""
    ensures ProblemOf(version, e) == Some(PaddedSecret) ==> e.secret != "" && !Unpadded(e.secret)
    ensures ProblemOf(version, e) == Some(TokenInVersion1) ==> version == 1 && (e.token.Some? || e.expiresAt.Some?)
    ensures ProblemOf(version, e) == Some(TokenWithoutExpiry) ==> e.token.Some? && e.expiresAt.None?
    ensures ProblemOf(version, e) == Some(EmptyToken) ==> e.token == Some("")
    ensures ProblemOf(version, e) != Some(Duplicate) && ProblemOf(version, e) != Some(NoCredentials) && ProblemOf(version, e) != Some(UnsupportedVersion)
  {
    TrimmedIff(e.keyId);
    TrimmedIff(e.secret);
  }

  /** Not empty, and no white space at either end. */
  predicate Unpadded(s: string) {
    s != "" && !Whitespace(s[0]) && !Whitespace(s[|s| - 1])
  }

  lemma MultisetMembers(a: seq<Entry>, b: seq<Entry>)
    requires multiset(a) == multiset(b)
    ensures forall e :: e in a <==> e in b
  {
    forall e ensures e in a <==> e in b {
      assert e in a <==> e in multiset(a);
      assert e in b <==> e in multiset(b);
    }
  }

  lemma RepeatInMultiset(s: seq<Entry>, i: nat, j: nat)
    requires i < j < |s| && s[i] == s[j]
    ensures multiset(s)[s[i]] >= 2
  {
    assert s == s[..j] + [s[j]] + s[j + 1..];
    assert s[i] in s[..j];
  }

  lemma OccursTwice(s: seq<Entry>, e: Entry)
    requires multiset(s)[e] >= 2
    ensures !DistinctTuples(s)
  {
    assert e in multiset(s);
    var i :| 0 <= i < |s| && s[i] == e;
    var others := s[..i] + s[i + 1..];
    assert s == s[..i] + [e] + s[i + 1..];
    assert multiset(others)[e] >= 1;
    assert e in others;
    var j :| 0 <= j < |others| && others[j] == e;
    if j < i {
      assert s[j] == e;
    } else {
      assert s[j + 1] == e;
    }
  }

  ghost predicate NoEntryTwice(m: multiset<Entry>) {
    forall e :: m[e] <= 1
  }

  ghost predicate TuplesTell(m: multiset<Entry>) {
    forall d, e :: d in m && e in m && Tuple(d) == Tuple(e) ==> d == e
  }

  /** Distinct tuples, said without an order. */
  lemma DistinctIsOrderless(s: seq<Entry>)
    ensures DistinctTuples(s) <==> NoEntryTwice(multiset(s)) && TuplesTell(multiset(s))
  {
    if DistinctTuples(s) {
      forall e ensures multiset(s)[e] <= 1 {
        if multiset(s)[e] >= 2 { OccursTwice(s, e); }
      }
      TupleMapHolds(s);
    } else {
      var i, j :| 0 <= i < j < |s| && Tuple(s[i]) == Tuple(s[j]);
      if s[i] == s[j] { RepeatInMultiset(s, i, j); }
    }
  }

  /** Whether a file loads does not depend on the order of its entries. */
  lemma LoadableInAnyOrder(version: nat, a: seq<Entry>, b: seq<Entry>)
    requires multiset(a) == multiset(b) && Loadable(version, a)
    ensures Loadable(version, b)
  {
    MultisetMembers(a, b);
    DistinctIsOrderless(a);
    DistinctIsOrderless(b);
  }

  /** Nor does any answer. */
  lemma ResolveInAnyOrder(version: nat, a: seq<Entry>, b: seq<Entry>, s: Store, t: Store, keyId: string, token: Option<string>, now: int)
    requires multiset(a) == multiset(b) && Loadable(version, a)
    requires Indexes(s.buckets, a) && Indexes(t.buckets, b)
    ensures Resolve(s, keyId, token, now) == Resolve(t, keyId, token, now)
  {
    LoadableInAnyOrder(version, a, b);
    ResolveIsMapLookup(version, a, s, keyId, token, now);
    ResolveIsMapLookup(version, b, t, keyId, token, now);
    TupleMapHolds(a);
    TupleMapHolds(b);
    MultisetMembers(a, b);
  }
}
