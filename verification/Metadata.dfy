/** The metadata record and the two ways it is rewritten in place (metadata.rs:17-92, disk.rs:1814-1836). */
module Metadata {
  import opened Common

  type Headers = map<string, string>

  /** The head-only part of a response that a GET does not refresh. */
  datatype HeadState = HeadState(extraHeaders: Headers, checksumHeaders: Headers, metadataChecked: bool, checksumChecked: bool)

  /** Everything else the backend said about the object. */
  datatype ObjectState = ObjectState(
    bucket: string, key: string, contentType: Option<string>, contentLength: int, lastModified: Option<int>,
    metadata: Headers, extraHeaders: Headers, checksumModeChecked: bool)

  /** What only the store writes. */
  datatype StoreState = StoreState(
    cacheWrittenAt: int, fillId: nat, version: nat, lastAccessedAt: int, hitCount: nat, sourceStatus: nat)

  datatype Snapshot = Snapshot(etag: Option<string>, resource: ObjectState, head: HeadState, store: StoreState)

  predicate SameEtag(a: Snapshot, b: Snapshot) {
    a.etag.Some? && a.etag == b.etag
  }

  /** The record as the object the source changes. */
  class CacheMeta {
    var etag: Option<string>
    var resource: ObjectState
    var headExtraHeaders: Headers
    var headChecksumHeaders: Headers
    var headMetadataChecked: bool
    var headChecksumChecked: bool
    var store: StoreState

    constructor (s: Snapshot)
      ensures Contents() == s
    {
      etag, resource, store := s.etag, s.resource, s.store;
      headExtraHeaders, headChecksumHeaders := s.head.extraHeaders, s.head.checksumHeaders;
      headMetadataChecked, headChecksumChecked := s.head.metadataChecked, s.head.checksumChecked;
    }

    function Contents(): Snapshot
      reads this
    {
      Snapshot(etag, resource, HeadState(headExtraHeaders, headChecksumHeaders, headMetadataChecked, headChecksumChecked), store)
    }

    /** `preserve_same_etag_head_state_from` */
    method PreserveSameEtagHeadStateFrom(current: CacheMeta)
      modifies this
      ensures Contents() == Preserved(old(Contents()), old(current.Contents()))
    {
      if etag.Some? && current.etag.Some? && etag == current.etag {
        headExtraHeaders := current.headExtraHeaders;
        headChecksumHeaders := current.headChecksumHeaders;
        headMetadataChecked := current.headMetadataChecked;
        headChecksumChecked := current.headChecksumChecked;
      }
    }

    /** The overwrites of `update_metadata_if_unchanged` on the submitted record. */
    method AdoptStoreState(current: CacheMeta)
      requires current != this
      modifies this
      ensures Contents() == Updated(old(Contents()), current.Contents())
    {
      store := current.store.(version := SatAdd(current.store.version, 1));
    }
  }

  /** A fresh GET keeps what HEAD requests had learned about the same version of the object, and nothing else. */
  function Preserved(refill: Snapshot, current: Snapshot): Snapshot {
    if SameEtag(refill, current) then refill.(head := current.head) else refill
  }

  /** An update takes the resource part from its caller and the store's own fields from disk. */
  function Updated(submitted: Snapshot, current: Snapshot): Snapshot {
    submitted.(store := current.store.(version := SatAdd(current.store.version, 1)))
  }

  // ---------- what survives ----------

  /** The ways a live record is replaced: by a commit of a new fill, or by an accepted update. */
  datatype Rewrite = Refill(record: Snapshot) | Update(record: Snapshot)

  function Rewritten(current: Snapshot, w: Rewrite): Snapshot {
    match w
    case Refill(record) => Preserved(record, current)
    case Update(record) => Updated(record, current)
  }

  function RewrittenAll(current: Snapshot, ws: seq<Rewrite>): Snapshot {
    if ws == [] then current else Rewritten(RewrittenAll(current, ws[..|ws| - 1]), ws[|ws| - 1])
  }

  /** The rewrite at `i` is a refill of the object version of the record before it. */
  predicate SameVersion(current: Snapshot, ws: seq<Rewrite>, i: nat)
    requires i < |ws|
  {
    ws[i].Refill? && SameEtag(ws[i].record, if i == 0 then current else ws[i - 1].record)
  }

  lemma EtagIsTheLast(current: Snapshot, ws: seq<Rewrite>)
    ensures RewrittenAll(current, ws).etag == if ws == [] then current.etag else ws[|ws| - 1].record.etag
    ensures ws != [] ==> RewrittenAll(current, ws).resource == ws[|ws| - 1].record.resource
  {
  }

  lemma LastRewrite(current: Snapshot, ws: seq<Rewrite>)
    requires ws != []
    ensures RewrittenAll(current, ws).head
         == if SameVersion(current, ws, |ws| - 1) then RewrittenAll(current, ws[..|ws| - 1]).head else ws[|ws| - 1].record.head
  {
    EtagIsTheLast(current, ws[..|ws| - 1]);
  }

  /** What was known of an object version survives any number of refills of it, whatever the fills themselves carry. */
  lemma {:induction false} HeadStateSurvivesRefills(current: Snapshot, ws: seq<Rewrite>)
    requires forall i :: 0 <= i < |ws| ==> SameVersion(current, ws, i)
    ensures RewrittenAll(current, ws).head == current.head
    ensures ws != [] ==> RewrittenAll(current, ws).resource == ws[|ws| - 1].record.resource
  {
    EtagIsTheLast(current, ws);
    if ws != [] {
      var rest := ws[..|ws| - 1];
      forall i | 0 <= i < |rest| ensures SameVersion(current, rest, i) { assert SameVersion(current, ws, i); }
      LastRewrite(current, ws);
      HeadStateSurvivesRefills(current, rest);
    }
  }

  /**
    In general the head state is that of the last rewrite that was not a refill of the same version:
    an update, or a fill of a new or an untagged version, which starts without the old one's.
  */
  lemma {:induction false} HeadStateIsOfTheLastNews(current: Snapshot, ws: seq<Rewrite>, news: nat)
    requires news < |ws| && !SameVersion(current, ws, news)
    requires forall i :: news < i < |ws| ==> SameVersion(current, ws, i)
    ensures RewrittenAll(current, ws).head == ws[news].record.head
  {
    LastRewrite(current, ws);
    if news < |ws| - 1 {
      var rest := ws[..|ws| - 1];
      forall i | news < i < |rest| ensures SameVersion(current, rest, i) { assert SameVersion(current, ws, i); }
      HeadStateIsOfTheLastNews(current, rest, news);
    }
  }

  /** Nothing is taken over without a tag that both records carry. */
  lemma HeadStateNeedsOneTag(refill: Snapshot, current: Snapshot)
    requires Preserved(refill, current) != refill
    ensures exists tag :: refill.etag == Some(tag) && current.etag == Some(tag)
    ensures Preserved(refill, current) == refill.(head := current.head)
  {
    assert refill.etag == Some(refill.etag.value) && current.etag == Some(refill.etag.value);
  }

  /**
    What only the store writes is the last refill's own, whatever was live before, and updates since
    then have only counted its version up.
  */
  lemma {:induction false} StoreStateIsOfTheLastRefill(current: Snapshot, ws: seq<Rewrite>, refill: nat)
    requires refill < |ws| && ws[refill].Refill? && forall i :: refill < i < |ws| ==> ws[i].Update?
    requires ws[refill].record.store.version + (|ws| - 1 - refill) <= MAX_U64
    ensures var store := ws[refill].record.store;
            RewrittenAll(current, ws).store == store.(version := store.version + (|ws| - 1 - refill))
  {
    if refill < |ws| - 1 {
      StoreStateIsOfTheLastRefill(current, ws[..|ws| - 1], refill);
    }
  }

  /** The check of `update_metadata_if_unchanged`. */
  predicate Accepts(current: Snapshot, expectedFillId: nat, submitted: Snapshot) {
    current.store.fillId == expectedFillId && current.store.version == submitted.store.version
  }

  /**
    Two callers submit updates made from the same snapshot. The second one is refused, so no update
    is lost, exactly when the version counter is not at its end.
  */
  lemma SecondUpdateRefusedIff(current: Snapshot, first: Snapshot, second: Snapshot)
    requires current.store.version <= MAX_U64
    requires first.store == current.store && second.store == current.store
    ensures Accepts(current, current.store.fillId, first)
    ensures !Accepts(Updated(first, current), current.store.fillId, second) <==> current.store.version < MAX_U64
  {
  }

  /** At the last version the second update is accepted and the first one's content is gone. */
  lemma LostUpdateAtTheEnd(current: Snapshot, first: Snapshot, second: Snapshot)
    requires current.store.version == MAX_U64
    requires first.store == current.store && second.store == current.store && first.resource != second.resource
    ensures Accepts(Updated(first, current), current.store.fillId, second)
    ensures Updated(second, Updated(first, current)).resource == second.resource != first.resource
    ensures Updated(second, Updated(first, current)).store == Updated(first, current).store
  {
  }

  /** Updates of one fill: the caller's resource each time, and the store's fields untouched but for the version. */
  lemma {:induction false} ChainKeepsStoreState(current: Snapshot, ws: seq<Rewrite>)
    requires forall i :: 0 <= i < |ws| ==> ws[i].Update?
    requires current.store.version + |ws| <= MAX_U64
    ensures RewrittenAll(current, ws).store == current.store.(version := current.store.version + |ws|)
    ensures ws != [] ==> RewrittenAll(current, ws).resource == ws[|ws| - 1].record.resource
  {
    if ws != [] {
      ChainKeepsStoreState(current, ws[..|ws| - 1]);
    }
  }
}
