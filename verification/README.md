# A verified model of the S3 caching proxy's core

The repository is a caching proxy in front of an S3 backend. Its disk cache keeps each object as a
body file and a metadata file, and promises its callers that an invalidated object is never served
again, that a crash never leaves two objects mixed up, and that the bytes it counts are never fewer
than the bytes it keeps. This project states those promises about a Dafny model of the code and
proves them.

`dafny verify dfyconfig.toml` checks everything.

## How the model is built

**The cache protocol** (`Protocol*.dfy`). Fills, purges, poisons, lookups, metadata writers,
evictions and cleanups run on any number of keys at once. Every lock acquisition, map access,
rename, remove and marker write is one step; a `Choice` in each step says whether the I/O succeeded
and what the caller passed. A crash is a restart event, possible between any two steps: memory is
empty, the counter file may be found damaged, the startup scan may fail in part, and it removes any
of the bodies that have no metadata; all other files stay. A reconciliation that nothing disturbs is
an event too. `ProtocolScans` proves that the scans of the real files do what these two events do.
`Ledger` fields are history that no step reads: which fills were fenced off, what was ever published
under a fill id, and whether a version counter came to its end. `ProtocolInvariant` says what every
step keeps, `ProtocolRuns` lifts it to all runs, `ProtocolPairs` says what
steps do to the published pair, `ProtocolTheorems` and `ProtocolDeadlock` draw the
conclusions. `ProtocolExample` exhibits two runs, so that the hypotheses are known to be met: a fill
that is published and found, and a poison that reports success before a later lookup answers.

`ProtocolSolo` adds what invariants leave open: that calls take effect. For each kind of call it says
exactly what an undisturbed one without failures does, in any state of the key in which its locks
are free.

**The publish phase** (`PublishPhase.dfy`) is the same step function run to its end under every
pattern of I/O failures, with the exact condition under which no crash point is mixed.

**The cache as an object** (`DiskCache.dfy`, `Metadata.dfy`) is the sequential form: a class with
the source's fields over a drive that may fail any operation and remembers whether one did. Its
commit is proved to be a run of the publish phase; every method says what it does under failures and
what it must achieve without.

**The scans** (`Filesystem`, `KeyHash`, `Layout`, `Accounting`, `StartupTotals`, `StartupScanner`,
`EvictionScan`, `DeferredCleanups`, `Reconciliation`, `EvictionPass`) are loops over a `Disk` object whose
operations may fail, with real file names: a name is a string, and suffixes are stripped as
`trim_end_matches` strips them. A disk is called tidy when every name that ends like a file of the
cache is a stem and one such suffix, as the cache writes them; other names may lie around.

**Companions**: `SingleFlight`, `MetaLocks` (step systems), `Pump`, `TmpNames`, `Credentials`,
`ChunkedHeaders` (methods with loops, against functions).

## Where the code falls short of its documentation

- A commit reads the old metadata's size with a stat whose failure counts as "no old metadata"
  (src/cache/disk.rs:1354-1357). If only that stat fails, the old metadata is not moved away, and
  between the two renames the new body is live under the old metadata, although the commit goes on
  to succeed. `PublishPhase.FailedStatMixes` gives the input, `PublishPhase.NeverMixedIff` the exact
  condition for a whole commit, and `ProtocolTheorems.MixingIff` the exact step in any run.
- If undoing the body fails and restoring the metadata works, the pair is mixed too
  (src/cache/disk.rs:1438-1446). It is part of the same conditions. Only a later publish is sure to
  end the mixture (`ProtocolTheorems.PublishingHeals`).
- So a lookup after a successful poison never returns a body of an older fill, but it can return a
  newer body under the older fill's metadata: an eviction that removes the body and the marker but
  not the metadata, a failed stat in the next commit, and a crash between its renames are enough
  (`ProtocolExample.StaleMetadataUnderANewBody`). `ProtocolTheorems.StaleMixingIff` is the exact step;
  without it the metadata is safe too (`ProtocolTheorems.PoisonCoversMetadata`). After a purge, and
  within the process that poisoned, it is safe in any case.
- The eviction scan strips a suffix from a name as often as it occurs. A body whose stem ends in a
  suffix itself, beside metadata for the same stripped name, is in no total
  (`EvictionScan.RepeatedSuffixIsNotSeen`). The cache never writes such a name.
- The temp sweep takes more names than the writers give: leading zeros, and fill bodies whose second
  number is not the process id (`TmpNames.RecognisedIsWrittenIff`).
- At the last metadata version two updates from one snapshot are both accepted
  (`Metadata.SecondUpdateRefusedIff`, `Metadata.LostUpdateAtTheEnd`).
- A commit whose stat of the old body fails replaces that body without a backup and cannot give it
  back (`PublishPhase.RollbackRestoresIff`).
- The route `RejectUnsupportedSignature` is documented as the answer to ECDSA uploads, but nothing
  produces it any more (`ChunkedHeaders.DecodeRouteIff`).

## Hypotheses

- Each fill guard is given exactly once to `commit_fill` or `abort_fill`, and calls are not
  cancelled half way.
- A crash stops the process; completed writes and renames persist.
- A poison call whose marker write failed protects only the running process.
- `CrashAtomic` and `AnswersAreWhole` speak of runs without a mixing step, from any point where the
  pair is of one publish; `MixingIff` says what a mixing step is in terms of the commit's stage and
  the outcome of its I/O. The theorems about versions assume that no version was updated past
  `u64::MAX` (`saturated`).
- `PoisonCoversMetadata` and `MarkerHides` speak of runs without a stale mixing step, which
  `StaleMixingIff` describes in the same terms.
- `active_fills` is not among the locks of the deadlock theorem: its guard is held for one map
  operation and never across another wait, so its sections are single steps.
- The generation counter of a fill entry and the byte totals do not wrap.
- One process owns the cache directory. Different keys have different hashes, but for what
  `DiskCache.DiskCache.Find` says of a stranger's metadata.

## Model

| member | source | states |
|---|---|---|
| ProtocolTheorems.NoStaleRead | src/cache/disk.rs:1500-1635 | in every run, restarts and any I/O failures included, once a purge or poison has reported success no lookup returns the body of a fill that began before the call read `active_fills`; after a purge it returns no metadata of such a fill either |
| ProtocolTheorems.PoisonFailsClosed | src/cache/disk.rs:1716-1740 | from the moment a poison sets its fence in memory, even if the marker is never written, no lookup returns body or metadata of an earlier fill until a restart, mixtures included |
| ProtocolTheorems.PoisonCoversMetadata | src/cache/disk.rs:1716-1789 | once a poison has written its marker, no lookup returns body or metadata of an earlier fill, restarts included, in any run without a stale mixing step |
| ProtocolTheorems.MarkerHides | src/cache/disk.rs:1942-1974 | the same from every reachable state with a marker on disk, mixed or not |
| ProtocolTheorems.StaleMixingIff | src/cache/disk.rs:1354-1446 | a step of any call exposes a pair with an earlier file, where none was, if and only if it is a commit's file operation that puts earlier metadata beside its new body while there is no marker |
| ProtocolTheorems.AnswersAreLive | src/cache/disk.rs:1942-2125 | what a lookup returns is exactly the published pair at that moment, unpoisoned and not fenced off, and of one fill if the pair is of one publish |
| ProtocolTheorems.AnswersAreWhole | src/cache/disk.rs:1942-2125 | from any point where a key's pair is of one publish, every entry a lookup returns in a run without a mixing step is body and metadata of one fill |
| ProtocolTheorems.CrashAtomic | src/cache/disk.rs:1269-1459 | from any such point, at every step and so at every crash of a run without a mixing step, the live files are of one publish or at most one file |
| ProtocolTheorems.MixingIff | src/cache/disk.rs:1354-1446 | in a reachable state whose pair is of one publish, a step leaves body and metadata of two publishes if and only if it is a commit's body rename over metadata its stat did not see, or its metadata restore while its own body is live |
| ProtocolTheorems.PublishingHeals | src/cache/disk.rs:1426-1459 | a commit that publishes ends any mixture |
| ProtocolTheorems.FillIdsAreUnique | src/cache/disk.rs:475-512 | the persisted counter exceeds every published fill id and no two keys share one, over all persists that fail, crashes and restarts |
| ProtocolTheorems.FillIdsIncrease | src/cache/disk.rs:1299-1307 | along a key published fill ids never go back, and equal ids mean the same fill |
| ProtocolTheorems.OverflowIsRefused | src/cache/disk.rs:498-509 | no fill id ever reaches `u64::MAX`: the last reservation is refused, persists nothing and does not wrap |
| ProtocolTheorems.RestartIsNotAhead | src/cache/disk.rs:392-421 | after a restart the next id is the first of all, the stored counter, or just after one that is on disk |
| ProtocolTheorems.NoAba | src/cache/disk.rs:1742-1892 | fill id and version determine the metadata, versions and access times of a fill never go back, and every update stays in its history |
| ProtocolTheorems.ConditionalCallsMatch | src/cache/disk.rs:1530-1565 | a conditional purge or poison acts only while the entry its caller observed is live |
| ProtocolTheorems.OnlyTheseStepsAct | src/cache/disk.rs:1530-1565 | every step of a conditional purge or poison other than the ones that take effect leaves files, history, generations and statistics as they were, whoever else runs |
| ProtocolTheorems.MismatchChangesNothing | src/cache/disk.rs:1763-1783 | a conditional call that has found another entry than its caller saw changes nothing in any step it still makes, and stays turned away |
| ProtocolTheorems.OthersLeaveItTurnedAway | src/cache/disk.rs:1763-1783 | and no step of any other call gets it out of that |
| ProtocolTheorems.UpdatesChain | src/cache/disk.rs:1823-1836 | an accepted update extends the history of exactly the version its caller submitted |
| ProtocolTheorems.GuardsAreCounted | src/cache/disk.rs:1103-1111 | a key is in `active_fills` exactly while it has unfinished guards, the refcount is their number, all share its entry, none is ahead of its generation, and every one that was fenced off is behind it |
| ProtocolTheorems.FencedFillsNeverPublish | src/cache/disk.rs:1277-1291 | no fill that began before some call fenced the key off is ever past its last check, although the generation starts again at zero when the entry is removed |
| ProtocolSolo.FillsAndLiftsPoison | src/cache/disk.rs:1183-1494 | a fill that finds its locks free and meets no failure publishes its own pair, whatever was there, poisoned or not and whoever else is in flight, and leaves neither marker nor fence |
| ProtocolSolo.LookupAnswers | src/cache/disk.rs:1942-2125 | an undisturbed lookup of a whole, unpoisoned entry answers with exactly that pair |
| ProtocolSolo.FilledIsAnswered | src/cache/disk.rs:1486-1490 | so a poisoned key is answered again after a fill, with the fill's pair |
| ProtocolSolo.InvalidatesIff | src/cache/disk.rs:1500-1789 | an undisturbed purge or poison, conditional or not, succeeds if and only if it is meant for what is there; the purge then leaves nothing and the poison both its marks, otherwise all but a body without metadata stays |
| ProtocolSolo.WriterWritesIff | src/cache/disk.rs:1113-1179 | an undisturbed update or touch writes if and only if it matches the live entry, and changes the metadata only |
| ProtocolSolo.EvictsIff | src/cache/eviction.rs:1207-1406 | an undisturbed eviction takes entry and marker if and only if it is still the one that was scanned |
| ProtocolSolo.TidiesIff | src/cache/eviction.rs:655-923 | an undisturbed cleanup removes its leftover if and only if it still is one |
| ProtocolKeyStep.EntryIsPresent | src/cache/disk.rs:1253-1267 | the "fill entry missing" branch is never reached |
| ProtocolTheorems.StatsAreExact | src/cache/disk.rs:1461-1484 | in every run whose events were harmless (no failed operation, no exhausted ids, no eviction or cleanup begun) since the empty directory or the last undisturbed scan, the statistics are the entries and bytes on disk whenever nobody is inside a critical section, and every entry is whole |
| ProtocolTheorems.NoSaturation | src/cache/disk.rs:1462-1476 | in such runs no saturating subtraction saturates |
| ProtocolTheorems.ReconcilingRestores | src/cache/mod.rs:212-226 | whatever drift, crashes and evictions came before, an undisturbed scan makes the statistics exact and harmless events keep them so |
| ProtocolScans.CollectIsReconcile | src/cache/eviction.rs:957-1034 | a scan of the files of any keys, named by their hashes, that nothing disturbs leaves exactly the files and markers, and sets exactly the statistics, of the protocol's reconcile event |
| ProtocolScans.ScanIsRestart | src/cache/disk.rs:585-652 | the startup scan leaves the files of the protocol's restart event whatever fails, and without failures and leftover metadata it starts with right statistics |
| ProtocolScans.ScanServesReconcile | src/cache/eviction.rs:957-1034 | the same about any exact scan: entries and bytes are the sum over the keys, half entries are gone and whole ones stay |
| ProtocolScans.ScanServesStart | src/cache/disk.rs:585-652 | the same about any removal of orphans |
| ProtocolDeadlock.WaitingDescends | src/cache/disk.rs:1269-1275 | whoever a call waits for is in flight and further along the order commit lock, metadata lock, fill-id lock |
| ProtocolDeadlock.NotWaitingRuns | src/cache/disk.rs:1661-1702 | a call that waits for nobody can take its next step whatever happens |
| ProtocolDeadlock.NoDeadlock | src/cache/disk.rs:1716-1736 | from every call of every reachable state one gets to a call that can run |
| ProtocolRuns.RunKeeps | src/cache/disk.rs:1183-1740 | every run keeps the invariant |
| ProtocolRuns.RestartKeeps | src/cache/disk.rs:392-421 | so does a restart, whatever the scan could read and whichever bodies without metadata it removed |
| ProtocolRuns.RunRemembers | src/cache/mod.rs:133-187 | fences, histories and fill ids are never taken back |
| ProtocolExample.AFillIsFound | src/cache/disk.rs:1661-1702 | there is a run in which a fill publishes, a lookup answers with it, and the statistics are right |
| ProtocolExample.StaleMetadataUnderANewBody | src/cache/disk.rs:1354-1446 | there is a run in which a poison reports success and a later lookup answers with a newer body under the fenced-off metadata |
| PublishPhase.NeverMixedIff | src/cache/disk.rs:1352-1453 | no crash point of a commit exposes two fills, if and only if the failures are not the hazardous ones |
| PublishPhase.FailedStatMixes | src/cache/disk.rs:1354-1357 | a concrete pattern in which a successful commit passes through a mixed pair |
| PublishPhase.PublishesIff | src/cache/disk.rs:1363-1453 | a commit publishes if and only if the writes and renames it needs succeed, and then leaves exactly its pair |
| PublishPhase.RollbackRestoresIff | src/cache/disk.rs:1081-1101 | a failed commit leaves the old pair if and only if every needed step of the way back succeeded on files it knew of |
| PublishPhase.FailedCommitIsInvisible | src/cache/disk.rs:1352-1353 | in particular a transient publish failure does not destroy a healthy entry |
| PublishPhase.EndsOldOrNew | src/cache/disk.rs:1396-1453 | whatever was live, a commit ends with its own pair, the old metadata, or none |
| DiskCache.Publish | src/cache/disk.rs:1311-1459 | the code of the publish phase on a failing drive is a run of the phase, and touches one key |
| DiskCache.RollBack | src/cache/disk.rs:1396-1453 | so is its way back |
| DiskCache.DiskCache.CommitFill | src/cache/disk.rs:1183-1494 | refused exactly when fenced off, and then nothing changes; published exactly its pair with the statistics settled; failed leaves statistics and poison alone; without failures it publishes while ids are left and removes both fence and marker |
| DiskCache.DiskCache.ReserveFillId | src/cache/disk.rs:498-512 | the id is new, is persisted as used before it is handed out, and the last one never is; without failures every other one is |
| DiskCache.DiskCache.BeginFill | src/cache/disk.rs:1661-1683 | registers the fill and captures its generation |
| DiskCache.DiskCache.FinishFill | src/cache/disk.rs:1103-1111 | drops the registration with the last fill |
| DiskCache.DiskCache.Purge | src/cache/disk.rs:1500-1635 | success leaves no file and fences off the fills; a conditional call that does not match leaves fills and metadata; without failures it applies exactly when there is something to purge, or the expected entry is there |
| DiskCache.DiskCache.Poison | src/cache/disk.rs:1716-1789 | the fence in memory comes first; a call that does not match changes nothing; without failures it applies exactly when it matches |
| DiskCache.DiskCache.Find | src/cache/disk.rs:1942-2125 | returns only the whole, unpoisoned pair under the key's own metadata; without failures returns every such pair; removes only half entries and ones with corrupt metadata, and leaves a stranger's alone |
| DiskCache.DiskCache.UpdateMetadata | src/cache/disk.rs:1791-1892 | succeeds only on the submitted version of the expected entry, and without failures always on that; adds one to the version and moves the byte count by the difference |
| DiskCache.DiskCache.Touch | src/cache/disk.rs:1113-1179 | moves the access time of the expected entry forward only, and without failures whenever that is forward |
| DiskCache.PurgeBeatsFill | src/cache/mod.rs:133-140 | a fill begun before a successful purge publishes nothing and the key stays empty |
| DiskCache.PoisonBeatsFill | src/cache/mod.rs:155-166 | the same for poison, marker written or not |
| DiskCache.FillAfterPoison | src/cache/mod.rs:155-166 | a fill begun after the poison can replace the entry, and lifts the fence only then; without failures it does, lifts the marker too, and the next lookup finds exactly its pair |
| DiskCache.FinishUndoesBegin | src/cache/disk.rs:1103-1111 | a fill that ends leaves the fill table as it was |
| DiskCache.SettledBalances | src/cache/disk.rs:1461-1484 | the books exchange the old entry for the new one |
| Metadata.CacheMeta.PreserveSameEtagHeadStateFrom | src/cache/metadata.rs:75-89 | takes the four head fields over for the same etag and changes nothing otherwise |
| Metadata.HeadStateSurvivesRefills | src/cache/disk.rs:1293-1297 | what HEAD requests learned of an object version survives any number of refills of that version, while the rest is the last refill's |
| Metadata.HeadStateIsOfTheLastNews | src/cache/metadata.rs:75-89 | after any sequence of refills and updates the head state is that of the last one that was an update or a new or untagged version |
| Metadata.StoreStateIsOfTheLastRefill | src/cache/metadata.rs:75-89 | the store's own fields are the last refill's, whatever was live before, with the version counted up by the updates since |
| Metadata.HeadStateNeedsOneTag | src/cache/metadata.rs:75-89 | nothing is taken over without a tag both records carry, and then the head state only |
| Metadata.CacheMeta.AdoptStoreState | src/cache/disk.rs:1830-1836 | an update takes the caller's record with the store's own fields from disk |
| Metadata.SecondUpdateRefusedIff | src/cache/disk.rs:1823-1836 | of two updates from one snapshot the second is refused, if and only if the version is not the last |
| Metadata.LostUpdateAtTheEnd | src/cache/disk.rs:1836 | at the last version the first update is lost |
| Metadata.ChainKeepsStoreState | src/cache/mod.rs:176-187 | a chain of updates counts the versions, keeps the store's fields and ends with the last content |
| KeyHash.HashIsStem | src/cache/key.rs:32-49 | the hash of every key is a stem the scans accept and give back |
| KeyHash.HexTells | src/cache/key.rs:44-48 | different digests have different texts |
| Filesystem.HashesArePlain | src/cache/disk.rs:896-906 | the names the cache writes are read back to the hash they were made from |
| Filesystem.StemComesBackIff | src/cache/eviction.rs:294-342 | stripping a suffix gives the stem back if and only if the stem does not end in it |
| Layout.DigestsHaveShards | src/cache/disk.rs:896-906 | the directory of every key's files has a shard's name |
| Accounting.KeyFiles | src/cache/disk.rs:896-921 | every key's files are files of an entry, and their names lead to each other |
| Layout.CollectHashDirs | src/cache/layout.rs:59-165 | the strict walk finds every shard or fails; the best-effort walk finds every shard or says it is incomplete; both find the directory of every key |
| StartupScanner.ScanHashDir | src/cache/disk.rs:655-892 | for every metadata file of the shard the scan has its fill id or is flagged incomplete; only bodies without metadata are removed, and their remaining bytes are in the unreclaimed sum unless a size is flagged unknown; on a tidy disk bytes and entries are never more than what was there, and exactly what is left when nothing failed |
| StartupScanner.ScanExisting | src/cache/disk.rs:585-652 | the same for all shards, so that the id of every key's metadata is known or the scan is flagged, a start without failures has exact statistics, and a flag has a cause |
| StartupScanner.FirstIdIsNew | src/cache/disk.rs:367-421 | startup is refused if and only if the counter file is unreadable, not a number or 0, or is missing while the scan is incomplete; otherwise the first id exceeds the id of every key on disk, or is the last one and never handed out |
| StartupScanner.FirstIdHasCause | src/cache/disk.rs:392-421 | the first id is 1, the stored counter, or just after one on disk, so it is not the last one while those are not |
| StartupScanner.ScanServesRestart | src/cache/disk.rs:585-652 | the scan delivers what the protocol assumes of a restart |
| EvictionScan.ScanShard | src/cache/eviction.rs:233-444 | a file of the shard is in a candidate or a cleanup if and only if the scan sees its name; a marker without metadata is in a cleanup; candidates are whole entries with their exact size; anything unreadable is an error |
| EvictionScan.SingleSuffixIsSeen | src/cache/eviction.rs:291-342 | every body whose stem does not end in a suffix is seen, whatever else is there (and all metadata is) |
| EvictionScan.RepeatedSuffixIsNotSeen | src/cache/eviction.rs:291-342 | a body with its suffix twice beside an entry's metadata is not |
| DeferredCleanups.RemoveOrReclaim | src/cache/eviction.rs:452-463 | the bytes reported are never fewer than what is left and never more than what was there; an error only when both stats failed |
| DeferredCleanups.MeasureUnreclaimed | src/cache/eviction.rs:487-528 | an unknown size is the earlier measurement or an error, never zero |
| DeferredCleanups.TryRecover | src/cache/eviction.rs:563-589 | what is promoted is on disk with that size and identity |
| DeferredCleanups.CleanOrphanBody | src/cache/eviction.rs:655-730 | a body without metadata is removed or its bytes counted, or the pass is aborted |
| DeferredCleanups.CleanEntry | src/cache/eviction.rs:770-919 | a broken entry is removed, counted, promoted, or aborts the pass |
| Reconciliation.ProcessCleanups | src/cache/eviction.rs:645-922 | what is left of any deferred file is in the totals; without failures everything is gone and nothing is counted |
| Reconciliation.CollectCandidates | src/cache/eviction.rs:957-1034 | an error leaves the statistics alone; otherwise the total is the candidates plus the unreclaimed bytes, answers for both files of every key, and is exceeded by what is on disk by no more than the files the scan did not see; without failures on a tidy disk it is exactly what is on disk, the candidates are exactly the entries, and markers are left with whole entries only |
| Reconciliation.NeverUndercounted | src/cache/eviction.rs:935-947 | the bound behind it, for every file in the shards |
| Reconciliation.TidyIsSeen | src/cache/eviction.rs:291-342 | where every cache-like name is one the cache writes, no file is unseen and the bound is plain |
| Reconciliation.KeyFilesAreSeen | src/cache/eviction.rs:291-342 | whatever else is on disk, no scan overlooks a file of a key |
| Reconciliation.QuietIsExact | src/cache/mod.rs:212-226 | a scan without failures repairs any drift |
| Reconciliation.WholeStays | src/cache/eviction.rs:645-922 | the cleanups of a scan without failures take no whole entry |
| Reconciliation.QuietMarkers | src/cache/eviction.rs:731-769 | without failures no marker outlives its metadata, and a whole entry keeps its marker |
| EvictionPass.LruIsStableSort | src/cache/eviction.rs:1131-1132 | the eviction order is oldest access first, ties in scan order |
| EvictionPass.TryEvict | src/cache/eviction.rs:1207-1406 | the budget afterwards counts at least what is left of the entry; statistics change only for an entry that is gone; a replaced entry is not touched |
| EvictionPass.EvictUntil | src/cache/eviction.rs:1138-1159 | the budget is always unreclaimed bytes plus what is left of tried candidates plus the untried, every attempt starts over it, the loop ends under it or with all tried, files of untried candidates stay, and without failures every candidate tried goes |
| EvictionPass.RunEvictionPass | src/cache/eviction.rs:1060-1205 | a pass tries exactly the scan's candidates in LRU order; its total covers what is on disk but for unseen files; without failures it evicts what it tries and the total is exact; one that is skipped or fails leaves the statistics alone |
| EvictionPass.QuietPassIsExact | src/cache/eviction.rs:1138-1205 | after a pass without failures exactly the untried candidates are on disk |
| SingleFlight.OneLeaderPerKey | src/cache/singleflight.rs:97-127 | at most one uncancelled leader works on a key |
| SingleFlight.GenerationsAreNew | src/cache/singleflight.rs:104-117 | generations are never reused |
| SingleFlight.NewerFlightsSurvive | src/cache/singleflight.rs:38-80 | an entry leaves the registry only through its own leader or a cancel of its key |
| SingleFlight.RestIsClean | src/cache/singleflight.rs:53-80 | with no leader and no cleanup pending the registry is empty and every follower's channel is closed |
| SingleFlight.FollowersAreReleased | src/cache/singleflight.rs:53-80 | a follower's channel closes as soon as its own leader is done |
| SingleFlight.FollowersHearIff | src/cache/singleflight.rs:40-49 | over any run a follower that joined a flight still at work has a message if and only if its leader has completed, whatever cancels, drops and newer flights came in between; one that joined later never gets one |
| SingleFlight.LeadersGoOn | src/cache/singleflight.rs:38-80 | a leader always has a next step; one at work can complete, and then its followers and nobody else have its message |
| SingleFlight.CompletingFreesTheKey | src/cache/singleflight.rs:38-50 | completing ends the flight and frees the key, unless a newer flight has it |
| SingleFlight.AcquiringIsAnswered | src/cache/singleflight.rs:97-127 | asking for a key makes a leader, or a follower of the flight that is listed |
| SingleFlight.Registry.TryAcquire | src/cache/singleflight.rs:97-127 | leader if and only if the key has no flight, and the object makes the step of the system |
| SingleFlight.Registry.Remove | src/cache/singleflight.rs:40-75 | takes the entry out only if it is of this flight, which is the step of whichever of complete, drop and cleanup runs it |
| SingleFlight.Registry.CancelKey | src/cache/singleflight.rs:129-134 | after a cancel nobody leads the key |
| MetaLocks.OneMutexPerHash | src/cache/disk.rs:929-937 | holders and waiters of a hash share the one mutex a newcomer would get, whatever sweeps run |
| MetaLocks.MutualExclusion | src/cache/disk.rs:938-984 | two writers are never both inside a key's critical section |
| MetaLocks.NewcomersWait | src/cache/disk.rs:929-937 | a newcomer gets the lock the table has for its hash |
| MetaLocks.NobodyIsStuck | src/cache/disk.rs:929-937 | a waiting writer can take its lock, or the one who holds it can hand it over |
| MetaLocks.SweepsGoOn | src/cache/disk.rs:940-983 | a sweep always has its next step, whatever writers do meanwhile |
| MetaLocks.LookMarksIff | src/cache/disk.rs:938-971 | of the hashes in the table a sweep marks exactly those nobody else refers to and that have no metadata |
| MetaLocks.SweepRemovesIff | src/cache/disk.rs:972-983 | a sweep removes exactly the marked locks nobody refers to |
| Pump.BoundedParallelScan | src/cache/scan.rs:38-80 | in every completion order: at most the cap alive, each path started at most once and in order, one result per path on success, nothing after the first failure |
| TmpNames.WrittenIsRecognised | src/cache/tmp_sweep.rs:10-21 | every writer's name is classified as that writer's |
| TmpNames.WriterNamesAreRecognised | src/cache/tmp_sweep.rs:10-21 | for every process id, key and counter, written as numbers and as the key's hash, each writer's name is classified as its own |
| TmpNames.NumeralIff | src/request_id.rs:9-13 | the segments without leading zeros are exactly the formatted numbers |
| TmpNames.RecognisedIff | src/cache/tmp_sweep.rs:10-21 | a name is classified if and only if it has the kind's shape |
| TmpNames.RecognisedIsWrittenIff | src/cache/tmp_sweep.rs:140-173 | a classified name is one its writer can give if and only if its numbers have no leading zeros and, for a fill's body, the process id stands there twice |
| TmpNames.OneWriterPerName | src/cache/tmp_sweep.rs:136-139 | no name belongs to two writers |
| TmpNames.TmpDir.Sweep | src/cache/tmp_sweep.rs:175-330 | gives every entry its verdict (removed under its kind, or skipped for its reason) or a labelled failure, removes exactly the files with the removed verdict, and its counters are the numbers of entries with each verdict and the bytes it removed |
| Credentials.Load | src/auth/credentials.rs:237-368 | succeeds if and only if all entries are valid and their tuples distinct; the index then holds exactly the entries and its length is the sum of its buckets; a failure names the first bad entry's first problem |
| Credentials.ValidIff | src/auth/credentials.rs:254-330 | which entries a file may hold, without the order of the checks |
| Credentials.ProblemMeans | src/auth/credentials.rs:254-330 | every error names a problem the entry has |
| Credentials.ResolveIsMapLookup | src/auth/credentials.rs:381-411 | a lookup in the index is a lookup in the map of tuples, then the expiry test |
| Credentials.ResolveAnswers | src/auth/credentials.rs:381-411 | in terms of the file: found is the entry with this key and token while now is before its expiry, expired is such an entry from its expiry on, unknown is a tuple that is not in the file |
| Credentials.ExpiryIsFinal | src/auth/credentials.rs:404-408 | what has expired stays expired, and what is found was found before |
| Credentials.LoadableInAnyOrder | src/auth/credentials.rs:254-362 | whether a file loads does not depend on the order of its entries |
| Credentials.ResolveInAnyOrder | src/auth/credentials.rs:381-411 | nor does any answer |
| Text.TrimmedIff | src/auth/credentials.rs:266-290 | the padding test rejects exactly the strings that begin or end with white space |
| Text.TrimTakesWhitespace | src/auth/credentials.rs:266-290 | trimming takes white space from both ends, all of it and nothing else |
| Text.FoldingIff | src/s3/checksum.rs:40-49 | case folding tells texts apart exactly up to the case of ASCII letters |
| ChunkedHeaders.Classify | src/handlers/modifiers.rs:149-261 | the loop computes the classification |
| ChunkedHeaders.OrderDoesNotMatter | src/handlers/modifiers.rs:170-225 | reordering or repeating the values never changes the class |
| ChunkedHeaders.EscalatedSummary | src/handlers/modifiers.rs:210-225 | the fold is the one mode all values agree on, or an ambiguity |
| ChunkedHeaders.HeaderNameIff | src/s3/checksum.rs:36-62 | a name is read as a checksum if and only if it is that checksum's header name, in any case |
| ChunkedHeaders.DecoderIff | src/handlers/aws_chunked.rs:336-474 | the decoder is set up with a signing and a checksum if and only if the one sentinel and the one trailer name exactly these |
| ChunkedHeaders.RejectionMeans | src/handlers/aws_chunked.rs:352-432 | every rejection names what is wrong with the headers |
| ChunkedHeaders.SplitThenJoin | src/handlers/modifiers.rs:226-250 | the tokens of content-encoding are the text between the commas |
| ChunkedHeaders.UnclassifiedIff | src/handlers/modifiers.rs:149-261 | a request is an ordinary one if and only if no header marks it as chunked in any way |
| ChunkedHeaders.ReadersAgree | src/handlers/aws_chunked.rs:352-432 | with unrepeated headers the classifier names a decodable mode if and only if the decoder is set up in it with no trailer ignored |
| ChunkedHeaders.RoutedIsDecodedIff | src/handlers/aws_chunked.rs:336-351 | a routed request is decoded in its class, if and only if no deciding header is repeated |
| ChunkedHeaders.DecodeRouteIff | src/handlers/modifiers.rs:278-391 | both write paths decode exactly the same requests and differ only for checksum headers on undecoded ones |
| ChunkedHeaders.RoutesIff | src/handlers/modifiers.rs:278-391 | the routing tables of both write paths |
| ChunkedHeaders.TrailerIsNeverDropped | src/handlers/modifiers.rs:226-250 | a declared trailer is decoded or passed through, never ignored |

## Left out

- Tokio, HTTP, JSON, the backend client, the handlers, admin and configuration: thin wrappers over libraries.
- Hashing and cryptography: which digest a key has; the protocol's keys are numbers, and the scans' keys are digests.
- File modes, fsync, metrics and logging. Times are ordered values.
- Corrupt metadata is part of the scans and of `DiskCache.DiskCache.Find`; in the step system a parse error is one of the failures of a read.
- The statistics after lookup's own cleanups, which the documentation calls approximate.
- The two counters of the statistics move in one step; the source updates them one after the other.
- A stat that fails while purge or lookup removes a file only makes the statistics drift: `DiskCache.DiskCache.Purge` says so, the step system counts what was there.
- Totals are unbounded numbers; so are process ids and counters in temp names.
- Shard scans run one after another; `Pump.BoundedParallelScan` shows that the pump returns one result per shard.
- Candidates changed by concurrent fills during an eviction pass: the pass runs on a still disk, the step system covers the interleaving.
- The chmod of a backup, and the leftover temp files of a crashed commit, which the next start sweeps.
- The lists of modifying and checksum header names: the routes take whether one is present.
- StartupScanner.ScanHashDir: byte and entry totals are about tidy disks, because the code counts a metadata file once for each body name that leads to it; and a metadata file whose stem ends in a suffix itself may be passed over, as in the code.
- StartupScanner.ScanExisting: as its shards.
- Reconciliation.CollectCandidates: files with a repeated suffix are a separate summand, because the scan does not count them.
- Reconciliation.NeverUndercounted: the same summand.
- ProtocolDeadlock.WaitingDescends: the lock of `active_fills` is a single step, see the hypotheses.
- Pump.BoundedParallelScan: which task finishes next is arbitrary, but the moment a task is aborted after a failure is not modelled.
- TmpNames.TmpDir.Sweep: a directory entry that cannot be read counts as one of the entries.
- MetaLocks.SweepRemovesIff: the probe of the metadata file is a choice, so which hashes get marked is not tied to the disk.
