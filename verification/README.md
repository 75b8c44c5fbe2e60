# Mirror Memory: keeping deleted memory deleted

A Dafny model of the deletion-durability core of mirror-memory and of the small state machines around it, with
proofs of what they keep. Verify with `dafny verify dfyconfig.toml`.

| module | what it is |
|---|---|
| Basics, Chain | log entries, the hash chain, `verify_chain` |
| FileLog | the file-backed log object with its cached position index |
| Compaction | compaction against the history that was never pruned |
| Tombstones | export of deletions to other devices, and validation of what comes in |
| Device, Channel | one device applying tombstones; why a stored anchor on the sender's chain misses nothing |
| Mesh, Careless | runs of many devices; the steps that break what they keep, in runs |
| Gossip | redelivery, relays, and what is logged how often |
| CatchUp | the pull loop, the offline grace and the gate in front of every entry point |
| Replay, Lifecycle | replay of the log onto a lagging database; runs with failures, backups and restores |
| Forgetting | which rows a targeted forget records, over runs with backups and replays |
| InitRounds | the threads of `_ensure_db` |
| EngineCache, CacheThreads | the per-tenant engine cache, as an object and under threads |
| Publishing | gates and compare-and-swap commits, interleaved |
| Export | the paged export |
| Grants | purpose grants and their event chain |

SHA-256 is a free constructor: a digest is the value it was computed from, so it is injective and never equals the
genesis hash. Clocks, stat keys, random ids, the network and database failures are parameters. A ghost history, the
log as if it had never been compacted, stands beside every compacted file. Code that changes objects step by step is
a class whose methods are proved to compute the functions the theorems are about; what several threads, processes
or devices do to each other is a transition system whose steps are the code's atomic sections.

## Where the code and its documentation part

Each of these is a lemma about the code as it is, with the exact condition and, where a state has to be reached, a run.

- A deletion that logged and whose commit failed is not a no-op at the next start, as the module text of
  `core/deletion.py` (lines 27-31) says: its rows are still there and are deleted, unless the watermark has passed
  its entry (`Lifecycle.AbortedDeletionIsReplayedIff`, `Lifecycle.AbortedDeletionRun`).
- With several writers, a backup taken while a deletion is open at or below the watermark brings that deletion's rows
  back after it commits, and the watermark can move down (`Lifecycle.RestoreHoldsDeletedIff`,
  `Lifecycle.LateCommitRun`); a forgotten belief stays gone unless it is in such a backup
  (`Forgetting.ForgottenStaysGoneIff`, `Forgetting.LateForgetRun`).
- A whole-user deletion that loses the race for its generation rolls the session back, its cascade with it, goes on
  with the next generation, logs and commits: it is reported and below the watermark, and its rows are stored as
  before (`Lifecycle.LostRaceKeepsRows`, `Lifecycle.LostRaceRun`).
- On the server backend a second prune that does anything breaks the chain for good (`Compaction.PgPruneVerifiesIff`,
  `Compaction.PgRunVerifiesIff`).
- A cursor above the head of a compacted log is served from 0 without the pruned entries, which a duplicated delivery
  turns into a deletion the receiver stands above and does not have (`Channel.OvershootIsHonestIff`,
  `Careless.OvershootRun`).
- A start compares positions only, so a database backup can be put beside a log that forked below its watermark. It
  then holds rows that its own log deletes, at or below the watermark (`Lifecycle.StartBesideIff`,
  `Lifecycle.ForkedStartRuns`). When the two logs share the chain hash at the watermark it holds none but the rows of
  deletions that logged there and deleted nothing (`Lifecycle.StartBesideSharedLog`). And the log lacks the deletions
  whose echoes the database skipped because its own log held them (`Channel.OtherLogKeepsSafeIff`, `Careless.ForkedLogRun`).
- A tombstone whose forget the publisher refuses is recorded as applied, like one whose scope no longer exists: the
  belief stays for good (`Mesh.NextResurrectsIff`, `Mesh.StepKeepsForgottenIff`, `Careless.RefusedForgetRun`).
- After compacting its own log a device carries out its own whole-user deletion again when it is echoed back
  (`Gossip.RedeliveryIsInertIff`, `Gossip.EachIdentityIsLoggedOnceIff`, `Gossip.ForgottenEchoRun`).
- Under a visibility rule a section of evidence or events ends at the first full page that withholds a row
  (`Export.WalkIsCompleteIff`, `Export.WalkCanEndEarly`).
- The idempotency key holds for publishers one after the other, not for overlapping ones
  (`Publishing.FindsAnotherIff`, `Publishing.CollidingRun`). Two changes to one user's truth that read the log together
  can both commit under one key exactly when the first to commit names the live revision or a later one and the
  second a later one still (`Publishing.TruthsCollideIff`); one that names the revision live when it read the log is
  safe from the other (`Publishing.NamedLiveIsAlone`).

Two guards that look wrong are not. `forget_belief` and `_purge_belief_ledger` append with the truth value of a list,
which would skip a first row; every stored belief has a "created" event, so nothing is ever skipped
(`Forgetting.EveryForgetIsFullyRecorded`). `_grace_state` looks for an expired state that the catch-up has already
overwritten; an expired peer is expired at every later look all the same (`CatchUp.Edge.Serve`).

## Model

| member | source | states |
|---|---|---|
| Chain.VerifyChain | src/mirror_memory/core/deletion.py:217-237 | the walk accepts exactly the logs in which every line links to the hash before it and, checkpoints aside, hashes to its recorded hash |
| Chain.ChainPins | src/mirror_memory/core/deletion.py:127-155 | two verified logs with the same chain hash at one position hold identical entries from there down to the higher of their checkpoints, and down to the genesis when neither was compacted |
| Chain.HashDeterminesEntry | src/mirror_memory/core/deletion.py:127-155 | equal hashes at equal positions mean equal entries, given that an entry without an origin has origin position 0 |
| Chain.HashForgetsPosition | src/mirror_memory/core/deletion.py:127-155 | the hash does not cover the position: every entry has a different twin under the same hash |
| Chain.HashesGrow | src/mirror_memory/core/deletion.py:217-237 | along a verified chain no hash ever repeats |
| FileLog.FileDeletionLog.IndexFor | src/mirror_memory/core/deletion.py:271-309 | the cache is served exactly while the stat key matches; otherwise the result is the index of a full scan, last line at a position winning |
| FileLog.FileDeletionLog.Head | src/mirror_memory/core/deletion.py:473-476 | the cached head is the one a linear pass over the file finds, on an absent and an empty file too |
| FileLog.FileDeletionLog.CheckpointSeq | src/mirror_memory/core/deletion.py:478-480 | the cached checkpoint is the highest one in the file |
| FileLog.FileDeletionLog.ChainHashAt | src/mirror_memory/core/deletion.py:482-486 | the cached lookup equals the scan; genesis for positions the file does not hold |
| FileLog.FileDeletionLog.HasTombstone | src/mirror_memory/core/deletion.py:488-490 | the cached lookup equals the scan, by own hash or by relay hash |
| FileLog.FileDeletionLog.EnsureFile | src/mirror_memory/core/deletion.py:346-366 | only an absent file gets a genesis entry |
| FileLog.FileDeletionLog.AppendLocked | src/mirror_memory/core/deletion.py:311-325 | the index folded in under the append lock is again the index of a full scan of the file |
| FileLog.FileDeletionLog.Append | src/mirror_memory/core/deletion.py:368-388 | the file grows by one entry sealed behind its tail, whether or not the cache was current |
| FileLog.FileDeletionLog.Prune | src/mirror_memory/core/deletion.py:492-551 | the file and the count are those of the compaction function in every branch, and no cache survives |
| FileLog.IndexAfterRewrite | src/mirror_memory/core/deletion.py:271-284 | a rewrite behind the log's back is noticed exactly when it changes the stat key or the new file indexes the same |
| FileLog.Drive | src/mirror_memory/core/deletion.py:271-331 | after any run of own appends, own compactions, lookups, external rewrites under new stat keys and removals all four lookups answer as a scan of the file would, or as for no file |
| FileLog.TailIsMaximum | src/mirror_memory/core/deletion.py:300-305 | the recorded tail is the highest position of the index and what the index holds there |
| Compaction.CompactionRefinesFullLog | src/mirror_memory/core/deletion.py:492-551 | over any interleaving of appends and prunes the chain verifies, the file agrees with the never-pruned history from its checkpoint up, and the counts returned add up to the checkpoint position |
| Compaction.LookupsRefine | src/mirror_memory/core/deletion.py:473-490 | head, chain hashes and tombstone lookups of a compacted file equal the full history's above the checkpoint; below and at it the exact answers are given |
| Compaction.NextAppendIsTheSame | src/mirror_memory/core/deletion.py:368-388 | the next append gets the position, link and hash it would have got without any compaction |
| Compaction.PruneOfShape | src/mirror_memory/core/deletion.py:510-551 | a prune at a held position above the checkpoint keeps the genesis, one new checkpoint and the suffix, and reports exactly the deletions dropped |
| Compaction.PruneOutsideIsNoop | src/mirror_memory/core/deletion.py:510-530 | any other prune changes nothing and reports 0 |
| Compaction.ReadFromRefines | src/mirror_memory/core/deletion.py:441-451 | reading above a position at or above the checkpoint gives the full history's entries |
| Compaction.PgPruneVerifiesIff | src/mirror_memory/core/deletion.py:736-782 | on the server backend a prune of a verified log leaves a verified one exactly when the log was never compacted or the prune does nothing |
| Compaction.PgRunVerifiesIff | src/mirror_memory/core/deletion.py:736-782 | over any run of appends and prunes on the server backend the log verifies exactly when at most one prune did anything |
| Tombstones.TakeCut | src/mirror_memory/core/tombstones.py:352-364 | the read loop consumes the shortest prefix that yields the limit of travelling entries, or everything, never more than the limit, and counts what cannot travel |
| Tombstones.ExportFromLog | src/mirror_memory/core/tombstones.py:316-369 | an export is refused exactly below the checkpoint; otherwise it is the batch of the served range with the chain hashes at both ends |
| Tombstones.TravellingMembers | src/mirror_memory/core/tombstones.py:291-313 | the tombstones of a run of entries are those of its travelling entries, no more and no fewer |
| Tombstones.TravelsIff | src/mirror_memory/core/tombstones.py:291-303 | every user and session deletion travels, a belief's exactly with a global id, and no marker does |
| Tombstones.SameTombstoneIff | src/mirror_memory/core/tombstones.py:291-313 | two entries travel as one tombstone exactly when they agree on identity, tenant, user, scope, key, generation and time |
| Tombstones.ValidateEntries | src/mirror_memory/core/tombstones.py:270-288 | the per-entry checks stop at the first entry that is malformed, mis-hashed, foreign or a duplicate, with that reason |
| Tombstones.AcceptedIffExportable | src/mirror_memory/core/tombstones.py:226-252 | the per-entry checks let through exactly the tombstones that some log entry of a well-named log travels as |
| Tombstones.ProblemIsTrue | src/mirror_memory/core/tombstones.py:226-288 | the reason given for an entry holds and is the first that does |
| Tombstones.HexTexts | src/mirror_memory/core/tombstones.py:39-40 | 32 characters pass as an id exactly when they are figures or the letters a to f, with or without one line end |
| Tombstones.BlankTexts | src/mirror_memory/core/tombstones.py:234-235 | a user id with a visible character is not blank; spaces, tabs and line ends alone are |
| Tombstones.ValidateBatch | src/mirror_memory/core/tombstones.py:255-288 | a batch is accepted exactly when its envelope and every entry are well formed, sealed, of the tenant and without duplicates |
| Tombstones.EnvelopePinsBatch | src/mirror_memory/core/tombstones.py:158-172 | two accepted batches under one envelope hash are the same batch |
| Tombstones.ExportedEntryIsOk | src/mirror_memory/core/tombstones.py:226-252 | exactly when an exported tombstone passes the receiver's checks on an entry |
| Device.Engine.AppendDeletionLog | src/mirror_memory/api.py:537-580 | on a well-formed log the entry chains behind the last one at the next position, is found by a lookup at once, and nothing the log held is missing, whatever becomes of the transaction |
| Device.Engine.ApplyOneTombstone | src/mirror_memory/api.py:1622-1647 | the local deletion of the tombstone's scope, logged with the relayed identity; nothing is deleted or logged when the scope is gone or the publisher refuses the forget |
| Device.DeleteIsExact | src/mirror_memory/api.py:1198-1232 | a deletion that is carried out removes exactly the belief and session rows it names, logs one entry with its user, scope, key, fingerprints and generation, and touches nothing else; any other changes nothing |
| Device.DeletesIff | src/mirror_memory/api.py:1374-1399 | a deletion is carried out exactly for a whole user, a stored session, or a stored belief that the publisher does not refuse |
| Device.ApplyIsExact | src/mirror_memory/api.py:1563-1592 | an application removes exactly the rows that some tombstone carried out names |
| Device.NothingNamedIsLeft | src/mirror_memory/api.py:1563-1592 | after an accepted batch no row is left that one of its tombstones names, unless the device knew the tombstone or the publisher refused it |
| Device.NextRecords | src/mirror_memory/api.py:1581-1592 | a tombstone new to the device is put on record with its user, scope and key, found or not; a known one leaves no trace |
| Device.CountsAddUp | src/mirror_memory/api.py:1581-1620 | the recorded count is the growth of the applied table, and less the no-ops the growth of the log |
| Device.Engine.ApplyEntries | src/mirror_memory/api.py:1563-1592 | the loop with its two lookup sets computes the one-by-one application in which a tombstone is skipped when recorded, or when it came from here and the log still holds it; the recorded, skipped and no-op counts are exact |
| Device.Engine.AllUsersKnown | src/mirror_memory/api.py:1525-1534 | a multi-tenant receiver passes exactly the batches whose users it knows |
| Device.Engine.ApplyAccepted | src/mirror_memory/api.py:1563-1615 | a database failure after any entry leaves the database as it was and only the log longer |
| Device.Engine.ApplyTombstones | src/mirror_memory/api.py:1429-1620 | accepted exactly when the authenticated tenant is the engine's, the batch passes validation, its users are known and the database does not fail; a refused batch changes nothing; an accepted one applies and moves the anchor to its end, or back to the start on a rescan |
| Device.ApplyKeeps | src/mirror_memory/api.py:1563-1592 | an application only grows the log and the applied table, only shrinks memory, and leaves every tombstone of the batch known |
| Channel.ApplyKeepsSafe | src/mirror_memory/api.py:1493-1607 | every stored anchor stays covered, whether the batch continues, repeats, comes late or rescans |
| Channel.FailedApplyKeepsSafe | src/mirror_memory/api.py:1608-1615 | an application that fails half way, its log entries left behind, keeps every anchor covered |
| Channel.ExportIsHonest | src/mirror_memory/core/tombstones.py:347-369 | every export that is not an overshoot of a compacted log carries all the travelling entries between its two chain hashes |
| Channel.SafeMissesNothing | src/mirror_memory/api.py:1493-1520 | if the sender's log still has the stored hash at the stored cursor, every travelling entry up to it was applied at the receiver or happened there |
| Channel.OvershootIsHonestIff | src/mirror_memory/core/tombstones.py:338-350 | on a log of distinct identities an overshoot of a compacted log carries all the travelling entries up to its end exactly when none of the pruned ones can travel |
| Channel.OvershootOfCompactedLogLosesDeletions | src/mirror_memory/core/tombstones.py:338-350 | otherwise its batch is accepted twice: the first delivery re-anchors at the start, the second ends on the sender's chain above a pruned deletion that the receiver does not have |
| Channel.ExportIsAccepted | src/mirror_memory/core/tombstones.py:255-288 | whatever a well-named log of well-formed, distinct entries serves, compacted or not and overshoots included, passes the receiver's checks |
| Channel.OtherLogKeepsSafeIff | src/mirror_memory/core/replay.py:312-391 | a database put beside another verified log of its device stays safe exactly when that log holds every own deletion that the database met on others' chains and did not record |
| Channel.LongerLogHoldsEchoes | src/mirror_memory/core/replay.py:312-391 | a log that continues the one the database was saved with holds them all |
| Mesh.StepKeepsCore | src/mirror_memory/api.py:1429-1620 | every step of any number of devices, deletion, compaction, export, late or repeated delivery, abort, backup, and restore beside any verified log, keeps every log a verified one of its device and every named global id a minted one |
| Mesh.StepKeepsSafeIff | src/mirror_memory/api.py:1429-1620 | a step keeps every anchor covered and every batch in flight honest exactly when it is no overshoot that hides a travelling entry and no restore beside a log without the echoes |
| Mesh.ChannelSafety | src/mirror_memory/api.py:1493-1607 | between any two devices in every state reached by such careful steps the receiver has missed nothing below a cursor that is still on the sender's chain |
| Mesh.NextResurrectsIff | src/mirror_memory/api.py:1573-1592 | one tombstone application leaves a stored belief named by a recorded tombstone exactly when there was one that it does not remove, or it is itself a refused forget of a stored belief |
| Mesh.StepKeepsForgottenIff | src/mirror_memory/api.py:1563-1592 | a step keeps forgotten beliefs out of every memory and backup exactly when it is no delivery with a refused forget that no later entry of the batch makes up for |
| Mesh.NoBeliefResurrection | src/mirror_memory/api.py:1563-1592 | in every state of every run of such steps, careless ones included, and in every backup no stored belief carries a global id that an applied belief tombstone of its user names |
| Careless.OvershootRun | src/mirror_memory/core/tombstones.py:338-350 | two new devices of one tenant can take the overshoot run, eleven steps in which every restore passes the position checks, and end with a deletion missed |
| Careless.ForkedLogRun | src/mirror_memory/core/replay.py:329-360 | two new devices of one tenant can take the forked-log run, ten steps of which only the last, a restore that passes the position checks, is careless, and end with a deletion missed |
| Careless.RefusedForgetRun | src/mirror_memory/api.py:1573-1592 | two new devices that hold one belief can take this run of three steps: one forgets it, the other is sent the tombstone while its publisher refuses, and holds the belief whatever is delivered again |
| Gossip.InertIffKnown | src/mirror_memory/api.py:1542-1592 | a delivery leaves data, applied table and log alone exactly when every tombstone in it is already known |
| Gossip.RedeliveryIsInertIff | src/mirror_memory/api.py:1542-1592 | a batch once applied and delivered again, after any deletions, insertions, compactions, aborts and other deliveries, changes only the channel's anchor exactly when it names no own deletion that was pruned and is not on record |
| Gossip.RelaysKeepIdentity | src/mirror_memory/core/tombstones.py:291-313 | over any number of relays a tombstone keeps origin, origin position, origin hash, user, scope and key |
| Gossip.EachIdentityIsLoggedOnceIff | src/mirror_memory/api.py:1577-1592 | over any run of deletions, insertions, compactions and deliveries a device logs each identity at most once exactly when no delivery brings an own deletion that it pruned, has not on record, and still finds something to delete for |
| Gossip.EachIdentityIsLoggedOnce | src/mirror_memory/api.py:1577-1592 | in particular a device that never compacts logs each identity at most once, whatever it is sent |
| Gossip.ForgottenEchoRun | src/mirror_memory/api.py:1577-1592 | a run: a user is deleted, the echo changes nothing, a compaction follows, and the same batch is carried out and logged a second time |
| CatchUp.Edge.Round | src/mirror_memory/api.py:1693-1722 | one iteration advances an aligned channel, rescans exactly a misaligned one, or stops: at a lost link, at a pruned position, or exactly when the served batch fails validation, names an unknown user or meets a database failure |
| CatchUp.Edge.PullLoop | src/mirror_memory/api.py:1689-1722 | the loop ends with at most one rescan and completes only at the peer's tail with every travelling entry had; with an acceptable log, known users, no lost link and no database failure it completes, unless the log is compacted and the anchor is below the checkpoint or off the chain, when it ends as pruned |
| CatchUp.Edge.CatchUp | src/mirror_memory/api.py:1653-1743 | only a confirmed tail stamps the completion; a lost link degrades to the state the clock decides, any other failure leaves the engine catching up |
| CatchUp.Edge.GraceExpired | src/mirror_memory/api.py:1745-1771 | expired exactly when no complete catch-up is younger than the grace period |
| CatchUp.Edge.SyncGate | src/mirror_memory/api.py:1870-1914 | a read passes exactly when a catch-up completed in the call or the last complete one is within the grace period when judged; entries are refused exactly while catching up; a catch-up is attempted exactly when the last one is too old or the state degraded, and each way it can end decides the answer |
| CatchUp.Edge.GateWithoutTransport | src/mirror_memory/api.py:1848-1868 | without a transport a read passes exactly when one single peer's completed catch-up is within the grace period; writes always pass |
| CatchUp.Edge.Serve | src/mirror_memory/api.py:1773-1914 | over any sequence of calls on a non-decreasing clock every read that passed was fresh within its call; after a failure that is not a lost link nothing passes; once a read was refused none passes for that peer before the call that completes the next catch-up |
| Replay.MainDb.DeleteMatching | src/mirror_memory/core/replay.py:133-139 | the loop over the candidate rows of one table removes exactly the recorded ones and no other row |
| Replay.MainDb.ApplyEntry | src/mirror_memory/core/replay.py:154-263 | an entry naming an unknown table is refused before anything changes; otherwise, in whatever table order, the recorded rows go, the user's waiting jobs are cancelled and the generation is on record |
| Replay.MainDb.ReplayLoop | src/mirror_memory/core/replay.py:370-386 | the loop, stopped anywhere, has replayed exactly a prefix with the watermark of its last entry |
| Replay.MainDb.Reconcile | src/mirror_memory/core/replay.py:274-391 | which of its answers reconcile gives when; a refusal before the replay changes nothing, an unknown table leaves exactly the entries before the first one that names it replayed, and a success leaves the backup less the rows recorded above its watermark, at the tail |
| Replay.ReplayClosedForm | src/mirror_memory/core/replay.py:179-263 | a replay is one set difference: what it leaves depends neither on the order of the entries nor on how often each occurs |
| Replay.RowSurvivesIff | src/mirror_memory/core/replay.py:119-139 | a stored row survives a replay exactly when no deletion in it records the row for its tenant and, unless it is an evidence link, its user |
| Replay.JobSurvivesIff | src/mirror_memory/core/replay.py:236-250 | a waiting job survives a replay exactly when no deletion in it is of the job's user |
| Replay.ReplayIsOrderFree | src/mirror_memory/core/replay.py:179-263 | replaying the same entries in any order and number gives the same data |
| Replay.ReplayIsIdempotent | src/mirror_memory/core/replay.py:179-263 | replaying entries already replayed changes nothing |
| Replay.CrashesDoNotMatter | src/mirror_memory/core/replay.py:376-386 | a replay interrupted any number of times anywhere and then finished ends in the database of an uninterrupted one |
| Replay.GenerationsNeverRollBack | src/mirror_memory/core/replay.py:250-262 | a user's highest generation never falls and ends at or above every replayed entry's |
| Lifecycle.Deployment.Delete | src/mirror_memory/api.py:1198-1232 | cascade, generation, log append, watermark, commit: a failed append leaves database and log as they were, a failed commit leaves only the log entry, and after a lost race for the generation a commit has deleted nothing |
| Lifecycle.StepKeepsCore | src/mirror_memory/api.py:537-580 | inserts, interleaved deletions failing at any point, compactions, backups, restarts and restores of any backup all keep: deletions logged, entries accounted for, watermarks within the log; and, while restores are of backups taken with no deletion open, nothing deleted stored |
| Lifecycle.FailClosed | src/mirror_memory/api.py:563-580 | at every moment of every run, whatever was restored, each committed deletion is in the log and no watermark, live or backed up, is past the tail; nothing deleted is stored while restores were careful |
| Lifecycle.RestoreIsExact | src/mirror_memory/core/replay.py:312-391 | any backup restored at any moment of any run comes back as itself less exactly the rows recorded above its watermark, each of them deleted or recorded by a failed or open deletion |
| Lifecycle.RestoreHoldsDeletedIff | src/mirror_memory/core/replay.py:312-391 | while restores were careful it holds a deleted row exactly when some row was recorded only at or below the watermark, by a deletion open when the backup was taken and committed later; without failed or open deletions it is the backup less everything deleted |
| Lifecycle.ReconcileIsFinished | src/mirror_memory/core/replay.py:329-391 | reconcile succeeds exactly when the watermark is within the log and no unknown table is named above it, and then leaves the finished replay, at the tail |
| Lifecycle.AbortedDeletionIsReplayedIff | src/mirror_memory/core/deletion.py:27-31 | the start after an aborted deletion leaves the rows alone exactly when no stored row is recorded above the watermark, and takes the aborted deletion's rows when its entry is above it |
| Lifecycle.AbortedDeletionRun | src/mirror_memory/core/deletion.py:27-31 | a run: a row is written, its deletion logs and fails to commit, and the start takes the row |
| Lifecycle.LostRaceKeepsRows | src/mirror_memory/core/repository.py:2654-2678 | a deletion that lost the race for its generation and committed leaves its rows stored and its entry at the watermark; the next start takes exactly the rows that a later entry records |
| Lifecycle.LostRaceRun | src/mirror_memory/core/repository.py:2654-2678 | a run: a row is written, its deletion logs, loses the race and commits, and the next start leaves the row |
| Lifecycle.LateCommitRun | src/mirror_memory/api.py:571-579 | a run: two deletions log, the second commits, a backup is taken, the first commits, and the restored backup holds the first one's row |
| Lifecycle.StartBesideIff | src/mirror_memory/core/replay.py:312-391 | a stored row survives a start beside any verified log exactly when every entry of that log that records it is at or below the watermark |
| Lifecycle.StartBesideSharedLog | src/mirror_memory/core/replay.py:312-391 | a backup taken with no deletion open, in a run of careful restores, put beside a log of another run with the same chain hash at the watermark, keeps no row that log deletes, but for deletions that logged at or below the watermark and failed |
| Lifecycle.ForkedStartRuns | src/mirror_memory/core/replay.py:329-360 | two runs from one new deployment: the backup of one starts in step beside the log of the other and holds the row that this log deletes |
| Forgetting.ForgetBelief | src/mirror_memory/core/repository.py:2809-2846 | the collection records no row that stays, and every row that goes but for the identity and the belief, which it records exactly when something was collected before them; one event of the belief is enough |
| Forgetting.ForgetIsFullyRecordedIff | src/mirror_memory/core/repository.py:2786-2900 | a forget's log entry covers everything the forget deletes exactly when something was collected before the identity, if there is one, and before the belief |
| Forgetting.OthersAreRecorded | src/mirror_memory/core/repository.py:2685-2711 | every collected row goes, and every other row that goes is collected |
| Forgetting.RecordsEveryField | src/mirror_memory/core/repository.py:2809-2900 | field by field: events, links, digests, transitions, proposals, orphaned evidence, snapshots, belief, identity and versions are recorded, and nothing else |
| Forgetting.CollectedIsHandled | src/mirror_memory/core/replay.py:142-151 | replay has a handler for every table that a deletion of any scope records, and for no other |
| Forgetting.RecordedRowsAreGone | src/mirror_memory/core/replay.py:154-248 | replaying a log in which a deletion of any scope recorded a row leaves no such row of its tenant and user, or of its tenant if it is an evidence link |
| Forgetting.ForgottenFootprintIsGone | src/mirror_memory/core/replay.py:154-248 | a replayed forget leaves no row of its footprint that is its tenant's and its user's, or a link |
| Forgetting.StepKeepsInv | src/mirror_memory/core/repository.py:1085-1104 | creations, further events, targeted and whole-user deletions that log and then commit or abort with others in between, backups, restarts and restores all keep an event with every stored or backed-up belief, and log entries that name an event name its belief |
| Forgetting.EveryForgetIsFullyRecorded | src/mirror_memory/core/repository.py:2809-2900 | in every reachable state, other deletions being open or not, a forget records exactly the rows it deletes |
| Forgetting.ForgottenStaysGoneIff | src/mirror_memory/api.py:563-580 | a belief whose deletion committed is stored at no later moment, until one of the same fingerprint is created, exactly when no restored backup holds it that was taken while the deletion was open at or below its watermark and that no entry above the watermark makes up for |
| Forgetting.LateForgetRun | src/mirror_memory/api.py:563-580 | a run: two forgets log, the second commits, a backup is taken, the first commits, and the restored backup holds the first one's belief |
| Forgetting.ForgottenBeliefStaysGoneIff | src/mirror_memory/core/replay.py:119-139 | a replay of a log in which one entry is the belief's forget removes a stored belief row exactly when the forget had collected something before it |
| InitRounds.StepKeepsInv | src/mirror_memory/api.py:254-306 | one round at a time, outcomes in step with the published flag, and no waiter without a pending set, after every step of any thread |
| InitRounds.InitIsSafe | src/mirror_memory/api.py:254-306 | in every interleaving: mutual exclusion in _initialize_db, no outside caller returns before the flag is published, one successful round, re-entrant calls never wait, no waiter is lost |
| InitRounds.StepAnswers | src/mirror_memory/api.py:276-306 | step by step, a call raises only at the end of a round of its own that failed, returns after one that succeeded, and returns at once when the engine is initialised |
| InitRounds.RaisesIffOwnRoundFailed | src/mirror_memory/api.py:293-306 | in every interleaving a call raises exactly at the end of a round of its own whose _initialize_db raised |
| InitRounds.InitialisedIffSomeRoundSucceeded | src/mirror_memory/api.py:293-300 | in every interleaving the engine is initialised exactly when some _initialize_db has returned |
| InitRounds.OwnersAreNeverHeldUp | src/mirror_memory/api.py:299-305 | no other thread can hold up the one that will set the event, and each of its own steps brings the set nearer |
| InitRounds.SomebodyCanMove | src/mirror_memory/api.py:276-306 | no reachable state is a deadlock |
| InitRounds.LateSetReachesNextRound | src/mirror_memory/api.py:302-305 | the late set of a failed round can fall into the next one and leaves its event set while it runs |
| InitRounds.NotifiedWaiterLeaves | src/mirror_memory/api.py:276-306 | a waiter that a set has woken leaves the wait although the next round has cleared the event since |
| EngineCache.TenantEngineCache.Get | src/mirror_memory/server.py:296-304 | a hit moves to the end and changes nothing else; a placeholder is no hit |
| EngineCache.TenantEngineCache.Enter | src/mirror_memory/server.py:306-322 | the answer is what the dictionary held for this very key: its engine, its parked future, or a new placeholder |
| EngineCache.EnterAnswers | src/mirror_memory/server.py:306-322 | a hit is the key's own engine, a join its own placeholder's future, a build exactly when there is neither; nothing else enters or leaves the dictionary |
| EngineCache.TenantEngineCache.Land | src/mirror_memory/server.py:334-341 | the engine takes its placeholder's place and the eviction loop runs down to the limit |
| EngineCache.TenantEngineCache.Unpark | src/mirror_memory/server.py:326-332 | a failed creation removes its own placeholder and no other |
| EngineCache.UnparkTakesItsOwn | src/mirror_memory/server.py:326-332 | exactly the given placeholder goes |
| EngineCache.TenantEngineCache.Clear | src/mirror_memory/server.py:352-360 | the engines go, in order, and the placeholders stay |
| EngineCache.EvictTakesTheOldest | src/mirror_memory/server.py:339-341 | the loop takes exactly the engines over the limit that were used longest ago, in that order |
| EngineCache.EvictKeepsPlaceholders | src/mirror_memory/server.py:338-341 | no placeholder is ever evicted |
| EngineCache.LandFacts | src/mirror_memory/server.py:334-341 | at a landing the count is within the limit, the landed engine is the most recent one and stays, and engines are conserved between cache and list |
| CacheThreads.StepKeepsInv | src/mirror_memory/server.py:306-360 | placeholders and creators go together one to one, futures resolve once with what their creator made, engines are conserved, order is recency, after every step of any thread |
| CacheThreads.OneCreationPerTenant | src/mirror_memory/server.py:306-333 | in every interleaving at most one creation is in flight per tenant, every waiter gets its creator's engine or exception, and no waiter is forgotten |
| CacheThreads.EverybodyGetsTheirOwn | src/mirror_memory/server.py:306-343 | in every interleaving whoever comes back for a tenant, on a hit, as creator or after waiting, got the engine or the exception of a creation for that very tenant |
| CacheThreads.UsesAreNoted | src/mirror_memory/server.py:296-341 | every hit, by either door, and every landing counts as a use of its key, and nothing else does |
| CacheThreads.EveryEngineInOnePlace | src/mirror_memory/server.py:324-360 | every engine ever built is with its creator, in the cache, or once in one list handed out |
| CacheThreads.LandingEvictsTheLeastRecent | src/mirror_memory/server.py:334-341 | every landing leaves at most the limit and evicts exactly the keys used longest ago, never the one that lands |
| Publishing.Publisher.Publish | src/mirror_memory/core/publisher.py:118-184 | one publish answers already-committed, refused, failed or committed, and writes only in the last case |
| Publishing.GatesPassIff | src/mirror_memory/core/publisher.py:207-292 | a change to the truth passes the gates exactly when it names the live revision, the user's truth admits it and its evidence is theirs and of no other session |
| Publishing.TruthChangesNameARevision | src/mirror_memory/core/publisher.py:217-224 | creating, supporting, updating, contradicting, verifying, correcting, forgetting and rejecting without a revision are refused for that, and no other change is |
| Publishing.StorageGatesPassIff | src/mirror_memory/core/publisher.py:225-292 | a storage-only change passes exactly when memory is on, a revision it names is live, its evidence fits and its target is the user's, not rejected, and planned for or current |
| Publishing.RefusalIsTrue | src/mirror_memory/core/publisher.py:207-292 | every refusal gives a reason that holds |
| Publishing.CommitMovesTheRevision | src/mirror_memory/core/publisher.py:394-443 | a publish that commits moves its user's revision by one for those eight changes and not for the others, nobody else's, and logs one row that says so |
| Publishing.StepsAreOnePublish | src/mirror_memory/core/publisher.py:118-184 | reading the log, passing the gates and committing with nobody in between is one publish |
| Publishing.StepKeepsInv | src/mirror_memory/core/publisher.py:118-184 | a revision vouches for one truth, gated publishers hold what their revision vouches for, commits are ordered by revision, and proposal ids stay distinct, after every step |
| Publishing.CommitsOnWhatTheGatesSaw | src/mirror_memory/core/publisher.py:394-443 | in every interleaving a committed change to the truth lands on the very truth its gates saw, which still admits it, and moves the revision by one; a failed one leaves the whole store as it was |
| Publishing.NoTwoCommitsShareARevision | src/mirror_memory/core/repository.py:205-236 | no two commits to one user's truth name the same revision, and no two log rows the same proposal |
| Publishing.SequentialKeysAreUnique | src/mirror_memory/core/publisher.py:127-147 | any sequence of publishers that come one after the other leaves no two rows of one key and no two of one id |
| Publishing.RetryCommitsNothing | src/mirror_memory/core/publisher.py:127-147 | in such a sequence a retry of a committed key or proposal is answered as already committed, with the row it matches, and changes nothing, unless a forget in between took the row out of the log |
| Publishing.FindsAnotherIff | src/mirror_memory/core/models.py:590-591 | in every run a commit finds another row of its key exactly when another proposal of the key committed after its publisher read the log and the row is still there |
| Publishing.ConcurrentKeysCollideIff | src/mirror_memory/core/models.py:590-591 | of two proposals of one key whose gates passed on one and the same store, the second commit goes through exactly unless both change one user's truth, and then leaves two rows of the key unless it purges the first one's |
| Publishing.NamedLiveIsAlone | src/mirror_memory/core/publisher.py:405-412 | in every run a change to the truth that names no revision above the one live when its publisher read the log never commits beside another change of its user that committed since |
| Publishing.TruthsCollideIff | src/mirror_memory/core/publisher.py:394-443 | two changes to one user's truth under one key, both publishers having read the log first, can both commit in that order exactly when the first names the live revision or a later one and the second one later still |
| Publishing.CreationsCollide | src/mirror_memory/core/publisher.py:394-443 | two creations of one key from the empty store, naming the live revision and the next, both commit in some run |
| Publishing.CollidesOnlyWhenConcurrent | src/mirror_memory/core/publisher.py:127-147 | in every run a commit that finds another row of its key read the log before that row was in it |
| Publishing.CollidingRun | src/mirror_memory/core/publisher.py:118-184 | every such pair has a run: both read the log, both pass the gates, both commit |
| Publishing.SynthesesCollide | src/mirror_memory/core/publisher.py:118-184 | there is such a pair: two syntheses of one key over the empty store |
| Export.PageStep | src/mirror_memory/core/export.py:182-241 | a page shows the head of what is to come, its cursor resumes exactly after it, and the end is nearer |
| Export.PageSizeIsChecked | src/mirror_memory/core/export.py:202-204 | a page is refused exactly for a size outside 1 to 5000 |
| Export.Export | src/mirror_memory/api.py:2063-2081 | following the cursor from none ends, and concatenates beliefs, evidence and events |
| Export.WalkShowsEverything | src/mirror_memory/core/export.py:202-213 | beliefs, with or without a rule, and every section without one, show each shown row once, in order |
| Export.WalkIsCompleteIff | src/mirror_memory/core/export.py:214-240 | evidence and events under a rule are complete exactly when no full page withholds a row while a visible one comes later |
| Export.WalkCanEndEarly | src/mirror_memory/core/export.py:214-240 | three rows, the second withheld, in pages of two: the walk never shows the third |
| Export.ExportIsCompleteIff | src/mirror_memory/core/export.py:182-241 | the whole export, section by section, with the exact condition for each |
| Export.ShownIsExact | src/mirror_memory/core/export.py:214-231 | the shown rows are the visible ones, each once, by ascending id |
| Grants.GrantTables.GrantPurpose | src/mirror_memory/core/authorization.py:268-344 | accepted exactly as a first issuance of a grant that was and still is missing, or as an update that names the live version; then the row is written unrevoked at the next version with one event, other grants untouched; otherwise nothing changes |
| Grants.GrantTables.RevokePurpose | src/mirror_memory/core/authorization.py:371-408 | accepted exactly when the row read is unrevoked, of the expected version and still live; then it is revoked at the next version with one event, other grants untouched; otherwise nothing changes |
| Grants.StepKeepsInv | src/mirror_memory/core/authorization.py:268-408 | every grant's events chain and fold to its row, and a row read earlier is the live one or older, after every step of any caller |
| Grants.EventsFoldToTheGrant | src/mirror_memory/core/authorization.py:268-408 | in every interleaving the events number the versions 1, 2, 3 and so on, each from the one before, fold to the row's version and revoked flag, and are as many as the version says |
| Grants.RefusedAddsNothing | src/mirror_memory/core/authorization.py:268-408 | a refused or idempotent call changes nothing; an accepted one adds one event |

## Left out

- Replay.MainDb.Reconcile: answers are fixed for logs of the shape appends and prunes leave (genesis first, then one contiguous run); for other files only the refusals are.
- Lifecycle.RestoreIsExact: a deletion is assumed to fingerprint exactly the rows it removes; `Forgetting.EveryForgetIsFullyRecorded` proves it of a targeted forget.
- Lifecycle.LostRaceKeepsRows: the same race inside the application of a batch, where the session also carries the entries before it, is not followed.
- Mesh.NoBeliefResurrection: global ids are minted once.
- Mesh.ChannelSafety: a restore there may bring back any verified log of the device, whatever its positions; the position checks are those of `Lifecycle` and `Replay.MainDb.Reconcile`.
- Gossip.EachIdentityIsLoggedOnceIff: an aborted application leaves its log entries and rolls the applied table back, and a restore puts both tables back, so runs with either can log an identity twice; they are not counted there.
- Publishing.CommitsOnWhatTheGatesSaw: evidence rows carry no revision, so the evidence gates are not claimed to hold again at the commit; the bodies of handlers and the plans of tier moves and compactions are assumed through `HandlerOk` and `planOk`.
- Publishing.Publisher.Publish: a savepoint that is released counts as committed; the caller's outer transaction rolling back later is not followed.
- CatchUp.Edge.PullLoop: completion is promised for users the tenant has a preference, grant or user row for; a user known only through a stored belief is not counted on.
- CatchUp.Edge.Serve: the gate is called by one thread; `_sync_lock` and concurrent entries are not followed.
- Transitive propagation: a device that finds nothing to delete records a tombstone without logging it, so it relays nothing.
- Forgetting.ForgottenStaysGoneIff: the log there is never compacted; compaction only refuses some of its restores.
- One log object serves one database life here; the dictionary from database life to index in `FileDeletionLog` is one entry of it.
- Devices read their own log through the scan functions that `FileDeletionLog` is proved to answer with.
- The dictionary form of a batch: its second definition drops the chain hashes, so it does not round-trip.
- `PgDeletionLog` other than its prune, advisory locks, flock, fsync, JSON text, SQL, row-level security and tenancy scopes.
- The text of export cursors, the id lists written to the access audit, and re-authorization between pages.
- Argument checks and trimming in `grant_purpose` and `revoke_purpose`, expiry, and `authorize`, a decision over one row.
- Disposal of evicted engines' pools, HTTP routes, metrics, logging, configuration.
- Extraction, retrieval, scoring, rendering, metabolism planning and workers: formulas and one-branch facts beside the durability core.
