# Verification of the Android release control plane

A Dafny model of the release control plane in `scripts/`: the lease-guarded coordinator that turns
pushes into Jobs, the deployment of one release, the intake of pushes, the archive and its catalogue,
and the parsers, inverses and folds that support them. `dafny verify dfyconfig.toml` checks all of it.

## How it is modelled

- **Protocols** (coordinator, lease, deployment, cache writer, catalogue, outbox, firewall) are step
  relations `Next(s, step, t)` over explicit states. Crashes, lost replies, late deliveries, loss of
  the working volume and the other parties are steps too. Theorems hold in every state of every
  `Run`. A process that stops is one that takes no further step.
- **Loops and objects** of the source are methods and classes, each proved equal to a function on
  values (`Activities`, `Intake.Ingest`, `VerifiedSourceInventory`, `Kernel.Install`/`Cleanup`,
  `Bucket.PublishAll`/`PublishDirectory`, `Volume.Hydrate`, `Directory.Drain`, `Renewal.Refresh`,
  `DnsReply`, `RankSum`, `Observe`, `Evidence`); the promises are proved of that function.
- **Hashes** are function parameters. Where a property needs it, they are collision-free on the
  finitely many byte strings at hand, never on all of them. In the coordinator, the cache writer and
  the catalogue a request or an object stands for its own digest.
- **Clocks** are readings supplied by the environment, in seconds as reals; each theorem that needs a
  bound between clocks states it.
- **Byte strings** are strings of characters below 256, and hexadecimal Git identifiers are the bytes
  they denote. Integers are unbounded, as in Python.
- `write_json` and an object-store upload are atomic and durable. In `CoordinatorSafety` a checkpoint
  write takes effect before its sender stops; `CoordinatorLate` adds those that arrive afterwards.

## What turned out not to hold

Each of these is a lemma with the failing input, beside the condition under which the property holds.

- `ingest` keeps one cursor per repository and one event file per project and activity: two projects
  that share a repository lose pushes. Durable exactly when no two projects share one
  (`IngestSharing.DurableIffOwnRepositories`).
- A `live` or `warmed` receipt is rewritten as failed, and a live release rolled back, when publishing
  it raises, or when its own write raises after it took hold, because both are inside the guarded block.
  Terminal receipts absorb exactly when neither raises (`DeploymentReceipts.AbsorbingExactly`).
- A process that restarts on an interrupted activation but does not get the lock in time records failure
  and rolls nothing back. A failed release that had started activation is certain to have been rolled
  back exactly when no process gives up in this way and every rollback attempt starts its command
  (`DeploymentRollback.RestoresExactly`).
- Installation checks for its own chain but not for its source-translation rule. If the same rule was
  there before, cleanup deletes it when the installation was incomplete or when it was already cleaned
  up once. Cleanup, repeated any number of times, restores the start exactly when the rule was absent
  before, or the installation was complete and cleaned up once (`FirewallHost.UndoneExactly`).
- A submission journaled only on a volume that is then lost is created by a later tick. Journals stand
  exactly when volumes are lost only while every journal on them is in the checkpoint
  (`CoordinatorWitness.JournalsStandExactly`).
- A checkpoint write that arrives after its sender stopped and after another coordinator recovered from
  the older checkpoint leaves a checkpoint that the volume does not have: an archived journal may then be
  created and a terminal effect forgotten. These laws hold exactly when no recovery begins while a write
  is in flight (`CoordinatorLateWitness.JournalsExactly`, `FinalsExactly`). A checkpoint equal to the
  stored one is not written, so that a submission may rely on it while an older write can still replace
  it, and one push is executed twice (`CoordinatorLateWitness.ExecutedTwice`). At-most-once execution
  holds exactly when recovery waits in this way or no needed checkpoint is skipped while a write is in
  flight (`CoordinatorLateWitness.OnceExactly`).
- A transfer announced again with another size or digest keeps the exports verified against the earlier
  ones, and a passing log still passes (`VerdictAnnouncements.LateAnnouncementPasses`). A verified
  export has the final size, or digest, exactly when the last announcement after it that carries one, if
  any, carries the same (`VerdictAnnouncements.FinalMatchExactly`).
- The corpus gate counts announcements of large files, not exports: a log passes in which nobody received
  one (`VerdictWitness.PassWithoutLargeFiles`). A passing log exported all of them exactly when each had
  to be received by somebody who did not cancel (`VerdictSoundness.LargeFilesExactly`).
- The evidence of an interruption and of the recovery from it need not come from one receiver, and a
  recovery may refer to an observation that was not partial or came before acceptance. A passing log
  without a complete story for one interruption is `VerdictWitness.PassWithoutStory`; an observation and
  a recovery make one story exactly when the observation was partial and lay between acceptance and
  export (`VerdictSoundness.StoryExactly`).
- A routing refresh that fails after writing some bundles can be followed by one that puts an older
  record back (`RoutingWitness.InterruptedRefreshRollsBack`). A client's expiries never fall exactly
  when no attempt writes older records to a file that a cut-off one wrote or that was newer than the
  verified records at the start (`RoutingRenewal.RenewsExactly`).

## Model

| member | source | states |
|---|---|---|
| CoordinatorSafety.AtMostOnce | scripts/android_release_cluster.py:147-193 | In every state of every run, whatever crashed, vanished or was lost and whenever Job creations arrived, no two Jobs ever admitted cover the same push event. |
| CoordinatorSafety.LanesAndPartition | scripts/android_release_cluster.py:340-402 | At most one live operation and one preparation are active, and each event occurs in at most one retained effect. |
| CoordinatorSafety.PromotionNeverWaitsForPreparation | scripts/android_release_cluster.py:350-402 | With a promotion pending and no live operation, there is exactly one admissible selection, a single promotion; the tick cannot rest and can propose it, whether or not a preparation is active. |
| CoordinatorSafety.ArchivedJournalNeverCreated | scripts/android_release_cluster.py:245-330 | A submission whose journal is in the archived checkpoint when the coordinator stops, and whose Job was not sent, is never created afterwards, volume loss included. |
| CoordinatorSafety.RetainedJournalNeverCreated | scripts/android_release_cluster.py:147-193 | The same for a journal that is only on the volume, while that volume is retained. |
| CoordinatorSafety.JournalStaysUnsent | scripts/android_release_cluster.py:245-330 | If volumes are lost only while every journal on them is archived, a submission journaled anywhere and unsent when the coordinator stops is never created. |
| CoordinatorSafety.TerminalEffectsAbsorb | scripts/android_release_cluster.py:147-330 | A complete, failed or submission-unknown effect that is in the archived checkpoint stays equal in every later checkpoint and on every later whole volume, through any number of volume losses and recoveries. |
| CoordinatorSafety.TerminalWhileRetained | scripts/android_release_cluster.py:147-193 | One that is only on the volume is never rewritten while that volume is retained. |
| CoordinatorSafety.RunKeeps | scripts/android_release_cluster.py:333-410 | Every step of a tick, of recovery and of the environment keeps the journal, checkpoint and server in agreement. |
| CoordinatorSafety.StepKeepsArchived | scripts/android_release_cluster.py:245-330 | No checkpoint forgets a journaled submission that an earlier checkpoint held. |
| CoordinatorSafety.ChosenIsNew | scripts/android_release_cluster.py:367-402 | A proposed request shares no event with any effect on the volume. |
| CoordinatorWitness.JournalOnLostVolumeIsCreatedLater | scripts/android_release_cluster.py:245-330 | Whatever the surroundings, there is a run in which a journal that is on the volume only is lost with it and its Job created later. |
| CoordinatorWitness.JournalsStandExactly | scripts/android_release_cluster.py:245-330 | That holds in every run if and only if volumes are lost in this careful way. |
| CoordinatorLateWitness.OnceExactly | scripts/android_release_catalogue.py:52-83 | With checkpoint writes that arrive after their sender stopped, this holds in every run if and only if no recovery begins while a write is in flight, or no checkpoint that a submission needs is skipped as equal while one is. |
| CoordinatorLateWitness.ExecutedTwice | scripts/android_release_cluster.py:147-165 | A run, for every setup, in which a late write replaces a checkpoint that was skipped as equal, and one push is executed by two Jobs. |
| CoordinatorLateWitness.JournalsExactly | scripts/android_release_cluster.py:160-193 | With late writes, an archived and unsent submission is never created if and only if no recovery begins while a write is in flight. |
| CoordinatorLateWitness.FinalsExactly | scripts/android_release_cluster.py:160-193 | Terminal effects once archived absorb under exactly the same condition. |
| CoordinatorLate.PatientKeeps | scripts/android_release_cluster.py:147-193 | With late writes and recovery that waits for them, every move keeps the coordinator's invariant: what is in flight has all that is stored, and a whole volume all that is in flight. |
| CoordinatorLate.PatientJournals | scripts/android_release_cluster.py:245-330 | Then an archived and unsent submission is neither created nor forgotten by any later checkpoint. |
| CoordinatorWritten.WrittenAtMostOnce | scripts/android_release_cluster.py:147-165 | With late writes and any recovery, no two admitted Jobs cover one event as long as no needed checkpoint is skipped while a write is in flight. |
| Lease.MutualExclusion | scripts/android_release_kubernetes.py:92-167 | While twice the request time plus clock skew plus stamping delay is at most 30 seconds, no acquisition commits during a mutation admitted by another holder's fence, and two holders never mutate at once. |
| Lease.Violation | scripts/android_release_kubernetes.py:92-167 | For every timing beyond that bound there is a run with an acquisition inside a fenced mutation. |
| Lease.MarginIsExact | scripts/android_release_kubernetes.py:92-167 | The bound is exact: exclusion holds in all runs if and only if it is met. |
| Lease.ReleaseNeverClearsSuccessor | scripts/android_release_kubernetes.py:150-167 | Under any clocks, a committed release leaves the lease as it was unless the releasing holder owns it. |
| SourceIntake.GapFree | scripts/android_release_source.py:97-123 | However the newest-first feed grew between page reads, the result is exactly the activities of the history above the cursor and up to the newest returned, and includes every one that was in the feed at the first read. |
| SourceIntake.Activities | scripts/android_release_source.py:97-123 | The paging loop returns the collected rows in order of activity, or its error. |
| SourceIntake.AbsorbAdds | scripts/android_release_source.py:97-123 | A page adds exactly its rows above the cursor and tells whether an older row was met. |
| SourceIntake.CollectCovers | scripts/android_release_source.py:97-123 | Page after page nothing between the cursor and the newest row seen is missing. |
| Ingest.DurableAtEveryCrashPoint | scripts/android_release_source.py:126-158 | Over any sequence of runs stopped at any write, every accepted push above the migration cursor and at or below the stored cursor has its identical event file. |
| Ingest.IngestKeeps | scripts/android_release_source.py:126-158 | One run, stopped anywhere, keeps that for every project with a repository of its own. |
| Ingest.CursorKeepsOwn | scripts/android_release_source.py:140-158 | The cursor moves only over rows whose event files are written. |
| Ingest.Intake.Ingest | scripts/android_release_source.py:126-158 | The run over all projects, with a budget of durable writes, leaves the state that the specification gives. |
| Ingest.Intake.RecordAll | scripts/android_release_source.py:140-154 | The event files of one project are written in order, each once, and differing ones stop the run. |
| IngestSharing.SharingLosesPush | scripts/android_release_source.py:126-158 | For every two projects sharing a repository there is a run after which one of them lacks an accepted push below its cursor. |
| IngestSharing.DurableIffOwnRepositories | scripts/android_release_source.py:126-158 | Durability in all runs holds if and only if no two projects share a repository. |
| DeploymentSafety.ActivatesAtMostOnce | scripts/android_release.py:483-610 | Over all crashes and restarts of one release, activation starts at most once. |
| DeploymentSafety.ActivationIsJournaled | scripts/android_release.py:483-610 | It starts only with its journal durable. |
| DeploymentSafety.OnlyRollbackAfterInterruption | scripts/android_release.py:470-482 | With the journal set and no deployment executing, every later command is a rollback. |
| DeploymentSafety.TerminalReturnedForever | scripts/android_release.py:470-482 | A terminal receipt found at the start of a deployment is returned, and nothing is executed. |
| DeploymentSafety.LiveIsProven | scripts/android_release.py:579-594 | A live receipt has a proof of this release with every manifest target proved exactly once, checked before 540 seconds. |
| DeploymentSafety.CheckedProvesEachOnce | scripts/android_release.py:423-441 | An accepted proof has exactly one ready row of the right kind for every target and no other row. |
| DeploymentSafety.GrantsInBounds | scripts/android_release.py:444-446 | Every command ever granted ends within its budget from the push: 540 for stages, 600 for rollback, 3540 when warming. |
| DeploymentReceipts.AbsorbingExactly | scripts/android_release.py:561-606 | Terminal receipts are never rewritten if and only if neither their write nor their publication raises. |
| DeploymentReceipts.FinalRewritten | scripts/android_release.py:584-606 | A raising publication rewrites a terminal receipt as failed. |
| DeploymentReceipts.LiveReceiptOfRestoredRelease | scripts/android_release.py:584-606 | A crash after the rollback that follows leaves a live receipt for a release that was rolled back. |
| DeploymentReceipts.FinalStays | scripts/android_release.py:470-482 | Without such an exception a terminal receipt stays as it is in every later state. |
| DeploymentRollback.RestoresExactly | scripts/android_release.py:498-606 | In every run a failed release that had started activation had a rollback command started, if and only if the release is a preparation, or no process gives up waiting for the lock on an interrupted activation and every rollback attempt starts its command. |
| DeploymentRollback.ReceiptTellsRollback | scripts/android_release.py:498-606 | The receipt of such a release names no rollback if and only if a process gave up; a rollback it calls verified was started. |
| DeploymentRollback.GivesUp | scripts/android_release.py:503-518 | A run in which activation was started, its process died, the next one waited for the lock in vain and recorded failure, and nothing was rolled back. |
| GitTree.SortedIsCanonical | scripts/android_release.py:190-201 | A strictly ascending listing of a directory, directories compared with a trailing slash, is the sorted one. |
| GitTree.PreimageInjective | scripts/android_release.py:163-165 | The hashed form of an object determines its data. |
| GitTree.FlattenInjective | scripts/android_release.py:190-201 | The serialization of a tree determines its entries. |
| GitTree.IdInjective | scripts/android_release.py:190-204 | Equal tree identifiers, hashed without collision, identify equal trees at every depth. |
| GitInventory.VerifiedSourceInventory | scripts/android_release.py:155-204 | The authentication, building the dictionary entry by entry, accepts and refuses as specified. |
| GitInventory.AcceptedRowsAreUnique | scripts/android_release.py:155-204 | Two inventories accepted for one commit have the same rows, tree and commit object. |
| GitInventory.BuiltWellFormed | scripts/android_release.py:169-188 | Whatever is built has only supported modes and proper names that can be told apart. |
| GitListing.Rebuild | scripts/android_release.py:174-188 | Naming every directory and every file of a tree once rebuilds exactly that tree. |
| GitListing.LookupExtensional | scripts/android_release.py:174-188 | A tree is determined by what its paths lead to. |
| GitAcceptance.AcceptedIsWhatGitLists | scripts/android_release.py:155-204 | Whatever tree Git has stored for a commit, an inventory accepted for it has exactly the rows of Git's recursive listing, and the tree is in Git's order with supported modes throughout. |
| GitAcceptance.UnsupportedNeverAccepted | scripts/android_release.py:155-204 | No inventory at all is accepted for a commit with a submodule or another unsupported mode. |
| GitAcceptance.ListingAcceptedExactly | scripts/android_release.py:207-240 | What Git lists for a commit is accepted if and only if every mode is supported, every name is UTF-8, and rows, directories, paths and the commit object are within the limits. |
| GitAcceptance.IdentifiedTree | scripts/android_release.py:190-204 | A stored tree with the identifier of a built one is that tree, at every depth. |
| GitObjects.SameId | scripts/android_release.py:190-204 | The identifier recomputed from the dictionary is the identifier of the stored tree object. |
| GitObjects.SameFiles | scripts/android_release.py:190-201 | The files are visited in the order in which Git lists them. |
| GitObjects.SegmentsOfJoin | scripts/android_release.py:169-173 | A listed path splits back into its names, exactly if it is UTF-8 and within the limits. |
| Firewall.Kernel.Install | scripts/fleet_files_remote.py:165-166 | The commands change the rule set in order and stop at the first failure. |
| Firewall.Kernel.Cleanup | scripts/fleet_files_remote.py:379-391 | Each recorded command is inverted, last first, failures ignored. |
| FirewallUndo.CleanupLeavesNoTrace | scripts/fleet_files_remote.py:367-391 | In every run, with interrupted installations and cleanups and other rules coming and going, a completed cleanup leaves no owned rule or chain, and no command of the host changes or reorders a foreign one. |
| FirewallUndo.CleanupRestores | scripts/fleet_files_remote.py:379-391 | Without foreign changes every completed cleanup, a repeated one included, restores the starting rule set exactly. |
| FirewallUndo.StepKeeps | scripts/fleet_files_remote.py:107-126 | Owned rules never occur more often than the commands still to be undone add them. |
| FirewallHost.UndoneExactly | scripts/fleet_files_remote.py:107-166 | After any installed prefix and any positive number of cleanups, the start is restored if and only if the same source translation was absent before, or the whole list was installed and cleaned up once. |
| FirewallHost.EarlyUndoDrops | scripts/fleet_files_remote.py:379-391 | Cleanup of an incomplete installation leaves exactly the start without the first copy of that translation. |
| FirewallHost.FullUndo | scripts/fleet_files_remote.py:165-166 | A complete installation is undone whatever was there before. |
| FirewallHost.RepeatedCleanup | scripts/fleet_files_remote.py:379-391 | Each further cleanup removes one more copy of it until none is left, and nothing else once there is none. |
| FirewallHost.PlansShaped | scripts/fleet_files_remote.py:107-126 | The host's commands create its two chains first, then only append to them or insert at the head of others. |
| CacheWriter.RunningIsOwner | scripts/android_release_build_job.py:63-128 | A Job that still runs is the one recorded as owner. |
| CacheWriter.RunKeeps | scripts/android_release_kubernetes.py:150-205 | Owners were published in the order in which their observers acquired the lease; one that may still create its Job is the last publisher, and every earlier owner has finished or is gone. |
| CacheWriter.SingleWriter | scripts/android_release_build_job.py:63-128 | In every state of every run, with any number of observers, arbitrarily slow ones, deleted Jobs and lost markers, no two Jobs on one cache are unfinished. |
| CacheWriter.MissingOwnerBlocks | scripts/android_release_build_job.py:71-110 | From a state in which the recorded owner is a missing Job and nobody was already past its look at it, wherever its publisher stopped, no Job is created and the owner stays, until that publisher itself creates that Job. |
| CacheWriter.PublishedIsMissing | scripts/android_release_build_job.py:101-107 | Publishing an owner whose Job does not exist yet brings about such a state. |
| CacheWriter.OrphanBlocksForever | scripts/android_release_kubernetes.py:127-135 | If moreover the lease has left the publisher before it passed the fence in front of creation, no Job is ever created again and the owner never changes. |
| Catalogue.BoundForever | scripts/android_release_catalogue.py:33-92 | Over all interleavings, conflicts and late writes, a binding outside the checkpoints keeps its first descriptor forever. |
| Catalogue.ChangedOnlyByReplacement | scripts/android_release_catalogue.py:52-83 | Any binding changes only by a bind that asked to replace it. |
| Catalogue.ReturnedIsStored | scripts/android_release_catalogue.py:52-83 | What a bind returns has the requested digest and is stored. |
| Catalogue.StoredWithinBound | scripts/android_release_catalogue.py:33-48 | The stored catalogue never exceeds its limit. |
| Archive.ReadBody | scripts/android_release_store.py:97-123 | Whatever block sizes arrive, exactly the bytes of the declared length and digest are returned, and at most one byte more is taken. |
| Archive.Bucket.PublishDirectory | scripts/android_release_store.py:157-187 | Publication uploads file by file in sorted order and records what was verified. |
| Archive.Bucket.PublishAll | scripts/android_release_store.py:170-185 | The loop over the files uploads each in turn and stops at the first error, as the specification gives. |
| Archive.Volume.Hydrate | scripts/android_release_store.py:189-240 | Stopped after any number of writes, the destination is as before, or was absent and holds the complete artifact. |
| ArchiveRoundTrip.RoundTrip | scripts/android_release_store.py:157-240 | Whatever publication accepts, restoration accepts in every later state of the store, with the same names, bytes and modes. |
| ArchiveRoundTrip.PublishFilesHold | scripts/android_release_store.py:170-185 | Every published file is held by a pinned object with its digest and length, and the total is within the limit. |
| ArchiveRoundTrip.InventoryAccepts | scripts/android_release_store.py:189-208 | A record whose files are held passes every check of restoration. |
| ArchiveRoundTrip.PutHolds | scripts/android_release_store.py:125-146 | A returned descriptor reads back, and no object version is changed. |
| Base64.RoundTrip | scripts/android_release_outbox.py:51-63 | Decoding undoes encoding for every byte string (section 4 of RFC 4648). |
| Base64.EncodedLength | scripts/android_release_outbox.py:57-62 | The encoded length is four characters per started group of three bytes. |
| Outbox.RestoresOriginal | scripts/android_release_outbox.py:25-66 | A receipt restores the original event if and only if the clock has reached the push, and never another event. |
| Outbox.RestoredIsOriginal | scripts/android_release_outbox.py:57-66 | What restores comes from bytes with the recorded digest. |
| Outbox.ReceiptFits | scripts/android_release_outbox.py:51-66 | Every accepted record fits the encoded bound and the 4096-byte bound, archived and cached. |
| Outbox.NothingLost | scripts/android_release_outbox.py:75-110 | Over every run with crashes anywhere, a record once in the outbox is there or verified in the archive ever after. |
| Outbox.Directory.Drain | scripts/android_release_outbox.py:75-110 | A pass removes exactly the leading names it forwarded, each verified in the archive, and stops at the first it cannot. |
| Outbox.Directory.ForwardOne | scripts/android_release_outbox.py:75-100 | One record is forwarded only if the archive then verifiably holds it under its own name; no file is removed and no object lost. |
| Routing.PrintThenParse | scripts/gchat-turnover.py:74-85 | Records print exactly when they form a valid bundle, and then parse back. |
| Routing.ParseThenPrint | scripts/gchat-turnover.py:74-85 | Every accepted bundle prints back to the same bytes. |
| RoutingRenewal.BundlesOnlyRenew | scripts/gchat-turnover.py:113-148 | Over completed refreshes a client keeps its identities in order, and no expiry exceeds an hour from the refresh. From the first refresh on no expiry falls and a record is constant while its expiry is; from the start so if and only if the first refresh does not set back a file that was newer than the verified records. |
| RoutingRenewal.RenewsExactly | scripts/gchat-turnover.py:126-148 | Over any run with refreshes cut off after any number of writes, a client's records never fall back if and only if no attempt writes older records to a file that a cut-off one wrote, or that the verified records did not cover at the start. |
| RoutingRenewal.Renewal.Refresh | scripts/gchat-turnover.py:126-148 | A refused fetch changes nothing; an accepted one writes the files in order, and the verified records change only when all were written. |
| RoutingWitness.RollsBack | scripts/gchat-turnover.py:141-146 | For any two acceptable records of one relay there is a run in which a refresh is cut off after the first client's file and the next one puts the earlier record back. |
| RoutingWitness.InterruptedRefreshRollsBack | scripts/gchat-turnover.py:141-146 | A run with concrete records whose expiry falls from 20 to 10. |
| Dns.AnsweredExactly | scripts/android_release_lab_services.py:12-43 | A message is answered if and only if it is the wire form of a well-formed one-question query. |
| Dns.ParsesEveryQuery | scripts/android_release_lab_services.py:12-35 | Every such query with a name of at most 255 octets is parsed as itself, whatever its number of labels. |
| Dns.AcceptsOnlyQueries | scripts/android_release_lab_services.py:12-35 | Whatever is accepted re-encodes to the same bytes. |
| Dns.DnsReply | scripts/android_release_lab_services.py:12-43 | All reads stay in bounds, and the reply is the answer of the parsed query, of at most 287 bytes. |
| Dns.ReadName | scripts/android_release_lab_services.py:18-32 | The label loop reads the name that the specification gives, or refuses it. |
| Dns.EchoesQuery | scripts/android_release_lab_services.py:36-43 | The reply repeats identifier and question, and tells known names and addresses apart. |
| Auc.RocAuc | scripts/privacy-classifier.py:103-113 | With both classes present the rank formula equals the average over all pairs of 1, one half or 0. |
| Auc.RankSum | scripts/privacy-classifier.py:109-113 | The sum of ranks in the sorted negatives is the sum over pairs. |
| Auc.SearchSorted | scripts/privacy-classifier.py:111-112 | The binary search finds how many elements are below, or at most, a value. |
| Auc.InRange | scripts/privacy-classifier.py:113 | The area lies between 0 and 1. |
| Auc.Complement | scripts/privacy-classifier.py:103-113 | Swapping the labels gives the complement. |
| Verdict.Observe | scripts/fleet_files.py:52-65 | The loop over the log computes the transfers and failed verifications of the specification. |
| Verdict.Evidence | scripts/fleet_files.py:109-131 | The second loop marks exactly the interruptions and recoveries for which some entry is a proof. |
| Verdict.PercentileMeaning | scripts/fleet_files.py:42-44 | A percentile is a value such that its share of the values is at most it, and less than its share below it. |
| VerdictSoundness.PassIsEarned | scripts/fleet_files.py:46-185 | A passing log is a campaign without failure, with every chat acknowledged, resources bounded, every case passed, no export that disagrees with the transfer as announced then, and for every required uncancelled receiver an acceptance followed by a verified export in time. |
| VerdictSoundness.LatencyIsEarned | scripts/fleet_files.py:72-83 | A passing log measured both windows in full; at least 95 in a hundred mixed acknowledgments came within twice the baseline percentile or two seconds of it, and none after two minutes. |
| VerdictSoundness.InterruptionIsEarned | scripts/fleet_files.py:109-117 | For each interruption a passing log shows a partial state of a receiver strictly between nothing and everything, observed after acceptance and before a verified export. |
| VerdictSoundness.RecoveryIsEarned | scripts/fleet_files.py:118-131 | For each interruption it shows a timely progress between acceptance and verified export of one receiver, for which an observation was recorded before. |
| VerdictSoundness.StoryExactly | scripts/fleet_files.py:109-131 | In a passing log an observation and the recovery that refers to it are one story, from acceptance over a partial state to export, if and only if the observation was partial and lay between acceptance and export. |
| VerdictSoundness.CoverageIsEarned | scripts/fleet_files.py:107-108 | A passing log proves an export from every host to every other. |
| VerdictSoundness.LargeFilesExactly | scripts/fleet_files.py:101-102 | A passing log announces four files of each large size, and each was exported, verified and in time, if and only if each had a required receiver that did not cancel. |
| VerdictAnnouncements.FinalMatchExactly | scripts/fleet_files.py:52-61 | A verified export has the final size, and the final digest, if and only if the last announcement after it that carries one, if any, carries the same. |
| VerdictAnnouncements.LateAnnouncementPasses | scripts/fleet_files.py:46-185 | A passing log passes also after a late announcement of any digest, and of any size that keeps the time limits of a transfer outside the size-dependent cases. |
| VerdictWitness.LogPasses | scripts/fleet_files.py:46-185 | Some campaign log meets every gate. |
| VerdictWitness.PassWithoutStory | scripts/fleet_files.py:109-131 | It does so with no recovery story of one receiver for one of the interruptions. |
| VerdictWitness.PassWithoutLargeFiles | scripts/fleet_files.py:101-102 | It does so although nobody received any large file. |
| VerdictWitness.PassWithAnotherDigest | scripts/fleet_files.py:52-61 | It passes also after a late announcement with whose digest a verified export disagrees. |

## Left out

- HTTP, S3, ssh, adb, systemd, Docker, Git and file-permission plumbing: environment operations only.
- Job, Pod and Deployment manifests and their rendering: large constants, no hard property.
- Coordinator: `initialize` is taken as done once and ticks as serialized by the lease; other bindings in the catalogue, which can only refuse a late checkpoint write, are left out; rejection records, legacy effects without a journaled definition, and the results of `execute` are not modelled.
- CoordinatorSafety.LanesAndPartition: with late checkpoint writes it is stated where recovery waits for them (`CoordinatorLate.PatientAtMostOnce`), not otherwise.
- Lease: deletion of the lease object by a third party.
- Concurrent deployments of one release, and loss of the state of a deployment: one process per release on retained state is assumed.
- GitInventory.VerifiedSourceInventory: decoding of the JSON form and its field types is not modelled; hexadecimal identifiers are their bytes.
- FirewallHost.UndoneExactly: rules are compared by their arguments, without the normalization of addresses that `iptables` applies; two cleanups at once are not modelled.
- CacheWriter.SingleWriter: Job uids are not modelled, so steps that a uid check would refuse are allowed; deletion of the owner record is not.
- Catalogue: hydration of prepared objects and runs, which repeats the archive's checks.
- ArchiveRoundTrip.RoundTrip: JSON and canonical encoding are parameters that decode what they encode; directory modes and ownership are not modelled.
- Outbox: paging of `ingest` over archived receipts and its event files, which repeats the intake; a read-back that differs only in JSON layout counts as different.
- RoutingRenewal: fetching of bundles from the relays and the retry timing.
- Auc.RocAuc: rounding of floating point; logistic regression and bootstrap sampling are not modelled.
- VerdictSoundness.PassIsEarned: canary, capacity and coverage phases, the reported metrics and the shapes of JSON entries are not modelled; durations are reals, without rounding.
- Lab bootstrap, hub enrollment, setup, workstation queue, build, packaging and size-gate scripts: linear command runners.
- The Rust messenger and its protocols, described in the repository's README only.
