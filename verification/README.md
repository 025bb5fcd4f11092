# GoreeCloud Browser: verified model

A Dafny model of the parts of the GoreeCloud Browser in which state is kept, checked or made durable, with proofs of
what they promise over all inputs and whole runs.

**Extension permissions.** The permission ledger holds leases; its snapshot format is a little-endian byte string
behind a CRC-32; its file is replaced by staging, backing up and renaming (`Bytes`, `Crc32`, `Crc32Words`, `Extensions`,
`PermissionLedger`, `LeaseTerms`, `LedgerSnapshot`, `LedgerRestore`, `SnapshotTerms`, `SnapshotTheorems`, `LedgerFile`).
On it stand the runtime authority with its single-use tokens and the process broker (`RuntimeAuthority`,
`AuthorityHistory`, `AuthorityTerms`, `ProcessBroker`, `BrokerTerms`).
The disk is a map from paths to contents, and a crash may fall between any two of its states.

**Downloads.** A planner cuts a resource into segments, a scheduler transfers them with bounded retries, a transport
writes streamed chunks at absolute offsets, checkpoints carry progress over a restart, and a gate releases what has
been scanned (`DownloadPlan`, `DownloadCheckpoint`, `StagedPaths`, `HttpTransport`, `TransferScheduler`,
`SchedulerInvariants`, `SchedulerTheorems`, `TransferTerms`, `PumpEvents`, `Provenance`, `KeptFiles`, `AlikeRuns`, `NamedFiles`,
`EndToEnd`, `StaleFiles`, `TakenFiles`, `RangesIgnored`, `Wardveil`, `Decimal`, `DownloadQueue`, `DownloadRuntime`,
`ReleaseGate`, `GateTerms`, `RuntimeTerms`, `RuntimeRuns`, `ReleasedResource`, `ReleasedRecord`, `ReleasedFiles`,
`StaleRelease`, `TakenRelease`, `QueueFile`, `QueueTerms`). The HTTP client, the disk's refusals and the scanner are arbitrary functions of the calls made; what is
assumed of them, where anything is, is a named predicate such as `HonestClient`. The download directory is a map from
path texts to cells: a finished file lies under its name, a staged one under its name, a marker and its download's id,
and a commit removes what is at the one path and moves the file there from the other. Each cell carries the version
its byte was fetched from, on which nothing but the theorems depends.

**Hashing and packages.** The streaming SHA-256 object refines FIPS 180-4, whose one-block example is worked through
(`Sha256`, `Sha256Stream`, `Sha256Example`); the package decoder and its UTF-8 check accept exactly their languages
(`Utf8`, `PackageArchive`); the bytes hashed for a signature bind exactly the covered contents (`Lexicographic`,
`SignaturePayload`, `ArchiveTerms`).

**Sync and site permissions.** Cursor paging (`SyncRetrieval`) and the site permission broker (`PermissionBroker`,
`PermissionHistory`, `PermissionTerms`).

Classes follow the source's objects and loops; each method is tied to a function of the old state, and the theorems
are about those functions and their runs. What a function shared by a method and its specification means is said a
second time without it: the modules ending in `Terms` state the same operations in the fields, numbers and texts
themselves, over runs where there are runs. Machine integers are explicit: `u64` values are bounded and wrap where the
source lets them.

Some promises one might expect are not kept by the code. Each is stated as a theorem with its exact condition:

- A checkpoint is found by download id and matched on URL, length, validators and segments, never on the file it was
  saved over. So a download whose id comes up again under another name, or whose program ended in the middle of a commit,
  is reported complete over a file with bytes that were never fetched (`StaleFiles.RenamedCompletesWrong`,
  `StaleFiles.CommitCrashCompletesEmpty`), and can be released (`StaleRelease.RenamedIsReleasedWrong`).
- A commit replaces whatever lies at the final path, and a file name may be the path at which another download is staged.
  That one then goes on in the committed file: it is reported complete and released with the other's bytes, and the file
  released first is gone (`TakenFiles.CommitCompletesWrong`, `TakenRelease.CollidingIsReleasedWrong`).
- A completion is right exactly when what the download counted as done when it last came by its staged file, at its
  activation or when a commit put another file there, had been fetched into the file it found
  (`EndToEnd.CompleteIsRightExactly`). For this it is enough that every activation found the file its progress was saved
  over and no commit took the file of a running download (`EndToEnd.KeptFilesAreRight`), and for the latter that no file
  name is the staged path of a download (`NamedFiles.NoneTaken`, `EndToEnd.ApartNamesAreRight`), which can be seen
  before a call. The same holds of releases (`ReleasedResource`). An activation over another file need do no harm: it may
  never complete (`StaleFiles.RenamedUnharmed`).
- A released file stays where it was put as long as no download is begun that ends up or is staged there and none that
  ended up there is restarted (`ReleasedFiles.ReleasedFileStands`).
- Against a server that ignores ranges the bytes of a failed reply are written and credited, and a download begun from
  nothing completes wrong (`RangesIgnored.CutRepliesCompleteWrong`); hence `HonestClient`.
- A save can lose a primary it cannot read back (`LedgerFile.Attempt.SaveIsCrashSafe`, `LedgerFile.PrimaryCanBeLost`).
- The rollback of an invalid launch receipt can kill a registered process (`ProcessBroker.RollbackKillsRegistered`,
  `ProcessBroker.TwoLaunchesKill`).
- A restarted download is not transferred again before the program restarts (`SchedulerTheorems.CancelledIsSilent`,
  `SchedulerTheorems.RestartedWakes`).
- Applying an arbitrary checkpoint can stop half way or believe a flag (`DownloadCheckpoint.SavedFlagIsTrusted`), though
  none that the program leaves stops half way (`SchedulerTheorems.StoredIsAllOrNothing`).
- A held or blocked download is forgotten at reopening when it is private, and becomes failed when its file has no place
  (`ReleaseGate.GateAtEveryStep`); a restored failed record is shown as queued (`ReleaseGate.ShownAfterReopening`).

## Model

| member | source | states |
|---|---|---|
| Bytes.ByteWriter.WriteU64 | include/goreecloud/browser/extension_permission_ledger_storage.hpp:124-128 | the shift loop appends the eight little-endian bytes of the value |
| Bytes.ByteWriter.WriteStringU16 | include/goreecloud/browser/extension_permission_ledger_storage.hpp:130-138 | a string goes in behind its 16-bit length, or nothing is written when it is too long |
| Bytes.ByteReader.ReadU64 | include/goreecloud/browser/extension_permission_ledger_storage.hpp:198-209 | the shift loop reads the little-endian value of the next eight bytes and moves past them, or fails without moving |
| Bytes.ByteReader.ReadStringU16 | include/goreecloud/browser/extension_permission_ledger_storage.hpp:211-220 | a bounded length-prefixed string is read whole or not at all, and what is left is exactly what follows it |
| Bytes.LEOfFromLE | include/goreecloud/browser/extension_permission_ledger_storage.hpp:176-209 | reading a word and writing it again gives the same bytes |
| Crc32.ComputeCrc32 | include/goreecloud/browser/extension_permission_ledger_storage.hpp:95-107 | the byte and bit loops compute the reflected CRC-32 of section 8 of RFC 1952 as a fold of one-bit steps |
| Crc32.SealedIffResidue | include/goreecloud/browser/extension_permission_ledger_storage.hpp:439-450 | a message ends in its own checksum exactly when the register, fed all of it, ends in one fixed residue |
| Crc32.BurstBreaksSeal | include/goreecloud/browser/extension_permission_ledger_storage.hpp:95-107 | changing any run of up to four bytes of a sealed message breaks the seal: every step is injective in state and input |
| Crc32Words.ChecksumShows | include/goreecloud/browser/extension_permission_ledger_storage.hpp:95-107 | the checksum is the one that the 32-bit loop computes: from all ones, each byte mixed in and stepped eight times with 0xedb88320, and inverted |
| Extensions.CheckPackagePath | include/goreecloud/browser/native_extension.hpp:237-259 | the component loop accepts a path exactly when its shape is right and no component is empty, one dot or two dots |
| Extensions.ValidateManifest | include/goreecloud/browser/native_extension.hpp:277-347 | an issue is reported if and only if it applies to the manifest, so a manifest is accepted exactly when none does |
| AuthorityTerms.AcceptedExactly | include/goreecloud/browser/native_extension.hpp:277-347 | which manifests are accepted, in their own fields: versions, characters, permission names, entry paths and sites |
| PermissionLedger.ExtensionPermissionLedger.Add | include/goreecloud/browser/extension_permission_ledger.hpp:106-116 | a lease is appended exactly when it is valid and its id is new; otherwise nothing changes |
| PermissionLedger.ExtensionPermissionLedger.Revoke | include/goreecloud/browser/extension_permission_ledger.hpp:118-128 | the first lease with the id is revoked and switched off, unless it already was |
| PermissionLedger.ExtensionPermissionLedger.EndMatching | include/goreecloud/browser/extension_permission_ledger.hpp:130-177 | the loop behind profile revocation and the four deactivations switches off exactly the live leases the event ends, and counts them |
| PermissionLedger.ExtensionPermissionLedger.AuthorizeAndConsume | include/goreecloud/browser/extension_permission_ledger.hpp:179-237 | authorization succeeds exactly when some lease authorizes the request, uses the first one that does, and uses it up when it is for one use |
| LeaseTerms.ValidExactly | include/goreecloud/browser/extension_permission_ledger.hpp:39-102 | when a lease is valid, lifetime by lifetime and scope by scope, with an hour of 3,600,000 milliseconds |
| LeaseTerms.AuthorizesExactly | include/goreecloud/browser/extension_permission_ledger.hpp:179-237 | a lease authorizes if and only if its own fields say so: an hour from its issue to before its end, a tab or session only that one and while it is active, a website while one is named, and nothing revoked, used or of another profile |
| LeaseTerms.EndingsExactly | include/goreecloud/browser/extension_permission_ledger.hpp:130-177 | which leases each of the five endings switches off, and that profile revocation alone also revokes |
| LeaseTerms.CountExactly | include/goreecloud/browser/extension_permission_ledger.hpp:130-177 | the number an ending reports is that of the leases it switched off |
| LeaseTerms.EndedIsPowerless | include/goreecloud/browser/extension_permission_ledger.hpp:130-237 | over every run a lease that an ending matched never authorizes anything again |
| PermissionLedger.ReachableInvariant | include/goreecloud/browser/extension_permission_ledger.hpp:104-259 | over every run ids stay distinct, and a lease that can still authorize is as valid as when it was added |
| PermissionLedger.RunsOnlyLose | include/goreecloud/browser/extension_permission_ledger.hpp:104-259 | over every run no lease is removed, renewed or given back what it lost |
| LedgerSnapshot.EncodeSnapshot | include/goreecloud/browser/extension_permission_ledger_storage.hpp:312-411 | the encoder returns the specified byte string, or the first reason there is none |
| LedgerSnapshot.EncodingAccepted | include/goreecloud/browser/extension_permission_ledger_storage.hpp:312-372 | encoding is accepted exactly when the profile is valid, the durable leases fit the limits and none is from the future |
| SnapshotTerms.ObjectionsExactly | include/goreecloud/browser/extension_permission_ledger_storage.hpp:312-411 | the same in numbers, 4096 leases of 256 sites in four mebibytes for a profile of 1 to 256 printable bytes, and which objection is told |
| SnapshotTerms.PermissionCodesAre | include/goreecloud/browser/extension_permission_ledger_storage.hpp:237-248 | the stored number of every permission, and that reading it gives that permission and no other |
| SnapshotTerms.ScopeCodesAre | include/goreecloud/browser/extension_permission_ledger_storage.hpp:250-283 | the same for scopes and durable lifetimes |
| SnapshotTerms.WrittenExactly | include/goreecloud/browser/extension_permission_ledger_storage.hpp:361-410 | a snapshot byte by byte: a ledger with two durable leases and one of a tab |
| LedgerRestore.RestoreSnapshot | include/goreecloud/browser/extension_permission_ledger_storage.hpp:413-662 | the restore procedure yields exactly what the format says of the bytes: the leases and the number dropped, or the first defect |
| SnapshotTerms.DefectsExactly | include/goreecloud/browser/extension_permission_ledger_storage.hpp:413-498 | the first defect of a snapshot before its profile, by positions and numbers |
| SnapshotTerms.LeaseDefects | include/goreecloud/browser/extension_permission_ledger_storage.hpp:534-633 | then the first defect of a lease |
| SnapshotTerms.LeasesExactly | include/goreecloud/browser/extension_permission_ledger_storage.hpp:534-662 | and what becomes of the leases read: from the future refused, expired dropped and counted, the others kept, and nothing after the last |
| SnapshotTheorems.SnapshotRoundTrip | include/goreecloud/browser/extension_permission_ledger_storage.hpp:312-662 | restoring what was encoded, at the same or a later time, gives the durable leases in order, field for field, less the expired, and counts those |
| SnapshotTheorems.ReachableRoundTrip | include/goreecloud/browser/extension_permission_ledger_storage.hpp:312-662 | the same for every ledger any run of calls can reach |
| SnapshotTheorems.SnapshotCanonical | include/goreecloud/browser/extension_permission_ledger_storage.hpp:312-662 | when nothing is dropped and the stored time lies in every one-hour lease's window, encoding at that time what was restored gives the same bytes |
| SnapshotTheorems.RestoreLater | include/goreecloud/browser/extension_permission_ledger_storage.hpp:552-640 | a snapshot accepted now is accepted later, with exactly the leases that expired in between gone |
| SnapshotTheorems.RestoredLedgerIsSound | include/goreecloud/browser/extension_permission_ledger_storage.hpp:534-662 | an accepted restore, of any bytes, is the ledger that adding its leases one by one to an empty one gives, so a ledger some run reaches, of live durable leases only |
| SnapshotTheorems.DamageIsDetected | include/goreecloud/browser/extension_permission_ledger_storage.hpp:439-450 | bytes that differ from an accepted snapshot within any four neighbouring bytes are refused as a checksum mismatch |
| LedgerFile.Load | include/goreecloud/browser/extension_permission_ledger_storage.hpp:782-857 | loading takes the primary when it restores, else the backup, which is then told, else reports the primary's failure; with neither present the ledger is empty |
| LedgerFile.Save | include/goreecloud/browser/extension_permission_ledger_storage.hpp:718-780 | the save runs its staging, backup, rename and undo steps as specified under every combination of failing operations |
| LedgerFile.SaveTouchesNoOther | include/goreecloud/browser/extension_permission_ledger_storage.hpp:718-780 | whatever fails, no state of a save differs on any path but the ledger's and the two that add .tmp and .bak to it |
| LedgerFile.Attempt.SaveIsCrashSafe | include/goreecloud/browser/extension_permission_ledger_storage.hpp:718-857 | every state the disk passes through during a save loads, then or later, as the old ledger or the new one, if and only if the save does not drop a primary it failed to read and that no backup stands in for |
| LedgerFile.SavedIsLoaded | include/goreecloud/browser/extension_permission_ledger_storage.hpp:718-857 | a save that reports success is what every later load finds |
| LedgerFile.UnreadablePrimaryIsLost | include/goreecloud/browser/extension_permission_ledger_storage.hpp:742-768 | the exception, made concrete: with no backup, a crash after the drop loads as an empty ledger |
| LedgerFile.PrimaryCanBeLost | include/goreecloud/browser/extension_permission_ledger_storage.hpp:742-768 | and it occurs: for any path, a profile with one permanent lease and a save of that same ledger |
| RuntimeAuthority.ExtensionRuntimeAuthority.RegisterRuntime | include/goreecloud/browser/extension_runtime_authority.hpp:114-138 | a session is added exactly when launch is authorized, the manifest is accepted, the identifiers are valid and the runtime id is new |
| RuntimeAuthority.ExtensionRuntimeAuthority.IssueCapability | include/goreecloud/browser/extension_runtime_authority.hpp:173-224 | a token is issued exactly when a running session asks for a declared permission and a lease authorizes it; ledger and token list change as specified |
| RuntimeAuthority.ExtensionRuntimeAuthority.AuthorizeAndConsume | include/goreecloud/browser/extension_runtime_authority.hpp:226-261 | a dispatch succeeds exactly for a live token matching in every field and a running session, and consumes that token |
| RuntimeAuthority.ExtensionRuntimeAuthority.Suspend | include/goreecloud/browser/extension_runtime_authority.hpp:140-149 | only a running session is suspended, and all its live tokens are revoked |
| RuntimeAuthority.ExtensionRuntimeAuthority.Resume | include/goreecloud/browser/extension_runtime_authority.hpp:151-160 | only a suspended session resumes, with authority, and no token comes back |
| RuntimeAuthority.ExtensionRuntimeAuthority.Terminate | include/goreecloud/browser/extension_runtime_authority.hpp:162-171 | any session not yet terminated is, and all its live tokens are revoked |
| AuthorityTerms.RegisterExactly | include/goreecloud/browser/extension_runtime_authority.hpp:114-138 | over every run, when a registration adds a session, in the fields of the request and the manifest |
| AuthorityTerms.IssueExactly | include/goreecloud/browser/extension_runtime_authority.hpp:173-224 | over every run, when a token is issued and every field of it, with five seconds to live |
| AuthorityTerms.DispatchExactly | include/goreecloud/browser/extension_runtime_authority.hpp:226-261 | over every run, when a call is dispatched, field by field, and that its token is used up |
| AuthorityTerms.LivesExactly | include/goreecloud/browser/extension_runtime_authority.hpp:140-171 | over every run, what suspending, resuming and terminating do to each session and token |
| AuthorityHistory.RunHolds | include/goreecloud/browser/extension_runtime_authority.hpp:112-298 | every interleaving of ledger and runtime calls keeps token ids counting up without wrapping, runtime ids distinct, and the history sound |
| AuthorityHistory.OnceLeaseIssuesOnce | include/goreecloud/browser/extension_runtime_authority.hpp:173-224 | a once lease leads to at most one token |
| AuthorityHistory.OnceLeaseDispatchesOnce | include/goreecloud/browser/extension_runtime_authority.hpp:173-261 | two dispatches never trace back to the same once lease |
| AuthorityHistory.DispatchIsIssued | include/goreecloud/browser/extension_runtime_authority.hpp:173-261 | every dispatch uses up a token of its own, issued less than five seconds earlier for the same extension, profile, runtime, permission, website, tab, session and mode, under a lease that was inside its own hour, tab, session or website when the token was issued |
| AuthorityHistory.StopRevokes | include/goreecloud/browser/extension_runtime_authority.hpp:140-171 | a token issued before a suspension or termination is never dispatched afterwards, even after a resumption |
| AuthorityHistory.TerminatedForever | include/goreecloud/browser/extension_runtime_authority.hpp:114-171 | a terminated session stays terminated and its runtime id is never used again |
| AuthorityHistory.TerminatedIsPowerless | include/goreecloud/browser/extension_runtime_authority.hpp:162-261 | from termination on the runtime is issued nothing and dispatches nothing |
| AuthorityHistory.StoppedRuntimesHoldNothing | include/goreecloud/browser/extension_runtime_authority.hpp:140-171 | in every reachable state a session that is not running holds only revoked or used tokens |
| ProcessBroker.ExtensionProcessBroker.Launch | include/goreecloud/browser/extension_process_broker.hpp:99-163 | a launch ends with a session and a process exactly when all checks pass and the receipt is valid and fresh; which process is killed in a rollback is stated |
| ProcessBroker.ExtensionProcessBroker.Terminate | include/goreecloud/browser/extension_process_broker.hpp:187-212 | authority ends before the platform is asked, and only a confirmed end is recorded |
| BrokerTerms.LaunchExactly | include/goreecloud/browser/extension_process_broker.hpp:99-163 | over every run, what a launch adds and kills, in the fields of identity, decision and receipt |
| BrokerTerms.EndExactly | include/goreecloud/browser/extension_process_broker.hpp:187-212 | over every run, what a termination does to each process |
| ProcessBroker.BrokerRunsAreRuns | include/goreecloud/browser/extension_process_broker.hpp:97-259 | a run of the broker is a run of the ledger and the authority, so every history theorem holds of it |
| ProcessBroker.BrokerInvariant | include/goreecloud/browser/extension_process_broker.hpp:97-259 | processes and sessions match one to one in order, platform ids are distinct, and a confirmed end implies a terminated session |
| ProcessBroker.TerminationComesFirst | include/goreecloud/browser/extension_process_broker.hpp:187-212 | asking for termination leaves the session terminated and without live tokens whether or not the platform confirms |
| ProcessBroker.GateAddsNothing | include/goreecloud/browser/extension_process_broker.hpp:167-185 | in reachable states the broker's own gate refuses nothing the authority would allow |
| ProcessBroker.RollbackKillsRegistered | include/goreecloud/browser/extension_process_broker.hpp:141-144 | the rollback of a launch hits a registered process if and only if the receipt is invalid and names its platform id |
| ProcessBroker.KilledProcessKeepsSession | include/goreecloud/browser/extension_process_broker.hpp:141-151 | in every state a run can reach, such a rollback kills a process that runs and leaves its session running and everything else as it was |
| ProcessBroker.TwoLaunchesKill | include/goreecloud/browser/extension_process_broker.hpp:99-163 | two launches of one extension are enough to get there |
| DownloadPlan.MakePlan | include/goreecloud/browser/advanced_download_transfer_engine.hpp:43-64 | the cursor loop lays segments out as the closed form says |
| DownloadPlan.PlanIsFair | include/goreecloud/browser/advanced_download_transfer_engine.hpp:43-64 | planned segments are contiguous, cover the resource exactly, the first ones one byte longer; there is one without ranges, and otherwise as many as asked for within the record's limit, sixteen and the bytes there are |
| DownloadPlan.TilesCover | include/goreecloud/browser/advanced_download_transfer_engine.hpp:43-64 | every byte lies in exactly one segment |
| DownloadPlan.TransferKeepsUnderway | include/goreecloud/browser/advanced_download_transfer_engine.hpp:163-182 | whatever a transfer answers, the total stays the sum of the segments, never wraps, and finished stays the same as full |
| DownloadCheckpoint.MakeCheckpoint | include/goreecloud/browser/download_checkpoint_store.hpp:66-86 | a checkpoint carries the plan's identity, validators and segments |
| DownloadCheckpoint.PlanInProgress.ApplyCheckpoint | include/goreecloud/browser/download_checkpoint_store.hpp:88-117 | the loop restores segments up to the first that does not fit, and succeeds when all do |
| DownloadCheckpoint.GenuineApplies | include/goreecloud/browser/download_checkpoint_store.hpp:66-117 | applying a sound plan's checkpoint to a fresh plan for the same download reproduces its progress exactly |
| DownloadCheckpoint.GenuineIsAllOrNothing | include/goreecloud/browser/download_checkpoint_store.hpp:88-117 | such a checkpoint never fails half way: the layout depends only on the length and the number of segments |
| DownloadCheckpoint.SavedFlagIsTrusted | include/goreecloud/browser/download_checkpoint_store.hpp:108-111 | after an apply the plan is sound if and only if the checkpoint calls no segment finished that it does not record as full |
| DownloadCheckpoint.HalfwayExactly | include/goreecloud/browser/download_checkpoint_store.hpp:88-117 | when an apply stops half way and leaves the plan changed |
| SchedulerTheorems.StoredIsAllOrNothing | include/goreecloud/browser/download_checkpoint_store.hpp:88-117 | a checkpoint that a run of the program can leave never fails half way: it applies whole exactly when its header fits, and otherwise changes nothing |
| StagedPaths.StagedApart | include/goreecloud/browser/download_file_store.hpp:54-60 | the staged path of a numbered download tells its name and its number, so that no two downloads are staged at one path, whatever their names |
| HttpTransport.HttpDownloadTransport.Transfer | include/goreecloud/browser/http_download_transport.hpp:78-109 | each chunk goes to the machine sum of the base and the bytes before it; the result counts the whole chunks the disk took |
| HttpTransport.DeliveredIsOneWrite | include/goreecloud/browser/http_download_transport.hpp:91-100 | how a reply is cut into chunks does not matter |
| HttpTransport.HonestDelivery | include/goreecloud/browser/http_download_transport.hpp:78-109 | an honest reply credits only bytes it wrote from the version asked for, spoils none of that version, touches nothing outside the range but to fill a gap with zeros, and completes only a whole range |
| TransferScheduler.DownloadTransferScheduler.Queue | include/goreecloud/browser/advanced_download_transfer_engine.hpp:83-88 | a record is queued exactly when it has an id and a source and its id is not listed |
| TransferScheduler.DownloadTransferScheduler.Cancel | include/goreecloud/browser/advanced_download_transfer_engine.hpp:100-114 | the download leaves both lists, is no longer paused and is cancelled for good |
| TransferScheduler.DownloadTransferScheduler.Account | include/goreecloud/browser/advanced_download_transfer_engine.hpp:171-181 | one transfer's credit, running total and verdict on a segment |
| TransferScheduler.DownloadTransferScheduler.RunOneSegment | include/goreecloud/browser/advanced_download_transfer_engine.hpp:163-182 | the first unfinished segment is transferred from where it stands and accounted for |
| TransferScheduler.DownloadTransferScheduler.CommitFile | include/goreecloud/browser/download_file_store.hpp:96-114 | a commit may stop before it, after removing what lies at the final path, or after moving the staged file there; what else was staged at that path, or saved over the file there, is affected as specified |
| TransferScheduler.DownloadTransferScheduler.Pump | include/goreecloud/browser/advanced_download_transfer_engine.hpp:119-145 | the activation, run, report and removal loops together, with what each completion callback does to the disk between two reports |
| TransferTerms.PumpExactly | include/goreecloud/browser/advanced_download_transfer_engine.hpp:119-182 | over every run, what one pump makes of a running download by the reply: its first unfinished segment is asked for, and the download goes on, is completed once, is tried again exactly after a retryable reply that the disk took with fewer than three retries made, or else fails once |
| TransferTerms.RoomIsFilled | include/goreecloud/browser/advanced_download_transfer_engine.hpp:119-131 | over every run, a pump fills the five places in the order of the queue; who no longer waits is active, was cancelled, or had no answer and was reported failed once |
| SchedulerInvariants.RunIsSound | include/goreecloud/browser/advanced_download_transfer_engine.hpp:83-145 | over every run, crashes included, at most five downloads are active, no id is listed twice, and each active download is soundly underway within its budget |
| SchedulerTheorems.PumpTransfersOnlyOpen | include/goreecloud/browser/advanced_download_transfer_engine.hpp:119-137 | a pump never transfers a paused or cancelled download |
| SchedulerTheorems.TransfersAreBounded | include/goreecloud/browser/advanced_download_transfer_engine.hpp:163-182 | over any run a download makes at most 64 transfers an activation |
| SchedulerTheorems.PumpSettles | include/goreecloud/browser/advanced_download_transfer_engine.hpp:119-145 | a pump ends a running download with exactly one report, or leaves it strictly less budget |
| SchedulerTheorems.ActivationEndsOnce | include/goreecloud/browser/advanced_download_transfer_engine.hpp:83-182 | from any state of any run, an active download that is then neither paused, cancelled nor cut off ends within one pump more than its budget, with exactly one report, and is active until then |
| SchedulerTheorems.EndsAreAccounted | include/goreecloud/browser/advanced_download_transfer_engine.hpp:119-161 | over every run a download is reported ended at most as often as it was activated or an inspection of it failed, and an activation that still runs has not been reported |
| SchedulerTheorems.CancelledIsSilent | include/goreecloud/browser/advanced_download_transfer_engine.hpp:100-126 | a cancelled id is never activated, transferred or reported again by the same scheduler |
| SchedulerTheorems.RestartedIsDead | include/goreecloud/browser/advanced_download_runtime.hpp:160-185 | so a restarted download is queued but stays dead until the program restarts: its restart cancelled it first |
| SchedulerTheorems.RestartedWakes | include/goreecloud/browser/advanced_download_runtime.hpp:320-374 | the end of the program is what ends that: queued again after it, the download is activated by the next pump if its server answers |
| PumpEvents.PumpSpeaks | include/goreecloud/browser/advanced_download_transfer_engine.hpp:119-145 | a pump speaks of listed downloads only, and reports each one that is over once, after all its work |
| Provenance.RunIsTracked | include/goreecloud/browser/advanced_download_transfer_engine.hpp:119-182 | over every run with an honest client every byte on disk is the one its version has at that place, or a zero never fetched, commits onto other paths included; what a download has done was fetched since it last came by its staged file, and what it counted as done then is as it found it |
| KeptFiles.RunIsKept | include/goreecloud/browser/advanced_download_runtime.hpp:56-64 | in a run where every activation that restores progress finds the file that progress was saved over, and no commit takes the file of a running download, every checkpoint and every activation counts only bytes fetched into its file |
| AlikeRuns.AlikeRunsAgree | include/goreecloud/browser/http_download_transport.hpp:78-109 | runs against servers that give the same answers up to the bytes are the same up to the bytes |
| AlikeRuns.RetoldIsHonest | include/goreecloud/browser/http_download_transport.hpp:78-109 | an honest client stays honest, and alike, before any other bytes of the same lengths |
| NamedFiles.NoneTaken | include/goreecloud/browser/download_file_store.hpp:54-60 | where no file name of a run is the staged path of one of its downloads, no commit takes the file of a running download |
| EndToEnd.CompleteIsAskedFor | include/goreecloud/browser/advanced_download_transfer_engine.hpp:119-145 | a completion is of a download that was enqueued or restarted, with its URL, as its server described it for the activation that it ends |
| EndToEnd.UntakenSinceActivation | include/goreecloud/browser/download_file_store.hpp:96-114 | the download last came by its staged file at its activation, unless a commit moved another file onto the staged path |
| EndToEnd.CompleteIsTheResource | include/goreecloud/browser/advanced_download_transfer_engine.hpp:119-182 | for any client that delivers right bytes and may stop anywhere, in any run with crashes and resumption, what is reported complete begins with the resource byte for byte, and is it when its length is the planned one, if each byte counted as done when the download last came by its staged file had been fetched into that file |
| EndToEnd.CompleteIsRightExactly | include/goreecloud/browser/download_file_store.hpp:54-70 | and exactly then: a completion is right against every honest server with the same answers up to the bytes if and only if each byte counted as done when the download last came by its staged file, at its activation or at a commit onto its path, had been fetched, for that version, into the file found there |
| EndToEnd.KeptFilesAreRight | include/goreecloud/browser/download_checkpoint_store.hpp:88-117 | so every completion is right in a run where every activation found the file that the progress it restored was saved over and no commit took the file of a running download |
| EndToEnd.ApartNamesAreRight | include/goreecloud/browser/download_file_store.hpp:54-60 | for which it is enough, besides the former, that no file name is the staged path of a download |
| EndToEnd.OtherFileIsWrong | include/goreecloud/browser/download_file_store.hpp:63-72 | a completion is not right where something was counted as done over a file whose byte there was not fetched from that version, as over a new file or another download's |
| EndToEnd.CompleteIsExactlyTheResource | include/goreecloud/browser/advanced_download_transfer_engine.hpp:119-182 | where moreover no version of the resource was longer and no file name is a staged path, the staged file is the resource without any check of its length |
| StaleFiles.RenamedCompletesWrong | include/goreecloud/browser/download_file_store.hpp:55-60 | a failing run: a download half done under one name, its record lost, its id given again for the same URL under another name, is reported complete over an honest server with the planned length and a first half of zeros |
| StaleFiles.RenamedUnharmed | include/goreecloud/browser/download_file_store.hpp:55-60 | and a run in which an activation restores progress over another file and yet no completion is wrong, because there is none |
| StaleFiles.CommitCrashCompletesEmpty | include/goreecloud/browser/advanced_download_runtime.hpp:301-315 | whatever came before, a program that ends between moving any finished file away and erasing its checkpoint reports the download complete over an empty file when it is queued again and its server describes the same resource |
| TakenFiles.CommitCompletesWrong | include/goreecloud/browser/download_file_store.hpp:96-114 | a failing run over an honest server with nothing interrupted and every activation over its own file: the first download's name is the second's staged path, its commit moves its file there, and the second is reported complete with the planned length and the first one's byte |
| RangesIgnored.CutRepliesCompleteWrong | include/goreecloud/browser/http_download_transport.hpp:78-109 | a failing run: the server sends from the start whatever range is asked for, the reply is cut and fails, its bytes are credited all the same, and the download, begun from nothing, is reported complete with the wrong bytes |
| Decimal.PrintedValue | include/goreecloud/browser/advanced_download_manager_service.hpp:148-151 | decimal text determines its number |
| DownloadQueue.DownloadManager.Enqueue | include/goreecloud/browser/advanced_download_manager_service.hpp:63-78 | the loop gives the first id of the counter that no record has, and ids stay distinct |
| DownloadQueue.DownloadManager.SetState | include/goreecloud/browser/advanced_download_manager_service.hpp:104-110 | the state of the named record alone changes |
| DownloadQueue.DownloadManager.Transition | include/goreecloud/browser/advanced_download_manager_service.hpp:134-146 | a record moves only from an allowed state |
| DownloadQueue.DownloadManager.Restore | include/goreecloud/browser/advanced_download_manager_service.hpp:80-91 | a restored record keeps its id distinct and what was in flight is queued again |
| DownloadRuntime.AdvancedDownloadRuntime.VerifyAndCommit | include/goreecloud/browser/advanced_download_runtime.hpp:239-318 | a completed transfer is measured, hashed, scanned, hashed again and moved onto its final path, or held, blocked or failed at the first obstacle, with the checkpoint erased in all but the failures |
| DownloadRuntime.AdvancedDownloadRuntime.Pump | include/goreecloud/browser/advanced_download_runtime.hpp:205-208 | the scheduler object resumes what is due and works, and its reports and their verifications alternate over queue, files and checkpoints: together what the runtime's specification says of one pump |
| DownloadRuntime.AdvancedDownloadRuntime.Enqueue | include/goreecloud/browser/advanced_download_runtime.hpp:84-112 | the queue object gives a fresh id, the file is prepared and the scheduler object queues and perhaps pauses it: together one new download as specified, or a cancelled record |
| RuntimeTerms.NameExactly | include/goreecloud/browser/download_file_store.hpp:124-138 | the name a download is saved under: what was asked for with its separators made underscores, and never dot or dots |
| RuntimeTerms.DefaultExactly | include/goreecloud/browser/advanced_download_runtime.hpp:428-436 | without a suggestion the name is the last part of the URL's path |
| RuntimeTerms.BeginExactly | include/goreecloud/browser/advanced_download_runtime.hpp:84-112 | what an enqueued record leaves in queue, scheduler and disk, waiting exactly while its start lies ahead |
| DownloadRuntime.AdvancedDownloadRuntime.RestoreQueue | include/goreecloud/browser/advanced_download_runtime.hpp:336-383 | the persistent queue is read back record by record into the queue and the scheduler objects |
| RuntimeTerms.ReopenExactly | include/goreecloud/browser/advanced_download_runtime.hpp:336-383 | what becomes of one record read back, by its state, its mode, its segments and its start |
| DownloadRuntime.AdvancedDownloadRuntime.Pause | include/goreecloud/browser/advanced_download_runtime.hpp:114-127 | the queue and the scheduler objects pause exactly a download that the queue allows to and the scheduler has |
| DownloadRuntime.AdvancedDownloadRuntime.Resume | include/goreecloud/browser/advanced_download_runtime.hpp:129-139 | only a paused record resumes, and its state changes only if the scheduler object held it paused |
| DownloadRuntime.AdvancedDownloadRuntime.Cancel | include/goreecloud/browser/advanced_download_runtime.hpp:141-158 | queue, scheduler, checkpoint and, when asked, staged file let go of a download that is neither finished nor being verified, as one withdrawal from the scheduler's runs |
| DownloadRuntime.AdvancedDownloadRuntime.Restart | include/goreecloud/browser/advanced_download_runtime.hpp:160-185 | the steps of a restart over the objects come to one withdrawal, one new file and one queueing, or to what is left of it where the file cannot be prepared |
| RuntimeTerms.PauseExactly | include/goreecloud/browser/advanced_download_runtime.hpp:114-127 | pausing works exactly for a record that is not over, held, blocked or being verified while the scheduler has its download, and what it then does |
| RuntimeTerms.ResumeExactly | include/goreecloud/browser/advanced_download_runtime.hpp:129-139 | resuming works on a paused record, and what it then does |
| RuntimeTerms.CancelExactly | include/goreecloud/browser/advanced_download_runtime.hpp:141-158 | cancelling works on a record that is neither over nor being verified, and what it takes away |
| RuntimeTerms.RestartExactly | include/goreecloud/browser/advanced_download_runtime.hpp:160-185 | restarting works on a record that is over, held or blocked, and begins again over an empty file |
| RuntimeTerms.EventExactly | include/goreecloud/browser/advanced_download_runtime.hpp:55-81 | what the progress and failure callbacks make of a record and of what is shown |
| RuntimeTerms.LetGoExactly | include/goreecloud/browser/advanced_download_runtime.hpp:320-334 | a pump lets go exactly the waiting downloads whose start is not ahead any more |
| ReleaseGate.RunIsGated | include/goreecloud/browser/advanced_download_runtime.hpp:239-318 | over every run every release has the planned length and was read again after the scan, and the finding behind it is clean and was valid then, names the resource "browser:download:" and the download's id, and the SHA-256 of the released bytes |
| ReleaseGate.OneFindingOneDownload | include/goreecloud/browser/wardveil_download_security.hpp:222-245 | two releases of a run whose findings carry one resource id are of one download |
| GateTerms.PumpEnds | include/goreecloud/browser/advanced_download_runtime.hpp:239-318 | over every run, the state a pump leaves a finished download in, by the answers: completed with that release if and only if the answer is a current clean finding with evidence for this download and these bytes, they are the same afterwards and of the planned length, and the commit succeeds; and when it is failed, held or blocked |
| GateTerms.VerificationEnds | include/goreecloud/browser/advanced_download_runtime.hpp:239-318 | besides, what a verification leaves of checkpoint, files, decision and releases |
| GateTerms.MissingFails | include/goreecloud/browser/advanced_download_runtime.hpp:239-259 | and that without a staged file of the planned length it fails and nothing is asked |
| GateTerms.CommitMoves | include/goreecloud/browser/download_file_store.hpp:96-114 | what each stage of a commit makes of the files, with the staged path written out |
| Wardveil.DecisionExactly | include/goreecloud/browser/wardveil_download_security.hpp:226-291 | which findings release, hold, quarantine and block |
| Wardveil.ReasonsExactly | include/goreecloud/browser/wardveil_download_security.hpp:226-291 | which reason is told, the first defect of the answer or what its finding says |
| ReleaseGate.GateAtEveryStep | include/goreecloud/browser/advanced_download_runtime.hpp:84-185 | held and blocked are left only by cancelling or restarting that download or by opening the program again, wherever it stopped, when the record stays exactly if it is not private and has a place for its file; completed is reached only by a pump that released it |
| ReleaseGate.VerdictStands | include/goreecloud/browser/advanced_download_runtime.hpp:239-318 | the state that a download's own report leaves is the state it ends the pump with, whatever is reported after it |
| ReleaseGate.ShownAfterReopening | include/goreecloud/browser/advanced_download_runtime.hpp:340-374 | after a reopening what is shown is what the record says, if and only if the record is not a failed one |
| RuntimeRuns.RuntimeRunIsRun | include/goreecloud/browser/advanced_download_runtime.hpp:84-383 | every run of the runtime, with the program stopping between calls, in the transfers, between two reports or between any two steps of a verification, is for its scheduler one of the scheduler's runs, over downloads with the queue's numbers that were begun |
| ReleasedResource.ReleasedIsTheResource | include/goreecloud/browser/advanced_download_runtime.hpp:239-318 | with an honest client, whatever the disk, the scanner and the user do and wherever the program stops, each release comes from a completion of a plan as its server described it, and has the length and the SHA-256 digest of that version of its URL if what the download counted as done when it last came by its staged file was in that file |
| ReleasedResource.KeptFilesAreReleased | include/goreecloud/browser/advanced_download_runtime.hpp:239-318 | so every release is faithful in a run where every activation found the file that its progress was saved over and no commit took the file of a running download |
| ReleasedResource.ApartNamesAreReleased | include/goreecloud/browser/download_file_store.hpp:54-60 | for which it is enough, besides the former, that no download is begun whose file name is the staged path of one begun |
| ReleasedRecord.CompletedIsReleased | include/goreecloud/browser/advanced_download_runtime.hpp:239-318 | a completed download was released from the URL that its record names, with a proper finding, and faithfully under the same condition |
| StaleRelease.RenamedIsReleasedWrong | include/goreecloud/browser/advanced_download_runtime.hpp:386-392 | a failing run of the whole program: a private download half done, its id given again under another name, is found clean and released with a byte never fetched |
| TakenRelease.CollidingIsReleasedWrong | include/goreecloud/browser/download_file_store.hpp:96-114 | a failing run of the whole program, with every finding clean and nothing interrupted: the second download is released with the first one's byte, and the file released first is gone |
| ReleasedFiles.ReleasedFileStands | include/goreecloud/browser/download_file_store.hpp:96-114 | the released file of a completed download lies at its final path with the length and the digest of the bytes found clean, after the pump that released it, even one that the end of the program cut off, and after all further calls and ends of the program, if every other record that ends up there is finished or cancelled and none is staged there, none is begun that does or is, and none of those is restarted |
| Sha256.InitialHashIsSquareRoots | include/goreecloud/browser/wardveil_download_security.hpp:153-158 | the initial state is that of section 5.3.3 of FIPS 180-4 |
| Sha256.RoundConstantsAreCubeRoots | include/goreecloud/browser/wardveil_download_security.hpp:139-147 | the table of constants is that of section 4.2.2 of FIPS 180-4: the bits of the cube roots of the first sixty-four primes |
| Sha256.TableIsPrimes | include/goreecloud/browser/wardveil_download_security.hpp:139-147 | where the table of primes begins with 2 and each entry is the next prime after the one before |
| Sha256.PaddingIsLeast | include/goreecloud/browser/wardveil_download_security.hpp:116-131 | the padding is the least of section 5.1.1 |
| Sha256.LengthBytesAre | include/goreecloud/browser/wardveil_download_security.hpp:126-129 | the length is appended as eight bytes, the most significant first |
| Sha256.ChoiceBit | include/goreecloud/browser/wardveil_download_security.hpp:179 | each bit of Choice is that of the second word where the first has a one, and of the third elsewhere |
| Sha256.MajorityBit | include/goreecloud/browser/wardveil_download_security.hpp:182 | each bit of Majority is the one that two of three words agree on |
| Sha256.BigSigma0Bit | include/goreecloud/browser/wardveil_download_security.hpp:181 | each bit of the sum of three rotations, by the bits they come from |
| Sha256.BigSigma1Bit | include/goreecloud/browser/wardveil_download_security.hpp:178 | the same for the other one |
| Sha256.SmallSigma0Bit | include/goreecloud/browser/wardveil_download_security.hpp:170 | each bit of the sum of two rotations and a shift |
| Sha256.SmallSigma1Bit | include/goreecloud/browser/wardveil_download_security.hpp:171 | the same for the other one |
| Sha256Example.DigestOfAbc | include/goreecloud/browser/wardveil_download_security.hpp:160-188 | the digest of the three bytes abc is the one that FIPS 180-4 gives, through every word of the schedule and every round |
| Sha256Stream.Hasher.Transform | include/goreecloud/browser/wardveil_download_security.hpp:160-188 | one block is compressed as section 6.2.2 says, through an array schedule |
| Sha256Stream.Hasher.Update | include/goreecloud/browser/wardveil_download_security.hpp:105-114 | the state is always the hash of the whole blocks fed, the buffer the rest, whatever stale bytes lie behind it |
| Sha256Stream.Hasher.FinalHex | include/goreecloud/browser/wardveil_download_security.hpp:116-134 | the result is the digest of everything fed, for messages under 2^61 bytes |
| Sha256Stream.HashFile | include/goreecloud/browser/wardveil_download_security.hpp:199-214 | hashing a file in buffers gives the digest of its contents |
| Sha256Stream.HashPieces | include/goreecloud/browser/wardveil_download_security.hpp:105-134 | and so does any other split into pieces |
| Utf8.ValidUtf8 | include/goreecloud/browser/native_extension_package.hpp:133-176 | the check accepts a byte string if and only if it encodes some sequence of Unicode scalar values by sections 3 and 4 of RFC 3629 |
| PackageArchive.DecodeArchive | include/goreecloud/browser/native_extension_package.hpp:254-425 | the decoder reports the specified entries and issues |
| PackageArchive.DecodesExactly | include/goreecloud/browser/native_extension_package.hpp:254-425 | it accepts exactly the serialisations of acceptable entry lists: decoding one returns the list, and an accepted archive is the serialisation of what it decodes to |
| ArchiveTerms.ArchiveExactly | include/goreecloud/browser/native_extension_package.hpp:254-425 | the same in numbers and texts: the name, the sizes, the paths, and the manifest |
| ArchiveTerms.ToldExactly | include/goreecloud/browser/native_extension_package.hpp:254-425 | which issues are told, in their order |
| ArchiveTerms.EntryDefects | include/goreecloud/browser/native_extension_package.hpp:335-410 | the first defect of an entry |
| ArchiveTerms.SerialisedExactly | include/goreecloud/browser/native_extension_package.hpp:254-425 | an archive byte by byte |
| SignaturePayload.ComputePayload | src/extension_signature_sodium.cpp:83-144 | covered files are collected, sorted by path and written behind their lengths |
| SignaturePayload.PayloadExactly | src/extension_signature_sodium.cpp:83-144 | the hashed bytes of two packages are equal if and only if their covered contents by path are: file order and the signature's own files do not matter |
| SignaturePayload.DecodedPayload | src/extension_signature_sodium.cpp:83-144 | for decoded packages this holds without further conditions |
| ArchiveTerms.CoveredExactly | src/extension_signature_sodium.cpp:83-89 | covered are the files that do not lie under signatures/ |
| ArchiveTerms.PayloadIs | src/extension_signature_sodium.cpp:83-144 | a payload byte by byte |
| SyncRetrieval.ValidateBatch | include/goreecloud/browser/sync_retrieval.hpp:35-56 | a page is accepted exactly when it is of the dataset, well shaped, within limits and strictly increasing after the cursor |
| SyncRetrieval.PageExactly | include/goreecloud/browser/sync_retrieval.hpp:35-56 | which pages are accepted, in the names of the datasets, the sizes and the fields of the records |
| Lexicographic.LessExactly | include/goreecloud/browser/sync_retrieval.hpp:35-56 | ids are ordered by the first byte they differ in, and a shorter one comes before what it begins |
| SyncRetrieval.FetchDataset | include/goreecloud/browser/sync_retrieval.hpp:58-82 | the paging loop gathers the pages as specified |
| SyncRetrieval.AnyTransport | include/goreecloud/browser/sync_retrieval.hpp:58-82 | any result from any transport is strictly increasing by id, within the limit and well shaped throughout |
| SyncRetrieval.HonestServerIsFetched | include/goreecloud/browser/sync_retrieval.hpp:58-82 | against an honest server with pages of any size the result is the whole dataset when it has at most 4096 records, and nothing otherwise |
| PermissionBroker.ValidateRequest | include/goreecloud/browser/permission_broker.hpp:212-233 | a request is valid exactly when its texts, origins, times and resources are, and no resource is repeated |
| PermissionBroker.Broker.Receive | include/goreecloud/browser/permission_broker.hpp:248-259 | a request is stored exactly when it is valid and its id is new |
| PermissionBroker.Broker.Evaluate | include/goreecloud/browser/permission_broker.hpp:270-320 | every requested resource is answered, and the unresolved ones the preflight decides are resolved |
| PermissionBroker.Broker.ApplyUserDecision | include/goreecloud/browser/permission_broker.hpp:322-415 | one resource is resolved by the user's choice, the preflight or the death of the request |
| PermissionBroker.Broker.Cancel | include/goreecloud/browser/permission_broker.hpp:417-425 | an open request is ended as cancelled, keeping what was resolved |
| PermissionBroker.Broker.CloseContext | include/goreecloud/browser/permission_broker.hpp:427-439 | every open request of the context is ended, and they are counted |
| PermissionHistory.GrantExactly | include/goreecloud/browser/permission_broker.hpp:322-415 | a choice grants the engine the resource exactly when the request is open, live and in its context, the choice allows and nothing stands against it; the decision told and kept is that of the choice, for each of the six, and it may be stored exactly when the choice was a persistent one |
| PermissionHistory.OnlyChosenIsKept | include/goreecloud/browser/permission_broker.hpp:322-415 | a choice that is not persistent never leaves a persistent decision |
| PermissionTerms.OpenExactly | include/goreecloud/browser/permission_broker.hpp:322-415 | what each choice comes to for an open request, in its own decisions |
| PermissionTerms.ChoiceIsTaken | include/goreecloud/browser/permission_broker.hpp:322-439 | over every run, that this is told, kept whatever follows, and grants exactly an allowance |
| PermissionTerms.ClosedExactly | include/goreecloud/browser/permission_broker.hpp:322-350 | a request that is not open for the resource is refused and left alone |
| PermissionTerms.DeadExactly | include/goreecloud/browser/permission_broker.hpp:477-493 | a dead request is ended for the reason it is dead of |
| PermissionTerms.PreflightTells | include/goreecloud/browser/permission_broker.hpp:519-606 | which gate or operating-system state refuses first, and what is told |
| PermissionTerms.EvaluatedExactly | include/goreecloud/browser/permission_broker.hpp:270-320 | what an evaluation tells and keeps of each resource |
| PermissionTerms.EndsExactly | include/goreecloud/browser/permission_broker.hpp:417-451 | cancelling and closing end open requests as cancelled and no others |
| PermissionTerms.OriginExactly | include/goreecloud/browser/permission_broker.hpp:178-210 | which texts are origins |
| PermissionTerms.ValidExactly | include/goreecloud/browser/permission_broker.hpp:212-233 | which requests are valid, in numbers |
| PermissionHistory.CompletedExactly | include/goreecloud/browser/permission_broker.hpp:465-475 | in every reachable state a request is completed exactly when every requested resource is resolved |
| PermissionHistory.ResolutionsAreFinal | include/goreecloud/browser/permission_broker.hpp:270-439 | resolutions are write-once and completed requests never change |
| PermissionHistory.GrantsAreSound | include/goreecloud/browser/permission_broker.hpp:322-415 | the engine is granted a resource of a request at most once, inside the time window, in the bound context, with gates and operating system passing |
| QueueFile.EscapeText | include/goreecloud/browser/download_queue_store.hpp:92-101 | tabs, newlines and backslashes are escaped |
| QueueFile.UnescapeText | include/goreecloud/browser/download_queue_store.hpp:103-117 | escapes are undone, a trailing backslash is kept |
| QueueTerms.UnescapeExactly | include/goreecloud/browser/download_queue_store.hpp:103-117 | left to right, what each byte and each escape stands for |
| QueueFile.SplitLine | include/goreecloud/browser/download_queue_store.hpp:119-139 | a line is split at unescaped tabs |
| QueueFile.EscapeRoundTrip | include/goreecloud/browser/download_queue_store.hpp:92-117 | unescaping what was escaped gives it back, whatever the bytes |
| QueueFile.Save | include/goreecloud/browser/download_queue_store.hpp:36-50 | a line a record, nine fields |
| QueueTerms.LineExactly | include/goreecloud/browser/download_queue_store.hpp:36-50 | a line as it is written, character by character |
| QueueFile.Load | include/goreecloud/browser/download_queue_store.hpp:60-89 | each line is read back as a record or passed over |
| QueueTerms.RowExactly | include/goreecloud/browser/download_queue_store.hpp:60-89 | which fields make a record, and which record |
| QueueTerms.NumbersExactly | include/goreecloud/browser/download_queue_store.hpp:74-81 | how numbers are read: behind blanks and a sign, as far as the digits go, within their type |
| QueueFile.QueueRoundTrip | include/goreecloud/browser/download_queue_store.hpp:26-89 | loading what was saved returns the records, whatever bytes are in their texts, up to an empty suggested name becoming absent and nameless records being passed over |

## Left out

- Power loss: a crash stops the program between two file operations or inside a write; the reordering of unsynced writes by the operating system is not modelled.
- The ledger a rejected restore may have partly filled: only the rejection is modelled.
- Extensions.ValidateManifest: returns the issues as a set, and checks each list in its own loops, where the source folds validity and repetition into one pass.
- The character classes of the C library are those of the C locale.
- EndToEnd.CompleteIsTheResource: assumes a client that delivers bytes of the requested range; the curl client compares the status with 206 only after the chunks have been written. `RangesIgnored.CutRepliesCompleteWrong` is what happens without the assumption. The theorems about the scheduler's runs also assume ids of the form the queue gives out, without which two downloads could be staged at one path; `RuntimeRuns.RuntimeRunIsRun` proves that of the whole program's runs.
- TransferScheduler.DownloadTransferScheduler.Pump: what the completion callbacks do to the disk is an argument; `DownloadRuntime.AdvancedDownloadRuntime.Pump` makes its own verifications between the reports and is proved to be such a pump. The progress and failure callbacks of the transfers are handled after them, which is the same because nothing a later transfer reads is changed by them.
- DownloadRuntime.AdvancedDownloadRuntime.Enqueue: whether a destination can be prepared is an answer of the disk; the queue file is taken as always up to date with the queue, and reading it back is `DownloadRuntime.AdvancedDownloadRuntime.RestoreQueue`.
- The download directory is empty when a run starts, and no other program changes it; what a verification reads after the scan is arbitrary all the same. The directories of checkpoints and queue are taken to be kept apart from it.
- Speed, time estimates, messages and reason texts, including those of the permission broker's resolutions.
- File offsets past 2^63, which no file system offers.
- The queue file's temporary file and rename, and states outside the enumeration, which are kept as numbers.
- The checkpoint files' quoted text: checkpoints are a map by download id.
- The text manifest decoder and the signature's own verification: only the hashed bytes are modelled.
- libcurl, libsodium, mutexes and clocks: replies are arbitrary, time is an argument, calls do not interleave.
- Tabs, windows, panels, media hover, settings, private-session wrappers and session recovery: no state machine of comparable depth.
