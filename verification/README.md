# LazyEdge: a verified model

LazyEdge is a reverse-proxy edge built from small Node.js programs that share state through
atomic POSIX file operations.  This Dafny project models its three crash-aware file protocols,
the compiler that turns a manifest into the edge's policy, and the parts of the proxy that
rely on that policy, and proves what they promise.  `dafny verify dfyconfig.toml` checks it.

## The protocols

**Rollout lease and journal** (`src/rollout-journal.js`).  `RolloutLease` is a state machine whose
steps are single system calls: `mkdir`, exclusive creation, `lstat`, `readdir`, reads, `link`,
`unlink`, `rename`, `rmdir`.  Every caller of `createRolloutJournal` or `openRolloutJournal` has a
program counter; any call may fail, a process may exit at any point, pids and inode numbers are
reused, and a failed write may or may not have left its text.  `RolloutLeaseSafety` proves the
mutual exclusion of the lease, `RolloutLeaseRuns` that undisturbed acquisition, reclamation and
release succeed, `RolloutLeaseStuck` which abandoned leases can be acquired again,
`RolloutLeaseFailures` what failing calls leave and how it is undone.
`RolloutPhases` is the phase machine of the journal record, `RolloutJournalRun` shows that what is
published under the lease is one run of it, `RolloutTransitions` says on the fields of the record when
each mutation succeeds and what it changes, `RolloutJournalLife` that undisturbed creations, openings
and mutations succeed, and `RolloutJournalHandle` is the handle object as its callers see it.

**One-shot stop permits** (`src/rollout-authority.js`).  `StopPermitStore` models the two names of a
nonce, `.permit` and `.spent`, with link counts and with the set of values each name may have
after a power loss: the durable value and every later one since the last directory fsync.
`StopPermitSafety` proves one-shot consumption without any condition and one-shot issuing as long
as no power loss takes both names of an issued nonce, which `StopPermitRuns` shows to be the exact
condition; `StopPermitDurability` proves that only a failed handover can lead there.
`StopPermitContest` is about concurrent consumers of an issued record, `StopPermitCalls` about the
answer of each undisturbed call, `StopPermitAuthority` about permits, clocks and process identities,
and `StopPermitAuthorization` joins both.

**Token store** (`src/token-store.js`).  `TokenLock` and `TokenLockSafety` treat the other lock
algorithm, with retained inode-named tombstones.  Ownerless and remote locks are reaped by age, so
its exclusion is conditional: `TokenLockExclusion` proves that exactly a rename that takes the
directory of a caller still at work breaks it, and that runs with sound staleness judgements
(`SoundRun`) make no such rename: nobody judged stale is still acquiring or holding, and if ownerless
directories are reaped at all, a foreign marker judged stale has no working creator.  Runs that reap
only for dead local owners meet this by themselves.  `TokenLockRuns` shows for each part of the
hypothesis a run without it that ends with two holders; `TokenLockRelease` says when a release or a
cleanup frees the lock.

`TokenStoreRuns` is the store itself: many instances with caches, mutations, refreshes and
verifications that interleave wherever the code awaits I/O; of the lock it keeps the holder only.
`TokenStoreSafety` and `TokenStoreRevocation` prove the file history, the coherence of the caches and
what a verification guarantees.  `TokenStoreLocking` puts the store over the real lock and shows which
runs are runs of `TokenStoreRuns`; `TokenStoreRaces` shows what is lost otherwise.
`TokenStoreLife` follows an undisturbed token from its issue to its expiry, and `TokenStoreHandle` is
one instance as an object.

## The policy compiler and the proxy

`StableText` is the canonical JSON printer on UTF-16 code units, `StableParser` a parser for its
output; `StableRoundTrip`, `StableUniqueness` and `StableEncoding` prove unique decodability.
`RequestPath` holds the two path validators, strict percent-decoding and the dot-segment removal of
RFC 3986, section 5.2.4; `RequestTargets` says which targets pass and that decoding inverts
percent-encoding. `DomainNames` says what a DNS name is. `ManifestScalars`, `ManifestParts` and
`Manifests` specify `normalizeManifest`; `ManifestLoops` and `ManifestNormalizer` are its loops,
proved to compute that specification, and `ManifestCanonical` proves the normal form canonical.
`ManifestAcceptance` says on the input alone which manifests are accepted, `ManifestInputs` how
input and result are related and which inputs share a result. `HttpPolicy` compiles the edge and
worker guards, `PolicyGuards` relates them to the manifest and to each other, `RequestDecisions`
says which raw requests they allow. `RolloutContract` and `RolloutAcceptance` do the same for
rollout contracts; `ManifestDigest` and `RolloutDigest` prove that digests decide normal forms.
`ProxyLength`, `ProxyHeaders` and `ProxyBody` are the declared length, header sanitising and body
streaming. `Texts`, `Numbers`, `Sorting`, `Reordering`, `ClaimKeys`, `JsonObjects` and `Results` are
shared.

## Where the code gives less than one might expect

- A release is silent about a stray `reaper.json` and then leaves the lease in place
  (`src/rollout-journal.js:820-825`); `ReleaseFreesUnlessReaper` says exactly when.
- When the directory fsync after the consuming `link` fails, the `finally` block still removes the
  active name (`src/rollout-authority.js:996-1003`).  A power loss can then lose the spent name and
  keep the removal, and the nonce can be issued again.  No consume returns true twice even then.
- The retained tombstone of the token-store lock is not always non-empty, as its comment assumes
  (`src/token-store.js:441-443`): a quarantined directory that had no owner record is held only by a
  marker, and a reaper may withdraw the marker that others relied on.  `EmptyTombstoneIsReplaced`
  is such a run; with a recorded owner the tombstone always keeps it.
- A token-store lock reaped by age excludes nobody while its holder lives; `ReportedIssueIsLost` is a
  run in which an issue that reported success is overwritten.
- A rollout lease whose directory lacks a complete `owner.json`, or holds a stray `reaper.json`, is
  refused by every later call once nobody works on it (`src/rollout-journal.js:696-702`); a caller
  that dies between its mkdir and its owner record leaves one.
- A create or a mutation of the journal can throw although its record was published
  (`src/rollout-journal.js:511-533`); repeating the request is then refused (`RetryIsRefused`).
- A refresh in flight that had its last look at the file before a revocation lets a verification
  that joins it (`src/token-store.js:795-804`) accept a token revoked earlier;
  `RevokedAcceptedExactly` says exactly when.

## Model

| member | source | states |
|---|---|---|
| `RolloutPhases.NextIsValid` | src/rollout-journal.js:965-1108 | a successful transition leads from a valid record to a valid record with the next sequence number, and never starts from a terminal one |
| `RolloutPhases.ValidationIsReachability` | src/rollout-journal.js:206-269 | a record passes `validateState` if and only if some creation followed by some sequence of successful transitions produces that very record |
| `RolloutTransitions.IdentitiesExactly` | src/rollout-journal.js:16-17 | which plan digests and operation ids are accepted, character by character |
| `RolloutPhases.RunLength` | src/rollout-journal.js:965-1108 | after creation the sequence number equals the number of transitions made, and no run makes more than 16 |
| `RolloutPhases.ReplayKeepsIdentity` | src/rollout-journal.js:884-888 | no transition changes the plan digest or the operation id that a handle is bound to |
| `RolloutTransitions.AdvanceActivationExactly` | src/rollout-journal.js:965-1000 | on the fields of the record: the activation advances if and only if there is no receipt, the sequence is the expected one, no rollback has begun, the activation phase is the expected one and the next phase comes right after it; only phase, sequence and time change |
| `RolloutTransitions.BeginRollbackExactly` | src/rollout-journal.js:1002-1031 | a rollback begins if and only if there is no receipt, the sequence is the expected one, none has begun and the activation phase is the named one, which stays |
| `RolloutTransitions.AdvanceRollbackExactly` | src/rollout-journal.js:1033-1065 | a rollback advances if and only if there is no receipt, the sequence is the expected one, its phase is the expected one and the next phase comes right after it |
| `RolloutTransitions.FinalizeExactly` | src/rollout-journal.js:1067-1108 | a commit needs an accepted activation without rollback, a rolled-back an accepted rollback, a failure neither; only receipt, sequence and time are new, and the receipt repeats the identities of the record |
| `RolloutTransitions.RefusalExactly` | src/rollout-journal.js:890-1108 | which error a refused mutation carries: the receipt is judged first, then the sequence, then the phases |
| `RolloutTransitions.OrdinaryActivation` | src/rollout-journal.js:965-1108 | a rollout that goes well passes nine named phases, one call each, and commits |
| `RolloutTransitions.OrdinaryRollback` | src/rollout-journal.js:1005-1108 | from any record without rollback or receipt a rollback passes seven named phases and ends rolled back at the activation phase it began at |
| `RolloutTransitions.RollbackFreezesActivation` | src/rollout-journal.js:983-985 | once a rollback has begun, no run of transitions moves the activation phase |
| `RolloutLeaseSafety.LeaseMutualExclusion` | src/rollout-journal.js:696-882 | over every interleaving of acquirers, handles and reapers, with I/O errors, exits, pid and inode reuse at any step, at most one live caller is acquiring, holding or releasing the lease |
| `RolloutLeaseSafety.HolderKeepsItsLease` | src/rollout-journal.js:790-833 | while a live handle is open, its own directory with its complete owner record stays at the lease path |
| `RolloutLeaseSafety.OwnershipCheckIsExact` | src/rollout-journal.js:802-813 | the ownership check of a live handle succeeds if and only if no stray `reaper.json` lies in its directory |
| `RolloutLeaseSafety.ReleaseFreesUnlessReaper` | src/rollout-journal.js:815-832 | the last step of a release frees the lease path if and only if no `reaper.json` has appeared in the directory |
| `RolloutLeaseSafety.ReaperMovesOnlyDeadLeases` | src/rollout-journal.js:696-788 | whenever a reaper is about to rename, the lease path holds the directory it inspected, made by a process that has exited, and no live caller is acquiring, holding or releasing |
| `RolloutLeaseSafety.DeadStaysDead` | src/rollout-journal.js:703-706 | a process instance that has exited never runs again, whatever pids are reused |
| `RolloutLeaseRuns.DeadLeaseIsReplaced` | src/rollout-journal.js:696-882 | alone and without I/O errors a live caller reclaims the lease of a dead process and acquires it, leaving no tombstone |
| `RolloutLeaseStuck.AcquirableExactly` | src/rollout-journal.js:677-882 | with a lease directory present and nobody at work, some later call can acquire the lease if and only if the directory holds exactly a complete owner record; otherwise every later call is refused, whoever exits or comes |
| `RolloutLeaseStuck.DyingAcquirerBlocks` | src/rollout-journal.js:840-848 | a caller that dies right after its mkdir leaves such a refused directory |
| `RolloutLeaseRuns.ReleaseAlone` | src/rollout-journal.js:815-832 | alone and without I/O errors a handle without a stray reaper file releases: directory gone, path free |
| `RolloutJournalLife.OwnershipCheckSteps` | src/rollout-journal.js:790-833 | over every interleaving, an ownership check of a live handle in which no system call fails finds its own directory and owner, and the work or the release behind it goes on if and only if no `reaper.json` was listed there |
| `RolloutLeaseFailures.CleanupAlone` | src/rollout-journal.js:840-882 | alone, an acquisition that failed after its owner record was complete removes both record and directory and frees the path |
| `RolloutLeaseFailures.CleanDirectoryAlone` | src/rollout-journal.js:840-882 | alone, one without an owner record removes its directory exactly if it is empty, and looks again if another file was there first |
| `RolloutLeaseFailures.WithdrawAlone` | src/rollout-journal.js:776-788 | alone, a reaper that gives up or was overtaken removes its own `reaper.json` and no other, and tries again only if overtaken, eight attempts in all |
| `RolloutLeaseFailures.FilesAreNotReplaced` | src/rollout-journal.js:696-882 | no step of anybody replaces an owner or reaper record of a directory by another, or makes another directory of it |
| `RolloutJournalRun.PublishedRecordsArePhaseRun` | src/rollout-journal.js:468-548 | across all handles, processes and failures the records ever published are one run of the phase machine: record i is valid with sequence i, differs from its predecessor by one legal transition, keeps both identities, at most 17 exist and only the last can be terminal |
| `RolloutJournalRun.ActionPublishesAtMostOne` | src/rollout-journal.js:468-548 | one step publishes at most one record and takes none back |
| `RolloutJournalRun.PublishedOnlyGrows` | src/rollout-journal.js:468-548 | what was published by some point of a run stays a prefix of what is published later |
| `RolloutJournalRun.TerminalRecordIsFinal` | src/rollout-journal.js:890-894 | once the record at the state path is terminal it is never replaced |
| `RolloutTransitions.PublishedRollbackFreezesActivation` | src/rollout-journal.js:983-985 | so too in everything ever published, over all handles, processes and crashes |
| `RolloutJournalLife.CreateAlone` | src/rollout-journal.js:1142-1166 | alone and without I/O errors a creation that holds the lease on an empty path publishes the initial record and returns a handle |
| `RolloutJournalLife.OpenAlone` | src/rollout-journal.js:1168-1179 | opening a valid record with the expected identities returns a handle and changes nothing |
| `RolloutJournalLife.MutateAlone` | src/rollout-journal.js:940-1108 | a legal mutation of an open handle publishes its record and leaves the handle open |
| `RolloutJournalLife.LiveLeaseIsRefused` | src/rollout-journal.js:696-710 | a caller that meets the lease of a running process is refused and changes nothing |
| `RolloutJournalLife.OpenHandleIsBound` | src/rollout-journal.js:884-888 | over every interleaving and failure, the record at the state path is valid and has the plan digest and the operation id that each open handle of a live process was created or opened for |
| `RolloutJournalHandle.EdgeRolloutJournal.ReadOwned` | src/rollout-journal.js:933-938 | returns the record exactly when the lease is owned and the record is valid and bound to this handle, else the error of the first check that fails |
| `RolloutJournalHandle.EdgeRolloutJournal.Mutate` | src/rollout-journal.js:949-1108 | publishes exactly the legal next record when the rename is reached, whatever fails afterwards, and nothing otherwise; success is reported exactly when nothing failed; refused while another mutation of the handle is in progress |
| `RolloutJournalHandle.RetryIsRefused` | src/rollout-journal.js:890-904 | a mutation whose record was published although the call failed cannot take effect twice: the same request is refused by the sequence check or the terminal receipt |
| `RolloutJournalHandle.EdgeRolloutJournal.Release` | src/rollout-journal.js:1110-1116 | gives the lease up for good unless a mutation is in progress |
| `RolloutJournalHandle.CreateRolloutJournal` | src/rollout-journal.js:1142-1166 | publishes the initial record exactly when it is legal on an empty path and the link is reached; returns a bound handle exactly when nothing failed, and every failure after acquisition, before or after the link, releases the lease |
| `RolloutJournalHandle.OpenRolloutJournal` | src/rollout-journal.js:1168-1179 | returns a handle exactly for a valid record with the expected identities; otherwise releases the lease |
| `StopPermitSafety.ConsumedAtMostOnce` | src/rollout-authority.js:934-1004 | for a nonce at most one `consume` ever returns true, over any interleaving of issuers and consumers, any I/O errors, kills and power losses; the spent name is then durable |
| `StopPermitSafety.IssuedAtMostOnce` | src/rollout-authority.js:876-932 | at most one `issue` ever returns true in every run in which no power loss takes both names of an issued nonce, whatever else fails |
| `StopPermitDurability.SoundHandoverKeepsTheRecord` | src/rollout-authority.js:955-1003 | as long as no directory fsync right after a successful link has failed, no power loss takes an issued record or both of its names, and none can |
| `StopPermitRuns.ExposedCanBeIssuedAgain` | src/rollout-authority.js:876-932 | wherever a power loss can take both names of an issued nonce, the nonce can be issued again, for any record |
| `StopPermitRuns.IssuedAgainExactly` | src/rollout-authority.js:876-1004 | the exact condition: from any run so far, a continuation with two successful issues exists if and only if one exists that comes to a state in which a power loss may take both names of an issued nonce |
| `StopPermitRuns.FailedHandoverAllowsSecondIssue` | src/rollout-authority.js:959-1003 | that condition is met: for every record there is a run with a failed fsync after the consuming link, and a power loss, in which two issues of that record return true |
| `StopPermitRuns.OrdinaryLife` | src/rollout-authority.js:876-1004 | undisturbed, an issue and then a consume of the record both return true |
| `StopPermitCalls.IssueOfActiveAnswersNo` | src/rollout-authority.js:876-932 | undisturbed, a nonce with an active record is not issued again, and nothing changes |
| `StopPermitCalls.IssueOfSpentAnswersNo` | src/rollout-authority.js:876-932 | nor is a spent one; the active name the call makes is gone again |
| `StopPermitCalls.ConsumeOfUnknownAnswersNo` | src/rollout-authority.js:934-1004 | a nonce never issued is not consumed |
| `StopPermitCalls.ConsumeOfSpent` | src/rollout-authority.js:934-1004 | a spent record is not consumed again; another record of the nonce is an error |
| `StopPermitCalls.ConsumeOfPair` | src/rollout-authority.js:846-870 | a record that another consumer has linked and not yet unlinked counts as spent, and a differing record as an error |
| `StopPermitCalls.PowerLossExactly` | src/rollout-authority.js:602-615 | a power loss leaves for each name one of the values since its last fsync, and takes the text of files that were not synced |
| `StopPermitCalls.ConsumeOfOtherThrows` | src/rollout-authority.js:934-1004 | an active record that differs from the expected one is an error and stays active |
| `StopPermitCalls.ConsumeOfHalfWrittenThrows` | src/rollout-authority.js:826-874 | so is one that is still empty |
| `StopPermitSafety.ConsumedPermitWasIssued` | src/rollout-authority.js:951-995 | the permit whose consumption returns true equals, claim for claim, one whose record some issue call has written to a file |
| `StopPermitContest.ExactlyOneWinner` | src/rollout-authority.js:934-1004 | after any run in which an issue returned true, with its record unspent, taken by no power loss and nobody at work: among any number of concurrent consumers that finish without failing exactly one returns true and every other returns false |
| `StopPermitContest.NobodyThrows` | src/rollout-authority.js:826-874 | none of them throws: the four-attempt loop never falls through |
| `StopPermitContest.IssuedIsReady` | src/rollout-authority.js:876-932 | an issued record that is unspent and was taken by no power loss lies whole under its active name whenever nobody is at work |
| `StopPermitContest.ReadyExactly` | src/rollout-authority.js:876-1004 | that proviso is exact: each issued record is ready at every moment of rest if and only if no power loss of the run leaves one neither spent nor on offer |
| `StopPermitContest.LateIssuerReplacesRecord` | src/rollout-authority.js:883-899 | keeping one of the two names is not enough: after a failed handover a power loss can leave a later issuer's empty file under the active name of an issued nonce |
| `StopPermitAuthority.FileStopPermitStore.Issue` | src/rollout-authority.js:876-932 | an undisturbed issue returns true exactly for an unused nonce and then adds just that record; otherwise it leaves both kinds of record as they were |
| `StopPermitAuthority.FileStopPermitStore.Consume` | src/rollout-authority.js:934-1004 | an undisturbed consume moves the record from active to spent exactly when it is active, unspent and equal to the expected one, and tells a mismatch from an absence |
| `StopPermitAuthority.IssueStopPermit` | src/rollout-authority.js:455-481 | succeeds exactly for a valid permit within its lifetime at both clock readings and an unused nonce |
| `StopPermitAuthority.ConsumeStopPermit` | src/rollout-authority.js:483-536 | one undisturbed call: spends a record exactly when nothing refuses the call before the store and the store consumes it; an authorization repeats a stored permit and is verified within its lifetime, for any clock readings |
| `StopPermitAuthority.ClaimsExactly` | src/rollout-authority.js:182-265 | which claims are accepted, field by field |
| `StopPermitAuthority.PermitExactly` | src/rollout-authority.js:217-294 | which permits are well-formed: version, kind, base64url nonce, claims, and a lifetime of at most five minutes |
| `StopPermitAuthority.AuthorizedExactly` | src/rollout-authority.js:267-294 | on the fields of the permit: a call is authorized if and only if the permit is well-formed and lives at most five minutes, its claims are the expected ones, four clock readings lie in its lifetime, two process readings show its process, and the store consumes it |
| `StopPermitAuthorization.AuthorizationIsBound` | src/rollout-authority.js:483-536 | over every interleaving of issuers and consumers with kills and power losses, and for any clock and identity readings around each call, an authorization carries the claims, lifetime and nonce of a permit whose record some issue call has written, and is verified within [issuedAt, expiresAt) and less than five minutes after issuedAt |
| `StopPermitAuthorization.AuthorizedAtMostOnce` | src/rollout-authority.js:483-536 | no two calls ever return an authorization for one nonce |
| `TokenLockExclusion.UntakenExclusion` | src/token-store.js:431-608 | in every run in which no rename takes the directory of a caller still at work, at most one live caller acquires, holds or releases the token-store lock, whatever was judged about owners and markers |
| `TokenLockExclusion.TakingLosesExclusion` | src/token-store.js:444-450 | wherever such a rename can be made, two live callers can be at work right after it |
| `TokenLockExclusion.TakingFromHolderMakesTwo` | src/token-store.js:444-450 | if it takes a holder's directory, a second holder can follow |
| `TokenLockExclusion.ExclusionLostExactly` | src/token-store.js:431-608 | the exact condition: from any run so far, a continuation with two live callers at work exists if and only if one exists that comes to a state in which a rename may take the directory of a caller at work |
| `TokenLockExclusion.LockMutualExclusion` | src/token-store.js:431-608 | runs whose staleness judgements are sound contain no such rename, hence exclude; sound are judgements of given-up directories, and besides either no ownerless directory is judged stale or no marker of a working reaper is |
| `TokenLockExclusion.HolderKeepsItsLock` | src/token-store.js:546-589 | in every run in which no rename takes the directory of a caller still at work, a live holder's directory with its owner record stays at the lock path |
| `TokenLockSafety.DelayedReaperCannotMoveSuccessor` | src/token-store.js:431-458 | in a run with sound judgements a reaper's rename succeeds if and only if the directory it judged stale is still at the lock path; otherwise the tombstone of that inode, non-empty by its owner record or its marker, blocks it; nobody owns a directory that is moved |
| `TokenLockSafety.LocalDeathIsSound` | src/token-store.js:383-395 | judging a recorded owner of the same host dead is sound by the process table alone; of foreign markers it says nothing |
| `TokenLockExclusion.AgelessMutualExclusion` | src/token-store.js:460-608 | in every run in which lock directories are reaped only for a recorded owner of the same host that is dead, never by their age, the lock excludes without any hypothesis about markers or ages |
| `TokenLockRuns.AgedRemoteHolderIsReaped` | src/token-store.js:460-464 | without the hypothesis two live holders are possible: a live holder on another host whose directory has aged is reaped |
| `TokenLockRuns.EmptyTombstoneIsReplaced` | src/token-store.js:431-512 | sound judgement of directories is not enough once an ownerless one is reaped by age: a run in which every judged directory is abandoned and every judged marker is a complete one of an exited local process, where, after the marking reaper failed to look again and withdrew, a delayed one replaces an empty tombstone by a live successor's directory and two live holders result |
| `TokenLockRuns.AcquireAlone` | src/token-store.js:546-589 | alone and without I/O errors a free lock is acquired with the caller's owner record |
| `TokenLockRuns.DeadHolderIsReplaced` | src/token-store.js:431-513 | alone and without I/O errors a dead holder of the same host is reaped and replaced |
| `TokenLockRelease.ReleaseAlone` | src/token-store.js:515-526 | alone and without I/O errors a holder that releases removes its owner record and its directory and frees the lock, unless a reaper's marker lies in the directory, which then stays without an owner |
| `TokenLockRelease.RobbedHolderLeavesLock` | src/token-store.js:515-526 | a holder whose directory was taken leaves the lock that it finds alone |
| `TokenLockRelease.FilesAreNotReplaced` | src/token-store.js:404-604 | no step of anybody replaces an owner record or a marker of a directory by another |
| `TokenLockRelease.ReleasedLockIsAcquired` | src/token-store.js:515-526 | so the lock passes to whoever comes next |
| `TokenLockRelease.ReleaseExactly` | src/token-store.js:515-526 | in every interleaving without a taking rename, a release that meets no I/O error goes through all its steps, and the last one frees the lock if and only if no marker lies in its directory |
| `TokenLockRelease.CleanupExactly` | src/token-store.js:528-540 | alone and without I/O errors the cleanup of a failed acquisition frees the lock if and only if the directory holds no marker and its owner file is the caller's own complete record, where the write had succeeded, or absent, where it had not |
| `TokenRecords.Expiration` | src/token-store.js:610-627 | an accepted expiry lies in the future, and one given as a duration at most 366 days ahead |
| `TokenRecords.ExpirationExactly` | src/token-store.js:610-627 | a duration of n seconds, at most 366 days, expires n thousand milliseconds from now; a given time must lie in the future; the default is 30 days |
| `TokenRecords.LaterKeepsEarlier` | src/token-store.js:679-745 | along any history of one-change files records are kept, and nothing in them changes except a revocation that is set once |
| `TokenStoreSafety.EveryFileIsOneChange` | src/token-store.js:679-745 | across all instances, failures and deaths every published file is its predecessor with exactly one record added or exactly one revocation set; the lock may be lost at any time, except by a live mutation in its critical section |
| `TokenStoreSafety.FilesNeverForget` | src/token-store.js:679-745 | no later file loses a record, undoes a revocation or re-dates one, under the same assumption on the lock |
| `TokenStoreSafety.SuccessIsPermanent` | src/token-store.js:765-783 | every reported issue or revoke has a publication of its own, and every later file shows it, under the same assumption on the lock |
| `TokenStoreSafety.CacheCoherence` | src/token-store.js:785-868 | whenever an instance is not mutating, a cached fingerprint equal to the file's means cached records equal to the file's, also after failed persists and failed refreshes, under the same assumption on the lock |
| `TokenStoreSafety.AcceptedTokenWasPublished` | src/token-store.js:711-724 | an accepted token is in one published file no older than the refresh that was awaited, with the right digest and token set, unexpired, and with each part of its scope absent or containing the context's value; it is revoked in no file up to that one |
| `TokenStoreSafety.AnswerExactly` | src/token-store.js:629-636 | in every reachable state a verification accepts if and only if its cache has the token with the right digest and token set, unrevoked and unexpired, and each of serviceIds, hosts, methods and paths is absent or contains the context's value |
| `TokenStoreLife.IssueAlone` | src/token-store.js:679-709 | alone and without I/O errors an issue adds just the record of its token, and reports it |
| `TokenStoreLife.FailingMutation` | src/token-store.js:679-745 | a mutation in which a system call fails takes its change back out of the cache and keeps the fingerprint |
| `TokenStoreLife.VerifyFromCache` | src/token-store.js:792-805 | a verification for which no refresh is due answers from the cache and changes nothing |
| `TokenStoreLife.BusyVerifyIsRefused` | src/token-store.js:792-804 | a verification is refused at once if and only if its instance is at work on a mutation or 32 others wait for the refresh in flight, and waits if and only if a refresh is in flight or due |
| `TokenStoreLife.IssuedForSeconds` | src/token-store.js:610-724 | a token issued for n seconds is accepted by another instance for exactly the requests in its scope, at exactly the times before its issue plus 1000 n milliseconds |
| `TokenStoreLocking.LockedRunExactly` | src/token-store.js:765-783 | put over the real lock, a run of instances is a run of the store machine, leading to the same state, if and only if no mutation enters its critical section beside another |
| `TokenStoreLocking.UntakenLockLetsNoneOverlap` | src/token-store.js:765-783 | and none does as long as no rename of the lock takes the directory of a caller at work |
| `TokenStoreLocking.LockedFilesNeverForget` | src/token-store.js:679-745 | hence over the real lock, in such runs, every file is its predecessor with one change, no later one forgets anything, and every reported success shows in every later file |
| `TokenStoreLocking.LockedCacheCoherence` | src/token-store.js:785-868 | and every idle instance's cache is coherent |
| `TokenStoreRaces.ReportedIssueIsLost` | src/token-store.js:765-783 | without exclusion the history is lost: a run in which a live holder is reaped by age, and an issue that reported success is missing from the very next file |
| `TokenStoreRevocation.LaterLookHonoursRevocation` | src/token-store.js:792-823 | a `verify` that awaits any refresh, its own or one in flight, whose last look at the file does not precede the publication of a revocation never accepts that token, however the run goes on |
| `TokenStoreRevocation.RevokedAcceptedExactly` | src/token-store.js:792-823 | the exact condition: a waiting `verify` can still accept a token whose revocation was published if and only if the last look of its refresh came before (it found the cached fingerprint, or has read the file) and what the file said then is acceptable at some time |
| `TokenStoreRevocation.RefreshHonoursRevocation` | src/token-store.js:792-823 | a `verify` whose own refresh starts after a revocation was published never accepts that token, however the run goes on |
| `TokenStoreRevocation.JoinedRefreshMissesRevocation` | src/token-store.js:795-804 | a `verify` that joins a refresh which has looked at the file already can still accept a token whose revocation was published and reported before |
| `TokenStoreHandle.TokenStore.Reload` | src/token-store.js:785-790 | takes over records and fingerprint of the file together, or neither |
| `TokenStoreHandle.TokenStore.Persist` | src/token-store.js:825-868 | publishes the cached records exactly when the rename is reached, and adopts the new fingerprint only if everything succeeds |
| `TokenStoreHandle.TokenStore.DrawId` | src/token-store.js:685-687 | draws until an id is free |
| `TokenStoreHandle.TokenStore.Issue` | src/token-store.js:679-709 | the file gains exactly the new record when the rename is reached, success is reported only if all went well, and the cache is the file its fingerprint names in every case |
| `TokenStoreHandle.TokenStore.Revoke` | src/token-store.js:726-745 | the file gains exactly one revocation for a known unrevoked token, none otherwise, with the same cache guarantee |
| `TokenStoreHandle.TokenStore.Verify` | src/token-store.js:711-724 | answers from the cache, or after a due refresh from the file; a failed refresh empties the cache; the answer is an acceptance exactly for a token found there with the right digest and token set, unrevoked, unexpired, and in scope, said on the record's fields |
| `StableRoundTrip.ParseBack` | src/config.js:744-754 | parsing what was printed, followed by any text that does not go on with a digit, gives back the value with sorted keys and exactly that text |
| `StableUniqueness.StableIsDecodable` | src/config.js:744-754 | the parser inverts the canonical printer up to key order |
| `StableUniqueness.PrintsAlikeIffSame` | src/config.js:744-758 | two JSON values print alike if and only if they are equal up to the order of object keys |
| `StableText.QuotedUnitExactly` | src/config.js:744-754 | a code unit of a string is printed as itself if and only if it is no quote, backslash, control unit or lone surrogate; how those are printed |
| `StableText.StableTwo` | src/config.js:744-754 | two members are printed with the smaller key first, between braces, with a comma between them and a colon after each key |
| `StableEncoding.StableIsWellFormed` | src/config.js:744-758 | the printed text contains no lone surrogate, whatever the strings contain, so its UTF-8 encoding loses nothing |
| `RequestPathSafety.DecodeKeepsSegments` | src/security.js:159-182 | without escaped separators percent-decoding a path decodes its segments one by one and creates or removes none |
| `RequestPathSafety.AcceptedTargetIsUnambiguous` | src/security.js:208-233 | for every accepted request target, path and query partition the raw text, and dot-segment removal (RFC 3986, section 5.2.4) changes neither the raw path nor its decoding |
| `DomainNames.DomainExactly` | src/security.js:93-116 | a text is a DNS name if and only if it has at most 253 characters and, in lower case and split at its dots, at least two labels of 1 to 63 letters, digits and inner hyphens, the last of them not a number |
| `DomainNames.SshHostExactly` | src/config.js:91-111 | an SSH host may have a single label, and the last may be a number |
| `RequestTargets.ParseTargetExactly` | src/security.js:159-233 | which targets are accepted, and what they are parsed into: the path up to the first question mark, the rest as the query, and the text itself |
| `RequestTargets.DecodeInvertsEscape` | src/security.js:159-182 | strict percent-decoding gives back any text of which any characters, at least the percent signs, were percent-encoded as UTF-8 in either case |
| `RequestPathSafety.RoutePathExactly` | src/security.js:184-206 | a configured path is accepted if and only if it is the root or at most 2048 characters of plain segments, none of them a dot segment |
| `RequestPathSafety.RoutePathIsFixed` | src/security.js:184-233 | a configured path is a fixed point of percent-decoding and of dot-segment removal, and requesting it verbatim is accepted as that path |
| `ManifestCanonical.NormalizeIsIdempotent` | src/config.js:509-704 | normalising a normalised manifest changes nothing |
| `ManifestCanonical.ReorderingChangesNothing` | src/config.js:181-704 | reordering services, domains, routes, methods, private listeners or existing sites, at all levels at once, leaves acceptance and result unchanged |
| `ManifestAcceptance.AcceptedExactly` | src/config.js:181-704 | a manifest is accepted if and only if its services, domains, routes, edge, transport and ports meet the conditions, each said on the input itself, without normal forms |
| `ManifestInputs.NormalizeKeeps` | src/config.js:181-704 | the result has every field of the input, and no other: the same services, domains, routes, methods, listeners and sites up to order and case of names, given limits or the defaults, and cookie forwarding exactly where the input asks for it |
| `ManifestInputs.NormalFormDecidesMeaning` | src/config.js:181-704 | two accepted manifests have one normal form if and only if they are equal up to order, case of names, spelled-out defaults and unsaid options |
| `ManifestSample.SampleIsAccepted` | src/config.js:509-704 | a small manifest passes every check, so what is proved of accepted manifests is not vacuous |
| `ManifestDigest.DigestDecidesNormalForm` | src/config.js:756-758 | two accepted manifests have the same digest if and only if they have the same normal form: the JSON value of a normal form determines it, omitted fields and address texts included |
| `ManifestInputs.DigestDecidesMeaning` | src/config.js:756-758 | and so with their digests |
| `ManifestDigest.DigestIsStable` | src/config.js:756-758 | reordering a manifest at any level, or normalising it first, leaves its digest and whether there is one unchanged |
| `ManifestOrders.RoutesSeparated` | src/config.js:270-301 | the uniqueness of route claims makes the comparator of the route sort strict on the routes of a service |
| `ManifestLoops.AllDistinct` | src/config.js:222-226 | a list has as many set elements as entries exactly when no two entries are equal |
| `ManifestLoops.ClaimServices` | src/config.js:542-579 | the loop over the services accepts if and only if no two share an id, a worker listener, an edge upstream or a public claim |
| `ManifestNormalizer.NormalizeRoute` | src/config.js:152-179 | computes the normal form of a route, or fails exactly when a check fails |
| `ManifestNormalizer.ClaimLocalRoutes` | src/config.js:270-297 | accepts if and only if no claim occurs twice, none lies on the health path and the required claims are there |
| `ManifestNormalizer.NormalizeService` | src/config.js:181-349 | computes the normal form of a service, or fails exactly when a check fails; both are said on the input's own fields as well |
| `ManifestNormalizer.NormalizeEdge` | src/config.js:351-467 | computes the normal form of the edge section, or fails exactly when a check fails; failure is said on the input itself as well |
| `ManifestNormalizer.ClaimEdgePorts` | src/config.js:645-671 | a run of ports can be claimed exactly when none repeats or was claimed before; the map then binds all of them |
| `ManifestNormalizer.CheckPorts` | src/config.js:645-692 | edge ports are pairwise different, no site upstream uses one, and no worker target uses a worker listener's port |
| `ManifestNormalizer.NormalizeManifest` | src/config.js:509-704 | the whole function, with its loops, sets and maps, accepts exactly the well-formed manifests, keeps their fields and computes the normal form that the theorems are about |
| `ClaimKeys.PairKeyIsInjective` | src/http-policy.js:75-77 | `method NUL path` keys of NUL-free parts are equal exactly when the parts are |
| `ClaimKeys.ClaimKeyIsInjective` | src/http-policy.js:34-36 | `host NUL method NUL path` keys of NUL-free parts are equal exactly when the parts are |
| `ClaimKeys.SharedServiceKey` | src/config.js:565-577 | two services share a key exactly when they share a public (domain, method, path) claim |
| `HttpPolicy.CompileHttpPolicy` | src/http-policy.js:24-41 | for every manifest that normalises, the compiled map holds exactly the keys of the public claims, each with its service and route, and the host set exactly the public domains |
| `HttpPolicy.CompileWorkerPolicy` | src/http-policy.js:70-79 | the worker's set holds exactly the keys of its service's claims |
| `PolicyGuards.LookupIsScan` | src/http-policy.js:42-52 | the lookup allows a request if and only if a public (service, domain, route, method) offers it, returns that service and route, and there is no second one |
| `PolicyGuards.DenialReason` | src/http-policy.js:44-45 | a denial says `route-not-allowed` exactly for hosts of public services |
| `PolicyGuards.AllowedPathIsFixed` | src/http-policy.js:53-65 | every path the edge allows is a configured one and is left alone by percent-decoding and dot-segment removal |
| `RequestDecisions.RequestHostExactly` | src/security.js:118-148 | a Host header stands for a domain exactly if it is that domain in any case, with or without one port from 1 to 65535 |
| `RequestDecisions.DecideRequestExactly` | src/http-policy.js:42-65 | a raw request is allowed if and only if it has one Host header that stands for a domain, its target parses, its method is known, and a public service offers domain, method and path; the answer is that service, route and upstream |
| `RequestDecisions.DenialExactly` | src/http-policy.js:42-65 | which reason a denial carries: the Host header is judged first, then the target, then the method, then whether a public service has the domain |
| `RequestDecisions.CanonicalRequestIsAllowed` | src/http-policy.js:42-65 | for every public claim, the request that names its domain, with or without a port, and its path, with or without a query, is allowed as that claim |
| `RequestDecisions.WorkerDecideRequestExactly` | src/http-policy.js:80-111 | what the worker answers to a raw request: a claim of its service, or a GET of the private health path, is allowed; every other request is denied, with its reason |
| `PolicyGuards.ForwardIsExact` | src/openssh.js:32-39 | the forward of a service's upstream is unique and leads to its worker listener, which no other service has |
| `PolicyGuards.TwoGuardsAgree` | src/http-policy.js:70-112 | a request allowed by the edge and sent through the forward of its target reaches the worker guard of the same service, which allows it as an exact claim |
| `PolicyGuards.TwoGuardsMeet` | src/openssh.js:32-39 | that forward and that worker exist |
| `PolicyGuards.HealthPathIsPrivate` | src/config.js:271-276 | a service's health path is never reached through the edge for that service, and its worker allows it for GET only, as private health |
| `RolloutContract.SortInPlace` | src/rollout-contract.js:204-204 | the artifact array is sorted in place into the specified order, stably |
| `RolloutContract.NormalizeArtifacts` | src/rollout-contract.js:153-205 | fills an array by index and sorts it, failing exactly on a bad count or artifact |
| `RolloutContract.CheckUnique` | src/rollout-contract.js:226-237 | accepts if and only if no two artifacts share an id or a path |
| `RolloutContract.NormalizeEdgeRollout` | src/rollout-contract.js:215-260 | computes the normal form of a contract, or fails exactly when a check fails |
| `RolloutContract.NormalizeIsIdempotent` | src/rollout-contract.js:215-260 | normalising again changes nothing; the result is the input up to artifact order, in strictly increasing order |
| `RolloutContract.AlikeNormalizesAlike` | src/rollout-contract.js:145-205 | reordering the artifacts leaves acceptance and result unchanged |
| `RolloutContract.NormalFormDecidesAlike` | src/rollout-contract.js:145-260 | two accepted contracts have one normal form if and only if they are equal up to artifact order |
| `RolloutAcceptance.AcceptedExactly` | src/rollout-contract.js:215-260 | a contract is accepted if and only if its head, each artifact and their pairwise difference are as described field by field; the result has the same fields, with the artifacts strictly sorted by id |
| `RolloutAcceptance.ModeExactly` | src/rollout-contract.js:119-127 | a mode is four octal digits, the first a zero, without the write bits of group and world |
| `RolloutAcceptance.PathExactly` | src/rollout-contract.js:90-117 | which artifact paths are accepted |
| `RolloutDigest.DigestDecidesAlike` | src/rollout-contract.js:262-264 | two accepted contracts have the same digest if and only if they are equal up to artifact order |
| `ProxyHeaders.CopyHeaders` | src/proxy.js:57-75 | the copy is determined by the blocked names together with everything the Connection header nominates |
| `ProxyHeaders.KeptExactly` | src/proxy.js:67-74 | a name survives exactly when some entry of that name passes, with the value of the last one |
| `ProxyHeaders.SanitizeRequestHeaders` | src/proxy.js:109-125 | copies, then injects, and fails exactly for an invalid injected header |
| `ProxyHeaders.SentExactly` | src/proxy.js:77-166 | a request is passed on if and only if the injected headers are valid and it declares no length, or exactly one, in canonical decimal and within the limit |
| `ProxyHeaders.EdgeHop` | src/edge-server.js:238-247 | past the edge there is no blocked, internal or client-nominated header except the injected relay header and the re-derived length |
| `ProxyHeaders.TwoHopSeparation` | src/worker-server.js:153-162 | after both hops the upstream sees only the worker's Authorization, no relay or internal header, nothing hop-by-hop (section 7.6.1 of RFC 9110), and of the client-nominated headers only a content-length, which is present exactly when the worker received one, and is the decimal text of that number within the limit |
| `ProxyHeaders.CookiePassesExactly` | src/proxy.js:109-125 | a client's cookie passes a proxy if and only if forwarding is on, no Connection option nominates it and there is one |
| `ProxyHeaders.NamedHeadersStop` | src/proxy.js:9-55 | after both hops none of the named hop-by-hop, forwarding and internal headers is there, and a cookie only if forwarding is on |
| `ProxyHeaders.ListedIsNominated` | src/proxy.js:57-66 | a header name listed in a Connection value, in any case and with blanks around it, is nominated |
| `ProxyHeaders.EndToEndHeaderArrives` | src/proxy.js:57-75 | over a transport between the proxies that delivers every header and whose own Connection header says keep-alive or close, every other client header reaches the upstream with its value unchanged |
| `ProxyHeaders.LengthArrives` | src/proxy.js:146-166 | over such a transport a length the client declared reaches the upstream as the same text, and the worker does not refuse what the edge accepted |
| `ProxyLength.ContentLength` | src/proxy.js:77-91 | returns n exactly when one value is declared, in raw fields of any letter case or else parsed, and it is the decimal text of the safe integer n, so that the re-derived text is the declared one; null exactly when no value is declared |
| `ProxyBody.BoundedPrefix` | src/proxy.js:237-257 | over every sequence of events the upstream gets a prefix of the client body of at most `maxBodyBytes`, rejection happens exactly beyond that, and the upstream request is ended normally only after the client's end with the whole body |
| `ProxyBody.CompleteBodyIsForwarded` | src/proxy.js:237-257 | without failures, aborts or early closes a body that fits is forwarded whole and ended |
| `ProxyBody.SettledIsFinal` | src/proxy.js:174-178 | the outcome of an exchange settles once |
| `ProxyBody.SettlementExactly` | src/proxy.js:253-277 | the outcome is decided by the first abort of the client, finish or close of the response, and by whether the body so far was within the limit |
| `ProxyBody.RejectionIsAnswered` | src/proxy.js:237-249 | the chunk that makes the body too long is answered with that error, for good, if no response headers were sent and the response stands; otherwise the response is destroyed |
| `ProxyBody.ProxyExchange.OnData` | src/proxy.js:237-249 | counts the chunk and forwards it, or past the limit rejects the body, destroys the upstream request and answers 413 if headers are still unsent; keeps the bounded-prefix invariant of the object |
| `ProxyBody.ProxyExchange.OnEnd` | src/proxy.js:250-252 | ends the upstream request unless the body was rejected or the request destroyed; keeps the bounded-prefix invariant of the object |
| `ProxyBody.ProxyExchange.OnAborted` | src/proxy.js:253-257 | destroys the upstream request and settles as aborted unless already settled |
| `ProxyBody.ProxyExchange.OnUpstreamError` | src/proxy.js:224-235 | after a rejected body changes no response; otherwise answers an error while headers are unsent, else destroys the response |
| `ProxyBody.ProxyExchange.OnUpstreamResponse` | src/proxy.js:196-208 | sends response headers unless the body was rejected or the response destroyed |
| `ProxyBody.ProxyExchange.OnFinish` | src/proxy.js:266-269 | settles as success exactly when the body was not rejected, and only once |
| `ProxyBody.ProxyExchange.OnClose` | src/proxy.js:270-277 | destroys the upstream request unless the response was finished, and settles only once |

## Left out

- StopPermitSafety.IssuedAtMostOnce: assumes that no power loss takes both names of an issued nonce, because without that the property is false; StopPermitRuns.IssuedAgainExactly gives the exact condition.
- StopPermitContest.ExactlyOneWinner: assumes that no power loss has taken the issued record, which StopPermitContest.ReadyExactly shows to be exact, and that the record is unspent when the consumers begin.
- TokenLockExclusion.LockMutualExclusion: assumes sound staleness judgements, because the property is false without them: ownerless and remote locks are reaped by age (TokenLockRuns.AgedRemoteHolderIsReaped), and an ownerless tombstone can be empty (TokenLockRuns.EmptyTombstoneIsReplaced).  TokenLockExclusion.ExclusionLostExactly gives the exact condition.
- TokenLockSafety.DelayedReaperCannotMoveSuccessor: assumes sound staleness judgements for the same reasons.
- TokenStoreSafety.EveryFileIsOneChange: assumes that a live mutation does not lose the lock to another in its critical section, as do FilesNeverForget, SuccessIsPermanent and CacheCoherence; the lock does not give this in every run (TokenStoreRaces.ReportedIssueIsLost), and TokenStoreLocking.LockedRunExactly and UntakenLockLetsNoneOverlap say when it does.
- PolicyGuards.ForwardIsExact: the forward table is a list in manifest order; the order in which openSshForwards lists it is not modelled.
- Permission, ownership and ancestor-directory checks, `/proc` parsing, symbolic links and files of the wrong kind: a failing check is an I/O error of its step.
- Power loss and reboot for the lease, the journal and the token store; only the stop permits model un-fsynced directory changes.  A directory fsync that a file system silently does not support counts as done.
- Two concurrent calls on one journal handle other than mutations, and the read-only `inspectRolloutJournal` (`src/rollout-journal.js:1181`).
- The stop-permit store is modelled for one nonce at a time, since its file names belong to one nonce; its methods in StopPermitAuthority cover all nonces, one undisturbed call at a time.
- Temporary files of the journal and of the token store: they are invisible until renamed or linked.
- Token-store lists (`src/token-store.js:747-757`), the 100 ms clock behind a due refresh (any moment may be due), file deletion by outsiders, and fingerprints of different files that coincide.
- Text order: `localeCompare` is taken to be the strict code-unit order; names, paths and joined methods are ASCII.
- SHA-256 is an injective function, random ids and nonces are fresh values, constant-time comparison is equality.
- URL, YAML and internationalised-domain parsing: listeners and URLs are already split into host and port, host names are ASCII, IPv6 literals of `sshHost` are not accepted, and an `sshHost` whose last label is a number is kept, where `domainToASCII` would rewrite it to an IPv4 address.
- JavaScript object hygiene (unknown fields, accessors, symbols) and the error codes of manifest validation: a failed check is one result.
- JSON numbers are safe integers.
- Response headers, backpressure, timeouts as clocks, socket closing and concurrency counters of the servers.
- `src/systemd.js`, `src/caddy.js`, `src/accounts.js`, `src/state.js`, `src/node-admission.js`, `src/doctor.js` and the command-line programs: text renderers, probes and argument handling.
