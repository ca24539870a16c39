# Verified model of the Bobby browser runtime

A Dafny model of the parts of the browser-automation runtime that carry state, interleavings,
crashes or exact arithmetic, with proofs of what they guarantee. `dafny verify dfyconfig.toml`
checks the whole project.

| files | what they model |
|---|---|
| `PromptTurn`, `TurnSafety` | one prompt turn: `begin`, `cancel`, `close`, `wait_idle` and the drop of a lease, as an object and as a machine of interleaved tasks |
| `AcpServer`, `AcpSafety`, `AcpPrompts`, `AcpTheorems`, `AcpPages`, `AcpStaleRun`, `AcpStory`, `AcpNavigation`, `AcpCancel` | the ACP session protocol: new, close, cleanup and prompt handlers, the lifecycle lock, runtime calls in flight and the pages they open; every section under one lock is one step |
| `AuthorityRecords`, `AuthorityPersist`, `AuthorityTheorems`, `AuthorityLive`, `AuthorityRevokeRace` | issue, revoke, persist, crash and reload of the persistent authority |
| `ArtifactStore`, `ArtifactSafety`, `ArtifactTasks`, `ArtifactTheorems`, `ArtifactDurability`, `ArtifactFinalize` | concurrent puts, finalizers, crashes and boot sweeps in one session directory of the artifact store |
| `PrincipalPermits`, `PermitMap`, `PermitBound`, `PermitOvershoot` | per-principal admission with eviction of idle semaphores |
| `RuntimeBinding`, `Lifecycle` | the cache of authenticated runtimes and the drain of gateway connections |
| `IdentifierMap` | the identifiers of the CDP gateway and the events of a generation change |
| `FormControls`, `FormSnapshot` | the validator of form snapshots |
| `TypingReplay`, `Typing`, `MousePath`, `Scrolling`, `Randomness` | the generators of human-like input |
| `EditDistance`, `BoxMatch` | the rolling-row edit distance and the greedy box matcher |

File systems are modelled by the directory states that a crash may leave: every state since the
last directory sync is possible, and a file or tree that was never synced comes back torn.
SHA-256 is an injective constructor, random identifiers are fresh values, random draws are
arbitrary values of their range, clocks never run backwards, and floating point is exact
real arithmetic.

## What does not hold

Some properties that a reader of the source might expect are false. For each there is a run that
breaks it and an exact condition under which it holds.

- A prompt reads its session's page before it takes the turn's lease. If another prompt stores a
  page in between, the first one stores its own over it, and a page stays open that nobody
  refers to (`AcpStaleRun.StalePromptLosesAPage`). Storing displaces a page exactly when the
  snapshot was stale at `begin` (`AcpPages.DisplacesIffStale`).
- An issue enrolls its token before it takes the record mutex, and a revoke marks the live store
  before it does, so the two places may see an issue and a revoke in different orders. If the
  revoke comes second in the live store only, the token is rejected and a restart accepts it again
  (`AuthorityRevokeRace.RevokedTokenReturns`); if it comes second at the mutex only, the token is
  accepted until a restart (`AuthorityRevokeRace.LiveTokenOutlivesRevoke`). The live store follows
  its own order exactly (`AuthorityLive.LiveIff`), a restart the order of the mutex
  (`AuthorityTheorems.RestartFollowsMutexOrder`); they agree exactly when the two orders do
  (`AuthorityLive.LiveAndRestartAgreeIff`), and the revoke ends the token exactly when it comes
  second in both (`AuthorityLive.RevokeEndsTokenIff`).
- A put that finds its artifact published returns Ok without another directory sync, and a
  finalizer that finds no staging directory syncs nothing at all, so a crash can take the artifact
  back (`ArtifactDurability.EarlyOkCanVanish`, `ArtifactDurability.FinalizeOkCanVanish`). An artifact
  outlives every crash exactly when the directory was synced while it was published, or a crash
  already left it published (`ArtifactDurability.DurableIff`, `ArtifactDurability.SurvivesIff`). A put
  is safe when the artifact was published as it began, because it begins with a sync
  (`ArtifactDurability.PublishedBeforePut`); a finalizer has no such sync.
- Finding a principal's semaphore and taking its permit are two steps. An eviction in between
  splits the principal over two semaphores. The limit holds in all runs exactly when fewer
  principals than `max_principals` ever ask, or `max_connections` is no higher than the limit
  (`PermitOvershoot.BoundHoldsIff`).
- A caller of the runtime cache whose capabilities changed replaces its own entry, but a full
  cache evicts another one as well (`RuntimeBinding.NeedlessRun`). A live entry of someone else is
  lost without need exactly when the caller swaps its own live entry, the cache is full, and the
  caller's entry is not the oldest (`RuntimeBinding.NeedlessIff`).
- `adopt_target` keeps one identifier per target exactly when no other identifier has that
  binding (`IdentifierMap.AdoptKeepsUniqueIff`).

## Model

| member | source | states |
|---|---|---|
| `PromptTurn.SharedTurn.constructor` | crates/acp-gateway/src/server.rs:92-103 | a new turn is open, inactive and has no cancel channel |
| `PromptTurn.SharedTurn.Begin` | crates/acp-gateway/src/server.rs:125-150 | a lease is granted exactly when the turn is neither closed nor active, with a new cancel channel; otherwise nothing changes and the error says which, closed first |
| `PromptTurn.SharedTurn.Cancel` | crates/acp-gateway/src/server.rs:152-163 | the current channel is signalled, whether or not the turn is closed, and forgotten if it is |
| `PromptTurn.SharedTurn.Close` | crates/acp-gateway/src/server.rs:165-174 | the turn is closed and the current channel signalled |
| `PromptTurn.SharedTurn.DropLease` | crates/acp-gateway/src/server.rs:215-227 | the turn becomes inactive and its channel is gone |
| `PromptTurn.SharedTurn.NotifyWaiters` | crates/acp-gateway/src/server.rs:215-227 | the notification count goes up, outside the lock |
| `TurnSafety.LeaseInvKept` | crates/acp-gateway/src/server.rs:124-227 | every step keeps: leases, the active flag and the cancel channel agree, and a closed turn's leases are signalled |
| `TurnSafety.WaitInvKept` | crates/acp-gateway/src/server.rs:176-227 | every step keeps: a parked waiter has a lease that will notify, a notify on its way, or one it has not consumed |
| `TurnSafety.AtMostOneLease` | crates/acp-gateway/src/server.rs:125-150 | in all runs at most one lease is outstanding, and one is exactly while the turn is active |
| `TurnSafety.ClosedForever` | crates/acp-gateway/src/server.rs:165-174 | closed is permanent, admits no further lease, and every lease left sees cancellation |
| `TurnSafety.CancelNeverReachesALaterTurn` | crates/acp-gateway/src/server.rs:152-163 | a cancellation that a lease sees was sent while that lease was outstanding |
| `TurnSafety.CancelledIff` | crates/acp-gateway/src/server.rs:152-174 | a lease sees cancellation if and only if a cancel or a close ran since it was granted |
| `TurnSafety.NoLostWakeUp` | crates/acp-gateway/src/server.rs:176-227 | in all runs a parked waiter is never stranded, although the notification is sent after the lock is released |
| `TurnSafety.WaiterCanProgress` | crates/acp-gateway/src/server.rs:176-189 | while a waiter on a closed turn has not returned, some step towards its return is enabled |
| `TurnSafety.ClosedTurnDrains` | crates/acp-gateway/src/server.rs:176-227 | on a closed turn no step of any task moves a waiter away from returning, and each step towards it strictly lowers a rank |
| `TurnSafety.WaitIdleReturns` | crates/acp-gateway/src/server.rs:176-227 | over whole runs: after `close`, a task in `wait_idle` returns within its rank many steps towards it |
| `AcpSafety.PlacedKept` | crates/acp-gateway/src/server.rs:610-716 | every step of every handler keeps each session in as many places as before, one if it was created |
| `AcpSafety.SessionKept` | crates/acp-gateway/src/server.rs:610-716 | every step keeps a session's turn sound, waited for only when closed, and deletes issued only when no lease is left |
| `AcpPrompts.PairKept` | crates/acp-gateway/src/server.rs:718-849 | every step keeps: the leases of a turn are exactly the prompts between `begin` and the drop |
| `AcpPrompts.CallsKept` | crates/acp-gateway/src/server.rs:796-818 | every step keeps: a runtime call in flight belongs to a prompt of its session that waits for it |
| `AcpPrompts.OnCallKept` | crates/acp-gateway/src/server.rs:937-999 | every step keeps: a prompt that waits for a call has it, and only spawned calls are drained after a cancellation |
| `AcpPrompts.InvKept` | crates/acp-gateway/src/server.rs:610-1241 | the whole invariant of sessions, leases, prompts and calls is inductive over every event |
| `AcpTheorems.ExactlyOnePlace` | crates/acp-gateway/src/server.rs:610-716 | in all runs a created session is in exactly one of: live, retired, in the lock holder's hands, deleted, or failed at shutdown; it is deleted at most once |
| `AcpTheorems.DeleteOnlyWhenQuiet` | crates/acp-gateway/src/server.rs:652-716 | a delete is issued only when the turn is closed, no lease is out and no call of any of the session's prompts is in flight |
| `AcpTheorems.IdleHasNoCalls` | crates/acp-gateway/src/server.rs:796-818 | an idle session has no runtime call in flight, because every branch drains its call before the lease drops |
| `AcpTheorems.NothingAfterDelete` | crates/acp-gateway/src/server.rs:652-716 | after a delete was issued the session never again has a lease or a call |
| `AcpTheorems.CleanupIsFinal` | crates/acp-gateway/src/server.rs:682-716 | after a cleanup both maps stay empty forever, no session is created again and none is in transit |
| `AcpPages.HandOnward` | crates/acp-gateway/src/server.rs:1153-1241 | a page leaves a prompt's hands only by being stored, closed, or left to a session taken for deletion |
| `AcpPages.HandBackward` | crates/acp-gateway/src/server.rs:1153-1226 | a page enters a prompt's hands only through the reply of its own call |
| `AcpPages.PagesKept` | crates/acp-gateway/src/server.rs:718-1241 | the page invariants are inductive over every event |
| `AcpPages.NoPageLost` | crates/acp-gateway/src/server.rs:759-780 | when a prompt drops its lease every page it opened is its session's page, has had its close submitted, or belongs to a session that is no longer live: claimed, retired, deleted or abandoned at shutdown |
| `AcpPages.ClosesOnlyItsOwnPage` | crates/acp-gateway/src/server.rs:1228-1241 | a prompt closes only a page that it opened itself and that nobody stored |
| `AcpPages.StoredPagesStayOpen` | crates/acp-gateway/src/server.rs:1153-1241 | a page that is or was some session's page never has its close submitted, so no failed or cancelled navigation closes an earlier page |
| `AcpPages.DisplacesIffStale` | crates/acp-gateway/src/server.rs:718-780 | storing a page displaces another one exactly when the prompt's snapshot differed from the session's page at `begin` |
| `AcpStaleRun.StalePromptLosesAPage` | crates/acp-gateway/src/server.rs:718-780 | a run in which a live session loses an open page to a stale snapshot |
| `AcpStory.StoresOnlyAfterNavigation` | crates/acp-gateway/src/server.rs:1205-1206 | over events and replies: a prompt stores a page only after it was opened for it, or seen as its session's page and reused, and the runtime then completed its navigation; it stores exactly that page |
| `AcpStory.CallsHaveCause` | crates/acp-gateway/src/server.rs:718-849 | why a prompt asks the runtime: a page only if its session had none, a navigation of a page it got, an intent on its session's page, a checkpoint after evidence, a retry after the gated answer and the granted consent |
| `AcpStory.AnswerDecides` | crates/acp-gateway/src/server.rs:1205-1232 | what each reply leads to: the user is asked exactly after a gated intent, the page is taken exactly after a completed navigation, otherwise an own page is given up |
| `AcpStory.ConsentDecides` | crates/acp-gateway/src/server.rs:1074-1087 | a retry follows exactly a granted consent |
| `AcpStory.AsksNext` | crates/acp-gateway/src/server.rs:718-849 | with no cancellation visible the next call of each stage can be made |
| `AcpStory.TargetDecides` | crates/acp-gateway/src/server.rs:780-790 | the target is the session's page, found exactly if there is one |
| `AcpNavigation.NeverBack` | crates/acp-gateway/src/server.rs:718-849 | in all runs a prompt only goes forward through its stages and never comes back once it has answered |
| `AcpNavigation.NeverLands` | crates/acp-gateway/src/server.rs:1205-1232 | a prompt whose navigation was not completed or was cancelled never stores a page |
| `AcpNavigation.PageAtRelease` | crates/acp-gateway/src/server.rs:758-790 | at its release a prompt leaves its session the page it stored, or else the page it had at `begin` |
| `AcpNavigation.FailedNavigationLeavesNothing` | crates/acp-gateway/src/server.rs:1205-1232 | after a failed or cancelled navigation every page the prompt opened has had its close submitted at release, and the session has the page it had at `begin` |
| `AcpCancel.CancelIsSeen` | crates/acp-gateway/src/server.rs:646-650 | a live session can always be cancelled, and then every prompt that holds its lease sees it |
| `AcpCancel.SeesCancelIff` | crates/acp-gateway/src/server.rs:646-716 | a lease holder sees cancellation if and only if its session was cancelled or closed since its `begin` |
| `AcpCancel.NothingStartsAfterCancel` | crates/acp-gateway/src/server.rs:197-212 | after that it starts no navigation, retry, context or evidence call |
| `AcpCancel.GivesUpOnlyIfCancelled` | crates/acp-gateway/src/server.rs:197-212 | a prompt gives up only if its session was cancelled or closed since its `begin` |
| `AcpCancel.RefusedOnlyWhenBusy` | crates/acp-gateway/src/server.rs:735-740 | a prompt is refused only if its session is closed or another prompt holds the lease |
| `AcpCancel.ReleasedOnlyWhenAnswered` | crates/acp-gateway/src/server.rs:796-818 | a prompt, cancelled or not, releases its lease only after the runtime has answered each page opening, intent, checkpoint and recovery it asked for |
| `AuthorityRecords.RecordList.constructor` | crates/broker/src/authority_persist.rs:101-105 | the list starts as loaded |
| `AuthorityRecords.RecordList.Compact` | crates/broker/src/authority_persist.rs:163-165 | keeps exactly the records that are neither revoked nor expired, in order |
| `AuthorityRecords.RecordList.Mark` | crates/broker/src/authority_persist.rs:177-186 | marks exactly the principal's records |
| `AuthorityRecords.RecordList.Revoke` | crates/broker/src/authority_persist.rs:177-188 | the locked part of a revoke, up to the list that is serialized |
| `AuthorityRecords.RecordList.Issue` | crates/broker/src/authority_persist.rs:189-217 | the locked part of an issue, up to the list that is serialized |
| `AuthorityRecords.AfterRevoke` | crates/broker/src/authority_persist.rs:177-188 | a record is left after a revoke exactly if it was there, is live, and belongs to someone else |
| `AuthorityRecords.AfterIssue` | crates/broker/src/authority_persist.rs:189-217 | a record is left after an issue exactly if it is live and was there or is the new one |
| `AuthorityRecords.Restore` | crates/broker/src/authority_persist.rs:72-99 | the restoring loop of `open`: only listed records get in, the store stays within capacity, it fails only on a record that expired by its turn, and if nothing expires meanwhile it restores exactly the longest fitting prefix |
| `AuthorityPersist.DiskKept` | crates/broker/src/authority_persist.rs:116-157 | every step, failure and crash keeps: a file that the path may name is whole, synced and never the one being written |
| `AuthorityPersist.ViewOrigin` | crates/broker/src/authority_persist.rs:116-157 | every list that a crash may leave after a step was possible before, or is the one just renamed into place |
| `AuthorityPersist.GoneKept` | crates/broker/src/authority_persist.rs:116-188 | a hash dropped by a persist that returned Ok is never listed again |
| `AuthorityPersist.KeptKept` | crates/broker/src/authority_persist.rs:116-217 | a record promised by a persist that returned Ok stays on every possible list until it expires or is revoked |
| `AuthorityPersist.DeadKept` | crates/broker/src/auth.rs:182-220 | a hash that the live store rejected stays rejected; across a restart if it is also off the disk |
| `AuthorityTheorems.NeverTorn` | crates/broker/src/authority_persist.rs:47-66 | in all runs a crash finds no file or a whole one, so the quarantine branch of `open` is never taken |
| `AuthorityTheorems.NoOlderThanLastOk` | crates/broker/src/authority_persist.rs:116-157 | every list a crash can leave after a persist returned Ok is the list of that persist or of a later one |
| `AuthorityTheorems.IssuedSurvives` | crates/broker/src/authority_persist.rs:189-217 | a record whose issue returned Ok is in memory and on every list a crash can leave, until it expires or a revoke of its principal takes the mutex |
| `AuthorityTheorems.RevokedStaysOut` | crates/broker/src/authority_persist.rs:177-188 | a record listed when a revoke that returned Ok took the mutex is on no list ever after |
| `AuthorityTheorems.RestartFollowsMutexOrder` | crates/broker/src/authority_persist.rs:177-217 | of an issue and a revoke of one principal that both returned Ok, a restart finds the record if and only if the revoke took the mutex first |
| `AuthorityTheorems.RevokedNeverAuthenticates` | crates/broker/src/authority_persist.rs:177-188 | a token enrolled before the live half and listed before the locked half of a revoke never authenticates once it returned Ok, restarts included |
| `AuthorityTheorems.ReloadedAuthenticatesIff` | crates/broker/src/authority_persist.rs:47-106 | a surviving record authenticates right after a restart if and only if it fits beside the startup credential |
| `AuthorityTheorems.ReopenKeepsTheLive` | crates/broker/src/authority_persist.rs:47-106 | a restart keeps exactly the records it finds that are neither revoked nor expired |
| `AuthorityLive.LiveIff` | crates/interface-core/src/auth.rs:86-158 | until a crash or its expiry the live store accepts an enrolled token if and only if no revoke of its principal has run its live half since |
| `AuthorityLive.LiveAndRestartAgreeIff` | crates/broker/src/authority_persist.rs:177-217 | of one issue and one revoke that returned Ok, the live store and a restart agree about the token if and only if the two came in the same order in both places |
| `AuthorityLive.RevokeEndsTokenIff` | crates/broker/src/authority_persist.rs:177-217 | the token is rejected now and absent from every crash state if and only if the revoke came second in both places |
| `AuthorityLive.EndedForever` | crates/broker/src/authority_persist.rs:177-217 | and then it is never accepted again, restarts included |
| `AuthorityLive.ExpiredNeverAuthenticates` | crates/interface-core/src/auth.rs:86-158 | an expired token is never accepted, restarts included |
| `AuthorityRevokeRace.RevokedTokenReturns` | crates/broker/src/authority_persist.rs:177-217 | for every token a run in which it is revoked, rejected, and accepted again after a restart |
| `AuthorityRevokeRace.LiveTokenOutlivesRevoke` | crates/broker/src/authority_persist.rs:177-217 | for every token a run in which issue and revoke both return Ok and the token is accepted until a restart |
| `ArtifactSafety.EventChanges` | crates/artifact-store/src/lib.rs:195-295 | every event but a crash makes one allowed change to the file system |
| `ArtifactSafety.TreesKept` | crates/artifact-store/src/lib.rs:454-511 | every harmless change keeps: in each possible directory state published trees are whole and shared with nothing still being built or removed |
| `ArtifactSafety.TreesSurvive` | crates/artifact-store/src/lib.rs:86-95 | so does a crash in any possible directory state |
| `ArtifactTasks.PutOwn` | crates/artifact-store/src/lib.rs:49-69 | each step of a put keeps what the put knows of its staging and final directory |
| `ArtifactTasks.FinBesideFin` | crates/artifact-store/src/lib.rs:350-386 | two finalizers of one nonce do not disturb each other: staging is removed only after publication |
| `ArtifactTasks.InvKept` | crates/artifact-store/src/lib.rs:195-511 | the whole invariant is inductive over puts, drops, finalizers, crashes and sweeps |
| `ArtifactTheorems.PublishedIsWhole` | crates/artifact-store/src/lib.rs:327-348 | in all runs and after a crash at any step a published directory validates for exactly the digest and length of the bytes put, and `get` returns those bytes |
| `ArtifactTheorems.PublishedNeverChanges` | crates/artifact-store/src/lib.rs:408-487 | no step of any put, finalizer or sweep changes or removes a published directory |
| `ArtifactTheorems.ValidatesExactly` | crates/artifact-store/src/lib.rs:489-511 | a directory validates if and only if it holds the bytes of the digest and the manifest that goes with them |
| `ArtifactDurability.DurableForever` | crates/artifact-store/src/lib.rs:454-487 | an artifact published in every possible crash state stays so forever |
| `ArtifactDurability.CommittedForever` | crates/artifact-store/src/lib.rs:49-56 | once a commit or finalize has synced after publication, `get` returns exactly the bytes put at every later time, through any crashes |
| `ArtifactDurability.DurableIff` | crates/artifact-store/src/lib.rs:242-263 | in all runs an artifact is in every possible crash state if and only if an earlier event synced the directory while it was published or was a crash that left it published |
| `ArtifactDurability.SurvivesIff` | crates/artifact-store/src/lib.rs:242-263 | a published artifact survives every crash if and only if an earlier event synced the directory while it was published or was a crash that left it published |
| `ArtifactDurability.EarlyOkCanVanish` | crates/artifact-store/src/lib.rs:242-263 | whenever a content-addressed put is about to rename, a second put of the same bytes can return Ok and be taken back by a crash |
| `ArtifactDurability.FinalizeOkCanVanish` | crates/artifact-store/src/lib.rs:364-371 | a put that fails to sync after its rename can be finalized with Ok and be lost in any crash state from before the rename |
| `ArtifactDurability.SilentOkIff` | crates/artifact-store/src/lib.rs:242-263 | a put or finalizer that returns Ok without a sync of its own is kept by every crash if and only if an earlier event anchored the artifact |
| `ArtifactDurability.PublishedBeforePut` | crates/artifact-store/src/lib.rs:242-263 | an artifact that was published when a put of it began outlives every later crash |
| `ArtifactDurability.PutHitIff` | crates/artifact-store/src/lib.rs:242-263 | a put that finds its artifact is kept by every crash if and only if the artifact was published when the put began or was anchored in between |
| `ArtifactDurability.PendingIsDurable` | crates/artifact-store/src/lib.rs:264-295 | a pending artifact that was handed out has its staging directory in every possible crash state until it is committed |
| `ArtifactTheorems.PutSucceeds` | crates/artifact-store/src/lib.rs:454-487 | a put that meets no I/O error always has a successful next step whatever the others do, and each brings it nearer its end |
| `ArtifactTheorems.PutReturns` | crates/artifact-store/src/lib.rs:454-487 | over whole runs a put that meets no I/O error makes at most thirteen steps of its own, none of them a failure, however the others interleave |
| `ArtifactTheorems.PutEndsPublished` | crates/artifact-store/src/lib.rs:49-56 | a put that returns Ok leaves its bytes published and no staging directory |
| `ArtifactTheorems.FailedPutLeavesNothing` | crates/artifact-store/src/lib.rs:58-69 | nor does a put that failed leave its staging directory, unless removing it failed too |
| `ArtifactTheorems.NoStagingLeft` | crates/artifact-store/src/lib.rs:454-487 | without crashes and I/O errors nothing but published directories is left once all puts have returned |
| `ArtifactFinalize.FinalizeAgain` | crates/artifact-store/src/lib.rs:364-371 | once a finalizer has returned Ok, the same call is accepted at any time until a crash and returns Ok with nothing changed |
| `ArtifactFinalize.FinalizeAccepts` | crates/artifact-store/src/lib.rs:350-372 | for a published artifact `finalize_staged` accepts exactly its digest and length |
| `ArtifactFinalize.FinEndsPublished` | crates/artifact-store/src/lib.rs:350-386 | a finalizer that returns Ok leaves the bytes published and no staging directory |
| `ArtifactFinalize.NothingLeftToDo` | crates/artifact-store/src/lib.rs:350-386 | after that no step of any finalizer of the nonce changes a directory entry or a file until a crash |
| `ArtifactFinalize.FinSucceeds` | crates/artifact-store/src/lib.rs:350-386 | a finalizer that meets no I/O error always has a next step, whatever the others do |
| `ArtifactFinalize.FinReturns` | crates/artifact-store/src/lib.rs:350-386 | over whole runs such a finalizer makes at most six steps of its own |
| `ArtifactFinalize.SweepLeavesPublished` | crates/artifact-store/src/lib.rs:408-435 | a sweep that comes to every staging directory of a booting store leaves exactly the published ones |
| `ArtifactFinalize.SweptOnlyPublished` | crates/page-runtime/src/executor.rs:112-137 | after a complete boot sweep recovery of an earlier nonce succeeds only for an artifact that is published already, and changes nothing |
| `PrincipalPermits.PermitTable.constructor` | crates/broker/src/lib.rs:274-275 | the map starts empty |
| `PrincipalPermits.PermitTable.GetOrCreate` | crates/broker/src/auth.rs:334-350 | the write-locked section: idle semaphores are evicted only from a full map, and the principal's is found or created |
| `PermitMap.BusyEntries` | crates/broker/src/auth.rs:283-304 | entries kept by an eviction are fewer than the requests that hold a global permit |
| `PermitMap.MapIsBounded` | crates/broker/src/auth.rs:326-350 | in all runs the map has at most max(max_principals, max_connections) entries |
| `PermitBound.CurrentKept` | crates/broker/src/auth.rs:326-359 | every step keeps finders and holders on the semaphore the map names, except an eviction while someone has found but not taken |
| `PermitBound.FusedBound` | crates/broker/src/auth.rs:326-359 | with lookup and acquisition as one step no principal ever exceeds its limit, despite eviction |
| `PermitBound.SafeBound` | crates/broker/src/auth.rs:326-359 | with two steps the limit holds in the safe configurations |
| `PermitOvershoot.Overshoot` | crates/broker/src/auth.rs:326-359 | in every other valid configuration some run exceeds it |
| `PermitOvershoot.BoundHoldsIff` | crates/broker/src/auth.rs:326-359 | the limit holds in all runs if and only if the configuration is safe |
| `RuntimeBinding.RuntimeBindingCache.constructor` | crates/broker/src/lib.rs:72-77 | empty, with a capacity of at least one |
| `RuntimeBinding.RuntimeBindingCache.OldestOf` | crates/broker/src/lib.rs:102-108 | finds a least recently used entry |
| `RuntimeBinding.RuntimeBindingCache.Bind` | crates/broker/src/lib.rs:82-116 | returns a runtime of the caller's principal and capabilities: the cached one on a hit, else a new one after sweeping the dead and, if still full, evicting the oldest |
| `RuntimeBinding.RunOk` | crates/broker/src/lib.rs:82-116 | in all runs the cache is within capacity and every entry serves the principal and capabilities it was built for |
| `RuntimeBinding.ServedRightly` | crates/broker/src/lib.rs:82-116 | every call of every run gets a runtime of its own principal and capabilities |
| `RuntimeBinding.NeverADeadHandle` | crates/broker/src/lib.rs:91-96 | what a call with a valid handle gets was built by a call of the same principal and capabilities whose token is not revoked and not expired now |
| `RuntimeBinding.BuildsIff` | crates/broker/src/lib.rs:91-113 | a call gets a new runtime if and only if its principal has no entry, or one with other capabilities or a revoked or expired handle |
| `RuntimeBinding.BuildingSweepsTheDead` | crates/broker/src/lib.rs:97-101 | such a call leaves nobody else's entry with a revoked or expired handle |
| `RuntimeBinding.EvictedWhy` | crates/broker/src/lib.rs:97-110 | an entry that disappears was dead, or the least recently used of a full cache |
| `RuntimeBinding.StaysCached` | crates/broker/src/lib.rs:97-110 | an entry stays while its handle is valid and fewer than `capacity - 1` other principals have called since its last use, or fewer than `capacity` if none of them swapped a live entry of its own |
| `RuntimeBinding.SameRuntime` | crates/broker/src/lib.rs:85-96 | so a repeated call with the same capabilities gets the identical runtime |
| `RuntimeBinding.NeedlessIff` | crates/broker/src/lib.rs:97-113 | in all runs a live entry of someone else is lost although everything would fit if and only if the caller swaps its own live entry, the cache is full and the caller's entry is not the oldest |
| `RuntimeBinding.NeedlessEviction` | crates/broker/src/lib.rs:97-113 | such a call leaves the cache one entry short of its capacity |
| `RuntimeBinding.NeedlessRun` | crates/broker/src/lib.rs:97-113 | for any two principals a run of three calls on a cache of two in which this happens |
| `Lifecycle.InvKept` | crates/broker/src/gateway.rs:11-26 | every interleaving of spawn, stop, drain and task ends keeps the counter equal to the live guards |
| `Lifecycle.CounterIsExact` | crates/broker/src/gateway.rs:11-26 | in all runs the counter equals the number of live guards |
| `Lifecycle.AfterDrain` | crates/broker/src/gateway.rs:38-69 | once a drain has returned nothing runs, the counter is 0 and no later spawn starts a task |
| `Lifecycle.RefusedOnlyAfterStop` | crates/broker/src/gateway.rs:38-50 | a spawn is refused only after a stop, and without one it goes through |
| `IdentifierMap.RemovedAreStale` | crates/cdp-gateway/src/mapping.rs:369-409 | removal takes exactly the identifiers of the session whose generation is not the current one and leaves every other binding alone |
| `IdentifierMap.Bind` | crates/cdp-gateway/src/mapping.rs:79-103 | one identifier per binding: the existing one, or the drawn one |
| `IdentifierMap.BindTwice` | crates/cdp-gateway/src/mapping.rs:79-103 | binding again gives the same identifier and changes nothing |
| `IdentifierMap.AdoptKeepsUniqueIff` | crates/cdp-gateway/src/mapping.rs:128-143 | adopting keeps one identifier per target if and only if no other has that binding |
| `IdentifierMap.AdoptedTwice` | crates/cdp-gateway/src/mapping.rs:128-143 | a bound target for which another identifier is adopted has two |
| `IdentifierMap.SortedStale` | crates/cdp-gateway/src/mapping.rs:397-409 | the identifiers bound to the session at another generation than the current one, each once and in order |
| `IdentifierMap.IdentifierMap.constructor` | crates/cdp-gateway/src/mapping.rs:59-70 | all seven tables are empty |
| `IdentifierMap.IdentifierMap.BindFamily` | crates/cdp-gateway/src/mapping.rs:104-126 | the identifier resolves back to what was bound, other families are untouched, uniqueness is kept |
| `IdentifierMap.IdentifierMap.BindAndResolve` | crates/cdp-gateway/src/mapping.rs:104-265 | what was bound resolves back, and binding never changes what any earlier identifier of any family resolves to |
| `IdentifierMap.IdentifierMap.AdoptTarget` | crates/cdp-gateway/src/mapping.rs:128-143 | binds the given identifier without looking for another |
| `IdentifierMap.IdentifierMap.GenerationEvents` | crates/cdp-gateway/src/mapping.rs:280-367 | announces exactly the identifiers bound to the session at another generation, no event twice, targets after frames, contexts and sessions |
| `IdentifierMap.IdentifierMap.RemoveGeneration` | crates/cdp-gateway/src/mapping.rs:369-391 | exactly the session's bindings of other generations are removed; afterwards all its bindings have the current one |
| `IdentifierMap.IdentifierMap.ChangeGeneration` | crates/cdp-gateway/src/mapping.rs:280-391 | an identifier is announced and removed if and only if it was bound to the session at another generation; no event twice, other sessions untouched, and a second announcement is empty |
| `IdentifierMap.FirstRefusal` | crates/cdp-gateway/src/server.rs:1185-1206 | the announcements are refused if and only if one of them is, with the error of the earliest family |
| `IdentifierMap.Gateway.ReplaceGeneration` | crates/cdp-gateway/src/server.rs:1173-1223 | succeeds if and only if the handle is valid, no announcement is refused and all fit in the queue of 1024; then it queues and removes exactly the session's identifiers of other generations; otherwise nothing changes and the error says which check failed first |
| `FormControls.ElementsCount` | crates/bobby-browser-client/src/forms.rs:519-521 | collecting into a set loses nothing if and only if there are no repetitions |
| `FormControls.HasNoRepeats` | crates/bobby-browser-client/src/forms.rs:519-521 | decides whether a list repeats itself |
| `FormSnapshot.MembershipIff` | crates/bobby-browser-client/src/forms.rs:434-474 | the two membership loops together decide that a control names a group if and only if the group lists it |
| `FormControls.EncodeDecodes` | crates/bobby-browser-client/src/forms.rs:699-709 | the byte encoding that texts are measured in gives back the character |
| `FormControls.ValidateText` | crates/bobby-browser-client/src/forms.rs:699-709 | decides that a text is short enough in UTF-8 bytes, not empty where it must not be, and free of control characters |
| `FormControls.ValidateTarget` | crates/bobby-browser-client/src/forms.rs:642-686 | decides the bounds and texts of a target, its attributes and both its paths |
| `FormControls.ValidateState` | crates/bobby-browser-client/src/forms.rs:575-597 | decides the state of a control: no password shows text, selections and files are bounded |
| `FormControls.ValidateConstraints` | crates/bobby-browser-client/src/forms.rs:599-618 | decides the constraints: texts, accept list, minimum length at most the maximum |
| `FormControls.ValidateValidity` | crates/bobby-browser-client/src/forms.rs:620-640 | decides the validity: a valid control has no flags, no flag twice, bounded lists and texts |
| `FormControls.ValidateControl` | crates/bobby-browser-client/src/forms.rs:523-573 | decides the predicate of one control, check by check |
| `FormControls.ControlExact` | crates/bobby-browser-client/src/forms.rs:523-709 | that predicate holds if and only if, with every bound written out in bytes and numbers, no password shows text, lengths are ordered, a valid control has no flags, lists are bounded and unrepeated and every text is clean |
| `FormSnapshot.ValidateControls` | crates/bobby-browser-client/src/forms.rs:421-433 | decides that a form's controls are in order and their ids new |
| `FormSnapshot.ValidateGroups` | crates/bobby-browser-client/src/forms.rs:434-459 | decides that groups are in order and list only their own controls |
| `FormSnapshot.ValidateNamed` | crates/bobby-browser-client/src/forms.rs:460-474 | decides that every named group exists and lists the control |
| `FormSnapshot.ValidateReferences` | crates/bobby-browser-client/src/forms.rs:479-517 | decides that submit, reset and invalid references are bounded, distinct and resolve to controls of the right kind |
| `FormSnapshot.ValidateForm` | crates/bobby-browser-client/src/forms.rs:414-478 | decides the predicate of one form and that its ids are new |
| `FormSnapshot.ValidateForms` | crates/bobby-browser-client/src/forms.rs:389-400 | decides that all forms are in order with distinct form and control ids |
| `FormSnapshot.ValidateUnowned` | crates/bobby-browser-client/src/forms.rs:401-409 | decides that controls outside any form are in order, with ids new to the snapshot |
| `FormSnapshot.CountControls` | crates/bobby-browser-client/src/forms.rs:378-388 | counts all controls of the snapshot |
| `FormSnapshot.Validate` | crates/bobby-browser-client/src/forms.rs:371-411 | accepts a snapshot if and only if the declarative predicate holds; every control of an accepted one is lawful wherever it is, and so are headers, groups and reference lists |
| `TypingReplay.ReplayThen` | crates/behavioral-engine/src/typing.rs:323-361 | replaying two plans in a row is replaying their concatenation |
| `TypingReplay.Compose` | crates/behavioral-engine/src/typing.rs:323-361 | the composing loop gives the text that replaying the actions leaves |
| `TypingReplay.TypesThen` | crates/behavioral-engine/src/typing.rs:163-232 | plans that type texts type their concatenation, on track throughout |
| `TypingReplay.MistypeTypes` | crates/behavioral-engine/src/typing.rs:210-226 | a wrong key that is taken back leaves nothing |
| `Typing.NearbyTypo` | crates/behavioral-engine/src/typing.rs:279-318 | the wrong key always differs from the right one, is next to it on its row if it is on one, and has the same case |
| `Typing.PushKey` | crates/behavioral-engine/src/typing.rs:263-277 | a key press types its character |
| `Typing.PushMistype` | crates/behavioral-engine/src/typing.rs:210-226 | the mistype branch leaves the text as it was |
| `Typing.BurstEnd` | crates/behavioral-engine/src/typing.rs:188-208 | a paste burst is non-empty, at most ten long, and does not end in whitespace unless the text does |
| `Typing.GenerateActions` | crates/behavioral-engine/src/typing.rs:163-232 | for every text, configuration and random stream the plan appends exactly the text to any field, at every moment at most the last character is wrong, keys are single characters at configured delays, and pastes of at most ten and corrections occur only if configured |
| `Typing.GenerateWithClear` | crates/behavioral-engine/src/typing.rs:235-261 | over a field with any content and selection a clearing plan ends with exactly the value; without clearing it appends it |
| `Typing.RoundTrip` | crates/behavioral-engine/src/typing.rs:163-361 | composing what was generated gives back the text |
| `TypingReplay.SynthesizedTotalMs` | crates/behavioral-engine/src/typing.rs:363-387 | the saturating fold is the sum of all waits of the executor, one per key event, cut off at the largest 64-bit value |
| `MousePath.DeCasteljau` | crates/behavioral-engine/src/mouse.rs:398-416 | the cubic polynomial is three rounds of interpolation |
| `MousePath.BezierInside` | crates/behavioral-engine/src/mouse.rs:398-416 | a curve point lies between any bounds on its four control values |
| `MousePath.Accelerate` | crates/behavioral-engine/src/mouse.rs:418-432 | the eased time stays between 0 and 1 for any non-negative power |
| `MousePath.AccelerateMonotone` | crates/behavioral-engine/src/mouse.rs:418-432 | for a power function that never decreases, nor does the eased time |
| `MousePath.ClampedControl` | crates/behavioral-engine/src/mouse.rs:391-397 | a control value in the box grown by 20% is left alone and any other is brought into it |
| `MousePath.CurveNear` | crates/behavioral-engine/src/mouse.rs:391-416 | with clamped controls the curve stays in the box grown by 20% |
| `MousePath.StampMonotone` | crates/behavioral-engine/src/mouse.rs:300-319 | truncated time stamps never decrease and never pass the duration |
| `MousePath.Curve` | crates/behavioral-engine/src/mouse.rs:296-330 | the sampled curve starts at the start at time 0, ends at the landing point at the duration, never goes back in time and stays in the grown box plus noise |
| `MousePath.FartherAimsLonger` | crates/behavioral-engine/src/mouse.rs:288-291 | a longer way never aims at a shorter time: from a quarter of the span to, at 900 pixels, the longest |
| `MousePath.GeneratePath` | crates/behavioral-engine/src/mouse.rs:246-376 | the whole path does so with or without overshoot; the length of the way fixes the sample count, bounds the duration around its target and bounds the overshoot, which needs more than 20 pixels; the landing point is within the jitter |
| `Scrolling.BounceSmall` | crates/behavioral-engine/src/scrolling.rs:210-218 | a bounce takes back at most a fifth of the scroll, whatever the rounding |
| `Scrolling.GenerateActions` | crates/behavioral-engine/src/scrolling.rs:173-231 | one piece scrolls exactly its delta, once, in its direction, net within a fifth |
| `Scrolling.Chunks` | crates/behavioral-engine/src/scrolling.rs:255-280 | the chunk loop scrolls exactly the distance in at most 64 pieces, of which only the 64th may be longer than the chunk size |
| `Scrolling.DropPauses` | crates/behavioral-engine/src/scrolling.rs:282-286 | the pop loop drops exactly the trailing pauses and no movement |
| `Scrolling.GenerateToPosition` | crates/behavioral-engine/src/scrolling.rs:236-296 | the scrolls sum to the requested distance, all in its direction, in at most 64 chunks of four fifths of the viewport but for the last; net with bounces within a fifth; exactly one trailing pause |
| `EditDistance.Distance` | scripts/vision-mlx/eval_provider.py:346-353 | the rolling rows compute the recursive Levenshtein distance |
| `EditDistance.ScriptAtLeast` | scripts/vision-mlx/eval_provider.py:346-353 | no edit script is shorter than the distance |
| `EditDistance.BestScript` | scripts/vision-mlx/eval_provider.py:346-353 | some script is exactly that long |
| `EditDistance.DistanceIsLeastScript` | scripts/vision-mlx/eval_provider.py:346-353 | the distance is the length of a shortest edit script |
| `EditDistance.Symmetric` | scripts/vision-mlx/eval_provider.py:346-353 | the distance is symmetric |
| `EditDistance.ZeroOnlyWhenEqual` | scripts/vision-mlx/eval_provider.py:346-353 | it is zero exactly on equal strings |
| `EditDistance.Triangle` | scripts/vision-mlx/eval_provider.py:346-353 | it satisfies the triangle inequality |
| `EditDistance.LengthBounds` | scripts/vision-mlx/eval_provider.py:346-353 | it lies between the difference of the lengths and the longer length |
| `BoxMatch.IouInRange` | scripts/perception/detector_data.py:34-41 | the overlap ratio of non-negative boxes is between 0 and 1 |
| `BoxMatch.InterIsCommonArea` | scripts/perception/detector_data.py:34-41 | the intersection is the area of the box of all common points |
| `BoxMatch.IouIsShare` | scripts/perception/detector_data.py:34-41 | the ratio times the area of the union is the intersection |
| `BoxMatch.IouSymmetric` | scripts/perception/detector_data.py:34-41 | it is symmetric |
| `BoxMatch.IouOneIffSame` | scripts/perception/detector_data.py:34-41 | boxes with area have ratio 1 if and only if they are the same |
| `BoxMatch.GreedyUnique` | scripts/perception/detector_data.py:44-59 | the greedy decisions determine the matching |
| `BoxMatch.GreedyAdmissible` | scripts/perception/detector_data.py:44-59 | it is one-to-one and pairs only boxes at or above the threshold |
| `BoxMatch.GreedyMaximal` | scripts/perception/detector_data.py:44-59 | every good pair has its prediction or its true box matched |
| `BoxMatch.GreedyAtLeastHalf` | scripts/perception/detector_data.py:44-59 | any admissible one-to-one matching has at most twice as many pairs |
| `BoxMatch.Match` | scripts/perception/detector_data.py:44-59 | the loops compute the greedy matching and return its size and the two lengths |

## Left out

- HTTP, WebSocket and stdio plumbing, serialization, header parsing and the builders of commands.
- Real SHA-256, UUID generation, wall clocks that run backwards, floating-point rounding and non-finite numbers.
- Mutex poisoning, handler futures that are dropped half-way, and rename semantics of Windows.
- The text of error messages: validators and handlers are modelled by success and failure.
- The ACP handlers, the authority's persist steps, the artifact steps, admission and the lifecycle are machines over values rather than methods on objects, because their steps interleave; `SharedTurn`, `RecordList`, `PermitTable`, `RuntimeBindingCache`, `IdentifierMap` and `Gateway` are objects.
- The refusal of oversized or badly typed artifacts, PNG dimensions and the resolution of manifests written by other programs.
- A finalizer that runs while the put of the same nonce is still live: the model starts finalizers only on nonces without a live put.
- A sweep of the artifact store while another process publishes into the same directory.
- Hover dwell times and approach paths of the mouse, clamping of element-local paths, and the plain `generate_actions` wrapper of scrolling.
- Escalation policy, capability tables, job status, behavioral scoring, model training and release scripts: settled by reading one branch, or heuristics.
- AuthorityPersist.KeptKept: expiry is judged by a clock that never runs backwards.
- MousePath.GeneratePath: the power function is any non-negative one, and reals stand for floating point, so the square root is exact.
- IdentifierMap.Bind: a drawn identifier is assumed not to be in the table yet.
- IdentifierMap.Gateway.ReplaceGeneration: the checks of the handle, the event registry and the capabilities are given by their outcomes; waking the reader of the queue is not modelled.
- AcpTheorems.DeleteOnlyWhenQuiet: a cancelled prompt drops the future of a navigation or a vision retry that it awaits inline, and the model takes that call to be over; what the runtime still does for a dropped call is not seen.
- AuthorityTheorems.ReloadedAuthenticatesIff: the startup credential is live at the reboot and the clock stands still while `open` restores; `AuthorityRecords.Restore` covers a clock that moves.
- ArtifactFinalize.SweptOnlyPublished: a sweep that leaves a staging directory behind, because removing it failed, is outside this statement; the machine lets the boot go on from there.
