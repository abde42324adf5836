# Storage protocols of UniDocs, modelled and proved

UniDocs keeps documents, refresh tokens, delta logs, administrators and leases in small sets of tables
that several clients change by atomic conditional statements. Clients crash between statements, repeat
calls whose reply was lost, and interleave. This project models those protocols and proves what every
run of them keeps.

Each protocol is given three times, in this order:

* as functions on the values of its tables, one per statement, batch or transaction;
* as classes whose methods update the same tables the way the source does, proved to do exactly what the
  functions say;
* as a machine of steps, in which any number of clients in flight are interleaved with crashes, lost
  replies and the passage of time. The theorems are about all runs of these machines.

Beside what every run keeps, each operation has a theorem that says how it ends from any reachable state if
nobody interferes: exactly when it is accepted, what each refusal means, and row by row what it leaves.

`dafny verify dfyconfig.toml` checks everything.

| file | contents |
|---|---|
| `PlatformDocument.dfy` | the platform document: head, versions, creation and intents of one durable object |
| `PlatformProtocol.dfy` | creators, committers, resumers and editor commits interleaved over a document and a root store |
| `PlatformCoordinator.dfy` | the coordinator's methods, others running between their calls, each a client of the protocol |
| `OAuthFamilies.dfy`, `OAuthStores.dfy`, `OAuthInterleaving.dfy` | refresh-token families on D1 and on Postgres, the D1 calls interleaved, and runs of the Postgres store |
| `DeltaLog.dfy`, `PgDeltaLog.dfy` | the delta log on a durable object and on Postgres at READ COMMITTED, and the unit of work |
| `SnapshotReplay.dfy`, `DocumentSession.dfy` | rebuilding versions from snapshots and deltas, the session that does it, and its runs with restarts and reloads |
| `SnapshotCache.dfy` | the two-step read of the snapshot blob |
| `RootTransition.dfy`, `EditorSettlement.dfy` | reference-count changes of a settlement, and settlements and exports with crashes and retries |
| `CommitJournal.dfy` | the commit journal with its local finaliser |
| `ContractRegistry.dfy`, `RegistryLaws.dfy` | contracts and settings of document types under optimistic writes with receipts, and what the writes say and answer |
| `AdminAccess.dfy`, `AdminLaws.dfy` | administrators, session families and sessions, and what each batch does to them |
| `AgentLease.dfy` | the run lease and the run request |
| `AuditPages.dfy` | keyset pagination of the audit log |
| `PlatformNonces.dfy`, `DocumentDirectory.dfy` | nonce windows, and the gateway's document directory |

## Assumptions

* SHA-256 digests, entity tags, contract hashes and fingerprints are equal only for equal contents; each
  is modelled by what it is taken over. Tokens, hashes of tokens and fresh identifiers are opaque.
* A D1 batch, a durable object's synchronous transaction and a locked Postgres transaction take effect
  at one moment or not at all. A call that fails at any point is a client that takes no further step.
* The coordinator is the only caller of `createRetained` and `commitRetained`. Counts in a content store
  are the share one document or session has in it.
* Primary keys, unique indexes and checks are those of the repository's migrations.
* Encoding and decoding of stored values round-trips.

## Where the code and its promises part

* D1 and Postgres answer a refresh rotation differently on a consumed, expired token of an open family,
  and on a rotation repeated at the very second of the first one with the same successor: D1 then inserts
  a second time and fails. `OAuthFamilies.D1RefinesPostgres` says that these are the only differences.
* `createRetained` refuses a repeated creation once the head is past 1, although `beginCreate` accepts it;
  `PlatformProtocol.RepeatedCreation` says exactly when.
* A removal on Postgres can leave a hole under an append in flight, as its comment says, and when the head
  moved on after its snapshot. `PgDeltaLogs.RemovalLeavesHoleIffOverlapped` gives the exact condition,
  `PgDeltaLogs.DocumentedRace` a run.
* A rollback appends an empty delta. A session reloads right as long as a cached or snapshotted version at
  or after each rollback is there when it loads, `SessionRuns.NothingApartPassed`. Otherwise the document
  shows its state before the rollback again, and the session then works on that: `SessionRuns.LossyLoadIsKept`
  is a run in which a snapshot keeps it, `SessionRuns.LoadIsLossyIff` says when the replay differs.
* An edit whose root references failed and whose delta then cannot be removed is reported as failed and stays
  in the log. Edits of what the session shows conflict until it is loaded anew or rolled back,
  `SessionRuns.StaleEditsConflict`; one sent for the newer version is applied without the failed one, which a
  reload brings back, `SessionRuns.FailedEditReturns`.
* A snapshot exported for a version without one is retained beside the snapshot held before it, and nothing
  releases that one later. `EditorSettlements.WhatIsLost` says exactly when a reference is lost.
* Blank version metadata of a snapshot blob reads as version 0, although the comment promises a miss for
  anything unusable; the model keeps the code's reading, `SnapshotCaches.BlankReadsAsVersionZero`.
* An update of a document type is conditioned on the tag its caller sent, not on the row it was computed
  from. That is as good, `RegistryProtocol.UpdatesAreComputedFromWhatTheyReplace`, unless a registration comes
  back exactly as it was, its time included; `RegistryProtocol.EveryReturnLetsAnUpdateGoStale` finds a stale
  update at every such return, and `RegistryProtocol.RecurrenceUndoesAnUpdate` is a run with one.
* A transaction whose callback caught the error of a failed statement commits nothing and returns normally. A
  pooled Postgres connection is left inside a transaction when the reply of its BEGIN was lost.
* A run lease does not exclude by itself, and releasing it is not fenced. At most one run is in progress, and
  each starts from what the last end or reset left, if and only if none begins while a run in progress has
  outlived its lease or been reset, `LeaseRuns.LeaseChain`; `LeaseRuns.LateReleaseFreesSuccessor` is a run in
  which a third run starts beside the second.
* `markReady` may lower the version of a ready document; `DirectoryTables.VersionFallsOnlyByMarkReady`
  says that nothing else does.

## Model

| member | source | states |
|---|---|---|
| PlatformDocuments.PlatformDocument.BeginCreate | packages/cloudflare-gateway/src/platform-document-do.ts:86-111 | the creation intent recorded or found again, with every refusal, on all four tables |
| PlatformDocuments.PlatformDocument.CreateRetained | packages/cloudflare-gateway/src/platform-document-do.ts:113-143 | version 1 written and the intent deleted, or the existing version 1 returned, with every refusal |
| PlatformDocuments.PlatformDocument.BeginCommit | packages/cloudflare-gateway/src/platform-document-do.ts:151-172 | the call as it runs undisturbed: a pending or rejected intent against the head, or the stored receipt of the same payload |
| PlatformDocuments.PlatformDocument.ReadForCommit | packages/cloudflare-gateway/src/platform-document-do.ts:151-154 | its first part, before the digest is awaited: the identity, or the refusal of the arguments or of a missing document |
| PlatformDocuments.PlatformDocument.RecordIntent | packages/cloudflare-gateway/src/platform-document-do.ts:155-172 | its transaction, after whatever ran meanwhile: the intent recorded against the head, or the stored receipt or refusal |
| PlatformDocuments.PlatformDocument.CommitRetained | packages/cloudflare-gateway/src/platform-document-do.ts:174-196 | the pending intent published as the next version, or its terminal receipt, with every refusal |
| PlatformDocuments.PlatformDocument.CommitStatus | packages/cloudflare-gateway/src/platform-document-do.ts:198-203 | the receipt of an operation, or that it is unknown |
| PlatformDocuments.PlatformDocument.PendingCommit | packages/cloudflare-gateway/src/platform-document-do.ts:205-212 | the candidate of a pending operation and nothing for any other |
| PlatformCoordinator.RootRetention.RetainRoot | packages/cloudflare-gateway/src/platform-root-retention.ts:26-32 | one more reference the first time a request id is used, none when it is repeated |
| PlatformCoordinator.Coordinator.CreatePlatformDocument | packages/cloudflare-gateway/src/platform-commit-coordinator.ts:30-43 | the three awaited calls of a creation are those of the protocol's creator; whatever others do between its calls it ends as that client, and alone with exactly its effect |
| PlatformCoordinator.Coordinator.CommitPlatformDocument | packages/cloudflare-gateway/src/platform-commit-coordinator.ts:45-56 | begin, then resume if pending, as the protocol's committer; whatever others do between its calls it ends as that client, and alone with exactly its effect |
| PlatformCoordinator.Coordinator.ResumePlatformCommit | packages/cloudflare-gateway/src/platform-commit-coordinator.ts:58-71 | look up, retain, finalise or read the status, as the protocol's resumer; whatever others do between its calls it ends as that client, and alone with exactly its effect |
| PlatformCoordinator.Coordinator.CommitPlatformEditorSnapshot | packages/cloudflare-gateway/src/platform-editor-commit.ts:15-35 | check the status, then resume, return, or capture and commit, as the protocol's editor client; whatever others do between its calls it ends as that client, and alone with exactly its effect |
| PlatformProtocol.RootConservation | packages/cloudflare-gateway/src/platform-commit-coordinator.ts:30-71 | in every run each hash's references equal the versions carrying it plus the unfinalised root for it; visible versions are retained, rejected operations retain nothing, at most one root is unfinalised |
| PlatformProtocol.VersionsMatchIntents | packages/cloudflare-gateway/src/platform-document-do.ts:151-196 | versions are exactly 1 to the head, each after the first is one committed intent with its hash and number, at most one intent is pending and on the head |
| PlatformProtocol.Agreement | packages/cloudflare-gateway/src/platform-editor-commit.ts:23-34 | a commit that returns has a terminal receipt; all calls of an operation that ever return one, bare resumes among them, return the same; its hash and terminal receipt never change |
| PlatformProtocol.CreatorsAgree | packages/cloudflare-gateway/src/platform-commit-coordinator.ts:30-43 | all creators that succeed return the same identity and version 1 |
| PlatformProtocol.ImpossibleErrorsNeverHappen | packages/cloudflare-gateway/src/platform-document-do.ts:182-185 | no run raises pending_head_changed, meets an invalid stored receipt, loses a pending commit or is refused retention |
| PlatformProtocol.ResumingFinishes | packages/cloudflare-gateway/src/platform-commit-coordinator.ts:58-71 | a pending commit in any reachable state is finished by one undisturbed resume, with all references balanced |
| PlatformProtocol.CommittingEnds | packages/cloudflare-gateway/src/platform-commit-coordinator.ts:45-56 | from any reachable state a commit left alone becomes the next version with its hash and time if it is on the head and nothing is pending, is rejected off the head, and repeats what is stored; it throws exactly for another payload of its operation or beside another pending commit |
| PlatformProtocol.EditorCommitEnds | packages/cloudflare-gateway/src/platform-editor-commit.ts:15-35 | an editor's commit ends as the commit of what it captured if its operation is new, and else as what that became |
| PlatformProtocol.ResumingReports | packages/cloudflare-gateway/src/platform-commit-coordinator.ts:58-71 | a resume of what is not pending reports the stored receipt or that the operation is unknown |
| PlatformProtocol.CreatingEnds | packages/cloudflare-gateway/src/platform-commit-coordinator.ts:30-43 | a creation left alone succeeds exactly if nothing but this very document was begun or created and no commit followed; version 1 then has its hash and its root is counted |
| PlatformProtocol.RefusedArguments | packages/cloudflare-gateway/src/platform-document-do.ts:151-154 | malformed calls and commits of no document end in their error and change nothing |
| PlatformProtocol.RepeatedCreation | packages/cloudflare-gateway/src/platform-document-do.ts:121-127 | repeating a finished creation succeeds if and only if the head is still 1 |
| OAuthStores.D1RefreshTokens.PutInitial | packages/cloudflare-gateway/src/oauth-d1.ts:182-213 | family and first token inserted, conflicts ignored, nothing for a revoked or foreign family |
| OAuthStores.D1RefreshTokens.Rotate | packages/cloudflare-gateway/src/oauth-d1.ts:215-269 | the batch, the read and the replay batch, with every answer |
| OAuthStores.D1RefreshTokens.RotateBatch | packages/cloudflare-gateway/src/oauth-d1.ts:220-244 | the guarded update and the insert selected by it, all or nothing |
| OAuthStores.D1RefreshTokens.ReplayBatch | packages/cloudflare-gateway/src/oauth-d1.ts:256-267 | the family revoked and all its tokens consumed, earlier times kept |
| OAuthStores.D1RefreshTokens.Revoke | packages/cloudflare-gateway/src/oauth-d1.ts:271-281 | the family of a client's own token revoked, and no other |
| OAuthStores.D1RefreshTokens.CleanupExpired | packages/cloudflare-gateway/src/oauth-d1.ts:397-406 | expired tokens deleted, then families left without tokens |
| OAuthStores.PgRefreshTokens.PutInitial | packages/azure-gateway/src/oauth-pg.ts:173-198 | a new family with its token, nothing for a known family, a rollback if the token collides |
| OAuthStores.PgRefreshTokens.Rotate | packages/azure-gateway/src/oauth-pg.ts:200-256 | the locked transaction with every answer |
| OAuthStores.PgRefreshTokens.Revoke | packages/azure-gateway/src/oauth-pg.ts:258-266 | the family of a client's own token revoked, and no other |
| OAuthStores.PgRefreshTokens.CleanupExpired | packages/azure-gateway/src/oauth-pg.ts:350-371 | expired tokens deleted, then families left without tokens |
| OAuthFamilies.FamilyIsAChain | packages/azure-gateway/src/oauth-pg.ts:173-256 | the tokens of every family, revoked or not, are one sequence, each consumed with the next as its successor, numbered from 0, of one owner, one grant and one expiry; in a family not revoked the last is the one unconsumed token |
| OAuthFamilies.RotationKeepsFamilies | packages/cloudflare-gateway/src/oauth-d1.ts:220-244 | a rotation extends the chain of its family and leaves the others chains |
| OAuthFamilies.ReplayKeepsFamilies | packages/cloudflare-gateway/src/oauth-d1.ts:256-267 | closing a replayed family keeps every family a chain |
| OAuthFamilies.RevokeKeepsFamilies | packages/cloudflare-gateway/src/oauth-d1.ts:271-281 | revoking by token keeps every family a chain |
| OAuthFamilies.PgRotateKeepsFamilies | packages/azure-gateway/src/oauth-pg.ts:200-256 | the Postgres rotation, whatever it answers, keeps every family a chain |
| OAuthFamilies.D1PutInitialKeepsFamilies | packages/cloudflare-gateway/src/oauth-d1.ts:182-213 | a first token starts a chain or changes nothing |
| OAuthFamilies.PgPutInitialKeepsFamilies | packages/azure-gateway/src/oauth-pg.ts:173-198 | a first token starts a chain or changes nothing |
| OAuthFamilies.CleanupIsAllOrNothing | packages/azure-gateway/src/oauth-pg.ts:359-371 | cleanup removes the tokens of a family all together or not at all |
| OAuthFamilies.CleanupKeepsFamilies | packages/cloudflare-gateway/src/oauth-d1.ts:397-406 | what cleanup leaves are whole chains |
| OAuthFamilies.InsertMeansOwnUpdate | packages/cloudflare-gateway/src/oauth-d1.ts:220-250 | from a sound store a batch that inserted did so because its own update took effect |
| OAuthFamilies.D1RotationMeans | packages/cloudflare-gateway/src/oauth-d1.ts:215-269 | exactly when a D1 rotation rotates, detects a replay, throws or is invalid; the successor has the family, owner, grant and expiry of the old row, the next number and this time, and no other row changes |
| OAuthFamilies.PgRotationMeans | packages/azure-gateway/src/oauth-pg.ts:200-256 | the same of the Postgres rotation, which never throws |
| OAuthFamilies.D1FirstTokenMeans | packages/cloudflare-gateway/src/oauth-d1.ts:182-213 | exactly when a first token is stored, as given, in a family of its owner |
| OAuthFamilies.PgFirstTokenMeans | packages/azure-gateway/src/oauth-pg.ts:173-198 | exactly when a first token is stored, ignored or rolled back |
| OAuthFamilies.RevocationMeans | packages/cloudflare-gateway/src/oauth-d1.ts:271-281 | a client's own token revokes its family and keeps an earlier time; a call of any other client changes nothing |
| OAuthFamilies.CleanupMeans | packages/cloudflare-gateway/src/oauth-d1.ts:397-406 | exactly the unexpired tokens and the families that have one remain, as they were |
| OAuthFamilies.D1RefinesPostgres | packages/azure-gateway/src/oauth-pg.ts:200-256 | the undisturbed D1 rotation gives the Postgres answer and tables if and only if the token is not one of the two named exceptions |
| OAuthInterleaving.FamiliesStayChains | packages/cloudflare-gateway/src/oauth-d1.ts:182-281 | every family, revoked or not, is such a chain in every state of every interleaving |
| OAuthInterleaving.EachIssueRotatesOnce | packages/cloudflare-gateway/src/oauth-d1.ts:215-250 | between any two rotations of a token hash, and before the first, that hash was issued |
| OAuthInterleaving.WinnersRotatedOnce | packages/cloudflare-gateway/src/oauth-d1.ts:215-250 | a call that answers `rotated` made exactly one rotation, of its own token |
| OAuthInterleaving.ClosedFamiliesDoNotRotate | packages/cloudflare-gateway/src/oauth-d1.ts:252-268 | after a family was revoked no token of it rotates, unless the family row was deleted and opened anew |
| OAuthInterleaving.InsertsAreOwnUpdates | packages/cloudflare-gateway/src/oauth-d1.ts:220-250 | in any reachable state a rotation batch that inserts has consumed the current token itself |
| OAuthInterleaving.AloneCallRotates | packages/cloudflare-gateway/src/oauth-d1.ts:215-269 | the three statements of a call that nobody disturbs are the whole rotation |
| OAuthInterleaving.LogTellsChanges | packages/cloudflare-gateway/src/oauth-d1.ts:182-281 | the log of a run is what its steps did: a hash issued or rotated and a family opened or closed exactly when its row changes so |
| PgOAuthRuns.LogTellsChanges | packages/azure-gateway/src/oauth-pg.ts:173-266 | the same of the Postgres store |
| PgOAuthRuns.FamiliesStayChains | packages/azure-gateway/src/oauth-pg.ts:173-266 | every family of the Postgres store is such a chain after any run of its transactions |
| PgOAuthRuns.RotationsAreEarned | packages/azure-gateway/src/oauth-pg.ts:200-256 | on Postgres too an issue lies before each rotation of a hash, and a new opening of the family between its closing and a rotation |
| DeltaLogs.DoDeltaLog.Append | packages/cloudflare-sdk/src/ports-cf.ts:74-88 | the delta is added if its version follows the head, else the head and the attempt are reported |
| DeltaLogs.DoDeltaLog.Head | packages/cloudflare-sdk/src/ports-cf.ts:92-96 | the number of deltas |
| DeltaLogs.DoDeltaLog.Since | packages/cloudflare-sdk/src/ports-cf.ts:99-110 | the deltas after a version, in order |
| DeltaLogs.DoDeltaLog.Range | packages/cloudflare-sdk/src/ports-cf.ts:113-137 | the deltas between two optional bounds, in order |
| DeltaLogs.DoDeltaLog.Remove | packages/cloudflare-sdk/src/ports-cf.ts:149-154 | the newest delta is taken back, any other version is left alone |
| DeltaLogs.DoDeltaLog.LatestSnapshotRef | packages/cloudflare-sdk/src/ports-cf.ts:157-170 | the recorded snapshot of greatest version within the bound |
| DeltaLogs.DoDeltaLog.RecordSnapshot | packages/cloudflare-sdk/src/ports-cf.ts:173-180 | the snapshot of a version inserted or replaced, the deltas untouched |
| DeltaLogs.DoDeltaLog.CountSince | packages/cloudflare-sdk/src/ports-cf.ts:183-190 | how many deltas follow a version |
| DeltaLogs.VersionsAreExact | packages/cloudflare-sdk/src/ports-cf.ts:74-154 | after any conditional appends and removals versions are exactly 1 to the head |
| DeltaLogs.RemoveUndoesOnlyTheLastAppend | packages/cloudflare-sdk/src/ports-cf.ts:139-154 | removing the version just appended restores the log, removing any other changes nothing |
| DeltaLogs.AppendsFollowTheHead | packages/cloudflare-sdk/src/ports-cf.ts:74-96 | after any calls a delta is appended exactly if its version follows the greatest one, which it is told otherwise |
| DeltaLogs.RangesSelect | packages/cloudflare-sdk/src/ports-cf.ts:113-137 | a range is the deltas within its bounds, each once, by rising version without gap |
| DeltaLogs.LaterSelect | packages/cloudflare-sdk/src/ports-cf.ts:99-110 | the deltas after a version, and so their count |
| PgDeltaLogs.LogStaysGapFree | packages/azure-sdk/src/ports-pg.ts:63-114 | versions stay exactly 1 to the head in any interleaving in which no removal commits under an append that saw its row |
| PgDeltaLogs.AppendRaces | packages/azure-sdk/src/ports-pg.ts:90-114 | of any interleaved appends each version is won by one call; a loser that started from the right head is told a head that covers its version |
| PgDeltaLogs.AloneAppendEnds | packages/azure-sdk/src/ports-pg.ts:90-114 | an append left alone wins its version exactly if that follows the head, and is told head and attempt otherwise |
| PgDeltaLogs.AloneRemovalEnds | packages/azure-sdk/src/ports-pg.ts:157-196 | a removal left alone deletes its row exactly if that is the head |
| PgDeltaLogs.RollbackFreesVersion | packages/azure-sdk/src/ports-pg.ts:63-114 | an insert waits for the holder of its version and goes through once that rolled back |
| PgDeltaLogs.RemovalLeavesHoleIffOverlapped | packages/azure-sdk/src/ports-pg.ts:157-196 | a committing removal opens the way to a hole, by appends alone, if and only if the head has moved past its row or an append that saw it as the head is in flight |
| PgDeltaLogs.DocumentedRace | packages/azure-sdk/src/ports-pg.ts:163-184 | a run from the empty log that ends with version 2 alone |
| PgUnitsOfWork.WithTransaction | packages/azure-sdk/src/ports-pg.ts:297-334 | committed exactly on a normal return of a transaction that no statement aborted, or when only the commit's reply was lost; a failed rollback destroys the connection; a pooled one has a transaction open only after a lost BEGIN reply |
| SnapshotReplay.ReplayPreservesMeaning | packages/cloudflare-sdk/src/ports-cf.ts:99-180 | for any fold and any run that removes no stored version, nearest snapshot or cache plus later deltas equals the full replay from the initial document |
| SnapshotReplay.RebuildIsExact | packages/doctype-server-common/src/session.ts:702-730 | rebuilding a version from its nearest snapshot shows what it showed, if the versions between show their operations |
| SnapshotReplay.CacheIsExact | packages/doctype-server-common/src/session.ts:193-238 | the same from a cached pair of any version |
| SnapshotReplay.ReusedSnapshotVersion | packages/cloudflare-sdk/src/ports-cf.ts:139-180 | a snapshotted version removed and written again is rebuilt right if and only if both contents coincide |
| SnapshotReplay.RollbackIsReplayedAsNothing | packages/doctype-server-common/src/session.ts:735-740 | deltas after a rollback, replayed from before it, run on the document before the rollback |
| SnapshotReplay.RollbackSurvivesReload | packages/doctype-server-common/src/session.ts:190-246 | a rollback is rebuilt as rolled back if and only if the document before it, with no operations applied, is the target's |
| SnapshotReplay.RollbackLost | packages/doctype-server-common/src/session.ts:735-740 | two edits, a rollback and a lost cache: the reload is not the target |
| DocumentSessions.DocumentSession.Load | packages/doctype-server-common/src/session.ts:190-246 | the document rebuilt from the cache, else the newest snapshot, else nothing; a lost blob is corruption; the cache is refreshed if anything was replayed |
| DocumentSessions.DocumentSession.Rollback | packages/doctype-server-common/src/session.ts:699-752 | the target rebuilt and appended as an empty delta, cached, snapshotted when due so that fewer than twenty deltas follow the nearest start |
| DocumentSessions.DocumentSession.WriteSnapshot | packages/doctype-server-common/src/session.ts:317-346 | the document stored under its digest and recorded for the version in memory |
| SessionRuns.CompensationRestores | packages/doctype-server-common/src/session.ts:658-669 | an apply whose root references failed and whose delta was taken back leaves ports and memory as it found them |
| SessionRuns.BehindByFailedCompensation | packages/doctype-server-common/src/session.ts:658-673 | the memory falls behind the log exactly when that delta could not be taken back |
| SessionRuns.StaleEditsConflict | packages/doctype-server-common/src/session.ts:620-624 | a session that is behind refuses every edit of the version it shows until it is loaded anew or rolled back |
| SessionRuns.FailedEditReturns | packages/doctype-server-common/src/session.ts:620-673 | an edit reported as failed is missing from the version written next and back after a reload |
| SessionRuns.RightUnlessLossyLoad | packages/doctype-server-common/src/session.ts:190-246 | memory, cache and snapshots are what their versions showed at every point of a run if and only if no load in it was lossy |
| SessionRuns.LoadIsLossyIff | packages/doctype-server-common/src/session.ts:190-246 | while all is right a load is lossy if and only if a rollback, or an edit of a memory that was behind, lies after everything stored and the deltas after the last such one tell its replay from what it showed |
| SessionRuns.NothingApartPassed | packages/doctype-server-common/src/session.ts:190-246 | no load is lossy and all stays right if before each load every rollback, and every edit of a memory that was behind, had a cached or snapshotted version at or after it |
| SessionRuns.ReloadShowsWhatWasShown | packages/doctype-server-common/src/session.ts:699-733 | in a run without a lossy load a version rebuilds to what it showed if none of those lies after its nearest snapshot, and with one exactly under the stated condition; the empty creation delta is never replayed onto a blank document |
| SessionRuns.RollbackShowsTarget | packages/doctype-server-common/src/session.ts:699-752 | a rollback shows what its target showed, by an empty delta, if no version written apart lies after the target's nearest snapshot |
| SessionRuns.StoredIsLoaded | packages/doctype-server-common/src/session.ts:190-246 | a session that cached or snapshotted its document loads it back after a restart |
| SessionRuns.LossyLoadIsKept | packages/doctype-server-common/src/session.ts:755-773 | create, edit, roll back, lose the cache, restart: the load shows the edit again and a snapshot keeps it |
| SnapshotCaches.BlobSnapshotCache.Get | packages/azure-sdk/src/ports-blob.ts:242-266 | within three attempts a pair the blob held at one moment of the call, or a miss with its reason; other errors are thrown; exact when nobody else writes |
| SnapshotCaches.BlobSnapshotCache.Put | packages/azure-sdk/src/ports-blob.ts:268-274 | a successful put is what a read at that moment answers |
| SnapshotCaches.ReadablePairsArePuts | packages/azure-sdk/src/ports-blob.ts:225-241 | a pair that was readable was written, version and bytes, by one single put |
| SnapshotCaches.BlankReadsAsVersionZero | packages/azure-sdk/src/ports-blob.ts:248-260 | a read misses exactly when the blob is deleted or carries no number; blank metadata is version 0 |
| SnapshotCaches.ErrorsAreTold | packages/azure-sdk/src/ports-blob.ts:44-86 | which storage errors mean missing and which a failed precondition; a code decides alone, the one in the details before the other |
| RootTransitions.RootTransitionChanges | packages/cloudflare-sdk/src/root-transition.ts:36-60 | the tally with its zero entries deleted is the difference of the retained counts |
| RootTransitions.TransitionBalances | packages/cloudflare-sdk/src/root-transition.ts:28-35 | every hash's count moves from the previous to the next retained set, with an entry exactly when it changes |
| RootTransitions.EmptyIffUnchanged | packages/cloudflare-sdk/src/root-transition.ts:9-12 | the map is empty if and only if no count changes |
| RootTransitions.ChangesTelescope | packages/cloudflare-sdk/src/root-transition.ts:1-13 | over any settlements the changes sum to one reference for the newest delta plus one for the newest snapshot |
| EditorSettlements.SettlementIsNeverRefused | packages/cloudflare-sdk/src/editor-do-svalue.ts:446-458 | a retried settlement is idempotent or applies; its id never means other changes and no count goes below zero |
| EditorSettlements.ExportIsNeverRefused | packages/cloudflare-sdk/src/editor-do-svalue.ts:688-712 | nor is the retried reference of an exported snapshot |
| EditorSettlements.StoreFollowsEditor | packages/cloudflare-sdk/src/editor-do-svalue.ts:417-487 | the store counts the roots of the rows, or already those of the pending version, an export without a row yet, and what was lost |
| EditorSettlements.SettlementsConserveRoots | packages/cloudflare-sdk/src/editor-do-svalue.ts:417-581 | through exports, crashes and lost replies the store ends with exactly what the rows hold and what was lost, and a pending version is finished by two undisturbed steps |
| EditorSettlements.SettlementsAloneLoseNothing | packages/cloudflare-sdk/src/editor-do-svalue.ts:417-581 | without exports it ends with exactly the newest delta and the newest snapshot |
| EditorSettlements.UndisturbedSettlement | packages/cloudflare-sdk/src/editor-do-svalue.ts:417-581 | a new version is settled by three undisturbed steps, its roots retained |
| EditorSettlements.SettlementsUseTheirId | packages/cloudflare-sdk/src/editor-do-svalue.ts:446-458 | its changes are asked of the store under the id of its operation, or of its version if it is of none |
| EditorSettlements.UndisturbedExport | packages/cloudflare-sdk/src/editor-do-svalue.ts:686-712 | an export left alone retains its snapshot once and gives it its row |
| EditorSettlements.ExportOutcomes | packages/cloudflare-sdk/src/editor-do-svalue.ts:686-712 | when an export does nothing, and what one leaves whose answer was lost |
| EditorSettlements.CrashForgets | packages/cloudflare-sdk/src/editor-do-svalue.ts:446-487 | after a crash nothing is finalised before the store was asked again |
| EditorSettlements.WhatIsLost | packages/cloudflare-sdk/src/editor-do-svalue.ts:686-712 | a step loses a reference if and only if it gives an exported version its row over an older snapshot, or finalises a version while an export is retained without a row |
| EditorSettlements.LostReferencesStay | packages/cloudflare-sdk/src/editor-do-svalue.ts:686-712 | what is lost is never released |
| CommitJournals.SqliteCommitJournal.Begin | packages/cloudflare-sdk/src/commit-journal.ts:40-59 | an intent recorded, the stored receipt of the same payload, or the reason it is refused |
| CommitJournals.SqliteCommitJournal.Lookup | packages/cloudflare-sdk/src/commit-journal.ts:61-67 | the receipt of this identity, unknown, or a mismatch |
| CommitJournals.SqliteCommitJournal.RecoverPending | packages/cloudflare-sdk/src/commit-journal.ts:74-86 | the pending intent with its payload, every stored inconsistency reported |
| CommitJournals.SqliteCommitJournal.Settle | packages/cloudflare-sdk/src/commit-journal.ts:88-107 | receipt and finaliser effect together, or neither when the finaliser fails |
| CommitTables.FinalisersRunExactlyOnce | packages/cloudflare-sdk/src/commit-journal.ts:88-107 | over any run one pending intent per scope, and a finaliser takes effect once if its intent is settled, else never |
| CommitTables.SettlingEnds | packages/cloudflare-sdk/src/commit-journal.ts:88-107 | from any reachable journal a settlement takes effect exactly if it decides a pending intent of its identity and its finaliser completes; a finaliser that throws or returns a promise leaves all as it was |
| CommitTables.EffectsAreCompletedSettlements | packages/cloudflare-sdk/src/commit-journal.ts:88-107 | over any run an intent is settled, and its effect in the journal, exactly if such a settlement took place, and with its receipt |
| CommitTables.UnfitReceiptsAreRefused | packages/cloudflare-sdk/src/commit-journal.ts:88-92 | a receipt accepts the very next version or names a version there can be; others, and undecided ones, settle nothing |
| CommitTables.BeginningEnds | packages/cloudflare-sdk/src/commit-journal.ts:40-59 | a request is recorded exactly if its id is new and its scope has nothing pending |
| CommitTables.LookingUpEnds | packages/cloudflare-sdk/src/commit-journal.ts:61-67 | a lookup answers the stored receipt to its own identity only |
| CommitTables.DamageIsReported | packages/cloudflare-sdk/src/commit-journal.ts:119-127 | a row that contradicts its receipt is reported by every call that reads it and changed by none |
| CommitTables.RecoveryIsExact | packages/cloudflare-sdk/src/commit-journal.ts:74-86 | recovery hands out exactly what a consistent row holds, if the payload fits its digest |
| CommitTables.SettledReceiptsStay | packages/cloudflare-sdk/src/commit-journal.ts:88-98 | a settled receipt is what every later lookup answers, and any other settlement is refused without effect |
| CommitTables.OperationsKeepTheirPayload | packages/cloudflare-sdk/src/commit-journal.ts:47-58 | an operation id accepts its first payload for ever and no other |
| CommitTables.RecoveryIsFaithful | packages/cloudflare-sdk/src/commit-journal.ts:74-86 | recovery finds every pending intent, never damaged, with the payload of its digest |
| RegistryProtocol.IndicesAreExact | packages/cloudflare-portal/src/document-contracts-repository.ts:50-91 | a type's contracts are numbered exactly 0 to its last index, each contract once |
| RegistryProtocol.KeysTakeEffectOnce | packages/cloudflare-portal/src/document-contracts-repository.ts:39-48 | an idempotency key takes effect at most once, and whoever is answered for it gets the answer of that effect |
| RegistryLaws.AnswersTellTheirEffect | packages/cloudflare-portal/src/document-contracts-repository.ts:39-48 | whoever is answered is told of an effect of the same request: the number its contract has, or the tag of what it stored |
| RegistryLaws.FingerprintsTellRequests | packages/portal-service/src/admin/document-contracts.ts:60-70 | two calls ask the same exactly if all they ask is the same |
| RegistryLaws.AppendingEnds | packages/cloudflare-portal/src/document-contracts-repository.ts:37-105 | from any reachable state an append left alone is forbidden, replayed, not found or invalid exactly as stated, and in every other case gets the next number |
| RegistryLaws.UpdatingEnds | packages/cloudflare-portal/src/document-types-repository.ts:61-108 | the same of an update, which in every other case stores what it names and is answered with the tag of what is there |
| RegistryLaws.ContendedAppendEnds | packages/cloudflare-portal/src/document-contracts-repository.ts:50-105 | an append that was outrun ends, left alone from there, as an append of the present state, unless it has no attempt left |
| RegistryLaws.ContendedUpdateEnds | packages/cloudflare-portal/src/document-types-repository.ts:70-108 | an update about to write ends by its authority, its key and the present tag of its type |
| RegistryProtocol.AppendsAreComputedFromWhatTheyReplace | packages/cloudflare-portal/src/document-contracts-repository.ts:50-91 | every write stored what its command builds from the row it read, an append always from the row it replaced |
| RegistryProtocol.UpdatesAreComputedFromWhatTheyReplace | packages/cloudflare-portal/src/document-types-repository.ts:82-98 | so did every update, if tags were shown by their type before the call and no registration comes back |
| RegistryLaws.WritesChangeWhatTheyName | packages/portal-service/src/admin/document-types.ts:89-116 | each write of such a run sets the fields it names to what it says and leaves the others as in the replaced registration; an append leaves all settings and names the new contract |
| RegistryLaws.LastWordStands | packages/portal-service/src/admin/document-types.ts:84-130 | over such a run each setting of a type is what the last update that names it says, or what it was created with; its newest contract and its time are those of the last append and the last write |
| RegistryProtocol.MovingTimeBringsNothingBack | packages/portal-service/src/admin/document-types.ts:89-116 | none comes back where each write of a type has a later time than the one before it |
| RegistryProtocol.EveryReturnLetsAnUpdateGoStale | packages/cloudflare-portal/src/document-types-repository.ts:61-98 | wherever a run brings a registration back, the same run up to there continues with an update stored over it that was computed from the row the return replaced |
| RegistryProtocol.RecurrenceUndoesAnUpdate | packages/cloudflare-portal/src/document-types-repository.ts:61-98 | a run, with a name changed and changed back within one tick, in which an update restores a name it was not to see |
| RegistryProtocol.EnabledTypesAreComplete | packages/portal-service/src/admin/document-types.ts:84-130 | in every run an enabled type has a contract, both bundles and an operator |
| RegistryProtocol.RegistrationNamesNewestContract | packages/cloudflare-portal/src/document-contracts-repository.ts:65-84 | with tags shown before the call a registration names its type's newest contract, whatever updates interleave and even if registrations come back |
| RegistryProtocol.ExhaustionMeansContention | packages/cloudflare-portal/src/document-contracts-repository.ts:50-104 | a call that ran out of retries met at least sixteen writes of that type by others |
| RegistryProtocol.FailuresWroteNothing | packages/cloudflare-portal/src/document-contracts-repository.ts:92-102 | a call that failed, other than by losing authority, left nothing behind |
| ContractRepositories.D1DocumentContractRepository.Append | packages/cloudflare-portal/src/document-contracts-repository.ts:37-105 | the loop of reads and batches, with others in between, is one call of the protocol with its outcome |
| ContractRepositories.D1DocumentContractRepository.Update | packages/cloudflare-portal/src/document-types-repository.ts:61-108 | the update after its service read the row, with others in between, is one call of the protocol with its outcome |
| ContractRepositories.D1DocumentContractRepository.UpdateBatch | packages/cloudflare-portal/src/document-types-repository.ts:82-98 | the statements of the batch take effect together or not at all |
| ContractRepositories.D1DocumentContractRepository.AppendBatch | packages/cloudflare-portal/src/document-contracts-repository.ts:67-91 | the statements of the batch take effect together or not at all |
| AdminRepositories.D1Portal.CompleteLogin | packages/cloudflare-portal/src/auth-repository.ts:64-117 | whatever happened since the reads, success is a session of an active member bound to the identity and that member's only open family; left alone, a login with fresh keys succeeds exactly for a bound, a previously invited or the first administrator |
| AdminRepositories.D1Portal.LoginStatements | packages/cloudflare-portal/src/auth-repository.ts:76-115 | membership, guard, closing of old families and opening of the new one, all or nothing |
| AdminRepositories.D1Portal.RevokeSession | packages/cloudflare-portal/src/auth-repository.ts:119-130 | exactly for an active member's own unexpired session of its open family: the session gone, its family closed, no authority left in it, everything else as it was |
| AdminRepositories.D1Portal.Add | packages/cloudflare-portal/src/administrators-repository.ts:47-84 | success means that the receipt of this key and request stands and a member of this email was added; left alone it adds an active unbound member exactly if no active one has the email |
| AdminRepositories.D1Portal.Remove | packages/cloudflare-portal/src/administrators-repository.ts:86-142 | every refusal in the source's order without effect; success means that the receipt of this key and request stands and the member is inactive, without open family or session; left alone, what is not refused succeeds |
| AdminRepositories.D1Portal.RemoveStatements | packages/cloudflare-portal/src/administrators-repository.ts:112-124 | receipt, deactivation and closing of families, all or nothing |
| AdminTables.SomeoneAlwaysAdministers | packages/cloudflare-portal/src/auth-repository.ts:78-88 | bootstrap succeeds at most once, and from then on some active bound administrator always exists |
| AdminTables.SessionsAreLive | packages/cloudflare-portal/src/auth-repository.ts:98-114 | every stored session belongs to an open family of an active member bound to its identity; a member has at most one open family |
| AdminTables.ReceiptsAreTrue | packages/cloudflare-portal/src/administrators-repository.ts:86-124 | in every run the receipt of a removal means an inactive member without open family or session, that of an addition a member of its email |
| AdminTables.RemovedMembersStayOut | packages/cloudflare-portal/src/administrators-repository.ts:111-124 | a removed member never holds a session, an open family or authority again, and no login of any kind admits it |
| AdminLaws.SigningOutEnds | packages/cloudflare-portal/src/auth-repository.ts:119-130 | when a session can be ended, and what that leaves |
| AdminLaws.SignedOutStaysOut | packages/cloudflare-portal/src/auth-repository.ts:119-130 | after signing out nobody has authority by that session until a login stores its hash anew, and its family never opens again |
| AdminLaws.ClosedFamiliesStayClosed | packages/cloudflare-portal/src/auth-repository.ts:98-104 | a family once closed stays closed, as it was closed |
| AdminLaws.LoginEnds | packages/cloudflare-portal/src/auth-repository.ts:76-115 | exactly when the login batch goes through; the member, family and session rows it leaves, the session for eight hours |
| AdminLaws.AddingEnds | packages/cloudflare-portal/src/administrators-repository.ts:47-84 | exactly when an invitation goes through, and the active unbound member and receipt it leaves |
| AdminLaws.RemovingEnds | packages/cloudflare-portal/src/administrators-repository.ts:112-124 | exactly when a removal goes through; the member's row, families and sessions after it |
| AdminLaws.InvitedMayLogIn | packages/cloudflare-portal/src/auth-repository.ts:76-115 | an invited administrator is let in by a login of that email confirmed since, and may then act |
| AgentLeases.PgAgentSessionStore.Acquire | packages/azure-sdk/src/agent-session-store.ts:45-57 | the lease taken with the stored history if it is free or lapsed, else nothing changed |
| AgentLeases.PgAgentSessionStore.Release | packages/azure-sdk/src/agent-session-store.ts:60-67 | the history written and the lease freed, whoever holds it |
| AgentLeases.PgAgentSessionStore.Clear | packages/azure-sdk/src/agent-session-store.ts:70-77 | the history emptied and the lease freed |
| LocalOperators.Run | packages/azure-sdk/src/local-operator.ts:93-167 | every way out after the lease was taken frees it with the session's history, or the raw one if no session came to be, unless encoding or the release itself throws: then history and lease stay and the run fails |
| LeaseRuns.LeaseChain | packages/azure-sdk/src/local-operator.ts:105-166 | with crashes, resets and time passing: at most one run is in progress at every point if and only if none begins while one in progress has outlived its lease or been reset; and exactly then runs take turns, each starting from what the last end or reset left |
| LeaseRuns.HistoryIsHandedOn | packages/azure-sdk/src/local-operator.ts:105-166 | without resets and crashes, under exactly that condition starts and ends alternate, each start from what the end right before it left |
| LeaseRuns.LateReleaseFreesSuccessor | packages/azure-sdk/src/agent-session-store.ts:60-67 | a run whose late release lets a third run start beside the second |
| AuditPages.List | packages/cloudflare-portal/src/audit-events-repository.ts:37-99 | a foreign or malformed cursor is refused; else the page is the first rows of the filter past the cursor, with a cursor exactly when more follow |
| AuditPages.NoRowTwice | packages/cloudflare-portal/src/audit-events-repository.ts:64-98 | while rows are inserted between pages, pages are strictly descending across each other and their cursors are accepted |
| AuditPages.NoRowMissed | packages/cloudflare-portal/src/audit-events-repository.ts:64-98 | once the listing ends every matching row present at its start has appeared |
| AuditPages.FixedTableListing | packages/cloudflare-portal/src/audit-events-repository.ts:64-98 | over a fixed table the listing is exactly the matching rows and its page count is bounded by the table |
| AuditPages.PagesTellMore | packages/cloudflare-portal/src/audit-events-repository.ts:64-98 | a page has a cursor exactly if a matching row follows it, and then it is full |
| AuditPages.FiltersMean | packages/cloudflare-portal/src/audit-events-repository.ts:37-63 | each part of a filter narrows it by its own field, times from inclusive to exclusive |
| AuditPages.ListingGoesOn | packages/cloudflare-portal/src/audit-events-repository.ts:64-98 | a page with a cursor has a next page, whatever was inserted meanwhile |
| AuditPages.ListingEnds | packages/cloudflare-portal/src/audit-events-repository.ts:64-98 | over a fixed table following the cursors comes to an end |
| PlatformNonceObjects.PlatformNonces.Claim | packages/cloudflare-markdown/src/platform-nonces.ts:12-28 | expired rows purged, the nonce claimed if it is not stored, the alarm set to the first end of a window |
| PlatformNonceObjects.PlatformNonces.Alarm | packages/cloudflare-markdown/src/platform-nonces.ts:30-40 | expired rows purged and the alarm set again while anything is stored |
| NonceTables.ClaimsNeverOverlap | packages/cloudflare-markdown/src/platform-nonces.ts:12-51 | over all shards two successful claims of a nonce in a scope have disjoint windows |
| NonceTables.ClaimsSucceedUnlessOpen | packages/cloudflare-markdown/src/platform-nonces.ts:12-51 | over all shards a valid claim succeeds exactly if no earlier success of its nonce in its scope has an open window |
| NonceTables.AlarmsPurge | packages/cloudflare-markdown/src/platform-nonces.ts:30-33 | an alarm leaves exactly what has an open window |
| DocumentDirectories.D1GatewayDocumentDirectory.Reserve | packages/cloudflare-gateway/src/document-directory.ts:32-75 | the reservation of the key created or found, others being served between insert and reads; a conflict exactly for another request or a taken id, and no other failure |
| DocumentDirectories.D1GatewayDocumentDirectory.MarkReady | packages/cloudflare-gateway/src/document-directory.ts:93-111 | a creating or ready document made ready at the version, else refused without effect |
| DocumentDirectories.D1GatewayDocumentDirectory.AdvanceVersion | packages/cloudflare-gateway/src/document-directory.ts:139-147 | a ready document's version raised to a greater one |
| DirectoryTables.StatesAreAbsorbing | packages/cloudflare-gateway/src/document-directory.ts:93-128 | ready and failed are final and a reservation's identity never changes |
| DirectoryTables.CallsMean | packages/cloudflare-gateway/src/document-directory.ts:93-147 | what each call makes of a document: a creation marked ready is ready at exactly that version, neither ready nor failed is undone by the other |
| DirectoryTables.ReservationsMean | packages/cloudflare-gateway/src/document-directory.ts:32-75 | a reservation adds its document, creating, and its request exactly if its id and its key are new |
| DirectoryTables.ReservationsAreIdempotent | packages/cloudflare-gateway/src/document-directory.ts:32-75 | a key names its first document for ever; reserving again changes nothing and conflicts exactly when the request differs, whatever runs between the statements |
| DirectoryTables.AdvancesTakeTheMaximum | packages/cloudflare-gateway/src/document-directory.ts:139-147 | observed versions, each with its own time, add up to their maximum |
| DirectoryTables.OrderDoesNotMatter | packages/cloudflare-gateway/src/document-directory.ts:139-147 | the same observations in any order give the same version |
| DirectoryTables.VersionFallsOnlyByMarkReady | packages/cloudflare-gateway/src/document-directory.ts:93-147 | a ready document's version falls exactly when it is marked ready with a smaller one |

## Left out

- OAuthStores.PgRefreshTokens.Rotate: a locked transaction is one step, so lock waits and deadlocks between Postgres rotations are not modelled.
- PgDeltaLogs.LogStaysGapFree: an insert, a delete and its commit are single moments between which other calls run; a transaction holds at most one such call.
- DocumentSessions.DocumentSession.Load: the document type's operations never fail, because a failing fold only ends the load.
- DocumentSessions.DocumentSession.Rollback: the session is the only writer of its log, as of a durable object's; a rollback that loses the race for its version is an append that conflicts.
- DocumentSessions.DocumentSession.WriteSnapshot: does not model retaining the blobs a document mentions before its snapshot is recorded.
- SnapshotCaches.BlobSnapshotCache.Get: version metadata is missing, blank, not numeric or an integer; fractional numbers are not modelled.
- PgUnitsOfWork.WithTransaction: the fate of BEGIN, COMMIT and ROLLBACK, and whether a failed statement aborted the transaction, are given for each call; the connection itself is not modelled.
- RegistryProtocol.KeysTakeEffectOnce: an authority check and the receipt read after it are one step.
- ContractRepositories.D1DocumentContractRepository.Append: audit rows and schema validation of records are not modelled.
- ContractRepositories.D1DocumentContractRepository.Update: that an enabled type is complete is checked; that its bundles and operator resolve and fit the contract is not modelled.
- AdminRepositories.D1Portal.Remove: the reads before its batch are one step; audit rows are not modelled.
- AuditPages.List: authority and the JSON details of an event are not modelled.
- Authorization codes and authorization transactions: single conditional updates that hand out a row once, which would add only easy members.
- Portal login transactions, document type creation, bundle uploads, tenant members and operators: the same receipt and compare-and-set patterns again.
- HTTP routing, user interfaces, cryptography, JWT, OIDC, JSON and CBOR encodings: not protocols over state.
- The content store behind root references: only its idempotent, atomic update is modelled, not its nodes or its collection of garbage.
