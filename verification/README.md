# SSHM, verified

A Dafny model of the parts of SSHM that must not go wrong while several devices, a server and a
network that loses messages work on one encrypted vault. It covers the three-way merge of vaults, the
client and server halves of the sync protocol, remote jobs, the publication of the vault into the
local configuration, the device's credential store, the terminal channel and resumable downloads.
`dafny verify dfyconfig.toml` checks everything.

How the files hang together:

- `Text`, `Wire`, `Base64`: strings, sorted lists, numerals, separated fields, signed texts and their spelling.
- `Observations`, `Vault`, `Merge`, `Sources`, `MergeLaws`, `Outcomes`, `VaultOps`, `Effects`, `Provenance`: the
  vault's plaintext. `Merge` describes what the merge may produce as a relation, since Go visits maps in any
  order; `Sources` and `MergeLaws` prove what every outcome satisfies and when there is only one, and `Outcomes`
  what becomes of each id, in terms of the three vaults alone. `VaultOps` and `Provenance` prove what every
  operation keeps, `Effects` what imports and observations change.
- `VaultCode`, `ProtectedImport`: the vault's code with its loops, proved against those relations.
- `Account`, `AccountRuns`, `AccountCode`: the server object. A handler that awaits a signature check
  is two steps; tasks suspended in between may resume in any order, any number of times, or never.
- `Client`, `ClientCode`, `Sync`, `SyncRuns`, `SyncVaults`: the client, and runs of one server with any number
  of clients, in which requests are lost, delayed, repeated and reordered and clients crash anywhere.
- `Jobs`, `JobRuns`, `JobsCode`, `Agent`, `Exchange`: the job queue on the server, the journal on the device, and
  what the two make of each other's signatures.
- `Inventory`, `InventoryCode`: publication. `LocalStore`, `Remember`, `Imports`: the credential store, and what a
  vault gives it.
- `Shell`, `Terminal`, `SessionKeys`: the encrypted channel, the admission of sessions and the keys they use.
  `Transfer`: downloads.

The classes of `AccountCode`, `JobsCode` and `Terminal` keep, as a ghost, the run they have been through, and
`ClientCode.State.Sync` returns the steps it took, so that what is proved of all runs holds of the code.

What is idealised: digests are functions about which nothing is assumed unless a statement asks for
`Injective`, `NoLoops` or `KeysDiffer`; signatures are deterministic and bind their text (section 5.1.6 of
RFC 8032); authenticated encryption opens only what was sealed under the same key, nonce and associated data
(RFC 5116); tokens are fresh; time is a number that does not go back.

Where a promise is false of the code, the model keeps the code, shows an input and proves exactly when the
promise holds:

- The outcome of a merge does not depend on the map order: `Sources.OrderMattersForForeignKeys`,
  `Sources.OrderIrrelevantIff`, `MergeLaws.IterationOrderIrrelevantIff`. No source is lost in a merge:
  `Sources.OccupiedKeyIsLost`, `Sources.SourcesSurviveIff`. Vaults whose aliases are no digests of other
  sources have neither trouble in any run: `Provenance.ImportKeepsSourceKeysIff`, `SyncVaults.RunMergesAgree`.
- The order of observations does not matter: `Observations.NewerCommutesIff`,
  `Observations.StatusCommutesIff`, `Observations.PlatformAssociatesIff`.
- A signed job runs once: the journal goes by the text of the signature, and one signature has many texts;
  `Agent.TwoSpellingsRunTwice`, `Agent.SignedOnceIff`.
- A report goes to the job it was made for: `JobRuns.ReportLandsLater`, `JobRuns.MisplacedIff`.
- An approval goes to the request that was signed: `AccountRuns.ApprovalCrosses`,
  `AccountRuns.ApprovalCrossesUnseen`, `AccountRuns.CrossesIff`.
- The base of a client does not go back: `ClientCode.EchoMovesBack`, `ClientCode.RepeatMovesBackIff`; an honest
  server never answers so (`SyncRuns.NoProtocolErrors`).
- An error leaves the files as they were: `LocalStore.StoredDespiteError` and `LocalStore.Store.Update`,
  `InventoryCode.PublishedDespiteError` and `InventoryCode.ConfigFile.PublishInventory`.
- A terminal request is admitted once: `Terminal.AdmittedTwice`, `Terminal.AdmittedAgainIff`. The key of a
  session is used once with a nonce: `SessionKeys.KeyUsedTwice`, `SessionKeys.UsedOnceIff`.
- A resumed download installs the source: `Transfer.StalePartIsInstalled`, `Transfer.InstallsSourceIff`.

## Model

| member | source | states |
|---|---|---|
| Observations.LatestKeepsTheNewestSample | internal/inventory/collect.go:198-217 | folding hardware samples keeps the maximal effective time, shows a sample that was really taken, or its readings with the refresh marked as failed, and never turns an available sample into an unavailable one |
| Observations.NewerCommutesIff | internal/inventory/collect.go:198-217 | the exact condition under which the order of two samples does not matter |
| Observations.LaterIsJoin | internal/cloudsync/activity.go:37-48 | a later date wins and ties go to the greater text: idempotent, commutative, associative |
| Observations.JoinLaws | internal/cloudsync/activity.go:32-53 | the dated pairs and the two maxima of an activity record form a join |
| Observations.ActivityOrderIrrelevant | internal/cloudsync/activity.go:32-53 | merging the same reports in any order, grouping or repetition gives the same dated pairs and maxima |
| Observations.StatusCommutesIff | internal/cloudsync/activity.go:44-48 | the SSHM status depends on the order exactly on a tie with different statuses |
| Observations.PlatformAssociatesIff | internal/cloudsync/activity.go:34-36 | the platform depends on the grouping exactly when a record without one lifts the date of an older name above a newer one |
| Observations.SettledIsFixedPoint | internal/cloudsync/activity.go:32-53 | a record that came out of a merge is not changed by merging it again |
| Vault.ValidLater | internal/cloudsync/data.go:59-115 | a vault that validates once validates at every later time |
| Text.UnionStrings | internal/cloudsync/data.go:155-166 | the sorted duplicate-free union of two lists |
| Text.LessIff | internal/cloudsync/data.go:155-166 | the order of texts is the byte-wise one: less at the first difference, or a proper beginning |
| Outcomes.EditsSurvive | internal/cloudsync/data.go:384-421 | for every id, an entry that a side changed is listed with its settings, aliases and credentials, or kept verbatim on that side of the conflict; but the settings of an entry that both sides added are the remote ones |
| Outcomes.NoSilentOverrule | internal/cloudsync/data.go:386-412 | an entry that both sides changed, to different things, is listed without a conflict only if both have the settings that are listed, or both sides added it |
| Outcomes.DisagreementIsKept | internal/cloudsync/data.go:409-411 | if both sides changed an entry and their settings differ, and not both added it, the conflict holds both entries |
| Outcomes.MergedEntries | internal/cloudsync/data.go:340-421 | for every id: what a merge lists and buries, whose id and settings a listed entry has, and whose aliases and credentials it collects |
| Outcomes.MergedConflicts | internal/cloudsync/data.go:362-427 | a conflict is opened exactly if the sides disagree or a tombstone withholds an entry, closed exactly if the entry and both its sides are one connection, and else carried on from the side that moved |
| Outcomes.RepairsIff | internal/cloudsync/merge_additions.go:28-40 | a repair closes a conflict exactly if its entry is listed, not deleted, and of one id and the same settings as both sides, and then adds them up; every other id stays as it was |
| Outcomes.AddedTwiceSources | internal/cloudsync/data.go:397-408 | an entry that both sides added keeps the local sources, and the remote ones under keys that are not taken |
| Outcomes.MergedActivity | internal/cloudsync/data.go:422-426 | activity stays exactly with listed entries, and no sighting or connection goes back |
| Outcomes.MergedHardware | internal/cloudsync/data.go:322-330 | the hardware of a device is present, no older than either side's, and really taken by one of them |
| Outcomes.MergedCredentials | internal/cloudsync/data.go:331-338 | a merge without a clash keeps every credential of both sides and makes none up |
| Outcomes.CleanServerIff | internal/cloudsync/data.go:123-146 | two cleaned servers are equal exactly if settings and metadata are, whatever else differs |
| Outcomes.EntryIdIff | internal/cloudsync/data.go:147-154 | two servers have one id exactly if they agree in everything that leads to the host, and in nothing else |
| MergeLaws.NothingInvented | internal/cloudsync/data.go:384-429 | every alias, credential reference and target of an outcome was mentioned for that id by one of the sides |
| MergeLaws.MergedIsReconciled | internal/cloudsync/data.go:413-427 | after a merge no id is both listed and deleted, and no conflict is left that additions could close |
| MergeLaws.MergeWithoutLocalEdits | internal/cloudsync/data.go:322-429 | merging with an unchanged local side gives the remote entries, tombstones and conflicts |
| MergeLaws.MergeWithoutRemoteEdits | internal/cloudsync/data.go:322-429 | merging with an unchanged remote side gives the local entries, tombstones and conflicts |
| MergeLaws.RemergeIsIdentity | internal/cloudsync/data.go:322-429 | merging a merge result with itself, against any base, at any later time and in any map order, gives exactly that result in every component |
| MergeLaws.SourcesSurvive | internal/cloudsync/merge_additions.go:12-22 | where every clashing source has room under its derived key, the sources of an additive merge are exactly the sources of both sides |
| MergeLaws.AdditionsUniqueIff | internal/cloudsync/merge_additions.go:8-24 | an additive merge of two entries has one outcome, whatever the map order, exactly if no clashing source has a tangled derived key |
| MergeLaws.OneOutcomeIsOrderly | internal/cloudsync/data.go:384-427 | a merge that has one outcome whatever the map order has, for every id, an orderly last additive merge; closed conflicts included |
| MergeLaws.IterationOrderIrrelevantIff | internal/cloudsync/data.go:384-427 | a merge has one outcome whatever the map order exactly if, for every id, its last additive merge is orderly; where a conflict is closed, given that what it is built on is orderly |
| MergeLaws.WellKeyedMergesAgree | internal/cloudsync/data.go:384-427 | two merges of the same vaults with their source keys in order agree in every component, repairs included |
| MergeLaws.MergeKeepsSourceKeys | internal/cloudsync/merge_additions.go:8-40 | merging and repairing keeps the source keys in order, and an entry that both sides add to holds the sources of both |
| Sources.OrderIrrelevantIff | internal/cloudsync/merge_additions.go:16-22 | the loop gives one result in every order exactly if no clashing source's derived key is itself a key of the first map whose source moves or stays with the order, visibly |
| Sources.SourcesSurviveIff | internal/cloudsync/merge_additions.go:16-22 | no source is lost in any order exactly if the derived key of every clashing source is free, or holds that source, or its occupant is kept anyway |
| Sources.OrderMattersForForeignKeys | internal/cloudsync/merge_additions.go:16-22 | a source of the first map stored under another source's derived key survives or is lost with the map order |
| Sources.OccupiedKeyIsLost | internal/cloudsync/merge_additions.go:16-22 | a source of the second map stored under such a key is lost in every order |
| Sources.HiddenIff | internal/cloudsync/merge_additions.go:28-40 | two outcomes of one additive merge, merged in turn into sources they do not clash with, come to the same exactly if they differ only where these have a source |
| Sources.LaterMergeMayHide | internal/cloudsync/merge_additions.go:28-40 | two outcomes that differ by the map order and come to the same in one later merge but not in another |
| Provenance.ImportKeepsSourceKeysIff | internal/cloudsync/data.go:170-260 | importing a record keeps the source keys in order exactly if nothing is imported or its alias is not the digest of another source |
| Provenance.HistoryKeepsSourceKeys | internal/cloudsync/data.go:172-318 | every sequence of vault operations with such imports keeps all source keys in order |
| Provenance.HistoryMergesAgree | internal/cloudsync/data.go:322-429 | so in every such history from a new vault a merge has one result whatever the map order, and loses no source of an entry that both sides add to |
| VaultOps.HistoryIsWellFormed | internal/cloudsync/data.go:172-318 | every sequence of vault operations keeps entries and tombstones disjoint, activity only for entries, entries under their own id, and every credential an entry or conflict side refers to |
| VaultOps.MergeKeeps | internal/cloudsync/data.go:322-429 | merging well-formed vaults against any base gives a well-formed vault |
| VaultOps.CredentialsNeverClash | internal/cloudsync/data.go:331-338 | content-addressed credentials make the immutable-credential error unreachable |
| VaultOps.HistoryNeverClashes | internal/cloudsync/data.go:331-338 | no merge in any history of operations fails on credentials |
| VaultOps.ProtectKeeps | internal/cloudsync/import_protected.go:82-110 | attaching a credential and pruning its locked copies leaves no dangling reference |
| VaultOps.ProtectIff | internal/cloudsync/import_protected.go:83-103 | the entry refers to the new credential and no longer to locked copies of exactly its bytes; of the other credentials only such copies go, and only if nothing refers to them |
| VaultOps.PruneKeeps | internal/cloudsync/import_protected.go:200-223 | pruning a credential leaves no dangling reference in any entry or conflict side |
| Effects.ImportIs | internal/cloudsync/data.go:170-260 | a record that is local and not deleted enters its entry with its alias, its source and, if asked for, its key; a former entry keeps its server and all it had; an unreadable key leaves the noted source; nothing else changes |
| Effects.CleanServerIs | internal/cloudsync/data.go:123-146 | the stored server has the record's settings and nothing that belongs to the device |
| Effects.ObserveIs | internal/cloudsync/activity.go:54-77 | a report reaches exactly the listed entry it is bound to or that of its route, with every date that can be right, each taken if it is later |
| Effects.PlatformsSettle | internal/config/config.go:97-111 | a platform is stored under one of three names or none, each of which stands for itself, whatever its case and the space around it |
| Effects.DevicesAreApart | internal/cloudsync/device_entry.go:33-39 | two devices never share a connection, whatever they are called |
| VaultOps.EditsKeepTombstones | internal/cloudsync/data.go:178-183 | every local operation but an explicit restore leaves a tombstone in place |
| VaultOps.MergeKeepsTombstones | internal/cloudsync/data.go:340-361 | a merge keeps the remote tombstone unless the local side dropped one that its base had |
| VaultCode.MergeAdditions | internal/cloudsync/merge_additions.go:8-24 | the loops produce an additive merge |
| VaultCode.MergeDeleted | internal/cloudsync/data.go:342-361 | the tombstone loop chooses, id by id, the side that moved |
| VaultCode.MergeConflicts | internal/cloudsync/data.go:362-377 | the conflict loop chooses, id by id, the side that moved |
| VaultCode.Select | internal/cloudsync/data.go:386-412 | the five-way switch selects an entry with the id and settings of the side that moved, and reports a clash exactly if both sides changed it to different settings and did not both add it |
| VaultCode.MergeVaults | internal/cloudsync/data.go:322-429 | the whole merge, loops and all, has only outcomes of the merge relation; it fails on credentials exactly if one id holds two; and every id of its result is what `Outcomes` says of the three vaults |
| VaultCode.VaultData.RepairCompatibleConflicts | internal/cloudsync/merge_additions.go:28-40 | exactly the conflicts whose sides and entry have one id and the same settings are closed by additions, nothing else changes, and the count is right |
| VaultCode.VaultData.SetPassword | internal/cloudsync/data.go:265-279 | exactly a password entry takes it and then refers to one credential, which holds it; no other entry or credential changes and the vault stays well formed |
| VaultCode.VaultData.Remove | internal/cloudsync/data.go:307-312 | a tombstone is all that is left of the entry; no other entry changes and the vault stays well formed |
| VaultCode.VaultData.Resolve | internal/cloudsync/data.go:430-452 | exactly for a conflict: the chosen side is the entry verbatim, or its absence a tombstone; no other entry changes and the vault stays well formed |
| VaultCode.VaultData.AddDevice | internal/cloudsync/device_entry.go:19-67 | the device is listed under its own route, installed, with its platform and version, even if deleted before; a former entry keeps credentials, sources and route, no sighting goes back, and the vault stays well formed; a refusal changes nothing |
| VaultCode.VaultData.ImportRecords | internal/cloudsync/data.go:170-260 | the records are imported in some order until one fails |
| VaultCode.VaultData.ImportActivity | internal/cloudsync/activity.go:54-77 | the observations are merged in some order; no report of change means no change |
| VaultCode.VaultData.PruneUnreferencedCredential | internal/cloudsync/import_protected.go:200-223 | the two loops remove the credential exactly if no entry and no conflict side refers to it, and no other |
| VaultCode.VaultData.ProtectCredential | internal/cloudsync/import_protected.go:83-103 | the entry refers to the credential, a former reference is dropped exactly if it is another key without passphrase of exactly these bytes that do not parse, and every credential other than those stays with its value |
| ProtectedImport.ProtectedCredentials | internal/cloudsync/import_protected.go:139-180 | all keys that prove themselves and at most one password, or an error |
| ProtectedImport.TakesTouches | internal/cloudsync/import_protected.go:30-117 | a record changes only its own entry, never one deleted or in conflict, and nothing if its local credential was withdrawn |
| ProtectedImport.TakesOffers | internal/cloudsync/import_protected.go:32-110 | every local record of this vault's owner that is neither deleted, in conflict nor withdrawn is listed under its alias, and its entry offers every key that its stored secrets prove, and their password |
| ProtectedImport.NoSecretIsLost | internal/cloudsync/import_protected.go:20-117 | importing any list of records keeps every password and the bytes of every key |
| ProtectedImport.ImportProtectedKeeps | internal/cloudsync/import_protected.go:20-117 | importing any list of records keeps the vault well formed and all tombstones and conflicts |
| ProtectedImport.ImportRecords | internal/cloudsync/import_protected.go:25-117 | the aliases are sorted and their records taken in that order until one stops it; the vault stays well formed, keeps all tombstones and conflicts, and loses no secret |
| AccountRuns.RunKeepsInvariant | cloud/src/index.ts:141-242 | in every state of every run the head's root is the account's root, device ids are distinct and at most 32, the history is the gap-free chain of the last twenty predecessors under their own numbers, and no link was approved twice |
| AccountRuns.RevisionStep | cloud/src/index.ts:220-240 | a step advances the revision by at most one, and changes the head only as a commit on it |
| AccountRuns.RevisionMonotone | cloud/src/index.ts:220-240 | revisions never go back and a revision number identifies its snapshot |
| AccountRuns.CommittedAtMostOnce | cloud/src/index.ts:221-239 | in any interleaving at most one request is ever committed on a base revision, hence each request at most once |
| AccountRuns.RetryReturnsTheCommit | cloud/src/index.ts:223-224 | repeating any committed request that is still the head returns the identical snapshot and changes nothing |
| AccountRuns.CommitsAreCurrent | cloud/src/index.ts:230-239 | a commit takes effect only for a live session, under the root it was checked against, at that moment |
| AccountRuns.RootChangesOnlyWhenAuthorised | cloud/src/index.ts:226-239 | the root changes only by a rotation that the old root authorised and the new root signed, and leaves one session |
| AccountRuns.RevocationIsFinal | cloud/src/index.ts:230-239 | once a session is gone nothing it requests, and nothing it had requested and resumes later, takes effect in the rest of the run |
| AccountRuns.ApprovalsAreCurrent | cloud/src/index.ts:126-139 | an approval takes effect only for a live session, under the root that signed it, on a pending request, and opens exactly one session, for its device; it is the request that was checked exactly if nothing of it has changed, its device included |
| AccountRuns.ApprovalCrosses | cloud/src/index.ts:103-139 | for every key, and until the first request would have expired, a run in which the request is deleted and made anew for another device during the check, and the approval goes to the new one |
| AccountRuns.ApprovalCrossesUnseen | cloud/src/index.ts:103-139 | one of these runs in which the signature covers the new request as well, as its key and expiry are the same and the device is not signed |
| AccountRuns.CrossesIff | cloud/src/index.ts:132-138 | over every run, a waiting approval goes to a request other than the one it was checked against exactly if session, root, a pending request and room for its device stand at that moment, and the checked request was gone at some moment since |
| AccountRuns.DevicesComeFromLogins | cloud/src/index.ts:85-95 | every session after a step was there before or got the token of this step |
| AccountRuns.WrongPasswordIsInert | cloud/src/index.ts:158-172 | a wrong password or recovery code opens no session and changes nothing |
| AccountRuns.SignInIff | cloud/src/index.ts:158-165 | a device signs in exactly with the right password and room for its session |
| AccountRuns.RecoverIff | cloud/src/index.ts:166-171 | recovery ends every session, whose tokens are of no more use, and opens one |
| AccountRuns.ChangePasswordIff | cloud/src/index.ts:211-214 | a change of password ends every session but the one it is made in |
| AccountRuns.RevokeDeviceIff | cloud/src/index.ts:208-210 | revoking a device ends its session and no other |
| Account.LoginKeeps | cloud/src/index.ts:85-95 | a login leaves the device exactly one session, under the name and date it had, keeps exactly the unexpired sessions of the others and stays within 32 |
| Account.FindIff | cloud/src/index.ts:84-84 | the search finds a session exactly if one with this token has not expired, whatever expired before it |
| Account.ServeKeeps | cloud/src/index.ts:101-242 | every half of every request keeps the server's invariant |
| AccountCode.AccountObject.SaveLogin | cloud/src/index.ts:85-95 | granted exactly if the session is valid and fewer than 32 others are live; then exactly those and one session of the device; else nothing changes |
| AccountCode.AccountObject.Register | cloud/src/index.ts:144-157 | granted exactly on an unused account with a first vault its root signed; then revision 1 and one session; else nothing changes; the run and its invariant go on |
| AccountCode.AccountObject.DeleteLink | cloud/src/index.ts:123-125 | done exactly for a pending request by a browser or by its device; of the others exactly the expired ones go |
| AccountCode.AccountObject.StartLink | cloud/src/index.ts:101-112 | done exactly for valid data under an id not in use with fewer than twelve pending; the request waits ten minutes, and of the others exactly the expired ones go |
| AccountCode.AccountObject.RevokeDevice | cloud/src/index.ts:208-210 | done exactly in an unexpired session; the sessions of the device, and no other, are revoked |
| AccountCode.AccountObject.ChangePassword | cloud/src/index.ts:211-214 | done exactly with the right password in an unexpired session, and leaves only that session |
| AccountCode.AccountObject.Recover | cloud/src/index.ts:166-171 | granted exactly with the right code; then all former tokens are revoked and one session is left |
| AccountCode.AccountObject.SignIn | cloud/src/index.ts:158-165 | granted exactly with the right password and room; then the device has the only new session; else nothing changes |
| AccountCode.AccountObject.StartPut | cloud/src/index.ts:220-229 | waits exactly if an unexpired session has the token and the put is authorised on the head; answered at once exactly if it made the head, in particular a repeated commit with its own snapshot; refused with 409 exactly if it is outdated; refused if the session was ever revoked |
| AccountCode.AccountObject.CommitPut | cloud/src/index.ts:230-239 | accepted exactly if session, head and root still stand; then the head is the signed put one revision on, the history is exactly the last twenty with the old head added, a rotation leaves one session, and no earlier commit had this base; else nothing changes; refused if the session was ever revoked |
| AccountCode.AccountObject.BeginApproval | cloud/src/index.ts:103-132 | waits exactly if a browser signed in asks, the request is pending and the root signed it; exactly the expired requests go |
| AccountCode.AccountObject.CommitApproval | cloud/src/index.ts:133-139 | done exactly if session, root and pending request still stand and there is room; then the device is signed in and the request, never approved before, is marked; under the number that was checked it is the very request that was checked; else nothing changes |
| Sync.StepKeeps | internal/cloudsync/client.go:309-398 | every step of client, server, clock or network keeps the protocol's invariant |
| SyncRuns.RegistrationStarts | internal/cloudsync/client.go:257-280 | registering an account with an empty vault gives an initial state of these runs, with a well-formed head |
| SyncRuns.BasesComeFromTheLog | internal/cloudsync/client.go:309-398 | the committed log grows by one revision at a time and every client's base is exactly the log entry of its revision |
| SyncRuns.NoProtocolErrors | internal/cloudsync/client.go:346-356 | no client ever meets a rolled back revision, a replaced history, an unauthentic vault or a mismatched acknowledgement |
| SyncRuns.AccountsAreShaped | internal/cloudsync/client.go:165-177 | a pending upload is the draft of a dirty account, and a clean account holds exactly its base |
| SyncRuns.DirtyDraftsLeaveByMergeOrCommit | internal/cloudsync/client.go:313-397 | a dirty draft stays, becomes the local side of a merge on the unmoved base, or is committed byte for byte; it is never replaced by the remote copy |
| SyncRuns.TombstonesPersist | internal/cloudsync/data.go:340-361 | in every run without an explicit restore of an id, once a head holds its tombstone every later head does and lists no entry for it, also through merges against stale bases |
| SyncRuns.MergedUploadKeepsBuried | internal/cloudsync/client.go:366-397 | a merge for upload keeps every tombstone of the head it was fetched from, however old its base |
| SyncVaults.RunIsWellFormed | internal/cloudsync/client.go:309-398 | in every run every committed head, every draft and every upload is well formed |
| SyncVaults.RunNeverClashes | internal/cloudsync/data.go:331-338 | no merge of any client in any run fails on credentials |
| SyncVaults.RunKeepsSourceKeys | internal/cloudsync/data.go:172-318 | in every run whose imports name no digest of another source, the source keys of every head and draft are in order |
| SyncVaults.RunMergesAgree | internal/cloudsync/data.go:322-429 | so what a client merges for upload does not depend on the map order |
| ClientCode.State.SaveDraft | internal/cloudsync/client.go:165-177 | a draft is saved exactly if no upload is pending and sealing and writing work; a refusal changes nothing |
| ClientCode.State.Repeat | internal/cloudsync/client.go:313-341 | a pending upload is repeated byte for byte and accepted only as exactly itself; only a conflict gives it up |
| ClientCode.State.MergeAndUpload | internal/cloudsync/client.go:367-397 | the draft is merged and parked on the unmoved base, and given up only to an acknowledgement of exactly that upload |
| ClientCode.State.Sync | internal/cloudsync/client.go:309-398 | whatever the server answers: a clean account moves only to an authentic snapshot that follows its base, and exactly then; a dirty one keeps, parks or commits its work; success means file, memory and vault agree, and moves the base back exactly if a repeated upload was answered without a revision; the outcome is reached by steps of the protocol |
| ClientCode.State.SyncRetry | internal/cloudsync/client.go:402-417 | up to five attempts, each starting from what the one before left parked, together one sequence of protocol steps |
| ClientCode.FetchedIff | internal/cloudsync/client.go:346-366 | a fetched head is taken exactly if it is authentic, no older than the base and the same if of the same revision; it is merged exactly if there is work to merge |
| ClientCode.AcknowledgedIff | internal/cloudsync/client.go:313-397 | a reply to an upload is accepted exactly if it is that very upload, on the next revision, or authentic if it was repeated |
| ClientCode.OpensIff | internal/cloudsync/client.go:346-356 | a snapshot opens exactly if the vault's root signed it as it is and it seals a valid vault |
| ClientCode.ReworkedKeepsBase | internal/cloudsync/client.go:381-385 | however many attempts fail, the base does not move and a clean account is not touched |
| ClientCode.RepeatMovesBackIff | internal/cloudsync/client.go:313-341 | an acknowledged repeat moves the base back exactly if the answer has no revision, else past the request's base |
| ClientCode.EchoMovesBack | internal/cloudsync/client.go:313-341 | an answer that echoes the request makes the client give up a committed base |
| ClientCode.MoveExtendsRun | internal/cloudsync/client.go:309-398 | a step of the code, taken in a run of the system that gives it its answers, is a step of that run |
| Jobs.ServeKeeps | cloud/src/jobs.ts:27-68 | every half of every job request keeps the queue's invariant |
| Jobs.PrunedIs | cloud/src/jobs.ts:17-26 | exactly the rows older than a week go; an active one that stays is cancelled exactly if the device's first unexpired session is not the one it was made for or the root changed, else expired exactly if it waited too long, failed exactly after ten silent minutes, and else unchanged |
| JobRuns.RunKeepsBounds | cloud/src/jobs.ts:42-48 | in every state of every run at most 200 jobs, and at most four active ones per device |
| JobRuns.PollsAreShort | cloud/src/jobs.ts:31-34 | a poll lists at most four jobs, all active and the device's own, so the device's guard never trips |
| JobRuns.RowsMoveForward | cloud/src/jobs.ts:17-67 | between any two moments of a run a finished row does not change, and a claim once set never changes |
| JobRuns.WithdrawnIsNeverClaimed | cloud/src/jobs.ts:52-58 | a row cancelled by request has never been and will never be claimed |
| JobRuns.ExecutedIsNeverWithdrawn | internal/cloudsync/jobs.go:124-134 | an accepted claim, which precedes execution, is of a row running under it that is cancelled by request at no moment of the run |
| JobRuns.CreationsAreCurrent | cloud/src/jobs.ts:42-48 | a job is created only while browser and device are signed in under the root that signed it |
| JobRuns.ReportsAreCurrent | cloud/src/jobs.ts:63-67 | a report takes effect only for a live device under the job's root, on a running row, and with the claim proved if the row is still the same |
| JobRuns.MisplacedIff | cloud/src/jobs.ts:60-67 | over every run, a waiting report rewrites a row other than the one it was checked against exactly if its guards hold and that row was gone at some moment since |
| JobRuns.ReportLandsLater | cloud/src/jobs.ts:60-67 | a run in which the row is pruned, its id comes back, and the report lands on a row under a claim it never proved |
| JobsCode.JobTable.Prune | cloud/src/jobs.ts:17-26 | the pruning loop, in any order, has that outcome row by row |
| JobsCode.JobTable.Poll | cloud/src/jobs.ts:31-34 | lists exactly the device's own rows, of its present session, that wait or run |
| JobsCode.JobTable.FindOldest | cloud/src/jobs.ts:46-46 | the victim of eviction is an oldest finished row, if there is one |
| JobsCode.JobTable.StartCreation | cloud/src/jobs.ts:35-41 | waits exactly if a browser asks for a valid job, for a device that is signed in, signed by the root |
| JobsCode.JobTable.FinishCreation | cloud/src/jobs.ts:42-48 | shown exactly if browser, device and root still stand and there is room, or the same request made the row; a full table gives up an oldest finished row and no other; the bounds hold after |
| JobsCode.JobTable.ClaimJob | cloud/src/jobs.ts:50-59 | accepted exactly for the device's own row that is queued or runs under this claim; a queued one has not expired, and its device is entitled to it; the row runs under the claim and was cancelled by request at no moment of the table's life; other rows are only pruned |
| JobsCode.JobTable.CancelJob | cloud/src/jobs.ts:50-52 | accepted exactly from a browser for a queued row; the row was claimed at no moment of the table's life; other rows are only pruned |
| JobsCode.JobTable.StartReporting | cloud/src/jobs.ts:53-63 | waits exactly if the row is the device's own, under the claim it shows, and the root signed the outcome |
| JobsCode.JobTable.FinishReporting | cloud/src/jobs.ts:64-67 | a row changes exactly if the report's guards hold; it takes the signed outcome and keeps its claim, which the device proved if it is the same row; other rows stay |
| Agent.SignatureFixesJob | internal/cloudsync/jobs.go:38-60 | jobs verified under one signature, however spelled, agree in all that is signed, expiry included |
| Agent.ExecutedAtMostOnce | internal/cloudsync/jobs.go:73-151 | over every run of polls, lost replies and crashes anywhere, with any server, each text of a signed job is executed at most once, also after its record was pruned or it was listed again |
| Agent.TwoSpellingsRunTwice | internal/cloudsync/jobs.go:58-111 | a server that lists one signed job under two spellings has it executed twice |
| Agent.SignedOnceIff | internal/cloudsync/jobs.go:58-111 | every run over allowed spellings executes each signed job at most once exactly if no job has two of them |
| Agent.CanonicalIsOneSpelling | internal/cloudsync/crypto.go:25-25 | the spellings that base64 writes are such |
| Agent.EveryJobHasTwoSpellings | internal/cloudsync/crypto.go:25-25 | all spellings together never are: a line break makes another one |
| Base64.DecodeEncoded | internal/cloudsync/crypto.go:25-25 | what is encoded decodes to the same bytes |
| Agent.ProcessKeeps | internal/cloudsync/jobs.go:86-149 | one call keeps every execution remembered or long expired, and none twice |
| Agent.JournalBeforeExecution | internal/cloudsync/jobs.go:112-134 | a job is journalled before it is claimed and executed only after an accepted claim |
| Agent.RoundIs | internal/cloudsync/jobs.go:104-149 | a job is executed exactly if it is genuine, runs out within a day, is unknown and waits, and is journalled and claimed; the recorded result of a fresh execution is the one it returned, of a known record the recorded one, each signed |
| Agent.AgentState.ProcessJobs | internal/cloudsync/jobs.go:73-151 | the code, with its loops and file, is that call, and at any moment of its life has executed no text twice |
| Agent.AgentState.PruneJournal | internal/cloudsync/jobs.go:95-99 | exactly the records expired for a week go |
| Exchange.GenuineIff | internal/cloudsync/jobs.go:38-60 | a listed job with the signature of a queued one is genuine to a device exactly if it is that very job, for this device |
| Exchange.ReceiptIff | cloud/src/jobs.ts:10-10 | the server takes a device's receipt exactly if it is for the row's job and the report says what the execution returned |
| Inventory.GeneratedCloudAlias | internal/cloudsync/local_inventory.go:217-231 | the alias is one that publication makes up for the entry |
| Inventory.GeneratedIff | internal/cloudsync/local_inventory.go:217-231 | the names that publication makes up are an alias with the beginning of the id, and perhaps a dash and digits |
| Inventory.SameRouteIff | internal/cloudsync/local_inventory.go:211-216 | one route means everything that leads to the host but the authentication |
| Inventory.ForeignRecordsUntouched | internal/cloudsync/local_inventory.go:58-60 | records of other vaults are not touched |
| Inventory.NativeRecordsKept | internal/cloudsync/local_inventory.go:42-57 | a record without an entry changes at most in its vault mark, unless it was marked, is tombstoned, and neither pinned nor the jump host of a record that stays |
| Inventory.LostMarkersAreRebound | internal/cloudsync/local_inventory.go:187-210 | a cloud marker that lost its binding ends bound to its only candidate, or goes as an unprotected leftover or duplicate |
| Inventory.StaleRecordsGo | internal/cloudsync/local_inventory.go:42-100 | a record of a deleted or vanished entry, a marked native one with a tombstone, and a generated duplicate go, unless pinned or the jump host of a record; their name may then list a live entry |
| Inventory.NothingStaleIsListed | internal/cloudsync/local_inventory.go:66-74 | a record that still leads to a deleted entry is pinned or was a jump host |
| Inventory.ReferencesResolve | internal/cloudsync/local_inventory.go:66-75 | the default and the servers of projects resolve after as before |
| Inventory.IndexRestoresIff | internal/config/cloud_bindings.go:27-55 | the saved index gives back all bindings stripped from the configuration exactly if every binding names its vault |
| Inventory.IndexKeepsLines | internal/config/cloud_bindings.go:36-55 | the index moves no binding to a record that leads elsewhere and replaces none |
| InventoryCode.CleanupProtected | internal/config/config.go:146-168 | true exactly for a record that is marked, the default, used by a project or another's jump host |
| InventoryCode.ProjectsUsingServer | internal/config/config.go:116-128 | the projects that name the alias, sorted |
| InventoryCode.ServersUsingProxyJump | internal/config/config.go:131-143 | the other records that jump through the alias, sorted |
| InventoryCode.Catalogue.FreeName | internal/cloudsync/local_inventory.go:134-137 | the search for a free name ends, and ends at a free name |
| InventoryCode.Catalogue.NewName | internal/cloudsync/local_inventory.go:127-138 | the name of a new record is free, and the least alias or made up from it |
| InventoryCode.Catalogue.RestoreLegacyBindings | internal/cloudsync/local_inventory.go:187-210 | exactly the lost markers with one candidate are bound to it |
| InventoryCode.Catalogue.Sweep | internal/cloudsync/local_inventory.go:38-79 | the first pass, in any order, removes or notes every stale record that nothing protects and removes nothing else that may not go, marks the native records of listed connections, strands no jump host and notes every reference |
| InventoryCode.Catalogue.CollapseDuplicates | internal/cloudsync/local_inventory.go:84-100 | the second pass removes every unprotected generated duplicate of a record that stays, and only such |
| InventoryCode.Catalogue.PlaceAll | internal/cloudsync/local_inventory.go:111-173 | the third pass makes every live entry reachable, makes a new record only for an entry that had none, under its least alias or a name made up from it, takes no name in use, keeps the device's own route and shows the vault's observations, and counts each entry once |
| InventoryCode.RelistingIsStable | internal/cloudsync/local_inventory.go:139-171 | publishing a record again changes nothing, and keeps a route chosen on this device |
| InventoryCode.ConfigFile.PublishInventory | internal/cloudsync/local_inventory.go:25-183 | publication is these passes in one transaction: every live entry ends with a native match or a record bound to it, and what had to go is gone; an error leaves the configuration as it was exactly if it arose before the save; after an error of the index or of the summary the publication stands |
| InventoryCode.PublishedDespiteError | internal/cloudsync/local_inventory.go:175-182 | an error with the entries already listed: the index could not be written |
| InventoryCode.ConfigFile.ApplyIndex | internal/config/cloud_bindings.go:36-55 | the loop over the index restores exactly the bindings that records lost and still fit |
| InventoryCode.ConfigFile.SaveIndex | internal/config/cloud_bindings.go:27-35 | the index lists exactly the records with a vault, or stays as it was |
| InventoryCode.ConfigFile.SaveSummary | internal/cloudsync/inventory_summary.go:21-33 | the summary counts exactly the entries that are not deleted, or stays as it was |
| LocalStore.PutResolves | internal/localstore/store.go:277-329 | what is put is what resolves, unless its key file changed or cannot be read |
| LocalStore.IdentityIff | internal/localstore/credentials.go:143-166 | two targets with an identity share it exactly if host, user, kind, key path, entry and port agree, and, unless unpublished, the vault |
| LocalStore.ResolveIff | internal/localstore/store.go:297-332 | a target resolves to its own credentials, and only without any to that of its key file; never if it is disabled or a key file stands in the way |
| LocalStore.SecretsAre | internal/localstore/store.go:393-436 | a secret that is set is there, those with the prefix go, and no other changes |
| LocalStore.ResolveOpened | internal/localstore/store.go:304-329 | the code of resolution, with the key-file fallback and the loop over key files |
| LocalStore.Store.Update | internal/localstore/store.go:156-231 | success means that what the step made of the contents is stored; on an error the store keeps its contents exactly if the rename was not reached; a locked store takes none |
| LocalStore.StoredDespiteError | internal/localstore/files.go:50-80 | an error with the store already replaced: the sync of the directory failed after the rename |
| LocalStore.Store.ResolveTarget | internal/localstore/store.go:282-293 | resolution reads an unlocked store, and never succeeds for a disabled identity |
| LocalStore.Store.Lock | internal/localstore/store.go:437-447 | success means locked; so may an error of the directory sync |
| LocalStore.Store.Unlock | internal/localstore/store.go:448-466 | unlocking succeeds exactly if the store opens and the mark goes, and only then the store is unlocked |
| Remember.ImportKeepsDisabled | internal/cloudsync/local_credentials.go:57-171 | an import never reactivates an identity disabled when it began and keeps its stored credentials, whatever the vault and configuration |
| Remember.DisabledUntilRegistered | internal/localstore/store.go:304-358 | over every run of the store, with failures, locks and unlocks, a disabled identity does not resolve, not even through a key file, and keeps its credentials, until a credential is registered for it |
| Remember.LockedUntilUnlocked | internal/localstore/store.go:437-466 | over every run a locked store is changed by nothing until it is unlocked |
| Remember.Importer.FindEntry | internal/cloudsync/load_agent.go:118-152 | the entry that serves a target, if it is the only one |
| Imports.MatchingIff | internal/cloudsync/load_agent.go:118-152 | a published target is served by its own entry, another one by the only active entry that leads to its host and user the same way, a target of another vault and a lost marker by none |
| Imports.GatherIff | internal/cloudsync/local_credentials.go:94-156 | the loop gathers exactly what the entry's credentials give: its passwords, and the keys that open, prove their fingerprint and fit the target's key file |
| Imports.StageIs | internal/cloudsync/local_credentials.go:75-171 | a target is disabled exactly if this vault deleted it; else it gets exactly what its entry gives, if that is something and not two passwords; nothing else in the store changes |
| Imports.UnreadableStops | internal/cloudsync/local_credentials.go:141-151 | a key file that cannot be read stops the import before anything is stored for the target |
| Imports.OthersGetNothing | internal/cloudsync/local_credentials.go:94-171 | a target to which no active entry leads, by host, port, user and way, gets nothing |
| Remember.Importer.GatherSecrets | internal/cloudsync/local_credentials.go:99-153 | the loop with its cache of parsed keys gathers what parsing every time would |
| Remember.RememberVault | internal/cloudsync/local_credentials.go:35-176 | success is the whole import as one transaction; on an error the store keeps its contents exactly if the rename was not reached, else it holds the whole import; a locked store takes none |
| Shell.KeysAreDistinct | internal/cloudsync/shell.go:78-90 | each direction of each session has its own key label, whatever characters the session id has |
| Shell.AadFixesFrame | internal/cloudsync/shell.go:96-98 | the associated data of a frame name its session, direction and counter, whatever characters the session id has |
| Shell.OpenSealed | internal/cloudsync/shell.go:99-131 | what is sealed opens to the same payload and both counters advance together |
| Shell.AcceptedIsPrefix | internal/cloudsync/shell.go:112-131 | under any dropping, reordering, repeating or inventing network the accepted payloads are a prefix of those sealed |
| Shell.NoncesNeverRepeat | internal/cloudsync/shell.go:91-111 | no nonce repeats in a direction, up to the limit of 2^32 |
| Shell.NextFrameIsAccepted | internal/cloudsync/shell.go:112-131 | the next frame, delivered as sealed, is accepted |
| Shell.ShellCipher.SealPayload | internal/cloudsync/shell.go:99-111 | a frame exactly for a payload of at most 32768 bytes below the limit; a peer at the same count opens it to that payload and stays in step; its nonce is new; a refusal does not advance the counter |
| Shell.ShellCipher.OpenFrame | internal/cloudsync/shell.go:112-131 | accepted exactly if it is the frame that a peer at the same count makes next, with the payload sealed in it; a refusal does not advance the counter |
| Terminal.SignatureFixesRequest | internal/cloudsync/shell.go:25-41 | one signature stands for one request in all three message versions, even with line breaks in the session id |
| Terminal.AtMostTwoSessions | internal/cloudagent/agent.go:181-204 | in every state of a connection at most two sessions and 256 remembered requests |
| Terminal.AdmittedAgainIff | internal/cloudagent/agent.go:181-204 | a request is admitted a second time exactly when there is room and it expires between the check of its signature and the moment its session is forgotten |
| Terminal.AdmittedAtMostOnce | internal/cloudagent/agent.go:181-204 | without such a delay each signed request is admitted at most once |
| Terminal.AdmittedTwice | internal/cloudagent/agent.go:181-204 | with it there is a run that admits one request twice |
| Terminal.Connection.OnOpen | internal/cloudagent/agent.go:180-204 | admitted exactly if it verifies and there is room, and a second time only if it expires while handled; at most two sessions; without such a delay no request was ever admitted twice |
| Terminal.Connection.CloseSession | internal/cloudagent/agent.go:136-144 | the end of a session makes room, and the bounds and the single admission of requests stay |
| SessionKeys.UsedOnceIff | internal/cloudagent/agent.go:180-204 | on every connection, whatever its sessions send, no key is used twice with a nonce exactly if no session id was admitted twice |
| SessionKeys.RequestsOnceIff | internal/cloudagent/agent.go:180-204 | if session ids are not chosen twice, that is exactly if no request was admitted twice |
| SessionKeys.PromptKeysAreFresh | internal/cloudagent/agent.go:180-204 | so it holds of every connection that handles no request across its expiry |
| SessionKeys.KeyUsedTwice | internal/cloudagent/agent.go:198-203 | for every genuine request there is a connection on which its key is used twice with a nonce |
| SessionKeys.FramesOpenIff | internal/cloudsync/shell.go:78-131 | a frame made for one admitted request opens for another at the same count exactly if they have one session id, to the same payload |
| Transfer.AttemptIsAtomic | internal/mcp/transfer_core.go:29-107 | a failure leaves the destination; an expected hash is honoured whatever the partial file held; a resumed partial file never shrinks |
| Transfer.ResumeIsSafe | internal/mcp/transfer_core.go:29-107 | over any number of interrupted attempts on an unchanged source the partial file stays a prefix and the destination is old or exactly the source |
| Transfer.StalePartIsInstalled | internal/mcp/transfer_core.go:36-43 | without an expected hash a stale partial file of the same length is installed as it is |
| Transfer.InstallsSourceIff | internal/mcp/transfer_core.go:29-107 | a successful attempt installs exactly the source if and only if it started afresh or resumed a prefix of it |
| Transfer.Download.CopyRounds | internal/mcp/transfer_core.go:59-91 | the copy loop appends exactly the chunks read until the source ends or something fails |
| Transfer.Download.Copy | internal/mcp/transfer_core.go:29-107 | the code of an attempt is the attempt |

## Left out

- Nil and empty slices and maps are one value, so a difference that only `reflect.DeepEqual` sees between them is not modelled.
- Entries and conflict sides are values: sharing of a `Sources` map between two of them is not modelled.
- Case folding and white space are ASCII, and lengths are counted in characters.
- Key derivation, ciphers, key parsing, JSON, HTTP and rate limits are ideal or parameters.
- Signatures have one spelling, except those of the jobs that a device is given: the server compares spelled texts, so that a put, a job or a receipt under another spelling of its signature is another one to it.
- Account deletion, the browser's vault editor, heartbeats and device labels, and polling of a link request.
- Rotation in runs with clients: `Sync` has none, `AccountRuns` has it on the server.
- The state lock gives one client process at a time per account file; it is not modelled.
- A request reads the server's clock once per half, and the journal's pruning once per call.
- The counters of import reports. The summary file is a value, and reading it back is not modelled.
- MergeLaws.IterationOrderIrrelevantIff: where a merge closes a conflict, what the closing is built on is taken to be orderly. One outcome implies an orderly last merge without that (MergeLaws.OneOutcomeIsOrderly); whether an orderly last merge hides the differences of a disorderly one before it is characterised only for sources that do not clash with those of the entry (Sources.HiddenIff).
- The closing activity import of `ImportProtected` is the one of `Import`.
- cloud/src/relay.ts, the terminal processes and the timeouts of sessions.
- Uploads of files, the transfer manager, the CLI, the wizards and the installers: interface code outside the model.
