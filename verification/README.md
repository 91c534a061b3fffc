# CodexManager: verified model

CodexManager switches a Codex profile between accounts, aggregate APIs and its own gateway, keeps a
SQLite store behind a small connection shim, registers agent tasks, caches the official model
catalog, and reloads running app servers. This project models the parts of it that hold state over
several steps and proves what those steps keep, in Dafny 4.11. `dafny verify dfyconfig.toml` checks
everything.

## Components

- `MutationLease` is the lock lease shared by all profile mutations, as a state machine over
  requests, phases on worker threads and cancellations, with the files left abstract.
- `ProfileStore`, `ModelApply` and `ProfileSync` specify the profile operations on five files per
  profile and three settings, step by step, with a fault plan that may make any step fail.
  `ProfileManager` is the same code as methods of an object that updates those files and settings;
  each method is proved to leave exactly the specified store. `CodexConfig` holds the `config.toml`
  patches. `ProfileRuns` and `CatalogPointer` prove properties of whole runs of operations;
  `SwitchResults` and `SyncResults` say what an operation that went through leaves, against its
  request, and exactly which requests go through.
- `HistoryRepair` is the repair of recorded sessions with its backups, `Rollout` the patching of one
  session file, `BackupRetention` the pruning that ends every repair.
- `SqliteSharing` is the single shared handle under any interleaving of threads; `SqliteConnection`
  one connection on one thread; `Placeholders` the rewriting of numbered placeholders.
- `AgentTask` and `OfficialCatalog` are two double-checked protocols with any number of workers;
  each has an object whose method is proved to be a run of the protocol. `TasksGiven` and
  `CatalogAnswers` say what a caller is given.
- `CatalogStore` is the table of managed models and the transaction that writes a batch of them;
  `ModelIds`, `ModelAssociation` and `AssociationOutcome` are the association of an upstream API's
  models with it: what is asked for, what is handed to the store, and what becomes of it.
- `ModelSelection` and `RuntimeReload` are algorithms over the selected models and the process tree.

In a fault plan `faults(k)` says whether the k-th file operation, settings write or settings read
fails. A settings read that fails does not end an operation: the source takes it for an absent
setting. `Calm` is the plan in which nothing fails. A statement without `Calm` holds for every plan.

## Where the code differs from what it promises

- A rolled-back selection restores every file and what every setting reads, but a settings row that
  was absent comes back as an empty row, and untrimmed text comes back trimmed
  (`ModelApply.FailedCommitRestores`, `ModelApply.AbsentRowBecomesEmpty`).
- That holds only if the settings could be listed when the old values were captured. If not, a commit
  that fails later blanks state, backups and current profile while reporting no failed compensation
  (`ProfileRuns.BlindCaptureBlanks`; the exact condition is in `ModelApply.FailedCommitRestores`).
- A backup taken while the backups cannot be read replaces all the others
  (`ProfileRuns.BlindSaveReplacesAll`; exactly when is `ProfileRuns.LostExactly`).
- A restore cut short between its last two settings, and a selection whose compensations fail
  unevenly, leave a state without a backup (`ProfileRuns.RestoreCutShort`,
  `ProfileRuns.SelectionLeavesStateBehind`; exactly when is `ProfileRuns.StrandedExactly`).
- A first switch that writes `config.toml` but not its state makes the next one remember the managed
  catalog as the user's own (`CatalogPointer.FirstSwitchLosesPointer`,
  `CatalogPointer.LostPointerStaysLost`; exactly when is `CatalogPointer.FirstSwitchKeepsPointer`).
- So does a switch in one of those modes that cannot read the state (`CatalogPointer.BlindSwitchForgets`;
  exactly when is `CatalogPointer.StepRemembers`).
- A `model_catalog_json` that is not a string is lost in gateway mode (`CatalogPointer.NonStringPointerIsLost`).
- The remembered row id is also missed by a query that inserts, not only by a batch
  (`SqliteConnection.FallbackMissesBatchAndQuery`).
- When ROLLBACK itself fails, the handle returns to the pool inside the open transaction, and a
  stranger's statement joins it (`SqliteSharing.StrangerJoinsLeakedTransaction`).
- A catalog file that cannot be read under the lock, or is of another version, counts as absent, so
  two snapshots may be less than 300 seconds apart (`OfficialCatalog.UnreadableIsRefetched`,
  `OfficialCatalog.OtherVersionIsRefetched`).
- One failure is remembered per account and operation, so a failure of other key material lifts the
  cool-down of the first (`AgentTask.OtherMaterialLiftsCoolDown`; a worker is turned away exactly as
  `AgentTask.RefusedExactly` says).
- A repair can remove the backup it has just made, because the newest three are told by their
  modification times; its summary then names a directory that is gone
  (`HistoryRepair.ClockSetBackLosesBackup`; exactly when is `HistoryRepair.SurvivesExactly`).
- A model that was renamed keeps the row id made of its first slug. Associating that slug overwrites it
  (`AssociationOutcome.RenamedModelIsOverwritten`), in some batches with an error after the commit
  (`AssociationOutcome.RenamedModelIsLostWithAnError`); all is well exactly as
  `AssociationOutcome.AllWellExactly` says.
- A route to the API that is disabled counts as present and stays disabled, so an associated model need
  not be usable (exactly when it is: `AssociationOutcome.EnabledExactly`).
- An edited route that keeps its id blocks the batch that adds its first target again
  (`AssociationOutcome.EditedRouteBlocks`; exactly when is `AssociationOutcome.CommitsExactly`).
- The sort order of new models can wrap around (`AssociationOutcome.SortOrderCanWrap`), and app servers
  whose parents form a cycle have no root to signal (`RuntimeReload.CyclicCandidatesHaveNoRoot`).

## Model

| member | source | states |
|---|---|---|
| MutationLease.PhasesNeverOverlap | crates/service/src/codex_profile.rs:52-86 | under every interleaving and cancellation, no two leased phases are on worker threads at once |
| MutationLease.FreeExactlyWhenAllDropped | crates/service/src/codex_profile.rs:62-86 | the mutex is free exactly when no mutation and no started phase still holds a clone of the guard |
| MutationLease.FilesAreSerial | crates/service/src/codex_profile.rs:52-86 | the files of any run equal those of the mutations done one at a time in lock order, a cancelled one contributing only its started phases |
| MutationLease.NothingChangesBetweenPhases | crates/service/src/codex_profile.rs:925-1021 | what a mutation read in one phase is still there when its next phase starts, whatever others do meanwhile |
| MutationLease.CancellationEnds | crates/service/src/codex_profile.rs:62-86 | after its cancellation a mutation never starts a phase, takes the lock or returns, and one that was waiting never had the lock; a phase that was running goes on, and until another mutation takes the lock the mutex is locked exactly while it runs |
| MutationLease.NeverStuck | crates/service/src/codex_profile.rs:48-86 | while a mutation is not over, or has left a phase behind, some step other than a cancellation can be taken |
| MutationLease.RunsToItsEnd | crates/service/src/codex_profile.rs:48-86 | with the lock free, a new mutation that is not disturbed runs to its end, does what it does alone, and gives the lock back |
| MutationLease.InvAlways | crates/service/src/codex_profile.rs:48-86 | the invariant the four results follow from: leases counted, one holder, replayed files, earlier mutations complete |
| CodexConfig.DirectPatch | crates/service/src/codex_profile.rs:2874-2913 | fails exactly when `model_providers` is not a table; otherwise the pointer goes back if it is the managed path, both managed providers lose their credentials, all else is kept |
| CodexConfig.GatewayPatch | crates/service/src/codex_profile.rs:2968-3015 | fails exactly when the providers or the `cm` table refuse; otherwise only provider choice, pointer and the `cm` table change |
| CodexConfig.GatewayProviderView | crates/service/src/codex_profile.rs:2992-3014 | the `cm` table gets the trimmed token, address and header, loses other ways of authenticating, and keeps every other entry and header the user has there |
| CodexConfig.BearerView | crates/service/src/codex_profile.rs:3156-3166 | a blank token is refused; otherwise the four conflicting keys go and nothing else changes |
| CodexConfig.HeaderView | crates/service/src/codex_profile.rs:3168-3184 | a header goes into a table or an inline table and leaves the other headers alone; anything else there is an error |
| CodexConfig.GatewayIsDetected | crates/service/src/codex_profile.rs:2621-2689 | what gateway mode writes is recognised again as gateway mode with the same address and transport |
| CodexConfig.DetectsExactly | crates/service/src/codex_profile.rs:2621-2689 | a document is recognised as gateway mode exactly if its provider is `cm`, or a token and this service's address are given in its table or outside; and what is then read from it |
| CodexConfig.AggregateExactly | crates/service/src/codex_profile.rs:2691-2715 | as direct-aggregate mode exactly if its provider is chosen and has a table with an address |
| CodexConfig.RestoreView | crates/service/src/codex_profile.rs:3029-3052 | the remembered pointer replaces a pointer to the managed catalog, and only that |
| CodexConfig.GatewayBaseUrlStays | crates/service/src/codex_profile.rs:1374-1386 | a normalised gateway address is its own normal form |
| CodexConfig.GatewayBaseUrlView | crates/service/src/codex_profile.rs:1374-1386 | the address is the given one, or the default, trimmed, without slashes at its end, and with `/v1` unless it ends so |
| CodexConfig.AggregatePatch | crates/service/src/codex_profile.rs:2915-2966 | fails exactly when the providers are not a table or the secret is blank; otherwise only the choices, the pointer and the aggregate's own table change |
| CodexConfig.AggregateProviderView | crates/service/src/codex_profile.rs:2946-2964 | name, token, address, transport and sign-in of the aggregate API's table, and exactly its headers |
| CodexConfig.AggregateIsDetected | crates/service/src/codex_profile.rs:2691-2715 | what aggregate mode writes is recognised as that mode exactly when the address is not blank |
| CodexConfig.GatewayThenDirect | crates/service/src/codex_profile.rs:2834-3015 | gateway and back restores every entry but the provider choice and the managed providers; the pointer comes back exactly when it was absent or a string |
| CodexConfig.GatewayTwice | crates/service/src/codex_profile.rs:2968-3015 | applying the same gateway again changes nothing |
| ProfileStore.MigrateView | crates/service/src/codex_profile.rs:1474-1491 | moving the legacy marker touches only the two marker files, never overwrites a marker, and removes the old one |
| ProfileStore.EnsureBackupView | crates/service/src/codex_profile.rs:3494-3512 | a backup is taken only if none is seen, holds both files as they are, and is saved with the ones seen; every file and other setting is left alone |
| ProfileStore.BackupsKeptExactly | crates/service/src/codex_profile.rs:3494-3525 | the earlier backups all survive exactly if they could be read, or the save failed, or there was nothing but the one that is saved |
| ProfileStore.EnsureBackupKeeps | crates/service/src/codex_profile.rs:3494-3525 | the same for each profile's backup by itself |
| ProfileStore.CarryView | crates/service/src/codex_profile.rs:3450-3492 | wherever the writing part of a switch stops, the document is the new one exactly if it was written, the state exactly if it was saved, and the backups and other profiles are as they were |
| ProfileStore.ManagedStateView | crates/service/src/codex_profile.rs:3467-3492 | marker and state are written from one value; a failure leaves the settings as they were |
| ProfileStore.FinishView | crates/service/src/codex_profile.rs:1388-1393 | the current profile is remembered and only markers may still move |
| ProfileStore.SavedBackups | crates/service/src/app_settings/store.rs:86-89 | saved backups read back despite the trimming of setting values |
| ModelApply.FailedCommitRestores | crates/service/src/codex_profile.rs:1077-1214 | a commit that fails at any step, its compensations all succeeding, leaves every file exactly as it was; the settings read as before exactly if the table could be read at the capture, or was empty, or nothing had been done yet |
| ModelApply.FailedCommitRows | crates/service/src/codex_profile.rs:1121-1214 | with a capture that succeeded, a raw row is the same exactly if it was present and trimmed |
| ModelApply.CommittedModels | crates/service/src/codex_profile.rs:1077-1119 | a commit that succeeds holds all its new values, has a backup for its profile, and keeps `auth.json` |
| ModelApply.EachWrittenBack | crates/service/src/codex_profile.rs:1138-1195 | every single write-back that succeeds restores its value whatever the others do |
| ModelApply.TakesEffect | crates/service/src/codex_profile.rs:1138-1208 | each compensation is attempted and takes effect unless it fails itself |
| ModelApply.FailureKeeps | crates/service/src/codex_profile.rs:1138-1208 | a failed compensation leaves its value as the commit left it |
| ModelApply.NoErrorNoFault | crates/service/src/codex_profile.rs:1137-1208 | no collected error means exactly that no write-back failed, nor the removal of a managed directory the commit had created |
| ModelApply.Untouched | crates/service/src/codex_profile.rs:1138-1195 | the way back changes nothing but the seven values |
| ModelApply.NewValuesOwned | crates/service/src/codex_profile.rs:1086-1108 | the commit itself changes nothing but the seven values, at whatever step it stops |
| ModelApply.ResavedReadsSame | crates/service/src/app_settings/store.rs:86-89 | a row written back reads the same; its raw text is the same exactly if it was present and trimmed |
| ModelApply.AbsentRowBecomesEmpty | crates/service/src/app_settings/store.rs:86-89 | an absent row comes back as an empty one: the raw row differs although it reads as absent |
| ProfileSync.SyncSettles | crates/service/src/codex_profile.rs:3205-3382 | after a sync that went through, slugs and catalog are exactly the stored models named by the selection after all renames and removals, in store order; if none is left outside gateway mode the user's pointer is back |
| ProfileSync.SettledSlugs | crates/service/src/codex_profile.rs:3282-3318 | in each branch of the second phase the slugs are those of the matching models; it detaches exactly when nothing matches and there is no gateway key to fall back on |
| ProfileSync.EmptySelectionHasKey | crates/service/src/codex_profile.rs:3285-3292 | where the code expects a validated gateway key it has one |
| ProfileSync.PlanView | crates/service/src/codex_profile.rs:3212-3266 | the first phase changes nothing of the state but the selection, and goes on with a selection only if the document points at the managed catalog |
| ProfileSync.SyncedPointer | crates/service/src/codex_profile.rs:3320-3354 | the pointer after a sync: given back on detaching, the managed catalog in gateway mode, untouched otherwise |
| ProfileSync.WriteSyncedView | crates/service/src/codex_profile.rs:3356-3379 | catalog, document, marker and state are written only as decided; a failure leaves the settings alone |
| ModelSelection.ApplyManagedModelSelectionChanges | crates/service/src/codex_profile.rs:3384-3418 | the in-place loop maps each slug through all changes in order and then drops blanks and case-insensitive duplicates; it reports whether anything changed |
| ModelSelection.Retain | crates/service/src/codex_profile.rs:3412-3416 | the `retain` pass keeps the first slug of each key |
| ModelSelection.DeduplicatedKeys | crates/service/src/codex_profile.rs:3412-3416 | exactly the nonblank keys survive |
| ModelSelection.DeduplicatedOnce | crates/service/src/codex_profile.rs:3412-3416 | each key survives once, as a slug of the list |
| ModelSelection.RewriteAllThen | crates/service/src/codex_profile.rs:3388-3410 | rewriting the list change by change equals mapping each slug through all the changes |
| ModelSelection.MatchingMembers | crates/service/src/codex_model_catalog.rs:219-250 | the matched models are exactly the stored ones the selection names |
| ModelSelection.MatchingFollowed | crates/service/src/codex_model_catalog.rs:219-250 | dropping blanks and duplicates does not change which stored models are matched |
| ModelSelection.SelectedIsComplete | crates/service/src/codex_model_catalog.rs:161-217 | an accepted selection is matched in full, and is never empty |
| ModelSelection.SelectedExactly | crates/service/src/codex_model_catalog.rs:161-217 | a selection is accepted exactly if it has a nonblank slug and every such slug has its stored model; it then lists, in store order, exactly the stored models it names |
| ModelSelection.MatchingPicks | crates/service/src/codex_model_catalog.rs:219-250 | the same list for a selection that is brought in line, whatever it names |
| ProfileRuns.RestoreReturnsFirst | crates/service/src/codex_profile.rs:1245-1272 | in any run, a restore that succeeds returns `auth.json` and `config.toml` to the contents or absence they had when the first switch since the last restore took the backup, through any operations, edits and failures that did not lose it |
| ProfileRuns.BackupStays | crates/service/src/codex_profile.rs:635-1272 | in any run a backup stays as it is while no operation loses it |
| ProfileRuns.LostExactly | crates/service/src/codex_profile.rs:635-1272 | for every operation and every plan, a backup survives unchanged exactly unless a blind save overwrites it, a selection that captured blindly writes the settings back, or its own restore removes it |
| ProfileRuns.SeeingLosesNothing | crates/service/src/codex_profile.rs:3521-3525 | whatever else fails, an operation whose reads of the settings succeed loses no backup but the one it restores |
| ProfileRuns.BlindSaveReplacesAll | crates/service/src/codex_profile.rs:3494-3525 | input that loses them: the backups cannot be read and the save succeeds, so one entry replaces them all |
| ProfileRuns.BlindCaptureBlanks | crates/service/src/codex_profile.rs:1121-1195 | input that loses everything: the settings cannot be listed at the capture and the commit fails later; its rollback reports no error and leaves neither state nor backups |
| ProfileRuns.PerformGuarded | crates/service/src/codex_profile.rs:635-1272 | whatever fails, every backup an operation leaves is an old one or holds the files as it found them, and no other profile's file is touched |
| ProfileRuns.StateAlwaysHasBackup | crates/service/src/codex_profile.rs:3494-3529 | in any run a stored state has a backup for its profile while no operation strands it |
| ProfileRuns.StrandedExactly | crates/service/src/codex_profile.rs:635-1272 | the failures of every operation that leave a state without its backup, as an exact condition on the store and the plan at the start |
| ProfileRuns.ReadableSelectionStrands | crates/service/src/codex_profile.rs:1137-1195 | when the settings can be read, a failed selection strands the state exactly if the state was already saved, its write-back fails, that of the backups does not, and the profile had no backup |
| ProfileRuns.SelectionLeavesStateBehind | crates/service/src/codex_profile.rs:1102-1195 | a run that does so: the last setting cannot be saved and the state cannot be written back |
| ProfileRuns.RestoreCutShort | crates/service/src/codex_profile.rs:1245-1272 | a restore strands its profile's state exactly if all goes well up to forgetting the backup and then the state cannot be read or cleared |
| ProfileRuns.CalmStrandsNothing | crates/service/src/codex_profile.rs:635-1272 | without failures no operation strands a state |
| ProfileRuns.SwitchHasBackup | crates/service/src/codex_profile.rs:635-1119 | every switch that succeeds leaves its profile with a backup |
| ProfileRuns.CalmOperationSucceeds | crates/service/src/codex_profile.rs:635-1272 | when nothing fails, an operation succeeds exactly when its request is in order and the texts it patches can be patched; so the statements about successful operations are not empty |
| ProfileRuns.SwitchedView | crates/service/src/codex_profile.rs:635-1022 | what a switch of any kind leaves wherever it stops: document and state are old or new exactly by how far it got, other profiles are untouched |
| ProfileRuns.SelectionView | crates/service/src/codex_profile.rs:1077-1119 | the same for the commit of a selection before any compensation |
| ProfileRuns.StateAfterUndo | crates/service/src/codex_profile.rs:1137-1195 | the state after the way back: the old one, none after a blind capture, or the commit's if the write-back failed |
| ProfileRuns.BackupsAfterUndo | crates/service/src/codex_profile.rs:1137-1195 | the backups after the way back, likewise |
| ProfileRuns.RestoreView | crates/service/src/codex_profile.rs:1245-1272 | a restore, wherever it stops: which of files, markers, backup and state it has dealt with |
| ProfileRuns.SyncView | crates/service/src/codex_profile.rs:3205-3382 | a sync keeps every backup and the profile of the state, and changes no setting when it does not go through |
| SwitchResults.AccountSwitch | crates/service/src/codex_profile.rs:635-717 | an account switch that goes through: `auth.json` is the request's; in the document the provider choice and `cm_aggregate` are gone, the `cm` table has neither address nor token, and all other entries and providers stay; state and marker name the account and nothing else. Without failures it goes through exactly if the request is in order and the document parses with providers in a table |
| SwitchResults.GatewaySwitch | crates/service/src/codex_profile.rs:915-1022 | the same for a gateway switch: token, address, transport and header of the `cm` table, catalog, state and marker are the request's, `auth.json` stays; and exactly when it goes through |
| SwitchResults.AggregateSwitch | crates/service/src/codex_profile.rs:731-897 | the same for an aggregate switch: table, headers, default model, catalog and slugs, which list in store order exactly the stored models the upstream's names stand for; and exactly when it goes through |
| SwitchResults.ReadyExactly | crates/service/src/codex_profile.rs:1036-1063 | a selection is ready exactly if the request is in order, the document parses, a slug is nonblank and none is unknown; what is ready are exactly the models it names, in store order |
| SwitchResults.SelectionResult | crates/service/src/codex_profile.rs:1036-1119 | a selection that goes through: catalog and saved slugs are those models, the document changes in its pointer only, `auth.json` stays; without failures the rest of the state is the one there was, or the marker's, or what the files look like |
| SyncResults.SyncedDocument | crates/service/src/codex_profile.rs:3205-3382 | after a sync with a key, the user's choice of websockets is kept while the key allows it and the document is that of gateway mode for the stored address and the key's secret; otherwise the transport stays and the document changes in its pointer at most |
| SyncResults.SyncsExactly | crates/service/src/codex_profile.rs:3205-3382 | exactly when a sync goes through without failures, from the store and what is known of the key |
| CatalogPointer.PointerComesBack | crates/service/src/codex_profile.rs:2834-3052 | after a gateway or aggregate switch that saved its state, any operations that forget nothing, and an account switch that reads the state, `model_catalog_json` is what was remembered at the start, whatever else failed; that is the original exactly when it was absent or a string, or already remembered so |
| CatalogPointer.StepRemembers | crates/service/src/codex_profile.rs:2834-2872 | under every plan, an operation in those modes keeps the remembered value, with the pointer at the managed catalog or back at that value, exactly unless one of the listed failures makes it forget |
| CatalogPointer.RepointRemembers | crates/service/src/codex_profile.rs:2854-2872 | a switch within those modes forgets exactly if it could not read the state, saved a new one, and the pointer did not stand at the remembered value |
| CatalogPointer.SelectionRemembers | crates/service/src/codex_profile.rs:3078-3149 | a selection forgets exactly if the state it leaves was formed without reading the old one and does not happen to agree, or the old one is written back from a blind capture |
| CatalogPointer.SyncRemembers | crates/service/src/codex_profile.rs:3205-3382 | a sync never forgets, wherever it stops |
| CatalogPointer.SeeingForgetsNothing | crates/service/src/codex_profile.rs:3514-3519 | whatever else fails, an operation that can read the settings it looks for forgets nothing |
| CatalogPointer.FirstSwitchKeepsPointer | crates/service/src/codex_profile.rs:915-1022 | the first switch into those modes, under every plan, leaves the user's pointer to be remembered exactly unless `config.toml` was written and the state was not |
| CatalogPointer.FirstSwitchRemembers | crates/service/src/codex_profile.rs:2834-2872 | once the state is saved, the pointer is remembered |
| CatalogPointer.FirstSwitchLosesPointer | crates/service/src/codex_profile.rs:915-1022 | input that loses it: a gateway switch fails only at saving the state; the next switch takes the managed catalog for the user's own |
| CatalogPointer.LostPointerStaysLost | crates/service/src/codex_profile.rs:2834-2913 | after such a failure and a retry, an account switch returns the managed catalog |
| CatalogPointer.BlindSwitchForgets | crates/service/src/codex_profile.rs:2854-2872 | input that forgets: a repeated gateway switch that cannot read the state |
| CatalogPointer.DirectReturns | crates/service/src/codex_profile.rs:2896-2912 | an account switch puts the remembered value back exactly if it could read the state, or the pointer stood there already |
| CatalogPointer.NonStringPointerIsLost | crates/service/src/codex_profile.rs:2847-2851 | a pointer that is not a string is not remembered |
| ProfileManager.Manager.SwitchToAccount | crates/service/src/codex_profile.rs:635-717 | the steps in the source's order leave the specified store, at whatever step they stop |
| ProfileManager.Manager.SwitchToAggregate | crates/service/src/codex_profile.rs:731-897 | the same for an aggregate switch in its two phases |
| ProfileManager.Manager.SwitchToGateway | crates/service/src/codex_profile.rs:915-1022 | the same for a gateway switch |
| ProfileManager.Manager.CommitSelection | crates/service/src/codex_profile.rs:1077-1136 | the commit with its snapshot, taken from a table that may not be readable, and its way back |
| ProfileManager.Manager.RollBack | crates/service/src/codex_profile.rs:1137-1208 | the seven compensations, all attempted, and the removal of a directory the commit created, with the number that failed |
| ProfileManager.Manager.SelectModels | crates/service/src/codex_profile.rs:1036-1074 | patching, choosing and committing a selection |
| ProfileManager.Manager.Restore | crates/service/src/codex_profile.rs:1245-1272 | the restore, step by step |
| ProfileManager.Manager.SyncActive | crates/service/src/codex_profile.rs:3205-3382 | the sync in its three phases |
| ProfileManager.Manager.EnsureBackupOf | crates/service/src/codex_profile.rs:3494-3512 | the backup, taken only if none is seen |
| ProfileManager.Manager.CarryOut | crates/service/src/codex_profile.rs:3450-3492 | what every switch writes, in order, each step only if the one before succeeded |
| HistoryRepair.ProfileHome.Repair | crates/service/src/codex_profile.rs:1710-1823 | whatever fails, each file is as it was or wholly repaired, and just before the pruning what changed has its former contents in the new backup directory, the others being as they were; then the directories are pruned unless they cannot be listed. Without failures the repair is complete and exactly counted; with nothing to repair no backup is made and none is removed |
| HistoryRepair.SurvivesExactly | crates/service/src/codex_profile.rs:2288-2340 | at the end a directory, the new one included, is there exactly if the listing failed, its own removal failed, none listed comes before it, or fewer than three do and it is young enough |
| HistoryRepair.IntactExactly | crates/service/src/codex_profile.rs:2288-2340 | and it is complete exactly if so, a failed removal counting only if it has left everything |
| HistoryRepair.ClockSetBackLosesBackup | crates/service/src/codex_profile.rs:2296-2325 | input: three directories of later modification times, as after the clock was set back; the repair removes the backup it has just made |
| HistoryRepair.ProfileHome.PruneBackups | crates/service/src/codex_profile.rs:2288-2340 | lists and prunes; a listing that fails removes nothing |
| HistoryRepair.ProfileHome.CarryOut | crates/service/src/codex_profile.rs:1748-1807 | everything between the plan and the pruning; without the directory nothing is done, and no other directory changes |
| HistoryRepair.ProfileHome.PlanRepair | crates/service/src/codex_profile.rs:1727-1744 | what could be read and needs repair, and nothing else; all of it if nothing fails |
| HistoryRepair.RepairIsComplete | crates/service/src/codex_profile.rs:1710-1823 | a complete repair leaves nothing to repair, so a second one changes nothing |
| HistoryRepair.IndexIsComplete | crates/service/src/codex_profile.rs:2104-2176 | after the repair every thread of the database is in the session index |
| HistoryRepair.AppendedIds | crates/service/src/codex_profile.rs:2154-2176 | extending the index keeps every id it had and adds those of the new entries |
| HistoryRepair.UpdatedDbView | crates/service/src/codex_profile.rs:2127-2152 | row by row: in a table with ids and providers every thread names the target afterwards, nothing else of a row changes, and a row that named it stays; any other table stays |
| HistoryRepair.OutdatedCounts | crates/service/src/codex_profile.rs:1996-2009 | the reported number of rows is the number of those that name another provider, or none |
| HistoryRepair.EntryView | crates/service/src/codex_profile.rs:2049-2102 | an index entry has the thread's id, the first of title, first message and id that the table has a column for, and its time in milliseconds |
| HistoryRepair.NothingMissing | crates/service/src/codex_profile.rs:2049-2102 | no entry is missing exactly when every thread's id is indexed |
| HistoryRepair.ProfileHome.RepairRollouts | crates/service/src/codex_profile.rs:1767-1775 | each rollout is backed up before it is replaced; a failure leaves it and goes on to the next |
| HistoryRepair.ProfileHome.RepairDb | crates/service/src/codex_profile.rs:1777-1784 | the database is updated only after its snapshot |
| HistoryRepair.ProfileHome.RepairIndex | crates/service/src/codex_profile.rs:1786-1796 | the index is extended only after its copy |
| HistoryRepair.ProfileHome.CollectRolloutUpdates | crates/service/src/codex_profile.rs:1865-1886 | exactly the rollouts that need it, each with its patched text |
| HistoryRepair.MissingSessionIndexEntries | crates/service/src/codex_profile.rs:2049-2102 | one entry for each thread whose id is not indexed, in id order |
| HistoryRepair.AppendedIndex | crates/service/src/codex_profile.rs:2154-2176 | the last line is ended first, then one line per entry |
| HistoryRepair.LineTextView | crates/service/src/codex_profile.rs:2104-2125 | a line loses its newline and one carriage return before it; a last line without newline keeps its end |
| HistoryRepair.ReadSessionIndexIds | crates/service/src/codex_profile.rs:2104-2125 | the string ids of the lines that parse |
| Rollout.PatchedRollout | crates/service/src/codex_profile.rs:1921-1982 | patching keeps the number of lines, every terminator and every other line; all `session_meta` lines name the target; patching again reports no change |
| Rollout.PatchRolloutProvider | crates/service/src/codex_profile.rs:1921-1941 | reports a change exactly when a line needs one, and returns the patched lines |
| Rollout.PatchedSegment | crates/service/src/codex_profile.rs:1943-1982 | a patched line differs in nothing but its provider |
| Rollout.SegmentExactly | crates/service/src/codex_profile.rs:1921-1982 | what stands before a line's carriage returns and newline is rewritten exactly if it is a `session_meta` object with an object payload that does not name the target; then its provider is replaced, nothing else, and the endings stay |
| BackupRetention.BackupRoot.Prune | crates/service/src/codex_profile.rs:2288-2340 | keeps the newest-first prefix and what could not be removed, and reports counts and bytes |
| BackupRetention.KeptIsPrefix | crates/service/src/codex_profile.rs:2304-2325 | the kept backups are a newest-first prefix, never empty when there are any, at most three, all but the first young enough |
| BackupRetention.KeptByPlace | crates/service/src/codex_profile.rs:2304-2325 | a backup is kept exactly if none comes before it, or fewer than three do and it is young enough |
| BackupRetention.PruneTwice | crates/service/src/codex_profile.rs:2288-2340 | pruning again at the same time removes nothing |
| BackupRetention.ReportedBytes | crates/service/src/codex_profile.rs:2288-2340 | bytes before equal bytes kept plus bytes removed exactly when the total does not saturate |
| BackupRetention.SortedIsNewestFirst | crates/service/src/codex_profile.rs:2296-2302 | the listing is ordered newest first and loses nothing |
| SqliteSharing.SlotMeansHeld | crates/rusqlite/src/lib.rs:161-209 | in every interleaving a filled slot means that transaction holds the single handle |
| SqliteSharing.OwnerNeverWaits | crates/rusqlite/src/lib.rs:268-303 | a statement of the owner thread never waits on the pool |
| SqliteSharing.SecondRefusalUnreachable | crates/rusqlite/src/lib.rs:182-196 | the second `transaction already active` branch is unreachable |
| SqliteSharing.OnlyOwnersInside | crates/rusqlite/src/lib.rs:268-303 | between BEGIN and its end only the transaction or its owner thread issues statements |
| SqliteSharing.LeakedExactlyAfterFailedRollback | crates/rusqlite/src/lib.rs:908-1003 | an open transaction with nobody in charge exists exactly after a ROLLBACK that failed |
| SqliteSharing.LeakHappens | crates/rusqlite/src/lib.rs:988-1003 | such a run exists |
| SqliteSharing.StrangerJoinsLeakedTransaction | crates/rusqlite/src/lib.rs:988-1003 | and a stranger's statement then lands inside the leaked transaction |
| SqliteSharing.RefinesPlainDatabase | crates/rusqlite/src/lib.rs:908-1003 | each step of the shim is a step of a plain database: statements outside transactions, commits, and nothing else, change the committed contents |
| SqliteSharing.CommitAppliesOwnStatements | crates/rusqlite/src/lib.rs:908-938 | a commit that succeeds applies the transaction's statements in order |
| SqliteSharing.EndsExactly | crates/rusqlite/src/lib.rs:908-1003 | a ROLLBACK that succeeds, alone or after a failed COMMIT, puts back the contents at BEGIN; the transaction is over exactly if COMMIT or ROLLBACK succeeded |
| SqliteSharing.NeverStuck | crates/rusqlite/src/lib.rs:161-303 | while a thread is inside a call, or anybody keeps the handle, a step that continues or ends this can be taken |
| SqliteSharing.UndisturbedTransaction | crates/rusqlite/src/lib.rs:161-303 | with nobody on the handle, a transaction that is not disturbed applies its statements in order, commits, and leaves the handle free |
| SqliteConnection.TransactionAllOrNothing | crates/rusqlite/src/lib.rs:908-1003 | commit applies the statements in order; drop, or a failed commit, puts back the contents at BEGIN once the ROLLBACK succeeds; `last_insert_rowid` stays |
| SqliteConnection.BeginExactly | crates/rusqlite/src/lib.rs:161-209 | BEGIN remembers the contents as they are; inside a transaction, or when it fails, it changes nothing |
| SqliteConnection.FallbackRight | crates/rusqlite/src/lib.rs:221-254 | the remembered row id equals SQLite's exactly when no batch and no query inserted since it was recorded, or, by coincidence, the last that did inserted that very id |
| SqliteConnection.FallbackMissesBatchAndQuery | crates/rusqlite/src/lib.rs:221-254 | a batch insert, and equally an inserting query, leaves it behind |
| SqliteConnection.Connection.UncheckedTransaction | crates/rusqlite/src/lib.rs:161-209 | a nested call is refused, a failed BEGIN hands the handle back, and a success fills the slot |
| SqliteConnection.Transaction.CommitTransaction | crates/rusqlite/src/lib.rs:908-938 | COMMIT, or ROLLBACK if it fails; then slot and handle are given up in that order |
| SqliteConnection.Transaction.DropTransaction | crates/rusqlite/src/lib.rs:988-1003 | an unfinished transaction is rolled back; a finished one changes nothing |
| SqliteConnection.Connection.LastInsertRowid | crates/rusqlite/src/lib.rs:221-250 | SQLite's own value, or the remembered one when the lookup fails |
| Placeholders.RewritingPreservesMeaning | crates/rusqlite/src/lib.rs:1617-1659 | the rewritten statement with its values means what the original means under SQLite's numbering |
| Placeholders.RewriteIsSqlite | crates/rusqlite/src/lib.rs:1617-1659 | the k-th anonymous `?` gets the value SQLite's rule gives the original; it fails exactly when an index has no parameter; other text is kept |
| Placeholders.RewritingIsIdempotent | crates/rusqlite/src/lib.rs:1617-1659 | rewriting the result changes nothing |
| Placeholders.NormalizeSqlAndParams | crates/rusqlite/src/lib.rs:1617-1659 | the scanning loop computes the recursive rewriting |
| Placeholders.ParsedExactly | crates/rusqlite/src/lib.rs:1630-1651 | the digits of a placeholder are read as a decimal number |
| Placeholders.PickIsSqlite | crates/rusqlite/src/lib.rs:1630-1651 | a running maximum follows SQLite's rule that a bare `?` is one more than the largest number so far |
| AgentTask.OneReplacementPerValue | crates/service/src/agent_identity.rs:227-305 | each stored task, or its absence, is replaced by at most one registration, by a worker that saw under the lock no task or the one that failed it; it overwrites exactly that unless an outsider wrote in between |
| AgentTask.LaterWorkersReuse | crates/service/src/agent_identity.rs:325-335 | after a replacement, a worker that still registers reports the id stored then, never the one an earlier worker reported; all others reuse the replacement |
| AgentTask.CoolDown | crates/service/src/agent_identity.rs:266-304 | no registration within 300 seconds of a failed one while no other material has failed in between |
| AgentTask.RefusedExactly | crates/service/src/agent_identity.rs:266-273 | a worker is turned away exactly for a failed attempt with its own material, less than 300 seconds old, after which no other material failed |
| AgentTask.OtherMaterialLiftsCoolDown | crates/service/src/agent_identity.rs:524-533 | a run from the start in which a failure of other material lets the first one register again at once |
| AgentTask.BlockedExactly | crates/service/src/agent_identity.rs:510-522 | the failure map blocks a material exactly while such an attempt is in the log |
| AgentTask.FailureKeysDiffer | crates/service/src/agent_identity.rs:506-508 | no two accounts or operations share an entry |
| AgentTask.FailureMap.IsActive | crates/service/src/agent_identity.rs:510-522 | out-of-date failures are dropped, and exactly a recent one of this very material blocks |
| AgentTask.FailureMap.Remember | crates/service/src/agent_identity.rs:524-533 | the latest failure of an account replaces the one before |
| AgentTask.FailureMap.Clear | crates/service/src/agent_identity.rs:535-545 | a success removes only the failure of its own material |
| AgentTask.AccountTasks.Resolve | crates/service/src/agent_identity.rs:227-305 | the resolver, seen from one worker, is a run of the protocol that frees the lock, whatever the reads, the endpoint and other writers do; a task is returned exactly if a valid, signing read finds one that did not fail, or, neither read offering one and no cool-down, one is registered and stored while the material is the same; the row it leaves is given in every case |
| TasksGiven.GivenTask | crates/service/src/agent_identity.rs:227-349 | in every run, a worker is given the trimmed task of a row stored when it read it, not the one it reported as failed, or one that it registered and stored itself |
| TasksGiven.ReadGives | crates/service/src/agent_identity.rs:248-265 | a read gives a task exactly if it is valid, signs, and finds a nonblank task other than the failed one |
| AgentTask.AccountTasks.RegisterTaskFor | crates/service/src/agent_identity.rs:266-304 | cool-down, registration and the settling of the failure map |
| AgentTask.AccountTasks.StoreTask | crates/core/src/storage/agent_identities.rs:55-121 | the task is stored only while there is a row of the agent's mode with the material the worker read |
| AgentTask.InvAlways | crates/service/src/agent_identity.rs:227-305 | the invariant behind these results, over every interleaving |
| OfficialCatalog.SnapshotsApart | crates/service/src/codex_model_catalog.rs:279-329 | consecutive snapshots of one key carry fetch times more than 300 seconds apart when the second caller's read under the lock succeeded and both asked for one version |
| OfficialCatalog.AllSnapshotsApart | crates/service/src/codex_model_catalog.rs:279-329 | with one version and no failed read, all snapshots of a key are more than 300 seconds apart |
| OfficialCatalog.UnreadableIsRefetched | crates/service/src/codex_model_catalog.rs:451-486 | a caller that cannot read the file writes a snapshot at once, however fresh the last: the condition on the read cannot be dropped |
| OfficialCatalog.UnusableIsRefetched | crates/service/src/codex_model_catalog.rs:279-329 | any caller that finds nothing usable with the lock free fetches and writes at once, leaving exactly this file and log |
| OfficialCatalog.OtherVersionIsRefetched | crates/service/src/codex_model_catalog.rs:451-486 | two callers of different versions write in the same second: the condition on the version cannot be dropped either |
| OfficialCatalog.ReturnedIsUsable | crates/service/src/codex_model_catalog.rs:451-500 | every returned catalog is valid and of the requested version, and one from the cache was fresh |
| OfficialCatalog.HowItEnds | crates/service/src/codex_model_catalog.rs:279-329 | a stale catalog is returned only after a failed fetch |
| OfficialCatalog.OneWriter | crates/service/src/codex_model_catalog.rs:307-316 | a disk worker owns the lock alone, its caller cancelled or not |
| CatalogAnswers.AnswerIsOwn | crates/service/src/codex_model_catalog.rs:279-329 | a returned catalog belongs to the id, trimmed, and the version asked for: it was written for them, or a read of that caller found it in their file |
| CatalogAnswers.FailedFetchReturnsStale | crates/service/src/codex_model_catalog.rs:317-323 | when the fetch fails, the caller is given what the file holds, however old, exactly if that is valid and of its version; else an error |
| CatalogAnswers.ResultStays | crates/service/src/codex_model_catalog.rs:279-329 | a caller's result stays what it was; a cancelled one gets none |
| OfficialCatalog.Cache.LoadOrSync | crates/service/src/codex_model_catalog.rs:279-329 | the call, step by step, is a run of the protocol and returns what that run returns |
| OfficialCatalog.Cache.BuildAndWrite | crates/service/src/codex_model_catalog.rs:307-316 | what the disk worker does with the answer |
| CatalogStore.WriteGoes | crates/core/src/storage/model_catalog_v2.rs:1515-1670 | a model goes to the row with its slug, else to the row with its id or the id made of its slug, whatever slug that row has, else to a new one; it keeps that row's origin and gives it its fields and routes, all other rows staying |
| CatalogStore.WriteKeepsTable | crates/core/src/storage/model_catalog_v2.rs:1515-1670 | a write that goes through keeps slugs, row ids and route ids unique, one route to a target in each model, and routes in reading order |
| CatalogStore.FitsExactly | crates/core/src/storage/model_catalog_v2.rs:1634-1655 | a model with one route more than its row can be written, as far as routes go, exactly if the id made for that route is nowhere in the table |
| CatalogStore.RouteIdsAgree | crates/core/src/storage/model_catalog_v2.rs:357-363 | the ids made for two routes agree exactly if model and target do, as long as no NUL stands in what tells them apart |
| CatalogStore.ListedInOrder | crates/core/src/storage/model_catalog_v2.rs:586-600 | routes are read by falling priority, then by id, and nothing is lost |
| ModelIds.RefusedExactly | crates/service/src/aggregate_api.rs:1732-1747 | a request is refused exactly for an invalid id |
| ModelIds.EveryIdIsMentioned | crates/service/src/aggregate_api.rs:1732-1747 | every raw id, normalised, is among the distinct requests |
| ModelIds.OnlyRawIds | crates/service/src/aggregate_api.rs:1732-1747 | and nothing else is |
| ModelIds.NormalizedExactly | crates/service/src/aggregate_api.rs:1642-1656 | the trimmed text, for Gemini without a leading `models/`, is an id exactly if it is nonempty, at most 200 bytes, and without white space and control characters |
| ModelAssociation.Catalog.NormalizeRequest | crates/service/src/aggregate_api.rs:1732-1747 | the loop refuses exactly for an invalid id; otherwise it leaves distinct ids that mention every raw id, normalised, and nothing else |
| ModelAssociation.Catalog.BuildInputs | crates/service/src/aggregate_api.rs:1762-1847 | although the loop works on a copy it changes, each request meets what the catalog as it was read has for it; the models handed to the store and the report are theirs in order |
| ModelAssociation.Catalog.WriteBatch | crates/core/src/storage/model_catalog_v2.rs:2362-2371 | all models in order, or nothing |
| ModelAssociation.Catalog.Associate | crates/service/src/aggregate_api.rs:1717-1858 | under any failure of opening, lookup, reading, committing and reading again: the catalog is the batch written by the store if it commits, else as it was; the call succeeds exactly if also every model written is found again by its slug, so it can fail after the commit |
| AssociationOutcome.BatchIsExpected | crates/core/src/storage/model_catalog_v2.rs:2362-2371 | the transaction leaves, row by row, the stored models, each as the last request that wrote its row left it, and then the new ones in order |
| AssociationOutcome.AllWellExactly | crates/service/src/aggregate_api.rs:1766-1847 | every request is routed and every stored model keeps all but routes, exactly if no requested slug that is not stored is the one a stored model was created with |
| AssociationOutcome.EveryRequestIsRouted | crates/service/src/aggregate_api.rs:1766-1847 | after the batch a request is routed to the API exactly unless its model was written over, or it wrote over another model that was itself written again later |
| AssociationOutcome.EveryRawIdIsRouted | crates/service/src/aggregate_api.rs:1732-1847 | the same for each raw id, normalised |
| AssociationOutcome.EnabledExactly | crates/service/src/aggregate_api.rs:1766-1847 | it is routed by an enabled route exactly if it is not lost and was added now, or had an enabled one |
| AssociationOutcome.AddedRouteView | crates/service/src/aggregate_api.rs:1782-1796 | a further route is enabled, leads to the request, and inherits priority and weight of the model's first route to the API, the weight at least 1 |
| AssociationOutcome.NewModelIs | crates/service/src/aggregate_api.rs:1802-1840 | a new model has the request as slug, the API's provider, and one enabled route |
| AssociationOutcome.DisplayNameView | crates/service/src/aggregate_api.rs:1803-1808 | its name is the first given for it, ignoring case, trimmed; the id if there is none or it is blank |
| AssociationOutcome.ReportNames | crates/service/src/aggregate_api.rs:1766-1857 | the three lists of the report name exactly the created, added and already routed ones |
| AssociationOutcome.OnlyRoutesGrow | crates/service/src/aggregate_api.rs:1766-1802 | a stored model keeps everything but routes exactly unless it is written over; if it keeps, it gains exactly the route it was requested for and did not have |
| AssociationOutcome.EveryRequestIsCounted | crates/service/src/aggregate_api.rs:1766-1857 | added plus unchanged counts equal the distinct requests; the rows grow by the number of created models exactly if none takes a stored row |
| AssociationOutcome.FoundAgainExactly | crates/core/src/storage/model_catalog_v2.rs:2372-2380 | after the commit all models written are found again exactly if no request that wrote one lost it |
| AssociationOutcome.RepeatIsUnchanged | crates/service/src/aggregate_api.rs:1717-1858 | repeating the call writes nothing exactly if the first lost no request, and then reports everything unchanged |
| AssociationOutcome.CommitsExactly | crates/core/src/storage/model_catalog_v2.rs:1634-1655 | if no new model takes a stored row, the store takes the batch exactly if the id of each route to be added is free |
| AssociationOutcome.RenamedModelIsOverwritten | crates/core/src/storage/model_catalog_v2.rs:1563-1578 | input: a model created as `a` and renamed to `b` is overwritten, fields and routes, when `a` is associated; the call succeeds |
| AssociationOutcome.RenamedModelIsLostWithAnError | crates/core/src/storage/model_catalog_v2.rs:2362-2380 | input: associating `b` and `a` together overwrites it too, and the call fails after its commit |
| AssociationOutcome.EditedRouteBlocks | crates/core/src/storage/model_catalog_v2.rs:357-363 | input: a route edited to another target keeps its id, and the batch that adds its first target again is refused |
| AssociationOutcome.NewModelsSortLast | crates/service/src/aggregate_api.rs:1751-1756 | new models sort strictly increasing and above all existing ones exactly when the 64-bit order does not wrap |
| AssociationOutcome.SortOrderCanWrap | crates/service/src/aggregate_api.rs:1751-1756 | an order that does wrap |
| RuntimeReload.CollectAncestorPids | crates/service/src/codex_runtime.rs:105-124 | terminates on any finite parent map and returns exactly the pids one or more parent steps away |
| RuntimeReload.ReachesRootUnlessCyclic | crates/service/src/codex_runtime.rs:28-77 | a candidate reaches a signalled root through candidate parents exactly when it does not climb into a cycle |
| RuntimeReload.AcyclicCandidatesReachRoots | crates/service/src/codex_runtime.rs:28-77 | on an acyclic map every candidate reaches a root |
| RuntimeReload.CyclicCandidatesHaveNoRoot | crates/service/src/codex_runtime.rs:28-77 | candidates in a cycle have none |
| RuntimeReload.ReloadCodexAppServers | crates/service/src/codex_runtime.rs:28-77 | exactly the roots are signalled: no ancestor of the manager, none with a candidate parent |

## Left out

- HTTP requests, token refresh, key lookup, signalling itself and cryptography: their outcomes are parameters; the digest of key material is taken to be injective.
- TOML, JSON and URL parsers, path normalisation and service-address matching: functions given as parameters, with the round trips stated as `Faithful`; comments and layout of `config.toml` are not kept track of.
- Settings kept in a remote database, which answers a failed read from the values it loaded last: the local table is modelled.
- Temporary files and directories other than the removal of a newly created managed root, of which only success or failure is kept; a failed atomic write leaves its target unchanged.
- The migration of legacy history backups and the history repair inside the gateway switch's status: `HistoryRepair` models the repair by itself, without the migration.
- Two live copies of one file under different paths: `same_path` decides by a fixed normalisation.
- Placeholders outside ASCII, `?` inside string literals and `?0`: the rewriter does not follow SQLite there, so `Placeholders` assumes placeholders numbered from 1.
- A transaction that SQLite itself rolls back at a failed statement (disk full, I/O error): its later statements then commit one by one, and `SqliteSharing.RefinesPlainDatabase` and `SqliteSharing.CommitAppliesOwnStatements` do not apply; they are about transactions that stay open until COMMIT or ROLLBACK.
- Statements that a caller writes as BEGIN, COMMIT or ROLLBACK text, pool timeouts, and the online-backup loop of the SQLite shim.
- The asynchronous form of the agent protocol with cancellation: the synchronous resolver is modelled.
- A model catalog in a remote database, which refuses a row id that is there already instead of overwriting it: the local store is modelled.
- Fields of a stored model other than those of `CatalogStore.Model` (prices, tiers, groups, texts) and their validation, taken to pass when a stored model is written again; the 96-bit digests in row and route ids, taken to be injective.
- Parsing of fetched model lists, the probe model and field normalisers in `aggregate_api.rs`: one-branch facts.
- Worker permits, status texts, warnings and candidate lists: they hold no state of their own.
- Concurrent writers of rollout files between collecting and replacing them: the repair is modelled with nobody else writing.
