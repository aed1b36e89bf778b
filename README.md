# Photo backup, event ids, rename dialog and files grid — a Dafny model

This project models five parts of an Android cloud-drive client's photo backup and
file browsing:

- **Upload error handling** (`upload_error_handler.dfy`). An upload failure matters
  only when its cause is an API, I/O, crypto, no-such-element, security or verifier
  exception. It also needs its parent folder to have backup bindings. A failure that
  passes both tests enqueues one backup notification for that folder. It then takes
  one corrective action, picked by the cause:
  - the file was not found: its row is deleted;
  - the error is folder-wide (permission, local storage, drive storage, photos upload
    not allowed): backup of the folder is stopped;
  - any other error: that one file is marked failed;
  - a connectivity error: nothing more is done.

  The class `Handler` records its collaborator calls in order and writes to a `Store`.
- **The backup store and backup state** (`backup_entities.dfy`, `backup_files.dfy`,
  `backup_repository.dfy`, `backup_state.dfy`). The store holds:
  - the folder bindings;
  - the file table, keyed by (folder, uri);
  - the stop records.

  Its use cases are pure functions on a `StoreState` value. Class `Store` keeps that
  value in fields and its methods update it exactly as those functions say.
  `GetBackupState` derives `isBackupEnabled`, `hasDefaultFolder` and the aggregate
  `BackupStatus`. The concrete scenarios of the backup-state tests are proved as
  lemmas, and one of them is also driven through the `Store` methods.
- **Announce-event ids** (`announce_event.dfy`). An id is `NOTIFICATION_EVENT_ID_`
  followed by the upper-cased class name. Then comes a suffix: `_1`, the upload link
  id, the download id, or nothing for `Backup`. Upload and Download ids are proved
  injective. Events of different variants are proved never to share an id,
  by reading the variant name back out of the id.
- **The rename dialog's view model** (`rename.dfy`):
  - which link is renamed, and the dialog title;
  - the name shown and its initial selection (the base name of a file with an
    extension), measured in UTF-16 code units as Kotlin's `String` counts them;
  - how rename failures map to input-error messages;
  - the order of the `isRenaming` flag, the rename call and the effects. Class
    `RenameViewModel` keeps these in an `emissions` trace.
- **The files grid** (`files_list.dfy`): how `FilesGridContent` cuts the links into
  rows of `itemsPerRow` cells, and when the empty and error placeholders show their
  optional parts.

Two points of the backup state are fixed by `GetBackupStateTest`:

- **Pending before failed.** The aggregate status is `InProgress` whenever a file is
  still pending (IDLE, ENQUEUED or READY). It is `Uncompleted` only when none is
  pending and one has failed. The `failure` test (two pending, one failed) expects
  `InProgress(3, 2)`.
- **`hasDefaultFolder`.** It is true when a bucket with the configured default name
  ("Camera") is offered. The `blank backup state` test, with no bucket offered,
  expects `hasDefaultFolder == false`.

In the status, `DUPLICATE` rows count toward the total only.

## Model

| member | source | states |
|---|---|---|
| UploadErrorHandling.EffectfulCauses | drive/backup/data/src/main/kotlin/me/proton/core/drive/backup/data/handler/UploadErrorHandlerImpl.kt:116-128 | A cause concerns backup exactly when it is one of the six listed exception classes; every I/O exception, and so a file-not-found, does |
| UploadErrorHandling.HasEffectOnBackup | drive/backup/data/src/main/kotlin/me/proton/core/drive/backup/data/handler/UploadErrorHandlerImpl.kt:116-128 | Defined here; its property is stated by EffectfulCauses |
| UploadErrorHandling.CorrectiveCalls | drive/backup/data/src/main/kotlin/me/proton/core/drive/backup/data/handler/UploadErrorHandlerImpl.kt:62-113 | Defined here; its properties are stated by FileNotFoundOnlyDeletes, FolderFatalErrorStopsBackup, OtherErrorMarksOnlyThatFile, ConnectivityErrorOnlyNotifies and MissingUriIsNoOp |
| UploadErrorHandling.OnErrorCalls | drive/backup/data/src/main/kotlin/me/proton/core/drive/backup/data/handler/UploadErrorHandlerImpl.kt:51-60 | Defined here; its properties are stated by UnrelatedCauseIsIgnored, DisabledFolderIsIgnored and HandledErrorNotifiesFirst |
| UploadErrorHandling.ApplyCall | drive/backup/data/src/main/kotlin/me/proton/core/drive/backup/data/handler/UploadErrorHandlerImpl.kt:78-111 | Defined here; its properties are stated by FailedWriteChangesNothing and the per-branch lemmas |
| UploadErrorHandling.OnErrorState | drive/backup/data/src/main/kotlin/me/proton/core/drive/backup/data/handler/UploadErrorHandlerImpl.kt:51-113 | Defined here; its properties are stated by the per-branch lemmas and OnErrorKeepsStoreValid |
| UploadErrorHandling.UnrelatedCauseIsIgnored | drive/backup/data/src/main/kotlin/me/proton/core/drive/backup/data/handler/UploadErrorHandlerImpl.kt:51-59 | An error whose cause does not concern backup makes no call and leaves the store unchanged, whatever the folder |
| UploadErrorHandling.DisabledFolderIsIgnored | drive/backup/data/src/main/kotlin/me/proton/core/drive/backup/data/handler/UploadErrorHandlerImpl.kt:53-58 | An error for a folder without backup bindings makes no call and leaves the store unchanged |
| UploadErrorHandling.HandledErrorNotifiesFirst | drive/backup/data/src/main/kotlin/me/proton/core/drive/backup/data/handler/UploadErrorHandlerImpl.kt:53-57 | A handled error enqueues exactly one notification, for the parent folder, before any corrective call, and makes at most one corrective call |
| UploadErrorHandling.FileNotFoundOnlyDeletes | drive/backup/data/src/main/kotlin/me/proton/core/drive/backup/data/handler/UploadErrorHandlerImpl.kt:95-102 | A file-not-found cause with a uri deletes exactly that file's row and never consults the error classifier; other rows, bindings and stop records are unchanged |
| UploadErrorHandling.FolderFatalErrorStopsBackup | drive/backup/data/src/main/kotlin/me/proton/core/drive/backup/data/handler/UploadErrorHandlerImpl.kt:69-84 | A permission, local-storage, drive-storage or photos-upload-not-allowed error stops backup of the parent folder with that classified error and touches no file row |
| UploadErrorHandling.OtherErrorMarksOnlyThatFile | drive/backup/data/src/main/kotlin/me/proton/core/drive/backup/data/handler/UploadErrorHandlerImpl.kt:104-113 | An OTHER error marks that one file FAILED; every other row, binding and stop record is unchanged |
| UploadErrorHandling.ConnectivityErrorOnlyNotifies | drive/backup/data/src/main/kotlin/me/proton/core/drive/backup/data/handler/UploadErrorHandlerImpl.kt:87-89 | A connectivity or Wi-Fi connectivity error only enqueues the notification and changes nothing |
| UploadErrorHandling.MissingUriIsNoOp | drive/backup/data/src/main/kotlin/me/proton/core/drive/backup/data/handler/UploadErrorHandlerImpl.kt:95-113 | Without a uri, the delete and mark-failed paths do nothing |
| UploadErrorHandling.FailedWriteChangesNothing | drive/backup/data/src/main/kotlin/me/proton/core/drive/backup/data/handler/UploadErrorHandlerImpl.kt:78-111 | When the repository write fails (its failure is only logged), the store is unchanged |
| UploadErrorHandling.OnErrorKeepsStoreValid | drive/backup/data/src/main/kotlin/me/proton/core/drive/backup/data/handler/UploadErrorHandlerImpl.kt:51-113 | Handling an error keeps the file table keyed by (folder, uri) |
| UploadErrorHandling.Handler.OnError | drive/backup/data/src/main/kotlin/me/proton/core/drive/backup/data/handler/UploadErrorHandlerImpl.kt:51-60 | The handler appends the calls of the error to its trace, enqueues one notification for the parent folder exactly when the error is handled, and leaves the store in the state the pure handling gives |
| UploadErrorHandling.Handler.HandleError | drive/backup/data/src/main/kotlin/me/proton/core/drive/backup/data/handler/UploadErrorHandlerImpl.kt:62-93 | Dispatches on the cause and the classified error type, appending the one corrective call |
| UploadErrorHandling.Handler.StopBackup | drive/backup/data/src/main/kotlin/me/proton/core/drive/backup/data/handler/UploadErrorHandlerImpl.kt:78-83 | Records the stop call and, when the write succeeds, the stop record |
| UploadErrorHandling.Handler.OnFileNotFoundException | drive/backup/data/src/main/kotlin/me/proton/core/drive/backup/data/handler/UploadErrorHandlerImpl.kt:95-102 | Deletes the file row when the link has a uri, else does nothing |
| UploadErrorHandling.Handler.OnFileOtherError | drive/backup/data/src/main/kotlin/me/proton/core/drive/backup/data/handler/UploadErrorHandlerImpl.kt:104-113 | Marks the file FAILED when the link has a uri, else does nothing |
| BackupRepository.AddFolderTo | drive/backup/domain/src/test/kotlin/me/proton/core/drive/backup/domain/usecase/GetBackupStateTest.kt:146 | Defined here; its property is stated by AddFolderEnables |
| BackupRepository.HasFolders | drive/backup/data/src/main/kotlin/me/proton/core/drive/backup/data/handler/UploadErrorHandlerImpl.kt:53 | Defined here; its properties are stated by AddFolderEnables, DeleteFoldersDisables, StatusPresentIffEnabled and DisabledFolderIsIgnored |
| BackupRepository.DeleteFoldersFrom | drive/backup/domain/src/test/kotlin/me/proton/core/drive/backup/domain/usecase/GetBackupStateTest.kt:242 | Defined here; its property is stated by DeleteFoldersDisables |
| BackupRepository.SetFilesIn | drive/backup/domain/src/test/kotlin/me/proton/core/drive/backup/domain/usecase/GetBackupStateTest.kt:162-168 | Defined here; its property is stated by SetFilesResult |
| BackupRepository.MarkIn | drive/backup/domain/src/test/kotlin/me/proton/core/drive/backup/domain/usecase/GetBackupStateTest.kt:169-223 | Defined here; its property is stated by MarkChangesOnlyThatFile |
| BackupRepository.DeleteFileFrom | drive/backup/data/src/main/kotlin/me/proton/core/drive/backup/data/handler/UploadErrorHandlerImpl.kt:98 | Defined here; its property is stated by DeleteFileRemovesOnlyThatFile |
| BackupRepository.StopBackupIn | drive/backup/data/src/main/kotlin/me/proton/core/drive/backup/data/handler/UploadErrorHandlerImpl.kt:78-80 | Defined here; the stop record it appends is read by Handler.StopBackup's contract and FolderFatalErrorStopsBackup |
| BackupRepository.AddFolderEnables | drive/backup/domain/src/test/kotlin/me/proton/core/drive/backup/domain/usecase/GetBackupStateTest.kt:144-156 | Adding a binding enables backup of its folder and of no other; rows and stop records are untouched |
| BackupRepository.DeleteFoldersDisables | drive/backup/domain/src/test/kotlin/me/proton/core/drive/backup/domain/usecase/GetBackupStateTest.kt:238-252 | Deleting a folder's bindings disables it and leaves other folders and all rows alone |
| BackupRepository.SetFilesResult | drive/backup/domain/src/test/kotlin/me/proton/core/drive/backup/domain/usecase/GetBackupStateTest.kt:162-168 | Setting files keeps keys unique; each listed key holds its last listed file, unlisted keys keep theirs |
| BackupRepository.MarkChangesOnlyThatFile | drive/backup/domain/src/test/kotlin/me/proton/core/drive/backup/domain/usecase/GetBackupStateTest.kt:221-223 | Marking (folder, uri) sets that row's state and changes no other key, binding or stop record; marking an absent key changes nothing |
| BackupRepository.DeleteFileRemovesOnlyThatFile | drive/backup/data/src/main/kotlin/me/proton/core/drive/backup/data/handler/UploadErrorHandlerImpl.kt:98 | Deleting (folder, uri) removes that row and no other |
| BackupRepository.Store.AddFolder | drive/backup/domain/src/test/kotlin/me/proton/core/drive/backup/domain/usecase/GetBackupStateTest.kt:146 | The store's new state is the old one with the binding added |
| BackupRepository.Store.DeleteFolders | drive/backup/domain/src/test/kotlin/me/proton/core/drive/backup/domain/usecase/GetBackupStateTest.kt:242 | The store's new state is the old one without the folder's bindings |
| BackupRepository.Store.SetFiles | drive/backup/domain/src/test/kotlin/me/proton/core/drive/backup/domain/usecase/GetBackupStateTest.kt:162-168 | The store upserts the listed files and keeps its key invariant |
| BackupRepository.Store.MarkAsCompleted | drive/backup/domain/src/test/kotlin/me/proton/core/drive/backup/domain/usecase/GetBackupStateTest.kt:169 | The store sets that file's state to COMPLETED and keeps its key invariant |
| BackupRepository.Store.MarkAsFailed | drive/backup/domain/src/test/kotlin/me/proton/core/drive/backup/domain/usecase/GetBackupStateTest.kt:195 | The store sets that file's state to FAILED and keeps its key invariant |
| BackupRepository.Store.DeleteFile | drive/backup/data/src/main/kotlin/me/proton/core/drive/backup/data/handler/UploadErrorHandlerImpl.kt:98 | The store removes that row and keeps its key invariant |
| BackupRepository.Store.StopBackup | drive/backup/data/src/main/kotlin/me/proton/core/drive/backup/data/handler/UploadErrorHandlerImpl.kt:78-80 | The store appends one stop record for the folder and error |
| BackupFiles.CountPartition | drive/backup/domain/src/test/kotlin/me/proton/core/drive/backup/domain/usecase/GetBackupStateTest.kt:176-179 | A folder's total is its pending plus failed plus completed plus duplicate rows |
| BackupStateDerivation.GetBackupStatus | drive/backup/domain/src/test/kotlin/me/proton/core/drive/backup/domain/usecase/GetBackupStateTest.kt:144-236 | The total counts the folder's rows; InProgress exactly when some are pending (with that count); Uncompleted exactly when none is pending and some failed (with that count); Complete otherwise, its total being completed plus duplicate |
| BackupStateDerivation.GetBackupState | drive/backup/domain/src/test/kotlin/me/proton/core/drive/backup/domain/usecase/GetBackupStateTest.kt:93-252 | Defined here; its properties are stated by StatusPresentIffEnabled, DefaultFolderFollowsBuckets and the scenario lemmas |
| BackupStateDerivation.StatusPresentIffEnabled | drive/backup/domain/src/test/kotlin/me/proton/core/drive/backup/domain/usecase/GetBackupStateTest.kt:116-155 | Backup is enabled exactly when the folder has bindings, and the status is null exactly when it is not enabled |
| BackupStateDerivation.DefaultFolderFollowsBuckets | drive/backup/domain/src/test/kotlin/me/proton/core/drive/backup/domain/usecase/GetBackupStateTest.kt:93-142 | With permission granted, `hasDefaultFolder` holds exactly when a bucket with the default name is offered; without it, no bucket is offered and it is false; the store never changes it |
| BackupStateDerivation.EnabledWithoutFilesIsComplete | drive/backup/domain/src/test/kotlin/me/proton/core/drive/backup/domain/usecase/GetBackupStateTest.kt:144-156 | An enabled folder without rows is Complete(0) |
| BackupStateDerivation.PendingTakesPrecedence | drive/backup/domain/src/test/kotlin/me/proton/core/drive/backup/domain/usecase/GetBackupStateTest.kt:184-208 | With any file pending the status is InProgress, however many failed; a corollary of GetBackupStatus's contract, stated for arbitrary rows |
| BackupStateDerivation.CompletingPendingFile | drive/backup/domain/src/test/kotlin/me/proton/core/drive/backup/domain/usecase/GetBackupStateTest.kt:158-183 | Completing a pending file keeps the total, moves one file from pending to completed and leaves failed alone; with two or more pending the status becomes InProgress(total, pending - 1), with one it leaves InProgress |
| BackupStateDerivation.FailingPendingFile | drive/backup/domain/src/test/kotlin/me/proton/core/drive/backup/domain/usecase/GetBackupStateTest.kt:184-208 | Failing a pending file keeps the total, lowers pending by one and raises failed by one |
| BackupStateDerivation.AddThenDeleteDisables | drive/backup/domain/src/test/kotlin/me/proton/core/drive/backup/domain/usecase/GetBackupStateTest.kt:238-252 | Adding then deleting a binding gives a disabled folder with null status and the same `hasDefaultFolder` |
| BackupStateDerivation.BlankState | drive/backup/domain/src/test/kotlin/me/proton/core/drive/backup/domain/usecase/GetBackupStateTest.kt:116-142 | No bindings: disabled and null status; `hasDefaultFolder` false without buckets, true with the Camera bucket |
| BackupStateDerivation.RunningState | drive/backup/domain/src/test/kotlin/me/proton/core/drive/backup/domain/usecase/GetBackupStateTest.kt:144-156 | With a binding and no files: enabled, Complete(0) |
| BackupStateDerivation.UploadingState | drive/backup/domain/src/test/kotlin/me/proton/core/drive/backup/domain/usecase/GetBackupStateTest.kt:158-183 | Three files, one completed: InProgress(3, 2) |
| BackupStateDerivation.FailureState | drive/backup/domain/src/test/kotlin/me/proton/core/drive/backup/domain/usecase/GetBackupStateTest.kt:184-208 | Three files, one failed: InProgress(3, 2) |
| BackupStateDerivation.UncompletedState | drive/backup/domain/src/test/kotlin/me/proton/core/drive/backup/domain/usecase/GetBackupStateTest.kt:210-236 | Two completed, one failed: Uncompleted(3, 1) |
| BackupStateDerivation.StoppedState | drive/backup/domain/src/test/kotlin/me/proton/core/drive/backup/domain/usecase/GetBackupStateTest.kt:238-252 | Binding added then deleted: disabled, default folder present, null status |
| BackupStateDerivation.UploadingScenario | drive/backup/domain/src/test/kotlin/me/proton/core/drive/backup/domain/usecase/GetBackupStateTest.kt:158-183 | Driving the store's methods through the uploading scenario yields InProgress(3, 2) |
| AnnounceEvent.Id | drive/announce-event/domain/src/main/kotlin/me/proton/core/drive/announce/event/domain/entity/Event.kt:33-136 | Defined here; its properties are stated by IdIsPrefixAndTail, UploadId, DownloadId, BackupIdIsConstant, FixedIdsEndInOne and VariantOfIdIsSimpleName |
| AnnounceEvent.Suffix | drive/announce-event/domain/src/main/kotlin/me/proton/core/drive/announce/event/domain/entity/Event.kt:33-131 | Defined here; its properties are stated by UploadId, DownloadId, BackupIdIsConstant and FixedIdsEndInOne |
| AnnounceEvent.LongToString | drive/announce-event/domain/src/main/kotlin/me/proton/core/drive/announce/event/domain/entity/Event.kt:45-46 | Defined here; its property is stated by ParseLongToString, and UploadId uses it for the interpolated link id |
| AnnounceEvent.IdStartsWithVariantName | drive/announce-event/domain/src/main/kotlin/me/proton/core/drive/announce/event/domain/entity/Event.kt:33-136 | Every id starts with the prefix followed by the upper-cased class name; a corollary of Id's definition that the injectivity lemmas build on |
| AnnounceEvent.UpperNames | drive/announce-event/domain/src/main/kotlin/me/proton/core/drive/announce/event/domain/entity/Event.kt:27-133 | The upper-cased class names are STORAGEFULL, UPLOAD, BACKUP, BACKUPENABLED, … as spelled out |
| AnnounceEvent.IdIsPrefixAndTail | drive/announce-event/domain/src/main/kotlin/me/proton/core/drive/announce/event/domain/entity/Event.kt:33-133 | An id is the prefix followed by the variant's name and suffix |
| AnnounceEvent.UploadId | drive/announce-event/domain/src/main/kotlin/me/proton/core/drive/announce/event/domain/entity/Event.kt:45-46 | An upload id ends with the decimal link id; two upload ids are equal exactly when the link ids are |
| AnnounceEvent.ParseLongToString | drive/announce-event/domain/src/main/kotlin/me/proton/core/drive/announce/event/domain/entity/Event.kt:40-46 | The decimal form of a Long reads back as that Long |
| AnnounceEvent.DownloadId | drive/announce-event/domain/src/main/kotlin/me/proton/core/drive/announce/event/domain/entity/Event.kt:118-121 | A download id ends with the download id; two download ids are equal exactly when the download ids are |
| AnnounceEvent.BackupIdIsConstant | drive/announce-event/domain/src/main/kotlin/me/proton/core/drive/announce/event/domain/entity/Event.kt:67-74 | The Backup id is `NOTIFICATION_EVENT_ID_BACKUP` whatever its folder, state and counts |
| AnnounceEvent.FixedIdsEndInOne | drive/announce-event/domain/src/main/kotlin/me/proton/core/drive/announce/event/domain/entity/Event.kt:31-133 | Every variant other than Upload, Backup and Download has the id prefix + name + `_1` |
| AnnounceEvent.UploadReasonDefaultsToNull | drive/announce-event/domain/src/main/kotlin/me/proton/core/drive/announce/event/domain/entity/Event.kt:43 | An Upload built without a reason has none |
| AnnounceEvent.VariantOfIdIsSimpleName | drive/announce-event/domain/src/main/kotlin/me/proton/core/drive/announce/event/domain/entity/Event.kt:27-138 | The variant name can be read back out of any id |
| AnnounceEvent.DistinctVariantsHaveDistinctIds | drive/announce-event/domain/src/main/kotlin/me/proton/core/drive/announce/event/domain/entity/Event.kt:27-138 | Events of different variants never share an id |
| RenamePresentation.LastIndexOf | drive/drivelink-rename/presentation/src/main/kotlin/me/proton/core/drive/drivelink/rename/presentation/RenameViewModel.kt:144 | In scalar values, the result is -1 or an index holding the character, and no later index holds it |
| RenamePresentation.Utf16LastIndexOf | drive/drivelink-rename/presentation/src/main/kotlin/me/proton/core/drive/drivelink/rename/presentation/RenameViewModel.kt:144 | Defined here; its properties are stated by SelectionRule, BmpSelection and SurrogatePairSelection |
| RenamePresentation.Utf16Length | drive/drivelink-rename/presentation/src/main/kotlin/me/proton/core/drive/drivelink/rename/presentation/RenameViewModel.kt:145 | `length` counts between one and two UTF-16 code units per character |
| RenamePresentation.Utf16PrefixLength | drive/drivelink-rename/presentation/src/main/kotlin/me/proton/core/drive/drivelink/rename/presentation/RenameViewModel.kt:144-145 | A proper non-empty prefix has a positive UTF-16 length below the whole name's, so the '.' index in code units lies strictly inside the name |
| RenamePresentation.SelectionOf | drive/drivelink-rename/presentation/src/main/kotlin/me/proton/core/drive/drivelink/rename/presentation/RenameViewModel.kt:143-146 | Defined here; its properties are stated by SelectionRule, BmpSelection and SurrogatePairSelection |
| RenamePresentation.BmpSelection | drive/drivelink-rename/presentation/src/main/kotlin/me/proton/core/drive/drivelink/rename/presentation/RenameViewModel.kt:143-146 | For a name within the Basic Multilingual Plane, a file's selection ends at the character index of its last '.' |
| RenamePresentation.SurrogatePairSelection | drive/drivelink-rename/presentation/src/main/kotlin/me/proton/core/drive/drivelink/rename/presentation/RenameViewModel.kt:143-146 | "😀.jpg" selects [0, 2) as a file and [0, 6) as a folder, the emoji taking two code units |
| RenamePresentation.SelectionRule | drive/drivelink-rename/presentation/src/main/kotlin/me/proton/core/drive/drivelink/rename/presentation/RenameViewModel.kt:143-146 | In UTF-16 code units, the selection starts at 0 and ends within the name; a file with a '.' past index 0 gets [0, code unit of the last '.'); a folder, or a file without such a '.', gets the whole name |
| RenamePresentation.LinkChoice | drive/drivelink-rename/presentation/src/main/kotlin/me/proton/core/drive/drivelink/rename/presentation/RenameViewModel.kt:68-87 | With a saved file id the link is that file, else the saved folder; the title follows the kind; construction fails exactly when the share id, or both ids, are missing |
| RenamePresentation.LinkIdOf | drive/drivelink-rename/presentation/src/main/kotlin/me/proton/core/drive/drivelink/rename/presentation/RenameViewModel.kt:68-77 | Defined here; its property is stated by LinkChoice |
| RenamePresentation.TitleOf | drive/drivelink-rename/presentation/src/main/kotlin/me/proton/core/drive/drivelink/rename/presentation/RenameViewModel.kt:82-90 | Defined here; its property is stated by LinkChoice |
| RenamePresentation.NameFallback | drive/drivelink-rename/presentation/src/main/kotlin/me/proton/core/drive/drivelink/rename/presentation/RenameViewModel.kt:96-101 | The shown name is the saved edit, else the link's name when readable, else ""; its selection is the selection rule applied to it |
| RenamePresentation.DisplayedName | drive/drivelink-rename/presentation/src/main/kotlin/me/proton/core/drive/drivelink/rename/presentation/RenameViewModel.kt:96-97 | Defined here; its property is stated by NameFallback |
| RenamePresentation.NameWithSelectionOf | drive/drivelink-rename/presentation/src/main/kotlin/me/proton/core/drive/drivelink/rename/presentation/RenameViewModel.kt:92-102 | Defined here; its property is stated by NameFallback and by RenameViewModel.OnChanged's contract |
| RenamePresentation.ErrorMessageMapping | drive/drivelink-rename/presentation/src/main/kotlin/me/proton/core/drive/drivelink/rename/presentation/RenameViewModel.kt:148-170 | Each validation failure gets its own message (too-long carrying the maximum) and any other failure the general one, in both directions |
| RenamePresentation.ErrorMessage | drive/drivelink-rename/presentation/src/main/kotlin/me/proton/core/drive/drivelink/rename/presentation/RenameViewModel.kt:148-170 | Defined here; its property is stated by ErrorMessageMapping |
| RenamePresentation.RenamingFlagBracketsCall | drive/drivelink-rename/presentation/src/main/kotlin/me/proton/core/drive/drivelink/rename/presentation/RenameViewModel.kt:114-136 | `isRenaming` turns true before the rename call and false after it on both outcomes; failure shows its message then reselects, success dismisses then broadcasts the name with the 50-character display limit |
| RenamePresentation.RenameFileEmissions | drive/drivelink-rename/presentation/src/main/kotlin/me/proton/core/drive/drivelink/rename/presentation/RenameViewModel.kt:114-136 | Defined here; its property is stated by RenamingFlagBracketsCall |
| RenamePresentation.RenameViewModel.constructor | drive/drivelink-rename/presentation/src/main/kotlin/me/proton/core/drive/drivelink/rename/presentation/RenameViewModel.kt:61-81 | The view model renames the link chosen from the saved state and starts not renaming |
| RenamePresentation.RenameViewModel.ViewState | drive/drivelink-rename/presentation/src/main/kotlin/me/proton/core/drive/drivelink/rename/presentation/RenameViewModel.kt:82-90 | Defined here; its value after a rename is stated by RenameViewModel.RenameFile's and RenameViewModel.OnRename's contracts |
| RenamePresentation.RenameViewModel.OnRename | drive/drivelink-rename/presentation/src/main/kotlin/me/proton/core/drive/drivelink/rename/presentation/RenameViewModel.kt:109-112 | Clears the input error, then runs the rename; the view state ends not renaming |
| RenamePresentation.RenameViewModel.RenameFile | drive/drivelink-rename/presentation/src/main/kotlin/me/proton/core/drive/drivelink/rename/presentation/RenameViewModel.kt:114-136 | Appends the rename emissions for the outcome and ends with `isRenaming` false, so the view state is the link's title and not renaming |
| RenamePresentation.RenameViewModel.OnChanged | drive/drivelink-rename/presentation/src/main/kotlin/me/proton/core/drive/drivelink/rename/presentation/RenameViewModel.kt:138-141 | Saves the edited name under `key.filename`, then clears the input error; from then on the shown name is the edited one, with its selection |
| RenamePresentation.RenameViewModel.Handle | drive/drivelink-rename/presentation/src/main/kotlin/me/proton/core/drive/drivelink/rename/presentation/RenameViewModel.kt:148-173 | Shows the mapped input error, then re-triggers the selection |
| RenamePresentation.RenameViewModel.ClearInputError | drive/drivelink-rename/presentation/src/main/kotlin/me/proton/core/drive/drivelink/rename/presentation/RenameViewModel.kt:175-177 | Emits the clear-input-error effect |
| FilesListLayout.FilesGridContent | drive/files-list/src/main/kotlin/me/proton/core/drive/files/presentation/component/files/FilesList.kt:244-267 | Fails exactly when `itemsPerRow` is not positive; otherwise has ceil(size / itemsPerRow) rows of `itemsPerRow` cells |
| FilesListLayout.GridRow | drive/files-list/src/main/kotlin/me/proton/core/drive/files/presentation/component/files/FilesList.kt:251-265 | Defined here; its properties are stated by FilesGridContent's contract and CellShowsItemAtIndex |
| FilesListLayout.CeilDiv | drive/files-list/src/main/kotlin/me/proton/core/drive/files/presentation/component/files/FilesList.kt:250 | Defined here; its property is stated by RowCountIsCeiling |
| FilesListLayout.RowCountIsCeiling | drive/files-list/src/main/kotlin/me/proton/core/drive/files/presentation/component/files/FilesList.kt:250 | The row count is the least number of rows whose cells hold every item; zero exactly for an empty list |
| FilesListLayout.CellShowsItemAtIndex | drive/files-list/src/main/kotlin/me/proton/core/drive/files/presentation/component/files/FilesList.kt:257-263 | The cell at (row, slot) shows item row * itemsPerRow + slot, and is a spacer exactly when there is none |
| FilesListLayout.EveryIndexHasExactlyOneCell | drive/files-list/src/main/kotlin/me/proton/core/drive/files/presentation/component/files/FilesList.kt:250-258 | Every item index lies in a grid cell, in row i / k and slot i % k, and in no other |
| FilesListLayout.CellIndicesAreBelowCapacity | drive/files-list/src/main/kotlin/me/proton/core/drive/files/presentation/component/files/FilesList.kt:250-263 | Every looked-up index is below rows * itemsPerRow, and cells past the last item are spacers |
| FilesListLayout.EmptyPlaceholderParts | drive/files-list/src/main/kotlin/me/proton/core/drive/files/presentation/component/files/FilesList.kt:84-158 | Image and title always come first; the description shows exactly when its id is non-zero, the action likewise |
| FilesListLayout.FilesListEmpty | drive/files-list/src/main/kotlin/me/proton/core/drive/files/presentation/component/files/FilesList.kt:84-158 | Defined here; its property is stated by EmptyPlaceholderParts |
| FilesListLayout.ErrorPlaceholderAction | drive/files-list/src/main/kotlin/me/proton/core/drive/files/presentation/component/files/FilesList.kt:181-204 | The message is always shown; the action exactly when its id is present |
| FilesListLayout.FilesListError | drive/files-list/src/main/kotlin/me/proton/core/drive/files/presentation/component/files/FilesList.kt:181-204 | Defined here; its property is stated by ErrorPlaceholderAction |

## Left out

- Kotlin flows and coroutines (`first()`, `combine`, `shareIn`, `viewModelScope.launch`): each read is a snapshot of the current state, and the launched blocks run to completion in order.
- Concurrent `onError` invocations: the handler takes no locks and promises no ordering between them.
- WorkManager and `BackupNotificationWorker`: a notification request is the `EnqueueNotification` call in the handler's trace.
- `toBackupError`: its mapping is not part of this model. It is a parameter of the handler, and no exception is assumed to map to any particular error type.
- `StopBackup`, `DeleteFile`, `MarkAsFailed` and `HasFolders` internals: the model treats them as store writes and a store read. Stopping appends a stop record; whether repeated stops are idempotent is not modelled.
- UploadErrorHandling.Handler.OnError: one `writeSucceeds` flag stands for the outcome of the one repository write an error can cause. A failure is only logged, so it changes nothing.
- Logging (`log`, `CoreLogger`) and the `BackupStopException` built only to be logged.
- The `GetBackupStatus`, `GetBackupState`, `GetAllBuckets`, `AddFolder`, `SetFiles` and Room repository implementations are not part of this model. The model gives them behaviour that agrees with every assertion of the backup-state test; where the test does not decide, the behaviour is chosen, as the lines below say. The permission state is a parameter. Connectivity, the error list and the backup configuration do not change the asserted state and are left out.
- BackupStateDerivation.GetBackupStatus: `DUPLICATE` rows count toward the total but neither as pending nor as failed. No test distinguishes this.
- BackupStateDerivation.GetAllBuckets: without granted permission no bucket is offered. This is chosen; the test only ever grants permission.
- BackupRepository.SetFilesIn: the conflict policy is chosen, not taken from the source. For a key listed more than once the last listed file wins, and a listed key overwrites the stored row, state included. The test only inserts fresh uris.
- BackupRepository.DeleteFoldersFrom: deleting a folder's bindings leaves its file rows in place. Whether the database cascades is not visible.
- Event `occurredAt` (the wall clock), kotlinx serialization, and the `Bytes` and `Percentage` wrappers. These become `nat` and `real`.
- `ellipsizeMiddle`, `context.getString` and string resources: messages and titles are tags, and the success broadcast carries the full name with the 50-character display limit, not the ellipsized text.
- RenamePresentation.ErrorMessage and RenamePresentation.ErrorMessageMapping: for an unrecognised failure `logDefaultMessage` may choose a message from the error itself. Its code is not part of this model, so the model always gives the general message.
- The drive-link flow (`getDriveLink`, `filterSuccessOrError().take(1)`): it becomes an optional decrypted link. The rename operation (`renameLink`) and the link-name validator behind it are inputs given as the call's outcome.
- RenamePresentation.RenameViewModel.constructor: the missing-key exception of `require` is the `Failure` of `LinkIdOf`. The constructor takes only saved states with which construction succeeds.
- `FilesListContent`, `FilesListLoading`, Compose layout, modifiers and previews: UI with no stated logic.
- FilesListLayout.ItemAt: the `LazyColumnItems` index operator is not part of this model. A null paging slot and an index past the end both yield no item.
- FilesListLayout.CeilDiv: the float `ceil(size / itemsPerRow)` is integer ceiling division. Float rounding for very large sizes is not modelled.
