/**
 * The persisted backup store: folder bindings (`BackupFolder` rows), the backup
 * file table and the stop records kept when backup of a folder is stopped with a
 * classified error. The repository use cases (AddFolder, DeleteFolders, SetFiles,
 * MarkAsCompleted, MarkAsFailed, DeleteFile, StopBackup, HasFolders) are pure
 * functions on a `StoreState` value; class `Store` holds that state in fields and
 * its methods update it exactly as those functions say.
 */
module BackupRepository {
  import opened Wrappers
  import opened Links
  import opened BackupEntities
  import opened BackupFiles

  /** Backup of `folderId` was asked to stop because of `error`. */
  datatype StopRecord = StopRecord(folderId: FolderId, error: BackupError)

  datatype StoreState = StoreState(
    folders: set<BackupFolder>,
    files: seq<BackupFile>,
    stopRecords: seq<StopRecord>)

  /** The store's invariant: file rows are keyed by (folderId, uriString). */
  predicate Valid(s: StoreState) {
    UniqueKeys(s.files)
  }

  const Empty: StoreState := StoreState({}, [], [])

  /** Backup is enabled for a folder when some bucket is bound to it. */
  predicate HasFolders(s: StoreState, id: FolderId) {
    exists f :: f in s.folders && f.folderId == id
  }

  function AddFolderTo(s: StoreState, f: BackupFolder): StoreState {
    s.(folders := s.folders + {f})
  }

  /** Removes every binding of folder `id`; the file rows are left as they are. */
  function DeleteFoldersFrom(s: StoreState, id: FolderId): StoreState {
    s.(folders := set f | f in s.folders && f.folderId != id)
  }

  function SetFilesIn(s: StoreState, list: seq<BackupFile>): StoreState {
    s.(files := UpsertAll(s.files, list))
  }

  /** MarkAsCompleted (`st == COMPLETED`) and MarkAsFailed (`st == FAILED`) of one file. */
  function MarkIn(s: StoreState, id: FolderId, uri: string, st: BackupFileState): StoreState {
    s.(files := SetState(s.files, FileKey(id, uri), st))
  }

  function DeleteFileFrom(s: StoreState, id: FolderId, uri: string): StoreState {
    s.(files := RemoveKey(s.files, FileKey(id, uri)))
  }

  function StopBackupIn(s: StoreState, id: FolderId, error: BackupError): StoreState {
    s.(stopRecords := s.stopRecords + [StopRecord(id, error)])
  }

  // ---------------------------------------------------------------------------
  // What each write does and does not change

  /** Adding a binding enables backup of its folder and leaves every other folder's status alone. */
  lemma AddFolderEnables(s: StoreState, f: BackupFolder, id: FolderId)
    ensures HasFolders(AddFolderTo(s, f), id) <==> (HasFolders(s, id) || f.folderId == id)
    ensures AddFolderTo(s, f).files == s.files && AddFolderTo(s, f).stopRecords == s.stopRecords
  {
    if f.folderId == id {
      assert f in AddFolderTo(s, f).folders;
    }
  }

  /** Deleting a folder's bindings disables it and leaves other folders and all rows alone. */
  lemma DeleteFoldersDisables(s: StoreState, id: FolderId, other: FolderId)
    ensures !HasFolders(DeleteFoldersFrom(s, id), id)
    ensures other != id ==> (HasFolders(DeleteFoldersFrom(s, id), other) <==> HasFolders(s, other))
    ensures DeleteFoldersFrom(s, id).files == s.files
    ensures DeleteFoldersFrom(s, id).stopRecords == s.stopRecords
  {
    if other != id && HasFolders(s, other) {
      var f :| f in s.folders && f.folderId == other;
      assert f in DeleteFoldersFrom(s, id).folders;
    }
  }

  /** Setting files keeps the key unique; a listed key holds its last listed file. */
  lemma {:induction false} SetFilesResult(s: StoreState, list: seq<BackupFile>, k: FileKey)
    requires Valid(s)
    ensures Valid(SetFilesIn(s, list))
    ensures Lookup(SetFilesIn(s, list).files, k)
         == if LastWithKey(list, k).Some? then LastWithKey(list, k) else Lookup(s.files, k)
    ensures SetFilesIn(s, list).folders == s.folders
  {
    UpsertAllUnique(s.files, list);
    UpsertAllLookup(s.files, list, k);
  }

  /**
   * Marking (folderId, uri) changes that one file's state and nothing else: every
   * other key, every binding and every stop record is as before.
   */
  lemma {:induction false} MarkChangesOnlyThatFile(s: StoreState, id: FolderId, uri: string, st: BackupFileState, k: FileKey)
    requires Valid(s)
    ensures Valid(MarkIn(s, id, uri, st))
    ensures k != FileKey(id, uri) ==> Lookup(MarkIn(s, id, uri, st).files, k) == Lookup(s.files, k)
    ensures Lookup(s.files, FileKey(id, uri)).Some? ==>
              Lookup(MarkIn(s, id, uri, st).files, FileKey(id, uri))
              == Some(Lookup(s.files, FileKey(id, uri)).value.(state := st))
    ensures Lookup(s.files, FileKey(id, uri)).None? ==> MarkIn(s, id, uri, st) == s
    ensures MarkIn(s, id, uri, st).folders == s.folders
    ensures MarkIn(s, id, uri, st).stopRecords == s.stopRecords
  {
    SetStateUnique(s.files, FileKey(id, uri), st);
    SetStateLookup(s.files, FileKey(id, uri), st, k);
    SetStateLookup(s.files, FileKey(id, uri), st, FileKey(id, uri));
    if Lookup(s.files, FileKey(id, uri)).None? {
      SetStateAbsent(s.files, FileKey(id, uri), st);
    }
  }

  /** Deleting (folderId, uri) removes that row only. */
  lemma {:induction false} DeleteFileRemovesOnlyThatFile(s: StoreState, id: FolderId, uri: string, k: FileKey)
    requires Valid(s)
    ensures Valid(DeleteFileFrom(s, id, uri))
    ensures Lookup(DeleteFileFrom(s, id, uri).files, k)
         == if k == FileKey(id, uri) then None else Lookup(s.files, k)
    ensures DeleteFileFrom(s, id, uri).folders == s.folders
    ensures DeleteFileFrom(s, id, uri).stopRecords == s.stopRecords
  {
    RemoveKeyUnique(s.files, FileKey(id, uri));
    RemoveKeyLookup(s.files, FileKey(id, uri), k);
  }

  /** The mutable store the use cases write to. */
  class Store {
    var folders: set<BackupFolder>
    var files: seq<BackupFile>
    var stopRecords: seq<StopRecord>

    function State(): StoreState
      reads this
    {
      StoreState(folders, files, stopRecords)
    }

    constructor ()
      ensures State() == Empty
    {
      folders, files, stopRecords := {}, [], [];
    }

    /** The current answer of the HasFolders use case (a snapshot of its flow). */
    function HasFoldersNow(id: FolderId): bool
      reads this
    {
      HasFolders(State(), id)
    }

    method AddFolder(f: BackupFolder)
      modifies this
      ensures State() == AddFolderTo(old(State()), f)
    {
      folders := folders + {f};
    }

    method DeleteFolders(id: FolderId)
      modifies this
      ensures State() == DeleteFoldersFrom(old(State()), id)
    {
      folders := set f | f in folders && f.folderId != id;
    }

    method SetFiles(list: seq<BackupFile>)
      requires Valid(State())
      modifies this
      ensures Valid(State())
      ensures State() == SetFilesIn(old(State()), list)
    {
      UpsertAllUnique(files, list);
      files := UpsertAll(files, list);
    }

    method MarkAsCompleted(id: FolderId, uri: string)
      requires Valid(State())
      modifies this
      ensures Valid(State())
      ensures State() == MarkIn(old(State()), id, uri, COMPLETED)
    {
      SetStateUnique(files, FileKey(id, uri), COMPLETED);
      files := SetState(files, FileKey(id, uri), COMPLETED);
    }

    method MarkAsFailed(id: FolderId, uri: string)
      requires Valid(State())
      modifies this
      ensures Valid(State())
      ensures State() == MarkIn(old(State()), id, uri, FAILED)
    {
      SetStateUnique(files, FileKey(id, uri), FAILED);
      files := SetState(files, FileKey(id, uri), FAILED);
    }

    method DeleteFile(id: FolderId, uri: string)
      requires Valid(State())
      modifies this
      ensures Valid(State())
      ensures State() == DeleteFileFrom(old(State()), id, uri)
    {
      RemoveKeyUnique(files, FileKey(id, uri));
      files := RemoveKey(files, FileKey(id, uri));
    }

    method StopBackup(id: FolderId, error: BackupError)
      modifies this
      ensures State() == StopBackupIn(old(State()), id, error)
    {
      stopRecords := stopRecords + [StopRecord(id, error)];
    }
  }
}
