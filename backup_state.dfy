/**
 * Derivation of the photo-backup state of one destination folder: whether backup
 * is enabled, whether the configured default bucket is available, and the
 * aggregate progress status computed from the folder's file rows.
 */
module BackupStateDerivation {
  import opened Wrappers
  import opened Links
  import opened BackupEntities
  import opened BackupFiles
  import opened BackupRepository

  datatype BackupStatus =
    | Complete(totalBackupPhotos: nat)
    | InProgress(totalBackupPhotos: nat, pendingBackupPhotos: nat)
    | Uncompleted(totalBackupPhotos: nat, failedBackupPhotos: nat)

  datatype BackupState = BackupState(
    isBackupEnabled: bool,
    hasDefaultFolder: bool,
    backupStatus: Option<BackupStatus>)

  datatype BackupPermissions = Granted | Denied | NotAsked

  /** The name of the default bucket in the configuration the state is computed with. */
  const DefaultBucketName: string := "Camera"

  /**
   * The aggregate status of a folder's files. Files still to upload take
   * precedence over failed ones; only when none is pending does a failure make
   * the backup uncompleted.
   */
  function GetBackupStatus(rows: seq<BackupFile>, id: FolderId): (st: BackupStatus)
    ensures st.totalBackupPhotos == CountWhere(rows, id, AllStates)
    ensures st.InProgress? <==> CountWhere(rows, id, PendingStates) > 0
    ensures st.InProgress? ==> st.pendingBackupPhotos == CountWhere(rows, id, PendingStates)
    ensures st.Uncompleted? <==> CountWhere(rows, id, PendingStates) == 0 && CountWhere(rows, id, {FAILED}) > 0
    ensures st.Uncompleted? ==> st.failedBackupPhotos == CountWhere(rows, id, {FAILED})
    ensures st.InProgress? ==> 0 < st.pendingBackupPhotos <= st.totalBackupPhotos
    ensures st.Uncompleted? ==> 0 < st.failedBackupPhotos <= st.totalBackupPhotos
    ensures st.Complete? ==>
              st.totalBackupPhotos == CountWhere(rows, id, {COMPLETED}) + CountWhere(rows, id, {DUPLICATE})
  {
    var total := CountWhere(rows, id, AllStates);
    var pending := CountWhere(rows, id, PendingStates);
    var failed := CountWhere(rows, id, {FAILED});
    CountPartition(rows, id);
    if pending > 0 then InProgress(total, pending)
    else if failed > 0 then Uncompleted(total, failed)
    else Complete(total)
  }

  /** The buckets offered for backup: all of them with permission, none without. */
  function GetAllBuckets(buckets: seq<BucketEntry>, permissions: BackupPermissions): seq<BucketEntry> {
    if permissions == Granted then buckets else []
  }

  predicate HasBucketNamed(buckets: seq<BucketEntry>, name: string) {
    exists i :: 0 <= i < |buckets| && buckets[i].bucketName == name
  }

  /** The `BackupState` of folder `id` in store `s`. */
  function GetBackupState(
    s: StoreState, id: FolderId, buckets: seq<BucketEntry>,
    permissions: BackupPermissions, defaultBucketName: string): BackupState
  {
    var enabled := HasFolders(s, id);
    BackupState(
      isBackupEnabled := enabled,
      hasDefaultFolder := HasBucketNamed(GetAllBuckets(buckets, permissions), defaultBucketName),
      backupStatus := if enabled then Some(GetBackupStatus(s.files, id)) else None)
  }

  // ---------------------------------------------------------------------------
  // General properties

  /** The status is absent exactly when backup is not enabled, whatever rows exist. */
  lemma StatusPresentIffEnabled(s: StoreState, id: FolderId, buckets: seq<BucketEntry>, p: BackupPermissions, name: string)
    ensures GetBackupState(s, id, buckets, p, name).backupStatus.None?
        <==> !GetBackupState(s, id, buckets, p, name).isBackupEnabled
    ensures GetBackupState(s, id, buckets, p, name).isBackupEnabled <==> HasFolders(s, id)
  {
  }

  /** `hasDefaultFolder` follows the default bucket's presence, not the folder bindings. */
  lemma DefaultFolderFollowsBuckets(s: StoreState, id: FolderId, buckets: seq<BucketEntry>, name: string)
    ensures buckets == [] ==> !GetBackupState(s, id, buckets, Granted, name).hasDefaultFolder
    ensures GetBackupState(s, id, buckets, Granted, name).hasDefaultFolder <==> HasBucketNamed(buckets, name)
    ensures forall p :: p != Granted ==> !GetBackupState(s, id, buckets, p, name).hasDefaultFolder
    ensures forall s': StoreState ::
              GetBackupState(s', id, buckets, Granted, name).hasDefaultFolder
              == GetBackupState(s, id, buckets, Granted, name).hasDefaultFolder
  {
  }

  /** An enabled folder with no file rows is complete with zero photos. */
  lemma EnabledWithoutFilesIsComplete(s: StoreState, id: FolderId, buckets: seq<BucketEntry>, p: BackupPermissions, name: string)
    requires HasFolders(s, id)
    requires CountWhere(s.files, id, AllStates) == 0
    ensures GetBackupState(s, id, buckets, p, name).backupStatus == Some(Complete(0))
  {
    CountMonotone(s.files, id, PendingStates, AllStates);
  }

  /** Failed files do not hide pending ones: with any file pending the status is in progress. */
  lemma PendingTakesPrecedence(rows: seq<BackupFile>, id: FolderId)
    requires CountWhere(rows, id, PendingStates) > 0
    ensures GetBackupStatus(rows, id)
         == InProgress(CountWhere(rows, id, AllStates), CountWhere(rows, id, PendingStates))
  {
  }

  /**
   * Completing a pending file of a folder keeps the total, moves one file from
   * pending to completed and leaves the failed count alone: with other files still
   * pending the status is InProgress with one fewer pending; when it was the last
   * pending file the status leaves InProgress.
   */
  lemma {:induction false} CompletingPendingFile(s: StoreState, f: BackupFile)
    requires Valid(s)
    requires Lookup(s.files, KeyOf(f)) == Some(f)
    requires IsPending(f.state)
    ensures var before := GetBackupStatus(s.files, f.folderId);
            var after := GetBackupStatus(MarkIn(s, f.folderId, f.uriString, COMPLETED).files, f.folderId);
            && before.InProgress?
            && after.totalBackupPhotos == before.totalBackupPhotos
            && (after.InProgress? ==> after.pendingBackupPhotos == before.pendingBackupPhotos - 1)
            && (before.pendingBackupPhotos > 1 ==>
                  after == InProgress(before.totalBackupPhotos, before.pendingBackupPhotos - 1))
            && (before.pendingBackupPhotos == 1 ==> !after.InProgress?)
  ensures var rows' := MarkIn(s, f.folderId, f.uriString, COMPLETED).files;
          && CountWhere(rows', f.folderId, PendingStates) == CountWhere(s.files, f.folderId, PendingStates) - 1
          && CountWhere(rows', f.folderId, {COMPLETED}) == CountWhere(s.files, f.folderId, {COMPLETED}) + 1
          && CountWhere(rows', f.folderId, {FAILED}) == CountWhere(s.files, f.folderId, {FAILED})
  {
    var rows := s.files;
    var id := f.folderId;
    assert KeyOf(f) == FileKey(id, f.uriString);
    SetStateCount(rows, f, COMPLETED, id, AllStates);
    SetStateCount(rows, f, COMPLETED, id, PendingStates);
    SetStateCount(rows, f, COMPLETED, id, {COMPLETED});
    SetStateCount(rows, f, COMPLETED, id, {FAILED});
    LookupCounts(rows, f);
  }

  /**
   * Failing a pending file of a folder keeps the total and moves one file from
   * pending to failed.
   */
  lemma {:induction false} FailingPendingFile(s: StoreState, f: BackupFile)
    requires Valid(s)
    requires Lookup(s.files, KeyOf(f)) == Some(f)
    requires IsPending(f.state)
    ensures var rows' := MarkIn(s, f.folderId, f.uriString, FAILED).files;
            && CountWhere(rows', f.folderId, AllStates) == CountWhere(s.files, f.folderId, AllStates)
            && CountWhere(rows', f.folderId, PendingStates) == CountWhere(s.files, f.folderId, PendingStates) - 1
            && CountWhere(rows', f.folderId, {FAILED}) == CountWhere(s.files, f.folderId, {FAILED}) + 1
  {
    assert KeyOf(f) == FileKey(f.folderId, f.uriString);
    SetStateCount(s.files, f, FAILED, f.folderId, AllStates);
    SetStateCount(s.files, f, FAILED, f.folderId, PendingStates);
    SetStateCount(s.files, f, FAILED, f.folderId, {FAILED});
  }

  /** A row found in the table is counted by its own folder and state. */
  lemma {:induction false} LookupCounts(rows: seq<BackupFile>, f: BackupFile)
    requires Lookup(rows, KeyOf(f)) == Some(f)
    ensures f.state in PendingStates ==> CountWhere(rows, f.folderId, PendingStates) > 0
    ensures CountWhere(rows, f.folderId, AllStates) > 0
  {
    AllStatesComplete(f.state);
    if KeyOf(rows[0]) != KeyOf(f) {
      LookupCounts(rows[1..], f);
    }
  }

  /** Adding and then deleting a folder's binding returns it to disabled with no status. */
  lemma AddThenDeleteDisables(s: StoreState, bucketId: int, id: FolderId, buckets: seq<BucketEntry>, p: BackupPermissions, name: string)
    ensures var s' := DeleteFoldersFrom(AddFolderTo(s, BackupFolder(bucketId, id)), id);
            && GetBackupState(s', id, buckets, p, name).isBackupEnabled == false
            && GetBackupState(s', id, buckets, p, name).backupStatus == None
            && GetBackupState(s', id, buckets, p, name).hasDefaultFolder
               == GetBackupState(s, id, buckets, p, name).hasDefaultFolder
  {
    DeleteFoldersDisables(AddFolderTo(s, BackupFolder(bucketId, id)), id, id);
  }

  // ---------------------------------------------------------------------------
  // The concrete scenarios of the backup-state tests

  /** A file of the scenarios: bucket 0, folder `id`, the given uri, state IDLE. */
  function TestFile(id: FolderId, uri: string): BackupFile {
    BackupFile(0, id, uri, "", "", "", 0, IDLE, 0)
  }

  function ThreeFiles(id: FolderId): StoreState {
    SetFilesIn(AddFolderTo(Empty, BackupFolder(0, id)), [TestFile(id, "uri1"), TestFile(id, "uri2"), TestFile(id, "uri3")])
  }

  lemma BlankState(id: FolderId)
    ensures GetBackupState(Empty, id, [], Granted, DefaultBucketName) == BackupState(false, false, None)
    ensures GetBackupState(Empty, id, [BucketEntry(0, "Camera")], Granted, DefaultBucketName)
         == BackupState(false, true, None)
  {
    assert [BucketEntry(0, "Camera")][0].bucketName == DefaultBucketName;
  }

  lemma RunningState(id: FolderId)
    ensures GetBackupState(AddFolderTo(Empty, BackupFolder(0, id)), id, [BucketEntry(0, "Camera")], Granted, DefaultBucketName)
         == BackupState(true, true, Some(Complete(0)))
  {
    assert BackupFolder(0, id) in AddFolderTo(Empty, BackupFolder(0, id)).folders;
    assert [BucketEntry(0, "Camera")][0].bucketName == DefaultBucketName;
  }

  /** Three IDLE files exist after SetFiles on an empty table. */
  lemma ThreeFilesRows(id: FolderId)
    ensures ThreeFiles(id).files == [TestFile(id, "uri1"), TestFile(id, "uri2"), TestFile(id, "uri3")]
    ensures Valid(ThreeFiles(id))
    ensures HasFolders(ThreeFiles(id), id)
  {
    var f1, f2, f3 := TestFile(id, "uri1"), TestFile(id, "uri2"), TestFile(id, "uri3");
    assert KeyOf(f1) != KeyOf(f2) && KeyOf(f2) != KeyOf(f3) && KeyOf(f1) != KeyOf(f3) by {
      assert "uri1"[3] != "uri2"[3] && "uri2"[3] != "uri3"[3] && "uri1"[3] != "uri3"[3];
    }
    assert Upsert([], f1) == [f1];
    assert Upsert([f1], f2) == [f1, f2] by {
      assert [f1][1..] == [];
    }
    assert Upsert([f1, f2], f3) == [f1, f2, f3] by {
      assert [f1, f2][1..] == [f2];
      assert Upsert([f2], f3) == [f2, f3] by { assert [f2][1..] == []; }
    }
    calc {
      UpsertAll([], [f1, f2, f3]);
      UpsertAll([f1], [f2, f3]);
      UpsertAll([f1, f2], [f3]);
      UpsertAll([f1, f2, f3], []);
    }
    assert [f1, f2, f3][1..] == [f2, f3] && [f2, f3][1..] == [f3] && [f3][1..] == [];
    assert Lookup([f3], KeyOf(f1)) == None && Lookup([f3], KeyOf(f2)) == None by {
      assert Lookup([], KeyOf(f1)) == None;
    }
    assert Lookup([f2, f3], KeyOf(f1)) == None;
    assert UniqueKeys([f3]) && UniqueKeys([f2, f3]);
    assert BackupFolder(0, id) in ThreeFiles(id).folders;
  }

  /** Counting on a table of three rows, unfolded. */
  lemma CountThree(a: BackupFile, b: BackupFile, c: BackupFile, id: FolderId, states: set<BackupFileState>)
    ensures CountWhere([a, b, c], id, states)
         == (if a.folderId == id && a.state in states then 1 else 0)
          + (if b.folderId == id && b.state in states then 1 else 0)
          + (if c.folderId == id && c.state in states then 1 else 0)
  {
    assert [a, b, c][1..] == [b, c] && [b, c][1..] == [c] && [c][1..] == [];
    assert CountWhere([c], id, states) == (if c.folderId == id && c.state in states then 1 else 0);
    assert CountWhere([b, c], id, states)
        == (if b.folderId == id && b.state in states then 1 else 0) + CountWhere([c], id, states);
  }

  /** Marking on a table of three rows, unfolded. */
  lemma SetStateThree(a: BackupFile, b: BackupFile, c: BackupFile, k: FileKey, st: BackupFileState)
    ensures SetState([a, b, c], k, st)
         == [if KeyOf(a) == k then a.(state := st) else a,
             if KeyOf(b) == k then b.(state := st) else b,
             if KeyOf(c) == k then c.(state := st) else c]
  {
    assert [a, b, c][1..] == [b, c] && [b, c][1..] == [c] && [c][1..] == [];
    var a', b', c' := if KeyOf(a) == k then a.(state := st) else a,
                      if KeyOf(b) == k then b.(state := st) else b,
                      if KeyOf(c) == k then c.(state := st) else c;
    assert SetState([c], k, st) == [c'] + SetState([], k, st) == [c'];
    assert SetState([b, c], k, st) == [b'] + SetState([c], k, st) == [b', c'];
    assert SetState([a, b, c], k, st) == [a'] + SetState([b, c], k, st);
  }

  lemma UploadingState(id: FolderId)
    ensures GetBackupState(MarkIn(ThreeFiles(id), id, "uri1", COMPLETED), id, [BucketEntry(0, "Camera")], Granted, DefaultBucketName)
         == BackupState(true, true, Some(InProgress(3, 2)))
  {
    var f1, f2, f3 := TestFile(id, "uri1"), TestFile(id, "uri2"), TestFile(id, "uri3");
    ThreeFilesRows(id);
    var k := FileKey(id, "uri1");
    SetStateThree(f1, f2, f3, k, COMPLETED);
    var rows := [f1.(state := COMPLETED), f2, f3];
    assert MarkIn(ThreeFiles(id), id, "uri1", COMPLETED).files == rows;
    CountThree(rows[0], rows[1], rows[2], id, AllStates);
    CountThree(rows[0], rows[1], rows[2], id, PendingStates);
    assert [BucketEntry(0, "Camera")][0].bucketName == DefaultBucketName;
  }

  lemma FailureState(id: FolderId)
    ensures GetBackupState(MarkIn(ThreeFiles(id), id, "uri1", FAILED), id, [BucketEntry(0, "Camera")], Granted, DefaultBucketName)
         == BackupState(true, true, Some(InProgress(3, 2)))
  {
    var f1, f2, f3 := TestFile(id, "uri1"), TestFile(id, "uri2"), TestFile(id, "uri3");
    ThreeFilesRows(id);
    var k := FileKey(id, "uri1");
    SetStateThree(f1, f2, f3, k, FAILED);
    var rows := [f1.(state := FAILED), f2, f3];
    assert MarkIn(ThreeFiles(id), id, "uri1", FAILED).files == rows;
    CountThree(rows[0], rows[1], rows[2], id, AllStates);
    CountThree(rows[0], rows[1], rows[2], id, PendingStates);
    assert [BucketEntry(0, "Camera")][0].bucketName == DefaultBucketName;
  }

  /** The file rows after completing uri1 and uri2 and failing uri3. */
  lemma UncompletedRows(id: FolderId)
    ensures var s := MarkIn(MarkIn(MarkIn(ThreeFiles(id), id, "uri1", COMPLETED), id, "uri2", COMPLETED), id, "uri3", FAILED);
            && s.files == [TestFile(id, "uri1").(state := COMPLETED), TestFile(id, "uri2").(state := COMPLETED),
                           TestFile(id, "uri3").(state := FAILED)]
            && HasFolders(s, id)
  {
    var f1, f2, f3 := TestFile(id, "uri1"), TestFile(id, "uri2"), TestFile(id, "uri3");
    ThreeFilesRows(id);
    var k1, k2, k3 := FileKey(id, "uri1"), FileKey(id, "uri2"), FileKey(id, "uri3");
    SetStateThree(f1, f2, f3, k1, COMPLETED);
    var c1 := f1.(state := COMPLETED);
    SetStateThree(c1, f2, f3, k2, COMPLETED);
    var c2 := f2.(state := COMPLETED);
    SetStateThree(c1, c2, f3, k3, FAILED);
  }

  lemma UncompletedState(id: FolderId)
    ensures GetBackupState(
              MarkIn(MarkIn(MarkIn(ThreeFiles(id), id, "uri1", COMPLETED), id, "uri2", COMPLETED), id, "uri3", FAILED),
              id, [BucketEntry(0, "Camera")], Granted, DefaultBucketName)
         == BackupState(true, true, Some(Uncompleted(3, 1)))
  {
    UncompletedRows(id);
    var rows := [TestFile(id, "uri1").(state := COMPLETED), TestFile(id, "uri2").(state := COMPLETED),
                 TestFile(id, "uri3").(state := FAILED)];
    CountThree(rows[0], rows[1], rows[2], id, AllStates);
    CountThree(rows[0], rows[1], rows[2], id, PendingStates);
    CountThree(rows[0], rows[1], rows[2], id, {FAILED});
    assert [BucketEntry(0, "Camera")][0].bucketName == DefaultBucketName;
  }

  lemma StoppedState(id: FolderId)
    ensures GetBackupState(DeleteFoldersFrom(AddFolderTo(Empty, BackupFolder(0, id)), id), id,
                           [BucketEntry(0, "Camera")], Granted, DefaultBucketName)
         == BackupState(false, true, None)
  {
    AddThenDeleteDisables(Empty, 0, id, [BucketEntry(0, "Camera")], Granted, DefaultBucketName);
    BlankState(id);
  }

  /** The same scenario driven through the store's methods. */
  method UploadingScenario(id: FolderId) returns (state: BackupState)
    ensures state == BackupState(true, true, Some(InProgress(3, 2)))
  {
    var store := new Store();
    store.AddFolder(BackupFolder(0, id));
    store.SetFiles([TestFile(id, "uri1"), TestFile(id, "uri2"), TestFile(id, "uri3")]);
    store.MarkAsCompleted(id, "uri1");
    UploadingState(id);
    state := GetBackupState(store.State(), id, [BucketEntry(0, "Camera")], Granted, DefaultBucketName);
  }
}
