/**
 * Handling of upload failures during photo backup. An error whose cause has a
 * bearing on backup, for a file whose parent folder is backup-enabled, schedules
 * one notification for that folder and then one corrective action: delete the
 * file row (file not found), stop the folder's backup (permission, local storage,
 * drive storage, photos upload not allowed), mark the file failed (other), or
 * nothing (connectivity). Every other error is ignored.
 */
module UploadErrorHandling {
  import opened Wrappers
  import opened Links
  import opened BackupEntities
  import opened BackupFiles
  import opened BackupRepository

  /**
   * The exception classes the handler tells apart. `FileNotFoundException` is the
   * one subclass of `IOException` it singles out; `IOException` stands for every
   * other one.
   */
  datatype ThrowableKind =
    | ApiException
    | FileNotFoundException
    | IOException
    | CryptoException
    | NoSuchElementException
    | SecurityException
    | VerifierException
    | OtherThrowable

  datatype Throwable = Throwable(kind: ThrowableKind, message: string)

  predicate IsIOException(t: Throwable) {
    t.kind == IOException || t.kind == FileNotFoundException
  }

  /** The cause-type filter: only these exception classes concern backup. */
  predicate HasEffectOnBackup(t: Throwable) {
    match t.kind
    case ApiException => true
    case FileNotFoundException => true
    case IOException => true
    case CryptoException => true
    case NoSuchElementException => true
    case SecurityException => true
    case VerifierException => true
    case OtherThrowable => false
  }

  datatype UploadFileLink = UploadFileLink(id: int, parentLinkId: FolderId, uriString: Option<string>)

  /** One failed upload attempt, as reported by the upload pipeline. */
  datatype UploadError = UploadError(uploadFileLink: UploadFileLink, throwable: Throwable)

  /** A call the handler makes on one of its collaborators. */
  datatype Call =
    | EnqueueNotification(folderId: FolderId)
    | DeleteFileCall(folderId: FolderId, uriString: string)
    | StopBackupCall(folderId: FolderId, error: BackupError)
    | MarkAsFailedCall(folderId: FolderId, uriString: string)

  /** The notification requests among a sequence of calls, in order. */
  function Notifications(calls: seq<Call>): seq<FolderId> {
    if calls == [] then []
    else (if calls[0].EnqueueNotification? then [calls[0].folderId] else []) + Notifications(calls[1..])
  }

  /** The folder-wide error types: backup of the folder must stop. */
  predicate StopsBackup(t: BackupErrorType) {
    t == PERMISSION || t == LOCAL_STORAGE || t == DRIVE_STORAGE || t == PHOTOS_UPLOAD_NOT_ALLOWED
  }

  /** The corrective call `handleError` makes for `e`, if any. */
  function CorrectiveCalls(e: UploadError, toBackupError: Throwable -> BackupError): seq<Call> {
    var link := e.uploadFileLink;
    if e.throwable.kind == FileNotFoundException then
      (if link.uriString.Some? then [DeleteFileCall(link.parentLinkId, link.uriString.value)] else [])
    else
      var backupError := toBackupError(e.throwable);
      match backupError.errorType
      case PERMISSION => [StopBackupCall(link.parentLinkId, backupError)]
      case LOCAL_STORAGE => [StopBackupCall(link.parentLinkId, backupError)]
      case DRIVE_STORAGE => [StopBackupCall(link.parentLinkId, backupError)]
      case PHOTOS_UPLOAD_NOT_ALLOWED => [StopBackupCall(link.parentLinkId, backupError)]
      case OTHER => if link.uriString.Some? then [MarkAsFailedCall(link.parentLinkId, link.uriString.value)] else []
      case CONNECTIVITY => []
      case WIFI_CONNECTIVITY => []
  }

  /** Whether `onError` acts on `e` at all, given whether its parent folder has backup folders. */
  predicate IsHandled(e: UploadError, hasFolders: bool) {
    HasEffectOnBackup(e.throwable) && hasFolders
  }

  /** The calls `onError` makes, in order, given the snapshot answer of HasFolders. */
  function OnErrorCalls(e: UploadError, hasFolders: bool, toBackupError: Throwable -> BackupError): seq<Call> {
    if IsHandled(e, hasFolders) then
      [EnqueueNotification(e.uploadFileLink.parentLinkId)] + CorrectiveCalls(e, toBackupError)
    else []
  }

  /** What a call does to the store; a repository write that fails changes nothing. */
  function ApplyCall(s: StoreState, c: Call, writeSucceeds: bool): StoreState {
    if !writeSucceeds then s
    else
      match c
      case EnqueueNotification(_) => s
      case DeleteFileCall(id, uri) => DeleteFileFrom(s, id, uri)
      case StopBackupCall(id, error) => StopBackupIn(s, id, error)
      case MarkAsFailedCall(id, uri) => MarkIn(s, id, uri, FAILED)
  }

  /** The store after `onError(e)`. */
  function OnErrorState(s: StoreState, e: UploadError, toBackupError: Throwable -> BackupError, writeSucceeds: bool): StoreState {
    var calls := CorrectiveCalls(e, toBackupError);
    if IsHandled(e, HasFolders(s, e.uploadFileLink.parentLinkId)) && calls != [] then
      ApplyCall(s, calls[0], writeSucceeds)
    else s
  }

  // ---------------------------------------------------------------------------
  // Properties of the policy

  /** Notifications of appended calls are appended. */
  lemma {:induction false} NotificationsAppend(a: seq<Call>, b: seq<Call>)
    ensures Notifications(a + b) == Notifications(a) + Notifications(b)
  {
    if a != [] {
      assert (a + b)[1..] == a[1..] + b;
      NotificationsAppend(a[1..], b);
    } else {
      assert a + b == b;
    }
  }

  /** Exactly the six listed exception classes (file-not-found among the I/O ones) concern backup. */
  lemma EffectfulCauses(t: Throwable)
    ensures HasEffectOnBackup(t) <==> t.kind != OtherThrowable
    ensures IsIOException(t) ==> HasEffectOnBackup(t)
    ensures t.kind == FileNotFoundException ==> IsIOException(t) && HasEffectOnBackup(t)
  {
  }

  /** An unrelated cause changes no store row and makes no call at all. */
  lemma UnrelatedCauseIsIgnored(s: StoreState, e: UploadError, toBackupError: Throwable -> BackupError, writeSucceeds: bool, hasFolders: bool)
    requires e.throwable.kind == OtherThrowable
    ensures OnErrorState(s, e, toBackupError, writeSucceeds) == s
    ensures OnErrorCalls(e, hasFolders, toBackupError) == []
  {
  }

  /** An error for a folder without backup folders changes nothing and notifies nothing. */
  lemma DisabledFolderIsIgnored(s: StoreState, e: UploadError, toBackupError: Throwable -> BackupError, writeSucceeds: bool)
    requires !HasFolders(s, e.uploadFileLink.parentLinkId)
    ensures OnErrorState(s, e, toBackupError, writeSucceeds) == s
    ensures OnErrorCalls(e, HasFolders(s, e.uploadFileLink.parentLinkId), toBackupError) == []
  {
  }

  /**
   * A handled error enqueues exactly one notification, for the parent folder,
   * and it comes first, before the at most one corrective call.
   */
  lemma HandledErrorNotifiesFirst(e: UploadError, toBackupError: Throwable -> BackupError)
    requires HasEffectOnBackup(e.throwable)
    ensures var calls := OnErrorCalls(e, true, toBackupError);
            && 1 <= |calls| <= 2
            && calls[0] == EnqueueNotification(e.uploadFileLink.parentLinkId)
            && Notifications(calls) == [e.uploadFileLink.parentLinkId]
  {
    var calls := OnErrorCalls(e, true, toBackupError);
    var rest := CorrectiveCalls(e, toBackupError);
    assert calls == [EnqueueNotification(e.uploadFileLink.parentLinkId)] + rest;
    NotificationsAppend([EnqueueNotification(e.uploadFileLink.parentLinkId)], rest);
    assert Notifications(rest) == [] by {
      if rest != [] {
        assert rest[1..] == [];
      }
    }
  }

  /**
   * A missing source file only deletes its own row (when the uri is known and the
   * write succeeds): it never stops backup and never marks a file failed.
   */
  lemma {:induction false} FileNotFoundOnlyDeletes(s: StoreState, e: UploadError, toBackupError: Throwable -> BackupError, writeSucceeds: bool, k: FileKey)
    requires Valid(s)
    requires e.throwable.kind == FileNotFoundException
    requires HasFolders(s, e.uploadFileLink.parentLinkId)
    ensures var link := e.uploadFileLink;
            var s' := OnErrorState(s, e, toBackupError, writeSucceeds);
            && OnErrorCalls(e, true, toBackupError)
               == [EnqueueNotification(link.parentLinkId)]
                  + (if link.uriString.Some? then [DeleteFileCall(link.parentLinkId, link.uriString.value)] else [])
            && Valid(s')
            && s'.folders == s.folders
            && s'.stopRecords == s.stopRecords
            && Lookup(s'.files, k)
               == if writeSucceeds && link.uriString.Some? && k == FileKey(link.parentLinkId, link.uriString.value)
                  then None else Lookup(s.files, k)
  {
    var link := e.uploadFileLink;
    if link.uriString.Some? {
      DeleteFileRemovesOnlyThatFile(s, link.parentLinkId, link.uriString.value, k);
    }
  }

  /**
   * A folder-wide error stops backup of the parent folder with the classified
   * error; no file row and no binding changes.
   */
  lemma FolderFatalErrorStopsBackup(s: StoreState, e: UploadError, toBackupError: Throwable -> BackupError, writeSucceeds: bool)
    requires e.throwable.kind != FileNotFoundException
    requires HasEffectOnBackup(e.throwable)
    requires HasFolders(s, e.uploadFileLink.parentLinkId)
    requires StopsBackup(toBackupError(e.throwable).errorType)
    ensures var id := e.uploadFileLink.parentLinkId;
            var s' := OnErrorState(s, e, toBackupError, writeSucceeds);
            && OnErrorCalls(e, true, toBackupError)
               == [EnqueueNotification(id), StopBackupCall(id, toBackupError(e.throwable))]
            && s'.files == s.files
            && s'.folders == s.folders
            && s'.stopRecords
               == s.stopRecords + (if writeSucceeds then [StopRecord(id, toBackupError(e.throwable))] else [])
  {
  }

  /**
   * OTHER marks only the file (parent, uri) failed: every other row, every
   * binding and every stop record is as before.
   */
  lemma {:induction false} OtherErrorMarksOnlyThatFile(s: StoreState, e: UploadError, toBackupError: Throwable -> BackupError, writeSucceeds: bool, k: FileKey)
    requires Valid(s)
    requires e.throwable.kind != FileNotFoundException
    requires HasEffectOnBackup(e.throwable)
    requires HasFolders(s, e.uploadFileLink.parentLinkId)
    requires toBackupError(e.throwable).errorType == OTHER
    ensures var link := e.uploadFileLink;
            var s' := OnErrorState(s, e, toBackupError, writeSucceeds);
            var marked := link.uriString.Some? && k == FileKey(link.parentLinkId, link.uriString.value)
                          && writeSucceeds && Lookup(s.files, k).Some?;
            && OnErrorCalls(e, true, toBackupError)
               == [EnqueueNotification(link.parentLinkId)]
                  + (if link.uriString.Some? then [MarkAsFailedCall(link.parentLinkId, link.uriString.value)] else [])
            && Valid(s')
            && s'.folders == s.folders
            && s'.stopRecords == s.stopRecords
            && Lookup(s'.files, k) == if marked then Some(Lookup(s.files, k).value.(state := FAILED)) else Lookup(s.files, k)
  {
    var link := e.uploadFileLink;
    if link.uriString.Some? {
      MarkChangesOnlyThatFile(s, link.parentLinkId, link.uriString.value, FAILED, k);
    }
  }

  /** Connectivity errors only notify: the store is left as it is. */
  lemma ConnectivityErrorOnlyNotifies(s: StoreState, e: UploadError, toBackupError: Throwable -> BackupError, writeSucceeds: bool)
    requires e.throwable.kind != FileNotFoundException
    requires HasEffectOnBackup(e.throwable)
    requires HasFolders(s, e.uploadFileLink.parentLinkId)
    requires toBackupError(e.throwable).errorType in {CONNECTIVITY, WIFI_CONNECTIVITY}
    ensures OnErrorState(s, e, toBackupError, writeSucceeds) == s
    ensures OnErrorCalls(e, true, toBackupError) == [EnqueueNotification(e.uploadFileLink.parentLinkId)]
  {
  }

  /** Without a uri, the not-found and OTHER branches do nothing beyond the notification. */
  lemma MissingUriIsNoOp(s: StoreState, e: UploadError, toBackupError: Throwable -> BackupError, writeSucceeds: bool)
    requires e.uploadFileLink.uriString.None?
    requires e.throwable.kind == FileNotFoundException || toBackupError(e.throwable).errorType == OTHER
    ensures OnErrorState(s, e, toBackupError, writeSucceeds) == s
    ensures OnErrorCalls(e, true, toBackupError)
         == if HasEffectOnBackup(e.throwable) then [EnqueueNotification(e.uploadFileLink.parentLinkId)] else []
  {
  }

  /** A repository write that fails leaves the store as it was; the calls were still made. */
  lemma FailedWriteChangesNothing(s: StoreState, e: UploadError, toBackupError: Throwable -> BackupError)
    ensures OnErrorState(s, e, toBackupError, false) == s
  {
  }

  /** The handler keeps the file table's primary key unique. */
  lemma OnErrorKeepsStoreValid(s: StoreState, e: UploadError, toBackupError: Throwable -> BackupError, writeSucceeds: bool)
    requires Valid(s)
    ensures Valid(OnErrorState(s, e, toBackupError, writeSucceeds))
  {
    var calls := CorrectiveCalls(e, toBackupError);
    if calls != [] {
      match calls[0]
      case DeleteFileCall(id, uri) => DeleteFileRemovesOnlyThatFile(s, id, uri, FileKey(id, uri));
      case MarkAsFailedCall(id, uri) => MarkChangesOnlyThatFile(s, id, uri, FAILED, FileKey(id, uri));
      case StopBackupCall(_, _) =>
      case EnqueueNotification(_) =>
    }
  }

  /**
   * The upload error handler. It reads and writes the backup store, and `calls`
   * records, in order, every call it has made on its collaborators (the work
   * manager's notification requests and the repository use cases).
   */
  class Handler {
    const store: Store
    const toBackupError: Throwable -> BackupError
    var calls: seq<Call>

    constructor (store: Store, toBackupError: Throwable -> BackupError)
      ensures this.store == store && this.toBackupError == toBackupError
      ensures calls == []
    {
      this.store := store;
      this.toBackupError := toBackupError;
      calls := [];
    }

    /** The work requests enqueued so far. */
    function NotificationQueue(): seq<FolderId>
      reads this
    {
      Notifications(calls)
    }

    /** `onError`; `writeSucceeds` says whether the repository write it may make succeeds. */
    method OnError(e: UploadError, writeSucceeds: bool)
      requires Valid(store.State())
      modifies this, store
      ensures Valid(store.State())
      ensures store.State() == OnErrorState(old(store.State()), e, toBackupError, writeSucceeds)
      ensures calls == old(calls) + OnErrorCalls(e, HasFolders(old(store.State()), e.uploadFileLink.parentLinkId), toBackupError)
      ensures NotificationQueue()
           == old(NotificationQueue())
            + (if IsHandled(e, HasFolders(old(store.State()), e.uploadFileLink.parentLinkId))
               then [e.uploadFileLink.parentLinkId] else [])
    {
      var handled := OnErrorCalls(e, HasFolders(store.State(), e.uploadFileLink.parentLinkId), toBackupError);
      NotificationsAppend(calls, handled);
      if IsHandled(e, HasFolders(store.State(), e.uploadFileLink.parentLinkId)) {
        HandledErrorNotifiesFirst(e, toBackupError);
      }
      OnErrorKeepsStoreValid(store.State(), e, toBackupError, writeSucceeds);
      if HasEffectOnBackup(e.throwable) {
        var hasFolders := store.HasFoldersNow(e.uploadFileLink.parentLinkId);
        if hasFolders {
          calls := calls + [EnqueueNotification(e.uploadFileLink.parentLinkId)];
          HandleError(e, writeSucceeds);
        }
      }
    }

    method HandleError(e: UploadError, writeSucceeds: bool)
      requires Valid(store.State())
      modifies this, store
      ensures store.State()
           == if CorrectiveCalls(e, toBackupError) == [] then old(store.State())
              else ApplyCall(old(store.State()), CorrectiveCalls(e, toBackupError)[0], writeSucceeds)
      ensures calls == old(calls) + CorrectiveCalls(e, toBackupError)
    {
      var link := e.uploadFileLink;
      if e.throwable.kind == FileNotFoundException {
        OnFileNotFoundException(link, writeSucceeds);
      } else {
        var backupError := toBackupError(e.throwable);
        match backupError.errorType {
          case PERMISSION => StopBackup(link.parentLinkId, backupError, writeSucceeds);
          case LOCAL_STORAGE => StopBackup(link.parentLinkId, backupError, writeSucceeds);
          case DRIVE_STORAGE => StopBackup(link.parentLinkId, backupError, writeSucceeds);
          case PHOTOS_UPLOAD_NOT_ALLOWED => StopBackup(link.parentLinkId, backupError, writeSucceeds);
          case OTHER => OnFileOtherError(e, writeSucceeds);
          case CONNECTIVITY =>
          case WIFI_CONNECTIVITY =>
        }
      }
    }

    /** Calls StopBackup; a failure is logged and goes no further. */
    method StopBackup(id: FolderId, error: BackupError, writeSucceeds: bool)
      modifies this, store
      ensures store.State() == ApplyCall(old(store.State()), StopBackupCall(id, error), writeSucceeds)
      ensures calls == old(calls) + [StopBackupCall(id, error)]
    {
      calls := calls + [StopBackupCall(id, error)];
      if writeSucceeds {
        store.StopBackup(id, error);
      }
    }

    method OnFileNotFoundException(link: UploadFileLink, writeSucceeds: bool)
      requires Valid(store.State())
      modifies this, store
      ensures link.uriString.None? ==> store.State() == old(store.State()) && calls == old(calls)
      ensures link.uriString.Some? ==>
                var c := DeleteFileCall(link.parentLinkId, link.uriString.value);
                store.State() == ApplyCall(old(store.State()), c, writeSucceeds) && calls == old(calls) + [c]
    {
      if link.uriString.Some? {
        var uri := link.uriString.value;
        calls := calls + [DeleteFileCall(link.parentLinkId, uri)];
        if writeSucceeds {
          store.DeleteFile(link.parentLinkId, uri);
        }
      }
    }

    method OnFileOtherError(e: UploadError, writeSucceeds: bool)
      requires Valid(store.State())
      modifies this, store
      ensures e.uploadFileLink.uriString.None? ==> store.State() == old(store.State()) && calls == old(calls)
      ensures e.uploadFileLink.uriString.Some? ==>
                var c := MarkAsFailedCall(e.uploadFileLink.parentLinkId, e.uploadFileLink.uriString.value);
                store.State() == ApplyCall(old(store.State()), c, writeSucceeds) && calls == old(calls) + [c]
    {
      var link := e.uploadFileLink;
      if link.uriString.Some? {
        var uri := link.uriString.value;
        calls := calls + [MarkAsFailedCall(link.parentLinkId, uri)];
        if writeSucceeds {
          store.MarkAsFailed(link.parentLinkId, uri);
        }
      }
    }
  }
}
