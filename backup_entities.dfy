/**
 * The persisted entities of photo backup: folder bindings, per-file backup rows,
 * classified backup errors and device media buckets.
 */
module BackupEntities {
  import opened Links

  /** Lifecycle state of one backup file row. */
  datatype BackupFileState = IDLE | ENQUEUED | READY | DUPLICATE | FAILED | COMPLETED

  /** A file that still has to be uploaded. */
  predicate IsPending(s: BackupFileState) {
    s == IDLE || s == ENQUEUED || s == READY
  }

  /** A device bucket (`bucketId`) bound to a destination folder: backup is enabled for it. */
  datatype BackupFolder = BackupFolder(bucketId: int, folderId: FolderId)

  /** One discovered local media item queued for backup. */
  datatype BackupFile = BackupFile(
    bucketId: int,
    folderId: FolderId,
    uriString: string,
    mimeType: string,
    name: string,
    hash: string,
    size: nat,
    state: BackupFileState,
    date: int)

  /** Rows of the file table are identified by their destination folder and on-device uri. */
  datatype FileKey = FileKey(folderId: FolderId, uriString: string)

  function KeyOf(f: BackupFile): FileKey {
    FileKey(f.folderId, f.uriString)
  }

  datatype BackupErrorType =
    | PERMISSION
    | LOCAL_STORAGE
    | DRIVE_STORAGE
    | CONNECTIVITY
    | WIFI_CONNECTIVITY
    | PHOTOS_UPLOAD_NOT_ALLOWED
    | OTHER

  /** A classified backup failure. */
  datatype BackupError = BackupError(errorType: BackupErrorType)

  /** An OS media bucket as enumerated on the device. */
  datatype BucketEntry = BucketEntry(bucketId: int, bucketName: string)
}
