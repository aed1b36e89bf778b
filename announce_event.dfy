/**
 * Events announced to the notification layer. Each event's `id` is built from a
 * fixed prefix, the upper-cased simple name of its variant and, for some
 * variants, a payload-dependent suffix.
 */
module AnnounceEvent {
  import opened Wrappers
  import opened Links

  /** Kotlin's `Long` and `Int`. */
  type Long = x: int | -0x8000_0000_0000_0000 <= x < 0x8000_0000_0000_0000
  type Int = x: int | -0x8000_0000 <= x < 0x8000_0000

  datatype UploadState = NEW_UPLOAD | UPLOADING | UPLOAD_COMPLETE | UPLOAD_FAILED | UPLOAD_CANCELLED

  datatype Reason = ERROR_OTHER | ERROR_PERMISSIONS | ERROR_DRIVE_STORAGE | ERROR_LOCAL_STORAGE | ERROR_NOT_ALLOWED

  datatype BackupState =
    | IN_PROGRESS
    | COMPLETE
    | FAILED
    | FAILED_CONNECTIVITY
    | FAILED_WIFI_CONNECTIVITY
    | FAILED_PERMISSION
    | FAILED_LOCAL_STORAGE
    | FAILED_DRIVE_STORAGE
    | FAILED_PHOTOS_UPLOAD_NOT_ALLOWED
    | PAUSED_DISABLED
    | UNCOMPLETED

  /** The event variants; `needed` is a byte count and `percentage` a fraction. */
  datatype Event =
    | StorageFull(needed: nat)
    | Upload(state: UploadState, uploadFileLinkId: Long, percentage: real, shouldShow: bool, reason: Option<Reason> := None)
    | Backup(folderId: FolderId, backupState: BackupState, totalBackupPhotos: Int, pendingBackupPhotos: Int)
    | BackupEnabled(folderId: FolderId)
    | BackupDisabled(folderId: FolderId)
    | BackupStarted(folderId: FolderId)
    | BackupStopped(folderId: FolderId, backupState: BackupState)
    | BackupCompleted(folderId: FolderId)
    | Download(downloadId: string, downloadedFiles: Int, totalFiles: Int)
    | ForcedSignOut
    | NoSpaceLeftOnDevice

  const EventIdPrefix: string := "NOTIFICATION_EVENT_ID_"

  /** The simple class name of the variant. */
  function SimpleName(e: Event): string {
    match e
    case StorageFull(_) => "StorageFull"
    case Upload(_, _, _, _, _) => "Upload"
    case Backup(_, _, _, _) => "Backup"
    case BackupEnabled(_) => "BackupEnabled"
    case BackupDisabled(_) => "BackupDisabled"
    case BackupStarted(_) => "BackupStarted"
    case BackupStopped(_, _) => "BackupStopped"
    case BackupCompleted(_) => "BackupCompleted"
    case Download(_, _, _) => "Download"
    case ForcedSignOut => "ForcedSignOut"
    case NoSpaceLeftOnDevice => "NoSpaceLeftOnDevice"
  }

  function ToUpper(c: char): char {
    if 'a' <= c <= 'z' then (c as int - 32) as char else c
  }

  /** Upper-casing, which on the ASCII class names is the locale-independent one. */
  function Uppercase(s: string): (r: string)
    ensures |r| == |s|
  {
    seq(|s|, i requires 0 <= i < |s| => ToUpper(s[i]))
  }

  // ---------------------------------------------------------------------------
  // Decimal form of a Long

  function DigitChar(d: nat): (c: char)
    requires d < 10
    ensures '0' <= c <= '9'
  {
    ('0' as int + d) as char
  }

  function NatToString(n: nat): (r: string)
    ensures |r| > 0
    ensures forall i :: 0 <= i < |r| ==> '0' <= r[i] <= '9'
  {
    if n < 10 then [DigitChar(n)] else NatToString(n / 10) + [DigitChar(n % 10)]
  }

  /** `Long.toString()`: optional minus sign, then the decimal digits. */
  function LongToString(n: Long): string {
    var m: int := n;
    if m < 0 then "-" + NatToString(-m) else NatToString(m)
  }

  /** The number a string of decimal digits denotes. */
  function ParseDigits(s: string): int {
    if s == [] then 0 else ParseDigits(s[..|s| - 1]) * 10 + (s[|s| - 1] as int - '0' as int)
  }

  function ParseLong(s: string): int {
    if |s| > 0 && s[0] == '-' then -ParseDigits(s[1..]) else ParseDigits(s)
  }

  /** Reading back the digits of `n` gives `n`. */
  lemma {:induction false} ParseNatToString(n: nat)
    ensures ParseDigits(NatToString(n)) == n
  {
    if n >= 10 {
      var s := NatToString(n);
      assert s[..|s| - 1] == NatToString(n / 10);
      ParseNatToString(n / 10);
    }
  }

  /** The decimal form of a Long reads back as that Long, so distinct Longs print differently. */
  lemma ParseLongToString(n: Long)
    ensures ParseLong(LongToString(n)) == n
  {
    var m: int := n;
    if m < 0 {
      assert ("-" + NatToString(-m))[1..] == NatToString(-m);
      ParseNatToString(-m);
    } else {
      ParseNatToString(m);
    }
  }

  // ---------------------------------------------------------------------------
  // Event ids

  /** What follows the upper-cased name: the upload link id, the download id, nothing, or `_1`. */
  function Suffix(e: Event): string {
    match e
    case Upload(_, uploadFileLinkId, _, _, _) => "_" + LongToString(uploadFileLinkId)
    case Backup(_, _, _, _) => ""
    case Download(downloadId, _, _) => "_" + downloadId
    case _ => "_1"
  }

  function Id(e: Event): string {
    EventIdPrefix + Uppercase(SimpleName(e)) + Suffix(e)
  }

  /** The upper-cased class names, spelled out. */
  function UpperName(e: Event): string {
    match e
    case StorageFull(_) => "STORAGEFULL"
    case Upload(_, _, _, _, _) => "UPLOAD"
    case Backup(_, _, _, _) => "BACKUP"
    case BackupEnabled(_) => "BACKUPENABLED"
    case BackupDisabled(_) => "BACKUPDISABLED"
    case BackupStarted(_) => "BACKUPSTARTED"
    case BackupStopped(_, _) => "BACKUPSTOPPED"
    case BackupCompleted(_) => "BACKUPCOMPLETED"
    case Download(_, _, _) => "DOWNLOAD"
    case ForcedSignOut => "FORCEDSIGNOUT"
    case NoSpaceLeftOnDevice => "NOSPACELEFTONDEVICE"
  }

  /** The upper-cased names, spelled out. */
  lemma UpperNames(e: Event)
    ensures Uppercase(SimpleName(e)) == UpperName(e)
  {
    if e.BackupEnabled? || e.BackupDisabled? || e.BackupStarted? || e.BackupStopped? || e.BackupCompleted? {
      UpperBackupNames(e);
    } else {
      match e
      case StorageFull(_) => UpperNameIs("StorageFull", "STORAGEFULL");
      case Upload(_, _, _, _, _) => UpperNameIs("Upload", "UPLOAD");
      case Backup(_, _, _, _) => UpperNameIs("Backup", "BACKUP");
      case Download(_, _, _) => UpperNameIs("Download", "DOWNLOAD");
      case ForcedSignOut => UpperNameIs("ForcedSignOut", "FORCEDSIGNOUT");
      case NoSpaceLeftOnDevice => UpperNameIs("NoSpaceLeftOnDevice", "NOSPACELEFTONDEVICE");
    }
  }

  lemma UpperBackupNames(e: Event)
    requires e.BackupEnabled? || e.BackupDisabled? || e.BackupStarted? || e.BackupStopped? || e.BackupCompleted?
    ensures Uppercase(SimpleName(e)) == UpperName(e)
  {
    match e
    case BackupEnabled(_) => UpperNameIs("BackupEnabled", "BACKUPENABLED");
    case BackupDisabled(_) => UpperNameIs("BackupDisabled", "BACKUPDISABLED");
    case BackupStarted(_) => UpperNameIs("BackupStarted", "BACKUPSTARTED");
    case BackupStopped(_, _) => UpperNameIs("BackupStopped", "BACKUPSTOPPED");
    case BackupCompleted(_) => UpperNameIs("BackupCompleted", "BACKUPCOMPLETED");
  }

  /** Upper-casing one class name; each call keeps the literal computation small. */
  lemma UpperNameIs(s: string, t: string)
    requires |s| == |t| && forall i :: 0 <= i < |s| ==> ToUpper(s[i]) == t[i]
    ensures Uppercase(s) == t
  {
  }

  /** Every id is the prefix followed by the upper-cased variant name. */
  lemma IdStartsWithVariantName(e: Event)
    ensures EventIdPrefix + Uppercase(SimpleName(e)) <= Id(e)
    ensures EventIdPrefix <= Id(e)
  {
  }

  /** Equal strings with a common prefix agree after it. */
  lemma PrefixCancels(p: string, a: string, b: string)
    requires p + a == p + b
    ensures a == b
  {
    assert (p + a)[|p|..] == a;
    assert (p + b)[|p|..] == b;
  }

  /** `Upload` ids end with the upload link id; they differ whenever the link ids do. */
  lemma UploadId(e: Event, e': Event)
    requires e.Upload? && e'.Upload?
    ensures Id(e) == EventIdPrefix + IdTail(e) && IdTail(e) == "UPLOAD_" + LongToString(e.uploadFileLinkId)
    ensures Id(e) == Id(e') <==> e.uploadFileLinkId == e'.uploadFileLinkId
  {
    var n, n' := e.uploadFileLinkId, e'.uploadFileLinkId;
    IdIsPrefixAndTail(e);
    IdIsPrefixAndTail(e');
    assert "UPLOAD" + ("_" + LongToString(n)) == "UPLOAD_" + LongToString(n);
    if Id(e) == Id(e') {
      PrefixCancels(EventIdPrefix, IdTail(e), IdTail(e'));
      PrefixCancels("UPLOAD_", LongToString(n), LongToString(n'));
      ParseLongToString(n);
      ParseLongToString(n');
    }
  }

  /** `Download` ids end with the download id; they differ whenever the download ids do. */
  lemma DownloadId(e: Event, e': Event)
    requires e.Download? && e'.Download?
    ensures Id(e) == EventIdPrefix + IdTail(e) && IdTail(e) == "DOWNLOAD_" + e.downloadId
    ensures Id(e) == Id(e') <==> e.downloadId == e'.downloadId
  {
    var d, d' := e.downloadId, e'.downloadId;
    IdIsPrefixAndTail(e);
    IdIsPrefixAndTail(e');
    assert "DOWNLOAD" + ("_" + d) == "DOWNLOAD_" + d;
    if Id(e) == Id(e') {
      PrefixCancels(EventIdPrefix, IdTail(e), IdTail(e'));
      PrefixCancels("DOWNLOAD_", d, d');
    }
  }

  /** The `Backup` id is one constant, whatever the folder, state and counts. */
  lemma BackupIdIsConstant(e: Event)
    requires e.Backup?
    ensures Id(e) == "NOTIFICATION_EVENT_ID_BACKUP"
  {
    UpperNames(e);
  }

  /** The variants without a payload-dependent id end in `_1`. */
  lemma FixedIdsEndInOne(e: Event)
    requires !e.Upload? && !e.Backup? && !e.Download?
    ensures Id(e) == EventIdPrefix + Uppercase(SimpleName(e)) + "_1"
    ensures |Id(e)| >= 2 && Id(e)[|Id(e)| - 2..] == "_1"
  {
  }

  /** An `Upload` built without a reason has none. */
  lemma UploadReasonDefaultsToNull(state: UploadState, id: Long, percentage: real, shouldShow: bool)
    ensures Upload(state, id, percentage, shouldShow).reason == None
  {
  }

  /** What follows the prefix in an id. */
  function IdTail(e: Event): string {
    UpperName(e) + Suffix(e)
  }

  lemma IdIsPrefixAndTail(e: Event)
    ensures Id(e) == EventIdPrefix + IdTail(e)
  {
    UpperNames(e);
  }

  /** Reads the variant name back from what follows the prefix (a fixed tail is its name and `_1`). */
  function VariantOfTail(tail: string): Option<string> {
    if "UPLOAD_" <= tail then Some("Upload")
    else if "DOWNLOAD_" <= tail then Some("Download")
    else if tail == "BACKUP" then Some("Backup")
    else if tail == "STORAGEFULL" + "_1" then Some("StorageFull")
    else if tail == "BACKUPENABLED" + "_1" then Some("BackupEnabled")
    else if tail == "BACKUPDISABLED" + "_1" then Some("BackupDisabled")
    else if tail == "BACKUPSTARTED" + "_1" then Some("BackupStarted")
    else if tail == "BACKUPSTOPPED" + "_1" then Some("BackupStopped")
    else if tail == "BACKUPCOMPLETED" + "_1" then Some("BackupCompleted")
    else if tail == "FORCEDSIGNOUT" + "_1" then Some("ForcedSignOut")
    else if tail == "NOSPACELEFTONDEVICE" + "_1" then Some("NoSpaceLeftOnDevice")
    else None
  }

  /** Reads the variant name back from an id. */
  function VariantOfId(id: string): Option<string> {
    if EventIdPrefix <= id then VariantOfTail(id[|EventIdPrefix|..]) else None
  }

  lemma VariantOfTailIsSimpleName(e: Event)
    ensures VariantOfTail(IdTail(e)) == Some(SimpleName(e))
  {
    if e.BackupEnabled? || e.BackupDisabled? || e.BackupStarted? || e.BackupStopped? || e.BackupCompleted? {
      VariantOfBackupTail(e);
    } else if e.StorageFull? || e.ForcedSignOut? || e.NoSpaceLeftOnDevice? {
      VariantOfOtherFixedTail(e);
    } else {
      var tail := IdTail(e);
      if !e.Upload? {
        assert !("UPLOAD_" <= tail) by { assert tail[0] != 'U'; }
      }
      if e.Backup? {
        assert !("DOWNLOAD_" <= tail) by { assert tail[0] != 'D'; }
      }
    }
  }

  /** The other tails ending in `_1` start with a letter no earlier tail starts with. */
  lemma VariantOfOtherFixedTail(e: Event)
    requires e.StorageFull? || e.ForcedSignOut? || e.NoSpaceLeftOnDevice?
    ensures VariantOfTail(IdTail(e)) == Some(SimpleName(e))
  {
    var tail := IdTail(e);
    assert tail[0] != 'U' && tail[0] != 'D' && tail[0] != 'B';
    assert !("UPLOAD_" <= tail) && !("DOWNLOAD_" <= tail);
    if e.ForcedSignOut? {
      assert |tail| == 15 && tail[0] == 'F';
    } else if e.NoSpaceLeftOnDevice? {
      assert |tail| == 21;
    } else {
      assert |tail| == 13;
    }
  }

  /** The five `BACKUP..._1` tails: past the common `BACKUP`, they differ early. */
  lemma VariantOfBackupTail(e: Event)
    requires e.BackupEnabled? || e.BackupDisabled? || e.BackupStarted? || e.BackupStopped? || e.BackupCompleted?
    ensures VariantOfTail(IdTail(e)) == Some(SimpleName(e))
  {
    var tail := IdTail(e);
    assert tail[0] == 'B' && |tail| >= 15;
    if !e.BackupEnabled? {
      assert tail != "BACKUPENABLED_1" by { assert tail[6] != 'E'; }
    }
    if e.BackupStopped? {
      assert tail != "BACKUPSTARTED_1" by { assert tail[8] != 'A'; }
    }
  }

  /** An id names the variant of the event it was made from. */
  lemma VariantOfIdIsSimpleName(e: Event)
    ensures VariantOfId(Id(e)) == Some(SimpleName(e))
  {
    IdIsPrefixAndTail(e);
    assert (EventIdPrefix + IdTail(e))[|EventIdPrefix|..] == IdTail(e);
    VariantOfTailIsSimpleName(e);
  }

  /** Events of different variants never share an id. */
  lemma DistinctVariantsHaveDistinctIds(e: Event, e': Event)
    requires SimpleName(e) != SimpleName(e')
    ensures Id(e) != Id(e')
  {
    VariantOfIdIsSimpleName(e);
    VariantOfIdIsSimpleName(e');
  }
}
