/**
 * The rename dialog's view model: which link is renamed, the name shown with its
 * initial selection, the mapping of rename failures to input-error messages, and
 * the `isRenaming` flag around the rename call.
 */
module RenamePresentation {
  import opened Wrappers
  import opened Links

  const KEY_SHARE_ID: string := "shareId"
  const KEY_FILE_ID: string := "fileId"
  const KEY_FOLDER_ID: string := "folderId"
  const KEY_FILENAME: string := "key.filename"
  const MAX_DISPLAY_FILENAME_LENGTH: nat := 50

  /** The saved-state handle: string values by key. */
  type SavedState = map<string, string>

  datatype Selection = Selection(start: int, end: int)

  datatype NameWithSelection = NameWithSelection(name: string, selection: Selection)

  /** The decrypted drive link as far as the dialog uses it. */
  datatype DriveLink = DriveLink(name: string, isNameEncrypted: bool)

  /** A required saved-state key was missing (`require` throws). */
  datatype MissingKey = MissingKey(key: string)

  datatype TitleRes = LinkRenameTitleFile | LinkRenameTitleFolder

  /** Failures of the rename call: the link-name validation errors, or anything else. */
  datatype RenameError =
    | Empty
    | ExceedsMaxLength(maxLength: int)
    | ForbiddenCharacters
    | Periods
    | OtherError(message: string)

  /** The input-error messages, as string-resource tags. */
  datatype InputErrorMessage =
    | NameIsBlank
    | NameTooLong(maxLength: int)
    | NameWithForbiddenCharacters
    | NamePeriods
    | General

  datatype RenameEffect = Dismiss | ShowInputError(message: InputErrorMessage) | ClearInputError

  datatype RenameViewState = RenameViewState(titleResId: TitleRes, isRenaming: bool)

  // ---------------------------------------------------------------------------
  // Selection
  //
  // Kotlin strings are sequences of UTF-16 code units, so `length` and
  // `lastIndexOf` count a character outside the Basic Multilingual Plane twice. A
  // Dafny `string` is a sequence of Unicode scalar values; the selection below is
  // measured in code units, as the dialog's text field receives it.

  /** The UTF-16 code units of `c`: a surrogate pair outside the Basic Multilingual Plane. */
  function Utf16Units(c: char): nat {
    if c as int >= 0x1_0000 then 2 else 1
  }

  /** `String.length`: the number of UTF-16 code units of `s`. */
  function Utf16Length(s: string): (n: nat)
    ensures |s| <= n <= 2 * |s|
  {
    if s == [] then 0 else Utf16Length(s[..|s| - 1]) + Utf16Units(s[|s| - 1])
  }

  /** A proper, non-empty prefix has a positive UTF-16 length below that of the whole string. */
  lemma {:induction false} Utf16PrefixLength(s: string, i: nat)
    requires 0 < i < |s|
    ensures 0 < Utf16Length(s[..i]) < Utf16Length(s)
    decreases |s|
  {
    var t := s[..|s| - 1];
    assert s[..i] == t[..i] || i == |s| - 1;
    if i < |s| - 1 {
      assert s[..i] == t[..i];
      Utf16PrefixLength(t, i);
    } else {
      assert s[..i] == t;
    }
  }

  /** Within the Basic Multilingual Plane every character is one code unit. */
  lemma {:induction false} BmpLength(s: string)
    requires forall j :: 0 <= j < |s| ==> s[j] as int < 0x1_0000
    ensures Utf16Length(s) == |s|
  {
    if s != [] {
      BmpLength(s[..|s| - 1]);
    }
  }

  /** The scalar-value index of the last `c` in `s`, or -1. */
  function LastIndexOf(s: string, c: char): (i: int)
    ensures -1 <= i < |s|
    ensures i >= 0 ==> s[i] == c
    ensures forall j :: i < j < |s| ==> s[j] != c
  {
    if s == [] then -1
    else if s[|s| - 1] == c then |s| - 1
    else LastIndexOf(s[..|s| - 1], c)
  }

  /** `String.lastIndexOf(c)` in UTF-16 code units: the code units before the last `c`, or -1. */
  function Utf16LastIndexOf(s: string, c: char): int {
    var i := LastIndexOf(s, c);
    if i < 0 then -1 else Utf16Length(s[..i])
  }

  /** The initial selection: a file's base name when it has an extension, otherwise everything. */
  function SelectionOf(name: string, isFolder: bool): Selection {
    var extensionIndex := Utf16LastIndexOf(name, '.');
    if !isFolder && extensionIndex > 0 then Selection(0, extensionIndex) else Selection(0, Utf16Length(name))
  }

  /**
   * The selection starts at 0 and ends within the name, in UTF-16 code units. For a
   * file whose last '.' is past index 0 it ends at the code unit of that '.'; for a
   * folder, or a file with no '.' past index 0, it covers the whole name.
   */
  lemma SelectionRule(name: string, isFolder: bool)
    ensures var sel := SelectionOf(name, isFolder);
            && sel.start == 0 && 0 <= sel.end <= Utf16Length(name)
            && (isFolder ==> sel == Selection(0, Utf16Length(name)))
            && (!isFolder && (forall j :: 0 < j < |name| ==> name[j] != '.') ==> sel == Selection(0, Utf16Length(name)))
            && (!isFolder && (exists j :: 0 < j < |name| && name[j] == '.') ==>
                  0 < sel.end < Utf16Length(name)
                  && exists i :: 0 < i < |name| && name[i] == '.' && sel.end == Utf16Length(name[..i])
                               && (forall j :: i < j < |name| ==> name[j] != '.'))
  {
    var i := LastIndexOf(name, '.');
    if i > 0 {
      Utf16PrefixLength(name, i);
    } else if i == 0 {
      assert name[..0] == [];
    }
  }

  /** For a name within the Basic Multilingual Plane the selection ends at the last '.' itself. */
  lemma BmpSelection(name: string)
    requires forall j :: 0 <= j < |name| ==> name[j] as int < 0x1_0000
    requires LastIndexOf(name, '.') > 0
    ensures SelectionOf(name, false) == Selection(0, LastIndexOf(name, '.'))
  {
    var i := LastIndexOf(name, '.');
    BmpLength(name[..i]);
  }

  /** An emoji before the extension takes two code units: "😀.jpg" selects [0, 2). */
  lemma SurrogatePairSelection()
    ensures SelectionOf("\U{1F600}.jpg", false) == Selection(0, 2)
    ensures SelectionOf("\U{1F600}.jpg", true) == Selection(0, 6)
  {
    var e, p1, p2, p3, p4, name := "", "\U{1F600}", "\U{1F600}.", "\U{1F600}.j", "\U{1F600}.jp", "\U{1F600}.jpg";
    assert name[..4] == p4 && p4[..3] == p3 && p3[..2] == p2 && p2[..1] == p1 && p1[..0] == e;
    assert LastIndexOf(p2, '.') == 1;
    assert LastIndexOf(p3, '.') == 1;
    assert LastIndexOf(p4, '.') == 1;
    assert LastIndexOf(name, '.') == 1;
    assert Utf16Length(p1) == 2;
    assert Utf16Length(p2) == 3;
    assert Utf16Length(p3) == 4;
    assert Utf16Length(p4) == 5;
    assert Utf16Length(name) == 6;
  }

  // ---------------------------------------------------------------------------
  // Link, title and displayed name

  /** The renamed link: a file when a file id is saved, else the (required) folder. */
  function LinkIdOf(userId: string, saved: SavedState): Result<LinkId, MissingKey> {
    if KEY_SHARE_ID !in saved then Failure(MissingKey(KEY_SHARE_ID))
    else
      var shareId := ShareId(userId, saved[KEY_SHARE_ID]);
      if KEY_FILE_ID in saved then Success(File(FileId(shareId, saved[KEY_FILE_ID])))
      else if KEY_FOLDER_ID in saved then Success(Folder(FolderId(shareId, saved[KEY_FOLDER_ID])))
      else Failure(MissingKey(KEY_FOLDER_ID))
  }

  function TitleOf(linkId: LinkId): TitleRes {
    match linkId
    case File(_) => LinkRenameTitleFile
    case Folder(_) => LinkRenameTitleFolder
  }

  lemma LinkChoice(userId: string, saved: SavedState)
    ensures KEY_SHARE_ID in saved && KEY_FILE_ID in saved ==>
              LinkIdOf(userId, saved) == Success(File(FileId(ShareId(userId, saved[KEY_SHARE_ID]), saved[KEY_FILE_ID])))
              && TitleOf(LinkIdOf(userId, saved).value) == LinkRenameTitleFile
    ensures KEY_SHARE_ID in saved && KEY_FILE_ID !in saved && KEY_FOLDER_ID in saved ==>
              LinkIdOf(userId, saved) == Success(Folder(FolderId(ShareId(userId, saved[KEY_SHARE_ID]), saved[KEY_FOLDER_ID])))
              && TitleOf(LinkIdOf(userId, saved).value) == LinkRenameTitleFolder
    ensures LinkIdOf(userId, saved).Failure? <==>
              KEY_SHARE_ID !in saved || (KEY_FILE_ID !in saved && KEY_FOLDER_ID !in saved)
  {
  }

  /** The name first shown: the saved edit, else the link's name when readable, else "". */
  function DisplayedName(saved: SavedState, link: Option<DriveLink>): string {
    var driveLinkName := if link.Some? && !link.value.isNameEncrypted then link.value.name else "";
    if KEY_FILENAME in saved then saved[KEY_FILENAME] else driveLinkName
  }

  function NameWithSelectionOf(saved: SavedState, link: Option<DriveLink>, linkId: LinkId): NameWithSelection {
    var name := DisplayedName(saved, link);
    NameWithSelection(name, SelectionOf(name, linkId.Folder?))
  }

  lemma NameFallback(saved: SavedState, link: Option<DriveLink>, linkId: LinkId)
    ensures KEY_FILENAME in saved ==> NameWithSelectionOf(saved, link, linkId).name == saved[KEY_FILENAME]
    ensures KEY_FILENAME !in saved && link.Some? && !link.value.isNameEncrypted ==>
              NameWithSelectionOf(saved, link, linkId).name == link.value.name
    ensures KEY_FILENAME !in saved && (link.None? || link.value.isNameEncrypted) ==>
              NameWithSelectionOf(saved, link, linkId).name == ""
    ensures NameWithSelectionOf(saved, link, linkId).selection
         == SelectionOf(NameWithSelectionOf(saved, link, linkId).name, linkId.Folder?)
  {
  }

  // ---------------------------------------------------------------------------
  // Errors

  function ErrorMessage(e: RenameError): InputErrorMessage {
    match e
    case Empty => NameIsBlank
    case ExceedsMaxLength(maxLength) => NameTooLong(maxLength)
    case ForbiddenCharacters => NameWithForbiddenCharacters
    case Periods => NamePeriods
    case OtherError(_) => General
  }

  /** Each validation failure has its own message; every other failure the general one. */
  lemma ErrorMessageMapping(e: RenameError)
    ensures ErrorMessage(e) == NameIsBlank <==> e == Empty
    ensures ErrorMessage(e).NameTooLong? <==> e.ExceedsMaxLength?
    ensures e.ExceedsMaxLength? ==> ErrorMessage(e).maxLength == e.maxLength
    ensures ErrorMessage(e) == NameWithForbiddenCharacters <==> e == ForbiddenCharacters
    ensures ErrorMessage(e) == NamePeriods <==> e == Periods
    ensures ErrorMessage(e) == General <==> e.OtherError?
  {
  }

  // ---------------------------------------------------------------------------
  // The view model

  /** What the view model emits or calls, in order. */
  datatype Emission =
    | IsRenaming(value: bool)
    | RenameCall(linkId: LinkId, name: string)
    | Effect(effect: RenameEffect)
    | BroadcastRenamed(name: string, maxDisplayLength: nat)
    | Reselect

  /** The emissions of `renameFile(name)` when the rename call returns `outcome`. */
  function RenameFileEmissions(linkId: LinkId, name: string, outcome: Outcome): seq<Emission> {
    [IsRenaming(true), RenameCall(linkId, name)]
    + (match outcome
       case Renamed => [Effect(Dismiss), BroadcastRenamed(name, MAX_DISPLAY_FILENAME_LENGTH)]
       case NotRenamed(e) => [Effect(ShowInputError(ErrorMessage(e))), Reselect])
    + [IsRenaming(false)]
  }

  datatype Outcome = Renamed | NotRenamed(error: RenameError)

  /**
   * `isRenaming` turns true before the rename call and false after it, on both
   * outcomes; a failure shows its message and re-triggers the selection, a
   * success dismisses the dialog.
   */
  lemma RenamingFlagBracketsCall(linkId: LinkId, name: string, outcome: Outcome)
    ensures var em := RenameFileEmissions(linkId, name, outcome);
            && |em| == 5
            && em[0] == IsRenaming(true)
            && em[1] == RenameCall(linkId, name)
            && em[4] == IsRenaming(false)
            && (forall i :: 1 <= i < 4 ==> !em[i].IsRenaming?)
            && (outcome.Renamed? ==> em[2] == Effect(Dismiss) && em[3] == BroadcastRenamed(name, MAX_DISPLAY_FILENAME_LENGTH))
            && (outcome.NotRenamed? ==> em[2] == Effect(ShowInputError(ErrorMessage(outcome.error))) && em[3] == Reselect)
  {
  }

  class RenameViewModel {
    const linkId: LinkId
    var savedState: SavedState
    var isRenaming: bool
    var emissions: seq<Emission>

    /** Built from the saved state, which must name the link (`require` throws otherwise). */
    constructor (userId: string, saved: SavedState)
      requires LinkIdOf(userId, saved).Success?
      ensures linkId == LinkIdOf(userId, saved).value
      ensures savedState == saved && !isRenaming && emissions == []
    {
      linkId := LinkIdOf(userId, saved).value;
      savedState := saved;
      isRenaming := false;
      emissions := [];
    }

    function ViewState(): RenameViewState
      reads this
    {
      RenameViewState(TitleOf(linkId), isRenaming)
    }

    function NameWithSelectionNow(link: Option<DriveLink>): NameWithSelection
      reads this
    {
      NameWithSelectionOf(savedState, link, linkId)
    }

    method OnRename(name: string, outcome: Outcome)
      modifies this
      ensures emissions == old(emissions) + [Effect(RenameEffect.ClearInputError)] + RenameFileEmissions(linkId, name, outcome)
      ensures !isRenaming && savedState == old(savedState)
      ensures ViewState() == RenameViewState(TitleOf(linkId), false)
    {
      ClearInputError();
      RenameFile(name, outcome);
    }

    method RenameFile(name: string, outcome: Outcome)
      modifies this
      ensures emissions == old(emissions) + RenameFileEmissions(linkId, name, outcome)
      ensures !isRenaming && savedState == old(savedState)
      ensures ViewState() == RenameViewState(TitleOf(linkId), false)
    {
      isRenaming := true;
      emissions := emissions + [IsRenaming(true)];
      emissions := emissions + [RenameCall(linkId, name)];
      match outcome {
        case NotRenamed(e) => Handle(e);
        case Renamed => emissions := emissions + [Effect(Dismiss), BroadcastRenamed(name, MAX_DISPLAY_FILENAME_LENGTH)];
      }
      isRenaming := false;
      emissions := emissions + [IsRenaming(false)];
    }

    method OnChanged(name: string)
      modifies this
      ensures savedState == old(savedState)[KEY_FILENAME := name]
      ensures emissions == old(emissions) + [Effect(RenameEffect.ClearInputError)]
      ensures isRenaming == old(isRenaming)
      ensures forall link :: NameWithSelectionNow(link) == NameWithSelection(name, SelectionOf(name, linkId.Folder?))
    {
      savedState := savedState[KEY_FILENAME := name];
      ClearInputError();
    }

    method Handle(e: RenameError)
      modifies this`emissions
      ensures emissions == old(emissions) + [Effect(ShowInputError(ErrorMessage(e))), Reselect]
    {
      emissions := emissions + [Effect(ShowInputError(ErrorMessage(e))), Reselect];
    }

    method ClearInputError()
      modifies this`emissions
      ensures emissions == old(emissions) + [Effect(RenameEffect.ClearInputError)]
    {
      emissions := emissions + [Effect(RenameEffect.ClearInputError)];
    }
  }
}
