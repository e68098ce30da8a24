/**
 * The "New Upload" button: a dropdown whose "New folder" item opens a
 * dialog with a name and a comment, and the creation of the folder under
 * the folder named by the route parameter.
 */
module UploadButton {
  import opened Common
  import opened Types

  // ---------------------------------------------------------------------
  // The parent folder id from the route
  // ---------------------------------------------------------------------

  /** The result of `Number(...)` for the strings modelled here. */
  datatype JsNumber = Int(v: int) | NaN

  predicate IsDigit(c: char) {
    '0' <= c <= '9'
  }

  predicate AllDigits(s: string) {
    forall k :: 0 <= k < |s| ==> IsDigit(s[k])
  }

  /** A sign followed by at least one digit. */
  predicate SignedDigits(s: string) {
    |s| > 1 && (s[0] == '-' || s[0] == '+') && AllDigits(s[1..])
  }

  /** The value of a string of decimal digits, leading zeros allowed. */
  function DigitsValue(s: string): nat
    requires AllDigits(s)
  {
    if s == [] then 0 else DigitsValue(s[..|s| - 1]) * 10 + (s[|s| - 1] as int - '0' as int)
  }

  /** `Number(x)` for an optional route parameter: a missing one is `NaN`,
      the empty string 0, a run of digits with an optional sign its value,
      anything else `NaN`. */
  function ToNumber(x: Option<string>): (r: JsNumber)
    ensures x == None ==> r == NaN
    ensures x == Some("") ==> r == Int(0)
    ensures x.Some? && x.value != [] && AllDigits(x.value) ==> r == Int(DigitsValue(x.value))
    ensures x.Some? && SignedDigits(x.value) ==>
      r == Int(if x.value[0] == '-' then -(DigitsValue(x.value[1..]) as int) else DigitsValue(x.value[1..]))
    ensures r == NaN <==> x == None || (x.value != [] && !AllDigits(x.value) && !SignedDigits(x.value))
  {
    match x
    case None => NaN
    case Some(s) =>
      if s == [] then Int(0)
      else if AllDigits(s) then Int(DigitsValue(s))
      else if SignedDigits(s) then
        Int(if s[0] == '-' then 0 - DigitsValue(s[1..]) as int else DigitsValue(s[1..]))
      else NaN
  }

  /** `Number(params.id) || 1`: the route's folder id, or folder 1 when it
      is missing, empty, zero or not a number. */
  function ParentFolderId(routeId: Option<string>): (id: int)
    ensures id != 0
    ensures ToNumber(routeId).Int? && ToNumber(routeId).v != 0 ==> id == ToNumber(routeId).v
    ensures ToNumber(routeId) == NaN || ToNumber(routeId) == Int(0) ==> id == 1
  {
    match ToNumber(routeId)
    case Int(v) => if v != 0 then v else 1
    case NaN => 1
  }

  /** The decimal text of a natural number, as a route carries it. */
  function Decimal(n: nat): (s: string)
    ensures s != [] && AllDigits(s)
  {
    if n < 10 then [('0' as int + n) as char]
    else Decimal(n / 10) + [('0' as int + n % 10) as char]
  }

  lemma {:induction false} DecimalValue(n: nat)
    ensures DigitsValue(Decimal(n)) == n
  {
    var s := Decimal(n);
    if n >= 10 {
      DecimalValue(n / 10);
      assert s[..|s| - 1] == Decimal(n / 10);
    }
  }

  /** The route `/folder/<n>` gives folder `n` for every positive `n`; no
      id, an empty id, `0` or text that starts with neither a digit nor a
      sign gives folder 1. */
  lemma ParentFolderIdRoundTrip(n: nat)
    ensures n > 0 ==> ParentFolderId(Some(Decimal(n))) == n
    ensures ParentFolderId(Some(Decimal(0))) == 1
    ensures ParentFolderId(None) == 1 && ParentFolderId(Some("")) == 1
    ensures forall s :: s != [] && !IsDigit(s[0]) && s[0] != '-' && s[0] != '+' ==> ParentFolderId(Some(s)) == 1
  {
    DecimalValue(n);
    forall s | s != [] && !IsDigit(s[0]) && s[0] != '-' && s[0] != '+'
      ensures ParentFolderId(Some(s)) == 1
    {
      assert !AllDigits(s);
    }
  }

  // ---------------------------------------------------------------------
  // The component
  // ---------------------------------------------------------------------

  const UntitledFolder: string := "Untitled folder"
  const CreatedMessage: string := "Folder created successfully!"

  /** The arguments of one `createFolder` call. */
  datatype CreateCall = CreateCall(parentId: int, name: string, comment: string, sequence: Option<int>)

  class NewFolderButton {
    const parentFolderId: int
    var isDialogOpen: bool
    var isDropdownOpen: bool
    var folderName: string
    var folderComment: string
    var folderSequence: Option<int>
    var folderMessage: Option<string>
    /** The `createFolder` calls issued so far, in order. */
    var createCalls: seq<CreateCall>

    /** Nothing ever sets a sequence: the only setter call resets it. */
    ghost predicate Valid()
      reads this
    {
      folderSequence == None
    }

    /** The fields as the dialog first shows them and as closing leaves them. */
    predicate FieldsReset()
      reads this
    {
      folderName == UntitledFolder && folderComment == "" && folderSequence == None && folderMessage == None
    }

    constructor (routeId: Option<string>)
      ensures Valid() && FieldsReset()
      ensures parentFolderId == ParentFolderId(routeId)
      ensures !isDialogOpen && !isDropdownOpen && createCalls == []
    {
      parentFolderId := ParentFolderId(routeId);
      isDialogOpen := false;
      isDropdownOpen := false;
      folderName := UntitledFolder;
      folderComment := "";
      folderSequence := None;
      folderMessage := None;
      createCalls := [];
    }

    /** The "New folder" item: the dropdown closes and the dialog opens. */
    method SelectNewFolder()
      modifies this
      ensures isDialogOpen && !isDropdownOpen
      ensures folderName == old(folderName) && folderComment == old(folderComment)
      ensures folderSequence == old(folderSequence) && folderMessage == old(folderMessage)
      ensures createCalls == old(createCalls)
    {
      isDropdownOpen := false;
      isDialogOpen := true;
    }

    /** The dropdown's own open and close. */
    method SetDropdownOpen(open: bool)
      modifies this
      ensures isDropdownOpen == open
      ensures isDialogOpen == old(isDialogOpen) && folderName == old(folderName) && folderComment == old(folderComment)
      ensures folderSequence == old(folderSequence) && folderMessage == old(folderMessage)
      ensures createCalls == old(createCalls)
    {
      isDropdownOpen := open;
    }

    /** The dialog's own open and close (overlay click, Escape): the fields
        are kept, unlike Cancel. */
    method SetDialogOpen(open: bool)
      modifies this
      ensures isDialogOpen == open
      ensures isDropdownOpen == old(isDropdownOpen) && folderName == old(folderName) && folderComment == old(folderComment)
      ensures folderSequence == old(folderSequence) && folderMessage == old(folderMessage)
      ensures createCalls == old(createCalls)
    {
      isDialogOpen := open;
    }

    method SetName(name: string)
      modifies this
      ensures folderName == name
      ensures isDialogOpen == old(isDialogOpen) && isDropdownOpen == old(isDropdownOpen) && folderComment == old(folderComment)
      ensures folderSequence == old(folderSequence) && folderMessage == old(folderMessage)
      ensures createCalls == old(createCalls)
    {
      folderName := name;
    }

    method SetComment(comment: string)
      modifies this
      ensures folderComment == comment
      ensures isDialogOpen == old(isDialogOpen) && isDropdownOpen == old(isDropdownOpen) && folderName == old(folderName)
      ensures folderSequence == old(folderSequence) && folderMessage == old(folderMessage)
      ensures createCalls == old(createCalls)
    {
      folderComment := comment;
    }

    /** `closeDialog` (Cancel, and after a creation): the dialog closes,
        every field returns to its initial value and the dropdown closes. */
    method CloseDialog()
      modifies this
      ensures Valid() && FieldsReset()
      ensures !isDialogOpen && !isDropdownOpen
      ensures createCalls == old(createCalls)
    {
      isDialogOpen := false;
      folderName := UntitledFolder;
      folderComment := "";
      folderSequence := None;
      folderMessage := None;
      isDropdownOpen := false;
    }

    /** `handleCreateFolder`: the folder is created under the parent id with
        the name and comment typed and no sequence.  On success the
        confirmation is set and at once cleared by closing; on failure the
        dialog stays open showing the server's message with the fields
        kept; a throw escapes the handler and changes nothing else. */
    method HandleCreateFolder(response: Call<ApiResponse<Folder>>)
      requires Valid()
      modifies this
      ensures Valid()
      ensures createCalls == old(createCalls) + [CreateCall(parentFolderId, old(folderName), old(folderComment), None)]
      ensures response.Returned? && response.value.success ==> FieldsReset() && !isDialogOpen && !isDropdownOpen
      ensures response.Returned? && !response.value.success ==>
        folderMessage == Some(response.value.message) && isDialogOpen == old(isDialogOpen)
        && folderName == old(folderName) && folderComment == old(folderComment) && isDropdownOpen == old(isDropdownOpen)
      ensures response.Threw? ==>
        folderMessage == old(folderMessage) && isDialogOpen == old(isDialogOpen)
        && folderName == old(folderName) && folderComment == old(folderComment) && isDropdownOpen == old(isDropdownOpen)
    {
      createCalls := createCalls + [CreateCall(parentFolderId, folderName, folderComment, folderSequence)];
      match response {
        case Threw =>
        case Returned(r) =>
          if r.success {
            folderMessage := Some(CreatedMessage);
            CloseDialog();
          } else {
            folderMessage := Some(r.message);
          }
      }
    }
  }
}
