/**
 * The move dialog: a breadcrumb stack of folders (`currentPath`) that
 * grows when a folder is opened and shrinks on Back, the listing of the
 * folder on top, and the move of one folder or document into the folder
 * on top.  Each awaited backend call is a parameter of the handler that
 * awaits it; the calls the dialog issues are recorded in order.
 */
module FileMove {
  import opened Common
  import opened Types

  datatype ItemKind = DocumentItem | FolderItem

  /** The `itemToMove` prop. */
  datatype ItemToMove = ItemToMove(kind: ItemKind, id: int)

  /** A backend call the dialog issues. */
  datatype GatewayCall =
    | GetFolderInfo(folderId: int)
    | GetChildrenFolders(folderId: int)
    | MoveFolder(folderId: int, destinationId: int)
    | MoveFile(documentId: int, destinationId: int)

  /** The `response.success && response.data` test of the handlers. */
  predicate Ok<T>(c: Call<ApiResponse<T>>) {
    c.Returned? && c.value.success && c.value.data.Some?
  }

  // ---------------------------------------------------------------------
  // The breadcrumb stack
  // ---------------------------------------------------------------------

  /** The path after a folder was opened: its info is appended when the
      lookup succeeded, otherwise the path stays. */
  function PathAfterOpen(path: seq<Folder>, info: Call<ApiResponse<Folder>>): (r: seq<Folder>)
    ensures Ok(info) ==> |r| == |path| + 1 && r[..|path|] == path && Last(r) == info.value.data.value
    ensures !Ok(info) ==> r == path
  {
    if Ok(info) then path + [info.value.data.value] else path
  }

  /** The path after Back: the last folder is dropped when more than one
      is left, otherwise nothing happens. */
  function PathAfterBack(path: seq<Folder>): (r: seq<Folder>)
    ensures |path| > 1 ==> r + [Last(path)] == path
    ensures |path| <= 1 ==> r == path
    ensures (r == []) == (path == [])
  {
    if |path| > 1 then path[..|path| - 1] else path
  }

  /** The folder a move goes to: the last folder of the path. */
  function Destination(path: seq<Folder>): int
    requires path != []
  {
    Last(path).id
  }

  /** Back drops exactly the last folder, and never empties a non-empty
      path. */
  lemma BackDropsLast(path: seq<Folder>)
    ensures |path| > 1 ==> PathAfterBack(path) + [Last(path)] == path
    ensures |path| <= 1 ==> PathAfterBack(path) == path
    ensures path != [] ==> PathAfterBack(path) != []
  {
    if |path| > 1 {
      assert path[..|path| - 1] + [path[|path| - 1]] == path;
    }
  }

  /** From a non-empty path, opening a folder that is found and going
      Back restores the path, and a move in between goes to the opened
      folder.  A lookup that fails leaves the path as it was. */
  lemma OpenThenBack(path: seq<Folder>, info: Call<ApiResponse<Folder>>)
    requires path != []
    ensures Ok(info) ==> PathAfterBack(PathAfterOpen(path, info)) == path
    ensures Ok(info) ==> Destination(PathAfterOpen(path, info)) == info.value.data.value.id
    ensures !Ok(info) ==> PathAfterOpen(path, info) == path
  {
    if Ok(info) {
      var grown := path + [info.value.data.value];
      assert |grown| - 1 == |path|;
      assert grown[..|grown| - 1] == path;
      assert PathAfterOpen(path, info) == grown;
      assert PathAfterBack(grown) == grown[..|grown| - 1];
    }
  }

  function Names(path: seq<Folder>): (r: seq<string>)
    ensures |r| == |path|
    ensures forall k :: 0 <= k < |path| ==> r[k] == path[k].name
  {
    seq(|path|, k requires 0 <= k < |path| => path[k].name)
  }

  /** The breadcrumb text: the folder names joined by `' > '`. */
  function Breadcrumb(path: seq<Folder>): (r: string)
    ensures path == [] ==> r == ""
    ensures |path| == 1 ==> r == path[0].name
    ensures path != [] ==> StartsWith(r, path[0].name) && EndsWith(r, Last(path).name)
  {
    if path == [] then ""
    else
      var names := Names(path);
      if |names| > 1 then
        JoinLast(names, " > ");
        Join(names, " > ")
      else
        Join(names, " > ")
  }

  /** Opening a folder appends `' > '` and its name to the breadcrumb;
      the first folder is shown alone. */
  lemma BreadcrumbGrows(path: seq<Folder>, f: Folder)
    ensures Breadcrumb([f]) == f.name
    ensures path != [] ==> Breadcrumb(path + [f]) == Breadcrumb(path) + " > " + f.name
  {
    assert Names([f]) == [f.name];
    if path != [] {
      var longer := Names(path + [f]);
      JoinLast(longer, " > ");
      assert longer[..|longer| - 1] == Names(path);
    }
  }

  // ---------------------------------------------------------------------
  // Finding the document being moved in a listing
  // ---------------------------------------------------------------------

  /** The listing holds the document with this id at position `k`. */
  predicate DocumentAt(entries: seq<Entry>, k: int, id: int) {
    0 <= k < |entries| && entries[k].DocumentEntry? && entries[k].document.id == id
  }

  /** `children.find(item => item.type === 'document' && item.id === id)`:
      the first document of the listing with that id, absent when there
      is none.  A folder with the same id is skipped. */
  function FindDocument(entries: seq<Entry>, id: int): (r: Option<Document>)
    ensures r.None? <==> forall k :: 0 <= k < |entries| ==> !DocumentAt(entries, k, id)
    ensures r.Some? ==>
      exists k :: DocumentAt(entries, k, id) && entries[k] == DocumentEntry(r.value) && forall j :: 0 <= j < k ==> !DocumentAt(entries, j, id)
  {
    if entries == [] then None
    else if entries[0].DocumentEntry? && entries[0].document.id == id then
      assert DocumentAt(entries, 0, id);
      Some(entries[0].document)
    else
      var r := FindDocument(entries[1..], id);
      assert forall k :: 1 <= k < |entries| ==> (DocumentAt(entries, k, id) <==> DocumentAt(entries[1..], k - 1, id));
      assert !DocumentAt(entries, 0, id);
      if r.Some? then
        var k :| DocumentAt(entries[1..], k, id) && entries[1..][k] == DocumentEntry(r.value)
          && forall j :: 0 <= j < k ==> !DocumentAt(entries[1..], j, id);
        assert DocumentAt(entries, k + 1, id) && entries[k + 1] == DocumentEntry(r.value);
        r
      else
        r
  }

  // ---------------------------------------------------------------------
  // What opening the dialog does
  // ---------------------------------------------------------------------

  /** The move call for the item and destination. */
  function MoveCall(item: ItemToMove, destinationId: int): GatewayCall {
    match item.kind
    case FolderItem => MoveFolder(item.id, destinationId)
    case DocumentItem => MoveFile(item.id, destinationId)
  }

  /** The calls that look up the name of the item being moved: a folder by
      its own id; a document in the listing of the folder that the lookup
      of folder 1 returns. */
  function SubjectCalls(item: ItemToMove, parent: Call<ApiResponse<Folder>>): seq<GatewayCall> {
    match item.kind
    case FolderItem => [GetFolderInfo(item.id)]
    case DocumentItem =>
      [GetFolderInfo(1)] + (if Ok(parent) then [GetChildrenFolders(parent.value.data.value.id)] else [])
  }

  /** The calls opening the dialog issues: folder 1, its listing when it
      was found, then the name lookup; a throw of the first lookup stops
      everything. */
  function OpenCalls(item: ItemToMove, root: Call<ApiResponse<Folder>>, parent: Call<ApiResponse<Folder>>): seq<GatewayCall> {
    [GetFolderInfo(1)]
    + if root.Threw? then []
      else (if Ok(root) then [GetChildrenFolders(1)] else []) + SubjectCalls(item, parent)
  }

  /** The name the lookup finds for the item being moved, if any. */
  function SubjectName(item: ItemToMove, subject: Call<ApiResponse<Folder>>, parent: Call<ApiResponse<Folder>>,
                       parentChildren: Call<ApiResponse<seq<Entry>>>): Option<string>
  {
    match item.kind
    case FolderItem => if Ok(subject) then Some(subject.value.data.value.name) else None
    case DocumentItem =>
      if Ok(parent) && Ok(parentChildren) then
        match FindDocument(parentChildren.value.data.value, item.id)
        case Some(d) => Some(d.name)
        case None => None
      else None
  }

  /** A document is named only when the listing of the folder that the
      lookup of folder 1 returned holds a document with its id: a document
      in any other folder keeps the previous title. */
  lemma DocumentNamedOnlyFromRootListing(item: ItemToMove, subject: Call<ApiResponse<Folder>>,
                                         parent: Call<ApiResponse<Folder>>, parentChildren: Call<ApiResponse<seq<Entry>>>)
    requires item.kind == DocumentItem
    ensures SubjectName(item, subject, parent, parentChildren).Some? <==>
      Ok(parent) && Ok(parentChildren)
      && exists k :: DocumentAt(parentChildren.value.data.value, k, item.id)
  {
  }

  /** The dialog.  `calls` records the backend calls in the order they are
      issued and `moveCompletions` counts the `onMoveComplete` callbacks. */
  class FileMoveModal {
    const itemToMove: ItemToMove
    var items: seq<Entry>
    var currentPath: seq<Folder>
    var isMoving: bool
    var itemName: string
    var loading: bool
    var isOpen: bool
    var calls: seq<GatewayCall>
    var moveCompletions: nat

    constructor (itemToMove: ItemToMove)
      ensures this.itemToMove == itemToMove
      ensures items == [] && currentPath == [] && itemName == ""
      ensures !isMoving && !loading && !isOpen
      ensures calls == [] && moveCompletions == 0
    {
      this.itemToMove := itemToMove;
      items := [];
      currentPath := [];
      isMoving := false;
      itemName := "";
      loading := false;
      isOpen := false;
      calls := [];
      moveCompletions := 0;
    }

    /** `fetchChildrenFolders`: the listing is replaced when the reply
        succeeds with data and kept otherwise; a throw is swallowed. */
    method FetchChildrenFolders(folderId: int, reply: Call<ApiResponse<seq<Entry>>>)
      modifies this
      ensures items == (if Ok(reply) then reply.value.data.value else old(items))
      ensures calls == old(calls) + [GetChildrenFolders(folderId)]
      ensures !loading
      ensures currentPath == old(currentPath) && itemName == old(itemName) && isMoving == old(isMoving)
      ensures isOpen == old(isOpen) && moveCompletions == old(moveCompletions)
    {
      loading := true;
      calls := calls + [GetChildrenFolders(folderId)];
      if Ok(reply) {
        items := reply.value.data.value;
      }
      loading := false;
    }

    /** `fetchFolderInfo`: a found folder is pushed onto the path and its
        listing fetched; otherwise nothing but the lookup happens. */
    method FetchFolderInfo(folderId: int, info: Call<ApiResponse<Folder>>, children: Call<ApiResponse<seq<Entry>>>)
      modifies this
      ensures currentPath == PathAfterOpen(old(currentPath), info)
      ensures calls == old(calls) + [GetFolderInfo(folderId)] + (if Ok(info) then [GetChildrenFolders(folderId)] else [])
      ensures items == (if Ok(info) && Ok(children) then children.value.data.value else old(items))
      ensures !loading
      ensures itemName == old(itemName) && isMoving == old(isMoving)
      ensures isOpen == old(isOpen) && moveCompletions == old(moveCompletions)
    {
      loading := true;
      calls := calls + [GetFolderInfo(folderId)];
      if Ok(info) {
        currentPath := currentPath + [info.value.data.value];
        FetchChildrenFolders(folderId, children);
      }
      loading := false;
    }

    /** `fetchInitialData`, run when the dialog opens: the path restarts at
        folder 1 when that lookup succeeds, its listing is fetched, and the
        title is set from the name lookup when it finds one.  A throw of
        any awaited lookup ends the sequence. */
    method FetchInitialData(root: Call<ApiResponse<Folder>>, rootChildren: Call<ApiResponse<seq<Entry>>>,
                            subject: Call<ApiResponse<Folder>>, parent: Call<ApiResponse<Folder>>,
                            parentChildren: Call<ApiResponse<seq<Entry>>>)
      modifies this
      ensures currentPath == (if Ok(root) then [root.value.data.value] else old(currentPath))
      ensures items == (if Ok(root) && Ok(rootChildren) then rootChildren.value.data.value else old(items))
      ensures calls == old(calls) + OpenCalls(itemToMove, root, parent)
      ensures itemName == (if root.Threw? then old(itemName)
                           else SubjectName(itemToMove, subject, parent, parentChildren).GetOr(old(itemName)))
      ensures !loading
      ensures isMoving == old(isMoving) && isOpen == old(isOpen) && moveCompletions == old(moveCompletions)
    {
      loading := true;
      calls := calls + [GetFolderInfo(1)];
      if root.Threw? {
        loading := false;
        return;
      }
      if Ok(root) {
        currentPath := [root.value.data.value];
        FetchChildrenFolders(1, rootChildren);
      }
      LookUpName(subject, parent, parentChildren);
      loading := false;
    }

    /** The second half of `fetchInitialData`: the title of the dialog
        from the lookup of the item being moved. */
    method LookUpName(subject: Call<ApiResponse<Folder>>, parent: Call<ApiResponse<Folder>>,
                      parentChildren: Call<ApiResponse<seq<Entry>>>)
      modifies this
      ensures calls == old(calls) + SubjectCalls(itemToMove, parent)
      ensures itemName == SubjectName(itemToMove, subject, parent, parentChildren).GetOr(old(itemName))
      ensures items == old(items) && currentPath == old(currentPath) && loading == old(loading)
      ensures isMoving == old(isMoving) && isOpen == old(isOpen) && moveCompletions == old(moveCompletions)
    {
      match itemToMove.kind {
        case FolderItem =>
          calls := calls + [GetFolderInfo(itemToMove.id)];
          if Ok(subject) {
            itemName := subject.value.data.value.name;
          }
        case DocumentItem =>
          calls := calls + [GetFolderInfo(1)];
          if Ok(parent) {
            calls := calls + [GetChildrenFolders(parent.value.data.value.id)];
            if Ok(parentChildren) {
              var file := FindDocument(parentChildren.value.data.value, itemToMove.id);
              if file.Some? {
                itemName := file.value.name;
              }
            }
          }
      }
    }

    /** The trigger button: the dialog opens, and the effect on `isOpen`
        loads the initial data.  An open dialog does not reload. */
    method OpenDialog(root: Call<ApiResponse<Folder>>, rootChildren: Call<ApiResponse<seq<Entry>>>,
                      subject: Call<ApiResponse<Folder>>, parent: Call<ApiResponse<Folder>>,
                      parentChildren: Call<ApiResponse<seq<Entry>>>)
      modifies this
      ensures isOpen
      ensures old(isOpen) ==> calls == old(calls) && currentPath == old(currentPath) && items == old(items)
      ensures !old(isOpen) ==> calls == old(calls) + OpenCalls(itemToMove, root, parent)
      ensures !old(isOpen) ==> currentPath == (if Ok(root) then [root.value.data.value] else old(currentPath))
      ensures !old(isOpen) ==> items == (if Ok(root) && Ok(rootChildren) then rootChildren.value.data.value else old(items))
      ensures !old(isOpen) && !root.Threw? ==>
        itemName == SubjectName(itemToMove, subject, parent, parentChildren).GetOr(old(itemName))
      ensures old(isOpen) || root.Threw? ==> itemName == old(itemName)
      ensures old(isOpen) ==> loading == old(loading)
      ensures !old(isOpen) ==> !loading
      ensures isMoving == old(isMoving) && moveCompletions == old(moveCompletions)
    {
      if !isOpen {
        isOpen := true;
        FetchInitialData(root, rootChildren, subject, parent, parentChildren);
      }
    }

    /** Cancel, or closing the dialog: only `isOpen` changes. */
    method Close()
      modifies this
      ensures !isOpen
      ensures items == old(items) && currentPath == old(currentPath) && itemName == old(itemName)
      ensures loading == old(loading)
      ensures calls == old(calls) && isMoving == old(isMoving) && moveCompletions == old(moveCompletions)
    {
      isOpen := false;
    }

    /** `handleItemClick`: a folder is opened, a document does nothing. */
    method HandleItemClick(item: Entry, info: Call<ApiResponse<Folder>>, children: Call<ApiResponse<seq<Entry>>>)
      modifies this
      ensures item.DocumentEntry? ==> currentPath == old(currentPath) && calls == old(calls) && items == old(items)
      ensures item.DocumentEntry? ==> loading == old(loading)
      ensures item.FolderEntry? ==> !loading
      ensures item.FolderEntry? ==> currentPath == PathAfterOpen(old(currentPath), info)
      ensures item.FolderEntry? ==>
        calls == old(calls) + [GetFolderInfo(item.folder.id)] + (if Ok(info) then [GetChildrenFolders(item.folder.id)] else [])
      ensures item.FolderEntry? ==> items == (if Ok(info) && Ok(children) then children.value.data.value else old(items))
      ensures itemName == old(itemName) && isMoving == old(isMoving)
      ensures isOpen == old(isOpen) && moveCompletions == old(moveCompletions)
    {
      if item.FolderEntry? {
        FetchFolderInfo(item.folder.id, info, children);
      }
    }

    /** `handleBackClick`: with more than one folder on the path the last
        is dropped and the listing of the new last folder fetched; with one
        or none nothing happens. */
    method HandleBackClick(children: Call<ApiResponse<seq<Entry>>>)
      modifies this
      ensures currentPath == PathAfterBack(old(currentPath))
      ensures |old(currentPath)| > 1 ==> calls == old(calls) + [GetChildrenFolders(Destination(currentPath))]
      ensures |old(currentPath)| > 1 ==> items == (if Ok(children) then children.value.data.value else old(items))
      ensures |old(currentPath)| <= 1 ==> calls == old(calls) && items == old(items) && loading == old(loading)
      ensures |old(currentPath)| > 1 ==> !loading
      ensures itemName == old(itemName) && isMoving == old(isMoving)
      ensures isOpen == old(isOpen) && moveCompletions == old(moveCompletions)
    {
      if |currentPath| > 1 {
        currentPath := currentPath[..|currentPath| - 1];
        FetchChildrenFolders(Destination(currentPath), children);
      }
    }

    /** `handleMove`: the item is moved into the last folder of the path.
        Any reply, even one with `success: false`, completes the move and
        closes the dialog; a throw leaves the dialog open.  With an empty
        path reading the destination throws before the `try`, so the
        handler `crashed` with `isMoving` left set. */
    method HandleMove(reply: Call<ApiResponse<()>>) returns (crashed: bool)
      modifies this
      ensures crashed <==> old(currentPath) == []
      ensures crashed ==> isMoving && calls == old(calls) && isOpen == old(isOpen) && moveCompletions == old(moveCompletions)
      ensures !crashed ==> !isMoving && calls == old(calls) + [MoveCall(itemToMove, Destination(old(currentPath)))]
      ensures !crashed ==> moveCompletions == old(moveCompletions) + (if reply.Returned? then 1 else 0)
      ensures !crashed ==> (isOpen <==> old(isOpen) && reply.Threw?)
      ensures items == old(items) && currentPath == old(currentPath)
      ensures itemName == old(itemName) && loading == old(loading)
    {
      isMoving := true;
      if currentPath == [] {
        return true;
      }
      calls := calls + [MoveCall(itemToMove, Destination(currentPath))];
      if reply.Returned? {
        moveCompletions := moveCompletions + 1;
        isOpen := false;
      }
      isMoving := false;
      crashed := false;
    }
  }
}
