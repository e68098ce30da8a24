# docbox client core, in Dafny

This project models the behaviour at the heart of the docbox document-management web client and proves properties of it. docbox is a Next.js/React front end for a document-management REST backend. The modelled pieces are:

- **The tree view's initial expansion.** `walkTreeItems` walks the folder tree in pre-order with a shared stack of ids. It pushes an id on entry and pops it on backtrack, and it stops at the first item with the selected id. The model also covers the row's display name, its icon choice and the actions guard (`tree_view.dfy`).
- **The move dialog.** It keeps a breadcrumb stack of folders. The stack grows when a folder is opened and shrinks on Back, and a move goes to the last folder on it. The dialog first loads folder 1 and looks up the name of the item being moved (`file_move.dfy`).
- **Query keys and the cache.** Query.ts gives each query hook a key and options. The cache maps keys to data plus a stale flag, and `invalidateQueries` matches keys by prefix (`query.dfy`, `query_cache.dfy`).
- **The mutation hooks.** Each hook has its own set of invalidations. Delete-folder and delete-document update the list optimistically, roll back when the call throws, and invalidate when it settles (`mutation.dfy`).
- **The batch uploader.** It rebuilds each file's name, keeps a progress entry per file, and uploads the files one by one, collecting the successful results (`file_uploader.dfy`).
- **The new-folder dialog.** The parent id comes from the route and falls back to 1. The model also covers how the fields reset and how a create call ends (`upload_button.dfy`).
- **Session gating.** This is the edge middleware's routing decision (`middleware.dfy`), the client hook's cookie scan and redirect (`use_auth.dfy`), and the server's all-cookies-present check (`check_auth.dfy`).

Shared pieces:

- `common.dfy` holds `Option`, the `{success, message, data}` response envelope and `Call`. `Call` is an awaited backend call that either returns a value or throws.
- `common.dfy` also holds JavaScript's `split`/`join`/`startsWith`/`endsWith` on strings.
- `types.dfy` holds the backend records.

Every awaited backend call is an argument of the handler that awaits it. Handlers run to completion one after another. Components are classes whose fields are their state. Each class also records, in order, the backend calls it issues.

## Model

| member | source | states |
|---|---|---|
| Common.Split | hooks/useAuth.ts:13 | `split` always returns at least one piece, so `[0]` and `pop()` on its result are always defined. |
| Common.JoinSplit | components/file-uploader.tsx:45-47 | Joining the pieces of a split with the same separator gives the text back, so no character is lost or added by splitting. |
| TreeView.ExpandedItemIds | components/ui/tree-view.tsx:66-94 | The expanded ids equal `ExpandedIds`. They are empty without a selected id. With `expandAll` they are every id in pre-order (below the root for a single item). Otherwise they are the ids on the route to the first occurrence of the target. |
| TreeView.TreeWalk.WalkArray | components/ui/tree-view.tsx:78-84 | With `expandAll`, the stack gains the forest's pre-order and the walk never reports found. Otherwise it reports found iff the target occurs. The stack then gains exactly the ids on the route to the first occurrence, because every other push was popped. |
| TreeView.TreeWalk.WalkItem | components/ui/tree-view.tsx:85-89 | Without `expandAll`, an item with the target id is found with nothing pushed. Otherwise the walk goes on to its children, and a childless item adds nothing. |
| TreeView.FindRouteFound | components/ui/tree-view.tsx:73-90 | A route is found exactly when the target id occurs in the forest's pre-order. |
| TreeView.RouteBelowFound | components/ui/tree-view.tsx:85-89 | Below one item, a route is found exactly when the id occurs in that item's subtree. |
| TreeView.FindRouteConcat | components/ui/tree-view.tsx:78-88 | First match: in `xs + ys`, the route through `xs` wins whenever the id occurs in `xs`, so later duplicates are never reached. |
| TreeView.FindRouteIsRoute | components/ui/tree-view.tsx:73-90 | A found route starts at a top-level item and each step goes to a child. It ends at an item with the target id, and no earlier item on it has that id. |
| TreeView.PreorderConcat | components/ui/tree-view.tsx:78-88 | The pre-order of two forests side by side is the two pre-orders one after the other. |
| TreeView.AbsentTargetExpandsNothing | components/ui/tree-view.tsx:78-84 | With an id that occurs nowhere and `expandAll` off, nothing starts expanded. |
| TreeView.PresentTargetExpandsRoute | components/ui/tree-view.tsx:73-90 | With an id that occurs and `expandAll` off, the expanded ids are the ids of a route to its first occurrence, and they end with the id. |
| TreeView.SingleRootNotPushed | components/ui/tree-view.tsx:77-88 | For a single item, the root's own id is never pushed. The result is that of its children taken as an array, or empty when the root is the target. |
| TreeView.Trim | components/ui/tree-view.tsx:217 | `trim()` returns a slice of the name with only white space cut off before and after it. The slice is empty iff the name is all JavaScript white space, and otherwise it neither starts nor ends with white space. |
| TreeView.DisplayName | components/ui/tree-view.tsx:217 | The row shows the trimmed name when it is non-empty, and 'Unnamed Folder' when only white space was left. |
| TreeView.TreeIcon | components/ui/tree-view.tsx:329-343 | A selected item shows `selectedIcon`, an open one `openIcon`, any other `icon`. If the picked field is absent, the tree's default icon is shown, then the folder glyph, never another field of the item. |
| TreeView.TreeActions | components/ui/tree-view.tsx:345-354 | Actions show iff the item has some and is selected. |
| TreeView.SidebarFirstMatch | components/Sidebar/index.tsx:20-102 | In the sidebar tree, '5', '6' and '7' occur three times each. Selecting '7' expands one route only, ['1','5','7']: the ids of the other copies are not left expanded. |
| TreeView.RepeatedFolderPreorder | components/Sidebar/index.tsx:34-52 | The repeated sidebar folder lists as ['5','6','7'] in pre-order. |
| TreeView.SidebarExpandAll | components/Sidebar/index.tsx:20-102 | With `expandAll`, the sidebar expands all twelve ids in pre-order, repeats included. |
| TreeView.SidebarAbsentId | components/Sidebar/index.tsx:20-102 | An id the sidebar tree does not hold expands nothing. |
| Query.Options | services/Query.ts:13-62 | The document-info and document-content queries are enabled iff the id is non-empty, and every other query always is. Only document info selects the `data` field. |
| Query.Selected | services/Query.ts:51-61 | Document info delivers the response's `data` field, and every other hook delivers the whole response. |
| Query.KeysDistinct | services/Query.ts:13-62 | Two hooks share a key only when they are the same hook with the same argument. |
| Query.FolderPrefixCoversExactlyFolderQueries | services/Query.ts:15-31 | The prefix ['folder'] covers exactly the info, children and path queries, for every folder id. |
| Query.DocumentsPrefixCoversExactlyDocumentInfo | services/Query.ts:48 | The prefix ['documents'] covers exactly the document-info queries and not the content queries. |
| Query.NoFoldersOrFilesKey | services/Query.ts:13-63 | No key built here starts with 'folders' or 'files'. |
| Query.FolderChildrenPrefixCoversNothing | services/Query.ts:23 | The filter ['folder','children'] covers no key, because the second part of every folder key is a number. |
| QueryCache.MarkStale | services/Mutation.ts:80-82 | One `invalidateQueries`: the keys and data are kept, and a key is stale after it iff it was stale before or the prefix matches it. |
| QueryCache.InvalidateAll | services/Mutation.ts:114-116 | Several `invalidateQueries` in a row: the keys and data are kept, and a key is stale iff it was stale before or some filter matches it. |
| QueryCache.InvalidateIdempotent | services/Mutation.ts:114-116 | Applying the same filters a second time changes nothing. |
| QueryCache.QueryClient.SetQueryData | services/Mutation.ts:69-72 | `setQueryData` writes the data fresh under the key and leaves every other key as it was. |
| QueryCache.QueryClient.InvalidateQueries | services/Mutation.ts:81 | The new cache is `MarkStale` of the old one. |
| Mutation.CreateFolderRefreshesNoQuery | services/Mutation.ts:50-53 | A successful create-folder refreshes none of the queries that Query.ts builds. |
| Mutation.Invalidations | services/Mutation.ts:13-180 | Each hook passes at least one filter, and no filter is empty. ['folder'] is passed exactly by delete-folder, delete-document and move-folder. ['documents'] is passed exactly by delete-document and upload. |
| Mutation.MoveFileRefreshesNoQuery | services/Mutation.ts:133-137 | A successful move-file refreshes none of the queries that Query.ts builds. |
| Mutation.MoveFolderRefreshesFolderQueries | services/Mutation.ts:148-152 | A successful move-folder refreshes exactly the folder info, children and path queries. |
| Mutation.DeleteFolderRefreshesFolderQueries | services/Mutation.ts:79-83 | A settled folder delete refreshes exactly the folder queries. |
| Mutation.DeleteDocumentRefreshes | services/Mutation.ts:112-117 | A settled document delete refreshes exactly the folder queries and the document-info queries, and not the content queries. |
| Mutation.UploadRefreshesDocumentInfoOnly | services/Mutation.ts:175-179 | A successful upload refreshes exactly the document-info queries and no folder listing. |
| Mutation.LoginRefreshesAccountOnly | services/Mutation.ts:18-21 | A successful login refreshes exactly the account query. |
| Mutation.WithoutId | services/Mutation.ts:69-72 | The filter keeps exactly the rows whose id differs and never grows the list. |
| Mutation.WithoutIdConcat | services/Mutation.ts:69-72 | The filter works piecewise, so the kept rows stay in their original order. |
| Mutation.WithoutIdAbsent | services/Mutation.ts:69-72 | A list without the id is returned unchanged. |
| Mutation.FailedDeleteRestores | services/Mutation.ts:67-78 | After a thrown delete, a list that was present is exactly restored, and `[]` is left where there was none. |
| Mutation.ResolvedDeleteRemoves | services/Mutation.ts:69-72 | After a resolved delete, the list holds exactly the old rows whose id differs. It is unchanged when no row had the id. |
| Mutation.DeleteTouchesOnlyList | services/Mutation.ts:63-74 | A delete changes the data of no key but its list, and adds no key but that one. |
| Mutation.DeleteFolderInvalidates | services/Mutation.ts:79-83 | Whether or not the call threw, ['folders'] and every key starting with 'folder' end stale. |
| Mutation.DeleteDocumentInvalidates | services/Mutation.ts:112-117 | Whether or not the call threw, ['documents'] and every key starting with 'documents' or 'folder' end stale. |
| Mutation.OnMutateRemove | services/Mutation.ts:63-74 | The snapshot is the list, or `[]` when absent. The list becomes the filtered one (`[]` when absent), and nothing else changes. |
| Mutation.InvalidateEach | services/Mutation.ts:79-83 | One `invalidateQueries` per filter, in order, gives `InvalidateAll`. |
| Mutation.RunDelete | services/Mutation.ts:58-119 | onMutate, then onError only if the call threw, then onSettled. The final cache is `AfterDelete`, whose properties are the lemmas above. |
| Mutation.RunMutation | services/Mutation.ts:13-180 | Every other hook invalidates its filters after the call resolves, even with `success: false`, and changes nothing when the call throws. |
| FileMove.BackDropsLast | components/file-move.tsx:136-143 | Back removes exactly the last folder when there are more than one, and is a no-op otherwise. A non-empty path never becomes empty. |
| FileMove.PathAfterBack | components/file-move.tsx:137-140 | A path of two or more loses exactly its last folder. A shorter one is kept, and the path is empty after Back only if it was empty before. |
| FileMove.PathAfterOpen | components/file-move.tsx:104-105 | A lookup that succeeds with data appends the folder and keeps the path before it. Any other outcome keeps the path. |
| FileMove.OpenThenBack | components/file-move.tsx:101-143 | From a non-empty path, a found folder followed by Back restores the path, and a move in between goes to that folder. A failed lookup leaves the path as it was. |
| FileMove.BreadcrumbGrows | components/file-move.tsx:182-187 | The breadcrumb of one folder is its name. Opening another folder appends ' > ' and its name. |
| FileMove.Breadcrumb | components/file-move.tsx:182-187 | An empty path shows nothing and a single folder shows its name. Otherwise the text starts with the first folder's name and ends with the last one's. |
| FileMove.FindDocument | components/file-move.tsx:84-87 | The result is the first document of the listing with the id, and absent iff no document has it. A folder with the id is skipped. |
| FileMove.DocumentNamedOnlyFromRootListing | components/file-move.tsx:80-92 | A document's name is found only when the listing of the folder returned for folder 1 holds a document with its id. |
| FileMove.FileMoveModal.constructor | components/file-move.tsx:52-57 | The initial state: empty items and path, empty name, not moving, not loading, closed. |
| FileMove.FileMoveModal.FetchChildrenFolders | components/file-move.tsx:116-128 | The listing is replaced only by a reply that succeeds with data. Loading ends false, and the rest of the state is kept. |
| FileMove.FileMoveModal.FetchFolderInfo | components/file-move.tsx:101-114 | A found folder is appended to the path and its listing fetched. Otherwise only the lookup is issued and the path is kept. |
| FileMove.FileMoveModal.FetchInitialData | components/file-move.tsx:65-99 | The path becomes [folder 1] when that lookup succeeds, and folder 1's listing is fetched. The name comes from the folder lookup or the root listing. A throw of the first lookup stops everything. |
| FileMove.FileMoveModal.LookUpName | components/file-move.tsx:74-93 | A folder is looked up by its id. A document is looked up in the listing of the folder returned for folder 1. The title changes only when a name is found. |
| FileMove.FileMoveModal.OpenDialog | components/file-move.tsx:59-63 | Opening a closed dialog loads the initial data and ends with `loading` false. Opening an open one loads nothing and leaves `loading` as it was. |
| FileMove.FileMoveModal.Close | components/file-move.tsx:215 | Cancel closes the dialog and keeps path, listing, name and `loading`. |
| FileMove.FileMoveModal.HandleItemClick | components/file-move.tsx:130-134 | A click on a folder opens it and ends with `loading` false. A click on a document changes nothing, `loading` included. |
| FileMove.FileMoveModal.HandleBackClick | components/file-move.tsx:136-143 | The path becomes `PathAfterBack`. Only with more than one folder is the listing of the new last folder fetched, ending with `loading` false. Otherwise listing, calls and `loading` are unchanged. |
| FileMove.FileMoveModal.HandleMove | components/file-move.tsx:145-161 | The handler crashes iff the path is empty, and then `isMoving` stays set. Otherwise it issues moveFolder or moveFile to the last folder. Any reply, even `success: false`, completes and closes the dialog. A throw keeps it open, and `isMoving` ends false. |
| FileUploader.CustomFileNameParts | components/file-uploader.tsx:45-47 | The upload name is the text before the first dot, a dot, and the text after the last dot. A name without a dot is doubled around a dot. |
| FileUploader.CustomFileName | components/file-uploader.tsx:45-47 | A name without a dot is doubled around one. A name with a dot never grows, since the first and the last piece do not overlap. |
| FileUploader.CustomFileNameExamples | components/file-uploader.tsx:45-47 | 'a.b.c' gives 'a.c', 'x' gives 'x.x' and '.c' gives '.c'. |
| FileUploader.PercentCompleted | components/file-uploader.tsx:58-60 | A zero total gives no number, any other total a number. |
| FileUploader.PercentRoundsHalfUp | components/file-uploader.tsx:58-60 | The number is the integer nearest to 100·loaded/total, with halves rounded up. |
| FileUploader.PercentBounds | components/file-uploader.tsx:58-60 | A transfer that has not passed its total reports 0 to 100, and a finished one reports exactly 100. |
| FileUploader.CollectedBounds | components/file-uploader.tsx:69-80 | The results are exactly the data of the successful uploads, in file order. There is one entry per success, and upload `j`'s data follows the data of the successes before it. So all successes give every upload's data, and no success gives `[]`. |
| FileUploader.UploadCallsEntries | components/file-uploader.tsx:43-56 | There is one call per file, in order. The `k`th call carries the folder id, the `k`th file's custom name and its original name. |
| FileUploader.ProgressAfterUploadsEntries | components/file-uploader.tsx:57-66 | After `n` uploads, each of the first `n` entries holds its file's last percentage, or is unchanged if the file reported none. Every later entry is untouched. |
| FileUploader.Uploader.constructor | components/file-uploader.tsx:15-20 | Initially there are no files, no progress, no message and no data. |
| FileUploader.Uploader.OnDrop | components/file-uploader.tsx:22-25 | The dropped files replace the selection, with one progress entry of 0 per file. |
| FileUploader.Uploader.ClearFiles | components/file-uploader.tsx:126 | The selection is emptied, and the progress entries are kept. |
| FileUploader.Uploader.ReportProgress | components/file-uploader.tsx:57-66 | Each event rewrites the entry of its own file only, so that entry ends at the last event's percentage. |
| FileUploader.Uploader.UploadFile | components/file-uploader.tsx:44-76 | One pass of the loop issues one upload call for the file and leaves its entry at its last percentage. The reply's data is pushed only on success. The message is the reply's, or the error text after a throw. |
| FileUploader.Uploader.HandleUpload | components/file-uploader.tsx:33-81 | With no files, only the prompt is set and no call is made. Otherwise there is one upload per file, in order. The data are those of exactly the successful uploads, in order, and are set once. The message is the last reply's, or the error text if that upload threw. Each progress entry holds its last percentage. |
| UploadButton.ToNumber | components/upload-button.tsx:46 | A missing id is NaN, the empty id is 0, a run of digits is its decimal value, and a sign followed by digits is the signed value. Exactly the other texts are NaN. |
| UploadButton.ParentFolderId | components/upload-button.tsx:46 | The route's number when it is a non-zero number, otherwise 1. The result is never 0. |
| UploadButton.ParentFolderIdRoundTrip | components/upload-button.tsx:46 | The route `n` gives folder `n` for every positive `n`. '0', no id, '' and every text that starts with neither a digit nor a sign give folder 1. |
| UploadButton.NewFolderButton.constructor | components/upload-button.tsx:36-43 | Both menus start closed. The fields are 'Untitled folder', '', no sequence and no message. |
| UploadButton.NewFolderButton.SelectNewFolder | components/upload-button.tsx:93-97 | Choosing 'New folder' closes the dropdown and opens the dialog, and changes nothing else. |
| UploadButton.NewFolderButton.SetDropdownOpen | components/upload-button.tsx:75 | The dropdown's own toggle changes only the dropdown. |
| UploadButton.NewFolderButton.SetDialogOpen | components/upload-button.tsx:109 | The dialog's own toggle changes only the dialog and keeps the fields. |
| UploadButton.NewFolderButton.SetName | components/upload-button.tsx:118 | Typing a name changes only the name. |
| UploadButton.NewFolderButton.SetComment | components/upload-button.tsx:125 | Typing a comment changes only the comment. |
| UploadButton.NewFolderButton.CloseDialog | components/upload-button.tsx:48-55 | Closing shuts the dialog and the dropdown and resets every field to its initial value. |
| UploadButton.NewFolderButton.HandleCreateFolder | components/upload-button.tsx:57-71 | One create call goes out with the parent id, the name, the comment and never a sequence. On success everything is reset and closed. On failure the server's message shows and the fields and dialog are kept. On a throw nothing else changes. |
| Middleware.Route | middleware.ts:5-41 | A session on a path starting with '/login' is redirected to '/'. A session on any other path, or a public path, passes through. Everything else is rewritten to '/login'. There is always exactly one of the three. |
| Middleware.RouteSeesOnlySessionPresence | middleware.ts:7 | The decision depends on the cookies only through the session cookie's presence, not its value. |
| Middleware.RouteExamples | middleware.ts:13-21 | '/loginx' with a session redirects. '/apiary' and '/styles/app.css' pass without one. '/login' and '/logo.PNG' without one are rewritten. |
| Middleware.LoginPageNotPublic | middleware.ts:13-21 | '/login' matches no public prefix and no static extension. |
| Middleware.UpperCaseExtensionNotPublic | middleware.ts:18-21 | The extension test is case-sensitive, so '/logo.PNG' is not a static file. |
| UseAuth.FindSessionRow | hooks/useAuth.ts:12-14 | The result is the first row starting with 'mydms_session=', and absent iff there is none. |
| UseAuth.IsAuthenticated | hooks/useAuth.ts:12-20 | The hook is authenticated iff some row of the cookie string split at '; ' starts with 'mydms_session='. |
| UseAuth.SessionRowIsTruthy | hooks/useAuth.ts:19 | A session row that was found is a non-empty string, so the `if` takes the authenticated branch. |
| UseAuth.SingleRow | hooks/useAuth.ts:12-14 | A cookie string in which `'; '` never occurs is one row. It counts iff it starts with the session prefix. |
| Common.SplitWithoutOccurrence | hooks/useAuth.ts:13 | `split` of a text in which the separator never occurs gives the text as its only piece. |
| UseAuth.SessionRowAfterAnother | hooks/useAuth.ts:12-14 | A session row after another cookie counts, whatever its value. |
| UseAuth.EmptySessionValueCounts | hooks/useAuth.ts:14 | 'mydms_session=' with an empty value counts. |
| UseAuth.LongerNameDoesNotCount | hooks/useAuth.ts:14 | 'xmydms_session=1' does not count. |
| UseAuth.RowsWithoutSpaceDoNotSplit | hooks/useAuth.ts:13 | Rows joined by ';' without the space are one row, so 't=1;mydms_session=abc' does not count. |
| UseAuth.AuthHook.constructor | hooks/useAuth.ts:5-6 | The hook starts loading with no answer and returns null. |
| UseAuth.AuthHook.RunEffect | hooks/useAuth.ts:10-28 | After the effect the hook returns whether a session row exists. It navigates to '/login' iff unauthenticated and not already on '/login'. |
| CheckAuth.AllCookiesExist | hooks/checkAuth.ts:6-8 | True iff every listed name is in the store, and an empty list is true. |
| CheckAuth.AllCookiesExistBySet | hooks/checkAuth.ts:6-8 | The answer depends neither on the order or repeats of the names nor on the stored values. One missing name makes it false. |

## Left out

- Network and browser I/O. The gateway functions, axios, `document.cookie`, `cookies()`, the router and console logging are left out. Their results are arguments of the handlers, and their effects are recorded as call logs.
- React Query internals: `cancelQueries`, request de-duplication, refetch timing and retries. Invalidation is modelled only as the stale flag. Cached values are modelled as lists of `{id, name}` rows, which is all the delete filters read.
- Async interleaving. Handlers are modelled as sequential steps, so the following are not modelled:
  - the stale `currentPath` closure in the move dialog;
  - the un-awaited listing fetch inside the dialog's loaders;
  - the files changing while an upload loop runs;
  - unmount races.
- FileMove.FileMoveModal.OpenDialog: it models the trigger only. Re-running the effect for a change of `isOpen` that happens elsewhere is not modelled.
- UploadButton.NewFolderButton.CloseDialog: the dropdown closes at once, not after the 100 ms timeout.
- UploadButton.ToNumber: handles only a missing id, the empty string and a decimal integer with an optional sign; any other text is treated as NaN. JavaScript's `Number` also accepts surrounding white space, fractions, exponents and hex prefixes. `params.id` as an array of segments is not modelled.
- UploadButton.ParentFolderIdRoundTrip: "not a number" is taken as `ToNumber` reads it. In JavaScript, text starting with white space, '.' or 'Infinity' can still be a number.
- FileUploader.PercentCompleted: rounds the exact quotient. IEEE division can differ from this only for totals above about 10^14 bytes. Non-integer byte counts are not modelled.
- The file-size display (`toFixed`) and `Number(sequence)` in useCreateFolder are left out because they are floating-point presentation. The sequence is never set anyway.
- Next's `matcher` regex, which decides which paths reach the middleware, and the proxy configuration are not part of this model.
- Presentation-only code is not part of this model: markup, CSS, icons as components, the accordion's open state, and the pages that only show mock data.
- The login page is not part of this model, because its success test depends on a response shape that the visible gateway code does not define. The logout route is not part of this model either, because it is pure I/O.
- Strings are sequences of characters with no encoding. `trim()` uses the JavaScript white-space set listed in `TreeView.IsJsSpace`.

Three facts proved above go against what the comments in services/Mutation.ts suggest. The code is followed, not the comments:

- Create-folder and move-file invalidate prefixes that match no query key (`Mutation.CreateFolderRefreshesNoQuery`, `Mutation.MoveFileRefreshesNoQuery`).
- The filter ['folder','children'] in the document delete matches nothing (`Query.FolderChildrenPrefixCoversNothing`).
- An upload leaves the folder listings unrefreshed (`Mutation.UploadRefreshesDocumentInfoOnly`).
