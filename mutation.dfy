/**
 * The mutation hooks: which cache keys each one invalidates and when,
 * and the optimistic delete of a folder or a document (snapshot the
 * list, remove the entry, roll back if the call throws, invalidate when
 * the call settles either way).
 */
module Mutation {
  import opened Common
  import opened Query
  import opened QueryCache

  function FoldersKey(): QueryKey { [Str("folders")] }
  function DocumentsKey(): QueryKey { [Str("documents")] }

  datatype MutationHook =
    | UseLogin
    | UseCreateFolder
    | UseDeleteFolder
    | UseDeleteDocument
    | UseMoveFile
    | UseMoveFolder
    | UseUploadDocument

  /** The filters each hook passes to `invalidateQueries`, in call order.
      Every hook passes at least one, none is empty (an empty filter would
      match every cached query), and only the hooks that change folders'
      contents pass `['folder']` or `['documents']`. */
  function Invalidations(m: MutationHook): (r: seq<QueryKey>)
    ensures r != []
    ensures forall k :: 0 <= k < |r| ==> r[k] != [] && r[k][0].Str?
    ensures [Str("folder")] in r <==> m == UseDeleteFolder || m == UseDeleteDocument || m == UseMoveFolder
    ensures DocumentsKey() in r <==> m == UseDeleteDocument || m == UseUploadDocument
  {
    match m
    case UseLogin => [[Str("account")]]
    case UseCreateFolder => [[Str("folders")]]
    case UseDeleteFolder => [[Str("folders")], [Str("folder")]]
    case UseDeleteDocument => [[Str("documents")], [Str("folder"), Str("children")], [Str("folder")]]
    case UseMoveFile => [[Str("files")], [Str("folders")]]
    case UseMoveFolder => [[Str("folders")], [Str("folder")]]
    case UseUploadDocument => [[Str("documents")], [Str("folders")]]
  }

  /** The two delete hooks invalidate in `onSettled` (after success and
      after an error); the others only in `onSuccess`. */
  predicate InvalidatesOnError(m: MutationHook) {
    m == UseDeleteFolder || m == UseDeleteDocument
  }

  /** The filters applied once the mutation function has resolved or
      thrown.  A response with `success: false` still resolves. */
  function InvalidatedAfter(m: MutationHook, threw: bool): seq<QueryKey> {
    if threw && !InvalidatesOnError(m) then [] else Invalidations(m)
  }

  // ---------------------------------------------------------------------
  // Which queries of the query hooks each mutation refreshes
  // ---------------------------------------------------------------------

  predicate IsFolderHook(h: Hook) {
    h.UseFolderInfo? || h.UseFolderChildren? || h.UseFolderPath?
  }

  /** A successful create-folder refreshes none of the queries: no query
      key starts with `'folders'`. */
  lemma CreateFolderRefreshesNoQuery(h: Hook)
    ensures !Covered(Invalidations(UseCreateFolder), Options(h).queryKey)
  {
    NoFoldersOrFilesKey(h);
  }

  /** A successful move-file refreshes none of the queries either: no
      query key starts with `'files'` or `'folders'`. */
  lemma MoveFileRefreshesNoQuery(h: Hook)
    ensures !Covered(Invalidations(UseMoveFile), Options(h).queryKey)
  {
    NoFoldersOrFilesKey(h);
  }

  /** A successful move-folder refreshes exactly the folder queries. */
  lemma MoveFolderRefreshesFolderQueries(h: Hook)
    ensures Covered(Invalidations(UseMoveFolder), Options(h).queryKey) <==> IsFolderHook(h)
  {
    var k := Options(h).queryKey;
    var ps := Invalidations(UseMoveFolder);
    NoFoldersOrFilesKey(h);
    FolderPrefixCoversExactlyFolderQueries(h);
    if IsFolderHook(h) { assert IsPrefix(ps[1], k); }
  }

  /** A settled folder delete refreshes exactly the folder queries. */
  lemma DeleteFolderRefreshesFolderQueries(h: Hook)
    ensures Covered(Invalidations(UseDeleteFolder), Options(h).queryKey) <==> IsFolderHook(h)
  {
    MoveFolderRefreshesFolderQueries(h);
  }

  /** A settled document delete refreshes the folder queries and the
      document-info queries, and not the document-content queries. */
  lemma DeleteDocumentRefreshes(h: Hook)
    ensures Covered(Invalidations(UseDeleteDocument), Options(h).queryKey)
      <==> IsFolderHook(h) || h.UseDocumentInfo?
  {
    var k := Options(h).queryKey;
    var ps := Invalidations(UseDeleteDocument);
    FolderPrefixCoversExactlyFolderQueries(h);
    DocumentsPrefixCoversExactlyDocumentInfo(h);
    FolderChildrenPrefixCoversNothing(h);
    if IsFolderHook(h) { assert IsPrefix(ps[2], k); }
    if h.UseDocumentInfo? { assert IsPrefix(ps[0], k); }
  }

  /** A successful upload refreshes the document-info queries only: the
      folder listing it was uploaded into is not refreshed. */
  lemma UploadRefreshesDocumentInfoOnly(h: Hook)
    ensures Covered(Invalidations(UseUploadDocument), Options(h).queryKey) <==> h.UseDocumentInfo?
  {
    var k := Options(h).queryKey;
    var ps := Invalidations(UseUploadDocument);
    NoFoldersOrFilesKey(h);
    DocumentsPrefixCoversExactlyDocumentInfo(h);
    if h.UseDocumentInfo? { assert IsPrefix(ps[0], k); }
  }

  /** A successful login refreshes the account query only. */
  lemma LoginRefreshesAccountOnly(h: Hook)
    ensures Covered(Invalidations(UseLogin), Options(h).queryKey) <==> h == UseAccount
  {
    var k := Options(h).queryKey;
    var ps := Invalidations(UseLogin);
    if h != UseAccount {
      assert k[0] != Str("account");
      assert !IsPrefix(ps[0], k);
    } else {
      assert IsPrefix(ps[0], k);
    }
  }

  // ---------------------------------------------------------------------
  // Optimistic delete
  // ---------------------------------------------------------------------

  /** `rows.filter(row => row.id !== id)`. */
  function WithoutId(rows: seq<Row>, id: int): (r: seq<Row>)
    ensures |r| <= |rows|
    ensures forall x :: x in r <==> x in rows && x.id != id
  {
    if rows == [] then []
    else if rows[0].id != id then [rows[0]] + WithoutId(rows[1..], id)
    else WithoutId(rows[1..], id)
  }

  /** The filter works piecewise, so the kept rows stay in their order. */
  lemma {:induction false} WithoutIdConcat(a: seq<Row>, b: seq<Row>, id: int)
    ensures WithoutId(a + b, id) == WithoutId(a, id) + WithoutId(b, id)
  {
    if a == [] {
      assert a + b == b;
    } else {
      assert (a + b)[0] == a[0];
      assert (a + b)[1..] == a[1..] + b;
      WithoutIdConcat(a[1..], b, id);
    }
  }

  /** A list without the id comes back unchanged. */
  lemma {:induction false} WithoutIdAbsent(rows: seq<Row>, id: int)
    requires forall x :: x in rows ==> x.id != id
    ensures WithoutId(rows, id) == rows
  {
    if rows != [] {
      assert rows[0] in rows;
      WithoutIdAbsent(rows[1..], id);
      assert rows == [rows[0]] + rows[1..];
    }
  }

  /** The optimistic updater: an absent list becomes `[]`, a present one
      loses every row with the id. */
  function Optimistic(current: Option<seq<Row>>, id: int): seq<Row> {
    match current
    case None => []
    case Some(rows) => WithoutId(rows, id)
  }

  /** The whole cache after a delete mutation has settled, from the cache
      before it: the list under `listKey` is the optimistic one after a
      resolved call and the snapshot after a thrown one, then `prefixes`
      are invalidated. */
  function AfterDelete(e: Entries, listKey: QueryKey, id: int, threw: bool, prefixes: seq<QueryKey>): Entries {
    var before := if listKey in e then e[listKey].data else None;
    var list := if threw then before.GetOr([]) else Optimistic(before, id);
    InvalidateAll(e[listKey := CacheEntry(Some(list), false)], prefixes)
  }

  /** A thrown delete restores a list that was present exactly, and
      leaves `[]` where there was none. */
  lemma FailedDeleteRestores(e: Entries, listKey: QueryKey, id: int, prefixes: seq<QueryKey>)
    ensures listKey in AfterDelete(e, listKey, id, true, prefixes)
    ensures AfterDelete(e, listKey, id, true, prefixes)[listKey].data
      == if listKey in e && e[listKey].data.Some? then e[listKey].data else Some([])
  {
  }

  /** A resolved delete leaves the list without any row with the id, and
      every other row in its order. */
  lemma ResolvedDeleteRemoves(e: Entries, listKey: QueryKey, id: int, prefixes: seq<QueryKey>)
    requires listKey in e && e[listKey].data.Some?
    ensures listKey in AfterDelete(e, listKey, id, false, prefixes)
    ensures var rows := e[listKey].data.value;
      var after := AfterDelete(e, listKey, id, false, prefixes)[listKey].data.value;
      && (forall x :: x in after <==> x in rows && x.id != id)
      && ((forall x :: x in rows ==> x.id != id) ==> after == rows)
  {
    var rows := e[listKey].data.value;
    if forall x :: x in rows ==> x.id != id {
      WithoutIdAbsent(rows, id);
    }
  }

  /** A delete changes the data of no key but the list it edits, and
      adds no key but that one. */
  lemma DeleteTouchesOnlyList(e: Entries, listKey: QueryKey, id: int, threw: bool, prefixes: seq<QueryKey>)
    ensures AfterDelete(e, listKey, id, threw, prefixes).Keys == e.Keys + {listKey}
    ensures forall k :: k in e && k != listKey ==> AfterDelete(e, listKey, id, threw, prefixes)[k].data == e[k].data
  {
  }

  /** A settled folder delete leaves the folder list and every key that
      starts with `'folder'` stale, whether the call threw or not. */
  lemma DeleteFolderInvalidates(e: Entries, id: int, threw: bool)
    ensures var r := AfterDelete(e, FoldersKey(), id, threw, Invalidations(UseDeleteFolder));
      && r[FoldersKey()].stale
      && forall k :: k in r && IsPrefix([Str("folder")], k) ==> r[k].stale
  {
    var ps := Invalidations(UseDeleteFolder);
    assert IsPrefix(ps[0], FoldersKey());
    assert forall k :: IsPrefix([Str("folder")], k) ==> IsPrefix(ps[1], k);
  }

  /** A settled document delete leaves the document list, every key that
      starts with `'documents'` and every key that starts with `'folder'`
      stale. */
  lemma DeleteDocumentInvalidates(e: Entries, id: int, threw: bool)
    ensures var r := AfterDelete(e, DocumentsKey(), id, threw, Invalidations(UseDeleteDocument));
      && r[DocumentsKey()].stale
      && (forall k :: k in r && IsPrefix([Str("documents")], k) ==> r[k].stale)
      && (forall k :: k in r && IsPrefix([Str("folder")], k) ==> r[k].stale)
  {
    var ps := Invalidations(UseDeleteDocument);
    assert IsPrefix(ps[0], DocumentsKey());
    assert forall k :: IsPrefix([Str("documents")], k) ==> IsPrefix(ps[0], k);
    assert forall k :: IsPrefix([Str("folder")], k) ==> IsPrefix(ps[2], k);
  }

  // ---------------------------------------------------------------------
  // The hooks' callbacks on the shared cache
  // ---------------------------------------------------------------------

  /** `onMutate`: snapshot the list (`[]` when absent), then replace it by
      the optimistic one.  Nothing else in the cache changes. */
  method OnMutateRemove(client: QueryClient, listKey: QueryKey, id: int) returns (snapshot: seq<Row>)
    modifies client
    ensures snapshot == old(client.GetQueryData(listKey)).GetOr([])
    ensures client.entries
      == old(client.entries)[listKey := CacheEntry(Some(Optimistic(old(client.GetQueryData(listKey)), id)), false)]
  {
    snapshot := client.GetQueryData(listKey).GetOr([]);
    var current := client.GetQueryData(listKey);
    client.SetQueryData(listKey, if current.None? then [] else WithoutId(current.value, id));
  }

  /** One `invalidateQueries` call per filter, in order. */
  method InvalidateEach(client: QueryClient, prefixes: seq<QueryKey>)
    modifies client
    ensures client.entries == InvalidateAll(old(client.entries), prefixes)
  {
    for i := 0 to |prefixes|
      invariant client.entries == InvalidateAll(old(client.entries), prefixes[..i])
    {
      assert prefixes[..i + 1][..i] == prefixes[..i];
      client.InvalidateQueries(prefixes[i]);
    }
    assert prefixes[..|prefixes|] == prefixes;
  }

  /** A delete hook from `onMutate` to `onSettled`: the mutation function
      resolves or throws between the optimistic write and the rollback. */
  method RunDelete(client: QueryClient, m: MutationHook, id: int, outcome: Call<ApiResponse<Row>>)
    requires m == UseDeleteFolder || m == UseDeleteDocument
    modifies client
    ensures var listKey := if m == UseDeleteFolder then FoldersKey() else DocumentsKey();
      client.entries == AfterDelete(old(client.entries), listKey, id, outcome.Threw?, Invalidations(m))
  {
    var listKey := if m == UseDeleteFolder then FoldersKey() else DocumentsKey();
    ghost var e := client.entries;
    ghost var before := if listKey in e then e[listKey].data else None;
    ghost var list := if outcome.Threw? then before.GetOr([]) else Optimistic(before, id);
    var previous := OnMutateRemove(client, listKey, id);
    if outcome.Threw? {
      client.SetQueryData(listKey, previous);
      assert client.entries == e[listKey := CacheEntry(Some(list), false)];
    }
    assert client.entries == e[listKey := CacheEntry(Some(list), false)];
    InvalidateEach(client, Invalidations(m));
  }

  /** Any other hook: after the mutation function resolves, `onSuccess`
      invalidates its filters; a thrown call changes nothing. */
  method RunMutation(client: QueryClient, m: MutationHook, outcome: Call<ApiResponse<Row>>)
    requires m != UseDeleteFolder && m != UseDeleteDocument
    modifies client
    ensures client.entries == InvalidateAll(old(client.entries), InvalidatedAfter(m, outcome.Threw?))
  {
    if outcome.Returned? {
      InvalidateEach(client, Invalidations(m));
    } else {
      assert InvalidatedAfter(m, true) == [];
    }
  }
}
