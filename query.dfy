/**
 * The query hooks of the client: each one builds a query key and an
 * options object (`enabled`, `select`) around one backend read.  Keys
 * are arrays of strings and numbers; the cache matches a key against an
 * invalidation filter by prefix.
 */
module Query {
  import opened Common

  /** One element of a query key: a string or a number. */
  datatype KeyPart = Str(s: string) | Num(n: int)

  type QueryKey = seq<KeyPart>

  /** Partial matching: `prefix` covers `key` when `key` starts with it. */
  predicate IsPrefix(prefix: QueryKey, key: QueryKey) {
    |prefix| <= |key| && key[..|prefix|] == prefix
  }

  datatype Relation = Info | Children | Path

  function RelationName(r: Relation): string {
    match r
    case Info => "info"
    case Children => "children"
    case Path => "path"
  }

  /** The backend read a hook issues. */
  datatype Fetch =
    | GetFolderInfo(folderId: int)
    | GetChildrenFolders(folderId: int)
    | GetFolderPath(folderId: int)
    | GetAccount
    | GetDocumentInfo(documentId: string)
    | GetDocumentContent(documentId: string)

  /** What `select` hands to the component: the whole fetched value, or
      only its `data` field. */
  datatype Select = WholeResult | DataField

  datatype QueryOptions = QueryOptions(queryKey: QueryKey, queryFn: Fetch, enabled: bool, select: Select)

  /** The six hooks, by their arguments. */
  datatype Hook =
    | UseFolderInfo(folderId: int)
    | UseFolderChildren(folderId: int)
    | UseFolderPath(folderId: int)
    | UseAccount
    | UseDocumentInfo(documentId: string)
    | UseDocumentContent(documentId: string)

  function FolderKey(folderId: int, r: Relation): QueryKey {
    [Str("folder"), Num(folderId), Str(RelationName(r))]
  }

  function AccountKey(): QueryKey {
    [Str("account")]
  }

  function DocumentInfoKey(documentId: string): QueryKey {
    [Str("documents"), Str(documentId)]
  }

  function DocumentContentKey(documentId: string): QueryKey {
    [Str("documentContent"), Str(documentId)]
  }

  /** The options object each hook passes to `useQuery`.  Hooks without
      `enabled` or `select` use the library defaults: always enabled, the
      fetched value unchanged. */
  function Options(h: Hook): (o: QueryOptions)
    ensures h.UseDocumentInfo? || h.UseDocumentContent? ==> (o.enabled <==> h.documentId != "")
    ensures !h.UseDocumentInfo? && !h.UseDocumentContent? ==> o.enabled
    ensures o.select == DataField <==> h.UseDocumentInfo?
  {
    match h
    case UseFolderInfo(id) => QueryOptions(FolderKey(id, Info), GetFolderInfo(id), true, WholeResult)
    case UseFolderChildren(id) => QueryOptions(FolderKey(id, Children), GetChildrenFolders(id), true, WholeResult)
    case UseFolderPath(id) => QueryOptions(FolderKey(id, Path), GetFolderPath(id), true, WholeResult)
    case UseAccount => QueryOptions(AccountKey(), GetAccount, true, WholeResult)
    case UseDocumentInfo(d) => QueryOptions(DocumentInfoKey(d), GetDocumentInfo(d), d != "", DataField)
    case UseDocumentContent(d) => QueryOptions(DocumentContentKey(d), GetDocumentContent(d), d != "", WholeResult)
  }

  /** What a component receives from a fetched value. */
  datatype Delivered<T> = Whole(response: ApiResponse<T>) | DataOnly(data: Option<T>)

  /** `select` applied to a fetched response: the document-info hook
      projects the envelope to its `data` field, every other hook passes
      the response through unchanged. */
  function Selected<T>(h: Hook, response: ApiResponse<T>): (r: Delivered<T>)
    ensures h.UseDocumentInfo? ==> r == DataOnly(response.data)
    ensures !h.UseDocumentInfo? ==> r == Whole(response)
  {
    match Options(h).select
    case WholeResult => Whole(response)
    case DataField => DataOnly(response.data)
  }

  /** Two hooks share a key only when they are the same hook with the
      same argument: no two queries collide in the cache. */
  lemma KeysDistinct(h1: Hook, h2: Hook)
    requires Options(h1).queryKey == Options(h2).queryKey
    ensures h1 == h2
  {
    var k := Options(h1).queryKey;
    match h1
    case UseFolderInfo(_) =>
      assert k[2] == Str("info");
    case UseFolderChildren(_) =>
      assert k[2] == Str("children");
    case UseFolderPath(_) =>
      assert k[2] == Str("path");
    case UseAccount =>
    case UseDocumentInfo(_) =>
      assert k[0] == Str("documents");
    case UseDocumentContent(_) =>
      assert k[0] == Str("documentContent");
  }

  /** Invalidating `['folder']` covers the three folder queries of every
      folder id, and nothing else that these hooks build. */
  lemma FolderPrefixCoversExactlyFolderQueries(h: Hook)
    ensures IsPrefix([Str("folder")], Options(h).queryKey)
      <==> h.UseFolderInfo? || h.UseFolderChildren? || h.UseFolderPath?
  {
    var k := Options(h).queryKey;
    if h.UseAccount? || h.UseDocumentInfo? || h.UseDocumentContent? {
      assert k[0] != Str("folder");
    }
  }

  /** `['documents']` covers the document-info query of every id, and not
      the content query, whose key starts with `'documentContent'`. */
  lemma DocumentsPrefixCoversExactlyDocumentInfo(h: Hook)
    ensures IsPrefix([Str("documents")], Options(h).queryKey) <==> h.UseDocumentInfo?
  {
    var k := Options(h).queryKey;
    if !h.UseDocumentInfo? {
      assert k[0] != Str("documents");
    }
  }

  /** No key built here starts with `'folders'` or `'files'`, so filters
      on those prefixes refresh none of these queries. */
  lemma NoFoldersOrFilesKey(h: Hook)
    ensures !IsPrefix([Str("folders")], Options(h).queryKey)
    ensures !IsPrefix([Str("files")], Options(h).queryKey)
  {
    var k := Options(h).queryKey;
    assert k[0] != Str("folders") && k[0] != Str("files");
  }

  /** The filter `['folder', 'children']` covers none of these queries:
      the second element of every folder key is a number. */
  lemma FolderChildrenPrefixCoversNothing(h: Hook)
    ensures !IsPrefix([Str("folder"), Str("children")], Options(h).queryKey)
  {
    var k := Options(h).queryKey;
    if |k| >= 2 && k[0] == Str("folder") {
      assert k[1].Num?;
    }
  }
}
