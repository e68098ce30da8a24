/**
 * The shared query cache the hooks read and the mutations write: a map
 * from query keys to the cached data and a stale flag.  Only the three
 * operations the mutations use are modelled: reading the data of a key,
 * setting it, and invalidating every key that starts with a prefix.
 */
module QueryCache {
  import opened Common
  import opened Query

  /** A cached record; the mutations only look at its `id`. */
  datatype Row = Row(id: int, name: string)

  /** The data of one key (absent before any fetch or write) and whether
      it has been invalidated since it was last written. */
  datatype CacheEntry = CacheEntry(data: Option<seq<Row>>, stale: bool)

  type Entries = map<QueryKey, CacheEntry>

  /** Some filter of `prefixes` matches `key`. */
  predicate Covered(prefixes: seq<QueryKey>, key: QueryKey) {
    exists i :: 0 <= i < |prefixes| && IsPrefix(prefixes[i], key)
  }

  /** `invalidateQueries({queryKey: prefix})`: every cached key the
      prefix matches becomes stale; data and all other keys stay. */
  function MarkStale(e: Entries, prefix: QueryKey): (r: Entries)
    ensures r.Keys == e.Keys
    ensures forall k :: k in e ==> r[k].data == e[k].data
    ensures forall k :: k in e ==> (r[k].stale <==> e[k].stale || IsPrefix(prefix, k))
  {
    map k | k in e :: if IsPrefix(prefix, k) then e[k].(stale := true) else e[k]
  }

  /** Several `invalidateQueries` calls in a row, the last one outermost. */
  function InvalidateAll(e: Entries, prefixes: seq<QueryKey>): (r: Entries)
    ensures r.Keys == e.Keys
    ensures forall k :: k in e ==> r[k].data == e[k].data
    ensures forall k :: k in e ==> (r[k].stale <==> e[k].stale || Covered(prefixes, k))
    decreases |prefixes|
  {
    if prefixes == [] then e
    else
      var front := prefixes[..|prefixes| - 1];
      var r := MarkStale(InvalidateAll(e, front), Last(prefixes));
      assert forall k :: Covered(prefixes, k) <==> Covered(front, k) || IsPrefix(Last(prefixes), k) by {
        forall k ensures Covered(prefixes, k) <==> Covered(front, k) || IsPrefix(Last(prefixes), k) {
          if Covered(prefixes, k) {
            var i :| 0 <= i < |prefixes| && IsPrefix(prefixes[i], k);
            if i < |prefixes| - 1 { assert front[i] == prefixes[i]; }
          }
          if Covered(front, k) {
            var i :| 0 <= i < |front| && IsPrefix(front[i], k);
            assert prefixes[i] == front[i];
          }
        }
      }
      r
  }

  /** Invalidating with the same filters twice changes nothing more. */
  lemma InvalidateIdempotent(e: Entries, prefixes: seq<QueryKey>)
    ensures InvalidateAll(InvalidateAll(e, prefixes), prefixes) == InvalidateAll(e, prefixes)
  {
    var once := InvalidateAll(e, prefixes);
    var twice := InvalidateAll(once, prefixes);
    assert forall k :: k in twice ==> twice[k] == once[k];
  }

  /** The cache as `useQueryClient()` hands it to the mutation hooks. */
  class QueryClient {
    var entries: Entries

    constructor ()
      ensures entries == map[]
    {
      entries := map[];
    }

    /** `getQueryData(key)`: the data, absent for an unknown key. */
    function GetQueryData(key: QueryKey): Option<seq<Row>>
      reads this
    {
      if key in entries then entries[key].data else None
    }

    /** `setQueryData(key, data)`: writes the data and makes it fresh;
        every other key is left as it was. */
    method SetQueryData(key: QueryKey, data: seq<Row>)
      modifies this
      ensures entries == old(entries)[key := CacheEntry(Some(data), false)]
      ensures GetQueryData(key) == Some(data)
    {
      entries := entries[key := CacheEntry(Some(data), false)];
    }

    /** `invalidateQueries({queryKey: prefix})`. */
    method InvalidateQueries(prefix: QueryKey)
      modifies this
      ensures entries == MarkStale(old(entries), prefix)
    {
      entries := MarkStale(entries, prefix);
    }
  }
}
