/**
 * The server-side cookie check: whether every one of a list of cookie
 * names is present in the request's cookie store.
 */
module CheckAuth {
  /** `cookieNames.every(name => cookieStore.get(name) !== undefined)`,
      the store mapping cookie names to values. */
  function AllCookiesExist(names: seq<string>, store: map<string, string>): (r: bool)
    ensures r <==> forall k :: 0 <= k < |names| ==> names[k] in store
  {
    if names == [] then true
    else
      assert forall k :: 1 <= k < |names| ==> names[k] == names[1..][k - 1];
      names[0] in store && AllCookiesExist(names[1..], store)
  }

  /** The answer depends only on which names are asked for, not on their
      order or repetition, nor on the values stored: an empty list is
      always satisfied, and one missing name is enough to fail. */
  lemma AllCookiesExistBySet(a: seq<string>, b: seq<string>, store: map<string, string>, other: map<string, string>)
    requires forall name :: name in a <==> name in b
    requires store.Keys == other.Keys
    ensures AllCookiesExist(a, store) == AllCookiesExist(b, other)
    ensures AllCookiesExist([], store)
    ensures (exists k :: 0 <= k < |a| && a[k] !in store) ==> !AllCookiesExist(a, store)
  {
    if AllCookiesExist(a, store) {
      forall k | 0 <= k < |b| ensures b[k] in other {
        assert b[k] in b;
      }
    }
    if AllCookiesExist(b, other) {
      forall k | 0 <= k < |a| ensures a[k] in store {
        assert a[k] in a;
      }
    }
  }
}
