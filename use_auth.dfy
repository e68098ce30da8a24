/**
 * The client-side session check: the browser's cookie string is split
 * into `name=value` rows, a row starting with `mydms_session=` means a
 * session, and a visitor without one is sent to `/login`.
 */
module UseAuth {
  import opened Common

  const SessionPrefix: string := "mydms_session="
  const RowSeparator: string := "; "
  const LoginPath: string := "/login"

  /** `rows.find(row => row.startsWith('mydms_session='))`: the first row
      naming the session cookie. */
  function FindSessionRow(rows: seq<string>): (r: Option<string>)
    ensures r.None? <==> forall k :: 0 <= k < |rows| ==> !StartsWith(rows[k], SessionPrefix)
    ensures r.Some? ==>
      exists k :: 0 <= k < |rows| && rows[k] == r.value && StartsWith(rows[k], SessionPrefix) && forall j :: 0 <= j < k ==> !StartsWith(rows[j], SessionPrefix)
  {
    if rows == [] then None
    else if StartsWith(rows[0], SessionPrefix) then Some(rows[0])
    else
      var r := FindSessionRow(rows[1..]);
      assert forall k :: 1 <= k < |rows| ==> rows[k] == rows[1..][k - 1];
      if r.Some? then
        var k :| 0 <= k < |rows[1..]| && rows[1..][k] == r.value && StartsWith(rows[1..][k], SessionPrefix)
          && forall j :: 0 <= j < k ==> !StartsWith(rows[1..][j], SessionPrefix);
        assert rows[k + 1] == r.value;
        r
      else
        r
  }

  /** Whether the effect takes the authenticated branch: exactly when some
      row of the cookie string split at `'; '` starts with the session
      prefix. */
  predicate IsAuthenticated(cookie: string)
    ensures IsAuthenticated(cookie) ==>
      exists k :: 0 <= k < |Split(cookie, RowSeparator)| && StartsWith(Split(cookie, RowSeparator)[k], SessionPrefix)
    ensures (exists k :: 0 <= k < |Split(cookie, RowSeparator)| && StartsWith(Split(cookie, RowSeparator)[k], SessionPrefix))
      ==> IsAuthenticated(cookie)
  {
    var rows := Split(cookie, RowSeparator);
    var found := FindSessionRow(rows);
    assert found.None? <==> forall k :: 0 <= k < |rows| ==> !StartsWith(rows[k], SessionPrefix);
    found.Some?
  }

  /** A session row found is a non-empty string, so the `if` on it takes
      the authenticated branch whenever a row was found. */
  lemma SessionRowIsTruthy(cookie: string)
    requires IsAuthenticated(cookie)
    ensures FindSessionRow(Split(cookie, RowSeparator)).value != ""
  {
  }

  /** A cookie string in which `'; '` never occurs is one row: it counts
      exactly when it starts with the session prefix. */
  lemma SingleRow(cookie: string)
    requires forall i :: 0 <= i < |cookie| ==> !OccursAt(cookie, RowSeparator, i)
    ensures IsAuthenticated(cookie) <==> StartsWith(cookie, SessionPrefix)
  {
    SplitWithoutOccurrence(cookie, RowSeparator);
  }

  /** A session row after another cookie counts, whatever its value. */
  lemma SessionRowAfterAnother(first: string, value: string)
    requires ';' !in first && ';' !in value
    ensures IsAuthenticated(first + RowSeparator + SessionPrefix + value)
  {
    var session := SessionPrefix + value;
    assert ';' !in session;
    SplitWithoutSep(session, RowSeparator, 0);
    SplitFirstPiece(first, RowSeparator, session);
    assert first + RowSeparator + session == first + RowSeparator + SessionPrefix + value;
    assert StartsWith(session, SessionPrefix);
  }

  /** An empty session value counts. */
  lemma EmptySessionValueCounts()
    ensures IsAuthenticated("mydms_session=")
  {
    SplitWithoutSep("mydms_session=", RowSeparator, 0);
    assert StartsWith("mydms_session=", SessionPrefix);
  }

  /** A name that merely ends in `mydms_session` does not count. */
  lemma LongerNameDoesNotCount()
    ensures !IsAuthenticated("xmydms_session=1")
  {
    SplitWithoutSep("xmydms_session=1", RowSeparator, 0);
    assert "xmydms_session=1"[0] != SessionPrefix[0];
  }

  /** Rows joined without the space are one row, so a session cookie
      after another does not count then. */
  lemma RowsWithoutSpaceDoNotSplit()
    ensures !IsAuthenticated("t=1;mydms_session=abc")
  {
    SplitWithoutSep("t=1;mydms_session=abc", RowSeparator, 1);
    assert "t=1;mydms_session=abc"[0] != SessionPrefix[0];
  }

  /** The hook's state: `isAuthenticated` is null until the effect ran,
      and `pushes` records the navigations it requested. */
  class AuthHook {
    var isAuthenticated: Option<bool>
    var loading: bool
    var pushes: seq<string>

    constructor ()
      ensures isAuthenticated == None && loading && pushes == []
      ensures Result() == None
    {
      isAuthenticated := None;
      loading := true;
      pushes := [];
    }

    /** What the hook returns: null while loading, then the boolean. */
    function Result(): Option<bool>
      reads this
    {
      if loading then None else isAuthenticated
    }

    /** The effect, for the current cookie string and pathname: it records
        whether a session row exists and, without one and away from the
        login page, navigates to `/login`. */
    method RunEffect(cookie: string, pathname: string)
      modifies this
      ensures Result() == Some(IsAuthenticated(cookie))
      ensures !loading && isAuthenticated == Some(IsAuthenticated(cookie))
      ensures pushes == old(pushes) + (if !IsAuthenticated(cookie) && pathname != LoginPath then [LoginPath] else [])
    {
      var sessionRow := FindSessionRow(Split(cookie, RowSeparator));
      if sessionRow.Some? {
        isAuthenticated := Some(true);
      } else {
        isAuthenticated := Some(false);
        if pathname != LoginPath {
          pushes := pushes + [LoginPath];
        }
      }
      loading := false;
    }
  }
}
