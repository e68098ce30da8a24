/**
 * Shared vocabulary of the client model: optional values, the uniform
 * `{success, message, data}` envelope every backend call answers with,
 * the outcome of one awaited backend call (it either returns or throws),
 * and the few JavaScript string operations the components rely on.
 */
module Common {

  datatype Option<+T> = None | Some(value: T) {
    function GetOr(default: T): T {
      match this
      case Some(v) => v
      case None => default
    }
  }

  /** The envelope `{success, message, data}` of every gateway response;
      `data` is absent when the backend sends `null`. */
  datatype ApiResponse<+T> = ApiResponse(success: bool, message: string, data: Option<T>)

  /** One awaited backend call, seen from the caller: it resolves with a
      value or the promise rejects (the `catch` branch of the caller). */
  datatype Call<+T> = Returned(value: T) | Threw

  /** `s.startsWith(p)` */
  predicate StartsWith(s: string, p: string) {
    |p| <= |s| && s[..|p|] == p
  }

  /** `s.endsWith(p)` */
  predicate EndsWith(s: string, p: string) {
    |p| <= |s| && s[|s| - |p|..] == p
  }

  /** `s.split(sep)` for a non-empty separator: the maximal pieces between
      non-overlapping occurrences of `sep`, scanning from the left. */
  function Split(s: string, sep: string): (parts: seq<string>)
    requires sep != []
    ensures |parts| >= 1
    decreases |s|
  {
    if |s| < |sep| then [s]
    else if s[..|sep|] == sep then [""] + Split(s[|sep|..], sep)
    else
      var rest := Split(s[1..], sep);
      [[s[0]] + rest[0]] + rest[1..]
  }

  /** `parts.join(sep)`, the inverse of `Split`. */
  function Join(parts: seq<string>, sep: string): string
    requires |parts| >= 1
  {
    if |parts| == 1 then parts[0] else parts[0] + sep + Join(parts[1..], sep)
  }

  /** The last element, as `Array.prototype.pop` returns it. */
  function Last<T>(s: seq<T>): T
    requires |s| >= 1
  {
    s[|s| - 1]
  }

  /** Joining the pieces of a split with the same separator gives the
      original string back. */
  lemma {:induction false} JoinSplit(s: string, sep: string)
    requires sep != []
    ensures Join(Split(s, sep), sep) == s
    decreases |s|
  {
    if |s| < |sep| {
    } else if s[..|sep|] == sep {
      var tail := s[|sep|..];
      JoinSplit(tail, sep);
      assert Split(s, sep) == [""] + Split(tail, sep);
      assert ([""] + Split(tail, sep))[1..] == Split(tail, sep);
      assert s == sep + tail;
    } else {
      JoinSplit(s[1..], sep);
      JoinConsFirst(s[0], Split(s[1..], sep), sep);
      assert s == [s[0]] + s[1..];
    }
  }

  /** Prefixing the first piece prefixes the joined string. */
  lemma JoinConsFirst(c: char, rest: seq<string>, sep: string)
    requires |rest| >= 1
    ensures Join([[c] + rest[0]] + rest[1..], sep) == [c] + Join(rest, sep)
  {
    var parts := [[c] + rest[0]] + rest[1..];
    if |rest| > 1 {
      assert parts[1..] == rest[1..];
      assert Join(parts, sep) == ([c] + rest[0]) + sep + Join(rest[1..], sep);
    }
  }

  /** Splitting on a single character leaves that character in no piece. */
  lemma {:induction false} SplitCharPieces(s: string, c: char)
    ensures forall i :: 0 <= i < |Split(s, [c])| ==> c !in Split(s, [c])[i]
    decreases |s|
  {
    var parts := Split(s, [c]);
    if |s| < 1 {
    } else if s[..1] == [c] {
      SplitCharPieces(s[1..], c);
      assert parts[1..] == Split(s[1..], [c]);
    } else {
      SplitCharPieces(s[1..], c);
      var rest := Split(s[1..], [c]);
      assert parts[1..] == rest[1..];
      assert s[0] != c by { assert s[..1] == [s[0]]; }
      forall i | 0 <= i < |parts| ensures c !in parts[i] {
        if i > 0 { assert parts[i] == rest[i]; }
      }
    }
  }

  /** `Join` peels its last piece off the end as well as its first one off
      the front. */
  lemma {:induction false} JoinLast(parts: seq<string>, sep: string)
    requires |parts| >= 2
    ensures Join(parts, sep) == Join(parts[..|parts| - 1], sep) + sep + Last(parts)
    decreases |parts|
  {
    if |parts| > 2 {
      JoinLast(parts[1..], sep);
      assert parts[1..][..|parts| - 2] == parts[..|parts| - 1][1..];
    }
  }

  /** The first piece of a split on `c` is the text before the first `c`:
      a prefix of the input without `c`, followed by `c` unless it is the
      whole input. */
  lemma FirstPieceBeforeFirstSep(s: string, c: char)
    ensures var p := Split(s, [c])[0];
      && c !in p && |p| <= |s| && s[..|p|] == p
      && (|p| < |s| ==> s[|p|] == c)
      && (c !in s ==> p == s)
  {
    var parts := Split(s, [c]);
    JoinSplit(s, [c]);
    SplitCharPieces(s, c);
    if |parts| > 1 {
      assert s == parts[0] + [c] + Join(parts[1..], [c]);
      assert s[|parts[0]|] == c;
    }
  }

  /** The last piece of a split on `c` is the text after the last `c`: a
      suffix of the input without `c`, preceded by `c` unless it is the
      whole input. */
  lemma LastPieceAfterLastSep(s: string, c: char)
    ensures var p := Last(Split(s, [c]));
      && c !in p && |p| <= |s| && s[|s| - |p|..] == p
      && (|p| < |s| ==> s[|s| - |p| - 1] == c)
      && (c !in s ==> p == s)
  {
    var parts := Split(s, [c]);
    JoinSplit(s, [c]);
    SplitCharPieces(s, c);
    if |parts| > 1 {
      JoinLast(parts, [c]);
      var front := Join(parts[..|parts| - 1], [c]);
      assert s == front + [c] + Last(parts);
      assert s[|s| - |Last(parts)| - 1] == c;
      assert s[|s| - |Last(parts)|..] == Last(parts);
    }
  }

  /** A split begins with an empty piece when the text starts with the
      separator. */
  lemma SplitAtSep(t: string, sep: string)
    requires sep != []
    ensures Split(sep + t, sep) == [""] + Split(t, sep)
  {
    assert (sep + t)[..|sep|] == sep;
    assert (sep + t)[|sep|..] == t;
  }

  /** A character that does not start a separator joins the first piece
      of the rest. */
  lemma SplitSkip(c: char, t: string, sep: string)
    requires sep != [] && |t| + 1 >= |sep| && ([c] + t)[..|sep|] != sep
    ensures Split([c] + t, sep) == [[c] + Split(t, sep)[0]] + Split(t, sep)[1..]
  {
    assert ([c] + t)[1..] == t;
  }

  /** Text missing some character of the separator is a single piece. */
  lemma {:induction false} SplitWithoutSep(s: string, sep: string, j: nat)
    requires sep != [] && j < |sep| && sep[j] !in s
    ensures Split(s, sep) == [s]
    decreases |s|
  {
    if |s| >= |sep| {
      assert s[..|sep|][j] == s[j];
      SplitWithoutSep(s[1..], sep, j);
      assert [s[0]] + s[1..] == s;
    }
  }

  /** `sep` occurs in `s` at position `i`. */
  predicate OccursAt(s: string, sep: string, i: nat) {
    i + |sep| <= |s| && s[i..i + |sep|] == sep
  }

  /** Text in which the separator never occurs is a single piece. */
  lemma {:induction false} SplitWithoutOccurrence(s: string, sep: string)
    requires sep != []
    requires forall i :: 0 <= i < |s| ==> !OccursAt(s, sep, i)
    ensures Split(s, sep) == [s]
    decreases |s|
  {
    if |s| >= |sep| {
      assert !OccursAt(s, sep, 0);
      var t := s[1..];
      forall i | 0 <= i < |t| ensures !OccursAt(t, sep, i) {
        assert !OccursAt(s, sep, i + 1);
        if i + |sep| <= |t| {
          assert t[i..i + |sep|] == s[i + 1..i + 1 + |sep|];
        }
      }
      SplitWithoutOccurrence(t, sep);
      assert [s[0]] + t == s;
    }
  }

  /** Text before the first separator, free of the separator's first
      character, is the first piece. */
  lemma {:induction false} SplitFirstPiece(a: string, sep: string, b: string)
    requires sep != [] && sep[0] !in a
    ensures Split(a + sep + b, sep) == [a] + Split(b, sep)
    decreases |a|
  {
    if a == [] {
      assert a + sep + b == sep + b;
      SplitAtSep(b, sep);
    } else {
      var t := a[1..] + sep + b;
      assert a + sep + b == [a[0]] + t;
      assert ([a[0]] + t)[..|sep|][0] == a[0];
      SplitSkip(a[0], t, sep);
      SplitFirstPiece(a[1..], sep, b);
      assert [a[0]] + a[1..] == a;
    }
  }
}
