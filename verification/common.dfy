/** Error values and the Go string helpers the core relies on. */
module Common {

  /** A Go `error` value; `Option<Error>` stands for `error` (None is nil). */
  datatype Error = Error(msg: string)

  datatype Option<T> = None | Some(value: T)

  datatype Result<T> = Success(value: T) | Failure(error: Error)

  /** A Docker container name as the daemon accepts it: non-empty, no slash. */
  predicate ValidName(n: string) {
    n != "" && '/' !in n
  }

  // ---------------------------------------------------------------------------
  // strings.Trim(s, "/")

  function TrimLeft(s: string): string {
    if |s| > 0 && s[0] == '/' then TrimLeft(s[1..]) else s
  }

  function TrimRight(s: string): string {
    if |s| > 0 && s[|s| - 1] == '/' then TrimRight(s[..|s| - 1]) else s
  }

  /** strings.Trim(s, "/"): drops every leading and every trailing '/'. */
  function TrimSlashes(s: string): string {
    TrimRight(TrimLeft(s))
  }

  /** TrimLeft leaves the suffix of `s` after its leading run of '/'. */
  lemma {:induction false} TrimLeftSuffix(s: string)
    ensures var r := TrimLeft(s);
      && |r| <= |s| && r == s[|s| - |r|..]
      && (r == [] || r[0] != '/')
      && forall i :: 0 <= i < |s| - |r| ==> s[i] == '/'
    decreases |s|
  {
    if |s| > 0 && s[0] == '/' {
      TrimLeftSuffix(s[1..]);
      var r := TrimLeft(s);
      assert r == TrimLeft(s[1..]);
      forall i | 0 <= i < |s| - |r| ensures s[i] == '/' {
        if i > 0 { assert s[i] == s[1..][i - 1]; }
      }
    }
  }

  /** TrimRight leaves the prefix of `s` before its trailing run of '/'. */
  lemma {:induction false} TrimRightPrefix(s: string)
    ensures var r := TrimRight(s);
      && |r| <= |s| && r == s[..|r|]
      && (r == [] || r[|r| - 1] != '/')
      && forall i :: |r| <= i < |s| ==> s[i] == '/'
    decreases |s|
  {
    if |s| > 0 && s[|s| - 1] == '/' {
      var t := s[..|s| - 1];
      TrimRightPrefix(t);
      var r := TrimRight(s);
      assert r == TrimRight(t);
      assert r == s[..|r|] by {
        assert t[..|r|] == s[..|r|];
      }
      forall i | |r| <= i < |s| ensures s[i] == '/' {
        if i < |s| - 1 { assert s[i] == t[i]; }
      }
    }
  }

  /** The trimmed string is the infix of `s` left once the slash runs at both ends are cut off. */
  lemma TrimSlashesInfix(s: string)
    ensures var r := TrimSlashes(s);
      exists i, j :: 0 <= i <= j <= |s| && r == s[i..j]
        && (forall k :: 0 <= k < i ==> s[k] == '/')
        && (forall k :: j <= k < |s| ==> s[k] == '/')
        && (r == [] || (r[0] != '/' && r[|r| - 1] != '/'))
  {
    var l := TrimLeft(s);
    var r := TrimRight(l);
    TrimLeftSuffix(s);
    TrimRightPrefix(l);
    var i := |s| - |l|;
    var j := i + |r|;
    assert r == s[i..j];
    assert forall k :: j <= k < |s| ==> s[k] == l[k - i];
  }

  /** Docker reports a container created as `n` under the name "/n"; trimming gives `n` back. */
  lemma TrimStoredName(n: string)
    requires ValidName(n)
    ensures TrimSlashes("/" + n) == n
  {
    assert ("/" + n)[1..] == n;
    assert n[0] in n;
    assert TrimLeft(n) == n;
    assert n[|n| - 1] in n;
    assert TrimRight(n) == n;
  }

  /** Only "/n" trims to `n` among the names the daemon stores ("/" followed by a valid name). */
  lemma TrimStoredNameInjective(a: string, b: string)
    requires ValidName(a) && ValidName(b)
    requires TrimSlashes("/" + a) == TrimSlashes("/" + b)
    ensures a == b
  {
    TrimStoredName(a);
    TrimStoredName(b);
  }

  // ---------------------------------------------------------------------------
  // strings.Contains(s, sub)

  function Contains(s: string, sub: string): bool
    decreases |s|
  {
    |sub| <= |s| && (s[..|sub|] == sub || Contains(s[1..], sub))
  }

  /** `sub` occurs in `s` starting at position `i`. */
  predicate OccursAt(s: string, sub: string, i: int) {
    0 <= i <= |s| - |sub| && s[i..i + |sub|] == sub
  }

  /** Contains agrees with "sub occurs at some position of s", in both directions. */
  lemma {:induction false} ContainsAt(s: string, sub: string)
    ensures Contains(s, sub) <==> exists i :: OccursAt(s, sub, i)
    decreases |s|
  {
    if |sub| <= |s| && s[..|sub|] != sub {
      ContainsAt(s[1..], sub);
      if exists i :: OccursAt(s, sub, i) {
        var i :| OccursAt(s, sub, i);
        assert i != 0;
        assert s[1..][i - 1..i - 1 + |sub|] == sub;
        assert OccursAt(s[1..], sub, i - 1);
      }
      if Contains(s[1..], sub) {
        var i :| OccursAt(s[1..], sub, i);
        assert s[i + 1..i + 1 + |sub|] == sub;
        assert OccursAt(s, sub, i + 1);
      }
    } else if |sub| <= |s| {
      assert OccursAt(s, sub, 0);
    }
  }

  // ---------------------------------------------------------------------------
  // path.Join of fixed segments

  /**
   * path.Join(a, b) for a directory a with no trailing slash and no `.` or
   * `..` elements and a plain segment b; the cleaning path.Join does is not
   * modelled.
   */
  function PathJoin(a: string, b: string): string {
    a + "/" + b
  }
}
