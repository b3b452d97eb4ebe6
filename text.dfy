/** The few JavaScript string operations the core relies on: `trim`,
    `includes`, and the truthiness of an optional string (`x || y`). */
module Text {
  import opened Wrappers

  /** The characters `String.prototype.trim` removes: the ECMAScript
      WhiteSpace code points (tab, vertical tab, form feed, space, no-break
      space, byte-order mark and the Unicode space separators) and the
      LineTerminator code points. */
  predicate IsWhitespace(c: char) {
    || c == '\t' || c == '\n' || c == '\U{0B}' || c == '\U{0C}' || c == '\r'
    || c == ' ' || c == '\U{A0}' || c == '\U{1680}'
    || ('\U{2000}' <= c <= '\U{200A}')
    || c == '\U{2028}' || c == '\U{2029}' || c == '\U{202F}' || c == '\U{205F}'
    || c == '\U{3000}' || c == '\U{FEFF}'
  }

  /** `s` with its leading whitespace removed: a suffix of `s`. */
  function TrimStart(s: string): (r: string)
    ensures |r| <= |s| && r == s[|s| - |r|..]
    ensures forall k :: 0 <= k < |s| - |r| ==> IsWhitespace(s[k])
    ensures r != [] ==> !IsWhitespace(r[0])
  {
    if s != [] && IsWhitespace(s[0]) then TrimStart(s[1..]) else s
  }

  /** `s` with its trailing whitespace removed: a prefix of `s`. */
  function TrimEnd(s: string): (r: string)
    ensures |r| <= |s| && r == s[..|r|]
    ensures forall k :: |r| <= k < |s| ==> IsWhitespace(s[k])
    ensures r != [] ==> !IsWhitespace(r[|r| - 1])
  {
    if s != [] && IsWhitespace(s[|s| - 1]) then TrimEnd(s[..|s| - 1]) else s
  }

  /** Every character of `s` before index `i` or from index `j` on is whitespace. */
  predicate OnlyWhitespaceOutside(s: string, i: int, j: int) {
    forall k :: 0 <= k < |s| && !(i <= k < j) ==> IsWhitespace(s[k])
  }

  /** `s.trim()`: the slice of `s` between its leading and trailing whitespace. */
  function Trim(s: string): (r: string)
    ensures |r| <= |s|
    ensures r != [] ==> !IsWhitespace(r[0]) && !IsWhitespace(r[|r| - 1])
    ensures exists i, j :: 0 <= i <= j <= |s| && r == s[i..j] && OnlyWhitespaceOutside(s, i, j)
  {
    var t := TrimStart(s);
    var r := TrimEnd(t);
    TrimIsSlice(s, t, r);
    r
  }

  /** Trimming a suffix `t` of `s` down to its prefix `r` leaves a slice of `s`
      with only whitespace outside it. */
  lemma TrimIsSlice(s: string, t: string, r: string)
    requires |t| <= |s| && t == s[|s| - |t|..]
    requires forall k :: 0 <= k < |s| - |t| ==> IsWhitespace(s[k])
    requires |r| <= |t| && r == t[..|r|]
    requires forall k :: |r| <= k < |t| ==> IsWhitespace(t[k])
    ensures r == s[|s| - |t|..|s| - |t| + |r|]
    ensures OnlyWhitespaceOutside(s, |s| - |t|, |s| - |t| + |r|)
  {
    var i := |s| - |t|;
    SliceOfSuffix(s, i, |r|);
    forall k | 0 <= k < |s| && !(i <= k < i + |r|)
      ensures IsWhitespace(s[k])
    {
      if k >= i {
        WhitespaceInSuffix(s, t, r, k);
      }
    }
  }

  /** A prefix of a suffix is a slice. */
  lemma SliceOfSuffix<T>(s: seq<T>, i: int, n: int)
    requires 0 <= i && 0 <= n && i + n <= |s|
    ensures s[i..][..n] == s[i..i + n]
  {
  }

  /** A character `TrimEnd` dropped from the suffix `t` of `s` is whitespace. */
  lemma WhitespaceInSuffix(s: string, t: string, r: string, k: int)
    requires |t| <= |s| && t == s[|s| - |t|..]
    requires |r| <= |t| && forall m :: |r| <= m < |t| ==> IsWhitespace(t[m])
    requires |s| - |t| + |r| <= k < |s|
    ensures IsWhitespace(s[k])
  {
    assert s[k] == t[k - (|s| - |t|)];
  }

  /** `!s.trim()`: the trimmed string is empty, hence falsy. */
  predicate IsBlank(s: string) {
    Trim(s) == []
  }

  /** A string is blank exactly when every one of its characters is whitespace. */
  lemma BlankIffAllWhitespace(s: string)
    ensures IsBlank(s) <==> forall k :: 0 <= k < |s| ==> IsWhitespace(s[k])
  {
    if k :| 0 <= k < |s| && !IsWhitespace(s[k]) {
      NonWhitespaceSurvivesTrim(s, k);
    } else {
      AllWhitespaceTrimsAway(s);
    }
  }

  /** Leading-whitespace removal consumes a string made only of whitespace. */
  lemma {:induction false} AllWhitespaceTrimsAway(s: string)
    requires forall k :: 0 <= k < |s| ==> IsWhitespace(s[k])
    ensures TrimStart(s) == []
    decreases |s|
  {
    if s != [] {
      assert IsWhitespace(s[0]);
      AllWhitespaceTrimsAway(s[1..]);
    }
  }

  /** A non-whitespace character keeps the trimmed string non-empty. */
  lemma NonWhitespaceSurvivesTrim(s: string, k: int)
    requires 0 <= k < |s| && !IsWhitespace(s[k])
    ensures Trim(s) != []
  {
    var t := TrimStart(s);
    var j := k - (|s| - |t|);
    assert 0 <= j < |t|;
    assert t[j] == s[k];
    var r := TrimEnd(t);
    assert j < |r|;
  }

  /** `sub` occurs in `s` starting at index `i`. */
  predicate OccursAt(s: string, sub: string, i: int) {
    0 <= i <= |s| - |sub| && s[i..i + |sub|] == sub
  }

  /** `s.includes(sub)`, written as a scan: `sub` is a prefix of `s` or of one of its suffixes. */
  predicate Contains(s: string, sub: string)
    decreases |s|
  {
    (|sub| <= |s| && s[..|sub|] == sub) || (s != [] && Contains(s[1..], sub))
  }

  /** The scan agrees with the definition of `includes`: some index holds an occurrence. */
  lemma {:induction false} ContainsIffOccurs(s: string, sub: string)
    ensures Contains(s, sub) <==> exists i :: OccursAt(s, sub, i)
    decreases |s|
  {
    if |sub| <= |s| && s[..|sub|] == sub {
      assert OccursAt(s, sub, 0);
    } else if s == [] {
      assert forall i :: !OccursAt(s, sub, i);
    } else {
      ContainsIffOccurs(s[1..], sub);
      if exists i :: OccursAt(s[1..], sub, i) {
        var i :| OccursAt(s[1..], sub, i);
        OccursShift(s, sub, i + 1);
      }
      if exists i :: OccursAt(s, sub, i) {
        var i :| OccursAt(s, sub, i);
        assert i != 0;
        OccursShift(s, sub, i);
      }
    }
  }

  /** An occurrence at `i >= 1` in `s` is one at `i - 1` in its tail, and back. */
  lemma OccursShift(s: string, sub: string, i: int)
    requires s != [] && 1 <= i
    ensures OccursAt(s, sub, i) <==> OccursAt(s[1..], sub, i - 1)
  {
    if i <= |s| - |sub| {
      assert s[1..][i - 1..i - 1 + |sub|] == s[i..i + |sub|];
    }
  }

  /** JavaScript truthiness of an optional string: present and non-empty. */
  predicate Truthy(o: Option<string>) {
    o.Some? && o.value != ""
  }

  /** `a || b` for an optional string `a` and a string `b`. */
  function OrElse(a: Option<string>, b: string): string {
    if Truthy(a) then a.value else b
  }
}
