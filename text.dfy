/** String operations the resolver relies on: Python's `str.lower()`, the `in`
    substring test, the slice `s[0:n]` and the truthiness of an optional string. */
module Text {
  import opened Wrappers

  predicate IsUpper(c: char) {
    'A' <= c <= 'Z'
  }

  /** True when some character of `s` is an upper-case letter. */
  predicate HasUpper(s: string) {
    exists k :: 0 <= k < |s| && IsUpper(s[k])
  }

  function LowerChar(c: char): (d: char)
    ensures !IsUpper(d)
    ensures IsUpper(c) ==> d as int == c as int + 32
    ensures !IsUpper(c) ==> d == c
  {
    if IsUpper(c) then (c as int + 32) as char else c
  }

  /** `s.lower()`, for the ASCII letters. */
  function Lower(s: string): (r: string)
    ensures |r| == |s|
    ensures forall k :: 0 <= k < |s| ==> r[k] == LowerChar(s[k])
  {
    seq(|s|, k requires 0 <= k < |s| => LowerChar(s[k]))
  }

  /** Python truthiness of an `Optional[str]`: `None` and `""` are the only false values. */
  predicate Given(o: Option<string>)
    ensures Given(o) <==> o != None && o != Some("")
  {
    o.Some? && o.value != ""
  }

  predicate IsPrefix(p: string, s: string) {
    |p| <= |s| && s[..|p|] == p
  }

  /** `p in s` for two strings: `p` occurs as a contiguous block of `s`. */
  predicate IsSubstring(p: string, s: string)
    ensures IsSubstring(p, s) ==> |p| <= |s|
    ensures IsPrefix(p, s) ==> IsSubstring(p, s)
    decreases |s|
  {
    IsPrefix(p, s) || (s != [] && IsSubstring(p, s[1..]))
  }

  /** `p in s` holds exactly when `p` starts at some position of `s`. */
  lemma {:induction false} SubstringAt(p: string, s: string)
    ensures IsSubstring(p, s) <==> exists i :: 0 <= i <= |s| && IsPrefix(p, s[i..])
    decreases |s|
  {
    if s != [] {
      SubstringAt(p, s[1..]);
      forall i | 1 <= i <= |s|
        ensures s[i..] == s[1..][i - 1..]
      {
      }
      if exists i :: 0 <= i <= |s| && IsPrefix(p, s[i..]) {
        var i :| 0 <= i <= |s| && IsPrefix(p, s[i..]);
        if i > 0 {
          assert IsPrefix(p, s[1..][i - 1..]);
        } else {
          assert s[0..] == s;
        }
      }
      if IsSubstring(p, s) && !IsPrefix(p, s) {
        var i :| 0 <= i <= |s[1..]| && IsPrefix(p, s[1..][i..]);
        assert IsPrefix(p, s[i + 1..]);
      } else if IsPrefix(p, s) {
        assert s[0..] == s;
      }
    } else {
      assert s[0..] == s;
    }
  }

  /** The slice `s[0:n]`: the first `n` characters, or all of `s` when it is shorter. */
  function Take(s: string, n: nat): (r: string)
    ensures |r| == if |s| < n then |s| else n
    ensures IsPrefix(r, s)
  {
    if |s| <= n then s else s[..n]
  }

  /** Lower-casing twice is lower-casing once. */
  lemma LowerIdempotent(s: string)
    ensures Lower(Lower(s)) == Lower(s)
  {
  }

  /** Every character of a substring occurs, at some position, in the string that contains it. */
  lemma {:induction false} SubstringCharsOccur(p: string, s: string, k: nat)
    requires k < |p|
    ensures IsSubstring(p, s) ==> exists j :: 0 <= j < |s| && s[j] == p[k]
    decreases |s|
  {
    if IsPrefix(p, s) {
      assert s[..|p|][k] == p[k];
    } else if s != [] {
      SubstringCharsOccur(p, s[1..], k);
      if IsSubstring(p, s[1..]) {
        var j :| 0 <= j < |s[1..]| && s[1..][j] == p[k];
        assert s[j + 1] == p[k];
      }
    }
  }

  /** A string with an upper-case letter is never a substring of a lower-cased string. */
  lemma UpperNeverInLower(p: string, s: string)
    requires HasUpper(p)
    ensures !IsSubstring(p, Lower(s))
  {
    var k :| 0 <= k < |p| && IsUpper(p[k]);
    SubstringCharsOccur(p, Lower(s), k);
  }

  /** A string with an upper-case letter never equals a slice of a lower-cased string. */
  lemma UpperNeverTakenFromLower(p: string, s: string, n: nat)
    requires HasUpper(p)
    ensures p != Take(Lower(s), n)
  {
    var k :| 0 <= k < |p| && IsUpper(p[k]);
    if |p| == |Take(Lower(s), n)| {
      assert Take(Lower(s), n)[k] == Lower(s)[k];
    }
  }
}
