/**
 * The two JavaScript string operations the dashboard relies on:
 * `toLowerCase` and `includes`.
 */
module Text {

  /** Lower-cases one ASCII letter; every other character is kept. */
  function LowerChar(c: char): (d: char)
    ensures 'A' <= c <= 'Z' ==> 'a' <= d <= 'z'
    ensures !('A' <= c <= 'Z') ==> d == c
  {
    if 'A' <= c <= 'Z' then (c as int + 32) as char else c
  }

  /** `String.prototype.toLowerCase`, restricted to ASCII letters. */
  function ToLower(s: string): (r: string)
    ensures |r| == |s|
    ensures forall i :: 0 <= i < |s| ==> r[i] == LowerChar(s[i])
  {
    if s == [] then [] else [LowerChar(s[0])] + ToLower(s[1..])
  }

  /** A string without capital letters is its own lower-case form. */
  lemma ToLowerFixed(s: string)
    requires forall i :: 0 <= i < |s| ==> !('A' <= s[i] <= 'Z')
    ensures ToLower(s) == s
  {
  }

  /** `k` occurs in `s` starting at index `i`. */
  predicate OccursAt(s: string, k: string, i: int)
  {
    0 <= i && i + |k| <= |s| && s[i..i + |k|] == k
  }

  /** `String.prototype.includes`. */
  predicate Includes(s: string, k: string)
  {
    exists i | 0 <= i <= |s| - |k| :: OccursAt(s, k, i)
  }

  /** Lower-casing is idempotent. */
  lemma ToLowerIdempotent(s: string)
    ensures ToLower(ToLower(s)) == ToLower(s)
  {
    assert forall i :: 0 <= i < |s| ==> LowerChar(LowerChar(s[i])) == LowerChar(s[i]);
  }

  /** Every string includes the empty string. */
  lemma IncludesEmpty(s: string)
    ensures Includes(s, "")
  {
    assert OccursAt(s, "", 0);
  }

  /** A string includes its own suffix. */
  lemma IncludesSuffix(s: string, k: string)
    ensures Includes(s + k, k)
  {
    assert (s + k)[|s|..|s| + |k|] == k;
    assert OccursAt(s + k, k, |s|);
  }

  /** Containment is transitive. */
  lemma IncludesTransitive(t: string, s: string, k: string)
    requires Includes(t, s) && Includes(s, k)
    ensures Includes(t, k)
  {
    var i :| 0 <= i <= |t| - |s| && OccursAt(t, s, i);
    var j :| 0 <= j <= |s| - |k| && OccursAt(s, k, j);
    var window, found := t[i + j..i + j + |k|], s[j..j + |k|];
    assert window == found by {
      forall n | 0 <= n < |k| ensures window[n] == found[n] {
        assert t[i..i + |s|][j + n] == t[i + j + n];
        assert s[j + n] == t[i..i + |s|][j + n];
      }
    }
    assert OccursAt(t, k, i + j);
  }

  /** Lower-casing commutes with slicing. */
  lemma ToLowerSlice(s: string, a: int, b: int)
    requires 0 <= a <= b <= |s|
    ensures ToLower(s)[a..b] == ToLower(s[a..b])
  {
  }

  /** Lower-casing both sides preserves containment. */
  lemma IncludesToLower(t: string, s: string)
    requires Includes(t, s)
    ensures Includes(ToLower(t), ToLower(s))
  {
    var i :| 0 <= i <= |t| - |s| && OccursAt(t, s, i);
    ToLowerSlice(t, i, i + |s|);
    assert OccursAt(ToLower(t), ToLower(s), i);
  }

  /** A string cannot include a word with a character the string lacks. */
  lemma MissingCharExcludes(s: string, k: string, c: char)
    requires c in k && c !in s
    ensures !Includes(s, k)
  {
  }
}
