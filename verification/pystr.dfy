/**
 * The handful of Python `str` operations the sanitisers rely on:
 * `strip()`, `in`, `index`/`find` and `split("\n")[0]`.
 */
module PyStr {
  import opened Wrappers

  /** The characters for which Python's `str.isspace()` holds, i.e. what `strip()` removes. */
  predicate IsSpace(c: char) {
    c == ' ' || ('\t' <= c <= '\r') || ('\U{1c}' <= c <= '\U{1f}')
    || c == '\U{85}' || c == '\U{a0}' || c == '\U{1680}'
    || ('\U{2000}' <= c <= '\U{200a}') || c == '\U{2028}' || c == '\U{2029}'
    || c == '\U{202f}' || c == '\U{205f}' || c == '\U{3000}'
  }

  /** The first position at or after `i` that does not hold whitespace (`|s|` if none). */
  function SkipSpace(s: string, i: nat): (r: nat)
    requires i <= |s|
    decreases |s| - i
    ensures i <= r <= |s| && (r == |s| || !IsSpace(s[r]))
    ensures forall k :: i <= k < r ==> IsSpace(s[k])
  {
    if i < |s| && IsSpace(s[i]) then SkipSpace(s, i + 1) else i
  }

  /** The end of `s[lo..j]` once the whitespace before `j` is dropped. */
  function BackSpace(s: string, lo: nat, j: nat): (r: nat)
    requires lo <= j <= |s|
    decreases j
    ensures lo <= r <= j && (r == lo || !IsSpace(s[r - 1]))
    ensures forall k :: r <= k < j ==> IsSpace(s[k])
  {
    if lo < j && IsSpace(s[j - 1]) then BackSpace(s, lo, j - 1) else j
  }

  /** Where `Strip(s)` starts inside `s`. */
  function StripStart(s: string): (r: nat)
    ensures r <= |s|
  {
    SkipSpace(s, 0)
  }

  /** Where `Strip(s)` ends inside `s`. */
  function StripEnd(s: string): (r: nat)
    ensures StripStart(s) <= r <= |s|
  {
    BackSpace(s, StripStart(s), |s|)
  }

  /** Python's `s.strip()`: the slice of `s` left after dropping whitespace at both ends. */
  function Strip(s: string): (r: string) {
    s[StripStart(s)..StripEnd(s)]
  }

  /** `t` occurs in `s` starting at position `i`. */
  predicate OccursAt(s: string, t: string, i: int) {
    0 <= i && i + |t| <= |s| && s[i..i + |t|] == t
  }

  /** `s.find(t, from)`, with `None` for Python's -1. */
  function FindFrom(s: string, t: string, from: nat): (r: Option<nat>)
    decreases |s| - from
    ensures r.Some? ==> from <= r.value && OccursAt(s, t, r.value)
    ensures r.Some? ==> forall j :: from <= j < r.value ==> !OccursAt(s, t, j)
    ensures r.None? ==> forall j :: from <= j ==> !OccursAt(s, t, j)
  {
    if from + |t| > |s| then None
    else if OccursAt(s, t, from) then Some(from)
    else FindFrom(s, t, from + 1)
  }

  /** `s.find(t)`: the first occurrence; `s.index(t)` raises exactly when this is `None`. */
  function Find(s: string, t: string): (r: Option<nat>) {
    FindFrom(s, t, 0)
  }

  /** Python's `t in s`. */
  predicate Contains(s: string, t: string) {
    Find(s, t).Some?
  }

  /** `s.split("\n")[0]`: everything before the first line break. */
  function FirstLine(s: string): (r: string)
    ensures '\n' !in r
    ensures |r| <= |s| && r == s[..|r|]
    ensures |r| < |s| ==> s[|r|] == '\n'
  {
    if s == [] || s[0] == '\n' then [] else [s[0]] + FirstLine(s[1..])
  }

  // ---------------------------------------------------------------------------
  // Facts about strip

  /** `strip` leaves a string with no whitespace at either end. */
  lemma StripEnds(s: string)
    ensures var r := Strip(s); r == [] || (!IsSpace(r[0]) && !IsSpace(r[|r| - 1]))
  {
  }

  /** `strip` keeps exactly the text between the leading and the trailing whitespace runs. */
  lemma StripBetween(s: string, i: nat, j: nat)
    requires i < j <= |s| && !IsSpace(s[i]) && !IsSpace(s[j - 1])
    requires forall k :: 0 <= k < i ==> IsSpace(s[k])
    requires forall k :: j <= k < |s| ==> IsSpace(s[k])
    ensures Strip(s) == s[i..j]
  {
  }

  /** Stripping a string without surrounding whitespace leaves it as it is. */
  lemma StripTrimmed(s: string)
    requires s == [] || (!IsSpace(s[0]) && !IsSpace(s[|s| - 1]))
    ensures Strip(s) == s
  {
    if s != [] {
      StripBetween(s, 0, |s|);
    }
  }

  /** A space put in front of a trimmed string is stripped off again. */
  lemma StripAfterSpace(s: string)
    requires s == [] || (!IsSpace(s[0]) && !IsSpace(s[|s| - 1]))
    ensures Strip(" " + s) == s
  {
    var y := " " + s;
    if s != [] {
      assert y[0] == ' ' && y[1] == s[0] && y[|y| - 1] == s[|s| - 1];
      StripBetween(y, 1, |y|);
      assert y[1..] == s;
    }
  }

  /** Appending a trimmed string to one that does not start with whitespace gives a trimmed string. */
  lemma StripTrimmedConcat(a: string, b: string)
    requires b != [] && !IsSpace(b[0]) && !IsSpace(b[|b| - 1])
    requires a == [] || !IsSpace(a[0])
    ensures Strip(a + b) == a + b
  {
    var y := a + b;
    assert y[|y| - 1] == b[|b| - 1];
    assert y[0] == (if a == [] then b[0] else a[0]);
    StripTrimmed(y);
  }

  /** Stripping is idempotent. */
  lemma StripStrip(s: string)
    ensures Strip(Strip(s)) == Strip(s)
  {
    StripEnds(s);
    StripTrimmed(Strip(s));
  }

  /** Stripping never introduces a character. */
  lemma StripKeepsAbsent(s: string, ch: char)
    requires ch !in s
    ensures ch !in Strip(s)
  {
  }

  /** Text without a line break is its own first line. */
  lemma FirstLineWhole(s: string)
    requires '\n' !in s
    ensures FirstLine(s) == s
  {
  }

  // ---------------------------------------------------------------------------
  // Facts about occurrences

  /** Any occurrence is found: `Contains` is exactly "occurs somewhere". */
  lemma OccursContains(s: string, t: string, i: int)
    requires OccursAt(s, t, i)
    ensures Contains(s, t) && Find(s, t).value <= i
  {
  }

  /** Character `k` of an occurrence of `t` at `i` is `t[k]`. */
  lemma OccursAtChar(s: string, t: string, i: int, k: int)
    requires OccursAt(s, t, i) && 0 <= k < |t|
    ensures s[i + k] == t[k]
  {
    assert s[i..i + |t|][k] == s[i + k];
  }

  /** An occurrence inside a slice is an occurrence in the whole string. */
  lemma OccursInSlice(s: string, t: string, a: nat, b: nat, j: int)
    requires a <= b <= |s| && OccursAt(s[a..b], t, j)
    ensures OccursAt(s, t, a + j)
  {
    forall k | 0 <= k < |t|
      ensures s[a + j..a + j + |t|][k] == t[k]
    {
      assert s[a..b][j..j + |t|][k] == t[k];
    }
  }

  /** A string cannot contain `t` if some character of `t` does not occur in it. */
  lemma MissingCharNotContained(s: string, t: string, c: char)
    requires c in t && c !in s
    ensures !Contains(s, t)
  {
  }

  /**
   * A marker that starts and ends with a non-space character occurs in the stripped text
   * exactly when it occurs in the raw text, so testing the stripped text is the same as
   * testing the raw one.
   */
  lemma ContainsStripped(s: string, t: string)
    requires |t| > 0 && !IsSpace(t[0]) && !IsSpace(t[|t| - 1])
    ensures Contains(Strip(s), t) <==> Contains(s, t)
  {
    if Contains(Strip(s), t) {
      var j := Find(Strip(s), t).value;
      OccursInSlice(s, t, StripStart(s), StripEnd(s), j);
      OccursContains(s, t, StripStart(s) + j);
    }
    if Contains(s, t) {
      OccursInStripped(s, t, Find(s, t).value);
    }
  }

  /** An occurrence of a marker with non-space ends lies inside the stripped text. */
  lemma OccursInStripped(s: string, t: string, i: nat)
    requires |t| > 0 && !IsSpace(t[0]) && !IsSpace(t[|t| - 1])
    requires OccursAt(s, t, i)
    ensures Contains(Strip(s), t)
  {
    var a, b := StripStart(s), StripEnd(s);
    var e := i + |t| - 1;
    OccursAtChar(s, t, i, 0);
    OccursAtChar(s, t, i, |t| - 1);
    assert !IsSpace(s[i]) && !IsSpace(s[e]);
    assert a <= i;
    assert e < b;
    assert Strip(s)[i - a..i - a + |t|] == s[i..i + |t|];
    OccursContains(Strip(s), t, i - a);
  }
}
