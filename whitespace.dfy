/**
 * Python's notion of whitespace on `str`, and `str.strip()` without
 * arguments, which removes it from both ends.
 */
module Whitespace {

  /**
   * The characters for which `str.isspace()` holds. The regular expression
   * class `\s` of a `str` pattern matches exactly these, and `str.strip()`
   * removes exactly these.
   */
  predicate IsSpace(c: char) {
    || c == ' '
    || ('\t' <= c <= '\r')            // tab, line feed, vertical tab, form feed, carriage return
    || ('\U{1C}' <= c <= '\U{1F}')     // file, group, record and unit separators
    || c == '\U{85}' || c == '\U{A0}'
    || c == '\U{1680}'
    || ('\U{2000}' <= c <= '\U{200A}')
    || c == '\U{2028}' || c == '\U{2029}'
    || c == '\U{202F}' || c == '\U{205F}' || c == '\U{3000}'
  }

  predicate AllSpace(s: string) {
    forall k :: 0 <= k < |s| ==> IsSpace(s[k])
  }

  /** The first position at or after `i` whose character is not whitespace, or `|s|`. */
  function SkipForward(s: string, i: nat): (j: nat)
    requires i <= |s|
    ensures i <= j <= |s|
    decreases |s| - i
  {
    if i < |s| && IsSpace(s[i]) then SkipForward(s, i + 1) else i
  }

  /** `SkipForward` passes over whitespace only, and stops at a character that is not whitespace. */
  lemma {:induction false} SkipForwardStops(s: string, i: nat)
    requires i <= |s|
    ensures var j := SkipForward(s, i);
      && AllSpace(s[i..j])
      && (j < |s| ==> !IsSpace(s[j]))
    decreases |s| - i
  {
    if i < |s| && IsSpace(s[i]) {
      SkipForwardStops(s, i + 1);
      var j := SkipForward(s, i);
      assert s[i..j] == [s[i]] + s[i + 1..j];
    }
  }

  /**
   * Moving back from `j`, but not below `lo`, the first position whose
   * preceding character is not whitespace.
   */
  function SkipBackward(s: string, lo: nat, j: nat): (e: nat)
    requires lo <= j <= |s|
    ensures lo <= e <= j
    decreases j
  {
    if lo < j && IsSpace(s[j - 1]) then SkipBackward(s, lo, j - 1) else j
  }

  /** `SkipBackward` passes over whitespace only, and stops after a character that is not whitespace. */
  lemma {:induction false} SkipBackwardStops(s: string, lo: nat, j: nat)
    requires lo <= j <= |s|
    ensures var e := SkipBackward(s, lo, j);
      && AllSpace(s[e..j])
      && (lo < e ==> !IsSpace(s[e - 1]))
    decreases j
  {
    if lo < j && IsSpace(s[j - 1]) {
      SkipBackwardStops(s, lo, j - 1);
      var e := SkipBackward(s, lo, j);
      assert s[e..j] == s[e..j - 1] + [s[j - 1]];
    }
  }

  /**
   * `s.strip()`: the start is found scanning forward, then the end scanning
   * back down to the start.
   */
  function Strip(s: string): string {
    var i := SkipForward(s, 0);
    s[i..SkipBackward(s, i, |s|)]
  }

  /**
   * The result of `strip` is empty exactly when `s` is all whitespace, and
   * otherwise neither starts nor ends with whitespace.
   */
  lemma StripEnds(s: string)
    ensures var r := Strip(s);
      && |r| <= |s|
      && (r == [] <==> AllSpace(s))
      && (r != [] ==> !IsSpace(r[0]) && !IsSpace(r[|r| - 1]))
  {
    var i := SkipForward(s, 0);
    var e := SkipBackward(s, i, |s|);
    SkipForwardStops(s, 0);
    SkipBackwardStops(s, i, |s|);
    assert s[0..i] == s[..i];
    if i == |s| {
      assert s[..i] == s;
    } else {
      assert s[i..e] == s[i..|s|] || i < e;
      assert !AllSpace(s) by {
        assert !IsSpace(s[i]);
      }
    }
  }

  /**
   * What `strip` removes is whitespace and only whitespace: the result is the
   * slice of `s` that starts at the first non-whitespace character, and
   * everything before and after that slice is whitespace.
   */
  lemma StripKeepsMiddle(s: string)
    ensures var r, i := Strip(s), SkipForward(s, 0);
      && i + |r| <= |s|
      && r == s[i..i + |r|]
      && AllSpace(s[..i])
      && AllSpace(s[i + |r|..])
  {
    var i := SkipForward(s, 0);
    var e := SkipBackward(s, i, |s|);
    SkipForwardStops(s, 0);
    SkipBackwardStops(s, i, |s|);
    assert s[0..i] == s[..i];
    assert s[e..|s|] == s[e..];
  }

  /** Stripping twice is stripping once. */
  lemma StripIdempotent(s: string)
    ensures Strip(Strip(s)) == Strip(s)
  {
    var r := Strip(s);
    StripEnds(s);
    if r != [] {
      assert SkipForward(r, 0) == 0;
      assert SkipBackward(r, 0, |r|) == |r|;
      assert r[0..|r|] == r;
    }
  }
}
