/**
 * The tag scanner: `re.findall(r'#[^\s#]*', content)`, with the tag marker
 * fixed to its default `#`.
 *
 * `findall` scans left to right. At a `#` it takes the `#` and the longest
 * following run of characters that are neither whitespace nor `#`, then
 * resumes after that run; any other character is skipped. Matches therefore
 * never overlap, and every `#` of the content starts exactly one match.
 */
module Tags {

  import opened Whitespace

  /** The default `tags_format` setting. */
  const Marker: char := '#'

  /** The character class `[^\s#]`. */
  predicate InTag(c: char) {
    !IsSpace(c) && c != Marker
  }

  /** A well-formed tag: the marker followed by characters of `[^\s#]`. */
  predicate IsTag(t: string) {
    |t| >= 1 && t[0] == Marker && forall k :: 1 <= k < |t| ==> InTag(t[k])
  }

  /** Every character of `w` is in the class `[^\s#]`. */
  predicate AllInTag(w: string) {
    forall k :: 0 <= k < |w| ==> InTag(w[k])
  }

  /** The end of the longest run of `[^\s#]` characters that starts at `j`. */
  function RunEnd(s: string, j: nat): (e: nat)
    requires j <= |s|
    ensures j <= e <= |s|
    decreases |s| - j
  {
    if j < |s| && InTag(s[j]) then RunEnd(s, j + 1) else j
  }

  /** The run is made of `[^\s#]` characters and cannot be extended. */
  lemma {:induction false} RunEndStops(s: string, j: nat)
    requires j <= |s|
    ensures var e := RunEnd(s, j);
      && AllInTag(s[j..e])
      && (e == |s| || !InTag(s[e]))
    decreases |s| - j
  {
    if j < |s| && InTag(s[j]) {
      RunEndStops(s, j + 1);
      var e := RunEnd(s, j);
      assert s[j..e] == [s[j]] + s[j + 1..e];
    }
  }

  /** The scanner, resumed at position `i` of `s`. */
  function ScanFrom(s: string, i: nat): (tags: seq<string>)
    requires i <= |s|
    decreases |s| - i
  {
    if i == |s| then []
    else if s[i] != Marker then ScanFrom(s, i + 1)
    else
      var e := RunEnd(s, i + 1);
      [s[i..e]] + ScanFrom(s, e)
  }

  /** `parse_tags(content)`. */
  function ParseTags(content: string): seq<string>
  {
    ScanFrom(content, 0)
  }

  // ---------------------------------------------------------------------
  // An independent description of the matches: one per marker position.
  // ---------------------------------------------------------------------

  /** The positions at or after `i` that hold a marker, in increasing order. */
  function MarkersFrom(s: string, i: nat): (ps: seq<nat>)
    requires i <= |s|
    ensures forall k :: 0 <= k < |ps| ==> i <= ps[k] < |s| && s[ps[k]] == Marker
    ensures forall k, l :: 0 <= k < l < |ps| ==> ps[k] < ps[l]
    ensures forall p :: i <= p < |s| && s[p] == Marker ==> p in ps
    decreases |s| - i
  {
    if i == |s| then []
    else if s[i] == Marker then [i] + MarkersFrom(s, i + 1)
    else MarkersFrom(s, i + 1)
  }

  /**
   * The match that starts at the marker at position `p`: a well-formed tag,
   * found at `p` in `s`, and maximal — it is followed by the end of `s`,
   * by whitespace or by another marker.
   */
  function TagAt(s: string, p: nat): (t: string)
    requires p < |s| && s[p] == Marker
    ensures IsTag(t)
    ensures p + |t| <= |s| && t == s[p..p + |t|]
    ensures p + |t| == |s| || IsSpace(s[p + |t|]) || s[p + |t|] == Marker
  {
    RunEndStops(s, p + 1);
    s[p..RunEnd(s, p + 1)]
  }

  /** Skipping a stretch without markers skips no marker positions. */
  lemma {:induction false} MarkersSkip(s: string, a: nat, b: nat)
    requires a <= b <= |s|
    requires forall k :: a <= k < b ==> s[k] != Marker
    ensures MarkersFrom(s, a) == MarkersFrom(s, b)
    decreases b - a
  {
    if a < b {
      MarkersSkip(s, a + 1, b);
    }
  }

  /** A run of `[^\s#]` characters holds no marker. */
  lemma RunHasNoMarker(s: string, a: nat, b: nat)
    requires a <= b <= |s| && AllInTag(s[a..b])
    ensures forall k :: a <= k < b ==> s[k] != Marker
  {
    forall k | a <= k < b
      ensures s[k] != Marker
    {
      assert s[k] == s[a..b][k - a];
    }
  }

  /** From position `i` on, the scanner yields the match at each marker, in order. */
  lemma {:induction false} ScanFollowsMarkers(s: string, i: nat)
    requires i <= |s|
    ensures var tags := ScanFrom(s, i); var ps := MarkersFrom(s, i);
      && |tags| == |ps|
      && forall k :: 0 <= k < |tags| ==> tags[k] == TagAt(s, ps[k])
    decreases |s| - i
  {
    if i < |s| {
      if s[i] != Marker {
        ScanFollowsMarkers(s, i + 1);
      } else {
        var e := RunEnd(s, i + 1);
        RunEndStops(s, i + 1);
        RunHasNoMarker(s, i + 1, e);
        MarkersSkip(s, i + 1, e);
        ScanFollowsMarkers(s, e);
        var tags, ps := ScanFrom(s, e), MarkersFrom(s, e);
        assert ScanFrom(s, i) == [s[i..e]] + tags;
        assert MarkersFrom(s, i) == [i] + ps;
        assert TagAt(s, i) == s[i..e];
      }
    }
  }

  /**
   * `parse_tags` returns one tag per `#` of the content, in the left-to-right
   * order of the markers, and the k-th tag is the maximal match at the k-th
   * marker.
   */
  lemma ParseTagsPerMarker(content: string)
    ensures var tags := ParseTags(content); var ps := MarkersFrom(content, 0);
      && |tags| == |ps|
      && forall k :: 0 <= k < |tags| ==> tags[k] == TagAt(content, ps[k])
  {
    ScanFollowsMarkers(content, 0);
  }

  /** Every string `parse_tags` returns is a well-formed tag. */
  lemma ParseTagsAreTags(content: string)
    ensures forall k :: 0 <= k < |ParseTags(content)| ==> IsTag(ParseTags(content)[k])
  {
    ParseTagsPerMarker(content);
  }

  /** Counting a character in `s[i..]`: the first character, then the rest. */
  lemma CountFirst(s: string, i: nat, c: char)
    requires i < |s|
    ensures multiset(s[i..])[c] == (if s[i] == c then 1 else 0) + multiset(s[i + 1..])[c]
  {
    assert s[i..] == [s[i]] + s[i + 1..];
  }

  /** The marker positions from `i` on are as many as the markers in `s[i..]`. */
  lemma {:induction false} MarkersCounted(s: string, i: nat)
    requires i <= |s|
    ensures |MarkersFrom(s, i)| == multiset(s[i..])[Marker]
    decreases |s| - i
  {
    if i < |s| {
      MarkersCounted(s, i + 1);
      CountFirst(s, i, Marker);
      assert |MarkersFrom(s, i)| == (if s[i] == Marker then 1 else 0) + |MarkersFrom(s, i + 1)|;
    }
  }

  /** The number of tags is the number of `#` characters in the content. */
  lemma ParseTagsCount(content: string)
    ensures |ParseTags(content)| == multiset(content)[Marker]
  {
    ParseTagsPerMarker(content);
    MarkersCounted(content, 0);
    assert content[0..] == content;
  }

  /** Content without `#` yields no tags. */
  lemma NoMarkerNoTags(content: string)
    requires Marker !in content
    ensures ParseTags(content) == []
  {
    ParseTagsCount(content);
    assert multiset(content)[Marker] == 0;
  }
}
