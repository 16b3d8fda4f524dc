/**
 * Log entries, and the pure part of `popup`: normalising the answer,
 * building the new entry and closing the previous one.
 */
module Entries {

  import opened Wrappers
  import opened Whitespace
  import opened Tags
  import opened Clock

  /**
   * The value under an entry's `tags` key (and under the log's global
   * `tags` key): absent, a list as `parse_tags` returns it or as it is read
   * back from the file, or a set once `log_entry` has converted it.
   */
  datatype TagField = NoTags | TagList(list: seq<string>) | TagSet(elems: set<string>)

  /** `set(field)`, with an absent field read as the empty list. */
  function Members(f: TagField): set<string>
  {
    match f
    case NoTags => {}
    case TagList(l) => set t | t in l
    case TagSet(e) => e
  }

  /**
   * One log entry. `timeOut` is `None` while the entry is open (no
   * `time_out` key); `delta` is the elapsed time in minutes, kept exact.
   */
  datatype Entry = Entry(
    timeIn: Seconds,
    timeOut: Option<Seconds>,
    delta: Option<real>,
    tags: TagField,
    content: string)

  /** The placeholder recorded when the prompt returns nothing. */
  const NoAnswer: string := "NO ANSWER"

  /** `(answer or "NO ANSWER").strip()`, where `None` is a cancelled prompt. */
  function Normalise(answer: Option<string>): (r: string)
  {
    Strip(if answer.None? || answer.value == [] then NoAnswer else answer.value)
  }

  /**
   * A missing or empty answer becomes the placeholder; any other answer is
   * stripped. Because `or` is applied before `strip`, an answer made only of
   * whitespace yields empty content, not the placeholder.
   */
  lemma NormaliseCases(answer: Option<string>)
    ensures answer.None? || answer.value == [] ==> Normalise(answer) == NoAnswer
    ensures answer.Some? && answer.value != [] ==> Normalise(answer) == Strip(answer.value)
    ensures answer.Some? && answer.value != [] && AllSpace(answer.value) ==> Normalise(answer) == []
    ensures Normalise(answer) == [] <==> answer.Some? && AllSpace(answer.value) && answer.value != []
  {
    assert !IsSpace(NoAnswer[0]) && !IsSpace(NoAnswer[|NoAnswer| - 1]);
    assert SkipForward(NoAnswer, 0) == 0;
    assert SkipBackward(NoAnswer, 0, |NoAnswer|) == |NoAnswer|;
    assert NoAnswer[0..|NoAnswer|] == NoAnswer;
    StripEnds(if answer.None? || answer.value == [] then NoAnswer else answer.value);
  }

  /** The dictionary `popup` returns: the answer as content, its tags as a list, no `time_out`. */
  function NewEntry(answer: Option<string>, now: Seconds): (e: Entry)
    ensures e.timeIn == now && e.timeOut.None? && e.delta.None?
    ensures e.tags.TagList?
  {
    var content := Normalise(answer);
    Entry(now, None, None, TagList(ParseTags(content)), content)
  }

  /**
   * The new entry's content is the normalised answer, and its tags are
   * `parse_tags` of that content: one per `#`, the k-th being the maximal
   * match at the k-th `#`, each well-formed; an answer without `#` has no tags.
   */
  lemma NewEntryTags(answer: Option<string>, now: Seconds)
    ensures var e := NewEntry(answer, now);
      && e.content == Normalise(answer)
      && e.tags.list == ParseTags(e.content)
      && |e.tags.list| == |MarkersFrom(e.content, 0)|
      && (forall k :: 0 <= k < |e.tags.list| ==> e.tags.list[k] == TagAt(e.content, MarkersFrom(e.content, 0)[k]))
      && (forall k :: 0 <= k < |e.tags.list| ==> IsTag(e.tags.list[k]))
      && |e.tags.list| == multiset(e.content)[Marker]
      && (Marker !in e.content ==> e.tags.list == [])
  {
    var e := NewEntry(answer, now);
    ParseTagsPerMarker(e.content);
    ParseTagsAreTags(e.content);
    ParseTagsCount(e.content);
    if Marker !in e.content {
      NoMarkerNoTags(e.content);
    }
  }

  /** The elapsed minutes from `timeIn` to `now`, exact; negative when `now` is past midnight. */
  function Minutes(timeIn: Seconds, now: Seconds): (d: real)
    ensures d * 60.0 == (now - timeIn) as real
  {
    (now - timeIn) as real / 60.0
  }

  /**
   * Closing the previous entry when the next answer comes in at `now`: an
   * open entry gets `time_out := now` and its elapsed minutes; a closed one
   * is left as it is. Nothing else about the entry changes.
   */
  function Close(e: Entry, now: Seconds): (c: Entry)
    ensures c.timeOut.Some?
    ensures c.timeIn == e.timeIn && c.tags == e.tags && c.content == e.content
    ensures e.timeOut.Some? ==> c == e
    ensures e.timeOut.None? ==> c.timeOut == Some(now) && c.delta == Some(Minutes(e.timeIn, now))
  {
    if e.timeOut.None? then e.(timeOut := Some(now), delta := Some(Minutes(e.timeIn, now))) else e
  }

  /** Closing is done once: a second close, at any time, changes nothing. */
  lemma CloseOnce(e: Entry, now: Seconds, later: Seconds)
    ensures Close(Close(e, now), later) == Close(e, now)
  {
  }

  /**
   * The sign of the recorded delta follows the clock: with no guard for
   * midnight, an entry opened before midnight and closed after it gets a
   * negative delta.
   */
  lemma CloseDeltaSign(e: Entry, now: Seconds)
    requires e.timeOut.None?
    ensures Close(e, now).delta.value < 0.0 <==> now < e.timeIn
  {
    var d := Close(e, now).delta.value;
    assert d * 60.0 == (now - e.timeIn) as real;
  }
}
