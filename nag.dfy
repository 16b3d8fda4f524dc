/**
 * The prompt loop: `popup` without its dialog, and `loop_popup` without its
 * sleeping and saving. The answers the dialog returns and the times of day
 * at which they come in are given as sequences, one item per iteration.
 */
module Nag {

  import opened Wrappers
  import opened Clock
  import opened Entries
  import opened LogStore
  import opened Tags

  // ---------------------------------------------------------------------
  // The `stop` counter of `loop_popup`.
  // ---------------------------------------------------------------------

  /** One pass of `if stop > 0: stop -= 1`. */
  function Countdown(stop: int): int {
    if stop > 0 then stop - 1 else stop
  }

  /** The counter after `k` passes. */
  function CountdownBy(stop: int, k: nat): int {
    if k == 0 then stop else Countdown(CountdownBy(stop, k - 1))
  }

  /** From `n >= 0` the counter falls by one per pass and first reaches 0 after exactly `n` passes. */
  lemma {:induction false} CountdownFromNatural(n: nat, k: nat)
    requires k <= n
    ensures CountdownBy(n, k) == n - k
    ensures CountdownBy(n, k) == 0 <==> k == n
  {
    if k > 0 {
      CountdownFromNatural(n, k - 1);
    }
  }

  /**
   * One more pass is one more `Countdown`, and a pass made while a
   * non-negative counter is not yet 0 stays within `stop` passes.
   */
  lemma CountdownStep(stop: int, k: nat)
    ensures CountdownBy(stop, k + 1) == Countdown(CountdownBy(stop, k))
    ensures 0 <= stop && k <= stop && CountdownBy(stop, k) != 0 ==> k + 1 <= stop
  {
    if 0 <= stop && k <= stop {
      CountdownFromNatural(stop, k);
    }
  }

  /** From a negative value the counter never changes, so it never reaches 0. */
  lemma {:induction false} CountdownNegative(stop: int, k: nat)
    requires stop < 0
    ensures CountdownBy(stop, k) == stop
  {
    if k > 0 {
      CountdownNegative(stop, k - 1);
    }
  }

  /**
   * How many times the loop body runs when `available` answers come in:
   * `stop` times for `0 <= stop` (none at all for 0), and for a negative
   * `stop` until the answers run out, standing for an interrupt.
   */
  function Iterations(stop: int, available: nat): nat {
    if 0 <= stop <= available then stop else available
  }

  /**
   * The loop stops after exactly `Iterations(stop, available)` passes: when
   * the counter reaches 0 or the answers run out, whichever comes first.
   */
  lemma LoopRuns(stop: int, available: nat, runs: nat)
    requires runs <= available && (0 <= stop ==> runs <= stop)
    requires CountdownBy(stop, runs) == 0 || runs == available
    ensures runs == Iterations(stop, available)
  {
    if stop < 0 {
      CountdownNegative(stop, runs);
    } else {
      CountdownFromNatural(stop, runs);
    }
  }

  // ---------------------------------------------------------------------
  // One iteration, and the loop, on the value of the log.
  // ---------------------------------------------------------------------

  /**
   * One iteration of the loop once `popup` has built the entry `e`: the
   * entry filed at `prev` (if any) is closed at `e`'s `time_in`, then
   * `log_entry` files `e` under `day`.
   */
  function Step(s: LogState, day: DayKey, prev: Option<Seconds>, e: Entry): (r: LogState)
    requires s.tags.TagSet?
    ensures r.tags.TagSet? && r.tags.elems == s.tags.elems + Members(e.tags)
    ensures WellFormed(s) ==> WellFormed(r)
  {
    var closed :=
      if prev.Some? then CloseAtCloses(s, day, prev.value, e.timeIn); CloseAt(s, day, prev.value, e.timeIn)
      else s;
    RecordEntryOnFiles(closed, e, day);
    RecordEntryFrame(closed, e, day, day);
    RecordEntryOn(closed, e, day).state
  }

  /** The `time_in` of the entry before the `n`-th: the one the `n`-th iteration closes. */
  function PrevTime(es: seq<Entry>, n: nat): Option<Seconds>
    requires n <= |es|
  {
    if n == 0 then None else Some(es[n - 1].timeIn)
  }

  /** The log after the first `n` iterations, the `k`-th of which built the entry `es[k]`. */
  function Replay(s: LogState, day: DayKey, es: seq<Entry>, n: nat): (r: LogState)
    requires s.tags.TagSet? && n <= |es|
    ensures r.tags.TagSet?
    decreases n, 0
  {
    if n == 0 then s else AfterIteration(s, day, es, n - 1)
  }

  /** The log once iteration `k` has filed `es[k]`. */
  function AfterIteration(s: LogState, day: DayKey, es: seq<Entry>, k: nat): (r: LogState)
    requires s.tags.TagSet? && k < |es|
    ensures r.tags.TagSet?
    decreases k, 1
  {
    Step(Replay(s, day, es, k), day, PrevTime(es, k), es[k])
  }

  /** The entries `popup` builds from the answers `answers` coming in at the times `clock`. */
  function Prompts(answers: seq<Option<string>>, clock: seq<Seconds>): (es: seq<Entry>)
    requires |answers| == |clock|
    ensures |es| == |answers|
  {
    seq(|answers|, k requires 0 <= k < |answers| => NewEntry(answers[k], clock[k]))
  }

  /**
   * One iteration closes the previous entry where the log stores it: an open
   * one gets `time_out` and `delta` set, a closed one stays as it is (unless
   * the new entry has the same `time_in` and replaces it). The new entry is
   * filed under its `time_in` with its tags as a set.
   */
  lemma StepClosesPrevious(s: LogState, day: DayKey, t: Seconds, e: Entry)
    requires s.tags.TagSet? && HasDay(s, day) && t in s.days[day].value.logs
    ensures var r := Step(s, day, Some(t), e);
      && HasDay(r, day)
      && var logs := r.days[day].value.logs;
      && e.timeIn in logs
      && logs[e.timeIn] == e.(tags := TagSet(Members(e.tags)))
      && (t != e.timeIn ==> t in logs && logs[t] == Close(s.days[day].value.logs[t], e.timeIn))
  {
    var closed := CloseAt(s, day, t, e.timeIn);
    CloseAtCloses(s, day, t, e.timeIn);
    PrepDayMakesDay(closed, day);
    RecordEntryFiles(closed, e, day, day);
  }

  /** One iteration files its entry under the entry's `time_in`, with the entry's tags as a set. */
  lemma StepFilesEntry(s: LogState, day: DayKey, prev: Option<Seconds>, e: Entry)
    requires s.tags.TagSet?
    ensures var r := Step(s, day, prev, e);
      && HasDay(r, day)
      && e.timeIn in r.days[day].value.logs
      && r.days[day].value.logs[e.timeIn] == e.(tags := TagSet(Members(e.tags)))
  {
    var closed := if prev.Some? then CloseAt(s, day, prev.value, e.timeIn) else s;
    RecordEntryOnFiles(closed, e, day);
  }

  /** After at least one iteration, the log holds the last entry under its `time_in`, as filed. */
  lemma ReplayFilesLast(s: LogState, day: DayKey, es: seq<Entry>, n: nat)
    requires s.tags.TagSet? && 1 <= n <= |es|
    ensures var r, e := Replay(s, day, es, n), es[n - 1];
      && HasDay(r, day)
      && e.timeIn in r.days[day].value.logs
      && r.days[day].value.logs[e.timeIn] == e.(tags := TagSet(Members(e.tags)))
  {
    StepFilesEntry(Replay(s, day, es, n - 1), day, PrevTime(es, n - 1), es[n - 1]);
  }

  /** An entry that was open when filed is still open after the iteration that filed it. */
  lemma ReplayLastOpen(s: LogState, day: DayKey, es: seq<Entry>, n: nat)
    requires s.tags.TagSet? && 1 <= n <= |es| && es[n - 1].timeOut.None? && es[n - 1].delta.None?
    ensures var r, e := Replay(s, day, es, n), es[n - 1];
      && HasDay(r, day) && e.timeIn in r.days[day].value.logs
      && var f := r.days[day].value.logs[e.timeIn];
      && f.timeIn == e.timeIn && f.timeOut.None? && f.delta.None? && f.content == e.content
  {
    ReplayFilesLast(s, day, es, n);
  }

  /**
   * Each iteration closes the entry of the iteration before it: in the log,
   * that entry is replaced by its closed form at the new entry's `time_in`
   * (unless both have the same `time_in`, when the new entry replaces it).
   */
  lemma ReplayClosesPrevious(s: LogState, day: DayKey, es: seq<Entry>, n: nat)
    requires s.tags.TagSet? && 2 <= n <= |es| && es[n - 2].timeIn != es[n - 1].timeIn
    ensures var r, p, e := Replay(s, day, es, n), es[n - 2], es[n - 1];
      && HasDay(r, day) && p.timeIn in r.days[day].value.logs
      && r.days[day].value.logs[p.timeIn] == Close(p.(tags := TagSet(Members(p.tags))), e.timeIn)
  {
    ReplayFilesLast(s, day, es, n - 1);
    StepClosesPrevious(Replay(s, day, es, n - 1), day, es[n - 2].timeIn, es[n - 1]);
  }

  /** The global tag set only grows. */
  lemma {:induction false} ReplayTagsGrow(s: LogState, day: DayKey, es: seq<Entry>, n: nat)
    requires s.tags.TagSet? && n <= |es|
    ensures s.tags.elems <= Replay(s, day, es, n).tags.elems
  {
    if n > 0 {
      ReplayTagsGrow(s, day, es, n - 1);
    }
  }

  /** After `n` iterations, the global tag set holds the tags of every entry filed so far. */
  lemma {:induction false} ReplayCollectsTags(s: LogState, day: DayKey, es: seq<Entry>, n: nat, k: nat)
    requires s.tags.TagSet? && k < n <= |es|
    ensures Members(es[k].tags) <= Replay(s, day, es, n).tags.elems
  {
    if k < n - 1 {
      ReplayCollectsTags(s, day, es, n - 1, k);
    }
  }

  /** Every tag of every entry in `d` is in `tags`. */
  predicate DayTagsIn(d: DayLog, tags: set<string>) {
    forall t :: t in d.logs ==> Members(d.logs[t].tags) <= tags
  }

  /** Every tag of every filed entry is in the global tag set. */
  predicate TagsCovered(s: LogState) {
    && s.tags.TagSet?
    && forall day :: day in s.days && s.days[day].Some? ==> DayTagsIn(s.days[day].value, s.tags.elems)
  }

  lemma CloseAtKeepsTagsCovered(s: LogState, day: DayKey, t: Seconds, now: Seconds)
    requires TagsCovered(s)
    ensures TagsCovered(CloseAt(s, day, t, now))
  {
    var r := CloseAt(s, day, t, now);
    if HasDay(s, day) {
      var d, d' := s.days[day].value, r.days[day].value;
      assert DayTagsIn(d, s.tags.elems);
      assert DayTagsIn(d', r.tags.elems) by {
        forall u | u in d'.logs
          ensures Members(d'.logs[u].tags) <= r.tags.elems
        {
          assert u in d.logs;
        }
      }
    }
  }

  lemma RecordEntryOnKeepsTagsCovered(s: LogState, e: Entry, day: DayKey)
    requires TagsCovered(s)
    ensures TagsCovered(RecordEntryOn(s, e, day).state)
  {
    var p := PrepDay(s, day);
    var tags := s.tags.elems + Members(e.tags);
    var stored := e.(tags := TagSet(Members(e.tags)));
    var before := p.days[day].value;
    assert DayTagsIn(before, tags) by {
      if HasDay(s, day) {
        assert DayTagsIn(before, s.tags.elems);
      }
    }
    var after := Put(before, e.timeIn, stored);
    assert DayTagsIn(after, tags) by {
      forall u | u in after.logs
        ensures Members(after.logs[u].tags) <= tags
      {
        if u != e.timeIn {
          assert u in before.logs;
        }
      }
    }
    var r := RecordEntryOn(s, e, day).state;
    assert r == LogState(TagSet(tags), p.days[day := Some(after)]);
    forall k | k in r.days && r.days[k].Some?
      ensures DayTagsIn(r.days[k].value, tags)
    {
      if k != day {
        assert DayTagsIn(s.days[k].value, s.tags.elems);
      }
    }
  }

  lemma StepKeepsTagsCovered(s: LogState, day: DayKey, prev: Option<Seconds>, e: Entry)
    requires TagsCovered(s)
    ensures TagsCovered(Step(s, day, prev, e))
  {
    var closed := s;
    if prev.Some? {
      CloseAtKeepsTagsCovered(s, day, prev.value, e.timeIn);
      closed := CloseAt(s, day, prev.value, e.timeIn);
    }
    RecordEntryOnKeepsTagsCovered(closed, e, day);
  }

  /** The loop keeps every filed tag in the global set. */
  lemma {:induction false} ReplayKeepsTagsCovered(s: LogState, day: DayKey, es: seq<Entry>, n: nat)
    requires TagsCovered(s) && n <= |es|
    ensures TagsCovered(Replay(s, day, es, n))
  {
    if n > 0 {
      ReplayKeepsTagsCovered(s, day, es, n - 1);
      StepKeepsTagsCovered(Replay(s, day, es, n - 1), day, PrevTime(es, n - 1), es[n - 1]);
    }
  }

  /** The loop keeps every day's key order in step with its entries. */
  lemma {:induction false} ReplayKeepsWellFormed(s: LogState, day: DayKey, es: seq<Entry>, n: nat)
    requires s.tags.TagSet? && WellFormed(s) && n <= |es|
    ensures WellFormed(Replay(s, day, es, n))
  {
    if n > 0 {
      ReplayKeepsWellFormed(s, day, es, n - 1);
    }
  }

  /** The `k`-th entry of the loop is `popup`'s entry for the `k`-th answer: open, at its time, with the normalised answer. */
  lemma PromptAt(answers: seq<Option<string>>, clock: seq<Seconds>, k: nat)
    requires |answers| == |clock| && k < |answers|
    ensures var e := Prompts(answers, clock)[k];
      && e == NewEntry(answers[k], clock[k])
      && e.timeIn == clock[k] && e.timeOut.None? && e.content == Normalise(answers[k])
  {
    NewEntryTags(answers[k], clock[k]);
  }

  /**
   * After `n >= 1` iterations of the loop, the log holds the last answer's
   * entry under its time, still open, with the normalised answer as content.
   */
  lemma LoopLastOpen(s: LogState, day: DayKey, answers: seq<Option<string>>, clock: seq<Seconds>, n: nat)
    requires s.tags.TagSet? && 1 <= n <= |answers| == |clock|
    ensures var r, now := Replay(s, day, Prompts(answers, clock), n), clock[n - 1];
      && HasDay(r, day) && now in r.days[day].value.logs
      && var e := r.days[day].value.logs[now];
      && e.timeIn == now && e.timeOut.None? && e.delta.None?
      && e.content == Normalise(answers[n - 1])
  {
    PromptAt(answers, clock, n - 1);
    ReplayLastOpen(s, day, Prompts(answers, clock), n);
  }

  /**
   * Each iteration of the loop closes the entry of the one before: the
   * previous answer's entry gets the new time as `time_out` and the minutes
   * between the two times as `delta` (when the two times differ; otherwise
   * the new entry replaces it).
   */
  lemma LoopClosesPrevious(s: LogState, day: DayKey, answers: seq<Option<string>>, clock: seq<Seconds>, n: nat)
    requires s.tags.TagSet? && 2 <= n <= |answers| == |clock| && clock[n - 2] != clock[n - 1]
    ensures var r, t, now := Replay(s, day, Prompts(answers, clock), n), clock[n - 2], clock[n - 1];
      && HasDay(r, day) && t in r.days[day].value.logs
      && var e := r.days[day].value.logs[t];
      && e.timeIn == t && e.timeOut == Some(now) && e.delta == Some(Minutes(t, now))
      && e.content == Normalise(answers[n - 2])
  {
    PromptAt(answers, clock, n - 2);
    PromptAt(answers, clock, n - 1);
    ReplayClosesPrevious(s, day, Prompts(answers, clock), n);
  }

  /** After `n` iterations of the loop, the global tag set holds every tag parsed from the answers so far. */
  lemma LoopCollectsTags(s: LogState, day: DayKey, answers: seq<Option<string>>, clock: seq<Seconds>, n: nat, k: nat)
    requires s.tags.TagSet? && k < n <= |answers| == |clock|
    ensures forall t :: t in ParseTags(Normalise(answers[k])) ==> t in Replay(s, day, Prompts(answers, clock), n).tags.elems
  {
    PromptAt(answers, clock, k);
    ReplayCollectsTags(s, day, Prompts(answers, clock), n, k);
  }

  // ---------------------------------------------------------------------
  // The source's procedures, on the log object.
  // ---------------------------------------------------------------------

  /**
   * `popup(last_entry)` after the dialog has returned `answer` at `now`.
   * The previous entry, if any, is the one stored in `day`'s logs under
   * `last`; closing it updates the log.
   */
  method Popup(data: LogData, day: DayKey, last: Option<Seconds>, answer: Option<string>, now: Seconds) returns (entry: Entry)
    modifies data
    ensures entry == NewEntry(answer, now)
    ensures data.State() == if last.Some? then CloseAt(old(data.State()), day, last.value, now) else old(data.State())
  {
    var content := Normalise(answer);
    if last.Some? {
      CloseEntry(data, day, last.value, now);
    }
    entry := Entry(now, None, None, TagList(ParseTags(content)), content);
  }

  /** The body of `loop_popup`'s loop: prompt, close the previous entry, file the new one. */
  method PopupAndLog(data: LogData, day: DayKey, prev: Option<Seconds>, answer: Option<string>, now: Seconds)
    returns (entry: Entry)
    requires data.tags.TagSet?
    modifies data
    ensures entry == NewEntry(answer, now)
    ensures data.State() == Step(old(data.State()), day, prev, entry)
  {
    entry := Popup(data, day, prev, answer, now);
    var _, _ := LogEntry(data, entry, day, day);
  }

  /** One pass of the loop body, stated on the value of the log. */
  method Pass(data: LogData, day: DayKey, ghost s0: LogState, answers: seq<Option<string>>, clock: seq<Seconds>, n: nat, prev: Option<Seconds>)
    requires s0.tags.TagSet? && n < |answers| == |clock|
    requires prev == PrevTime(Prompts(answers, clock), n)
    requires data.State() == Replay(s0, day, Prompts(answers, clock), n)
    modifies data
    ensures data.State() == Replay(s0, day, Prompts(answers, clock), n + 1)
  {
    var _ := PopupAndLog(data, day, prev, answers[n], clock[n]);
  }

  /**
   * `loop_popup(data, stop=stop)`: each iteration closes the previous entry,
   * prompts, and files the new entry under `day`, which `log_entry` both
   * prepares and files under. The loop stops when the counter reaches 0 or
   * when the answers run out.
   */
  method LoopPopup(data: LogData, day: DayKey, answers: seq<Option<string>>, clock: seq<Seconds>, stop: int)
    returns (runs: nat)
    requires data.tags.TagSet? && |answers| == |clock|
    modifies data
    ensures runs == Iterations(stop, |answers|)
    ensures data.State() == Replay(old(data.State()), day, Prompts(answers, clock), runs)
  {
    ghost var s0 := data.State();
    var remaining := stop;
    var prev: Option<Seconds> := None;
    runs := 0;
    while remaining != 0 && runs < |answers|
      invariant runs <= |answers|
      invariant remaining == CountdownBy(stop, runs)
      invariant 0 <= stop ==> runs <= stop
      invariant prev == PrevTime(Prompts(answers, clock), runs)
      invariant data.State() == Replay(s0, day, Prompts(answers, clock), runs)
      decreases |answers| - runs
    {
      CountdownStep(stop, runs);
      remaining := Countdown(remaining);
      Pass(data, day, s0, answers, clock, runs, prev);
      prev := Some(clock[runs]);
      runs := runs + 1;
    }
    LoopRuns(stop, |answers|, runs);
  }
}
