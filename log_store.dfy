/**
 * The log: one mapping that holds the global `tags` set and one record
 * per day, `{'logs': ordered map time_in -> entry}`, updated in place by
 * `prep_data_struct` and `log_entry`.
 */
module LogStore {

  import opened Wrappers
  import opened Clock
  import opened Entries

  /** The key of the global tag set, which shares the mapping with the day records. */
  const TagsKey: string := "tags"

  /** A day key: a date formatted with `date_format`; never the tag-set key. */
  type DayKey = s: string | s != TagsKey witness ""

  /**
   * A day's `logs`, an insertion-ordered mapping: `logs` holds the entries
   * by `time_in` and `order` the keys in the order they were first inserted.
   */
  datatype DayLog = DayLog(order: seq<Seconds>, logs: map<Seconds, Entry>)

  /** No key occurs twice in `ts`. */
  predicate Distinct(ts: seq<Seconds>) {
    ts == [] || (ts[|ts| - 1] !in ts[..|ts| - 1] && Distinct(ts[..|ts| - 1]))
  }

  /** `order` lists every key of `logs` exactly once. */
  predicate Ordered(d: DayLog) {
    && Distinct(d.order)
    && (forall t :: t in d.logs ==> t in d.order)
    && (forall t :: t in d.order ==> t in d.logs)
  }

  /** `{'logs': OrderedDict()}`. */
  const EmptyDay: DayLog := DayLog([], map[])

  /**
   * The whole log. A day key mapped to `None` is present with a falsy
   * value (`None` or an empty mapping read back from the file).
   */
  datatype LogState = LogState(tags: TagField, days: map<DayKey, Option<DayLog>>)

  /** `data.get(day)` is truthy. */
  predicate HasDay(s: LogState, day: DayKey) {
    day in s.days && s.days[day].Some?
  }

  /** Every day record present keeps its `order` and `logs` in step. */
  predicate WellFormed(s: LogState) {
    forall day :: day in s.days && s.days[day].Some? ==> Ordered(s.days[day].value)
  }

  /** `logs[t] = e` on an ordered mapping. */
  function Put(d: DayLog, t: Seconds, e: Entry): DayLog
  {
    if t in d.logs then DayLog(d.order, d.logs[t := e])
    else DayLog(d.order + [t], d.logs[t := e])
  }

  /**
   * After `logs[t] = e`, `t` maps to `e`, every other key keeps its entry,
   * the existing keys keep their order and a new key goes last; an existing
   * key keeps its place.
   */
  lemma PutStores(d: DayLog, t: Seconds, e: Entry)
    ensures var r := Put(d, t, e);
      && t in r.logs && r.logs[t] == e
      && (forall u :: u != t ==> (u in r.logs <==> u in d.logs))
      && (forall u :: u != t && u in d.logs ==> r.logs[u] == d.logs[u])
      && |d.order| <= |r.order| && r.order[..|d.order|] == d.order
      && (Ordered(d) ==> Ordered(r))
      && (Ordered(d) && t in d.logs ==> r.order == d.order)
      && (Ordered(d) && t !in d.logs ==> r.order == d.order + [t])
  {
    var r := Put(d, t, e);
    if t !in d.logs {
      assert r.order[..|r.order| - 1] == d.order;
    }
  }

  /**
   * `prep_data_struct(data, 'tags')`: the global `tags` value becomes a set
   * with exactly the elements it had, or the empty set when it was absent.
   * The day records are untouched.
   */
  function PrepTags(s: LogState): (r: LogState)
    ensures r.tags.TagSet? && r.tags.elems == Members(s.tags)
    ensures s.tags.NoTags? ==> r.tags.elems == {}
    ensures r.days == s.days
  {
    s.(tags := TagSet(Members(s.tags)))
  }

  /** Preparing the tag set a second time changes nothing. */
  lemma PrepTagsIdempotent(s: LogState)
    ensures PrepTags(PrepTags(s)) == PrepTags(s)
  {
  }

  /** `prep_data_struct(data, day)`, the day part, on the value of the log. */
  function PrepDay(s: LogState, day: DayKey): LogState
  {
    if HasDay(s, day) then s else s.(days := s.days[day := Some(EmptyDay)])
  }

  /**
   * `prep_data_struct(data, day)`: afterwards the day is present and truthy.
   * A day that was missing or falsy becomes `{'logs': OrderedDict()}`; a
   * present day, with all its logs, is kept as it is. No other key changes.
   */
  lemma PrepDayMakesDay(s: LogState, day: DayKey)
    ensures var r := PrepDay(s, day);
      && HasDay(r, day)
      && r.tags == s.tags
      && (HasDay(s, day) ==> r == s)
      && (!HasDay(s, day) ==> r.days[day] == Some(EmptyDay))
      && (forall k :: k != day ==> (k in r.days <==> k in s.days))
      && (forall k :: k != day && k in s.days ==> r.days[k] == s.days[k])
      && (WellFormed(s) ==> WellFormed(r))
  {
  }

  /** Preparing a day a second time changes nothing. */
  lemma PrepDayIdempotent(s: LogState, day: DayKey)
    ensures PrepDay(PrepDay(s, day), day) == PrepDay(s, day)
  {
  }

  /** What `log_entry` leaves behind: the log, the entry as stored, and whether it was filed. */
  datatype Filing = Filing(state: LogState, entry: Entry, filed: bool)

  /**
   * `log_entry(data, entry, current)`, whose `prep_data_struct(data)` call
   * prepares `today` (the import-time default) rather than `current`. The
   * entry's tags become a set, the global set takes them in, and the entry
   * is filed under its `time_in` in `current`'s logs — provided `current` is
   * then a truthy day. When it is not, the source raises at the final
   * lookup, after the other updates have been made; `filed` is false.
   */
  function RecordEntry(s: LogState, e: Entry, today: DayKey, current: DayKey): (f: Filing)
    requires s.tags.TagSet?
  {
    var prepped := PrepDay(s, today);
    var stored := e.(tags := TagSet(Members(e.tags)));
    var tags := TagSet(s.tags.elems + Members(e.tags));
    if HasDay(prepped, current) then
      Filing(LogState(tags, prepped.days[current := Some(Put(prepped.days[current].value, e.timeIn, stored))]),
             stored, true)
    else
      Filing(LogState(tags, prepped.days), stored, false)
  }

  /**
   * The tag updates of `log_entry`: the stored entry's tags are the set of
   * its former tags (duplicates gone) and the global set is the old set
   * united with them. The entry is otherwise unchanged.
   */
  lemma RecordEntryTags(s: LogState, e: Entry, today: DayKey, current: DayKey)
    requires s.tags.TagSet?
    ensures var f := RecordEntry(s, e, today, current);
      && f.entry.tags.TagSet? && f.entry.tags.elems == Members(e.tags)
      && f.entry == e.(tags := f.entry.tags)
      && f.state.tags.TagSet? && f.state.tags.elems == s.tags.elems + Members(e.tags)
  {
  }

  /**
   * The filing step of `log_entry`: the entry is filed exactly when `current`
   * is `today` or was already a truthy day. Then `current`'s logs map the
   * entry's `time_in` to it — overwriting an entry with the same `time_in`,
   * which keeps its place in the key order, or else appending the new key
   * last — and every other time key of that day keeps its entry.
   */
  lemma RecordEntryFiles(s: LogState, e: Entry, today: DayKey, current: DayKey)
    requires s.tags.TagSet?
    ensures var f := RecordEntry(s, e, today, current);
      && (f.filed <==> current == today || HasDay(s, current))
      && (f.filed ==>
            && HasDay(f.state, current)
            && var d := f.state.days[current].value;
            && e.timeIn in d.logs && d.logs[e.timeIn] == f.entry
            && var before := PrepDay(s, today).days[current].value;
            && (forall t :: t != e.timeIn ==> (t in d.logs <==> t in before.logs))
            && (forall t :: t != e.timeIn && t in before.logs ==> d.logs[t] == before.logs[t])
            && (e.timeIn in before.logs ==> d.order == before.order)
            && (e.timeIn !in before.logs ==> d.order == before.order + [e.timeIn]))
  {
  }

  /**
   * Nothing else changes: every day but `current` is as the preparation of
   * `today` left it, so every day other than `today` and `current` is as it
   * was. The preparation happens whichever day is filed under: `today` is
   * truthy afterwards, and when it had no truthy record and the entry goes
   * to another day, it is left holding an empty record. When the entry
   * could not be filed, the preparation is the only change to the days.
   * Well-formed logs stay well-formed.
   */
  lemma RecordEntryFrame(s: LogState, e: Entry, today: DayKey, current: DayKey)
    requires s.tags.TagSet?
    ensures var f, p := RecordEntry(s, e, today, current), PrepDay(s, today);
      && (forall k :: k != current ==> (k in f.state.days <==> k in p.days))
      && (forall k :: k != current && k in p.days ==> f.state.days[k] == p.days[k])
      && (forall k :: k != today && k != current ==> (k in f.state.days <==> k in s.days))
      && (forall k :: k != today && k != current && k in s.days ==> f.state.days[k] == s.days[k])
      && HasDay(f.state, today)
      && (today != current && !HasDay(s, today) ==> f.state.days[today] == Some(EmptyDay))
      && (!f.filed ==> f.state.days == p.days)
      && (WellFormed(s) ==> WellFormed(f.state))
  {
    var f, p := RecordEntry(s, e, today, current), PrepDay(s, today);
    PrepDayMakesDay(s, today);
    if WellFormed(s) {
      if f.filed {
        assert Ordered(p.days[current].value);
      }
    }
  }

  /**
   * As written, `log_entry` cannot file an entry under any day but the
   * import-time `today` unless that day already holds a truthy record:
   * nothing is filed and no record for `current` is created.
   */
  lemma RecordEntryOtherDayUnfiled(s: LogState, e: Entry, today: DayKey, current: DayKey)
    requires s.tags.TagSet?
    requires current != today && !HasDay(s, current)
    ensures var f := RecordEntry(s, e, today, current);
      && !f.filed
      && !HasDay(f.state, current)
  {
  }

  /**
   * `log_entry` with the day it files under also being the day it prepares
   * — what every call in the source does, and what `prep_data_struct(data,
   * current_date)` would make of any call.
   */
  function RecordEntryOn(s: LogState, e: Entry, day: DayKey): (f: Filing)
    requires s.tags.TagSet?
  {
    RecordEntry(s, e, day, day)
  }

  /** Filing under the day that was prepared always succeeds, for every day. */
  lemma RecordEntryOnFiles(s: LogState, e: Entry, day: DayKey)
    requires s.tags.TagSet?
    ensures var f := RecordEntryOn(s, e, day);
      && f.filed
      && HasDay(f.state, day)
      && e.timeIn in f.state.days[day].value.logs
      && f.state.days[day].value.logs[e.timeIn] == f.entry
      && f.state.tags.TagSet?
      && f.state.tags.elems == s.tags.elems + Members(e.tags)
  {
  }

  /**
   * The closing step of `popup`, applied where the previous entry is
   * stored: the entry at `t` in `day` is closed at `now`. The source mutates
   * the entry object that the day's logs hold, so the log sees the change.
   */
  function CloseAt(s: LogState, day: DayKey, t: Seconds, now: Seconds): LogState
  {
    if HasDay(s, day) && t in s.days[day].value.logs then
      var d := s.days[day].value;
      s.(days := s.days[day := Some(d.(logs := d.logs[t := Close(d.logs[t], now)]))])
    else s
  }
  /**
   * Closing where the entry is stored: the entry at `t` in `day`'s logs, if
   * any, is closed at `now`; every other entry and day, the key order and the
   * tag set are as they were.
   */
  lemma CloseAtCloses(s: LogState, day: DayKey, t: Seconds, now: Seconds)
    ensures var r := CloseAt(s, day, t, now);
      && r.tags == s.tags && r.days.Keys == s.days.Keys
      && (forall k :: k != day && k in s.days ==> r.days[k] == s.days[k])
      && (HasDay(s, day) <==> HasDay(r, day))
      && (HasDay(s, day) ==>
            var d, d' := s.days[day].value, r.days[day].value;
            && d'.order == d.order && d'.logs.Keys == d.logs.Keys
            && (t in d.logs ==> d'.logs[t] == Close(d.logs[t], now))
            && (forall u :: u in d.logs && u != t ==> d'.logs[u] == d.logs[u]))
      && (!HasDay(s, day) ==> r == s)
      && (WellFormed(s) ==> WellFormed(r))
  {
  }


  /** The `data` mapping, updated in place. */
  class LogData {
    var tags: TagField
    var days: map<DayKey, Option<DayLog>>

    /** A log as `load_log` returns it. */
    constructor (loaded: LogState)
      ensures State() == loaded
    {
      tags := loaded.tags;
      days := loaded.days;
    }

    function State(): LogState
      reads this
    {
      LogState(tags, days)
    }
  }

  /** `prep_data_struct(data, 'tags')`. */
  method PrepareTags(data: LogData)
    modifies data
    ensures data.State() == PrepTags(old(data.State()))
  {
    data.tags := TagSet(Members(data.tags));
  }

  /** `prep_data_struct(data, day)`. */
  method PrepareDay(data: LogData, day: DayKey)
    modifies data
    ensures data.State() == PrepDay(old(data.State()), day)
  {
    if !HasDay(data.State(), day) {
      data.days := data.days[day := Some(EmptyDay)];
    }
  }

  /**
   * `log_entry(data, entry, current)` with `today` the import-time default
   * of `prep_data_struct`. The entry's tag update is returned as `stored`,
   * the value the log now holds.
   */
  method LogEntry(data: LogData, entry: Entry, today: DayKey, current: DayKey) returns (stored: Entry, filed: bool)
    requires data.tags.TagSet?
    modifies data
    ensures var f := RecordEntry(old(data.State()), entry, today, current);
      data.State() == f.state && stored == f.entry && filed == f.filed
  {
    PrepareDay(data, today);
    var tags := Members(entry.tags);
    stored := entry.(tags := TagSet(tags));
    data.tags := TagSet(data.tags.elems + tags);
    filed := HasDay(data.State(), current);
    if filed {
      data.days := data.days[current := Some(Put(data.days[current].value, entry.timeIn, stored))];
    }
  }

  /** `popup`'s update of the previous entry, seen through the log that stores it. */
  method CloseEntry(data: LogData, day: DayKey, t: Seconds, now: Seconds)
    modifies data
    ensures data.State() == CloseAt(old(data.State()), day, t, now)
  {
    if HasDay(data.State(), day) && t in data.days[day].value.logs {
      var d := data.days[day].value;
      data.days := data.days[day := Some(d.(logs := d.logs[t := Close(d.logs[t], now)]))];
    }
  }
}
