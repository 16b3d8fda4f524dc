# the-nag: a verified model of the prompt loop of `reminder.py`

`reminder.py` is a time-tracking nag. At regular intervals it opens a dialog
asking "what are you doing now ?". It records the answer with the time of
day, parses the `#tags` out of it, and closes the previous entry. Closing
sets the entry's `time_out` and the minutes elapsed. Everything goes into one
mapping, `data`, which holds a global tag set and one record per day,
`{'logs': ordered mapping time_in -> entry}`.

This project models that core in Dafny:

- `wrappers.dfy`: `Option`, standing for Python's `None` versus a value.
- `whitespace.dfy`: Python's `str.isspace()` character set and `str.strip()`.
- `tags.dfy`: `parse_tags`, which is `re.findall(r'#[^\s#]*', content)`,
  as a left-to-right scanner. A second description, one match per `#`
  position, is proved equal to it.
- `clock.dfy`: times of day as seconds since midnight, the `%H:%M:%S`
  format, and the identity branches of `to_str` / `from_str`.
- `entries.dfy`: entries as values. This covers the answer normalisation
  `(answer or "NO ANSWER").strip()`, the entry `popup` returns, and the
  closing of the previous entry (`time_out`, `delta` in minutes).
- `log_store.dfy`: the `data` mapping as a class `LogData` whose methods
  update it in place. These are `prep_data_struct` for the tag set and for
  a day, `log_entry`, and the update `popup` makes to the previous entry.
  Each method is specified by a function on the value `LogState`.
- `nag.dfy`: `popup` without its dialog, and `loop_popup` without its
  sleeping and saving.
  - The answers the dialog returns, and the times at which they come in,
    are parameters (sequences, one item per iteration).
  - The `stop` counter is modelled exactly: from `n >= 0` it reaches 0
    after exactly `n` passes, and a negative value never reaches 0.
  - The loop runs `n` times for `stop = n >= 0` when at least `n` answers
    come in, and otherwise until the answers run out.
  - The loop is proved against `Replay`, the log after `n` iterations.

Times of day are integers, not the source's strings. Because
`Clock.ParseRender` / `Clock.RenderInjective` prove that `%H:%M:%S`
rendering is injective and reads back, a time key and its string identify
each other. The previous entry, which `popup` mutates through the
`prev_entry` reference, is updated where the log stores it: in the day's
logs, under its `time_in`.

## Model

| member | source | states |
|---|---|---|
| Whitespace.SkipForwardStops | reminder.py:108-111 | the scan for the start of `strip` passes only whitespace and stops at a non-whitespace character |
| Whitespace.SkipBackwardStops | reminder.py:108-111 | the scan for the end of `strip` passes only whitespace and stops after a non-whitespace character |
| Whitespace.StripEnds | reminder.py:108-111 | `strip()` is empty exactly when the string is all whitespace; otherwise it neither starts nor ends with whitespace |
| Whitespace.StripKeepsMiddle | reminder.py:108-111 | `strip()` returns a contiguous slice of the input, and everything removed before and after it is whitespace |
| Whitespace.StripIdempotent | reminder.py:108-111 | stripping twice is stripping once |
| Tags.RunEndStops | reminder.py:53 | the run after a `#` is all `[^\s#]` characters and is maximal (followed by the end, whitespace or `#`) |
| Tags.TagAt | reminder.py:53-57 | the match at a `#` is a well-formed tag, is the text found at that position, and cannot be extended |
| Tags.ScanFollowsMarkers | reminder.py:56-58 | from any position, the scanner yields exactly one match per `#` position, in order, each the maximal match there |
| Tags.ParseTagsPerMarker | reminder.py:56-58 | `parse_tags` returns one tag per `#` of the content, in order, the k-th being the maximal match at the k-th `#` |
| Tags.ParseTagsAreTags | reminder.py:51-58 | every string `parse_tags` returns is `#` followed by characters that are neither whitespace nor `#` |
| Tags.ParseTagsCount | reminder.py:56-58 | the number of tags equals the number of `#` characters in the content |
| Tags.NoMarkerNoTags | reminder.py:56-58 | content without `#` yields no tags |
| Clock.Render | reminder.py:61-63 | a time of day is written as eight characters `HH:MM:SS` |
| Clock.ParseClock | reminder.py:66-69 | parsing with `%H:%M:%S` succeeds only on an eight-character string |
| Clock.ParseRender | reminder.py:66-75 | reading back a rendered time gives the same time |
| Clock.RenderInjective | reminder.py:72-75 | distinct times render to distinct strings |
| Clock.ToStr | reminder.py:72-75 | a string is returned unchanged; a time is rendered to a string that parses back to it |
| Clock.FromStr | reminder.py:66-68 | a value that is not a string (a time) is returned unchanged |
| Clock.FromStrOfToStr | reminder.py:66-75 | `from_str(to_str(v))` sees the same time as `from_str(v)` |
| Clock.ToStrIdempotent | reminder.py:72-75 | `to_str` applied to its own result changes nothing |
| Entries.NormaliseCases | reminder.py:108-111 | a cancelled or empty answer becomes `NO ANSWER`; any other answer is stripped; content is empty exactly for a non-empty all-whitespace answer |
| Entries.NewEntry | reminder.py:119-123 | the new entry has the current time as `time_in`, no `time_out`, no `delta`, and its tags as a list |
| Entries.NewEntryTags | reminder.py:119-123 | the new entry's content is the normalised answer and its tags are `parse_tags` of it: one per `#`, the k-th being the maximal match at the k-th `#`, each well-formed, none without `#` |
| Entries.Minutes | reminder.py:114-117 | `delta` times 60 is exactly the seconds between `time_in` and the new time |
| Entries.Close | reminder.py:113-118 | an open entry gets `time_out` and `delta`; a closed one is unchanged; `time_in`, tags and content never change |
| Entries.CloseOnce | reminder.py:113-118 | closing an entry a second time, at any time, changes nothing |
| Entries.CloseDeltaSign | reminder.py:114-117 | `delta` is negative exactly when the new time is before `time_in` (no guard at midnight) |
| LogStore.PutStores | reminder.py:101-103 | `logs[time_in] = entry` maps the key to the entry, keeps every other key and entry, and appends a new key to the insertion order or keeps an existing key in place |
| LogStore.PrepTags | reminder.py:79-83 | the global `tags` becomes a set with the same elements, or the empty set when absent; days are untouched |
| LogStore.PrepTagsIdempotent | reminder.py:79-83 | preparing the tag set twice is preparing it once |
| LogStore.PrepDayMakesDay | reminder.py:84-87 | afterwards the day is truthy; a missing or falsy day becomes an empty record, a truthy one is kept; no other key changes |
| LogStore.PrepDayIdempotent | reminder.py:84-87 | preparing a day twice is preparing it once |
| LogStore.RecordEntryTags | reminder.py:96-100 | the stored entry's tags become the set of its tags, the global set takes them in, nothing else in the entry changes |
| LogStore.RecordEntryFiles | reminder.py:91-104 | the entry is filed exactly when the filing day is the prepared day or already truthy; then it is stored under its `time_in`, every other entry of that day is kept, and a new key goes last in the key order while an existing key keeps its place |
| LogStore.RecordEntryFrame | reminder.py:84-104 | every day but the filing day is as the preparation of the import-time day left it, and every other day is untouched; the import-time day is always truthy afterwards, and when it had no truthy record and the entry goes to another day it is left holding an empty record; nothing but the preparation happens when filing fails; well-formed logs stay well-formed |
| LogStore.RecordEntryOtherDayUnfiled | reminder.py:91-104 | as written, an entry for a day other than the import-time day that has no truthy record is not filed |
| LogStore.RecordEntryOnFiles | reminder.py:91-104 | with the prepared day as the filing day, the entry is always filed under its `time_in`, and the global set grows by its tags |
| LogStore.CloseAtCloses | reminder.py:113-118 | closing where the entry is stored closes exactly that entry; every other entry, day, the key order and the tag set are kept |
| LogStore.LogData.constructor | reminder.py:197 | the log object holds the loaded log |
| LogStore.PrepareTags | reminder.py:78-83 | the in-place `prep_data_struct(data, 'tags')` leaves the log `PrepTags` of the old log |
| LogStore.PrepareDay | reminder.py:84-88 | the in-place `prep_data_struct(data, day)` leaves the log `PrepDay` of the old log |
| LogStore.LogEntry | reminder.py:91-104 | the in-place `log_entry` leaves the log, the stored entry and the filed flag `RecordEntry` describes |
| LogStore.CloseEntry | reminder.py:113-118 | the in-place close of the previous entry leaves the log `CloseAt` of the old log |
| Nag.CountdownFromNatural | reminder.py:175-177 | from `stop = n >= 0`, after `k <= n` passes the counter is `n - k`, and it is 0 exactly after `n` passes |
| Nag.CountdownNegative | reminder.py:175-177 | from a negative `stop` the counter never changes, so it never reaches 0 |
| Nag.CountdownStep | reminder.py:175-177 | one more pass is one more decrement; a pass while a non-negative counter is not 0 stays within `stop` passes |
| Nag.LoopRuns | reminder.py:175-177 | the loop stops after exactly `stop` passes when `0 <= stop` and that many answers are available, and otherwise when the answers run out |
| Nag.Step | reminder.py:178-183 | one iteration keeps the tag set a set, grows it by exactly the new entry's tags, and keeps every day's key order in step with its entries |
| Nag.StepClosesPrevious | reminder.py:113-118 | one iteration closes the previous entry where the log stores it and files the new entry under its `time_in` |
| Nag.StepFilesEntry | reminder.py:178-183 | one iteration files its entry under its `time_in`, with its tags as a set |
| Nag.ReplayFilesLast | reminder.py:178-183 | after `n >= 1` iterations the last entry is in the log under its `time_in`, as filed |
| Nag.ReplayLastOpen | reminder.py:178-183 | the last filed entry, open when filed, is still open with its content |
| Nag.ReplayClosesPrevious | reminder.py:113-118 | each iteration leaves the previous iteration's entry closed at the new entry's time |
| Nag.ReplayTagsGrow | reminder.py:98-100 | the global tag set only grows over the loop |
| Nag.ReplayCollectsTags | reminder.py:98-100 | after `n` iterations the global tag set holds the tags of every entry filed so far |
| Nag.CloseAtKeepsTagsCovered | reminder.py:113-118 | closing an entry keeps every filed tag in the global set |
| Nag.RecordEntryOnKeepsTagsCovered | reminder.py:96-103 | filing an entry keeps every filed tag in the global set |
| Nag.StepKeepsTagsCovered | reminder.py:178-183 | one iteration keeps every filed tag in the global set |
| Nag.ReplayKeepsTagsCovered | reminder.py:175-183 | the loop keeps every tag of every filed entry in the global set |
| Nag.ReplayKeepsWellFormed | reminder.py:175-183 | the loop keeps every day's insertion order listing each of its keys exactly once |
| Nag.PromptAt | reminder.py:119-123 | the loop's k-th entry is `popup`'s entry for the k-th answer: open, at its time, with the normalised answer as content |
| Nag.LoopLastOpen | reminder.py:174-183 | after `n >= 1` iterations, the last answer's entry is in the log under its time, open, with the normalised answer |
| Nag.LoopClosesPrevious | reminder.py:113-118 | each iteration gives the previous answer's entry the new time as `time_out` and the minutes between as `delta` |
| Nag.LoopCollectsTags | reminder.py:98-100 | after `n` iterations every tag parsed from every answer so far is in the global set |
| Nag.Popup | reminder.py:107-123 | `popup` returns the new entry for the answer and leaves the log with the previous entry closed at the new time |
| Nag.PopupAndLog | reminder.py:178-183 | one loop body: the entry is `popup`'s new entry and the log is `Step` of the old log |
| Nag.Pass | reminder.py:178-183 | one loop body takes the log from `n` to `n + 1` iterations of `Replay` |
| Nag.LoopPopup | reminder.py:168-188 | the loop runs `stop` times when `0 <= stop` is at most the number of answers, otherwise once per answer, and leaves the log `Replay` of those iterations |

## Left out

- The dialog (`pymsgbox.prompt`): its answers are a parameter. `None` stands for a cancelled dialog.
- `datetime.now()` in `get_time`: the times of day are a parameter.
- `time.sleep`, `save_log`, `load_log`, `todays_log`, `prep_log_path`, YAML loading and dumping, and the creation of the log directory. These are file I/O. The loaded log is the constructor's argument.
- The configuration bootstrap (copying `config.py.default`) and the settings. The default formats (`%Y-%m-%d`, `%H:%M:%S`, `#`) are fixed.
- Nag.LoopPopup: the source never runs out of answers: with a negative `stop` it loops forever, and with `stop = n` it prompts `n` times. The model's answers are a finite sequence, so a run also ends when they run out. That is fewer than `n` iterations when fewer than `n` answers are given, and it stands for an interrupt when `stop` is negative.
- Clock.ParseClock: accepts only strict two-digit `HH:MM:SS`. `strptime` also accepts single-digit fields, which never occur in keys the program writes.
- Entries.Minutes: `delta` is the exact ratio, not a floating-point value.
- Day records are not modelled as dates: a day key is its formatted string, and the key `tags` is kept apart from the day keys by type.
- Entries are values. The aliasing between `prev_entry` and the dict stored in the log is modelled by updating the stored entry under its `time_in`.
- `log_entry` raises when the filing day has no truthy record. The model records this as `filed == false` after the earlier updates, instead of as an exception.
- Per-day tag sets, `@context` parsing, uptime adjustments and per-label reports are not part of this version of `reminder.py`. The model follows the code.
- The module-level `logs` mapping is unused by the code and not modelled.

## Findings

| source | as written | input that shows it | evidently intended | confidence | as-written member | corrected member |
|---|---|---|---|---|---|---|
| reminder.py:91-104 | `log_entry` prepares the import-time default day (`prep_data_struct(data)`) but files under `current_date` | `log_entry(data, entry, current_date=d)` with `d` different from the day of import and no record for `d` yet: the final lookup raises and the entry is not filed; when `d` already has a record the entry is filed, but the import-time day is still left holding a stray empty record if it had none | prepare the day the entry is filed under (`prep_data_struct(data, current_date)`), so the entry is always filed | not executed | LogStore.RecordEntryOtherDayUnfiled | LogStore.RecordEntryOnFiles |
