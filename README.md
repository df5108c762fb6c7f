# messenger_wrapped in Dafny

This project models the counting core of *messenger_wrapped*, a program that turns a
Messenger chat export into a yearly "wrapped" report.

- **Records** (conversation.py). Raw JSON records are normalised into typed values:
  - `Name`: the full name, split into first and last name, with equality on the full name and a deliberately reversed `<`.
  - `Reaction`, `Media` and `Message`: the millisecond timestamp becomes whole seconds, and only the first media entry is kept.
- **Conversation** (conversation.py). The class computes, once, in its constructor:
  - per-sender message counts and word counts;
  - per-actor reaction tables and per-sender emoji tables, their keys sorted by the reversed order.

  On request it also gives the totals, the first/last time interval, the inclusive day count, the averages, and three activity histograms (24 hours, 7 weekdays, one bucket per day).
- **Time window** (messenger_wrapped.py). `preprocess` replaces the conversation's messages with those sent strictly after a start time.
- **Report** (visualize.py). The counting inside the report's plotting code:
  - the stacked-bar `bottom` loops;
  - `deep_dsum` and `shallow_dsum`;
  - the ranking that picks the most used emojis, and the `reduced` tables;
  - the per-participant emoji-use panel.

Modules, one per file:

- `Base` (base.dfy): the Python exceptions as an `Error` datatype, with `Result` and `Option`.
- `Dicts` (dicts.dfy): the insertion-ordered dictionary.
  - `Dict` holds a key sequence plus a map.
  - `Add` and `NestedAdd` are `defaultdict` increments.
  - `Tally` and `NestedTally` fold a sequence of increments; `Weight`, `Weight2`, `KeysOf` and `OuterKeysOf` are the reference readings of such a sequence.
- `Names` (names.dfy): `str.split()`, `Name`, Python string order, and `sorted` under the reversed order.
- `Clock` (clock.dfy): hour, weekday and day offset of an instant, and Python list indexing.
- `Records` (records.dfy): the raw records and their normalisation.
- `Conversations` (conversation.dfy): the counters, the time span, the timeline, and the class `Conversation`.
- `Wrapped` (preprocess.dfy): `preprocess` and its date filter.
- `Visualize` (visualize.dfy): the counting inside the plotting code.

Each counting loop of the source is a Dafny method with a loop. Two kinds of loop are not: the loop over the three frequency panels (visualize.py:141) is one `FrequencyPanel` call per panel, and the list comprehensions and `filter` (conversation.py:52, 74, 77-83; messenger_wrapped.py:49) are recursive functions. Each method is proved equal to a specification function, and the properties are proved about those functions:

- `Conversation.CountMessages`, `CountWords`, `CountReactions` and `CountEmojis`;
- `Conversation.Timeline`;
- `Visualize.StackBars`, `DeepSum`, `ShallowSum`, `FrequencyPanel` and `EmojiUseLoop`.

Exceptions are `Err` results, and every requirement of a constructor is an explicit error path.

## Model

| member | source | states |
|---|---|---|
| Dicts.Add | conversation.py:86-88 | `d[k] += n` on a `defaultdict(int)` keeps the dictionary well formed: its key list holds each key once and is exactly the set of keys |
| Dicts.AddCounts | conversation.py:88 | `d[k] += n` adds `n` to the count of `k` and leaves every other count alone |
| Dicts.AddKeys | conversation.py:88 | `d[k] += n` creates a missing key at the end of the insertion order; a present key keeps its place |
| Dicts.AddTotal | conversation.py:88 | `d[k] += n` adds `n` to the sum of the values |
| Dicts.NestedAdd | conversation.py:100-103 | `t[k][l] += n` on a `defaultdict` of `defaultdict(int)` keeps both levels well formed |
| Dicts.NestedAddCounts | conversation.py:103 | `t[k][l] += n` adds `n` to that one entry and leaves every other entry alone |
| Dicts.NestedAddKeys | conversation.py:103 | `t[k][l] += n` creates a missing outer key at the end of the insertion order |
| Dicts.NestedAddSum | conversation.py:103 | `t[k][l] += n` adds `n` to the grand total |
| Dicts.Tally | conversation.py:86-88 | the counter a loop of `d[k] += n` builds from an empty `defaultdict(int)` is well formed |
| Dicts.TallyCounts | conversation.py:86-88 | each count of that counter is the sum of the increments aimed at its key |
| Dicts.TallyKeys | conversation.py:86-88 | its keys are exactly the keys incremented |
| Dicts.TallyTotal | conversation.py:86-88 | its total is the sum of all increments |
| Dicts.NestedTally | conversation.py:100-103 | the table a loop of `t[k][l] += n` builds from an empty nested `defaultdict` is well formed |
| Dicts.NestedTallyCounts | conversation.py:100-103 | each entry of that table is the sum of the increments aimed at it |
| Dicts.NestedTallyKeys | conversation.py:100-103 | its outer keys are exactly the outer keys incremented |
| Dicts.NestedTallyTotal | conversation.py:100-103 | its grand total is the sum of all increments |
| Names.Words | conversation.py:8 | `str.split()` yields only non-empty tokens free of Python whitespace |
| Names.WordsJoin | conversation.py:8 | splitting the single-space join of whitespace-free tokens gives the tokens back (`Join` is the partner of `Words`) |
| Names.MakeName | conversation.py:6-8 | `Name(s)` succeeds exactly when `s` splits into two tokens, keeps `s` verbatim as the full name, and otherwise raises `ValueError` |
| Names.NameRoundTrip | conversation.py:6-8 | "First Last" is accepted, and its first and last names are exactly the two tokens |
| Names.MakeNameRefusesOneToken | conversation.py:8 | a one-token name is refused |
| Names.StrLess | conversation.py:22 | Python's `a < b` on strings: true exactly when, at the first position where they differ, `a` has ended while `b` goes on, or `a` has the smaller code point |
| Names.NameLess | conversation.py:21-22 | `a < b` on names holds exactly when `b`'s full name is the smaller string: the order of full names, reversed |
| Names.NameLessIsStrictTotalOrder | conversation.py:13-22 | the reversed `__lt__` is irreflexive, asymmetric, transitive and total on names whose full names differ |
| Names.Insert | conversation.py:104 | inserting into a list sorted under `__lt__` keeps it sorted and adds exactly that one name |
| Names.SortNames | conversation.py:104 | `sorted` under `__lt__` gives a sorted permutation and keeps distinct names distinct |
| Names.OrderedUnique | conversation.py:104 | two sorted permutations of the same names are equal, so the sorted order is determined by the names alone |
| Names.OrderedIsDescending | conversation.py:21-22 | distinct names sorted under `__lt__` run in strictly descending full-name order |
| Clock.Hour | conversation.py:143 | `date.hour` of the local time is in 0..23, and it is the hour whose 3600-second bracket holds the instant's second of the local day |
| Clock.Weekday | conversation.py:143 | `date.weekday()` of the local time is in 0..6 |
| Clock.WeekdayNumbersFromMonday | conversation.py:143 | `weekday()` numbers Monday 0: Monday 5 January 1970, local time, gives 0 |
| Clock.WeekdaySameDay | conversation.py:143 | two instants of the same local calendar day have the same weekday |
| Clock.HourRecursDaily | conversation.py:143 | the same hour recurs one day later |
| Clock.WeekdayAdvancesDaily | conversation.py:143 | one day later is the next weekday, Sunday wrapping to Monday |
| Clock.DayOffset | conversation.py:143 | `(date - start).days` is the number of whole days, rounded down, from `start` to `date` |
| Clock.NumDaysPositive | conversation.py:124-126 | `(end - start).days + 1` is at least 1 when `end` is not before `start` |
| Clock.DayOffsetInSpan | conversation.py:143-146 | every instant between `start` and `end` has a day offset inside `0 .. num_days - 1` |
| Clock.PyIndex | conversation.py:144-146 | `lst[i]` addresses a position exactly when `-len <= i < len`, a negative `i` counting from the end |
| Records.MakeReaction | conversation.py:25-28 | a reaction succeeds exactly when its actor is a full name; the actor and the glyph are passed through |
| Records.ToReactions | conversation.py:51-52 | one `Reaction` per raw reaction, in order, with actor and glyph kept; otherwise the error of the first bad actor |
| Records.ToDateTime | conversation.py:54-55 | the timestamp is the millisecond count floor-divided by 1000 |
| Records.ToMedia | conversation.py:57-61 | the first entry's uri, or no uri exactly when the list is empty |
| Records.NormalizeMessage | conversation.py:39-46 | the sender is converted before the reactions; type and text are kept verbatim; the timestamp and media are converted |
| Records.NormalizeToRaw | conversation.py:39-61 | normalising the raw form of a well-named message gives the message back |
| Records.ToMessages | conversation.py:76-83 | every record normalised, in order, or the error of the first record that fails |
| Records.ToNames | conversation.py:73-74 | every participant name converted, in order, or the error of the first name that is not a full name |
| Conversations.MessageCounter | conversation.py:85-89 | the counts of `count_messages` add up to the number of messages |
| Conversations.WordCounter | conversation.py:91-97 | the counts of `count_words` add up to the number of words in text messages |
| Conversations.ReactionCounter | conversation.py:99-104 | the keys of `count_reactions` are sorted and its grand total is the number of reactions |
| Conversations.EmojiCounter | conversation.py:106-111 | the keys of `count_emojis` are sorted and its grand total is the number of emojis `analyze` finds in the texts |
| Conversations.MessageCounterCounts | conversation.py:85-89 | every sender is counted, participant or not, with their number of messages; exactly the senders are keys; the counts add up to the number of messages |
| Conversations.WordCounterCounts | conversation.py:91-97 | only "text" messages contribute, each with its number of `split()` tokens; the keys are the senders of a text message; the total is all words |
| Conversations.ReactionCounterCounts | conversation.py:99-104 | each reaction is credited to its actor under its demojized glyph; exactly the actors are keys, in sorted order; the grand total is the number of reactions |
| Conversations.EmojiCounterCounts | conversation.py:106-111 | each emoji in a text is credited to the sender under its demojized name; exactly the senders of an emoji are keys, in sorted order; the grand total is the number of emojis |
| Conversations.SortKeys | conversation.py:104 | the dict comprehension over `sorted(items)` keeps every entry and reorders the keys sorted |
| Conversations.SortKeysKeepsTable | conversation.py:104 | sorting the keys keeps the table well formed and keeps every count and the grand total |
| Conversations.SortedKeysDescend | conversation.py:104 | the reaction and emoji tables list participants in strictly descending full-name order |
| Conversations.TimeInterval | conversation.py:119-122 | the first and last list elements, `IndexError` on an empty list; on chronological messages they bound every time stamp |
| Conversations.DaysSpanned | conversation.py:124-126 | `num_days` raises `IndexError` exactly on an empty list and is at least 1 on chronological messages |
| Conversations.FromKeys | conversation.py:137-139 | `{p: list(v) for p in participants}` has exactly the participants as keys, each holding `v` |
| Conversations.Bump | conversation.py:144-146 | `d[k][i] += 1` raises `KeyError` for an unknown participant and `IndexError` outside `-len .. len - 1`; otherwise it adds one at exactly one position and keeps every length |
| Conversations.TimelineOf | conversation.py:134-135 | without messages `timeline` raises `IndexError` from `time_interval`, before any vector is built |
| Conversations.Record | conversation.py:142-146 | a sender who is not a participant raises `KeyError` naming them; a success leaves the participants of all three dicts unchanged |
| Conversations.TimelineShape | conversation.py:134-148 | a successful timeline had messages only from participants; every participant, and nobody else, has a vector of length 24, 7 or `num_days` |
| Conversations.TimelineSums | conversation.py:141-146 | each participant's vector adds up to their number of messages, the count `count_messages` records for them |
| Conversations.TimelineSlots | conversation.py:141-146 | each bucket counts the participant's messages whose hour, weekday or day offset addresses it |
| Conversations.TimelineSucceeds | conversation.py:134-148 | the timeline raises nothing when there are messages, all from participants, in chronological order |
| Conversations.FoldStops | conversation.py:141-146 | once an increment has raised, the whole loop raises that exception |
| Conversations.Quotient | conversation.py:129 | Python's `/` raises `ZeroDivisionError` exactly for a zero divisor and otherwise gives the exact quotient |
| Conversations.Conversation.constructor | conversation.py:64-71 | the object holds the given participants and messages, and all four counters are those of the messages |
| Conversations.Conversation.FromRaw | conversation.py:64-83 | construction from raw records fails exactly when a message or a name fails (messages first), else the counters are consistent |
| Conversations.Conversation.CountMessages | conversation.py:85-89 | the loop computes `MessageCounter`, insertion order included |
| Conversations.Conversation.CountWords | conversation.py:91-97 | the loop computes `WordCounter`, insertion order included |
| Conversations.Conversation.CountReactions | conversation.py:99-104 | the nested loop and the sort compute `ReactionCounter` |
| Conversations.Conversation.CountEmojis | conversation.py:106-111 | the nested loop and the sort compute `EmojiCounter` |
| Conversations.Conversation.TotMessages | conversation.py:113-114 | while the counter is current, the total is the number of messages |
| Conversations.Conversation.TotWords | conversation.py:116-117 | while the counter is current, the total is the number of words in text messages |
| Conversations.Conversation.AverageMessageLength | conversation.py:128-129 | `ZeroDivisionError` exactly when the message counter's total is 0 (the number of messages while the counters are current); otherwise the word counter's total divided by the message counter's total |
| Conversations.Conversation.AverageMessagesPerDay | conversation.py:131-132 | `IndexError` when the message list is empty, `ZeroDivisionError` for a zero-day span; otherwise the message counter's total (the number of messages while the counters are current) divided by the days the message list spans |
| Conversations.Conversation.Timeline | conversation.py:134-148 | the loop computes `TimelineOf`: the zero vectors, then one increment per message and axis, stopping at the first exception |
| Wrapped.DateFilter | messenger_wrapped.py:45-49 | every message kept is strictly after the cutoff, and no message is added |
| Wrapped.DateFilterSelects | messenger_wrapped.py:49 | the result is an order-preserving subsequence, and a message is kept exactly when it is after the cutoff |
| Wrapped.DateFilterMembers | messenger_wrapped.py:45-49 | a message is in the result exactly when it is in the input and after the cutoff |
| Wrapped.DateFilterKeepsAll | messenger_wrapped.py:49 | a list whose every message is after the cutoff passes whole |
| Wrapped.DateFilterIdempotent | messenger_wrapped.py:45-49 | filtering twice with the same cutoff is filtering once |
| Wrapped.DateFilterDropsAll | messenger_wrapped.py:49 | a list whose every message is at or before the cutoff is filtered out whole |
| Wrapped.DateFilterSuffix | messenger_wrapped.py:49 | on chronological messages the filter keeps a suffix, which is chronological too |
| Wrapped.Window | messenger_wrapped.py:44-49 | the list never grows, and a message is in it exactly when it is in the conversation and either there is no start time or it is strictly after the start time |
| Wrapped.Preprocess | messenger_wrapped.py:42-51 | as written: the same errors as the constructor; `messages` is the filtered list, while participants and all four counters describe every message; the time zone and the emoji functions are passed through; without a start time the conversation is consistent |
| Wrapped.StaleCounters | messenger_wrapped.py:43-49 | a message at the cutoff is filtered out, yet the message counter still counts it |
| Wrapped.PreprocessFiltered | messenger_wrapped.py:42-51 | corrected: the same errors and the same messages; every counter describes the messages kept, so `tot_messages()` is their number and `tot_words()` their words; the time zone and the emoji functions are passed through |
| Visualize.ZipSum | visualize.py:67 | `[sum(x) for x in zip(a, b)]` is as long as the shorter list |
| Visualize.StackedColumns | visualize.py:64-67 | after the loop `bottom` is as long as the shortest series (or the start width), and each entry is its column's sum |
| Visualize.ReachUniform | visualize.py:64-67 | series all of the start width keep `bottom` at that width |
| Visualize.RowsOf | visualize.py:65 | one series per key of `items()`, in key order: the j-th series is the one stored under the j-th key |
| Visualize.StackBars | visualize.py:64-67 | the `bottom` loop computes `Stacked` over the series in key order |
| Visualize.Deep | visualize.py:115-121 | the grand total of `deep_dsum` is the sum of the grand totals of its tables |
| Visualize.Shallow | visualize.py:123-128 | the total of `shallow_dsum` is the grand total of its table |
| Visualize.StackedUniform | visualize.py:82-85 | with series of the axis's length, `bottom` keeps that length and each bar is the sum over participants at that position |
| Visualize.SumZip | visualize.py:67 | the zip-sum of two equal-length lists adds up to the sum of both |
| Visualize.StackedTotal | visualize.py:64-67 | the bars add up to the sum of all series |
| Visualize.SentByAll | visualize.py:65 | over participants holding every sender, the messages per participant add up to all messages |
| Visualize.TimelineChart | visualize.py:96-103 | each chart of a successful timeline has the axis's width, each bar is its column's sum, and the bars add up to the number of messages |
| Visualize.DeepSum | visualize.py:115-121 | the triple loop computes `Deep`, the nested tally of every table's entries in order |
| Visualize.ShallowSum | visualize.py:123-128 | the double loop computes `Shallow`, the tally of every participant's entries in order |
| Visualize.DeepSumEntries | visualize.py:115-121 | each entry of `deep_dsum` is the sum of that entry over the tables, a missing one counting 0 |
| Visualize.DeepSumKeys | visualize.py:115-121 | a participant is in the result exactly when some table has a non-empty counter for them |
| Visualize.TotalEmojiEntries | visualize.py:135 | each count of `total_emoji_counter` is the reaction count plus the count in text |
| Visualize.TotalEmojiParticipants | visualize.py:135 | the participants of `total_emoji_counter` are those who reacted or wrote an emoji |
| Visualize.TotalEmojiGrandTotal | visualize.py:135 | the grand total of `total_emoji_counter` is the sum of the two counters' grand totals |
| Visualize.ShallowSumCounts | visualize.py:123-128 | each tag's count is the sum over participants, a tag is present exactly when some participant has it, and the total is the grand total |
| Visualize.InsertPermutes | visualize.py:142 | one insertion step of the stable sort adds exactly the inserted item |
| Visualize.InsertSorted | visualize.py:142 | one insertion step keeps the counts non-increasing |
| Visualize.InsertStable | visualize.py:142 | one insertion step puts the item after every earlier item of equal count |
| Visualize.RankByCount | visualize.py:142 | `sorted(..., key=-count)` gives a permutation of the items, with counts in non-increasing order |
| Visualize.RankStable | visualize.py:142 | items of equal count keep their relative order |
| Visualize.Prefix | visualize.py:143 | `s[:n]` is a prefix, of length `min(n, len)` for `n >= 0`, and it drops the last `-n` entries for `n < 0` |
| Visualize.TopEmojis | visualize.py:142-143 | `list(sorted_all.keys())[:num_emojis]` has at most `num_emojis` entries when that is not negative, and never more than the number of emojis used |
| Visualize.RankedPrefix | visualize.py:142-143 | the keys chosen from any counter are distinct, present, by non-increasing count, none left out larger, `min(n, #keys)` of them |
| Visualize.TopEmojisMostUsed | visualize.py:142-143 | the chosen emojis are distinct and used, by non-increasing total use; no emoji left out is used more; with `num_emojis >= 0` there are `min(num_emojis, #used)` |
| Visualize.Reduced | visualize.py:144 | `reduced` has the counter's participants, in order; each maps to exactly the chosen emojis; each count is the counter's count of a chosen emoji, and there is no other |
| Visualize.ReducedEntries | visualize.py:144 | `reduced` keeps the participants in order and maps each to exactly the chosen emojis, with their counts (0 when absent) |
| Visualize.UsageRow | visualize.py:147-149 | a participant's stacked series is their counts of the chosen emojis, in ranking order |
| Visualize.FrequencyPanel | visualize.py:141-149 | one frequency panel computes the ranked choice, then stacks the reduced series from `[0] * num_emojis` |
| Visualize.FrequencyBars | visualize.py:141-149 | each bar is the chosen emoji's total use; with `num_emojis >= 0` and a participant there is one bar per chosen emoji |
| Visualize.EmojiUseLoop | visualize.py:153-162 | the loop over the two counters, as written, adds each counter's values onto `bottom` and stops at the first `KeyError`: it computes `EmojiUsePanelAsWritten` |
| Visualize.PanelValuesAsWritten | visualize.py:160 | `values` has one entry per participant, and the only exception is `KeyError` |
| Visualize.EmojiUsePanelAsWritten | visualize.py:153-162 | the panel as written has one bar per participant of `total_emoji_counter`, and the only exception is `KeyError` |
| Visualize.PanelValuesAsWrittenFails | visualize.py:160 | `counter[p]` on the plain dict succeeds exactly when every participant is a key; otherwise `KeyError` names a missing one |
| Visualize.EmojiUsePanelAsWrittenFails | visualize.py:153-162 | the panel as written fails exactly when someone who reacted or wrote an emoji is missing from either counter |
| Visualize.OnlyReactingFails | visualize.py:160 | one participant who reacted once and wrote no emoji makes the panel raise |
| Visualize.PanelValues | visualize.py:160 | corrected: one value per participant |
| Visualize.EmojiUsePanel | visualize.py:153-162 | corrected: the panel has one bar per participant of `total_emoji_counter` |
| Visualize.PanelValuesAgree | visualize.py:160 | where the values as written succeed, the corrected ones are the same |
| Visualize.EmojiUsePanelAgrees | visualize.py:153-162 | where the panel as written succeeds, the corrected panel draws the same bars |
| Visualize.EmojiUseBars | visualize.py:158-162 | each bar of the corrected panel is the participant's reaction total plus their emoji total |
| Visualize.EmojiUseTotal | visualize.py:153-162 | the corrected panel's bars add up to the grand totals of the two counters |

## Left out

- Drawing is not modelled: matplotlib, `PdfPages`, titles, legends, fonts, PDF metadata, the front page, the pie charts and their `autopct` labels. These are rendering side effects with nothing to state.
- Reading `data.json` and `main` are I/O.
- Records.ToDateTime: `datetime.fromtimestamp` raises `OverflowError` or `OSError` for a timestamp outside the platform's range. The model accepts every integer and never raises there.
- The `emoji` library is a foreign table. `demojize` and `analyze` are function parameters of the conversation. The model fixes nothing about them beyond determinism.
- `datetime.fromtimestamp` uses the machine's local time zone. The model uses a fixed UTC offset `utcOffset`, so daylight-saving changes are not modelled. A `datetime` is its instant in whole POSIX seconds.
- The start time of `preprocess` is a whole-second instant compared with the same seconds. Sub-second and naive-versus-aware `datetime` comparisons are not modelled.
- Conversations.Conversation.AverageMessageLength and AverageMessagesPerDay: `round(..., 2)` and floating-point division are not modelled. The model gives the exact rational quotient.
- The `is_unsent` field is accepted and ignored, as in the source. `__repr__` is debugging output.
- A missing key in a raw JSON record (`KeyError`) cannot arise: the raw record datatypes hold every field the source reads.
- Conversations.Conversation.CountMessages, CountWords, CountReactions, CountEmojis: the source reads `self.messages`. Here they are static methods that take the messages as a parameter. The constructor calls them on the messages it stores.
- `counter[name][k]` on an inner `defaultdict` (visualize.py:144) also inserts `k` with count 0 into the caller's counter. The model returns 0 without the insertion. The inserted zeros change no count, total or panel value.
- Visualize.FrequencyBars: when fewer emojis exist than `num_emojis`, the source passes matplotlib series shorter than `bottom`, and matplotlib's behaviour there is not modelled. The model states only what the `zip` loop computes: `bottom` truncated to the series' length.
- Where the documentation and the code disagree, the model follows the code:
  - A participant name that does not split into two tokens raises `ValueError` (conversation.py:8). No separate format error is raised.
  - A glyph the emoji library does not know goes through `demojize` like any other.
  - A message whose day offset is negative but at least `-num_days` does not raise in the timeline. Python's negative indexing wraps it to a bucket counted from the end (conversation.py:146, `Clock.PyIndex`). Only indices outside that range raise `IndexError`.

## Findings

| source | as written | input that shows it | evidently intended | confidence | as-written member | corrected member |
|---|---|---|---|---|---|---|
| messenger_wrapped.py:42-51 | only `conversation.messages` is reassigned; the four counters built by the constructor still count every message | one text message at time 0 and start time 0: `messages` becomes empty, yet `tot_messages()` is 1 | the counters, and so the totals and averages of the report, describe the messages after the start time | high (not executed) | Wrapped.Preprocess, Wrapped.StaleCounters | Wrapped.PreprocessFiltered |
| visualize.py:160 | `counter[p]` indexes the plain dicts returned by `count_reactions` and `count_emojis` (conversation.py:104, 111) with every participant of `total_emoji_counter` | a participant "Ada Lovelace" who reacted once with a heart and never wrote an emoji: `emoji_counter["Ada Lovelace"]` raises `KeyError` | a participant absent from one counter contributes 0 to that bar (`counter.get(p, {})`) | high (not executed) | Visualize.EmojiUsePanelAsWritten, Visualize.EmojiUsePanelAsWrittenFails, Visualize.OnlyReactingFails | Visualize.EmojiUsePanel, Visualize.EmojiUseBars, Visualize.EmojiUseTotal, Visualize.EmojiUsePanelAgrees |
