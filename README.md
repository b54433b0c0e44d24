# kef-turnaround reconciliation core in Dafny

This project models the part of the kef-turnaround pipeline that has real
logic. That pipeline turns two airport flight feeds (arrivals and departures)
into one ground-handling schedule for the apron. The modelled stages come
from `app/data_processing.py` and `app/data_merge.py`:

- **filter_data** selects the records of the operators of interest from the
  first value of the feed mapping. It projects them to five kept keys and
  sorts them by `Scheduled`.
- **filter_data_by_timestamp** keeps the records whose scheduled time falls
  inside an inclusive window.
- **format_time** rewrites `Scheduled` as `HH:MM` in place.
- **format_data** renames and derives the presentation keys in place, for the
  arrival role (`departure == 0`) or the departure role. The keys are
  `Arr.`/`Dep.`, `From`/`To`, the flight number, `A/C`, `Gate` and
  `Booked Cargo/Mail`.
- **data_merge** pairs each departure with the first arrival at the same gate
  with the same airframe. It composes the flight numbers, numbers the merges
  with a running priority, and prefixes `-` to everything left unpaired.

The model is organised into these files:

- **`records.dfy`** defines a record: a map from string keys to values that
  are strings, integers or None. It also defines the exceptions the stages
  raise (`KeyError`, `TypeError`, `ValueError`).
- **`schedule_order.dfy`** models Python's `sorted` on the `Scheduled` key as
  a stable insertion sort. It proves the result sorted, a permutation of the
  input, and stable.
- **`in_place.dfy`** is the loop shape shared by format_time, format_data and
  both loops of data_merge. Each rewrites list elements one by one and stops
  at the first record that raises. `Run` gives what such a loop leaves in the
  list and what it raises.
- **`accumulate.dfy`** holds the accumulators of the merge loop: counting,
  filtering, collecting and numbering a list by a predicate.
- **`data_processing.dfy`** models the four normalising stages. The pure ones
  are functions. The two in-place ones are methods over an array of records,
  proved against `Run`.
- **`data_merge.dfy`** models data_merge as methods over two arrays, proved
  against a function `Merge`. The lemmas around `Merge` state what the merged
  list holds.

Rewriting `Scheduled` in format_time calls `datetime.fromisoformat` and then
`strftime('%H:%M')`. The model takes that composition as a function parameter
`clock`. filter_data_by_timestamp turns that time into an absolute instant
with the same parser; that is the parameter `parse`, with instants as
integers. An empty string never parses.

Four behaviours of the code are easy to misread as "one arrival, one
merge", and the model states them as the code has them:

- **Key collisions.** A merged pair is built as `{**departure, **arrival}`,
  so when both dicts have a key the arrival's value wins
  (`DataMerge.MergedEmission`).
- **Arrivals are not consumed.** No arrival is marked as used, so one arrival
  merges with every departure that matches it
  (`DataMerge.ArrivalMergedTwice`).
- **Merged gates hide arrivals.** The code remembers the gates of merged
  arrivals, not the arrivals themselves. An arrival that shares its gate with
  a merged one is therefore dropped from the output, even though it merged
  with nothing (`DataMerge.GateShadowsArrival`).
- **Projection.** A record keeps only those of the five kept fields it has; a
  missing field is left out, not set to None (`DataProcessing.Project`).

## Model

| member | source | states |
|---|---|---|
| Records.Lookup | app/data_merge.py:29 | `d[k]` yields the value exactly when the key is present and raises `KeyError(k)` otherwise |
| Records.LastThree | app/data_processing.py:119-120 | `s[-3:]` is the suffix of `s` of length `min(3, len(s))` |
| Records.FromIso | app/data_processing.py:67 | the empty string never parses as an ISO-8601 time |
| ScheduleOrder.StrLe | app/data_processing.py:48 | definition: Python's `<=` on strings, code point by code point with a prefix first; reflexive, total and transitive by `ScheduleOrder.StrLeReflexive`, `StrLeTotal`, `StrLeTransitive` |
| ScheduleOrder.StrLeTotal | app/data_processing.py:48 | any two strings are ordered one way or the other |
| ScheduleOrder.StrLeTransitive | app/data_processing.py:48 | the string order is transitive |
| ScheduleOrder.ValueLe | app/data_processing.py:48 | definition: Python's `<=` on two sort keys; strings with strings and integers with integers, anything else not comparable |
| ScheduleOrder.Uniform | app/data_processing.py:48 | definition: all keys are strings or all are integers, which is when `sorted` can compare every pair |
| ScheduleOrder.Insert | app/data_processing.py:48 | inserting a record adds exactly that record to the multiset |
| ScheduleOrder.Sort | app/data_processing.py:48 | the sort returns a permutation of its input |
| ScheduleOrder.SortSorted | app/data_processing.py:48 | when all keys are strings, or all are integers, the sorted list is ordered by `Scheduled` under Python's `<=` |
| ScheduleOrder.SortStable | app/data_processing.py:48 | the sort is stable: the records with any one key appear in the same relative order as in the input |
| ScheduleOrder.InsertSorted | app/data_processing.py:48 | inserting into an ordered list keeps it ordered |
| ScheduleOrder.InsertStable | app/data_processing.py:48 | inserting adds the record to the records of its own key and changes no other key's records |
| DataProcessing.SelectorKey | app/data_processing.py:27 | a given non-empty selector key is used; an absent or empty one falls back to `AirlineIATA` |
| DataProcessing.SelectorValues | app/data_processing.py:28 | a given non-empty value list is used; an absent or empty one falls back to `FI`, `SK`, `AY` |
| DataProcessing.Dicts | app/data_processing.py:40-41 | a record is kept exactly when it is a dict item of the list; order and multiplicity in `DataProcessing.DictsAppend`, `DictsSingle` and `DictsCounts` |
| DataProcessing.DictsAppend | app/data_processing.py:40-41 | the comprehension works item by item: the dicts of a concatenation are those of each part, in order |
| DataProcessing.DictsSingle | app/data_processing.py:40-41 | a single item contributes its dict, or nothing when it is not a dict |
| DataProcessing.DictsCounts | app/data_processing.py:40-41 | every dict occurs among the records exactly as often as it occurs as an item |
| DataProcessing.FirstValueRecords | app/data_processing.py:38-41 | an empty mapping gives no records; a first value that cannot be iterated raises `TypeError`; otherwise the result is the dict items of the first value |
| DataProcessing.Project | app/data_processing.py:46 | the projection has only kept keys, has each kept key exactly when the record does, and copies its values |
| DataProcessing.Selects | app/data_processing.py:43 | definition: `item.get(key) in values`, where a missing key reads as None and is never selected; properties in `DataProcessing.ProjectedElements` |
| DataProcessing.Selector | app/data_processing.py:43 | definition: the selection test as a predicate on records; properties in `DataProcessing.ProjectedElements` |
| DataProcessing.Projected | app/data_processing.py:43-46 | a record is in the result exactly when it is the projection of an input record whose selector field holds one of the selector values |
| DataProcessing.ProjectedKept | app/data_processing.py:43-46 | the two comprehensions are the projection of each record that passes the selector, collected in order |
| DataProcessing.ProjectedElements | app/data_processing.py:43-46 | element `j` of the selection is the projection of the `j`-th selected record; the selected records are an order-preserving subsequence of the input holding each selected record exactly as often as the input does |
| DataProcessing.FilterData | app/data_processing.py:38-48 | definition: the first feed value's dicts, selected, projected and sorted, or the exception raised first; properties in `DataProcessing.FilterDataErrors`, `FilterDataSorted`, `FilterDataSelection` and `FilterDataKeepsDuplicates` |
| DataProcessing.FilterDataErrors | app/data_processing.py:38-48 | which exception filter_data raises and when: `TypeError` for a first value that cannot be iterated; `KeyError('Scheduled')` exactly when a selected record lacks `Scheduled`; otherwise `TypeError` exactly when two or more records have keys Python cannot compare |
| DataProcessing.FilterDataSorted | app/data_processing.py:48 | a successful result is a permutation of the projected selection, ordered by `Scheduled`, with records of equal keys in their input order |
| DataProcessing.FilterDataSelection | app/data_processing.py:38-46 | each output record projects a dict of the first feed value that the selector selects, and every selected dict's projection is in the output |
| DataProcessing.FilterDataKeepsDuplicates | app/data_processing.py:40-48 | no selected dict is lost, duplicates included: the projection of a selected dict occurs in the result at least as often as that dict occurs in the first feed value |
| DataProcessing.FilterDataDefaults | app/data_processing.py:27-28 | omitting the selector, or passing empty ones, is the same as passing `AirlineIATA` and `FI`, `SK`, `AY` |
| DataProcessing.FilterDataFirstValueOnly | app/data_processing.py:38 | entries of the feed mapping after the first do not affect the result |
| DataProcessing.FilterDataSkipsNotDict | app/data_processing.py:40-41 | an item that is not a dict does not affect the result |
| DataProcessing.ScheduledInstant | app/data_processing.py:95 | `fromisoformat(item['Scheduled'])` raises `KeyError` for a missing key, `TypeError` for a value that is not a string, `ValueError` for a string that does not parse, and otherwise yields the parsed instant |
| DataProcessing.FilterByTimestamp | app/data_processing.py:95 | definition: the comprehension parses every record in order and keeps those within the window, or raises the first record's exception; properties in `DataProcessing.FilterByTimestampErrors` and `FilterByTimestampResult` |
| DataProcessing.InWindow | app/data_processing.py:95 | definition: `start <= fromisoformat(item['Scheduled']) <= end`, both bounds inclusive |
| DataProcessing.FilterByTimestampErrors | app/data_processing.py:95 | the window filter succeeds exactly when every record's time parses; when it fails, it raises the exception of the first record whose time does not |
| DataProcessing.FilterByTimestampResult | app/data_processing.py:95 | on success the result is an order-preserving subsequence of the input holding each record as often as the input does when its time is within `[start, end]` (both inclusive), and not at all otherwise |
| DataProcessing.Retime | app/data_processing.py:63-73 | a missing `Scheduled` reads as `''` and raises `ValueError('')`; a value that is not a string raises `TypeError`; an unparseable string raises `ValueError` carrying it; otherwise only `Scheduled` changes, to the formatted time |
| DataProcessing.RetimeStep | app/data_processing.py:64-73 | definition: one iteration of format_time, leaving the record unchanged when it raises; related to `Retime` by `DataProcessing.RetimeStepIs` |
| DataProcessing.RetimeStepIs | app/data_processing.py:64-73 | an iteration raises exactly when `Retime` does, leaves the retimed record when it does not, and the record as it was when it does |
| DataProcessing.RetimeItem | app/data_processing.py:64-73 | one iteration of format_time's loop yields the record as `Retime` leaves it and the exception it raises |
| DataProcessing.FormatTime | app/data_processing.py:63-73 | the list after format_time and the exception it raises are those of the in-place loop `Run` over the records |
| DataProcessing.FormatTimeRecords | app/data_processing.py:63-73 | every record before the first unreadable time has its time rewritten, and that record and all after it are left as they were |
| DataProcessing.FormatTimeRaises | app/data_processing.py:66-70 | format_time raises exactly when some time is unreadable, with the exception of the first such record |
| DataProcessing.ShortTail | app/data_processing.py:119-120 | `item.get(k, '')[-3:]` is `''` for a missing key and the last three characters of a string value, and raises `TypeError` for any other value |
| DataProcessing.Move | app/data_processing.py:116-123 | definition: `item[to] = item.pop(from, None)`; properties in `DataProcessing.Relocated` and `Finished` |
| DataProcessing.Relocated | app/data_processing.py:115-118 | the two pops move `Scheduled` to the time key and `OriginDestIATA` to the place key, storing None for a missing source, and keep every other key |
| DataProcessing.Finished | app/data_processing.py:120-123 | the last four statements set `A/C` to the shortened airframe, move `Stand` to `Gate` and `Booked\nCargo/Mail` to `Booked Cargo/Mail`, and keep every other key |
| DataProcessing.Reshape | app/data_processing.py:114-123 | definition: one iteration of format_data, statement by statement, stopping at the first that raises; properties in the `Reshape…` lemmas below |
| DataProcessing.Malformed | app/data_processing.py:119-120 | definition: the flight number or the airframe is present but not a string |
| DataProcessing.ReshapeStopsAtNumber | app/data_processing.py:119 | a flight number that cannot be sliced raises `TypeError` after the first two statements ran |
| DataProcessing.ReshapeStopsAtAirframe | app/data_processing.py:120 | an airframe that cannot be sliced raises `TypeError` after the flight number was set |
| DataProcessing.ReshapeCompletes | app/data_processing.py:114-123 | an iteration with sliceable flight number and airframe runs all statements and raises nothing |
| DataProcessing.RelocatedKeeps | app/data_processing.py:115-120 | the two pops leave `No`, `Aircraft`, `Stand` and `Booked\nCargo/Mail` as they were, so the later statements read the record's own values |
| DataProcessing.ReshapeErrors | app/data_processing.py:119-120 | an iteration of format_data raises exactly when the flight number or the airframe is present but not a string, and then raises `TypeError` |
| DataProcessing.ReshapeRoles | app/data_processing.py:115-118 | role 0 sets `Arr.` and `From`, any other role `Dep.` and `To`, to the moved values; `Scheduled` and `OriginDestIATA` are gone afterwards, however far the iteration got |
| DataProcessing.RoleKeysSet | app/data_processing.py:115-118 | the role's time and place keys hold the moved time and origin/destination, however far the iteration got |
| DataProcessing.SourceKeysGone | app/data_processing.py:116-118 | `Scheduled` and `OriginDestIATA` are absent after any iteration |
| DataProcessing.ReshapeDerived | app/data_processing.py:119-123 | a complete record has the last three characters of the flight number and of the airframe (`''` when missing), the stand as `Gate`, and the booked cargo value under its new key |
| DataProcessing.ReshapeKeys | app/data_processing.py:115-123 | a complete record's keys are its old keys minus the five popped ones, plus the six presentation keys |
| DataProcessing.ReshapeKeeps | app/data_processing.py:114-123 | every key that format_data neither pops nor writes, `No` among them, keeps its value |
| DataProcessing.RelocateItem | app/data_processing.py:115-118 | the first two statements compute `Relocated` |
| DataProcessing.FinishItem | app/data_processing.py:120-123 | the last four statements compute `Finished` |
| DataProcessing.ReshapeItem | app/data_processing.py:115-123 | one iteration of format_data's loop yields the record as far as its statements got, and the exception that stopped them |
| DataProcessing.FormatData | app/data_processing.py:114-123 | the list after format_data and the exception it raises are those of the in-place loop `Run` over the records |
| DataProcessing.FormatDataRaises | app/data_processing.py:114-123 | format_data raises exactly when some record is malformed; it then raises `TypeError` at the first such record, and every record before it is well formed |
| DataProcessing.FormatDataRecords | app/data_processing.py:114-123 | every record up to the first malformed one is reshaped (that one only as far as its statements got), and the records after it are unchanged |
| DataMerge.Matches | app/data_merge.py:29 | the comparison is true exactly when both gates and both airframes are present and equal; it raises `KeyError('Gate')` when a gate is missing, and `KeyError('A/C')` when the gates are equal but an airframe is missing |
| DataMerge.FirstMatch | app/data_merge.py:27-43 | the inner loop finds the first arrival that matches, after comparisons that were all false; runs into its `else` only when every comparison is false; and raises the exception of the first comparison that raises |
| DataMerge.Compose | app/data_merge.py:31-34 | the merged dict has the keys of both dicts, the arrival's values win, and the flight number is the arrival's, `-`, and the departure's; the arrival's flight number is read first, so its `KeyError` or `TypeError` comes first |
| DataMerge.Dashed | app/data_merge.py:47 | `'-' + r[fn]` raises `KeyError` for a missing flight number and `TypeError` for one that is not a string; otherwise only the flight number changes, gaining the `-` prefix |
| DataMerge.Matched | app/data_merge.py:27-43 | definition: the inner loop ends at a `break`, having found a matching arrival |
| DataMerge.Depart | app/data_merge.py:27-49 | definition: what one departure iteration does to the departure dict (unchanged when merged, `-` prefixed when not) and the exception it raises; properties in `DataMerge.DeparturesAfter` |
| DataMerge.Emission | app/data_merge.py:31-49 | definition: what one departure iteration appends, given the counter `i`; properties in `DataMerge.MergedEmission` and `UnmatchedEmission` |
| DataMerge.MergedGates | app/data_merge.py:42 | definition: `merged_ids`, the partner gate of each merging departure in order; properties in `DataMerge.MergedGatesMembers` |
| DataMerge.Emitted | app/data_merge.py:16-49 | definition: `merged_list` after the departures loop, one record per departure numbered by the merges before it; properties in `DataMerge.DepartureEmits` and the priority lemmas |
| DataMerge.Arrive | app/data_merge.py:52-58 | definition: what the arrivals loop does to one arrival dict and the exception it raises; properties in `DataMerge.EmittedArrivals` |
| DataMerge.Unmerged | app/data_merge.py:52-58 | definition: the arrivals whose gate is present and not in `merged_ids`, in order; properties in `DataMerge.UnmergedSpec` and `UnmergedIn` |
| DataMerge.Merge | app/data_merge.py:5-61 | definition: the merged list, or the first exception of the departures loop, or else of the arrivals loop; properties in `DataMerge.MergeShape`, `MergeErrors` and the lemmas after it |
| DataMerge.FindMatch | app/data_merge.py:27-43 | the loop over the arrivals with its `break` computes `FirstMatch` |
| DataMerge.DepartOne | app/data_merge.py:27-49 | one departure iteration yields the departure dict as it leaves it, what it appends, whether it merged and with which gate, and the exception it raises, as `Depart` and `Emission` say |
| DataMerge.DepartAt | app/data_merge.py:25-49 | one iteration of the departures loop extends the finished part of the list and the accumulators `merged_list`, `merged_ids` and `i` by one departure, or ends the loop as `Run` says |
| DataMerge.MergeDepartures | app/data_merge.py:16-49 | the departures loop leaves the departures and raises as `Run` says; on success `merged_list` is `Emitted` and `merged_ids` is `MergedGates` |
| DataMerge.ArriveOne | app/data_merge.py:52-58 | one arrival iteration raises `KeyError` for a missing gate; it appends the arrival, with its flight number prefixed, exactly when its gate is not among the merged gates |
| DataMerge.EmitArrivals | app/data_merge.py:52-58 | the arrivals loop leaves the arrivals and raises as `Run` says, and appends the prefixed arrivals whose gate was not merged |
| DataMerge.DataMerge | app/data_merge.py:5-61 | the whole function returns what `Merge` says, or raises what it says, and leaves both lists as the two loops leave them |
| InPlace.Run | app/data_merge.py:25-58 | definition: a loop that rewrites list elements in place and stops at the first that raises (also format_time at app/data_processing.py:63-73 and format_data at 114-123); properties in `InPlace.RunRecords` |
| InPlace.RunRecords | app/data_merge.py:25-58 | every element up to the first that raises is as its iteration left it, the later ones are unchanged, and the loop raises exactly when some element does, with the first one's exception |
| InPlace.Store | app/data_merge.py:25-58 | storing the element an iteration left extends the rewritten prefix by one, or ends the loop as `Run` says |
| DataMerge.MergeShape | app/data_merge.py:16-61 | the merged list has one record per departure, in departure order, followed by the arrivals the second loop appends |
| DataMerge.DepartureEmits | app/data_merge.py:25-49 | the record at index `i` is what departure `i` emits, with the priority counter one more than the number of merges before it |
| DataMerge.MergedEmission | app/data_merge.py:27-43 | a merging departure pairs with the first arrival with its gate and airframe; it emits the union of both dicts with the arrival's values winning, the composed flight number and the current priority |
| DataMerge.UnmatchedEmission | app/data_merge.py:44-49 | a departure that matches no arrival is emitted as its own dict, with only its flight number changed, by the `-` prefix |
| DataMerge.MergedPriority | app/data_merge.py:36-37 | a merged record carries as `Priority` one more than the number of merges before it, between 1 and the number of merges |
| DataMerge.PrioritiesIncrease | app/data_merge.py:36-37 | a later merge carries a strictly larger priority than an earlier one, so no priority is reused |
| DataMerge.PrioritiesCover | app/data_merge.py:36-37 | every priority from 1 to the number of merges is carried by some merged record, so no priority is skipped |
| DataMerge.UnmergedDepartureUnprioritised | app/data_merge.py:45-49 | an unmerged departure gets no `Priority` key |
| DataMerge.ArrivalsUnprioritised | app/data_merge.py:52-58 | the appended arrivals get no `Priority` key |
| DataMerge.UnmergedIn | app/data_merge.py:52-58 | every appended arrival is one of the arrivals, and its gate is present and not a merged gate |
| DataMerge.DeparturesAfter | app/data_merge.py:45-47 | after the departures loop, merged departures are as they were and unmerged ones have their flight number prefixed in place |
| DataMerge.MergedGatesMembers | app/data_merge.py:42 | a gate is in `merged_ids` exactly when some departure merged with an arrival at that gate |
| DataMerge.UnmergedSpec | app/data_merge.py:52-58 | the appended arrivals are an order-preserving subsequence of the arrivals, holding each arrival as often as the list does when its gate is present and unmerged, and not at all otherwise |
| DataMerge.EmittedArrivals | app/data_merge.py:54-58 | each appended arrival is the arrival with only its flight number changed, by the `-` prefix |
| DataMerge.MergeErrors | app/data_merge.py:25-58 | data_merge raises exactly when the iteration of some departure raises, or else that of some arrival |
| DataMerge.ArrivalMergedTwice | app/data_merge.py:27-43 | one arrival that matches two departures merges with both, with priorities 1 and 2, and is not appended again |
| DataMerge.GateShadowsArrival | app/data_merge.py:42-54 | an arrival at the gate of a merged arrival, but with another airframe, matches nothing and is still left out of the output |

## Left out

- `app/data_fetch.py`, `app/excel_export.py`, `app/validation.py` and `app/main.py` are not part of this model. They cover the network fetch, the spreadsheet rendering, the validation and the process entry.
- How `main.py` chains the stages is not modelled; each stage is modelled and proved on its own.
- The `isinstance` guards of all four normalising stages are not modelled. Dafny's types rule out arguments of the wrong shape, so the `TypeError` they raise cannot arise.
- `datetime.fromisoformat` and `strftime('%H:%M')` are function parameters, not definitions. Time zones and comparing naive with aware datetimes are not modelled, and instants are integers.
- `DataProcessing.FilterData` turns Python's sorting into a condition: with two records or more, `TypeError` arises exactly when the keys are not all strings or all integers. Which pair Timsort compares first is not modelled.
- Feed values are strings, integers or None. JSON floats, booleans, lists and nested objects as record values are not modelled.
- The insertion order of dict keys is not modelled; records are maps. The order of the feed mapping's entries is modelled, as a sequence.
- Aliasing of dicts is not modelled: the same dict twice in one list, in both lists, or in both the output and an input list. `DataMerge.DataMerge` and `DataMerge.MergeDepartures` therefore require the two arrays to be distinct.
- The arrivals are a read-only array during the departures loop. The Python list could be changed through aliasing, which is not modelled.
