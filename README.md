# timeseries-resolution in Dafny

A model of `index.js` of timeseries-resolution, a small library that keeps
rolling hourly, daily and monthly aggregates of timestamped metric records.

- `formatTimeseriesData(d, r, m)` sorts the records `d` in place by `ts`,
  then walks them once, cutting them into windows. The first window is
  anchored at the first `ts` floored to the resolution `r`. A record more
  than `r` after the current anchor opens a new window anchored at its own,
  unfloored `ts`. Each window reports one record: every field is summed
  (policy `"sum"` in `m`) or averaged (any other policy), `ts` is the
  floored anchor, and `_datapoints` is the number of records in the window.
- `initializeTimeseriesData(o)` creates every missing part of the store
  `o.timeseries` (`all`, `aggregates.hourly`, `.daily`, `.monthly`) empty.
- `processTimeseriesData(o)` initializes when needed and rolls `all` up
  hourly. It rolls the hourly tier up daily and the daily tier up monthly,
  both as they were before the call writes anything. It then writes the
  three batches into their tiers, keyed by `ts`. Last it cleans up: raw
  records older than 24 hours, hourly buckets older than 48 hours and
  daily buckets older than 32 days. A missing part the code indexes into
  throws a TypeError, and whatever was already written stays.
- `last(n, a)` returns the last `n` elements of `a`.

Layout, one module per file:

- `records.dfy` (`Records`): records, the time constants, bucket labelling
  (`Floor`) and `Last`.
- `sorting.dfy` (`Sorting`): the in-place sort of `d`, as a method on an
  array proved equal to a stable insertion sort on sequences.
- `aggregator.dfy` (`Aggregator`):
  - functions that define formatTimeseriesData: windows (`Groups`), the
    per-field fold (`Absorb`, `Accumulate`) and the reports (`Windows`);
  - the imperative walk (`Advance`, `StoreWindow`, `Rollup`), proved to
    compute exactly `Windows`;
  - lemmas on what the windows look like.
- `policies.dfy` (`Policies`): what a window reports for one field, per
  policy.
- `tiers.dfy` (`Tiers`): listing a tier, writing a batch into it,
  evicting old buckets, and the splice loop that cleans up `all`.
- `store.dfy` (`Store`): the object `o` as a class `Container`, with
  `Initialize` and `Process` proved to follow the functions
  `Initialized` and `Processed` on snapshots of the object.
- `guarantees.dfy` (`Guarantees`): what a call of processTimeseriesData
  guarantees: when it throws, what each tier holds afterwards, what the
  cleanup keeps, and that the store stays fit for the next call.

## Behaviour of `index.js` worth knowing

- **Averages.** The counter starts at 0, so the first value of a window is
  replaced rather than weighted. For positive values (any values whose
  running average never reaches 0), one value reports itself and N >= 2
  values report the mean of the last N - 1 (10 then 20 reports 20). See
  `Policies.AveragePolicy`. Once the running average reaches 0, the falsy
  test restarts it at the next value: 4, 2, -2, 6 reports 6.
- **Cleanup of `all`.** The code splices inside `forEach`, which skips the
  element after each removal. Of the p stale records, which the sort puts
  first, only ceil(p / 2) go, every second one surviving. See
  `Guarantees.ProcessCleanup`.
- **Daily and monthly sources.** The code lists the hourly and daily tiers
  before it writes anything, so each coarser tier is rolled up from the
  tier below as it stood before this call. See `Guarantees.ProcessDaily`
  and `Guarantees.ProcessMonthly`.
- **Policies.** Only `"sum"` and the average exist; every policy other
  than `"sum"` averages.
- **Output order.** The reports come out in ascending `ts` order. See
  `Aggregator.WindowsIncreasing`.

## Model

| member | source | states |
|---|---|---|
| Records.Floor | index.js:55 | The bucket label of t is a multiple of r with label <= t < label + r, as `Math.floor(t / r) * r` is for r > 0 |
| Records.FloorSeparated | index.js:93 | Anchors at least r apart get strictly increasing labels |
| Records.Last | index.js:22-25 | The whole array when it has at most n elements; otherwise its last max(n, 0) elements |
| Sorting.InsertionSortCorrect | index.js:35 | The sort returns a permutation of its input, non-decreasing by ts, of the same length |
| Sorting.SortKeepsBound | index.js:35 | A lower bound that every input ts meets is met by every sorted ts |
| Sorting.InsertInto | index.js:35 | One insertion step: the sorted prefix plus the next element becomes Insert of the element into the prefix; later slots are untouched |
| Sorting.SortByTs | index.js:35 | The array ends holding exactly the insertion sort of what it held before |
| Aggregator.Resolution | index.js:38 | A resolution of 0 (falsy) becomes one hour; any other is used as given; the result is positive |
| Aggregator.AbsorbField | index.js:70-86 | "sum": the accumulator becomes old + val, or val when it was missing or 0. Other policies: counter and accumulator follow the running average, and a falsy accumulator is replaced by val without bumping the counter |
| Aggregator.FoldOutsOneMore | index.js:67-91 | Folding one more field changes only that field's accumulator, and `ts` changes nothing |
| Aggregator.FoldCountsOneMore | index.js:67-91 | Folding one more field changes only that field's counter, and only under an averaging policy |
| Aggregator.AbsorbFields | index.js:67-91 | The per-field loop, in any key order, yields the fold of every field but `ts`, each touching only its own slots |
| Aggregator.FoldRecord | index.js:66-94 | One record folded into the open window: its fields, then `_datapoints` bumped; equals one step of Accumulate |
| Aggregator.Advance | index.js:50-94 | The walk's state after one more record tracks the windows grown by that record: anchor, open window and its accumulator |
| Aggregator.StoreWindow | index.js:93-95 | After `all[groupTs] = outs`, the result object holds one key per window, its anchor, mapped to the window's report; keys in first-write order are strictly increasing |
| Aggregator.CopyOut | index.js:98-103 | The output lists the result object's reports in key order, one per key |
| Aggregator.Rollup | index.js:42-105 | On sorted input with every ts >= r, the walk returns exactly the reports of the windows, in window order |
| Aggregator.FormatTimeseriesData | index.js:30-106 | d ends sorted in place (InsertionSort of its old contents), and the output is the window reports of the sorted records at the resolution in use |
| Aggregator.GroupsPartition | index.js:50-64 | The windows, concatenated, are the input records in order, and none is empty |
| Aggregator.GroupsWithinReach | index.js:59-64 | Every record lies at most r after its window's anchor |
| Aggregator.GroupsAnchored | index.js:53-63 | The first anchor is the first ts floored; each later anchor is the raw ts of its first record, more than r after the previous anchor |
| Aggregator.GroupsWellGrouped | index.js:50-64 | The windows the walk builds have all three properties above |
| Aggregator.WellGroupedUnique | index.js:50-64 | Any window list with the three properties is the one the walk builds, so together they characterise the windows without the walk |
| Aggregator.AccumulateCounts | index.js:94 | A window's datapoint counter and its `_datapoints` field equal the number of records folded into it |
| Aggregator.WindowsCount | index.js:95-103 | One report per window; no input gives no output and vice versa |
| Aggregator.WindowsStamped | index.js:93-94 | Report j carries its window's floored anchor as ts and the window's size as `_datapoints` |
| Aggregator.WindowsIncreasing | index.js:93 | Report timestamps strictly increase along the output |
| Aggregator.WindowsAtLeast | index.js:93 | A lower bound on the input timestamps that is a multiple of r bounds every report's ts |
| Policies.SumPolicy | index.js:74-77 | Under "sum" a field appears in a window's report exactly when some record has it, and the report is the sum of its values |
| Policies.AveragePolicy | index.js:81-86 | Under any other policy, with positive values: the report of n values is the first value when n = 1, else the mean of the last n - 1; the counter ends at n - 1 |
| Policies.AverageStep | index.js:84-85 | One more positive value: the accumulator is truthy, the counter is bumped to n, the new report is AverageReport of n + 1 values |
| Tiers.TierValues | index.js:146-152 | The for-in list of a tier holds its reports in ascending key order; a missing tier lists nothing |
| Tiers.AscendingValuesMembers | index.js:146-152 | The list has one entry per key of the tier: the keys it follows are the tier's keys, each once, strictly increasing, and the i-th entry is the report under the i-th key |
| Tiers.OverlayTier | index.js:171-173 | The forEach write loop yields the tier with each report stored under its ts, later reports winning |
| Tiers.OverlayEffect | index.js:171-181 | Writing a batch with increasing stamps adds exactly its stamps as keys, stores each report under its own ts and leaves every other bucket as it was |
| Tiers.OverlayMembers | index.js:171-181 | Every bucket of a written tier holds either its old report or a report from the batch |
| Tiers.EvictTier | index.js:191-203 | The delete loop keeps exactly the keys at or after the cutoff, each with its report |
| Tiers.SweepStale | index.js:187-189 | The splice-in-forEach loop computes Sweep: a stale record is removed and the record after it is skipped unexamined |
| Tiers.SweepSubsequence | index.js:187-189 | The cleanup only removes records and keeps the order of the rest |
| Tiers.SweepKeepsRecent | index.js:187-189 | Every record at or after the cutoff survives the cleanup, in order |
| Tiers.SweepStaleRun | index.js:187-189 | With the p stale records first, the cleanup leaves every second stale record, then all the recent ones |
| Tiers.SweepStaleRunCount | index.js:187-189 | With the p stale records first, the cleanup removes ceil(p / 2) records, not p |
| Tiers.SortedStaleRun | index.js:35 | In a sorted list the stale records are exactly the first |s| - |Recent| |
| Store.InitializedReady | index.js:111-126 | After initialization every part of the store is set |
| Store.InitializedKeeps | index.js:117-123 | Initialization never replaces a part that is already set |
| Store.InitializedIdempotent | index.js:111-126 | Initializing twice is initializing once |
| Store.Container.Initialize | index.js:111-126 | The object's new state is Initialized of its old state |
| Store.Container.RollList | index.js:154 | formatTimeseriesData on a fresh array of a listed tier returns the rollup of the sorted list |
| Store.Container.WriteTier | index.js:171-181 | Writing a batch throws exactly when the tier is missing and the batch is not empty; otherwise the batch is overlaid on the tier |
| Store.Container.Cleanup | index.js:184-203 | `all` is swept with the 24-hour cutoff, and the hourly and daily tiers are evicted at 48 hours and 32 days |
| Store.Container.WriteAll | index.js:171-203 | The three writes in order, stopping at the first missing tier that has data, then the cleanup, as Stored says |
| Store.Container.Aggregate | index.js:146-203 | The rest of the call after the hourly rollup follows Aggregated: it throws without `aggregates`, else rolls up the tiers as they were, then writes |
| Store.Container.FormatAll | index.js:142 | `all` is sorted in place and the hourly rollup of the sorted records returned; nothing else changes |
| Store.Container.Process | index.js:132-206 | The new state and the outcome are those of Processed on the old state with the clock reading `now` |
| Guarantees.ProcessOutcome | index.js:137-181 | A call throws exactly the TypeError ExpectedFault names: no `all`, no `aggregates`, or a missing tier with data to write. Otherwise it completes |
| Guarantees.ReadyCompletes | index.js:137-181 | A store whose parts are all set never throws |
| Guarantees.ProcessFaultState | index.js:137-181 | A call that throws for a missing `all` leaves the store untouched. One that throws later leaves `all` sorted and not cleaned, and the monthly tier unchanged. A throw at the daily or monthly write keeps the hourly batch written; a throw at the monthly write also keeps the daily batch written |
| Guarantees.ReadyStore | index.js:132-206 | On a store whose parts are all set, the state after the call, part by part, in closed form |
| Guarantees.ProcessHourly | index.js:142 | The hourly tier afterwards is the old tier with this call's hourly reports written over it, then every bucket older than 48 hours deleted |
| Guarantees.ProcessDaily | index.js:146-154 | The daily tier afterwards is the old tier with the daily rollup of the hourly tier as it was before the call written over it, then buckets older than 32 days deleted |
| Guarantees.ProcessMonthly | index.js:159-181 | The monthly tier afterwards is the old tier with the monthly rollup of the daily tier as it was before the call written over it; nothing is evicted |
| Guarantees.SweepSorted | index.js:187-189 | Sweeping a sorted list keeps every recent record and the order. Of the p stale records in front it keeps every second one, removing ceil(p / 2) |
| Guarantees.ProcessCleanup | index.js:187-189 | `all` afterwards is the sorted raw records swept as SweepSorted says: stale records can survive a call |
| Guarantees.WriteThenEvict | index.js:171-203 | A tier written and then evicted holds the old and new keys at or after the cutoff: new buckets with their reports, old ones untouched |
| Guarantees.ProcessKeepsEpoch | index.js:132-206 | Take a well-formed store whose timestamps all lie at or after Epoch. A call, whether it throws or not, leaves a store with the same two properties, so the store keeps meeting what Process requires |

## Left out

- `fixObjectValueTypes` (index.js:3-19) turns strings such as `"true"` or
  `"12"` into values. Records are modelled as already numeric, so it is not
  part of this model.
- The two-decimal rounding (index.js:88-90) is not modelled: every
  accumulator keeps its exact value. JavaScript numbers are modelled as
  mathematical reals, with no floating-point rounding, NaN or Infinity.
- Non-numeric field values (strings, booleans, arrays, objects) are not
  modelled; every field value is a number. Such a value stored into a
  falsy accumulator by `outs[k] = val` (index.js:76, 84), or a sum that
  `+=` turns into a string (index.js:77), makes `outs[k].toFixed(2)`
  (index.js:89) throw a TypeError. Under an average the arithmetic can
  instead yield NaN.
- `new Date()` is read once, as the parameter `now`. The source reads the
  clock three times, milliseconds apart.
- The order of `for ... in` over a tier is modelled as ascending key order.
  For tiers built by the code, each key is its report's ts
  (`Tiers.OverlayEffect`) and the list is sorted by ts straight away, so
  the order does not reach the output. A tier handed in with a report
  under another key, or with two reports of equal ts, is not covered by
  that argument: the stable sort keeps the listing order of equal ts.
- The sort comparator never answers 0, so JavaScript leaves the order of
  equal timestamps open. The model fixes one choice: a stable insertion
  sort.
- A first timestamp in [0, r) floors to the anchor 0, which the
  code's `!groupTs` test reads as "no anchor yet". Every ts is required to
  be at least the resolution (`Aggregator.Rollup`,
  `Aggregator.FormatTimeseriesData`, and `Store.Bounded` for
  `Store.Container.Process`). `Guarantees.ProcessKeepsEpoch` shows that this
  requirement, once met, holds across calls. The requirement also excludes
  negative timestamps. index.js windows them normally, except that a
  window opened at exactly ts 0 triggers the test again. Epoch-millisecond
  data has none.
- Objects are modelled by value. `all` is a sequence field, which the
  in-place sort replaces with the sorted array's contents. The store's
  nesting is flattened into one class, and `o = initializeTimeseriesData(o)`
  updates the same object.
- Policies.AveragePolicy: the closed form is proved only for positive
  values. With zero or mixed-sign values the running average can become 0,
  and the falsy restart then fires in the middle of a window.
  `Aggregator.AbsorbField` models that restart for every value.
- min, max and count policies are not modelled; index.js marks them as not
  yet implemented (line 79).
- Guarantees.ProcessHourly, Guarantees.ProcessDaily,
  Guarantees.ProcessMonthly and Guarantees.ProcessCleanup are stated for a
  store whose parts are all set. Partial stores are covered by
  `Guarantees.ProcessOutcome` and `Guarantees.ProcessFaultState`.
- `Records.Last` is modelled on values, so it does not capture that `last`
  returns the very same array when it has at most n elements.
