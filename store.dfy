/**
 * The rollup store: the object `o` that initializeTimeseriesData
 * (index.js:111-126) prepares and processTimeseriesData (index.js:132-206)
 * updates in place.
 *
 * `o.timeseries` holds the raw records `all` and `aggregates` with three
 * tiers, `hourly`, `daily` and `monthly`, each keyed by bucket ts. The
 * nesting is flattened into one class: a flag says whether `o.timeseries`
 * (resp. `o.timeseries.aggregates`) is set, and an Option whether each part
 * under it is. JavaScript lets the code index into a missing part, which
 * throws a TypeError; those runs end in `Threw` with whatever was already
 * written kept.
 *
 * The specification side is a function on snapshots of the object,
 * `Processed`, built stage by stage as the code runs; the lemmas at the end
 * state what the source promises about it.
 */
module Store {
  import opened Records
  import opened Sorting
  import opened Aggregator
  import opened Tiers

  /** The object `o`, as far as the store is concerned. */
  datatype Snapshot = Snapshot(
    hasTimeseries: bool,
    all: Option<seq<Record>>,
    hasAggregates: bool,
    hourly: Option<Tier>,
    daily: Option<Tier>,
    monthly: Option<Tier>)
  {
    /** A part can only be set inside a parent that is set. */
    predicate Valid()
    {
      && (!hasTimeseries ==> all.None? && !hasAggregates)
      && (!hasAggregates ==> hourly.None? && daily.None? && monthly.None?)
    }

    /** Every part is set. */
    predicate Ready()
    {
      hasTimeseries && all.Some? && hasAggregates && hourly.Some? && daily.Some? && monthly.Some?
    }
  }

  function OrElse<T>(o: Option<T>, d: T): T
  {
    if o.Some? then o.value else d
  }

  /**
   * initializeTimeseriesData: every missing part is created empty, every
   * part already there is kept.
   */
  function Initialized(st: Snapshot): Snapshot
  {
    Snapshot(true, Some(OrElse(st.all, [])), true,
             Some(OrElse(st.hourly, map[])), Some(OrElse(st.daily, map[])), Some(OrElse(st.monthly, map[])))
  }

  lemma InitializedReady(st: Snapshot)
    ensures Initialized(st).Ready() && Initialized(st).Valid()
  {
  }

  /** Initialization never replaces a part that is already set. */
  lemma InitializedKeeps(st: Snapshot)
    ensures st.all.Some? ==> Initialized(st).all == st.all
    ensures st.hourly.Some? ==> Initialized(st).hourly == st.hourly
    ensures st.daily.Some? ==> Initialized(st).daily == st.daily
    ensures st.monthly.Some? ==> Initialized(st).monthly == st.monthly
  {
  }

  /** A second initialization changes nothing. */
  lemma InitializedIdempotent(st: Snapshot)
    ensures Initialized(Initialized(st)) == Initialized(st)
  {
  }

  /** The part that was missing when processTimeseriesData threw its TypeError. */
  datatype Fault =
    | AllMissing         // `d.sort` on `o.timeseries.all` (index.js:142)
    | AggregatesMissing  // `o.timeseries.aggregates.hourly` (index.js:148)
    | HourlyMissing      // writing into `aggregates.hourly` (index.js:172)
    | DailyMissing       // writing into `aggregates.daily` (index.js:176)
    | MonthlyMissing     // writing into `aggregates.monthly` (index.js:180)

  datatype Outcome = Done | Threw(fault: Fault)

  /** The store after a call, and how the call ended. */
  datatype Run = Run(store: Snapshot, outcome: Outcome)

  /** How far back each part is kept (index.js:133-135). */
  const AllKept: int := 24 * 60 * 60 * 1000
  const HourlyKept: int := 48 * 60 * 60 * 1000
  const DailyKept: int := 32 * 24 * 60 * 60 * 1000

  /** A tier's reports as the for-in loops list them; a missing tier lists nothing. */
  ghost function Listed(t: Option<Tier>): seq<Record>
  {
    if t.Some? then AscendingValues(t.value) else []
  }

  /** What formatTimeseriesData reports for a batch, with processTimeseriesData's empty model `{}`. */
  function Rolled(d: seq<Record>, r: int): seq<Record>
    requires r > 0
  {
    Windows(InsertionSort(d), r, map[])
  }

  /** A tier after a batch is written into it; a missing tier stays missing (only an empty batch gets here). */
  function Written(t: Option<Tier>, data: seq<Record>): Option<Tier>
  {
    if t.Some? then Some(Overlay(t.value, data)) else None
  }

  /** A tier after its old buckets are deleted; deleting from a missing tier does nothing. */
  function Trimmed(t: Option<Tier>, cutoff: int): Option<Tier>
  {
    if t.Some? then Some(Evicted(t.value, cutoff)) else None
  }

  /** The cleanup at the end of a successful call (index.js:187-203). */
  function Cleaned(st: Snapshot, now: int): Snapshot
    requires st.all.Some?
  {
    st.(all := Some(Sweep(st.all.value, now - AllKept)),
        hourly := Trimmed(st.hourly, now - HourlyKept),
        daily := Trimmed(st.daily, now - DailyKept))
  }

  /**
   * The writes (index.js:171-181) and the cleanup, once the three batches
   * are computed: each batch goes into its tier, and a missing tier throws
   * as soon as there is something to write into it.
   */
  function Stored(st: Snapshot, hourlyData: seq<Record>, dailyData: seq<Record>,
                  monthlyData: seq<Record>, now: int): Run
    requires st.all.Some?
  {
    if st.hourly.None? && hourlyData != [] then Run(st, Threw(HourlyMissing))
    else
      var st3 := st.(hourly := Written(st.hourly, hourlyData));
      if st3.daily.None? && dailyData != [] then Run(st3, Threw(DailyMissing))
      else
        var st4 := st3.(daily := Written(st3.daily, dailyData));
        if st4.monthly.None? && monthlyData != [] then Run(st4, Threw(MonthlyMissing))
        else
          var st5 := st4.(monthly := Written(st4.monthly, monthlyData));
          Run(Cleaned(st5, now), Done)
  }

  /**
   * processTimeseriesData(o) with the clock reading `now`: initialize when
   * `o.timeseries` is missing; sort `all` in place and roll it up hourly;
   * roll up the hourly tier daily and the daily tier monthly, both as they
   * were before this call writes anything; write; clean up.
   */
  ghost function Processed(st: Snapshot, now: int): Run
  {
    var st1 := if st.hasTimeseries then st else Initialized(st);
    if st1.all.None? then Run(st1, Threw(AllMissing))
    else Aggregated(st1.(all := Some(InsertionSort(st1.all.value))), now)
  }

  /** The rest of the call once `all` is sorted: the three rollups, then the writes. */
  ghost function Aggregated(st: Snapshot, now: int): Run
    requires st.all.Some?
  {
    if !st.hasAggregates then Run(st, Threw(AggregatesMissing))
    else
      Stored(st, Windows(st.all.value, Hour, map[]), Rolled(Listed(st.hourly), Day),
             Rolled(Listed(st.daily), Month), now)
  }

  /**
   * Every record is late enough for the resolution it is rolled up at: the
   * raw records for an hour, the hourly reports for a day, the daily reports
   * for a month (a bucket label of 0 would read as "no anchor yet").
   */
  ghost predicate Bounded(st: Snapshot)
  {
    && (st.all.Some? ==> forall i :: 0 <= i < |st.all.value| ==> Hour <= st.all.value[i].ts)
    && (st.hourly.Some? ==> forall k :: k in st.hourly.value ==> Day <= st.hourly.value[k].ts)
    && (st.daily.Some? ==> forall k :: k in st.daily.value ==> Month <= st.daily.value[k].ts)
  }

  /** The object `o`. */
  class Container {
    var hasTimeseries: bool
    var all: Option<seq<Record>>
    var hasAggregates: bool
    var hourly: Option<Tier>
    var daily: Option<Tier>
    var monthly: Option<Tier>

    function State(): Snapshot
      reads this
    {
      Snapshot(hasTimeseries, all, hasAggregates, hourly, daily, monthly)
    }

    /** initializeTimeseriesData(o) (index.js:111-126). */
    method Initialize()
      requires State().Valid()
      modifies this
      ensures State() == Initialized(old(State()))
    {
      if !hasTimeseries {
        hasTimeseries, all, hasAggregates := true, Some([]), true;
        hourly, daily, monthly := Some(map[]), Some(map[]), Some(map[]);
      }
      if hasTimeseries {
        if all.None? {
          all := Some([]);
        }
        if !hasAggregates {
          hasAggregates := true;
        }
        if monthly.None? {
          monthly := Some(map[]);
        }
        if hourly.None? {
          hourly := Some(map[]);
        }
        if daily.None? {
          daily := Some(map[]);
        }
      }
    }

    /**
     * formatTimeseriesData on a fresh array holding d (the for-in lists of
     * index.js:146-165 are such arrays).
     */
    static method RollList(d: seq<Record>, r: nat) returns (output: seq<Record>)
      requires r > 0 && forall i :: 0 <= i < |d| ==> r <= d[i].ts
      ensures output == Rolled(d, r)
    {
      var a := new Record[|d|](i requires 0 <= i < |d| => d[i]);
      assert a[..] == d;
      output := FormatTimeseriesData(a, r, map[]);
    }

    /** One forEach of index.js:171-181: writes data into a tier, throwing if the tier is missing. */
    static method WriteTier(t: Option<Tier>, data: seq<Record>) returns (r: Option<Tier>, threw: bool)
      ensures threw <==> t.None? && data != []
      ensures r == Written(t, data)
    {
      r := t;
      threw := false;
      if t.None? {
        threw := data != [];
      } else {
        var u := OverlayTier(t.value, data);
        r := Some(u);
      }
    }

    /** The cleanup of `all` and the evictions (index.js:187-203). */
    method Cleanup(now: int)
      requires all.Some?
      modifies this
      ensures State() == Cleaned(old(State()), now)
    {
      var twentyFourHoursAgo := now - 24 * 60 * 60 * 1000;
      var fourtyEightHoursAgo := now - 48 * 60 * 60 * 1000;
      var thirtyTwoDaysAgo := now - 32 * 24 * 60 * 60 * 1000;
      var kept := SweepStale(all.value, twentyFourHoursAgo);
      all := Some(kept);
      if hourly.Some? {
        var t := EvictTier(hourly.value, fourtyEightHoursAgo);
        hourly := Some(t);
      }
      if daily.Some? {
        var t := EvictTier(daily.value, thirtyTwoDaysAgo);
        daily := Some(t);
      }
    }

    /**
     * The writes of the three batches (index.js:171-181) followed, when none
     * threw, by the cleanup.
     */
    method WriteAll(hourlyData: seq<Record>, dailyData: seq<Record>, monthlyData: seq<Record>, now: int)
      returns (outcome: Outcome)
      requires all.Some?
      modifies this
      ensures Run(State(), outcome) == Stored(old(State()), hourlyData, dailyData, monthlyData, now)
    {
      var threw;
      hourly, threw := WriteTier(hourly, hourlyData);
      if threw {
        return Threw(HourlyMissing);
      }
      daily, threw := WriteTier(daily, dailyData);
      if threw {
        return Threw(DailyMissing);
      }
      monthly, threw := WriteTier(monthly, monthlyData);
      if threw {
        return Threw(MonthlyMissing);
      }
      Cleanup(now);
      return Done;
    }

    /**
     * From the access to `aggregates` on (index.js:146-203), with `all`
     * already sorted and rolled up into hourlyData.
     */
    method Aggregate(hourlyData: seq<Record>, now: int) returns (outcome: Outcome)
      requires all.Some? && hourlyData == Windows(all.value, Hour, map[])
      requires Bounded(State())
      modifies this
      ensures Run(State(), outcome) == Aggregated(old(State()), now)
    {
      if !hasAggregates {
        return Threw(AggregatesMissing);
      }
      var hourlyList := TierValues(hourly);
      ListedBounded(hourly, Day);
      assert hourlyList == Listed(hourly);
      var dailyData := RollList(hourlyList, 24 * 60 * 60 * 1000);
      var dailyList := TierValues(daily);
      ListedBounded(daily, Month);
      assert dailyList == Listed(daily);
      var monthlyData := RollList(dailyList, 2629743840);
      outcome := WriteAll(hourlyData, dailyData, monthlyData, now);
    }

    /**
     * processTimeseriesData(o) (index.js:132-206). The clock is read once,
     * as `now`.
     */
    method Process(now: int) returns (outcome: Outcome)
      requires State().Valid() && Bounded(State())
      modifies this
      ensures State() == Processed(old(State()), now).store
      ensures outcome == Processed(old(State()), now).outcome
    {
      if !hasTimeseries {
        Initialize();
      }
      assert Bounded(State());
      if all.None? {
        return Threw(AllMissing);
      }
      ghost var raw := all.value;
      var hourlyData := FormatAll();
      SortKeepsBound(raw, Hour);
      outcome := Aggregate(hourlyData, now);
    }

    /**
     * `formatTimeseriesData(o.timeseries.all, 60 * 60 * 1000)` (index.js:142):
     * `all` is sorted in place, and the hourly reports returned.
     */
    method FormatAll() returns (hourlyData: seq<Record>)
      requires all.Some? && forall i :: 0 <= i < |all.value| ==> Hour <= all.value[i].ts
      modifies this
      ensures State() == old(State()).(all := Some(InsertionSort(old(all).value)))
      ensures hourlyData == Windows(all.value, Hour, map[])
    {
      var raw := all.value;
      var d := new Record[|raw|](i requires 0 <= i < |raw| => raw[i]);
      assert d[..] == raw;
      assert forall i :: 0 <= i < d.Length ==> Hour <= d[i].ts;
      hourlyData := FormatTimeseriesData(d, 60 * 60 * 1000, map[]);
      all := Some(d[..]);
    }
  }

  /** The reports a tier lists are as late as the tier's reports. */
  lemma ListedBounded(t: Option<Tier>, lo: int)
    requires t.Some? ==> forall k :: k in t.value ==> lo <= t.value[k].ts
    ensures forall i :: 0 <= i < |Listed(t)| ==> lo <= Listed(t)[i].ts
  {
    if t.Some? {
      AscendingValuesMembers(t.value);
      forall i | 0 <= i < |Listed(t)| ensures lo <= Listed(t)[i].ts {
        var k :| k in t.value && t.value[k] == Listed(t)[i];
      }
    }
  }
}
