/**
 * What a call of processTimeseriesData (index.js:132-206) guarantees, stated
 * on the specification `Processed`, which the method Container.Process is
 * proved to follow: when and where it throws and what it leaves behind,
 * what each tier holds afterwards, what the cleanup of `all` keeps, and that
 * the store stays fit for the next call.
 */
module Guarantees {
  import opened Records
  import opened Sorting
  import opened Aggregator
  import opened Tiers
  import opened Store

  // ---------------------------------------------------------------------
  // Outcome
  // ---------------------------------------------------------------------

  /**
   * Which TypeError a call throws, read off the store before the call
   * alone: a missing `all`, a missing `aggregates`, or a missing tier that
   * has something to be written into it. A missing `o.timeseries` is
   * created first and never throws.
   */
  function ExpectedFault(st: Snapshot): Option<Fault>
    requires st.Valid()
  {
    if !st.hasTimeseries then None
    else if st.all.None? then Some(AllMissing)
    else if !st.hasAggregates then Some(AggregatesMissing)
    else if st.hourly.None? && st.all.value != [] then Some(HourlyMissing)
    else if st.daily.None? && st.hourly.Some? && st.hourly.value != map[] then Some(DailyMissing)
    else if st.monthly.None? && st.daily.Some? && st.daily.value != map[] then Some(MonthlyMissing)
    else None
  }

  /** A rollup is empty exactly when its input is. */
  lemma RolledEmpty(d: seq<Record>, r: int)
    requires r > 0
    ensures Rolled(d, r) == [] <==> d == []
  {
    InsertionSortCorrect(d);
    WindowsCount(InsertionSort(d), r, map[]);
  }

  /** A tier lists nothing exactly when it is missing or empty. */
  lemma ListedEmpty(t: Option<Tier>)
    ensures Listed(t) == [] <==> t.None? || t.value == map[]
  {
    if t.Some? {
      AscendingValuesMembers(t.value);
      if t.value.Keys == {} {
        assert t.value == map[];
      }
    }
  }

  /** A call throws exactly the TypeError ExpectedFault names, and otherwise completes. */
  lemma ProcessOutcome(st: Snapshot, now: int)
    requires st.Valid()
    ensures Processed(st, now).outcome == if ExpectedFault(st).Some? then Threw(ExpectedFault(st).value) else Done
  {
    if st.hasTimeseries && st.all.Some? && st.hasAggregates {
      var s := InsertionSort(st.all.value);
      InsertionSortCorrect(st.all.value);
      WindowsCount(s, Hour, map[]);
      ListedEmpty(st.hourly);
      ListedEmpty(st.daily);
      RolledEmpty(Listed(st.hourly), Day);
      RolledEmpty(Listed(st.daily), Month);
    }
  }

  /** A store whose parts are all set never throws. */
  lemma ReadyCompletes(st: Snapshot, now: int)
    requires st.Ready()
    ensures Processed(st, now).outcome == Done
  {
    ProcessOutcome(st, now);
  }

  /**
   * What a throwing call leaves behind: nothing when `all` is missing (the
   * store is not initialized, as `o.timeseries` is set); otherwise `all`
   * stays sorted in place and uncleaned, and the monthly tier untouched.
   * The writes made before the throw stay: the hourly batch when the daily
   * or monthly tier is missing (a missing hourly tier stays missing when
   * its batch is empty), and the daily batch too when the monthly tier is
   * missing.
   */
  lemma ProcessFaultState(st: Snapshot, now: int)
    requires st.Valid()
    ensures Processed(st, now).outcome == Threw(AllMissing) ==> Processed(st, now).store == st
    ensures Processed(st, now).outcome.Threw? && Processed(st, now).outcome.fault != AllMissing ==>
      && st.all.Some?
      && Processed(st, now).store.all == Some(InsertionSort(st.all.value))
      && Processed(st, now).store.monthly == st.monthly
    ensures Processed(st, now).outcome == Threw(DailyMissing) || Processed(st, now).outcome == Threw(MonthlyMissing) ==>
      && st.all.Some?
      && Processed(st, now).store.hourly == Written(st.hourly, Windows(InsertionSort(st.all.value), Hour, map[]))
    ensures Processed(st, now).outcome == Threw(DailyMissing) ==>
      st.hourly.Some? && Processed(st, now).store.daily == None
    ensures Processed(st, now).outcome == Threw(MonthlyMissing) ==>
      && st.daily.Some?
      && Processed(st, now).store.daily == Some(Overlay(st.daily.value, Rolled(Listed(st.hourly), Day)))
  {
    if st.hasTimeseries && st.all.Some? && st.hasAggregates {
      var s := InsertionSort(st.all.value);
      assert Processed(st, now) == Stored(st.(all := Some(s)), Windows(s, Hour, map[]),
        Rolled(Listed(st.hourly), Day), Rolled(Listed(st.daily), Month), now);
      ListedEmpty(st.hourly);
      ListedEmpty(st.daily);
      RolledEmpty(Listed(st.hourly), Day);
      RolledEmpty(Listed(st.daily), Month);
    }
  }

  // ---------------------------------------------------------------------
  // The tiers after a completed call
  // ---------------------------------------------------------------------

  lemma WindowsIncreasingAll(s: seq<Record>, r: int, m: Policy)
    requires r > 0
    ensures Increasing(Windows(s, r, m))
  {
    forall i, j | 0 <= i < j < |Windows(s, r, m)| ensures Windows(s, r, m)[i].ts < Windows(s, r, m)[j].ts {
      WindowsIncreasing(s, r, m, i, j);
    }
  }

  /**
   * A batch written into a tier whose old buckets are then evicted: the keys
   * are the old and the new ones at or after the cutoff, a new bucket holds
   * its report, an old one not in the batch keeps its report.
   */
  lemma WriteThenEvict(t: Tier, data: seq<Record>, cutoff: int)
    requires Increasing(data)
    ensures forall k :: k in Evicted(Overlay(t, data), cutoff) <==> (k in t || k in Stamps(data)) && cutoff <= k
    ensures forall i :: 0 <= i < |data| && cutoff <= data[i].ts ==>
      data[i].ts in Evicted(Overlay(t, data), cutoff) && Evicted(Overlay(t, data), cutoff)[data[i].ts] == data[i]
    ensures forall k :: k in t && k !in Stamps(data) && cutoff <= k ==> Evicted(Overlay(t, data), cutoff)[k] == t[k]
  {
    OverlayEffect(t, data);
  }

  /** The store after a call on a store whose parts are all set, stage by stage. */
  lemma ReadyStore(st: Snapshot, now: int)
    requires st.Ready()
    ensures var s := InsertionSort(st.all.value);
      Processed(st, now).store == Snapshot(
        true, Some(Sweep(s, now - AllKept)), true,
        Some(Evicted(Overlay(st.hourly.value, Windows(s, Hour, map[])), now - HourlyKept)),
        Some(Evicted(Overlay(st.daily.value, Rolled(Listed(st.hourly), Day)), now - DailyKept)),
        Some(Overlay(st.monthly.value, Rolled(Listed(st.daily), Month))))
  {
  }

  /**
   * The hourly tier after a call: the hourly rollup of `all` written over
   * it, then every bucket older than 48 hours before now deleted.
   */
  lemma ProcessHourly(st: Snapshot, now: int)
    requires st.Ready()
    ensures var H, t, cutoff := Windows(InsertionSort(st.all.value), Hour, map[]), Processed(st, now).store.hourly, now - HourlyKept;
      && t.Some?
      && (forall k :: k in t.value <==> (k in st.hourly.value || k in Stamps(H)) && cutoff <= k)
      && (forall i :: 0 <= i < |H| && cutoff <= H[i].ts ==> t.value[H[i].ts] == H[i])
      && (forall k :: k in st.hourly.value && k !in Stamps(H) && cutoff <= k ==> t.value[k] == st.hourly.value[k])
  {
    var H := Windows(InsertionSort(st.all.value), Hour, map[]);
    ReadyStore(st, now);
    WindowsIncreasingAll(InsertionSort(st.all.value), Hour, map[]);
    WriteThenEvict(st.hourly.value, H, now - HourlyKept);
  }

  /**
   * The daily tier after a call: the daily rollup of the hourly tier as it
   * was before the call (not of this call's hourly reports) written over
   * it, then every bucket older than 32 days before now deleted.
   */
  lemma ProcessDaily(st: Snapshot, now: int)
    requires st.Ready()
    ensures var D, t, cutoff := Rolled(AscendingValues(st.hourly.value), Day), Processed(st, now).store.daily, now - DailyKept;
      && t.Some?
      && (forall k :: k in t.value <==> (k in st.daily.value || k in Stamps(D)) && cutoff <= k)
      && (forall i :: 0 <= i < |D| && cutoff <= D[i].ts ==> t.value[D[i].ts] == D[i])
      && (forall k :: k in st.daily.value && k !in Stamps(D) && cutoff <= k ==> t.value[k] == st.daily.value[k])
  {
    var D := Rolled(AscendingValues(st.hourly.value), Day);
    ReadyStore(st, now);
    WindowsIncreasingAll(InsertionSort(AscendingValues(st.hourly.value)), Day, map[]);
    WriteThenEvict(st.daily.value, D, now - DailyKept);
  }

  /**
   * The monthly tier after a call: the monthly rollup of the daily tier as
   * it was before the call written over it. Nothing is ever evicted from it.
   */
  lemma ProcessMonthly(st: Snapshot, now: int)
    requires st.Ready()
    ensures var M, t := Rolled(AscendingValues(st.daily.value), Month), Processed(st, now).store.monthly;
      && t.Some?
      && t.value.Keys == st.monthly.value.Keys + Stamps(M)
      && (forall i :: 0 <= i < |M| ==> t.value[M[i].ts] == M[i])
      && (forall k :: k in st.monthly.value && k !in Stamps(M) ==> t.value[k] == st.monthly.value[k])
  {
    var M := Rolled(AscendingValues(st.daily.value), Month);
    ReadyStore(st, now);
    WindowsIncreasingAll(InsertionSort(AscendingValues(st.daily.value)), Month, map[]);
    OverlayEffect(st.monthly.value, M);
  }

  /**
   * a is what the sweep leaves of the sorted s: every record from the cutoff
   * on survives, in order; of the p older ones, which come first, ceil(p / 2)
   * are removed, every second one surviving.
   */
  ghost predicate SweptSorted(s: seq<Record>, a: seq<Record>, cut: int)
  {
    var p := |s| - |Recent(s, cut)|;
    && Recent(a, cut) == Recent(s, cut)
    && Subsequence(a, s)
    && StaleRun(s, cut, p)
    && a == OddPositions(s[..p]) + s[p..]
    && |s| - |a| == (p + 1) / 2
  }

  lemma SweepSorted(s: seq<Record>, cut: int)
    requires SortedByTs(s)
    ensures SweptSorted(s, Sweep(s, cut), cut)
  {
    SortedStaleRun(s, cut);
    SweepRun(s, cut, |s| - |Recent(s, cut)|);
  }

  /** The sweep of a sequence whose p stale records come first. */
  lemma SweepRun(s: seq<Record>, cut: int, p: int)
    requires StaleRun(s, cut, p) && p == |s| - |Recent(s, cut)|
    ensures SweptSorted(s, Sweep(s, cut), cut)
  {
    SweepKeepsRecent(s, cut);
    SweepSubsequence(s, cut);
    SweepStaleRun(s, cut, p);
    SweepStaleRunCount(s, cut, p);
  }

  /** `all` after a call on a store whose parts are all set: sorted, then swept as SweptSorted says. */
  lemma ProcessCleanup(st: Snapshot, now: int)
    requires st.Ready()
    ensures var a := Processed(st, now).store.all;
      a.Some? && SweptSorted(InsertionSort(st.all.value), a.value, now - AllKept)
  {
    ReadyStore(st, now);
    InsertionSortCorrect(st.all.value);
    SweepSorted(InsertionSort(st.all.value), now - AllKept);
  }

  // ---------------------------------------------------------------------
  // The store stays fit for the next call
  // ---------------------------------------------------------------------

  /**
   * 31 days after the epoch, a multiple of the hour and the day and past
   * the month. Any real clock reading is far later.
   */
  const Epoch: int := 31 * Day

  ghost predicate SeqSince(s: seq<Record>)
  {
    forall i :: 0 <= i < |s| ==> Epoch <= s[i].ts
  }

  ghost predicate TierSince(t: Option<Tier>)
  {
    t.Some? ==> forall k :: k in t.value ==> Epoch <= t.value[k].ts
  }

  /** Raw records and hourly and daily reports all lie after Epoch. */
  ghost predicate SinceEpoch(st: Snapshot)
  {
    (st.all.Some? ==> SeqSince(st.all.value)) && TierSince(st.hourly) && TierSince(st.daily)
  }

  lemma RolledSince(d: seq<Record>, r: int)
    requires r > 0 && Epoch % r == 0 && SeqSince(d)
    ensures SeqSince(Rolled(d, r))
  {
    SortKeepsBound(d, Epoch);
    WindowsAtLeast(InsertionSort(d), r, map[], Epoch);
  }

  lemma ListedSince(t: Option<Tier>)
    requires TierSince(t)
    ensures SeqSince(Listed(t))
  {
    if t.Some? {
      AscendingValuesMembers(t.value);
      forall i | 0 <= i < |Listed(t)| ensures Epoch <= Listed(t)[i].ts {
        var k :| k in t.value && t.value[k] == Listed(t)[i];
      }
    }
  }

  lemma WrittenSince(t: Option<Tier>, data: seq<Record>)
    requires TierSince(t) && SeqSince(data)
    ensures TierSince(Written(t, data))
  {
    if t.Some? {
      OverlayMembers(t.value, data);
      forall k | k in Overlay(t.value, data) ensures Epoch <= Overlay(t.value, data)[k].ts {
        var v := Overlay(t.value, data)[k];
        if v in data {
          var i :| 0 <= i < |data| && data[i] == v;
        }
      }
    }
  }

  lemma StoredSince(st: Snapshot, h: seq<Record>, d: seq<Record>, m: seq<Record>, now: int)
    requires st.all.Some? && SinceEpoch(st) && SeqSince(h) && SeqSince(d)
    ensures SinceEpoch(Stored(st, h, d, m, now).store)
  {
    WrittenSince(st.hourly, h);
    WrittenSince(st.daily, d);
    SweepMembers(st.all.value, now - AllKept);
    var a := Sweep(st.all.value, now - AllKept);
    forall i | 0 <= i < |a| ensures Epoch <= a[i].ts {
      assert a[i] in st.all.value;
    }
  }

  /**
   * Process keeps the store well formed and its timestamps after Epoch, so
   * a store that met Process's requirements meets them again afterwards,
   * whether the call completed or threw.
   */
  lemma ProcessKeepsEpoch(st: Snapshot, now: int)
    requires st.Valid() && SinceEpoch(st)
    ensures Processed(st, now).store.Valid()
    ensures SinceEpoch(Processed(st, now).store)
    ensures Bounded(Processed(st, now).store)
  {
    var st1 := if st.hasTimeseries then st else Initialized(st);
    assert SinceEpoch(st1);
    if st1.all.Some? {
      var s := InsertionSort(st1.all.value);
      SortKeepsBound(st1.all.value, Epoch);
      var st2 := st1.(all := Some(s));
      if st2.hasAggregates {
        WindowsAtLeast(s, Hour, map[], Epoch);
        ListedSince(st2.hourly);
        RolledSince(Listed(st2.hourly), Day);
        StoredSince(st2, Windows(s, Hour, map[]), Rolled(Listed(st2.hourly), Day), Rolled(Listed(st2.daily), Month), now);
      }
    }
  }
}
