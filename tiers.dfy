/**
 * The pieces of processTimeseriesData (index.js:132-206) that act on one
 * part of the store: enumerating an aggregate tier, writing a batch of
 * reports into it, evicting its old buckets, and the cleanup of the raw
 * record list `all`.
 */
module Tiers {
  import opened Records
  import opened Sorting

  /** An aggregate tier (`hourly`, `daily`, `monthly`): bucket ts to the report stored for it. */
  type Tier = map<int, Record>

  // ---------------------------------------------------------------------
  // Enumerating a tier (index.js:146-152, 159-165)
  // ---------------------------------------------------------------------

  /** A set without members is the empty set. */
  lemma EmptyIfNone(s: set<int>)
    ensures (forall k :: k !in s) ==> s == {}
  {
    if forall k :: k !in s {
      assert forall k :: k in s <==> k in {};
    }
  }

  /** The smaller of x and the least of the rest is the least of all. */
  lemma MinStep(ks: set<int>, x: int, y: int)
    requires x in ks && y in ks - {x}
    requires forall j :: j in ks - {x} ==> y <= j
    ensures forall j :: j in ks ==> Min(x, y) <= j
  {
    forall j | j in ks ensures Min(x, y) <= j {
      if j != x {
        assert j in ks - {x};
      }
    }
  }

  /** The smallest key. */
  ghost function MinKey(ks: set<int>): (k: int)
    requires ks != {}
    ensures k in ks && forall j :: j in ks ==> k <= j
    decreases |ks|
  {
    EmptyIfNone(ks);
    var x :| x in ks;
    if ks == {x} then x
    else
      var y := MinKey(ks - {x});
      MinStep(ks, x, y);
      Min(x, y)
  }

  /** A tier's reports in ascending key order. */
  ghost function AscendingValues(t: Tier): seq<Record>
    decreases |t.Keys|
  {
    if t.Keys == {} then []
    else
      var k := MinKey(t.Keys);
      assert (t - {k}).Keys == t.Keys - {k};
      [t[k]] + AscendingValues(t - {k})
  }

  /** A tier's keys in ascending order, the order its reports are listed in. */
  ghost function AscendingKeys(t: Tier): seq<int>
    decreases |t.Keys|
  {
    if t.Keys == {} then []
    else
      var k := MinKey(t.Keys);
      assert (t - {k}).Keys == t.Keys - {k};
      [k] + AscendingKeys(t - {k})
  }

  /**
   * ks and vs list tier t: the keys are the tier's keys, each once, in
   * strictly increasing order, and the i-th report is the one under the
   * i-th key.
   */
  ghost predicate Lists(t: Tier, ks: seq<int>, vs: seq<Record>)
  {
    && |ks| == |vs| == |t.Keys|
    && (forall i, j :: 0 <= i < j < |ks| ==> ks[i] < ks[j])
    && (forall k :: k in t <==> k in ks)
    && (forall i :: 0 <= i < |ks| ==> ks[i] in t && vs[i] == t[ks[i]])
  }

  /** The least key, then keys of the rest in increasing order, is increasing. */
  lemma StepIncreasing(t: Tier, k: int, ks: seq<int>)
    requires forall j :: j in t ==> k <= j
    requires forall i :: 0 <= i < |ks| ==> ks[i] in t - {k}
    requires forall i, j :: 0 <= i < j < |ks| ==> ks[i] < ks[j]
    ensures forall i, j :: 0 <= i < j < |[k] + ks| ==> ([k] + ks)[i] < ([k] + ks)[j]
  {
    var ks1 := [k] + ks;
    forall i, j | 0 <= i < j < |ks1| ensures ks1[i] < ks1[j] {
      assert ks1[j] == ks[j - 1];
      if i > 0 {
        assert ks1[i] == ks[i - 1];
      }
    }
  }

  /** The least key, then the keys of the rest, are the tier's keys. */
  lemma StepKeys(t: Tier, k: int, ks: seq<int>)
    requires k in t
    requires forall k' :: k' in t - {k} <==> k' in ks
    ensures forall k' :: k' in t <==> k' in [k] + ks
  {
    forall k' ensures k' in t <==> k' in [k] + ks {
      assert k' in t <==> k' == k || k' in t - {k};
    }
  }

  /** The report under the least key, then the reports of the rest, each under its key. */
  lemma StepValues(t: Tier, k: int, ks: seq<int>, vs: seq<Record>)
    requires k in t && |ks| == |vs|
    requires forall i :: 0 <= i < |ks| ==> ks[i] in t - {k} && vs[i] == (t - {k})[ks[i]]
    ensures forall i :: 0 <= i < |[k] + ks| ==> ([k] + ks)[i] in t && ([t[k]] + vs)[i] == t[([k] + ks)[i]]
  {
    var ks1, vs1 := [k] + ks, [t[k]] + vs;
    forall i | 0 <= i < |ks1| ensures ks1[i] in t && vs1[i] == t[ks1[i]] {
      if i > 0 {
        assert ks1[i] == ks[i - 1] && vs1[i] == vs[i - 1];
      }
    }
  }

  /** Listing the least key first, then the rest of the tier. */
  lemma ListsStep(t: Tier, k: int, ks: seq<int>, vs: seq<Record>)
    requires k in t && forall j :: j in t ==> k <= j
    requires Lists(t - {k}, ks, vs)
    ensures Lists(t, [k] + ks, [t[k]] + vs)
  {
    assert |[k] + ks| == |[t[k]] + vs| == |t.Keys| by {
      assert (t - {k}).Keys == t.Keys - {k};
    }
    StepIncreasing(t, k, ks);
    StepKeys(t, k, ks);
    StepValues(t, k, ks, vs);
  }

  /** Enumeration lists every report of the tier once, under ascending keys, and nothing else. */
  lemma {:induction false} AscendingValuesMembers(t: Tier)
    ensures Lists(t, AscendingKeys(t), AscendingValues(t))
    decreases |t.Keys|
  {
    if t.Keys != {} {
      var k := MinKey(t.Keys);
      var rest := t - {k};
      assert rest.Keys == t.Keys - {k};
      AscendingValuesMembers(rest);
      ListsStep(t, k, AscendingKeys(rest), AscendingValues(rest));
    } else {
      assert t.Keys == {};
    }
  }

  /**
   * `for (let k in tier) list.push(tier[k])` (index.js:148-152): the reports
   * of the tier, one per key, in ascending key order. A missing tier
   * (`for ... in undefined`) yields nothing.
   */
  method TierValues(t: Option<Tier>) returns (vals: seq<Record>)
    ensures t.None? ==> vals == []
    ensures t.Some? ==> vals == AscendingValues(t.value)
  {
    vals := [];
    if t.None? {
      return;
    }
    var rest := t.value;
    while rest.Keys != {}
      invariant vals + AscendingValues(rest) == AscendingValues(t.value)
      decreases |rest.Keys|
    {
      var k :| k in rest && forall j :: j in rest ==> k <= j;
      assert k == MinKey(rest.Keys);
      assert AscendingValues(rest) == [rest[k]] + AscendingValues(rest - {k});
      vals := vals + [rest[k]];
      assert (rest - {k}).Keys == rest.Keys - {k};
      rest := rest - {k};
    }
  }

  // ---------------------------------------------------------------------
  // Writing a tier (index.js:171-181)
  // ---------------------------------------------------------------------

  /** The tier after `data.forEach(item => tier[item.ts] = item)`. */
  function Overlay(t: Tier, data: seq<Record>): Tier
  {
    if data == [] then t
    else Overlay(t, data[..|data| - 1])[data[|data| - 1].ts := data[|data| - 1]]
  }

  /** The timestamps of a batch of reports. */
  function Stamps(data: seq<Record>): set<int>
  {
    set i | 0 <= i < |data| :: data[i].ts
  }

  /** Timestamps strictly increase along the batch, as formatTimeseriesData's output does. */
  ghost predicate Increasing(data: seq<Record>)
  {
    forall i, j :: 0 <= i < j < |data| ==> data[i].ts < data[j].ts
  }

  /**
   * Writing a batch with distinct stamps adds exactly those keys, stores
   * every report under its own stamp, and leaves all other buckets as they
   * were.
   */
  lemma {:induction false} OverlayEffect(t: Tier, data: seq<Record>)
    requires Increasing(data)
    ensures Overlay(t, data).Keys == t.Keys + Stamps(data)
    ensures forall i :: 0 <= i < |data| ==> Overlay(t, data)[data[i].ts] == data[i]
    ensures forall k :: k in t && k !in Stamps(data) ==> Overlay(t, data)[k] == t[k]
  {
    if data != [] {
      var init, x := data[..|data| - 1], data[|data| - 1];
      OverlayEffect(t, init);
      StampsSnoc(data);
      var o := Overlay(t, data);
      assert o == Overlay(t, init)[x.ts := x];
      forall i | 0 <= i < |data| ensures o[data[i].ts] == data[i] {
        if i < |init| {
          assert init[i] == data[i] && data[i].ts < x.ts;
        }
      }
    }
  }

  lemma StampsSnoc(data: seq<Record>)
    requires data != []
    ensures Stamps(data) == Stamps(data[..|data| - 1]) + {data[|data| - 1].ts}
  {
    var init := data[..|data| - 1];
    assert forall i :: 0 <= i < |init| ==> init[i] == data[i];
    forall k | k in Stamps(data) ensures k in Stamps(init) + {data[|data| - 1].ts} {
      var i :| 0 <= i < |data| && data[i].ts == k;
      if i < |init| {
        assert init[i].ts == k;
      }
    }
  }

  /** Every report in a written tier was there before or came with the batch. */
  lemma {:induction false} OverlayMembers(t: Tier, data: seq<Record>)
    ensures forall k :: k in Overlay(t, data) ==> (k in t && Overlay(t, data)[k] == t[k]) || Overlay(t, data)[k] in data
  {
    if data != [] {
      var init := data[..|data| - 1];
      OverlayMembers(t, init);
      forall k | k in Overlay(t, data) ensures (k in t && Overlay(t, data)[k] == t[k]) || Overlay(t, data)[k] in data {
        if k != data[|data| - 1].ts {
          var v := Overlay(t, init)[k];
          if v in init {
            var i :| 0 <= i < |init| && init[i] == v;
            assert data[i] == v;
          }
        }
      }
    }
  }

  /** The forEach that writes a batch into a tier (index.js:171-173). */
  method OverlayTier(t: Tier, data: seq<Record>) returns (r: Tier)
    ensures r == Overlay(t, data)
  {
    r := t;
    for i := 0 to |data|
      invariant r == Overlay(t, data[..i])
    {
      assert data[..i + 1][..i] == data[..i];
      r := r[data[i].ts := data[i]];
    }
    assert data[..|data|] == data;
  }

  // ---------------------------------------------------------------------
  // Evicting old buckets (index.js:191-203)
  // ---------------------------------------------------------------------

  /** The tier without the buckets older than cutoff. */
  function Evicted(t: Tier, cutoff: int): Tier
  {
    map k | k in t && cutoff <= k :: t[k]
  }

  /**
   * `for (let k in tier) if (k < cutoff) delete tier[k]`: the keys below the
   * cutoff go, every key at or after it stays with its report.
   */
  method EvictTier(t: Tier, cutoff: int) returns (r: Tier)
    ensures r == Evicted(t, cutoff)
    ensures forall k :: k in r <==> k in t && cutoff <= k
    ensures forall k :: k in r ==> r[k] == t[k]
  {
    r := t;
    var rest := t.Keys;
    while rest != {}
      invariant rest <= t.Keys
      invariant forall k :: k in r <==> k in t && (k in rest || cutoff <= k)
      invariant forall k :: k in r ==> r[k] == t[k]
      decreases rest
    {
      EmptyIfNone(rest);
      var k :| k in rest;
      if k < cutoff {
        r := r - {k};
      }
      rest := rest - {k};
    }
    assert forall k :: k in r <==> k in Evicted(t, cutoff);
  }

  // ---------------------------------------------------------------------
  // Cleaning up the raw records (index.js:187-189)
  // ---------------------------------------------------------------------

  /**
   * `all.forEach((item, i) => { if (item.ts < cut) all.splice(i, 1) })`.
   * forEach moves on to index i + 1 after a splice at i, so the record that
   * slid into index i is never looked at: after a stale record, the next one
   * is kept unexamined.
   */
  function Sweep(s: seq<Record>, cut: int): seq<Record>
  {
    if s == [] then []
    else if s[0].ts < cut then (if |s| == 1 then [] else [s[1]] + Sweep(s[2..], cut))
    else [s[0]] + Sweep(s[1..], cut)
  }

  /**
   * The cleanup loop over `all`. forEach visits the indices below the
   * length the array had when it started, and skips those the splices have
   * moved past the end.
   */
  method SweepStale(s: seq<Record>, cut: int) returns (a: seq<Record>)
    ensures a == Sweep(s, cut)
  {
    a := s;
    var n := |a|;
    for i := 0 to n
      invariant |a| <= n
      invariant a[..Min(i, |a|)] + Sweep(a[Min(i, |a|)..], cut) == Sweep(s, cut)
    {
      if i < |a| && a[i].ts < cut {
        SpliceStep(a, i, cut);
        a := a[..i] + a[i + 1..];
      } else if i < |a| {
        KeepStep(a, i, cut);
      }
    }
    assert a[..|a|] == a;
  }

  /** Splicing out the stale record at i: the record that slides into i is kept unexamined. */
  lemma SpliceStep(a: seq<Record>, i: int, cut: int)
    requires 0 <= i < |a| && a[i].ts < cut
    ensures var b := a[..i] + a[i + 1..];
      b[..Min(i + 1, |b|)] + Sweep(b[Min(i + 1, |b|)..], cut) == a[..i] + Sweep(a[i..], cut)
  {
    var b := a[..i] + a[i + 1..];
    if i + 1 < |a| {
      assert a[i..][2..] == a[i + 2..];
      assert b[..i + 1] == a[..i] + [a[i + 1]];
      assert b[i + 1..] == a[i + 2..];
    } else {
      assert b == a[..i];
    }
  }

  /** Passing over the recent record at i. */
  lemma KeepStep(a: seq<Record>, i: int, cut: int)
    requires 0 <= i < |a| && a[i].ts >= cut
    ensures a[..i + 1] + Sweep(a[i + 1..], cut) == a[..i] + Sweep(a[i..], cut)
  {
    assert a[i..][1..] == a[i + 1..];
    assert a[..i + 1] == a[..i] + [a[i]];
  }

  /** t keeps some of the elements of s, in their order. */
  ghost predicate Subsequence(t: seq<Record>, s: seq<Record>)
    decreases |s|
  {
    if t == [] then true
    else if s == [] then false
    else (t[0] == s[0] && Subsequence(t[1..], s[1..])) || Subsequence(t, s[1..])
  }

  /** The cleanup keeps its survivors in their order. */
  lemma {:induction false} SweepSubsequence(s: seq<Record>, cut: int)
    ensures Subsequence(Sweep(s, cut), s)
    decreases |s|
  {
    if s == [] {
    } else if s[0].ts < cut {
      if |s| > 1 {
        var rest := Sweep(s[2..], cut);
        SweepSubsequence(s[2..], cut);
        var t := [s[1]] + rest;
        assert t[1..] == rest && s[1..][1..] == s[2..];
        assert Subsequence(t, s[1..]);
      }
    } else {
      SweepSubsequence(s[1..], cut);
      assert ([s[0]] + Sweep(s[1..], cut))[1..] == Sweep(s[1..], cut);
    }
  }

  /** The records of s with ts at or after cut, in order. */
  function Recent(s: seq<Record>, cut: int): seq<Record>
  {
    if s == [] then []
    else (if s[0].ts >= cut then [s[0]] else []) + Recent(s[1..], cut)
  }

  /**
   * The cleanup only ever drops stale records: the records with ts at or
   * after the cutoff survive, all of them and in their order.
   */
  lemma {:induction false} SweepKeepsRecent(s: seq<Record>, cut: int)
    ensures Recent(Sweep(s, cut), cut) == Recent(s, cut)
    decreases |s|
  {
    if s != [] && s[0].ts < cut && |s| > 1 {
      var tail := s[2..];
      SweepKeepsRecent(tail, cut);
      assert s[1..][1..] == tail;
      assert ([s[1]] + Sweep(tail, cut))[1..] == Sweep(tail, cut);
    } else if s != [] && s[0].ts >= cut {
      SweepKeepsRecent(s[1..], cut);
      assert ([s[0]] + Sweep(s[1..], cut))[1..] == Sweep(s[1..], cut);
    }
  }

  /** Every survivor of the cleanup was in the list. */
  lemma {:induction false} SweepMembers(s: seq<Record>, cut: int)
    ensures forall x :: x in Sweep(s, cut) ==> x in s
    decreases |s|
  {
    if s != [] && s[0].ts < cut && |s| > 1 {
      SweepMembers(s[2..], cut);
      forall x | x in Sweep(s[2..], cut) ensures x in s {
        var i :| 0 <= i < |s[2..]| && s[2..][i] == x;
        assert s[i + 2] == x;
      }
    } else if s != [] && s[0].ts >= cut {
      SweepMembers(s[1..], cut);
      forall x | x in Sweep(s[1..], cut) ensures x in s {
        var i :| 0 <= i < |s[1..]| && s[1..][i] == x;
        assert s[i + 1] == x;
      }
    }
  }

  /** Every second element of t, starting with the second: what survives of a stale run. */
  function OddPositions(t: seq<Record>): seq<Record>
  {
    seq(|t| / 2, j requires 0 <= j < |t| / 2 => t[2 * j + 1])
  }

  /** The stale records of s are exactly its first p. */
  ghost predicate StaleRun(s: seq<Record>, cut: int, p: int)
  {
    && 0 <= p <= |s|
    && (forall i :: 0 <= i < p ==> s[i].ts < cut)
    && (forall i :: p <= i < |s| ==> s[i].ts >= cut)
  }

  /**
   * On a list whose p stale records come first, as after the sort that
   * formatTimeseriesData applies to `all`, the cleanup keeps every second
   * stale record and all fresh ones.
   */
  lemma {:induction false} SweepStaleRun(s: seq<Record>, cut: int, p: int)
    requires StaleRun(s, cut, p)
    ensures Sweep(s, cut) == OddPositions(s[..p]) + s[p..]
    decreases p
  {
    if p == 0 {
      SweepAllRecent(s, cut);
      assert s[..0] == [] && s[0..] == s;
    } else if p == 1 {
      if |s| > 1 {
        SweepAllRecent(s[2..], cut);
        assert [s[1]] + s[2..] == s[1..];
      }
    } else {
      var u := s[2..];
      assert StaleRun(u, cut, p - 2);
      SweepStaleRun(u, cut, p - 2);
      assert u[..p - 2] == s[2..p] && u[p - 2..] == s[p..];
      SweepRunStep(s, cut, p);
    }
  }

  /** Two stale records in front: the second is kept, the sweep resumes after it. */
  lemma SweepRunStep(s: seq<Record>, cut: int, p: int)
    requires StaleRun(s, cut, p) && p >= 2
    requires Sweep(s[2..], cut) == OddPositions(s[2..p]) + s[p..]
    ensures Sweep(s, cut) == OddPositions(s[..p]) + s[p..]
  {
    assert Sweep(s, cut) == [s[1]] + Sweep(s[2..], cut);
    OddPositionsStep(s[..p]);
    assert s[..p][2..] == s[2..p];
  }

  lemma OddPositionsStep(t: seq<Record>)
    requires |t| >= 2
    ensures OddPositions(t) == [t[1]] + OddPositions(t[2..])
  {
  }

  /** So the cleanup removes ceil(p / 2) of the p stale records, not all of them. */
  lemma SweepStaleRunCount(s: seq<Record>, cut: int, p: int)
    requires StaleRun(s, cut, p)
    ensures |s| - |Sweep(s, cut)| == (p + 1) / 2
  {
    SweepStaleRun(s, cut, p);
  }

  /** With nothing stale, the cleanup keeps everything. */
  lemma {:induction false} SweepAllRecent(s: seq<Record>, cut: int)
    requires forall i :: 0 <= i < |s| ==> s[i].ts >= cut
    ensures Sweep(s, cut) == s
    decreases |s|
  {
    if s != [] {
      SweepAllRecent(s[1..], cut);
    }
  }

  /** On a list sorted by ts the stale records come first: they are its first |s| - |Recent(s, cut)|. */
  lemma {:induction false} SortedStaleRun(s: seq<Record>, cut: int)
    requires SortedByTs(s)
    ensures StaleRun(s, cut, |s| - |Recent(s, cut)|)
    decreases |s|
  {
    if s != [] {
      var tail := s[1..];
      assert SortedByTs(tail) by {
        forall i, j | 0 <= i < j < |tail| ensures tail[i].ts <= tail[j].ts {
          assert tail[i] == s[i + 1] && tail[j] == s[j + 1];
        }
      }
      SortedStaleRun(tail, cut);
      if s[0].ts >= cut {
        RecentAll(s, cut);
      } else {
        forall i | 1 <= i < |s| - |Recent(s, cut)| ensures s[i].ts < cut {
          assert s[i] == tail[i - 1];
        }
        forall i | |s| - |Recent(s, cut)| <= i < |s| ensures s[i].ts >= cut {
          assert s[i] == tail[i - 1];
        }
      }
    }
  }

  /** With nothing stale, Recent keeps everything. */
  lemma {:induction false} RecentAll(s: seq<Record>, cut: int)
    requires SortedByTs(s) && s != [] && s[0].ts >= cut
    ensures Recent(s, cut) == s
    decreases |s|
  {
    var tail := s[1..];
    if tail != [] {
      assert SortedByTs(tail) by {
        forall i, j | 0 <= i < j < |tail| ensures tail[i].ts <= tail[j].ts {
          assert tail[i] == s[i + 1] && tail[j] == s[j + 1];
        }
      }
      assert tail[0] == s[1];
      RecentAll(tail, cut);
    }
  }
}
