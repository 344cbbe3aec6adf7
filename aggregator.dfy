/**
 * formatTimeseriesData(d, r, m) (index.js:30-106): the windowed aggregator.
 *
 * Records are sorted by timestamp and walked once. The walk keeps an anchor,
 * a datapoint counter, per-field counters and an accumulator record. A record
 * whose ts lies more than r after the anchor closes the window and becomes
 * the anchor of the next one (its raw ts; only the very first anchor is
 * floored). Each window is reported as one record stamped with
 * Floor(anchor, r) and `_datapoints`.
 *
 * The specification side is split in two: `Groups` says which records share a
 * window, `Accumulate` says what a window's accumulator holds after its
 * records; `Windows` combines them. The methods `AbsorbFields`, `Rollup` and
 * `FormatTimeseriesData` are the imperative code, proved to compute them.
 */
module Aggregator {
  import opened Records
  import opened Sorting

  /** The model object `m`: field name to policy name. Only "sum" is acted on. */
  type Policy = map<string, string>

  const TsKey: string := "ts"
  const DatapointsKey: string := "_datapoints"

  /** Resolution actually used: `if (!r) r = 60 * 60 * 1000` (index.js:38). */
  function Resolution(r: nat): (res: int)
    ensures res > 0
    ensures r > 0 ==> res == r
    ensures r == 0 ==> res == Hour
  {
    if r == 0 then Hour else r
  }

  predicate IsSum(m: Policy, k: string)
  {
    k in m && m[k] == "sum"
  }

  /** JavaScript truthiness of `outs[k]`: present and not zero. */
  predicate Truthy(outs: map<string, real>, k: string)
  {
    k in outs && outs[k] != 0.0
  }

  /** `counts[k]`, where a missing counter reads as 0. */
  function Count(counts: map<string, nat>, k: string): nat
  {
    if k in counts then counts[k] else 0
  }

  /**
   * New accumulator value of field k after folding value v (index.js:74-86):
   * a running sum under "sum", a running "average" otherwise. A falsy
   * accumulator (missing or 0) is replaced by v in both branches.
   */
  function StepOut(counts: map<string, nat>, outs: map<string, real>, m: Policy, k: string, v: real): real
  {
    if IsSum(m, k) then
      if Truthy(outs, k) then outs[k] + v else v
    else if Truthy(outs, k) then
      (outs[k] * (Count(counts, k) as real) + v) / ((Count(counts, k) + 1) as real)
    else v
  }

  /** New counter of an averaged field k (index.js:83-85): bumped only when the accumulator was truthy. */
  function StepCount(counts: map<string, nat>, outs: map<string, real>, k: string): nat
  {
    if Truthy(outs, k) then Count(counts, k) + 1 else Count(counts, k)
  }

  /** The fields among ks that the loop at index.js:67-91 folds (every one but `ts`). */
  function Folded(fields: map<string, real>, ks: set<string>): set<string>
  {
    set k | k in ks && k in fields && k != TsKey
  }

  /** The folded fields that go through the average branch. */
  function Averaged(fields: map<string, real>, ks: set<string>, m: Policy): set<string>
  {
    set k | k in Folded(fields, ks) && !IsSum(m, k)
  }

  /** Counters after folding the fields ks of one record; each field only touches its own slot. */
  function FoldCounts(counts: map<string, nat>, outs: map<string, real>, fields: map<string, real>,
                      ks: set<string>, m: Policy): map<string, nat>
  {
    map k | k in counts.Keys + Averaged(fields, ks, m) ::
      if k in Averaged(fields, ks, m) then StepCount(counts, outs, k) else counts[k]
  }

  /** Accumulator after folding the fields ks of one record. */
  function FoldOuts(counts: map<string, nat>, outs: map<string, real>, fields: map<string, real>,
                    ks: set<string>, m: Policy): map<string, real>
  {
    map k | k in outs.Keys + Folded(fields, ks) ::
      if k in Folded(fields, ks) then StepOut(counts, outs, m, k, fields[k]) else outs[k]
  }

  /** Folding one more field k only changes k's accumulator. */
  lemma FoldOutsOneMore(c0: map<string, nat>, o0: map<string, real>, fields: map<string, real>,
                        done: set<string>, k: string, m: Policy)
    requires k in fields && k !in done
    ensures k == TsKey ==> FoldOuts(c0, o0, fields, done + {k}, m) == FoldOuts(c0, o0, fields, done, m)
    ensures k != TsKey ==>
      FoldOuts(c0, o0, fields, done + {k}, m) == FoldOuts(c0, o0, fields, done, m)[k := StepOut(c0, o0, m, k, fields[k])]
  {
    if k == TsKey {
      assert Folded(fields, done + {k}) == Folded(fields, done);
    } else {
      assert Folded(fields, done + {k}) == Folded(fields, done) + {k};
    }
  }

  /** Folding one more field k only changes k's counter, and only when k is averaged. */
  lemma FoldCountsOneMore(c0: map<string, nat>, o0: map<string, real>, fields: map<string, real>,
                          done: set<string>, k: string, m: Policy)
    requires k in fields && k !in done
    ensures k == TsKey || IsSum(m, k) ==> FoldCounts(c0, o0, fields, done + {k}, m) == FoldCounts(c0, o0, fields, done, m)
    ensures k != TsKey && !IsSum(m, k) ==>
      FoldCounts(c0, o0, fields, done + {k}, m) == FoldCounts(c0, o0, fields, done, m)[k := StepCount(c0, o0, k)]
  {
    if k == TsKey || IsSum(m, k) {
      assert Averaged(fields, done + {k}, m) == Averaged(fields, done, m);
    } else {
      assert Averaged(fields, done + {k}, m) == Averaged(fields, done, m) + {k};
    }
  }

  /** Slots of fields not yet folded still hold their starting values. */
  lemma FoldUntouched(c0: map<string, nat>, o0: map<string, real>, fields: map<string, real>,
                      done: set<string>, k: string, m: Policy)
    requires k !in done
    ensures Count(FoldCounts(c0, o0, fields, done, m), k) == Count(c0, k)
    ensures Truthy(FoldOuts(c0, o0, fields, done, m), k) == Truthy(o0, k)
    ensures k in o0 ==> FoldOuts(c0, o0, fields, done, m)[k] == o0[k]
  {
  }

  /** A field's step only looks at that field's counter and accumulator. */
  lemma StepSame(c: map<string, nat>, o: map<string, real>, c0: map<string, nat>, o0: map<string, real>,
                 m: Policy, k: string, v: real)
    requires Count(c, k) == Count(c0, k) && Truthy(o, k) == Truthy(o0, k)
    requires Truthy(o, k) ==> o[k] == o0[k]
    ensures StepOut(c, o, m, k, v) == StepOut(c0, o0, m, k, v)
    ensures StepCount(c, o, k) == StepCount(c0, o0, k)
  {
  }

  /** The body of the per-field loop for one field k other than `ts` (index.js:70-86). */
  method AbsorbField(k: string, val: real, counts0: map<string, nat>, outs0: map<string, real>, m: Policy)
    returns (counts: map<string, nat>, outs: map<string, real>)
    ensures outs == outs0[k := StepOut(counts0, outs0, m, k, val)]
    ensures IsSum(m, k) ==> counts == counts0
    ensures !IsSum(m, k) ==> counts == counts0[k := StepCount(counts0, outs0, k)]
  {
    counts, outs := counts0, outs0;
    if IsSum(m, k) {
      if !Truthy(outs, k) {
        outs := outs[k := val];
      } else {
        outs := outs[k := outs[k] + val];
      }
    } else {
      if Count(counts, k) == 0 {
        counts := counts[k := 0];
      }
      if !Truthy(outs, k) {
        outs := outs[k := val];
      } else {
        var c := counts[k];
        assert c == Count(counts0, k) && outs[k] == outs0[k];
        counts := counts[k := c + 1];
        var average := (outs[k] * (c as real) + val) / ((c + 1) as real);
        assert average == StepOut(counts0, outs0, m, k, val);
        outs := outs[k := average];
      }
    }
  }

  /**
   * The per-field loop `for (let k in item)` (index.js:67-91), visiting the
   * keys in any order. The result does not depend on the order: it is the
   * fold of every field at once.
   */
  method AbsorbFields(fields: map<string, real>, counts0: map<string, nat>, outs0: map<string, real>, m: Policy)
    returns (counts: map<string, nat>, outs: map<string, real>)
    ensures counts == FoldCounts(counts0, outs0, fields, fields.Keys, m)
    ensures outs == FoldOuts(counts0, outs0, fields, fields.Keys, m)
  {
    counts, outs := counts0, outs0;
    var rest := fields.Keys;
    assert fields.Keys - rest == {};
    while rest != {}
      invariant rest <= fields.Keys
      invariant counts == FoldCounts(counts0, outs0, fields, fields.Keys - rest, m)
      invariant outs == FoldOuts(counts0, outs0, fields, fields.Keys - rest, m)
      decreases rest
    {
      var k :| k in rest;
      ghost var done := fields.Keys - rest;
      FoldOutsOneMore(counts0, outs0, fields, done, k, m);
      FoldCountsOneMore(counts0, outs0, fields, done, k, m);
      FoldUntouched(counts0, outs0, fields, done, k, m);
      rest := rest - {k};
      assert fields.Keys - rest == done + {k};
      if k == TsKey {
        continue;
      }
      StepSame(counts, outs, counts0, outs0, m, k, fields[k]);
      counts, outs := AbsorbField(k, fields[k], counts, outs, m);
    }
    assert fields.Keys - rest == fields.Keys;
  }

  /** The state of one open window: `datapoints`, `counts` and `outs`. */
  datatype Acc = Acc(datapoints: nat, counts: map<string, nat>, outs: map<string, real>)

  /** What a fresh window starts with (index.js:45-48, 60-63). */
  const Fresh: Acc := Acc(0, map[], map[])

  /**
   * One record folded into the open window: its fields, then the stamp
   * `outs._datapoints = ++datapoints` (index.js:66-94).
   */
  function Absorb(acc: Acc, item: Record, m: Policy): Acc
  {
    var n := acc.datapoints + 1;
    Acc(n,
        FoldCounts(acc.counts, acc.outs, item.fields, item.fields.Keys, m),
        FoldOuts(acc.counts, acc.outs, item.fields, item.fields.Keys, m)[DatapointsKey := n as real])
  }

  /** The accumulator of a window after its members, in order. */
  function Accumulate(g: seq<Record>, m: Policy): Acc
  {
    if g == [] then Fresh else Absorb(Accumulate(g[..|g| - 1], m), g[|g| - 1], m)
  }

  /** A window: its anchor (`groupTs`) and the records folded into it. */
  datatype Group = Group(anchor: int, members: seq<Record>)

  /**
   * Which records share a window, record by record (index.js:50-64): the
   * first window is anchored at the first record's floored ts; a record more
   * than r after the current anchor opens a new window anchored at its raw ts.
   */
  function Groups(s: seq<Record>, r: int): seq<Group>
    requires r > 0
  {
    if s == [] then [] else NextGroups(Groups(s[..|s| - 1], r), s[|s| - 1], r)
  }

  /** The windows after one more record x. */
  function NextGroups(G: seq<Group>, x: Record, r: int): seq<Group>
    requires r > 0
  {
    if G == [] then [Group(Floor(x.ts, r), [x])]
    else if x.ts > G[|G| - 1].anchor + r then G + [Group(x.ts, [x])]
    else G[..|G| - 1] + [Group(G[|G| - 1].anchor, G[|G| - 1].members + [x])]
  }

  /** The records of the windows, window after window. */
  function Flatten(G: seq<Group>): seq<Record>
  {
    if G == [] then [] else Flatten(G[..|G| - 1]) + G[|G| - 1].members
  }

  /** The windows hold the records in order, and none is empty. */
  ghost predicate Partitions(s: seq<Record>, G: seq<Group>)
  {
    && Flatten(G) == s
    && (forall j :: 0 <= j < |G| ==> G[j].members != [])
  }

  /** Every member lies within r of its window's anchor. */
  ghost predicate WithinReach(G: seq<Group>, r: int)
  {
    forall j, t :: 0 <= j < |G| && 0 <= t < |G[j].members| ==> G[j].members[t].ts <= G[j].anchor + r
  }

  /**
   * The first anchor is the bucket label of the first record; each later
   * window is opened by its first member, whose raw ts is its anchor and lies
   * more than r after the previous anchor.
   */
  ghost predicate Anchored(s: seq<Record>, G: seq<Group>, r: int)
    requires r > 0
  {
    && (|G| > 0 ==> |s| > 0 && G[0].anchor == Floor(s[0].ts, r))
    && (forall j :: 0 < j < |G| ==> G[j].members != [] && G[j].anchor == G[j].members[0].ts)
    && (forall j :: 0 < j < |G| ==> G[j].anchor > G[j - 1].anchor + r)
  }

  /**
   * What the windows of a call look like, without the walk that builds
   * them: a record stays in the open window exactly when its ts is at most
   * r after the window's anchor.
   */
  ghost predicate WellGrouped(s: seq<Record>, G: seq<Group>, r: int)
    requires r > 0
  {
    Partitions(s, G) && WithinReach(G, r) && Anchored(s, G, r)
  }

  lemma {:induction false} GroupsPartition(s: seq<Record>, r: int)
    requires r > 0
    ensures Partitions(s, Groups(s, r))
  {
    if s != [] {
      var init, x := s[..|s| - 1], s[|s| - 1];
      GroupsPartition(init, r);
      var G, H := Groups(init, r), Groups(s, r);
      assert s == init + [x];
      if G == [] {
        assert H[..0] == [];
      } else if x.ts > G[|G| - 1].anchor + r {
        assert H[..|H| - 1] == G;
      } else {
        var last := G[|G| - 1];
        assert H[..|H| - 1] == G[..|G| - 1];
        assert Flatten(G) == Flatten(G[..|G| - 1]) + last.members;
        assert forall j :: 0 <= j < |G| - 1 ==> H[j] == G[j];
      }
    }
  }

  /** No record more than r after the anchor joins a window. */
  lemma {:induction false} GroupsWithinReach(s: seq<Record>, r: int)
    requires r > 0
    ensures WithinReach(Groups(s, r), r)
  {
    if s != [] {
      var init, x := s[..|s| - 1], s[|s| - 1];
      GroupsWithinReach(init, r);
      var G, H := Groups(init, r), Groups(s, r);
      if G != [] && x.ts <= G[|G| - 1].anchor + r {
        var last := G[|G| - 1];
        assert H == G[..|G| - 1] + [Group(last.anchor, last.members + [x])];
        forall j, t | 0 <= j < |H| && 0 <= t < |H[j].members|
          ensures H[j].members[t].ts <= H[j].anchor + r
        {
          if j < |G| - 1 {
            assert H[j] == G[j] && G[j].members[t].ts <= G[j].anchor + r;
          } else if t < |last.members| {
            assert H[j].members[t] == last.members[t] && last.members[t].ts <= last.anchor + r;
          }
        }
      } else if G != [] {
        assert H == G + [Group(x.ts, [x])];
        forall j, t | 0 <= j < |H| && 0 <= t < |H[j].members|
          ensures H[j].members[t].ts <= H[j].anchor + r
        {
          if j < |G| {
            assert H[j] == G[j] && G[j].members[t].ts <= G[j].anchor + r;
          }
        }
      }
    }
  }

  /** A record more than r after the anchor opens a new window, anchored at its raw ts. */
  lemma {:induction false} GroupsAnchored(s: seq<Record>, r: int)
    requires r > 0
    ensures Anchored(s, Groups(s, r), r)
  {
    if s != [] {
      var init, x := s[..|s| - 1], s[|s| - 1];
      GroupsAnchored(init, r);
      assert s == init + [x];
      AnchoredNext(init, x, Groups(init, r), r);
    }
  }

  /** One more record keeps the windows anchored. */
  lemma AnchoredNext(init: seq<Record>, x: Record, G: seq<Group>, r: int)
    requires r > 0 && Anchored(init, G, r)
    requires G == [] <==> init == []
    ensures Anchored(init + [x], NextGroups(G, x, r), r)
  {
    var s, H := init + [x], NextGroups(G, x, r);
    if G == [] {
    } else if x.ts > G[|G| - 1].anchor + r {
      assert H == G + [Group(x.ts, [x])];
      assert forall j :: 0 <= j < |G| ==> H[j] == G[j];
      assert s[0] == init[0];
    } else {
      var last := G[|G| - 1];
      assert H == G[..|G| - 1] + [Group(last.anchor, last.members + [x])];
      assert forall j :: 0 <= j < |G| - 1 ==> H[j] == G[j];
      assert s[0] == init[0];
      if |G| > 1 {
        assert H[|G| - 1].members[0] == last.members[0];
      }
    }
  }

  /** The windows of a call, characterised without the walk that builds them. */
  lemma GroupsWellGrouped(s: seq<Record>, r: int)
    requires r > 0
    ensures WellGrouped(s, Groups(s, r), r)
  {
    GroupsPartition(s, r);
    GroupsWithinReach(s, r);
    GroupsAnchored(s, r);
  }

  /** Flatten of windows with one more window at the end. */
  lemma FlattenSnoc(G: seq<Group>, g: Group)
    ensures Flatten(G + [g]) == Flatten(G) + g.members
  {
    assert (G + [g])[..|G|] == G;
  }

  /** Well-grouped windows of a non-empty input end in a non-empty window. */
  lemma WellGroupedLast(s: seq<Record>, G: seq<Group>, r: int)
    requires r > 0 && WellGrouped(s, G, r) && s != []
    ensures G != [] && G[|G| - 1].members != []
    ensures s == Flatten(G[..|G| - 1]) + G[|G| - 1].members
  {
  }

  /** The last record alone in its window: the windows before it are well grouped, and it opened its own. */
  lemma DropLonely(s: seq<Record>, G0: seq<Group>, last: Group, r: int)
    requires r > 0 && WellGrouped(s, G0 + [last], r) && s != []
    requires |last.members| == 1 && s == Flatten(G0) + last.members
    ensures WellGrouped(s[..|s| - 1], G0, r)
    ensures NextGroups(G0, s[|s| - 1], r) == G0 + [last]
  {
    var G, init, x := G0 + [last], s[..|s| - 1], s[|s| - 1];
    assert init == Flatten(G0) && last.members == [x];
    assert forall j :: 0 <= j < |G0| ==> G0[j] == G[j];
    if G0 != [] {
      assert |Flatten(G0)| >= |G0[|G0| - 1].members| > 0;
      assert init[0] == s[0];
      assert last == Group(x.ts, [x]);
    } else {
      assert last == Group(Floor(x.ts, r), [x]);
    }
  }

  /** The records before the last one, when the last window has more than one member. */
  lemma SharedSplit(s: seq<Record>, G0: seq<Group>, ms: seq<Record>)
    requires |ms| > 1 && s == Flatten(G0) + ms
    ensures s[..|s| - 1] == Flatten(G0) + ms[..|ms| - 1]
    ensures s[|s| - 1] == ms[|ms| - 1]
    ensures s[..|s| - 1] != [] && s[..|s| - 1][0] == s[0]
  {
    assert ms == ms[..|ms| - 1] + [ms[|ms| - 1]];
  }

  /** A record within reach of the last anchor joins the last window. */
  lemma SharedNext(G0: seq<Group>, last: Group, x: Record, r: int)
    requires r > 0 && last.members != [] && x.ts <= last.anchor + r
    ensures var ms := last.members;
      NextGroups(G0 + [Group(last.anchor, ms[..|ms| - 1])], x, r)
      == G0 + [Group(last.anchor, ms[..|ms| - 1] + [x])]
  {
    var ms := last.members;
    assert (G0 + [Group(last.anchor, ms[..|ms| - 1])])[..|G0|] == G0;
  }

  /** Shortening the last window by its last member keeps the three facts. */
  lemma SharedWellGrouped(s: seq<Record>, init: seq<Record>, G0: seq<Group>, last: Group, g': Group, r: int)
    requires r > 0 && WellGrouped(s, G0 + [last], r)
    requires init == Flatten(G0 + [g']) && init != [] && init[0] == s[0]
    requires g'.anchor == last.anchor && g'.members != []
    requires |last.members| == |g'.members| + 1
    requires forall t :: 0 <= t < |g'.members| ==> g'.members[t] == last.members[t]
    ensures WellGrouped(init, G0 + [g'], r)
  {
    var G, D := G0 + [last], G0 + [g'];
    assert forall j :: 0 <= j < |G0| ==> D[j] == G[j];
    assert Partitions(init, D);
    assert WithinReach(D, r) by {
      forall j, t | 0 <= j < |D| && 0 <= t < |D[j].members| ensures D[j].members[t].ts <= D[j].anchor + r {
        if j < |G0| {
          assert D[j] == G[j];
        } else {
          assert D[j].members[t] == G[j].members[t];
        }
      }
    }
  }

  /** The last record shares its window: the windows before it are well grouped, and it joins the last one. */
  lemma DropShared(s: seq<Record>, G0: seq<Group>, last: Group, r: int)
    requires r > 0 && WellGrouped(s, G0 + [last], r) && s != []
    requires |last.members| > 1 && s == Flatten(G0) + last.members
    ensures var ms := last.members;
      && WellGrouped(s[..|s| - 1], G0 + [Group(last.anchor, ms[..|ms| - 1])], r)
      && NextGroups(G0 + [Group(last.anchor, ms[..|ms| - 1])], s[|s| - 1], r) == G0 + [last]
  {
    var ms, init, x := last.members, s[..|s| - 1], s[|s| - 1];
    var G, g' := G0 + [last], Group(last.anchor, ms[..|ms| - 1]);
    SharedSplit(s, G0, ms);
    FlattenSnoc(G0, g');
    SharedWellGrouped(s, init, G0, last, g', r);
    assert x.ts <= last.anchor + r by {
      assert G[|G| - 1].members[|ms| - 1] == x;
    }
    SharedNext(G0, last, x, r);
    assert ms[..|ms| - 1] + [x] == ms;
  }

  /**
   * The three facts pin the windows down: any window list that partitions
   * the input, keeps its members within reach and is anchored as the walk
   * anchors is the one the walk builds.
   */
  lemma {:induction false} WellGroupedUnique(s: seq<Record>, G: seq<Group>, r: int)
    requires r > 0 && WellGrouped(s, G, r)
    ensures G == Groups(s, r)
    decreases |s|
  {
    assert G != [] ==> |Flatten(G)| >= |G[|G| - 1].members|;
    if s != [] {
      WellGroupedLast(s, G, r);
      var G0, last := G[..|G| - 1], G[|G| - 1];
      var init, x := s[..|s| - 1], s[|s| - 1];
      assert G == G0 + [last];
      if |last.members| == 1 {
        DropLonely(s, G0, last, r);
        WellGroupedUnique(init, G0, r);
      } else {
        var ms := last.members;
        var g' := Group(last.anchor, ms[..|ms| - 1]);
        DropShared(s, G0, last, r);
        WellGroupedUnique(init, G0 + [g'], r);
      }
    }
  }

  /** The report of one window (index.js:93-95). */
  function Summary(g: Group, r: int, m: Policy): Record
    requires r > 0
  {
    Record(Floor(g.anchor, r), Accumulate(g.members, m).outs)
  }

  /** The records formatTimeseriesData returns for already sorted input, in window order. */
  function Windows(s: seq<Record>, r: int, m: Policy): seq<Record>
    requires r > 0
  {
    var G := Groups(s, r);
    seq(|G|, j requires 0 <= j < |G| => Summary(G[j], r, m))
  }

  /** Every window's counter and `_datapoints` equal the number of records folded into it. */
  lemma {:induction false} AccumulateCounts(g: seq<Record>, m: Policy)
    ensures Accumulate(g, m).datapoints == |g|
    ensures g != [] ==> DatapointsKey in Accumulate(g, m).outs
                        && Accumulate(g, m).outs[DatapointsKey] == |g| as real
  {
    if g != [] {
      AccumulateCounts(g[..|g| - 1], m);
    }
  }

  /** One output record per window, and no input gives no output. */
  lemma WindowsCount(s: seq<Record>, r: int, m: Policy)
    requires r > 0
    ensures |Windows(s, r, m)| == |Groups(s, r)|
    ensures Windows(s, r, m) == [] <==> s == []
  {
    GroupsPartition(s, r);
    assert Groups(s, r) == [] ==> Flatten(Groups(s, r)) == [];
  }

  /**
   * Each output record is stamped with its window's floored anchor and
   * carries the number of records folded into the window as `_datapoints`.
   */
  lemma WindowsStamped(s: seq<Record>, r: int, m: Policy, j: int)
    requires r > 0 && 0 <= j < |Groups(s, r)|
    ensures |Windows(s, r, m)| == |Groups(s, r)|
    ensures Windows(s, r, m)[j].ts == Floor(Groups(s, r)[j].anchor, r)
    ensures DatapointsKey in Windows(s, r, m)[j].fields
    ensures Windows(s, r, m)[j].fields[DatapointsKey] == |Groups(s, r)[j].members| as real
  {
    GroupsPartition(s, r);
    AccumulateCounts(Groups(s, r)[j].members, m);
  }

  /** The output stamps strictly increase: no two windows share a bucket. */
  lemma WindowsIncreasing(s: seq<Record>, r: int, m: Policy, i: int, j: int)
    requires r > 0 && 0 <= i < j < |Windows(s, r, m)|
    ensures Windows(s, r, m)[i].ts < Windows(s, r, m)[j].ts
  {
    var G := Groups(s, r);
    GroupsAnchored(s, r);
    AnchorsIncrease(G, r, i, j);
    FloorSeparated(G[i].anchor, G[j].anchor, r);
  }

  /** Every record of a window is a record of the input. */
  lemma {:induction false} FlattenMembers(G: seq<Group>, j: int, t: int)
    requires 0 <= j < |G| && 0 <= t < |G[j].members|
    ensures G[j].members[t] in Flatten(G)
  {
    var init := G[..|G| - 1];
    if j < |G| - 1 {
      assert init[j] == G[j];
      FlattenMembers(init, j, t);
    }
  }

  /**
   * No output stamp lies before a bound that every input ts respects, when
   * the bound is itself a bucket label: the stamps are labels of ts values
   * of the input.
   */
  lemma WindowsAtLeast(s: seq<Record>, r: int, m: Policy, lo: int)
    requires r > 0 && lo % r == 0
    requires forall i :: 0 <= i < |s| ==> lo <= s[i].ts
    ensures forall j :: 0 <= j < |Windows(s, r, m)| ==> lo <= Windows(s, r, m)[j].ts
  {
    var G := Groups(s, r);
    GroupsPartition(s, r);
    GroupsAnchored(s, r);
    forall j | 0 <= j < |G| ensures lo <= Windows(s, r, m)[j].ts {
      AnchorAtLeast(s, G, r, lo, j);
    }
  }

  /** One window's label respects the bound. */
  lemma AnchorAtLeast(s: seq<Record>, G: seq<Group>, r: int, lo: int, j: int)
    requires r > 0 && lo % r == 0 && 0 <= j < |G|
    requires forall i :: 0 <= i < |s| ==> lo <= s[i].ts
    requires Partitions(s, G) && Anchored(s, G, r)
    ensures lo <= Floor(G[j].anchor, r)
  {
    if j == 0 {
      FloorAtLeast(s[0].ts, r, lo);
    } else {
      FlattenMembers(G, j, 0);
      FloorAtLeast(G[j].anchor, r, lo);
    }
  }

  lemma {:induction false} AnchorsIncrease(G: seq<Group>, r: int, i: int, j: int)
    requires r > 0 && 0 <= i < j < |G|
    requires forall k :: 0 < k < |G| ==> G[k].anchor > G[k - 1].anchor + r
    ensures G[j].anchor > G[i].anchor + r
    decreases j - i
  {
    if i + 1 < j {
      AnchorsIncrease(G, r, i, j - 1);
    }
  }

  /** One more record: how the windows of a prefix grow. */
  lemma GroupsNext(s: seq<Record>, i: int, r: int)
    requires r > 0 && 0 <= i < |s|
    ensures Groups(s[..i + 1], r) == NextGroups(Groups(s[..i], r), s[i], r)
  {
    assert s[..i + 1][..i] == s[..i];
  }

  /** One more record of a window: how Accumulate grows. */
  lemma AccumulateSnoc(g: seq<Record>, x: Record, m: Policy)
    ensures Accumulate(g + [x], m) == Absorb(Accumulate(g, m), x, m)
  {
    assert (g + [x])[..|g|] == g;
  }

  /**
   * Folding one record into the open window (index.js:66-94): the field loop,
   * then `outs._datapoints = ++datapoints`.
   */
  method FoldRecord(item: Record, datapoints0: nat, counts0: map<string, nat>, outs0: map<string, real>, m: Policy)
    returns (datapoints: nat, counts: map<string, nat>, outs: map<string, real>)
    ensures Acc(datapoints, counts, outs) == Absorb(Acc(datapoints0, counts0, outs0), item, m)
  {
    counts, outs := AbsorbFields(item.fields, counts0, outs0, m);
    datapoints := datapoints0 + 1;
    outs := outs[DatapointsKey := datapoints as real];
  }

  /**
   * The walk's state describes the windows G seen so far: no anchor and a
   * fresh accumulator before the first record, afterwards the last window's
   * anchor and its accumulator.
   */
  ghost predicate Tracks(G: seq<Group>, groupTs: int, acc: Acc, r: int, m: Policy)
  {
    && (G == [] ==> groupTs == 0 && acc == Fresh)
    && (G != [] ==> groupTs == G[|G| - 1].anchor && r <= groupTs && acc == Accumulate(G[|G| - 1].members, m))
  }

  /**
   * The body of `d.forEach` up to the stamp (index.js:51-94): anchor the
   * first window, open a new window when item lies more than r after the
   * anchor, then fold item into the open window. The new state tracks the
   * windows grown by item.
   */
  method Advance(item: Record, r: int, m: Policy, groupTs0: int, datapoints0: nat,
                 counts0: map<string, nat>, outs0: map<string, real>, ghost G: seq<Group>)
    returns (groupTs: int, datapoints: nat, counts: map<string, nat>, outs: map<string, real>)
    requires r > 0 && r <= item.ts
    requires Tracks(G, groupTs0, Acc(datapoints0, counts0, outs0), r, m)
    ensures Tracks(NextGroups(G, item, r), groupTs, Acc(datapoints, counts, outs), r, m)
  {
    groupTs, datapoints, counts, outs := groupTs0, datapoints0, counts0, outs0;
    var ts := item.ts;
    if groupTs == 0 {
      groupTs := ts;
      groupTs := Floor(groupTs, r);
      FloorAtLeast(ts, r, r);
    }
    ghost var open: seq<Record>;
    if ts > groupTs + r {
      datapoints := 0;
      groupTs := ts;
      counts := map[];
      outs := map[];
      open := [];
    } else {
      open := if G == [] then [] else G[|G| - 1].members;
    }
    assert Acc(datapoints, counts, outs) == Accumulate(open, m);
    AccumulateSnoc(open, item, m);
    datapoints, counts, outs := FoldRecord(item, datapoints, counts, outs, m);
  }

  /**
   * The result object `all` and its key order describe the windows G: one
   * key per window, its anchor, holding the window's report; anchors
   * strictly increase, and `all` has no other keys.
   */
  ghost predicate Reports(all: map<int, Record>, keys: seq<int>, G: seq<Group>, r: int, m: Policy)
    requires r > 0
  {
    && |keys| == |G|
    && (forall j :: 0 <= j < |G| ==> keys[j] == G[j].anchor && keys[j] in all && all[keys[j]] == Summary(G[j], r, m))
    && (forall i, j :: 0 <= i < j < |G| ==> keys[i] < keys[j])
    && (forall k :: k in all ==> k in keys)
  }

  /** A result object without keys is the empty one. */
  lemma EmptyReports(all: map<int, Record>)
    ensures (forall k :: k !in all) ==> all == map[]
  {
    if forall k :: k !in all {
      var none: map<int, Record> := map[];
      assert forall k :: k in all <==> k in none;
    }
  }

  /** A window anchored after every reported one gets a new key, appended to the key order. */
  lemma {:induction false} ReportsAppend(all0: map<int, Record>, keys0: seq<int>, G0: seq<Group>, g: Group, r: int, m: Policy)
    requires r > 0 && Reports(all0, keys0, G0, r, m)
    requires G0 != [] ==> G0[|G0| - 1].anchor < g.anchor
    ensures g.anchor !in all0
    ensures Reports(all0[g.anchor := Summary(g, r, m)], keys0 + [g.anchor], G0 + [g], r, m)
  {
    EmptyReports(all0);
    if G0 != [] {
      assert forall j :: 0 <= j < |G0| ==> keys0[j] <= keys0[|G0| - 1];
    }
    var all, keys, G := all0[g.anchor := Summary(g, r, m)], keys0 + [g.anchor], G0 + [g];
    forall j | 0 <= j < |G| ensures keys[j] == G[j].anchor && keys[j] in all && all[keys[j]] == Summary(G[j], r, m) {
      if j < |G0| {
        assert keys[j] == keys0[j] && G[j] == G0[j];
      }
    }
  }

  /** The open window, grown, keeps its key and place in the key order; its report is overwritten. */
  lemma {:induction false} ReportsReplace(all0: map<int, Record>, keys0: seq<int>, G0: seq<Group>, g: Group, r: int, m: Policy)
    requires r > 0 && Reports(all0, keys0, G0, r, m)
    requires G0 != [] && g.anchor == G0[|G0| - 1].anchor
    ensures g.anchor in all0
    ensures Reports(all0[g.anchor := Summary(g, r, m)], keys0, G0[..|G0| - 1] + [g], r, m)
  {
    var all, G := all0[g.anchor := Summary(g, r, m)], G0[..|G0| - 1] + [g];
    forall j | 0 <= j < |G| ensures keys0[j] == G[j].anchor && keys0[j] in all && all[keys0[j]] == Summary(G[j], r, m) {
      if j < |G| - 1 {
        assert G[j] == G0[j] && keys0[j] < keys0[|G0| - 1];
      }
    }
  }

  /**
   * The stamp and the store at the end of the forEach body (index.js:93-95):
   * `all[groupTs] = outs`, where outs now carries the floored ts. A new
   * anchor becomes a new key, appended to the key order; the open window's
   * key is overwritten in place.
   */
  method StoreWindow(all0: map<int, Record>, keys0: seq<int>, groupTs: int, outs: map<string, real>,
                     r: int, m: Policy, ghost G0: seq<Group>, ghost item: Record)
    returns (all: map<int, Record>, keys: seq<int>)
    requires r > 0 && Reports(all0, keys0, G0, r, m)
    requires var G := NextGroups(G0, item, r);
      groupTs == G[|G| - 1].anchor && outs == Accumulate(G[|G| - 1].members, m).outs
    ensures Reports(all, keys, NextGroups(G0, item, r), r, m)
  {
    ghost var G := NextGroups(G0, item, r);
    ghost var g := G[|G| - 1];
    var rec := Record(Floor(groupTs, r), outs);
    assert rec == Summary(g, r, m);
    if G0 == [] || item.ts > G0[|G0| - 1].anchor + r {
      assert G == G0 + [g];
      ReportsAppend(all0, keys0, G0, g, r, m);
    } else {
      assert G == G0[..|G0| - 1] + [g];
      ReportsReplace(all0, keys0, G0, g, r, m);
    }
    keys := keys0;
    if groupTs !in all0 {
      keys := keys + [groupTs];
    }
    all := all0[groupTs := rec];
  }

  /**
   * The walk (index.js:42-105) over records already in sorted order: Advance
   * and StoreWindow once per record, then the copy of `all`'s values, in key
   * order, into the output array.
   *
   * Every ts must be at least r: a first ts in [0, r) floors to anchor 0,
   * which the source's `!groupTs` test cannot tell from "no anchor yet".
   * The requirement also leaves out negative timestamps, which the source
   * windows normally unless a window opens at exactly ts 0.
   */
  method Rollup(s: seq<Record>, r: int, m: Policy) returns (output: seq<Record>)
    requires r > 0
    requires forall i :: 0 <= i < |s| ==> r <= s[i].ts
    ensures output == Windows(s, r, m)
  {
    var all: map<int, Record> := map[];
    var keys: seq<int> := [];
    var datapoints: nat := 0;
    var counts: map<string, nat> := map[];
    var groupTs := 0;
    var outs: map<string, real> := map[];
    ghost var G: seq<Group> := [];
    for i := 0 to |s|
      invariant G == Groups(s[..i], r)
      invariant Tracks(G, groupTs, Acc(datapoints, counts, outs), r, m)
      invariant Reports(all, keys, G, r, m)
    {
      GroupsNext(s, i, r);
      var item := s[i];
      groupTs, datapoints, counts, outs := Advance(item, r, m, groupTs, datapoints, counts, outs, G);
      all, keys := StoreWindow(all, keys, groupTs, outs, r, m, G, item);
      G := NextGroups(G, item, r);
    }
    assert s[..|s|] == s;
    output := CopyOut(all, keys);
  }

  /**
   * `for (let k in all) output.push(all[k])` (index.js:98-103): the reports
   * in the order their keys were first written. The keys strictly increase
   * in that order (`StoreWindow`), so it is also ascending key order, the
   * order for-in lists integer keys in, whichever of the two applies.
   */
  method CopyOut(all: map<int, Record>, keys: seq<int>) returns (output: seq<Record>)
    requires forall j :: 0 <= j < |keys| ==> keys[j] in all
    ensures |output| == |keys|
    ensures forall j :: 0 <= j < |keys| ==> output[j] == all[keys[j]]
  {
    output := [];
    for j := 0 to |keys|
      invariant |output| == j
      invariant forall t :: 0 <= t < j ==> output[t] == all[keys[t]]
    {
      output := output + [all[keys[j]]];
    }
  }

  /**
   * formatTimeseriesData(d, r, m) (index.js:30-106): sorts d in place by ts,
   * then reports one record per window. Every ts must be at least the
   * resolution in use (see Rollup).
   */
  method FormatTimeseriesData(d: array<Record>, r: nat, m: Policy) returns (output: seq<Record>)
    requires forall i :: 0 <= i < d.Length ==> Resolution(r) <= d[i].ts
    modifies d
    ensures d[..] == InsertionSort(old(d[..]))
    ensures output == Windows(d[..], Resolution(r), m)
  {
    ghost var s := d[..];
    SortByTs(d);
    SortKeepsBound(s, Resolution(r));
    var res := r;
    if res == 0 {
      res := 60 * 60 * 1000;
    }
    output := Rollup(d[..], res, m);
  }
}
