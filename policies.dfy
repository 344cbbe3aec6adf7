/**
 * What a window reports for one field, by policy (index.js:74-86).
 *
 * Under "sum" the report is the plain sum of the window's values for that
 * field: the falsy restart `if (!outs[k]) outs[k] = val` adds val to a
 * running sum of 0 anyway. Under any other policy the counter starts at 0
 * and is bumped before each division, so the first value is replaced rather
 * than weighted: one value reports itself, n >= 2 values report the mean of
 * the last n - 1 of them. The statement is made for positive values, where
 * the running average is never 0 and the falsy restart cannot fire.
 */
module Policies {
  import opened Records
  import opened Aggregator

  /** Left-to-right sum. */
  function Sum(vs: seq<real>): real
  {
    if vs == [] then 0.0 else Sum(vs[..|vs| - 1]) + vs[|vs| - 1]
  }

  /** The values of field k in a window's records, in order, skipping records without k. */
  function ValuesOf(g: seq<Record>, k: string): seq<real>
  {
    if g == [] then []
    else ValuesOf(g[..|g| - 1], k) + (if k in g[|g| - 1].fields then [g[|g| - 1].fields[k]] else [])
  }

  /** A field the aggregator folds (not `ts`) and does not overwrite (not `_datapoints`). */
  predicate Plain(k: string)
  {
    k != TsKey && k != DatapointsKey
  }

  /** How one record changes field k's accumulator and counter. */
  lemma AbsorbSlot(acc: Acc, item: Record, m: Policy, k: string)
    requires Plain(k)
    ensures var after := Absorb(acc, item, m);
      && (k in item.fields ==> k in after.outs && after.outs[k] == StepOut(acc.counts, acc.outs, m, k, item.fields[k]))
      && (k in item.fields && !IsSum(m, k) ==> Count(after.counts, k) == StepCount(acc.counts, acc.outs, k))
      && (k in item.fields && IsSum(m, k) ==> Count(after.counts, k) == Count(acc.counts, k))
      && (k !in item.fields ==> (k in after.outs <==> k in acc.outs) && Count(after.counts, k) == Count(acc.counts, k))
      && (k !in item.fields && k in acc.outs ==> after.outs[k] == acc.outs[k])
  {
  }

  /** Field k's accumulator after the values vs under "sum": present exactly when vs is not empty, holding their sum. */
  ghost predicate Sums(acc: Acc, vs: seq<real>, k: string)
  {
    && (k in acc.outs <==> vs != [])
    && (k in acc.outs ==> acc.outs[k] == Sum(vs))
  }

  /** The "sum" policy reports the sum of the window's values, and only fields some record has. */
  lemma {:induction false} SumPolicy(g: seq<Record>, m: Policy, k: string)
    requires Plain(k) && IsSum(m, k)
    ensures k in Accumulate(g, m).outs <==> ValuesOf(g, k) != []
    ensures k in Accumulate(g, m).outs ==> Accumulate(g, m).outs[k] == Sum(ValuesOf(g, k))
  {
    if g != [] {
      var init, x := g[..|g| - 1], g[|g| - 1];
      SumPolicy(init, m, k);
      var before := Accumulate(init, m);
      assert Accumulate(g, m) == Absorb(before, x, m);
      AbsorbSlot(before, x, m, k);
      SumSlot(before, Accumulate(g, m), ValuesOf(init, k), x, m, k);
    }
  }

  /** One more record under "sum": its value of k, if any, is added to the sum. */
  lemma SumSlot(before: Acc, after: Acc, vs: seq<real>, x: Record, m: Policy, k: string)
    requires IsSum(m, k) && Sums(before, vs, k)
    requires k in x.fields ==> k in after.outs && after.outs[k] == StepOut(before.counts, before.outs, m, k, x.fields[k])
    requires k !in x.fields ==> (k in after.outs <==> k in before.outs)
    requires k !in x.fields && k in before.outs ==> after.outs[k] == before.outs[k]
    ensures Sums(after, vs + (if k in x.fields then [x.fields[k]] else []), k)
  {
    if k in x.fields {
      var v := x.fields[k];
      assert (vs + [v])[..|vs|] == vs;
      assert Sum(vs + [v]) == Sum(vs) + v;
    } else {
      assert vs + [] == vs;
    }
  }

  lemma {:induction false} SumPositive(vs: seq<real>)
    requires forall i :: 0 <= i < |vs| ==> vs[i] > 0.0
    ensures vs != [] ==> Sum(vs) > 0.0
    ensures vs == [] ==> Sum(vs) == 0.0
  {
    if vs != [] {
      SumPositive(vs[..|vs| - 1]);
    }
  }

  /** Sum of a tail grown by one value. */
  lemma SumTailSnoc(vs: seq<real>, v: real)
    requires |vs| >= 1
    ensures Sum((vs + [v])[1..]) == Sum(vs[1..]) + v
  {
    assert (vs + [v])[1..] == vs[1..] + [v];
    assert (vs[1..] + [v])[..|vs| - 1] == vs[1..];
  }

  /** Every value of field k in g is positive. */
  ghost predicate Positive(g: seq<Record>, k: string)
  {
    forall i :: 0 <= i < |g| && k in g[i].fields ==> g[i].fields[k] > 0.0
  }

  lemma {:induction false} ValuesPositive(g: seq<Record>, k: string)
    requires Positive(g, k)
    ensures forall i :: 0 <= i < |ValuesOf(g, k)| ==> ValuesOf(g, k)[i] > 0.0
  {
    if g != [] {
      var init := g[..|g| - 1];
      assert Positive(init, k) by {
        forall i | 0 <= i < |init| && k in init[i].fields ensures init[i].fields[k] > 0.0 {
          assert init[i] == g[i];
        }
      }
      ValuesPositive(init, k);
    }
  }

  /** The report of an averaged field with n values: the first value when n is 1, the mean of the other n - 1 otherwise. */
  ghost function AverageReport(vs: seq<real>): real
    requires |vs| >= 1
  {
    if |vs| == 1 then vs[0] else Sum(vs[1..]) / ((|vs| - 1) as real)
  }

  /** Field k's slots in acc after the values vs: the counter is n - 1 and the report AverageReport(vs). */
  ghost predicate Averages(acc: Acc, vs: seq<real>, k: string)
  {
    && (k in acc.outs <==> vs != [])
    && (vs != [] ==> Count(acc.counts, k) == |vs| - 1 && acc.outs[k] == AverageReport(vs))
    && (vs == [] ==> Count(acc.counts, k) == 0)
  }

  /**
   * Any policy other than "sum" on positive values: the counter ends at
   * n - 1 and the report is AverageReport of the n values.
   */
  lemma {:induction false} AveragePolicy(g: seq<Record>, m: Policy, k: string)
    requires Plain(k) && !IsSum(m, k) && Positive(g, k)
    ensures Averages(Accumulate(g, m), ValuesOf(g, k), k)
  {
    if g != [] {
      var init, x := g[..|g| - 1], g[|g| - 1];
      assert Positive(init, k) by {
        forall i | 0 <= i < |init| && k in init[i].fields ensures init[i].fields[k] > 0.0 {
          assert init[i] == g[i];
        }
      }
      AveragePolicy(init, m, k);
      var before, vs := Accumulate(init, m), ValuesOf(init, k);
      assert Accumulate(g, m) == Absorb(before, x, m);
      AbsorbSlot(before, x, m, k);
      if k in x.fields && vs != [] {
        assert x.fields[k] > 0.0 by { assert g[|g| - 1] == x; }
        AverageStep(vs, x.fields[k], before, m, k, init);
      }
      AverageSlot(before, Accumulate(g, m), vs, x, m, k);
    }
  }

  /** One more record under a policy other than "sum": field k's counter and report follow its values. */
  lemma AverageSlot(before: Acc, after: Acc, vs: seq<real>, x: Record, m: Policy, k: string)
    requires Averages(before, vs, k)
    requires k in x.fields ==> k in after.outs && after.outs[k] == StepOut(before.counts, before.outs, m, k, x.fields[k])
    requires k in x.fields ==> Count(after.counts, k) == StepCount(before.counts, before.outs, k)
    requires k !in x.fields ==> (k in after.outs <==> k in before.outs) && Count(after.counts, k) == Count(before.counts, k)
    requires k !in x.fields && k in before.outs ==> after.outs[k] == before.outs[k]
    requires k in x.fields && vs == [] ==> !Truthy(before.outs, k)
    requires k in x.fields && vs != [] ==>
      && Truthy(before.outs, k)
      && StepCount(before.counts, before.outs, k) == |vs|
      && StepOut(before.counts, before.outs, m, k, x.fields[k]) == AverageReport(vs + [x.fields[k]])
    ensures Averages(after, vs + (if k in x.fields then [x.fields[k]] else []), k)
  {
    if k in x.fields {
      var v := x.fields[k];
      if vs == [] {
        assert vs + [v] == [v];
      }
    } else {
      assert vs + [] == vs;
    }
  }

  /** One more positive value folded into a running average of vs. */
  lemma AverageStep(vs: seq<real>, v: real, acc: Acc, m: Policy, k: string, init: seq<Record>)
    requires !IsSum(m, k) && vs == ValuesOf(init, k) && Positive(init, k) && vs != [] && v > 0.0
    requires Averages(acc, vs, k)
    ensures Truthy(acc.outs, k)
    ensures StepCount(acc.counts, acc.outs, k) == |vs|
    ensures StepOut(acc.counts, acc.outs, m, k, v) == AverageReport(vs + [v])
  {
    ValuesPositive(init, k);
    var a, c := acc.outs[k], Count(acc.counts, k);
    if |vs| == 1 {
      assert (vs + [v])[1..] == [v];
      assert Sum([v]) == Sum([]) + v;
    } else {
      SumPositive(vs[1..]);
      SumTailSnoc(vs, v);
      MeanStep(Sum(vs[1..]), c, v);
    }
  }

  /** Re-weighting a mean of c values by c and adding one more value gives the sum of the c + 1 values. */
  lemma MeanStep(t: real, c: nat, v: real)
    requires c > 0
    ensures ((t / (c as real)) * (c as real) + v) / ((c + 1) as real) == (t + v) / ((c + 1) as real)
  {
  }
}
