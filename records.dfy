/**
 * Timestamped metric records and the small helpers shared by the aggregator
 * and the rollup store (index.js).
 */
module Records {

  datatype Option<+T> = None | Some(value: T)

  /**
   * A metric record: the mandatory timestamp `ts` (milliseconds since the
   * epoch) and its other fields. Field values are JavaScript numbers, modelled
   * as reals.
   */
  datatype Record = Record(ts: int, fields: map<string, real>)

  /** One hour, the default resolution and the hourly tier's bucket width. */
  const Hour: int := 60 * 60 * 1000

  /** One day, the daily tier's bucket width. */
  const Day: int := 24 * Hour

  /** Math.floor(30.43685 * 24 * 60 * 60 * 1000): the monthly tier's bucket width. */
  const Month: int := 2629743840

  function Max(a: int, b: int): int { if a < b then b else a }

  function Min(a: int, b: int): int { if a < b then a else b }

  /**
   * Bucket label of timestamp t at resolution r: Math.floor(t / r) * r.
   * For a positive divisor Dafny's `/` rounds towards negative infinity,
   * as Math.floor does. The label is the largest multiple of r not above t.
   */
  function Floor(t: int, r: int): (b: int)
    requires r > 0
    ensures b <= t < b + r
    ensures b % r == 0
  {
    DivFacts(t, r);
    (t / r) * r
  }

  lemma DivFacts(t: int, r: int)
    requires r > 0
    ensures (t / r) * r <= t < (t / r) * r + r
    ensures ((t / r) * r) % r == 0
  {
    MulMod(t / r, r);
  }

  lemma MulMod(q: int, r: int)
    requires r > 0
    ensures (q * r) % r == 0
  {
    var x := q * r;
    assert x == (x / r) * r + x % r;
    assert (q - x / r) * r == x % r;
    if q - x / r != 0 {
      Nonzero(q - x / r, r);
    }
  }

  lemma Nonzero(d: int, r: int)
    requires r > 0 && d != 0
    ensures d * r >= r || d * r <= -r
  {
  }

  /** A multiple of r that is at most t stays at most t's label. */
  lemma FloorAtLeast(t: int, r: int, lo: int)
    requires r > 0 && lo <= t && lo % r == 0
    ensures lo <= Floor(t, r)
  {
    var p, q := t / r, lo / r;
    assert lo == q * r;
    assert (q - p) * r < r;
    BelowOne(q - p, r);
  }

  /** Timestamps at least r apart get different, increasing labels. */
  lemma FloorSeparated(a: int, b: int, r: int)
    requires r > 0 && a + r <= b
    ensures Floor(a, r) < Floor(b, r)
  {
    var q := a / r;
    MulMod(q + 1, r);
    assert (q + 1) * r == q * r + r;
    FloorAtLeast(b, r, (q + 1) * r);
  }

  lemma BelowOne(x: int, r: int)
    requires r > 0 && x * r < r
    ensures x < 1
  {
  }

  /**
   * last(n, a) (index.js:22-25): the whole of `a` when it has at most n
   * elements, otherwise `a.slice(Math.max(a.length - n, 0))`, where slice
   * clamps a start beyond the end to the end.
   */
  function Last<T>(n: int, a: seq<T>): (r: seq<T>)
    ensures |a| <= n ==> r == a
    ensures n < |a| ==> |r| == Max(n, 0)
    ensures r == a[|a| - |r|..]
  {
    if |a| <= n then a
    else
      var start := Max(|a| - n, 0);
      a[Min(start, |a|)..]
  }
}
