/**
 * The detail breakdown of the revenue workflow: the backend's sparse,
 * unordered bucket list is reconciled against a fixed period range (weeks
 * 1..4 of a month, or months 1..12 of a year), missing periods read 0, and a
 * failed detail call degrades to all-zero buckets.
 */
module RevenueDetails {
  import opened Common

  /** Which detail endpoint a month or year view uses. */
  datatype Granularity = Weekly | Monthly

  /** How many buckets a breakdown always has. */
  function BucketCount(g: Granularity): nat {
    match g
    case Weekly => 4
    case Monthly => 12
  }

  /**
   * One element of the detail response as received: the weekly endpoint's
   * elements carry `weekOfMonth`, the monthly endpoint's carry `month`; either
   * may be missing.
   */
  datatype RawBucket = RawBucket(weekOfMonth: Option<int>, month: Option<int>, revenue: int)

  /** One normalised bucket: `period` is the week of month or the month. */
  datatype Bucket = Bucket(period: int, revenue: int)

  datatype Details = Details(granularity: Granularity, buckets: seq<Bucket>)

  /** The key a bucket is matched on (`d.weekOfMonth` or `d.month`). */
  function KeyOf(g: Granularity, b: RawBucket): Option<int> {
    match g
    case Weekly => b.weekOfMonth
    case Monthly => b.month
  }

  /** Element `i` is the first element of `items` whose key is `period`. */
  predicate FirstMatch(items: seq<RawBucket>, g: Granularity, period: int, i: int) {
    && 0 <= i < |items|
    && KeyOf(g, items[i]) == Some(period)
    && forall j :: 0 <= j < i ==> KeyOf(g, items[j]) != Some(period)
  }

  predicate HasPeriod(items: seq<RawBucket>, g: Granularity, period: int) {
    exists i :: 0 <= i < |items| && KeyOf(g, items[i]) == Some(period)
  }

  /** `items.find(d => key(d) === period)?.revenue`. */
  function FindRevenue(items: seq<RawBucket>, g: Granularity, period: int): (r: Option<int>)
    ensures r.Some? <==> HasPeriod(items, g, period)
    ensures forall j :: FirstMatch(items, g, period, j) ==> r == Some(items[j].revenue)
  {
    if |items| == 0 then None
    else if KeyOf(g, items[0]) == Some(period) then
      Some(items[0].revenue)
    else
      var r := FindRevenue(items[1..], g, period);
      assert HasPeriod(items[1..], g, period) <==> HasPeriod(items, g, period) by {
        if HasPeriod(items, g, period) {
          var i :| 0 <= i < |items| && KeyOf(g, items[i]) == Some(period);
          assert KeyOf(g, items[1..][i - 1]) == Some(period);
        }
      }
      assert forall j :: FirstMatch(items, g, period, j) ==> FirstMatch(items[1..], g, period, j - 1);
      r
  }

  /** The bucket for `period`: the first matching element's revenue, else 0. */
  function BucketFor(items: seq<RawBucket>, g: Granularity, period: int): (b: Bucket)
    ensures b.period == period
  {
    Bucket(period, FindRevenue(items, g, period).GetOr(0))
  }

  lemma BucketForRevenue(items: seq<RawBucket>, g: Granularity, period: int)
    ensures !HasPeriod(items, g, period) ==> BucketFor(items, g, period).revenue == 0
    ensures forall j :: FirstMatch(items, g, period, j) ==> BucketFor(items, g, period).revenue == items[j].revenue
  {
  }

  /**
   * The normalised breakdown: one bucket per period of the range, in
   * ascending order (see `NormalizeContents` for the revenues).
   */
  function Normalize(items: seq<RawBucket>, g: Granularity): (r: seq<Bucket>)
    ensures |r| == BucketCount(g)
    ensures forall i :: 0 <= i < |r| ==> r[i] == BucketFor(items, g, i + 1)
    ensures forall i :: 0 <= i < |r| ==> r[i].period == i + 1
  {
    seq(BucketCount(g), i => BucketFor(items, g, i + 1))
  }

  /**
   * Entry `i` of the breakdown carries the revenue of the first returned
   * element for period `i + 1`, or 0 when no element has that period.
   */
  lemma NormalizeContents(items: seq<RawBucket>, g: Granularity)
    ensures forall i :: 0 <= i < BucketCount(g) && !HasPeriod(items, g, i + 1) ==>
      Normalize(items, g)[i].revenue == 0
    ensures forall i, j :: 0 <= i < BucketCount(g) && FirstMatch(items, g, i + 1, j) ==>
      Normalize(items, g)[i].revenue == items[j].revenue
  {
    forall k | 1 <= k <= BucketCount(g) {
      BucketForRevenue(items, g, k);
    }
  }

  /** The fallback breakdown used when the detail call fails. */
  function ZeroFill(g: Granularity): (r: seq<Bucket>)
    ensures |r| == BucketCount(g)
    ensures forall i :: 0 <= i < |r| ==> r[i] == Bucket(i + 1, 0)
  {
    seq(BucketCount(g), i => Bucket(i + 1, 0))
  }

  /** The fallback is exactly what an empty response normalises to. */
  lemma ZeroFillIsEmptyResponse(g: Granularity)
    ensures ZeroFill(g) == Normalize([], g)
  {
  }

  /** The elements whose key lies in the period range of `g`. */
  function InRange(items: seq<RawBucket>, g: Granularity): (r: seq<RawBucket>)
    ensures |r| <= |items|
  {
    if |items| == 0 then []
    else
      var k := KeyOf(g, items[0]);
      var rest := InRange(items[1..], g);
      if k.Some? && 1 <= k.value <= BucketCount(g) then [items[0]] + rest else rest
  }

  lemma {:induction false} FindRevenueInRange(items: seq<RawBucket>, g: Granularity, period: int)
    requires 1 <= period <= BucketCount(g)
    ensures FindRevenue(InRange(items, g), g, period) == FindRevenue(items, g, period)
  {
    if |items| > 0 {
      FindRevenueInRange(items[1..], g, period);
      var k := KeyOf(g, items[0]);
      if k.Some? && 1 <= k.value <= BucketCount(g) {
        assert InRange(items, g)[1..] == InRange(items[1..], g);
      }
    }
  }

  /** Elements whose key is missing or outside the period range are ignored. */
  lemma {:induction false} NormalizeIgnoresOutOfRange(items: seq<RawBucket>, g: Granularity)
    ensures Normalize(InRange(items, g), g) == Normalize(items, g)
  {
    forall k | 1 <= k <= BucketCount(g) {
      FindRevenueInRange(items, g, k);
    }
  }

  lemma {:induction false} FindRevenueAppend(a: seq<RawBucket>, b: seq<RawBucket>, g: Granularity, period: int)
    ensures FindRevenue(a + b, g, period) ==
      (if HasPeriod(a, g, period) then FindRevenue(a, g, period) else FindRevenue(b, g, period))
  {
    if |a| > 0 {
      assert (a + b)[1..] == a[1..] + b;
      FindRevenueAppend(a[1..], b, g, period);
    } else {
      assert a + b == b;
    }
  }

  /**
   * Elements appended after the response can only fill periods it left
   * empty: the first element returned for a period always wins.
   */
  lemma NormalizeFirstWins(a: seq<RawBucket>, b: seq<RawBucket>, g: Granularity)
    ensures forall i :: 0 <= i < BucketCount(g) && HasPeriod(a, g, i + 1) ==>
      Normalize(a + b, g)[i] == Normalize(a, g)[i]
    ensures forall i :: 0 <= i < BucketCount(g) && !HasPeriod(a, g, i + 1) ==>
      Normalize(a + b, g)[i] == Normalize(b, g)[i]
  {
    forall k | 1 <= k <= BucketCount(g)
      ensures FindRevenue(a + b, g, k) ==
        (if HasPeriod(a, g, k) then FindRevenue(a, g, k) else FindRevenue(b, g, k))
    {
      FindRevenueAppend(a, b, g, k);
    }
  }

  /** What a detail call can yield. */
  datatype DetailResponse =
    | DetailOk(items: seq<RawBucket>)
    | DetailStatus(status: int, body: string)
    | DetailThrows(message: string)

  /**
   * The breakdown kept for a detail call: the normalised list on success,
   * the zero-filled list on a non-ok status or an exception.
   */
  function ResolveDetails(g: Granularity, response: DetailResponse): (d: Details)
    ensures d.granularity == g && |d.buckets| == BucketCount(g)
    ensures forall i :: 0 <= i < |d.buckets| ==> d.buckets[i].period == i + 1
    ensures response.DetailOk? ==> d.buckets == Normalize(response.items, g)
    ensures !response.DetailOk? ==> forall i :: 0 <= i < |d.buckets| ==> d.buckets[i].revenue == 0
  {
    match response
    case DetailOk(items) => Details(g, Normalize(items, g))
    case DetailStatus(_, _) => Details(g, ZeroFill(g))
    case DetailThrows(_) => Details(g, ZeroFill(g))
  }

  /**
   * A month view whose backend returns weeks 1 and 2 only: weeks 3 and 4
   * are synthesised with revenue 0, in ascending order.
   */
  lemma SparseWeeksExample()
    ensures
      var items := [RawBucket(Some(1), None, 20000), RawBucket(Some(2), None, 25000)];
      Normalize(items, Weekly) ==
        [Bucket(1, 20000), Bucket(2, 25000), Bucket(3, 0), Bucket(4, 0)]
  {
    var items := [RawBucket(Some(1), None, 20000), RawBucket(Some(2), None, 25000)];
    assert FirstMatch(items, Weekly, 1, 0);
    assert FirstMatch(items, Weekly, 2, 1);
    assert !HasPeriod(items, Weekly, 3);
    assert !HasPeriod(items, Weekly, 4);
  }
}
