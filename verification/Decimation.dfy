/** Thinning a series of samples for drawing, every extreme kept. */
module Decimation {

  /** A sample: when it was taken, and its value. */
  datatype Sample = Sample(time: real, value: real)

  /** How many buckets the budget allows at two samples each, one at the least. */
  function Buckets(budget: int): (n: nat)
    ensures n >= 1 && (n > 1 ==> 2 * n <= budget) && budget < 2 * (n + 1)
  {
    if budget < 2 then 1 else budget / 2
  }

  /** The size of a bucket: two samples are kept of each, so half the budget is the number of buckets. */
  function Bucket(count: nat, budget: int): (size: nat)
    ensures size >= 1 && count <= Buckets(budget) * size
  {
    var n := Buckets(budget);
    var size := (count + n - 1) / n;
    assert count <= n * size;
    if size < 1 then 1 else size
  }

  /** No smaller bucket would do: as many of them as the budget allows would not cover the series. */
  lemma {:induction false} BucketLeast(count: nat, budget: int, size: nat)
    requires 1 <= size && count <= Buckets(budget) * size
    ensures Bucket(count, budget) <= size
  {
    var n := Buckets(budget);
    var k := (count + n - 1) / n;
    DivisionCovers(count + n - 1, n, k);
    OneMoreTimes(n, size);
    FewerTimes(n, k, size + 1);
  }

  lemma {:induction false} DivisionCovers(a: nat, n: nat, k: nat)
    requires n > 0 && k == a / n
    ensures n * k <= a
  {
  }

  lemma {:induction false} OneMoreTimes(n: nat, a: nat)
    ensures n * (a + 1) == n * a + n
  {
  }

  lemma {:induction false} FewerTimes(n: nat, a: nat, b: nat)
    requires n * a < n * b
    ensures a < b
  {
    if b <= a {
      TimesGrow(n, b, a);
    }
  }

  lemma {:induction false} TimesGrow(n: nat, a: nat, b: nat)
    requires a <= b
    ensures n * a <= n * b
    decreases b - a
  {
    if a < b {
      TimesGrow(n, a, b - 1);
      OneMoreTimes(n, b - 1);
    }
  }

  /** The first of the lowest from `start` up to `end`. */
  predicate Lowest(s: seq<Sample>, start: nat, end: nat, k: nat) {
    && start <= k < end <= |s|
    && (forall j :: start <= j < end ==> s[k].value <= s[j].value)
    && (forall j :: start <= j < k ==> s[k].value < s[j].value)
  }

  predicate Highest(s: seq<Sample>, start: nat, end: nat, k: nat) {
    && start <= k < end <= |s|
    && (forall j :: start <= j < end ==> s[j].value <= s[k].value)
    && (forall j :: start <= j < k ==> s[j].value < s[k].value)
  }

  predicate Extreme(s: seq<Sample>, start: nat, end: nat, k: nat) {
    Lowest(s, start, end, k) || Highest(s, start, end, k)
  }

  method Extremes(s: seq<Sample>, start: nat, end: nat) returns (low: nat, high: nat)
    requires start < end <= |s|
    ensures Lowest(s, start, end, low) && Highest(s, start, end, high)
  {
    low, high := start, start;
    for k := start + 1 to end
      invariant Lowest(s, start, k, low) && Highest(s, start, k, high)
    {
      if s[k].value < s[low].value {
        low := k;
      }
      if s[k].value > s[high].value {
        high := k;
      }
    }
  }

  /** Places of the series, in order, no two alike. */
  ghost predicate Rising(places: seq<nat>, from: nat, to: nat) {
    && (forall k :: 0 <= k < |places| ==> from <= places[k] < to)
    && forall j, k :: 0 <= j < k < |places| ==> places[j] < places[k]
  }

  /** What stands at these places. */
  function At(s: seq<Sample>, places: seq<nat>): seq<Sample>
    requires forall k :: 0 <= k < |places| ==> places[k] < |s|
  {
    seq(|places|, k requires 0 <= k < |places| => s[places[k]])
  }

  function Least(a: nat, b: nat): nat { if a < b then a else b }

  /** No extreme of this stretch is missing. */
  ghost predicate Keeps(s: seq<Sample>, start: nat, end: nat, places: seq<nat>) {
    forall k: nat :: Extreme(s, start, end, k) ==> k in places
  }

  /** Of this stretch the extremes are kept, and nothing else. */
  ghost predicate KeepsOnly(s: seq<Sample>, start: nat, end: nat, places: seq<nat>) {
    forall k: nat :: Extreme(s, start, end, k) <==> start <= k < end && k in places
  }

  predicate Flat(s: seq<Sample>, start: nat, end: nat) {
    forall j :: start <= j < end <= |s| ==> s[j].value == s[start].value
  }

  method KeepBucket(s: seq<Sample>, start: nat, end: nat) returns (places: seq<nat>)
    requires start < end <= |s|
    ensures Rising(places, start, end) && |places| <= 2
    ensures KeepsOnly(s, start, end, places)
    ensures 1 <= |places| && (|places| == 1 <==> Flat(s, start, end))
  {
    var low, high := Extremes(s, start, end);
    if low == high {
      places := [low];
    } else if low < high {
      places := [low, high];
    } else {
      places := [high, low];
    }
    assert low in places && high in places;
    FlatExactlyWhen(s, start, end, low, high);
    OnlyExtremes(s, start, end, low, high);
  }

  lemma {:induction false} FlatExactlyWhen(s: seq<Sample>, start: nat, end: nat, low: nat, high: nat)
    requires start < end && Lowest(s, start, end, low) && Highest(s, start, end, high)
    ensures low == high <==> Flat(s, start, end)
  {
    if Flat(s, start, end) {
      assert s[low].value == s[start].value && s[high].value == s[start].value;
      assert low == start && high == start;
    }
    if low == high {
      forall j | start <= j < end <= |s| ensures s[j].value == s[start].value {
        assert s[low].value <= s[j].value <= s[high].value;
        assert s[low].value <= s[start].value <= s[high].value;
      }
    }
  }

  lemma {:induction false} OnlyExtremes(s: seq<Sample>, start: nat, end: nat, low: nat, high: nat)
    requires Lowest(s, start, end, low) && Highest(s, start, end, high)
    ensures forall k: nat :: Extreme(s, start, end, k) ==> k == low || k == high
  {
    forall k: nat | Extreme(s, start, end, k) ensures k == low || k == high {
      if Lowest(s, start, end, k) {
        assert s[k].value == s[low].value;
      } else {
        assert s[k].value == s[high].value;
      }
    }
  }

  /** Where bucket `m` begins. */
  function Begin(m: nat, bucket: nat): nat {
    if m == 0 then 0 else Begin(m - 1, bucket) + bucket
  }

  lemma {:induction false} BeginIs(m: nat, bucket: nat)
    ensures Begin(m, bucket) == m * bucket
  {
    if m > 0 {
      BeginIs(m - 1, bucket);
      assert m * bucket == (m - 1) * bucket + bucket;
    }
  }

  /** The first `n` buckets each keep their extremes, and nothing else. */
  ghost predicate AllKept(s: seq<Sample>, bucket: nat, n: nat, places: seq<nat>) {
    forall m :: 0 <= m < n ==> KeptIn(s, bucket, m, places)
  }

  ghost predicate KeptIn(s: seq<Sample>, bucket: nat, m: nat, places: seq<nat>) {
    KeepsOnly(s, Begin(m, bucket), Least(Begin(m, bucket) + bucket, |s|), places)
  }

  lemma {:induction false} AllKeptMore(s: seq<Sample>, bucket: nat, n: nat, places: seq<nat>, more: seq<nat>)
    requires AllKept(s, bucket, n, places) && KeptIn(s, bucket, n, more)
    requires (forall k :: k in places ==> k < Begin(n, bucket)) && (forall k :: k in more ==> k >= Begin(n, bucket))
    ensures AllKept(s, bucket, n + 1, places + more)
  {
    forall m | 0 <= m < n + 1 ensures KeptIn(s, bucket, m, places + more) {
      if m < n {
        assert KeptIn(s, bucket, m, places);
        KeptStill(s, bucket, m, n, places, more);
      }
    }
  }

  lemma {:induction false} KeptStill(s: seq<Sample>, bucket: nat, m: nat, n: nat, places: seq<nat>, more: seq<nat>)
    requires m < n && KeptIn(s, bucket, m, places) && forall k :: k in more ==> k >= Begin(n, bucket)
    ensures KeptIn(s, bucket, m, places + more)
  {
    BeginRises(m + 1, n, bucket);
  }

  lemma {:induction false} RisingOn(a: seq<nat>, b: seq<nat>, middle: nat, end: nat)
    requires Rising(a, 0, middle) && Rising(b, middle, end) && middle <= end
    ensures Rising(a + b, 0, end)
  {
  }

  lemma {:induction false} BeginRises(m: nat, n: nat, bucket: nat)
    requires m <= n
    ensures Begin(m, bucket) <= Begin(n, bucket)
    decreases n
  {
    if m < n {
      BeginRises(m, n - 1, bucket);
    }
  }

  /** A bucket that begins within the series is among those that cover it. */
  lemma {:induction false} BucketCounted(m: nat, n: nat, bucket: nat, count: nat)
    requires Begin(m, bucket) < count <= Begin(n, bucket)
    ensures m < n
  {
    if n <= m {
      BeginRises(n, m, bucket);
      assert false;
    }
  }

  method KeepAll(s: seq<Sample>, bucket: nat, most: nat) returns (places: seq<nat>, buckets: nat)
    requires bucket >= 1 && |s| <= Begin(most, bucket)
    ensures Rising(places, 0, |s|) && |places| <= 2 * buckets && buckets <= most
    ensures |s| <= Begin(buckets, bucket) && AllKept(s, bucket, buckets, places)
    ensures buckets == 1 ==> (|places| == 1 <==> Flat(s, 0, Least(bucket, |s|)))
  {
    places, buckets := [], 0;
    var start := 0;
    while start < |s|
      invariant start == Begin(buckets, bucket) && buckets <= most
      invariant Rising(places, 0, Least(start, |s|)) && |places| <= 2 * buckets
      invariant AllKept(s, bucket, buckets, places)
      invariant buckets == 1 ==> (|places| == 1 <==> Flat(s, 0, Least(bucket, |s|)))
      decreases |s| - start
    {
      BucketCounted(buckets, most, bucket, |s|);
      var end := Least(start + bucket, |s|);
      var kept := KeepBucket(s, start, end);
      AllKeptMore(s, bucket, buckets, places, kept);
      RisingOn(places, kept, start, end);
      places := places + kept;
      buckets := buckets + 1;
      start := start + bucket;
    }
  }

  lemma {:induction false} BucketOf(k: nat, bucket: nat) returns (m: nat)
    requires bucket >= 1
    ensures Begin(m, bucket) <= k < Begin(m, bucket) + bucket
    decreases k
  {
    m := 0;
    if k >= bucket {
      m := BucketOf(k - bucket, bucket);
      m := m + 1;
    }
  }

  /** The extremes of the series are extremes of their buckets, so they are kept. */
  lemma {:induction false} ExtremesKept(s: seq<Sample>, bucket: nat, n: nat, places: seq<nat>)
    requires bucket >= 1 && |s| <= Begin(n, bucket) && AllKept(s, bucket, n, places)
    ensures Keeps(s, 0, |s|, places)
  {
    forall k: nat | Extreme(s, 0, |s|, k) ensures k in places {
      var m := BucketOf(k, bucket);
      BucketCounted(m, n, bucket, |s|);
      assert KeptIn(s, bucket, m, places);
      assert Extreme(s, Begin(m, bucket), Least(Begin(m, bucket) + bucket, |s|), k);
    }
  }

  method Decimate(s: seq<Sample>, budget: int) returns (out: seq<Sample>, ghost places: seq<nat>)
    // a subsequence of the series, in order
    ensures Rising(places, 0, |s|) && out == At(s, places)
    // no extreme of the series is dropped, and of each of its buckets the extremes are kept and nothing else
    ensures Keeps(s, 0, |s|, places)
    ensures |s| > budget ==> AllKept(s, Bucket(|s|, budget), |s|, places)
    // what already fits is untouched; the budget is kept exactly in these cases
    ensures |s| <= budget ==> out == s
    ensures |out| <= budget <==>
      || |s| <= budget
      || budget >= 2
      || (budget == 1 && Flat(s, 0, |s|))
  {
    if |s| <= budget {
      places := seq(|s|, k => k);
      forall k: nat | k < |s| ensures k in places {
        assert places[k] == k;
      }
      assert At(s, places) == s;
      return s, places;
    }
    var bucket, most := Bucket(|s|, budget), Buckets(budget);
    BeginIs(most, bucket);
    out, places := Thin(s, bucket, most);
  }

  method Thin(s: seq<Sample>, bucket: nat, most: nat) returns (out: seq<Sample>, ghost places: seq<nat>)
    requires bucket >= 1 && |s| <= Begin(most, bucket)
    ensures Rising(places, 0, |s|) && out == At(s, places)
    ensures Keeps(s, 0, |s|, places) && AllKept(s, bucket, |s|, places)
    ensures |out| <= 2 * most
    ensures s != [] && most == 1 ==> 1 <= |out| && (|out| == 1 <==> Flat(s, 0, |s|))
  {
    var kept, buckets := KeepAll(s, bucket, most);
    places := kept;
    out := At(s, kept);
    ExtremesKept(s, bucket, buckets, kept);
    EveryBucketKept(s, bucket, buckets, kept);
    if s != [] {
      NotEmpty(s, kept);
    }
  }

  lemma {:induction false} EveryBucketKept(s: seq<Sample>, bucket: nat, n: nat, places: seq<nat>)
    requires |s| <= Begin(n, bucket) && AllKept(s, bucket, n, places)
    ensures AllKept(s, bucket, |s|, places)
  {
    forall m | 0 <= m < |s| ensures KeptIn(s, bucket, m, places) {
      if Begin(m, bucket) < |s| {
        BucketCounted(m, n, bucket, |s|);
      }
    }
  }

  lemma {:induction false} LowestExists(s: seq<Sample>, end: nat)
    requires 0 < end <= |s|
    ensures exists k: nat :: Lowest(s, 0, end, k)
  {
    if end == 1 {
      assert Lowest(s, 0, 1, 0);
    } else {
      LowestExists(s, end - 1);
      var k: nat :| Lowest(s, 0, end - 1, k);
      assert Lowest(s, 0, end, if s[end - 1].value < s[k].value then end - 1 else k);
    }
  }

  lemma {:induction false} NotEmpty(s: seq<Sample>, places: seq<nat>)
    requires s != [] && Keeps(s, 0, |s|, places)
    ensures places != []
  {
    LowestExists(s, |s|);
    var k: nat :| Lowest(s, 0, |s|, k);
    assert Extreme(s, 0, |s|, k);
  }
}
