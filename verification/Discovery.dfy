/** Which discovery server a client is shown: square-root buckets, picked by address and by hour. */
module Discovery {
  import opened Options

  const TIME_GRANULARITY := 3600

  // ---- Arithmetic ----

  lemma DivIs(x: int, m: int, q: int)
    requires 0 < m && q * m <= x < q * m + m
    ensures x / m == q
  {
    var d := x / m;
    assert d * m <= x < d * m + m;
    if d < q {
      MulStep(d, q, m);
    } else if q < d {
      MulStep(q, d, m);
    }
  }

  lemma MulAtLeast(x: int, m: int)
    requires x >= 1 && 0 < m
    ensures x * m >= m
  {
  }

  lemma MulSum(a: int, d: int, m: int)
    ensures (a + d) * m == a * m + d * m
  {
  }

  lemma MulStep(a: int, b: int, m: int)
    requires a < b && 0 < m
    ensures a * m + m <= b * m
  {
    MulAtLeast(b - a, m);
    MulSum(a, b - a, m);
  }

  /** Adding q whole units and less than one more moves the quotient by q or q + 1. */
  lemma DivStep(x: int, m: int, q: int, r: int)
    requires 0 < m && 0 <= r < m
    ensures q <= (x + q * m + r) / m - x / m <= q + 1
  {
    var d, y := x / m, x + q * m + r;
    assert d * m <= x < d * m + m;
    assert (d + q) * m == d * m + q * m;
    assert (d + q + 1) * m == d * m + q * m + m;
    if y < (d + q) * m + m {
      DivIs(y, m, d + q);
    } else {
      DivIs(y, m, d + q + 1);
    }
  }

  // ---- Bucket count ----

  function CeilRootFrom(n: nat, k: nat): (r: nat)
    requires k == 0 || (k - 1) * (k - 1) < n
    ensures n <= r * r && (r > 0 ==> (r - 1) * (r - 1) < n)
    decreases if k * k < n then n - k * k else 0
  {
    if n <= k * k then k
    else
      assert (k + 1) * (k + 1) > k * k;
      CeilRootFrom(n, k + 1)
  }

  /** The least number whose square reaches n. */
  function BucketCount(n: nat): (k: nat)
    ensures n <= k * k && (k > 0 ==> (k - 1) * (k - 1) < n)
  {
    CeilRootFrom(n, 0)
  }

  lemma SquareOrder(a: nat, b: nat)
    requires a <= b
    ensures a * a <= b * b
  {
  }

  lemma BucketCountAtMost(n: nat, k: nat)
    ensures BucketCount(n) <= k <==> n <= k * k
  {
    var b := BucketCount(n);
    if b <= k {
      SquareOrder(b, k);
    } else {
      SquareOrder(k, b - 1);
    }
  }

  lemma BucketCountFits(n: nat)
    requires n >= 1
    ensures 1 <= BucketCount(n) <= n
  {
    assert n * n >= n;
    BucketCountAtMost(n, n);
  }

  // ---- Buckets ----

  /** The boundary before bucket i: i shares of the list, rounded half up. */
  function Boundary(length: nat, n: nat, i: nat): nat
    requires 0 < n
  {
    (2 * length * i + n) / (2 * n)
  }

  lemma BoundaryEnds(length: nat, n: nat)
    requires 0 < n
    ensures Boundary(length, n, 0) == 0 && Boundary(length, n, n) == length
  {
    DivIs(n, 2 * n, 0);
    assert 2 * length * n == length * (2 * n);
    DivIs(2 * length * n + n, 2 * n, length);
  }

  /** Consecutive boundaries are a share apart, rounded down or up. */
  lemma BoundaryStep(length: nat, n: nat, i: nat)
    requires 0 < n
    ensures length / n <= Boundary(length, n, i + 1) - Boundary(length, n, i) <= length / n + 1
    ensures Boundary(length, n, i) <= Boundary(length, n, i + 1)
    ensures length % n == 0 ==> Boundary(length, n, i + 1) - Boundary(length, n, i) == length / n
  {
    var q, r := length / n, length % n;
    var x := 2 * length * i + n;
    assert length == q * n + r;
    assert 2 * length == q * (2 * n) + 2 * r by {
      assert 2 * (q * n) == q * (2 * n);
    }
    assert 2 * length * (i + 1) + n == x + q * (2 * n) + 2 * r by {
      assert 2 * length * (i + 1) == 2 * length * i + 2 * length;
    }
    DivStep(x, 2 * n, q, 2 * r);
    if r == 0 {
      ExactStep(x, 2 * n, q);
    }
  }

  lemma ExactStep(x: int, m: int, q: int)
    requires 0 < m
    ensures (x + q * m) / m == x / m + q
  {
    var d := x / m;
    assert d * m <= x < d * m + m;
    assert (d + q) * m == d * m + q * m;
    DivIs(x + q * m, m, d + q);
  }

  lemma {:induction false} BoundaryMonotone(length: nat, n: nat, i: nat, j: nat)
    requires 0 < n && i <= j
    ensures Boundary(length, n, i) <= Boundary(length, n, j)
  {
    hide Boundary;
    if i < j {
      BoundaryMonotone(length, n, i, j - 1);
      BoundaryStep(length, n, j - 1);
    }
  }

  lemma BoundaryInRange(length: nat, n: nat, i: nat)
    requires 0 < n && i < n
    ensures Boundary(length, n, i) <= Boundary(length, n, i + 1) <= length
  {
    BoundaryEnds(length, n);
    BoundaryMonotone(length, n, i, i + 1);
    BoundaryMonotone(length, n, i + 1, n);
  }

  function Partition<T>(list: seq<T>, n: nat): (buckets: seq<seq<T>>)
    requires 0 < n
    ensures |buckets| == n
  {
    seq(n, i requires 0 <= i < n =>
             BoundaryInRange(|list|, n, i);
             list[Boundary(|list|, n, i)..Boundary(|list|, n, i + 1)])
  }

  function Flatten<T>(buckets: seq<seq<T>>): seq<T> {
    if buckets == [] then [] else Flatten(buckets[..|buckets| - 1]) + buckets[|buckets| - 1]
  }

  lemma {:induction false} PrefixOfBuckets<T>(list: seq<T>, n: nat, i: nat)
    requires 0 < n && i <= n
    ensures Boundary(|list|, n, i) <= |list|
    ensures Flatten(Partition(list, n)[..i]) == list[..Boundary(|list|, n, i)]
  {
    BoundaryEnds(|list|, n);
    if i > 0 {
      PrefixOfBuckets(list, n, i - 1);
      BoundaryInRange(|list|, n, i - 1);
      assert Partition(list, n)[..i][..i - 1] == Partition(list, n)[..i - 1];
    }
  }

  /** The buckets put together are the list. */
  lemma BucketsAreTheList<T>(list: seq<T>, n: nat)
    requires 0 < n
    ensures Flatten(Partition(list, n)) == list
  {
    PrefixOfBuckets(list, n, n);
    BoundaryEnds(|list|, n);
    assert Partition(list, n)[..n] == Partition(list, n);
  }

  /** With the square-root count no bucket is empty, none exceeds the count, and sizes differ by at most one. */
  lemma BucketSizes<T>(list: seq<T>, i: nat)
    requires |list| >= 1
    ensures var n := BucketCount(|list|);
            && 1 <= n
            && (i < n ==> 1 <= |list| / n <= |Partition(list, n)[i]| <= |list| / n + 1)
            && (i < n ==> |Partition(list, n)[i]| <= n)
  {
    var n := BucketCount(|list|);
    BucketCountFits(|list|);
    if i < n {
      ShareBounds(|list|, n);
      BoundaryInRange(|list|, n, i);
      BoundaryStep(|list|, n, i);
    }
  }

  lemma ShareBounds(length: nat, n: nat)
    requires 1 <= n <= length <= n * n
    ensures 1 <= length / n <= n
    ensures length % n != 0 ==> length / n + 1 <= n
  {
    var q := length / n;
    assert q * n <= length < q * n + n;
    if q > n {
      MulStep(n, q, n);
    }
    if q == n {
      assert length == q * n + length % n;
    }
  }

  // ---- Selection ----

  /** Zero or a missing time means now. */
  function TimeStrategy(time: Option<int>, now: int): int {
    (if time.None? || time.value == 0 then now else time.value) / TIME_GRANULARITY
  }

  /** The first position of the bucket a client value maps to. */
  function BucketStart(length: nat, value: int): nat
    requires length >= 1
  {
    BucketCountFits(length);
    Boundary(length, BucketCount(length), value % BucketCount(length))
  }

  function BucketSize(length: nat, value: int): (m: nat)
    requires length >= 1
    ensures 1 <= m && BucketStart(length, value) + m <= length
  {
    var n := BucketCount(length);
    BucketCountFits(length);
    var b: nat := value % n;
    BoundaryInRange(length, n, b);
    BoundaryStep(length, n, b);
    ShareBounds(length, n);
    Boundary(length, n, b + 1) - Boundary(length, n, b)
  }

  predicate InBucket(length: nat, value: int, p: int)
    requires length >= 1
  {
    BucketStart(length, value) <= p < BucketStart(length, value) + BucketSize(length, value)
  }

  /** The position chosen for a client value and an hour. */
  function SelectIndex(length: nat, value: int, hour: int): (p: nat)
    requires length >= 1
    ensures p < length && InBucket(length, value, p)
  {
    BucketStart(length, value) + hour % BucketSize(length, value)
  }

  function SelectServers<T>(servers: seq<T>, value: int, time: Option<int>, now: int): seq<T> {
    if |servers| < 1 then []
    else
      BucketCountFits(|servers|);
      var buckets := Partition(servers, BucketCount(|servers|));
      BucketSizes(servers, value % |buckets|);
      var bucket := buckets[value % |buckets|];
      [bucket[TimeStrategy(time, now) % |bucket|]]
  }

  /** Both indexes are in range, and the choice is in the bucket numbered by the client's value modulo the count. */
  lemma SelectsOne<T>(servers: seq<T>, value: int, time: Option<int>, now: int)
    requires |servers| >= 1
    ensures var n, p := BucketCount(|servers|), SelectIndex(|servers|, value, TimeStrategy(time, now));
            && 0 < n && Boundary(|servers|, n, value % n) < Boundary(|servers|, n, value % n + 1)
            && var t := if time.None? || time == Some(0) then now else time.value;
               var from, to := Boundary(|servers|, n, value % n), Boundary(|servers|, n, value % n + 1);
               p == from + (t / 3600) % (to - from)
    ensures SelectServers(servers, value, time, now) ==
              [servers[SelectIndex(|servers|, value, TimeStrategy(time, now))]]
  {
    var n := BucketCount(|servers|);
    BucketCountFits(|servers|);
    BucketSizes(servers, value % n);
    BoundaryInRange(|servers|, n, value % n);
  }

  lemma ModWindow(h: int, k: int, m: int)
    requires 0 < m && 0 <= k < m
    ensures (h + k) % m == (if h % m + k < m then h % m + k else h % m + k - m)
  {
    var q, r := h / m, h % m;
    assert h == q * m + r;
    if r + k < m {
      DivIs(h + k, m, q);
    } else {
      assert (q + 1) * m == q * m + m;
      DivIs(h + k, m, q + 1);
    }
  }

  /** A client stays in its bucket, and over as many hours as the bucket holds servers it is shown
      each of them exactly once. */
  lemma EachOnceInWindow(length: nat, value: int, hour: int, p: nat)
    requires length >= 1 && InBucket(length, value, p)
    ensures exists h :: hour <= h < hour + BucketSize(length, value) && SelectIndex(length, value, h) == p
    ensures forall h, h' :: hour <= h < h' < hour + BucketSize(length, value) ==>
                              SelectIndex(length, value, h) != SelectIndex(length, value, h')
  {
    hide BucketStart, BucketSize;
    var m := BucketSize(length, value);
    var o := p - BucketStart(length, value);
    var r := hour % m;
    var k := if o >= r then o - r else o - r + m;
    ModWindow(hour, k, m);
    assert SelectIndex(length, value, hour + k) == p;
    forall h, h' | hour <= h < h' < hour + m
      ensures SelectIndex(length, value, h) != SelectIndex(length, value, h')
    {
      ModWindow(hour, h - hour, m);
      ModWindow(hour, h' - hour, m);
    }
  }

  lemma {:induction false} BucketOf(length: nat, n: nat, p: nat, top: nat) returns (i: nat)
    requires 0 < n && top <= n && p < Boundary(length, n, top)
    ensures i < top && Boundary(length, n, i) <= p < Boundary(length, n, i + 1)
  {
    BoundaryEnds(length, n);
    if Boundary(length, n, top - 1) <= p {
      i := top - 1;
    } else {
      i := BucketOf(length, n, p, top - 1);
    }
  }

  /** Some client value in the range is shown position p at some hour. */
  ghost predicate Shown(length: nat, lo: nat, hi: nat, p: nat)
    requires length >= 1
  {
    exists v, h :: lo <= v < hi && SelectIndex(length, v, h) == p
  }

  lemma ShownInBucket(length: nat, v: nat, p: nat)
    requires length >= 1 && InBucket(length, v, p)
    ensures exists h :: SelectIndex(length, v, h) == p
  {
    EachOnceInWindow(length, v, 0, p);
  }

  lemma SmallMod(v: nat, n: nat)
    requires v < n
    ensures v % n == v
  {
  }

  lemma Reaches(length: nat, p: nat, lo: nat, hi: nat)
    requires 1 <= length && p < length && lo <= 1 && BucketCount(length) + lo <= hi
    ensures Shown(length, lo, hi, p)
  {
    var n := BucketCount(length);
    BucketCountFits(length);
    BoundaryEnds(length, n);
    var i := BucketOf(length, n, p, n);
    var v := if i >= lo then i else n;
    if v == i {
      SmallMod(v, n);
    } else {
      assert n % n == 0;
    }
    assert InBucket(length, v, p);
    ShownInBucket(length, v, p);
  }

  /** The last server is out of reach of values below the bucket count less one. */
  lemma LastNotShown(length: nat, v: nat)
    requires 1 <= length && v + 1 < BucketCount(length)
    ensures !InBucket(length, v, length - 1)
  {
    var n := BucketCount(length);
    BucketCountFits(length);
    SmallMod(v, n);
    BoundaryEnds(length, n);
    BoundaryMonotone(length, n, v + 1, n - 1);
    BoundaryStep(length, n, n - 1);
    ShareBounds(length, n);
  }

  /** The first server is out of reach of non-zero values below the bucket count. */
  lemma FirstNotShown(length: nat, v: nat)
    requires 1 <= length && 1 <= v < BucketCount(length)
    ensures !InBucket(length, v, 0)
  {
    var n := BucketCount(length);
    BucketCountFits(length);
    SmallMod(v, n);
    BoundaryEnds(length, n);
    BoundaryMonotone(length, n, 1, v);
    BoundaryStep(length, n, 0);
    ShareBounds(length, n);
  }

  /** With one-byte client values every server can be selected exactly up to 65536 servers. */
  lemma AllSelectable(length: nat)
    requires length >= 1
    ensures (forall p: nat :: p < length ==> Shown(length, 0, 256, p)) <==> length <= 65536
  {
    BucketCountAtMost(length, 256);
    if length <= 65536 {
      forall p: nat | p < length
        ensures Shown(length, 0, 256, p)
      {
        Reaches(length, p, 0, 256);
      }
    } else {
      var last := length - 1;
      forall v: nat | v < 256
        ensures !InBucket(length, v, last)
      {
        LastNotShown(length, v);
      }
      assert !Shown(length, 0, 256, last);
    }
  }

  /** A handshake does discovery for non-zero client values only, which lowers that to 65025 servers. */
  lemma AllSelectableByHandshake(length: nat)
    requires length >= 1
    ensures (forall p: nat :: p < length ==> Shown(length, 1, 256, p)) <==> length <= 65025
  {
    BucketCountAtMost(length, 255);
    if length <= 65025 {
      forall p: nat | p < length
        ensures Shown(length, 1, 256, p)
      {
        Reaches(length, p, 1, 256);
      }
    } else {
      forall v: nat | 1 <= v < 256
        ensures !InBucket(length, v, 0)
      {
        FirstNotShown(length, v);
      }
      assert !Shown(length, 1, 256, 0);
    }
  }

  // ---- In seconds ----

  /** A boundary is i shares of the list, rounded to the nearest position, halves up. */
  lemma BoundaryRounds(length: nat, n: nat, i: nat)
    requires 0 < n
    ensures var b := Boundary(length, n, i); 2 * (n * b) - n <= 2 * (length * i) < 2 * (n * b) + n
  {
    var x, m := 2 * length * i + n, 2 * n;
    var b := x / m;
    assert x == m * b + x % m;
    assert 2 * length * i == 2 * (length * i) && m * b == 2 * (n * b);
  }

  lemma HoursLater(t: int, k: int)
    ensures (t + 3600 * k) / 3600 == t / 3600 + k
  {
    var q := t / 3600;
    DivIs(t + 3600 * k, 3600, q + k);
  }

  /** The selection changes with the clock hour and at no other time; without a time, or at time zero, it is
      that of the present. */
  lemma SameWithinHour<T>(servers: seq<T>, value: int, t: int, t': int, now: int)
    requires t != 0 && t' != 0 && t / 3600 == t' / 3600
    ensures SelectServers(servers, value, Some(t), now) == SelectServers(servers, value, Some(t'), now)
    ensures now != 0 ==> SelectServers(servers, value, Some(now), t) == SelectServers(servers, value, None, now)
    ensures SelectServers(servers, value, Some(0), now) == SelectServers(servers, value, None, now)
  {
    hide Partition, BucketCount;
  }

  /** Asking every 3600 seconds, for as many times as its bucket holds servers, a client is shown each server of
      the bucket exactly once. */
  lemma EachOnceInSeconds<T>(servers: seq<T>, value: int, t: int, now: int, p: nat)
    requires |servers| >= 1 && InBucket(|servers|, value, p) && 0 < t
    ensures exists k :: 0 <= k < BucketSize(|servers|, value)
                        && SelectServers(servers, value, Some(t + 3600 * k), now) == [servers[p]]
    ensures forall k, k' :: 0 <= k < k' < BucketSize(|servers|, value) ==>
              SelectIndex(|servers|, value, TimeStrategy(Some(t + 3600 * k), now)) !=
              SelectIndex(|servers|, value, TimeStrategy(Some(t + 3600 * k'), now))
  {
    hide SelectServers, SelectIndex, BucketSize, InBucket;
    var length, hour := |servers|, t / 3600;
    EachOnceInWindow(length, value, hour, p);
    var h :| hour <= h < hour + BucketSize(length, value) && SelectIndex(length, value, h) == p;
    var k := h - hour;
    HoursLater(t, k);
    SelectsOne(servers, value, Some(t + 3600 * k), now);
    forall k, k' | 0 <= k < k' < BucketSize(length, value)
      ensures SelectIndex(length, value, TimeStrategy(Some(t + 3600 * k), now)) !=
              SelectIndex(length, value, TimeStrategy(Some(t + 3600 * k'), now))
    {
      HoursLater(t, k);
      HoursLater(t, k');
    }
  }
}
