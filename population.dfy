/**
 * The customer cohort: sequential ids, signup dates in the first 180 days of
 * the horizon, clipped latent scores and segment flags set from empirical
 * quantiles of the generated scores (numpy's default linear interpolation).
 */
module Population {
  import opened Wrappers
  import opened Numeric
  import opened Calendar

  /** Signup happens within this many days of START_DATE (randint(0, 180)). */
  const SIGNUP_WINDOW_DAYS: int := 180
  /** Scores are clipped to [-SCORE_BOUND, SCORE_BOUND]. */
  const SCORE_BOUND: real := 2.5
  /** Quantile of value_score above which a customer is high-value (top ~30%). */
  const HIGH_VALUE_QUANTILE: real := 0.70
  /** Quantile of activity_score above which a customer is active (top ~50%). */
  const ACTIVE_QUANTILE: real := 0.50

  /** A 0/1 indicator column, as the source's astype(int) flags. */
  type Bit = b: int | 0 <= b <= 1

  datatype Customer = Customer(
    id: int,
    signupDate: Date,
    valueScore: real,
    activityScore: real,
    isHighValue: Bit,
    isActive: Bit)

  /** The random draws of one customer: randint(0, 180) and two standard normals. */
  datatype CustomerDraw = CustomerDraw(signupOffset: int, valueNormal: real, activityNormal: real)

  predicate CustomerDrawOk(d: CustomerDraw) {
    0 <= d.signupOffset < SIGNUP_WINDOW_DAYS
  }

  // ---------------------------------------------------------------------------
  // Sorting, for the order statistics behind np.quantile
  // ---------------------------------------------------------------------------

  predicate Sorted(s: seq<real>) {
    forall i, j :: 0 <= i < j < |s| ==> s[i] <= s[j]
  }

  function InsertSorted(x: real, s: seq<real>): seq<real>
    decreases |s|
  {
    if s == [] then [x]
    else if x <= s[0] then [x] + s
    else [s[0]] + InsertSorted(x, s[1..])
  }

  lemma {:induction false} InsertSortedPermutes(x: real, s: seq<real>)
    ensures multiset(InsertSorted(x, s)) == multiset(s) + multiset{x} && |InsertSorted(x, s)| == |s| + 1
    decreases |s|
  {
    if s != [] && !(x <= s[0]) {
      InsertSortedPermutes(x, s[1..]);
      assert s == [s[0]] + s[1..];
    }
  }

  /** Every element of s is at least b. */
  predicate AllAtLeast(b: real, s: seq<real>) {
    forall k :: 0 <= k < |s| ==> b <= s[k]
  }

  lemma {:induction false} InsertSortedBound(b: real, x: real, s: seq<real>)
    requires AllAtLeast(b, s) && b <= x
    ensures AllAtLeast(b, InsertSorted(x, s))
    decreases |s|
  {
    if s != [] && !(x <= s[0]) {
      InsertSortedBound(b, x, s[1..]);
      assert InsertSorted(x, s) == [s[0]] + InsertSorted(x, s[1..]);
    }
  }

  lemma {:induction false} InsertSortedSorted(x: real, s: seq<real>)
    requires Sorted(s)
    ensures Sorted(InsertSorted(x, s))
    decreases |s|
  {
    if s != [] {
      if !(x <= s[0]) {
        var rest := InsertSorted(x, s[1..]);
        InsertSortedSorted(x, s[1..]);
        assert AllAtLeast(s[0], s[1..]);
        InsertSortedBound(s[0], x, s[1..]);
        var r := [s[0]] + rest;
        assert InsertSorted(x, s) == r;
        forall i, j | 0 <= i < j < |r| ensures r[i] <= r[j] {
          assert r[j] == rest[j - 1];
          if i > 0 {
            assert r[i] == rest[i - 1];
          }
        }
      }
    }
  }

  /** The scores in ascending order: a sorted permutation. */
  function SortScores(s: seq<real>): (r: seq<real>)
    ensures Sorted(r) && multiset(r) == multiset(s) && |r| == |s|
    decreases |s|
  {
    if s == [] then []
    else
      var rest := SortScores(s[1..]);
      SortScoresStep(s, rest);
      InsertSorted(s[0], rest)
  }

  /** Inserting the head into the sorted tail sorts the whole sequence. */
  lemma SortScoresStep(s: seq<real>, rest: seq<real>)
    requires s != [] && Sorted(rest) && multiset(rest) == multiset(s[1..])
    ensures Sorted(InsertSorted(s[0], rest))
    ensures multiset(InsertSorted(s[0], rest)) == multiset(s) && |InsertSorted(s[0], rest)| == |s|
  {
    InsertSortedPermutes(s[0], rest);
    InsertSortedSorted(s[0], rest);
    assert s == [s[0]] + s[1..];
    assert |rest| == |multiset(rest)| == |s[1..]|;
  }

  // ---------------------------------------------------------------------------
  // np.quantile(x, q) with the default "linear" method
  // ---------------------------------------------------------------------------

  /** Index of the order statistic at or below the virtual index q * (n - 1). */
  function QuantileLow(n: nat, q: real): (lo: nat)
    requires 0 < n && 0.0 <= q <= 1.0
    ensures lo < n
  {
    ((n - 1) as real * q).Floor
  }

  /** Index of the order statistic just above (or equal to the last). */
  function QuantileHigh(n: nat, q: real): (hi: nat)
    requires 0 < n && 0.0 <= q <= 1.0
    ensures QuantileLow(n, q) <= hi < n
    ensures (n - 1) as real * q <= hi as real
  {
    var lo := QuantileLow(n, q);
    ScaleAtMost((n - 1) as real, q);
    if lo + 1 < n then lo + 1 else lo
  }

  /** q * x stays within [0, x] for a fraction q. */
  lemma ScaleAtMost(x: real, q: real)
    requires 0.0 <= x && 0.0 <= q <= 1.0
    ensures 0.0 <= x * q <= x
  {
    assert x * q <= x * 1.0;
  }

  /** a + t * (b - a), the interpolation numpy applies between two order statistics. */
  function Lerp(a: real, b: real, t: real): (r: real)
    requires a <= b && 0.0 <= t <= 1.0
    ensures a <= r <= b
  {
    var gap := b - a;
    var step := gap * t;
    ScaleAtMost(gap, t);
    a + step
  }

  /**
   * The q-quantile of s, by linear interpolation between the two order
   * statistics around rank q * (n - 1). None for an empty sample.
   */
  function Quantile(s: seq<real>, q: real): (r: Option<real>)
    requires 0.0 <= q <= 1.0
    ensures r.Some? <==> |s| > 0
    ensures r.Some? ==>
      var sorted := SortScores(s);
      sorted[QuantileLow(|s|, q)] <= r.value <= sorted[QuantileHigh(|s|, q)]
  {
    if |s| == 0 then None
    else
      var sorted := SortScores(s);
      var h := (|s| - 1) as real * q;
      var lo := QuantileLow(|s|, q);
      var hi := QuantileHigh(|s|, q);
      assert sorted[lo] <= sorted[hi];
      Some(Lerp(sorted[lo], sorted[hi], if lo == hi then 0.0 else h - lo as real))
  }

  /** (score >= threshold).astype(int); comparing with a missing threshold is false. */
  function Flag(score: real, threshold: Option<real>): (b: Bit)
    ensures b == 1 <==> threshold.Some? && score >= threshold.value
  {
    if threshold.Some? && score >= threshold.value then 1 else 0
  }

  function ValueScores(cust: seq<Customer>): (r: seq<real>)
    ensures |r| == |cust| && forall i :: 0 <= i < |cust| ==> r[i] == cust[i].valueScore
  {
    seq(|cust|, i requires 0 <= i < |cust| => cust[i].valueScore)
  }

  function ActivityScores(cust: seq<Customer>): (r: seq<real>)
    ensures |r| == |cust| && forall i :: 0 <= i < |cust| ==> r[i] == cust[i].activityScore
  {
    seq(|cust|, i requires 0 <= i < |cust| => cust[i].activityScore)
  }

  /**
   * Builds the cohort of |draws| customers. The thresholds are quantiles of the
   * clipped scores of this very cohort (a two-pass computation).
   */
  function BuildCustomers(start: Date, draws: seq<CustomerDraw>): (r: seq<Customer>)
    requires ValidDate(start)
    requires forall i :: 0 <= i < |draws| ==> CustomerDrawOk(draws[i])
    ensures |r| == |draws|
    ensures forall i :: 0 <= i < |r| ==>
      && r[i].id == i + 1
      && ValidDate(r[i].signupDate)
      && DayNumber(r[i].signupDate) == DayNumber(start) + draws[i].signupOffset
      && DayNumber(start) <= DayNumber(r[i].signupDate) < DayNumber(start) + SIGNUP_WINDOW_DAYS
      && r[i].valueScore == Clip(draws[i].valueNormal, -SCORE_BOUND, SCORE_BOUND)
      && r[i].activityScore == Clip(draws[i].activityNormal, -SCORE_BOUND, SCORE_BOUND)
    ensures forall i :: 0 <= i < |r| ==>
      && (r[i].isHighValue == 1 <==> r[i].valueScore >= Quantile(ValueScores(r), HIGH_VALUE_QUANTILE).value)
      && (r[i].isActive == 1 <==> r[i].activityScore >= Quantile(ActivityScores(r), ACTIVE_QUANTILE).value)
  {
    var n := |draws|;
    var values := ClippedScores(draws, true);
    var activities := ClippedScores(draws, false);
    var hvThreshold := Quantile(values, HIGH_VALUE_QUANTILE);
    var activeThreshold := Quantile(activities, ACTIVE_QUANTILE);
    var r := seq(n, i requires 0 <= i < n =>
      MakeCustomer(start, i, draws[i], values[i], activities[i], hvThreshold, activeThreshold));
    assert ValueScores(r) == values;
    assert ActivityScores(r) == activities;
    assert Quantile(ValueScores(r), HIGH_VALUE_QUANTILE) == hvThreshold;
    assert Quantile(ActivityScores(r), ACTIVE_QUANTILE) == activeThreshold;
    r
  }

  /** No two customers share a customer_id. */
  predicate UniqueIds(cust: seq<Customer>) {
    forall a, b :: 0 <= a < b < |cust| ==> cust[a].id != cust[b].id
  }

  /** customer_id = np.arange(1, N + 1): the built cohort never repeats an id. */
  lemma BuildCustomersUniqueIds(start: Date, draws: seq<CustomerDraw>)
    requires ValidDate(start)
    requires forall i :: 0 <= i < |draws| ==> CustomerDrawOk(draws[i])
    ensures UniqueIds(BuildCustomers(start, draws))
  {
  }

  /** Row i of the cohort, given its clipped scores and the two thresholds. */
  function MakeCustomer(start: Date, i: nat, d: CustomerDraw, value: real, activity: real,
                        hvThreshold: Option<real>, activeThreshold: Option<real>): (c: Customer)
    requires ValidDate(start) && CustomerDrawOk(d)
    ensures c.id == i + 1 && c.valueScore == value && c.activityScore == activity
    ensures ValidDate(c.signupDate)
    ensures DayNumber(c.signupDate) == DayNumber(start) + d.signupOffset
    ensures DayNumber(start) <= DayNumber(c.signupDate) < DayNumber(start) + SIGNUP_WINDOW_DAYS
    ensures c.isHighValue == Flag(value, hvThreshold) && c.isActive == Flag(activity, activeThreshold)
  {
    Customer(i + 1, AddDays(start, d.signupOffset), value, activity,
             Flag(value, hvThreshold), Flag(activity, activeThreshold))
  }

  /** np.clip(normal draws, -2.5, 2.5) for the value (or else the activity) scores. */
  function ClippedScores(draws: seq<CustomerDraw>, value: bool): (r: seq<real>)
    ensures |r| == |draws|
    ensures forall i :: 0 <= i < |r| ==>
      r[i] == Clip(if value then draws[i].valueNormal else draws[i].activityNormal, -SCORE_BOUND, SCORE_BOUND)
  {
    seq(|draws|, i requires 0 <= i < |draws| =>
      Clip(if value then draws[i].valueNormal else draws[i].activityNormal, -SCORE_BOUND, SCORE_BOUND))
  }

  // ---------------------------------------------------------------------------
  // Properties of the segment flags
  // ---------------------------------------------------------------------------

  /** Flags are monotone in the score: a higher score never loses a flag. */
  lemma FlagsMonotone(start: Date, draws: seq<CustomerDraw>, i: int, j: int)
    requires ValidDate(start)
    requires forall k :: 0 <= k < |draws| ==> CustomerDrawOk(draws[k])
    requires 0 <= i < |draws| && 0 <= j < |draws|
    ensures var c := BuildCustomers(start, draws);
      && (c[i].valueScore <= c[j].valueScore ==> c[i].isHighValue <= c[j].isHighValue)
      && (c[i].activityScore <= c[j].activityScore ==> c[i].isActive <= c[j].isActive)
  {
  }

  /** The largest element of a sample bounds every quantile of it. */
  lemma QuantileAtMostMax(s: seq<real>, q: real, m: int)
    requires 0.0 <= q <= 1.0
    requires 0 <= m < |s| && forall k :: 0 <= k < |s| ==> s[k] <= s[m]
    ensures Quantile(s, q).value <= s[m]
  {
    var sorted := SortScores(s);
    var hi := QuantileHigh(|s|, q);
    assert sorted[hi] in multiset(sorted);
    assert sorted[hi] in multiset(s);
  }

  /** When the cohort is non-empty, a customer with the maximum score is always flagged. */
  lemma MaxScoreIsFlagged(start: Date, draws: seq<CustomerDraw>, m: int)
    requires ValidDate(start)
    requires forall k :: 0 <= k < |draws| ==> CustomerDrawOk(draws[k])
    requires 0 <= m < |draws|
    ensures var c := BuildCustomers(start, draws);
      && ((forall k :: 0 <= k < |c| ==> c[k].valueScore <= c[m].valueScore) ==> c[m].isHighValue == 1)
      && ((forall k :: 0 <= k < |c| ==> c[k].activityScore <= c[m].activityScore) ==> c[m].isActive == 1)
  {
    var c := BuildCustomers(start, draws);
    if forall k :: 0 <= k < |c| ==> c[k].valueScore <= c[m].valueScore {
      QuantileAtMostMax(ValueScores(c), HIGH_VALUE_QUANTILE, m);
    }
    if forall k :: 0 <= k < |c| ==> c[k].activityScore <= c[m].activityScore {
      QuantileAtMostMax(ActivityScores(c), ACTIVE_QUANTILE, m);
    }
  }

  /** How many elements of s reach t. */
  function CountAtLeast(s: seq<real>, t: real): (n: nat)
    ensures n <= |s|
  {
    if s == [] then 0 else CountAtLeast(s[..|s| - 1], t) + (if s[|s| - 1] >= t then 1 else 0)
  }

  lemma {:induction false} CountAtLeastAppend(a: seq<real>, b: seq<real>, t: real)
    ensures CountAtLeast(a + b, t) == CountAtLeast(a, t) + CountAtLeast(b, t)
    decreases |b|
  {
    if b == [] {
      assert a + b == a;
    } else {
      assert (a + b)[..|a + b| - 1] == a + b[..|b| - 1];
      CountAtLeastAppend(a, b[..|b| - 1], t);
    }
  }

  lemma {:induction false} CountAtLeastPermutation(a: seq<real>, b: seq<real>, t: real)
    requires multiset(a) == multiset(b)
    ensures CountAtLeast(a, t) == CountAtLeast(b, t)
    decreases |a|
  {
    if a != [] {
      var x := a[|a| - 1];
      var a' := a[..|a| - 1];
      assert a == a' + [x];
      assert x in multiset(b);
      var k :| 0 <= k < |b| && b[k] == x;
      var b' := b[..k] + b[k + 1..];
      assert b == b[..k] + [x] + b[k + 1..];
      assert multiset(b) == multiset(b[..k]) + multiset{x} + multiset(b[k + 1..]);
      assert multiset(a) == multiset(a') + multiset{x};
      assert multiset(b') == multiset(b[..k]) + multiset(b[k + 1..]);
      assert multiset(b') == multiset(b) - multiset{x};
      assert multiset(a') == multiset(a) - multiset{x};
      CountAtLeastPermutation(a', b', t);
      CountAtLeastAppend(b[..k] + [x], b[k + 1..], t);
      CountAtLeastAppend(b[..k], [x], t);
      CountAtLeastAppend(b[..k], b[k + 1..], t);
      assert [x][..0] == [];
    } else {
      assert |b| == |multiset(b)| == 0;
    }
  }

  lemma {:induction false} CountAtLeastAll(s: seq<real>, t: real)
    requires forall k :: 0 <= k < |s| ==> s[k] >= t
    ensures CountAtLeast(s, t) == |s|
    decreases |s|
  {
    if s != [] {
      CountAtLeastAll(s[..|s| - 1], t);
    }
  }

  /**
   * At least n - hi elements of a sample reach its q-quantile, where hi is the
   * order statistic just above rank q * (n - 1): the flagged segment keeps its
   * proportion whatever the draws.
   */
  lemma QuantileSegmentSize(s: seq<real>, q: real)
    requires 0.0 <= q <= 1.0 && |s| > 0
    ensures CountAtLeast(s, Quantile(s, q).value) >= |s| - QuantileHigh(|s|, q)
  {
    var sorted := SortScores(s);
    var t := Quantile(s, q).value;
    CountAtLeastSortedSuffix(sorted, QuantileHigh(|s|, q), t);
    CountAtLeastPermutation(s, sorted, t);
  }

  /** In a sorted sample, everything from the first element reaching t onwards reaches t. */
  lemma CountAtLeastSortedSuffix(sorted: seq<real>, hi: nat, t: real)
    requires Sorted(sorted) && hi < |sorted| && t <= sorted[hi]
    ensures CountAtLeast(sorted, t) >= |sorted| - hi
  {
    var top := sorted[hi..];
    assert sorted == sorted[..hi] + top;
    assert forall k :: 0 <= k < |top| ==> top[k] >= t by {
      forall k | 0 <= k < |top| ensures top[k] >= t {
        assert top[k] == sorted[hi + k] >= sorted[hi];
      }
    }
    CountAtLeastAppend(sorted[..hi], top, t);
    CountAtLeastAll(top, t);
  }

  function CountHighValue(c: seq<Customer>): (n: nat)
    ensures n <= |c|
  {
    if c == [] then 0 else CountHighValue(c[..|c| - 1]) + c[|c| - 1].isHighValue
  }

  function CountActive(c: seq<Customer>): (n: nat)
    ensures n <= |c|
  {
    if c == [] then 0 else CountActive(c[..|c| - 1]) + c[|c| - 1].isActive
  }

  lemma {:induction false} CountHighValueIsCountAtLeast(c: seq<Customer>, t: real)
    requires forall k :: 0 <= k < |c| ==> (c[k].isHighValue == 1 <==> c[k].valueScore >= t)
    ensures CountHighValue(c) == CountAtLeast(ValueScores(c), t)
    decreases |c|
  {
    if c != [] {
      assert ValueScores(c)[..|c| - 1] == ValueScores(c[..|c| - 1]);
      CountHighValueIsCountAtLeast(c[..|c| - 1], t);
    }
  }

  lemma {:induction false} CountActiveIsCountAtLeast(c: seq<Customer>, t: real)
    requires forall k :: 0 <= k < |c| ==> (c[k].isActive == 1 <==> c[k].activityScore >= t)
    ensures CountActive(c) == CountAtLeast(ActivityScores(c), t)
    decreases |c|
  {
    if c != [] {
      assert ActivityScores(c)[..|c| - 1] == ActivityScores(c[..|c| - 1]);
      CountActiveIsCountAtLeast(c[..|c| - 1], t);
    }
  }

  /** No score occurs twice. */
  predicate Distinct(s: seq<real>) {
    forall i, j :: 0 <= i < j < |s| ==> s[i] != s[j]
  }

  /** A value occurring twice in the multiset occurs at two positions of the sequence. */
  lemma {:induction false} TwoCopies(s: seq<real>, v: real)
    requires multiset(s)[v] >= 2
    ensures exists i, j :: 0 <= i < j < |s| && s[i] == v && s[j] == v
    decreases |s|
  {
    assert s != [];
    assert s == [s[0]] + s[1..];
    assert multiset(s) == multiset{s[0]} + multiset(s[1..]);
    if s[0] == v {
      assert v in multiset(s[1..]);
      var j :| 0 <= j < |s[1..]| && s[1..][j] == v;
      assert s[0] == v && s[j + 1] == v;
    } else {
      TwoCopies(s[1..], v);
      var i, j :| 0 <= i < j < |s[1..]| && s[1..][i] == v && s[1..][j] == v;
      assert s[i + 1] == v && s[j + 1] == v;
    }
  }

  /** Two equal neighbours put their value twice into the multiset. */
  lemma EqualNeighboursTwice(t: seq<real>, k: nat)
    requires 0 < k < |t| && t[k - 1] == t[k]
    ensures multiset(t)[t[k]] >= 2
  {
    var v := t[k];
    assert t == t[..k - 1] + [v, v] + t[k + 1..];
    assert multiset(t) == multiset(t[..k - 1]) + multiset([v, v]) + multiset(t[k + 1..]);
    assert multiset([v, v])[v] == 2;
  }

  /** Sorting distinct scores orders them strictly. */
  lemma SortedDistinctStrict(s: seq<real>, k: nat)
    requires Distinct(s) && 0 < k < |s|
    ensures SortScores(s)[k - 1] < SortScores(s)[k]
  {
    var sorted := SortScores(s);
    if sorted[k - 1] == sorted[k] {
      EqualNeighboursTwice(sorted, k);
      TwoCopies(s, sorted[k]);
      assert false;
    }
  }

  lemma {:induction false} CountAtLeastNone(s: seq<real>, t: real)
    requires forall k :: 0 <= k < |s| ==> s[k] < t
    ensures CountAtLeast(s, t) == 0
    decreases |s|
  {
    if s != [] {
      CountAtLeastNone(s[..|s| - 1], t);
    }
  }

  /** In a sorted sample whose element at lo - 1 is below t, at most n - lo elements reach t. */
  lemma CountAtLeastSortedPrefix(sorted: seq<real>, lo: nat, t: real)
    requires Sorted(sorted) && 0 < lo <= |sorted| && sorted[lo - 1] < t
    ensures CountAtLeast(sorted, t) <= |sorted| - lo
  {
    var bottom := sorted[..lo];
    assert sorted == bottom + sorted[lo..];
    assert forall k :: 0 <= k < |bottom| ==> bottom[k] < t by {
      forall k | 0 <= k < |bottom| ensures bottom[k] < t {
        assert bottom[k] == sorted[k] <= sorted[lo - 1];
      }
    }
    CountAtLeastAppend(bottom, sorted[lo..], t);
    CountAtLeastNone(bottom, t);
  }

  /**
   * With pairwise-distinct scores, at most n - lo elements reach the
   * q-quantile, lo being the order statistic at or below rank q * (n - 1).
   */
  lemma QuantileSegmentAtMost(s: seq<real>, q: real)
    requires 0.0 <= q <= 1.0 && |s| > 0 && Distinct(s)
    ensures CountAtLeast(s, Quantile(s, q).value) <= |s| - QuantileLow(|s|, q)
  {
    var lo := QuantileLow(|s|, q);
    if lo > 0 {
      var sorted := SortScores(s);
      var t := Quantile(s, q).value;
      SortedDistinctStrict(s, lo);
      CountAtLeastSortedPrefix(sorted, lo, t);
      CountAtLeastPermutation(s, sorted, t);
    }
  }

  /**
   * Segment sizes are stable proportions of the cohort: with n customers, at
   * least n - hi are high-value (hi the order statistic just above rank
   * 0.70 * (n - 1)), and at least n - hi' are active (rank 0.50 * (n - 1)).
   * When no two customers share a score, the segment has at most n - lo
   * members (lo the order statistic at or below that rank).
   */
  lemma SegmentSizes(start: Date, draws: seq<CustomerDraw>)
    requires ValidDate(start)
    requires forall k :: 0 <= k < |draws| ==> CustomerDrawOk(draws[k])
    requires |draws| > 0
    ensures var c := BuildCustomers(start, draws);
      && CountHighValue(c) >= |c| - QuantileHigh(|c|, HIGH_VALUE_QUANTILE)
      && CountActive(c) >= |c| - QuantileHigh(|c|, ACTIVE_QUANTILE)
      && (Distinct(ValueScores(c)) ==> CountHighValue(c) <= |c| - QuantileLow(|c|, HIGH_VALUE_QUANTILE))
      && (Distinct(ActivityScores(c)) ==> CountActive(c) <= |c| - QuantileLow(|c|, ACTIVE_QUANTILE))
  {
    var c := BuildCustomers(start, draws);
    CountHighValueIsCountAtLeast(c, Quantile(ValueScores(c), HIGH_VALUE_QUANTILE).value);
    QuantileSegmentSize(ValueScores(c), HIGH_VALUE_QUANTILE);
    CountActiveIsCountAtLeast(c, Quantile(ActivityScores(c), ACTIVE_QUANTILE).value);
    QuantileSegmentSize(ActivityScores(c), ACTIVE_QUANTILE);
    if Distinct(ValueScores(c)) {
      QuantileSegmentAtMost(ValueScores(c), HIGH_VALUE_QUANTILE);
    }
    if Distinct(ActivityScores(c)) {
      QuantileSegmentAtMost(ActivityScores(c), ACTIVE_QUANTILE);
    }
  }
}
