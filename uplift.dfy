/**
 * The causal-uplift injection: for every responder exposure, in exposure
 * order, the revenue of that customer's transactions dated in the 7-day
 * post-window [exposure_date, exposure_date + 6] is multiplied by
 * (1 + lift) and rounded to cents. lift is a clipped normal draw, taken
 * only when the window matches at least one transaction. Passes compound:
 * each re-reads the revenue left by the previous ones.
 */
module Uplift {
  import opened Numeric
  import opened Calendar
  import opened Transactions
  import opened Exposures

  /** Length of the post-exposure window, in days, the exposure day included. */
  const IMPACT_WINDOW_DAYS: int := 7
  /** Cap of the per-exposure lift: np.clip(normal(LIFT_MEAN, LIFT_STD), 0.0, 0.25). */
  const MAX_LIFT: real := 0.25

  /** The lift of one exposure from its normal draw. */
  function Lift(normal: real): (l: real)
    ensures 0.0 <= l <= MAX_LIFT
    ensures 0.0 <= normal <= MAX_LIFT ==> l == normal
  {
    Clip(normal, 0.0, MAX_LIFT)
  }

  /** Same customer and post_start <= transaction_date <= post_end. */
  predicate InWindow(t: Transaction, e: Exposure) {
    && ValidDate(t.date) && ValidDate(e.date)
    && t.customerId == e.customerId
    && DayNumber(e.date) <= DayNumber(t.date) <= DayNumber(e.date) + (IMPACT_WINDOW_DAYS - 1)
  }

  /** mask.any(). */
  predicate AnyInWindow(txs: seq<Transaction>, e: Exposure) {
    exists i :: 0 <= i < |txs| && InWindow(txs[i], e)
  }

  /** (revenue * (1.0 + lift)).round(2), on integer cents. */
  function Scale(c: int, lift: real): (r: int)
    ensures (r as real) - (c as real) * (1.0 + lift) <= 1.0 / 2.0
    ensures (c as real) * (1.0 + lift) - (r as real) <= 1.0 / 2.0
  {
    RoundHalfEven((c as real) * (1.0 + lift))
  }

  /** One pass: the revenues of the transactions masked by e's window, scaled. */
  function Pass(revs: seq<int>, txs: seq<Transaction>, e: Exposure, lift: real): seq<int>
    requires |revs| == |txs|
  {
    seq(|revs|, i requires 0 <= i < |revs| => if InWindow(txs[i], e) then Scale(revs[i], lift) else revs[i])
  }

  /** Whether exposure e triggers a pass, and so consumes a lift draw. */
  predicate Triggers(txs: seq<Transaction>, e: Exposure) {
    e.isResponder == 1 && AnyInWindow(txs, e)
  }

  /** The revenue column after processing exps in order, each triggering pass using the next lift draw. */
  function Inject(revs: seq<int>, txs: seq<Transaction>, exps: seq<Exposure>, draws: seq<real>): (r: seq<int>)
    requires |revs| == |txs| && |draws| >= |exps|
    ensures |r| == |revs|
    decreases |exps|
  {
    if exps == [] then revs
    else if Triggers(txs, exps[0]) then Inject(Pass(revs, txs, exps[0], Lift(draws[0])), txs, exps[1..], draws[1..])
    else Inject(revs, txs, exps[1..], draws)
  }

  /** The number of lift draws the injection consumes. */
  function DrawsUsed(txs: seq<Transaction>, exps: seq<Exposure>): (n: nat)
    ensures n <= |exps|
    decreases |exps|
  {
    if exps == [] then 0
    else (if Triggers(txs, exps[0]) then 1 else 0) + DrawsUsed(txs, exps[1..])
  }

  /**
   * Reference definition per transaction: the final revenue of transaction t
   * starting from c, following only the passes whose window contains t.
   */
  function LiftedValue(c: int, t: Transaction, txs: seq<Transaction>, exps: seq<Exposure>, draws: seq<real>): int
    requires |draws| >= |exps|
    decreases |exps|
  {
    if exps == [] then c
    else if Triggers(txs, exps[0]) then
      LiftedValue(if InWindow(t, exps[0]) then Scale(c, Lift(draws[0])) else c, t, txs, exps[1..], draws[1..])
    else LiftedValue(c, t, txs, exps[1..], draws)
  }

  // ---------------------------------------------------------------------------
  // The in-place injection
  // ---------------------------------------------------------------------------

  /** mask = (customer_id == cid) & (date >= post_start) & (date <= post_end); mask.any(). */
  method AnyMatch(txs: seq<Transaction>, e: Exposure) returns (found: bool)
    ensures found <==> AnyInWindow(txs, e)
  {
    found := false;
    var i := 0;
    while i < |txs| && !found
      invariant 0 <= i <= |txs|
      invariant !found ==> forall j :: 0 <= j < i ==> !InWindow(txs[j], e)
      invariant found ==> 0 < i && InWindow(txs[i - 1], e)
    {
      if InWindow(txs[i], e) {
        found := true;
      }
      i := i + 1;
    }
  }

  /** tx.loc[mask, "revenue_adj"] = (tx.loc[mask, "revenue_adj"] * (1.0 + lift)).round(2). */
  method ApplyLift(txs: seq<Transaction>, rev: array<int>, e: Exposure, lift: real)
    requires rev.Length == |txs|
    modifies rev
    ensures rev[..] == Pass(old(rev[..]), txs, e, lift)
  {
    ghost var before := rev[..];
    var i := 0;
    while i < rev.Length
      invariant 0 <= i <= rev.Length
      invariant forall j :: 0 <= j < i ==> rev[j] == Pass(before, txs, e, lift)[j]
      invariant forall j :: i <= j < rev.Length ==> rev[j] == before[j]
    {
      if InWindow(txs[i], e) {
        rev[i] := Scale(rev[i], lift);
      }
      i := i + 1;
    }
  }

  /**
   * The loop over the exposures: a responder exposure whose window matches
   * some transaction draws the next lift and rescales the matched revenues in
   * place. Returns the number of lift draws consumed.
   */
  method InjectUplift(txs: seq<Transaction>, rev: array<int>, exps: seq<Exposure>, liftDraws: seq<real>)
    returns (used: nat)
    requires rev.Length == |txs| && |liftDraws| >= |exps|
    modifies rev
    ensures rev[..] == Inject(old(rev[..]), txs, exps, liftDraws)
    ensures used == DrawsUsed(txs, exps)
  {
    ghost var orig := rev[..];
    used := 0;
    var i := 0;
    while i < |exps|
      invariant 0 <= i <= |exps| && used <= i
      invariant Inject(rev[..], txs, exps[i..], liftDraws[used..]) == Inject(orig, txs, exps, liftDraws)
      invariant used + DrawsUsed(txs, exps[i..]) == DrawsUsed(txs, exps)
    {
      var e := exps[i];
      assert exps[i..][0] == e && exps[i..][1..] == exps[i + 1..];
      if e.isResponder == 1 {
        var any := AnyMatch(txs, e);
        if any {
          assert liftDraws[used..][0] == liftDraws[used] && liftDraws[used..][1..] == liftDraws[used + 1..];
          var lift := Lift(liftDraws[used]);
          ApplyLift(txs, rev, e, lift);
          used := used + 1;
        }
      }
      i := i + 1;
    }
    assert exps[i..] == [];
  }

  /** The revenue column of a transaction table. */
  function Revenues(txs: seq<Transaction>): (r: seq<int>)
    ensures |r| == |txs|
    ensures forall i :: 0 <= i < |txs| ==> r[i] == txs[i].revenueCents
  {
    seq(|txs|, i requires 0 <= i < |txs| => txs[i].revenueCents)
  }

  /** tx["revenue"] = tx["revenue_adj"]: the table with its revenue column replaced. */
  function WithRevenues(txs: seq<Transaction>, revs: seq<int>): seq<Transaction>
    requires |revs| == |txs|
  {
    seq(|txs|, i requires 0 <= i < |txs| => txs[i].(revenueCents := revs[i]))
  }

  /** The injection step on the transaction table: copy out revenue_adj, inject, write it back. */
  method InjectIntoTransactions(txs: seq<Transaction>, exps: seq<Exposure>, liftDraws: seq<real>)
    returns (txs': seq<Transaction>, used: nat)
    requires |liftDraws| >= |exps|
    ensures txs' == WithRevenues(txs, Inject(Revenues(txs), txs, exps, liftDraws))
    ensures used == DrawsUsed(txs, exps)
  {
    var rev := new int[|txs|](i requires 0 <= i < |txs| => txs[i].revenueCents);
    assert rev[..] == Revenues(txs);
    used := InjectUplift(txs, rev, exps, liftDraws);
    txs' := WithRevenues(txs, rev[..]);
  }

  // ---------------------------------------------------------------------------
  // Properties
  // ---------------------------------------------------------------------------

  /** Each final revenue is its transaction's own chain of passes: Inject is pointwise LiftedValue. */
  lemma {:induction false} InjectPointwise(revs: seq<int>, txs: seq<Transaction>, exps: seq<Exposure>,
                                           draws: seq<real>, k: int)
    requires |revs| == |txs| && |draws| >= |exps| && 0 <= k < |txs|
    ensures Inject(revs, txs, exps, draws)[k] == LiftedValue(revs[k], txs[k], txs, exps, draws)
    decreases |exps|
  {
    if exps != [] {
      if Triggers(txs, exps[0]) {
        var p := Pass(revs, txs, exps[0], Lift(draws[0]));
        InjectPointwise(p, txs, exps[1..], draws[1..], k);
      } else {
        InjectPointwise(revs, txs, exps[1..], draws, k);
      }
    }
  }

  /** No responder window of exps contains t. */
  predicate OutsideAllWindows(t: Transaction, exps: seq<Exposure>) {
    forall i :: 0 <= i < |exps| && exps[i].isResponder == 1 ==> !InWindow(t, exps[i])
  }

  lemma {:induction false} LiftedValueOutside(c: int, t: Transaction, txs: seq<Transaction>,
                                              exps: seq<Exposure>, draws: seq<real>)
    requires |draws| >= |exps| && OutsideAllWindows(t, exps)
    ensures LiftedValue(c, t, txs, exps, draws) == c
    decreases |exps|
  {
    if exps != [] {
      assert OutsideAllWindows(t, exps[1..]) by {
        forall i | 0 <= i < |exps[1..]| && exps[1..][i].isResponder == 1 ensures !InWindow(t, exps[1..][i]) {
          assert exps[1..][i] == exps[i + 1];
        }
      }
      assert exps[0].isResponder == 1 ==> !InWindow(t, exps[0]);
      if Triggers(txs, exps[0]) {
        LiftedValueOutside(c, t, txs, exps[1..], draws[1..]);
      } else {
        LiftedValueOutside(c, t, txs, exps[1..], draws);
      }
    }
  }

  /**
   * Locality: a transaction that lies in no responder exposure's post-window
   * keeps its revenue; in particular a customer without responder exposures
   * is never changed.
   */
  lemma InjectLocality(revs: seq<int>, txs: seq<Transaction>, exps: seq<Exposure>, draws: seq<real>, k: int)
    requires |revs| == |txs| && |draws| >= |exps| && 0 <= k < |txs|
    requires OutsideAllWindows(txs[k], exps)
    ensures Inject(revs, txs, exps, draws)[k] == revs[k]
  {
    InjectPointwise(revs, txs, exps, draws, k);
    LiftedValueOutside(revs[k], txs[k], txs, exps, draws);
  }

  /** A customer with no responder exposure has all their revenues unchanged. */
  lemma NonResponderCustomerUnchanged(revs: seq<int>, txs: seq<Transaction>, exps: seq<Exposure>,
                                      draws: seq<real>, k: int)
    requires |revs| == |txs| && |draws| >= |exps| && 0 <= k < |txs|
    requires forall i :: 0 <= i < |exps| && exps[i].customerId == txs[k].customerId ==> exps[i].isResponder == 0
    ensures Inject(revs, txs, exps, draws)[k] == revs[k]
  {
    InjectLocality(revs, txs, exps, draws, k);
  }

  /** A non-negative lift never lowers a non-negative revenue. */
  lemma ScaleAtLeast(c: int, lift: real)
    requires 0 <= c && 0.0 <= lift
    ensures c <= Scale(c, lift)
  {
    assert (c as real) * (1.0 + lift) == (c as real) + (c as real) * lift;
    assert 0.0 <= (c as real) * lift;
    RoundAtLeast((c as real) * (1.0 + lift), c);
  }

  lemma {:induction false} LiftedValueAtLeast(c: int, t: Transaction, txs: seq<Transaction>,
                                              exps: seq<Exposure>, draws: seq<real>)
    requires |draws| >= |exps| && 0 <= c
    ensures c <= LiftedValue(c, t, txs, exps, draws)
    decreases |exps|
  {
    if exps != [] {
      if Triggers(txs, exps[0]) {
        var c' := if InWindow(t, exps[0]) then Scale(c, Lift(draws[0])) else c;
        ScaleAtLeast(c, Lift(draws[0]));
        LiftedValueAtLeast(c', t, txs, exps[1..], draws[1..]);
      } else {
        LiftedValueAtLeast(c, t, txs, exps[1..], draws);
      }
    }
  }

  /** The effect is directional: no revenue decreases. */
  lemma InjectMonotone(revs: seq<int>, txs: seq<Transaction>, exps: seq<Exposure>, draws: seq<real>, k: int)
    requires |revs| == |txs| && |draws| >= |exps| && 0 <= k < |txs| && 0 <= revs[k]
    ensures revs[k] <= Inject(revs, txs, exps, draws)[k]
  {
    InjectPointwise(revs, txs, exps, draws, k);
    LiftedValueAtLeast(revs[k], txs[k], txs, exps, draws);
  }

  /**
   * One responder exposure whose window matches: the transactions in its
   * window get round(revenue * (1 + lift), 2) with lift the clipped draw,
   * all others are unaffected.
   */
  lemma SingleResponderExposure(revs: seq<int>, txs: seq<Transaction>, e: Exposure, draw: real, k: int)
    requires |revs| == |txs| && 0 <= k < |txs|
    requires e.isResponder == 1 && AnyInWindow(txs, e)
    ensures Inject(revs, txs, [e], [draw])[k] == if InWindow(txs[k], e) then Scale(revs[k], Lift(draw)) else revs[k]
    ensures Inject(revs, txs, [e], [draw])[k] != revs[k] ==>
      txs[k].customerId == e.customerId && DayNumber(e.date) <= DayNumber(txs[k].date) <= DayNumber(e.date) + 6
  {
    assert [e][1..] == [];
    assert Inject(revs, txs, [e], [draw]) == Pass(revs, txs, e, Lift(draw));
  }

  /**
   * Two overlapping responder exposures of the same customer, processed in
   * order: a transaction in both windows ends at
   * round(round(base * (1 + l1), 2) * (1 + l2), 2) — the lifts compound.
   */
  lemma OverlappingExposuresCompound(revs: seq<int>, txs: seq<Transaction>, e1: Exposure, e2: Exposure,
                                     d1: real, d2: real, k: int)
    requires |revs| == |txs| && 0 <= k < |txs|
    requires e1.isResponder == 1 && e2.isResponder == 1
    requires InWindow(txs[k], e1) && InWindow(txs[k], e2)
    ensures Inject(revs, txs, [e1, e2], [d1, d2])[k] == Scale(Scale(revs[k], Lift(d1)), Lift(d2))
  {
    assert Triggers(txs, e1) && Triggers(txs, e2);
    InjectPointwise(revs, txs, [e1, e2], [d1, d2], k);
    assert [e1, e2][1..] == [e2] && [e2][1..] == [];
    assert [d1, d2][1..] == [d2] && [d2][1..] == [];
    assert LiftedValue(revs[k], txs[k], txs, [e1, e2], [d1, d2])
        == LiftedValue(Scale(revs[k], Lift(d1)), txs[k], txs, [e2], [d2]);
  }

  /** A 10% lift on 100.00 gives exactly 110.00. */
  lemma TenPercentLiftExample()
    ensures Scale(10000, 0.10) == 11000
  {
    RoundOfInteger(11000);
    assert (10000 as real) * (1.0 + 0.10) == 11000 as real;
  }

  /**
   * Compounding differs from adding the lifts: 19.99 lifted by 5% then 10%
   * ends at 23.09, while a single 15% lift would give 22.99.
   */
  lemma CompoundingIsNotAdditive()
    ensures Scale(Scale(1999, 0.05), 0.10) == 2309
    ensures Scale(1999, 0.15) == 2299
  {
    assert (1999 as real) * (1.0 + 0.05) == 2098.95;
    assert (2098.95).Floor == 2098;
    assert Scale(1999, 0.05) == 2099;
    assert (2099 as real) * (1.0 + 0.10) == 2308.9;
    assert (2308.9).Floor == 2308;
    assert (1999 as real) * (1.0 + 0.15) == 2298.85;
    assert (2298.85).Floor == 2298;
  }

  /** Lift draws are consumed only by triggering responder exposures. */
  lemma {:induction false} DrawsUsedAtMostResponders(txs: seq<Transaction>, exps: seq<Exposure>)
    ensures DrawsUsed(txs, exps) <= ResponderCount(exps)
    ensures txs == [] ==> DrawsUsed(txs, exps) == 0
    decreases |exps|
  {
    if exps != [] {
      DrawsUsedAtMostResponders(txs, exps[1..]);
    }
  }

  function ResponderCount(exps: seq<Exposure>): nat
    decreases |exps|
  {
    if exps == [] then 0 else (if exps[0].isResponder == 1 then 1 else 0) + ResponderCount(exps[1..])
  }

  /** Writing back the revenue column changes nothing else: count, ids, customers, dates, channels, items. */
  lemma WithRevenuesOnlyRevenue(txs: seq<Transaction>, revs: seq<int>)
    requires |revs| == |txs|
    ensures |WithRevenues(txs, revs)| == |txs|
    ensures forall i :: 0 <= i < |txs| ==>
      WithRevenues(txs, revs)[i] == txs[i].(revenueCents := revs[i])
    ensures Revenues(WithRevenues(txs, revs)) == revs
  {
  }

  /** The injected table is still well formed: revenue stays non-negative. */
  lemma InjectKeepsTransactionsOk(txs: seq<Transaction>, exps: seq<Exposure>, draws: seq<real>)
    requires |draws| >= |exps| && AllOk(txs)
    ensures AllOk(WithRevenues(txs, Inject(Revenues(txs), txs, exps, draws)))
  {
    var revs := Inject(Revenues(txs), txs, exps, draws);
    var r := WithRevenues(txs, revs);
    forall k | 0 <= k < |r| ensures TransactionOk(r[k]) {
      InjectMonotone(Revenues(txs), txs, exps, draws, k);
      assert r[k] == txs[k].(revenueCents := revs[k]);
    }
  }
}
