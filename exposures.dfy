/**
 * The monthly CRM exposure targeting engine: a biased, clamped monthly
 * exposure probability per customer, then for every targeted customer a day
 * of the month, a time of day inside business hours, a message channel, a
 * campaign and the latent 0/1 responder flag, numbered by a running
 * exposure_id across months. Random draws are inputs.
 */
module Exposures {
  import opened Numeric
  import opened Calendar
  import opened Population

  /** Average monthly probability of exposure per customer. */
  const EXPOSURE_BASE_RATE: real := 0.18
  /** Active customers are targeted 1.6 times as often. */
  const EXPOSURE_BIAS_ACTIVE: real := 1.6
  /** High-value customers are targeted 1.4 times as often. */
  const EXPOSURE_BIAS_HV: real := 1.4
  /** The exposure probability is clamped to [MIN_EXPOSURE_P, MAX_EXPOSURE_P]. */
  const MIN_EXPOSURE_P: real := 0.02
  const MAX_EXPOSURE_P: real := 0.75
  /** Exposures happen in [08:00, 20:00): randint(8 * 3600, 20 * 3600). */
  const BUSINESS_OPEN_SECOND: int := 8 * 3600
  const BUSINESS_CLOSE_SECOND: int := 20 * 3600
  /** Fraction of exposed customers that truly respond. */
  const RESPONDER_RATE: real := 0.35

  datatype MessageChannel = Email | Sms | Push
  datatype Campaign = PromoA | PromoB | Reactivation | CrossSell

  /**
   * The draws for one customer in one month: the targeting uniform, the index
   * of the chosen day among the month's eligible days, the second of the day,
   * the responder uniform, and the channel and campaign choices.
   */
  datatype MonthDraw = MonthDraw(
    exposureUniform: real,
    dayIndex: int,
    secondOfDay: int,
    responderUniform: real,
    channel: MessageChannel,
    campaign: Campaign)

  /** One row of the exposure table. */
  datatype Exposure = Exposure(
    id: int,
    customerId: int,
    date: Date,
    secondOfDay: int,
    channel: MessageChannel,
    campaign: Campaign,
    isResponder: Bit)

  /** The unclamped monthly propensity base * (1 + 0.6 * is_active) * (1 + 0.4 * is_high_value). */
  function RawExposureProbability(c: Customer): real {
    EXPOSURE_BASE_RATE
      * (1.0 + (EXPOSURE_BIAS_ACTIVE - 1.0) * c.isActive as real)
      * (1.0 + (EXPOSURE_BIAS_HV - 1.0) * c.isHighValue as real)
  }

  /** np.clip(prob, 0.02, 0.75). */
  function ExposureProbability(c: Customer): (p: real)
    ensures MIN_EXPOSURE_P <= p <= MAX_EXPOSURE_P
  {
    Clip(RawExposureProbability(c), MIN_EXPOSURE_P, MAX_EXPOSURE_P)
  }

  /**
   * The exposure probability is 0.18 times 1.6 for an active and 1.4 for a
   * high-value customer; the clamp to [0.02, 0.75] never binds.
   */
  lemma ExposureProbabilityValue(c: Customer)
    ensures ExposureProbability(c) ==
      EXPOSURE_BASE_RATE * (if c.isActive == 1 then EXPOSURE_BIAS_ACTIVE else 1.0)
                         * (if c.isHighValue == 1 then EXPOSURE_BIAS_HV else 1.0)
    ensures MIN_EXPOSURE_P < RawExposureProbability(c) < MAX_EXPOSURE_P
  {
  }

  /** Gaining a flag never lowers the probability of being targeted. */
  lemma ExposureProbabilityMonotone(a: Customer, b: Customer)
    requires a.isActive <= b.isActive && a.isHighValue <= b.isHighValue
    ensures ExposureProbability(a) <= ExposureProbability(b)
  {
    ExposureProbabilityValue(a);
    ExposureProbabilityValue(b);
  }

  /** np.random.rand() < prob. */
  predicate Targeted(c: Customer, d: MonthDraw) {
    d.exposureUniform < ExposureProbability(c)
  }

  /** (rand() < RESPONDER_RATE).astype(int). */
  function Responder(u: real): (b: Bit)
    ensures b == 1 <==> u < RESPONDER_RATE
  {
    if u < RESPONDER_RATE then 1 else 0
  }

  /** What the random source guarantees: a day among the month's eligible days, a second in business hours. */
  predicate MonthDrawOk(d: MonthDraw, m: Month, end: Date) {
    0 <= d.dayIndex < MonthDayCount(m, end) && BUSINESS_OPEN_SECOND <= d.secondOfDay < BUSINESS_CLOSE_SECOND
  }

  function MakeExposure(id: int, c: Customer, m: Month, d: MonthDraw): Exposure {
    Exposure(id, c.id, Date(m.year, m.month, d.dayIndex + 1), d.secondOfDay, d.channel, d.campaign,
             Responder(d.responderUniform))
  }

  /** The supplied inputs for one month: one draw per customer. */
  predicate MonthInputsOk(cust: seq<Customer>, m: Month, end: Date, draws: seq<MonthDraw>) {
    |draws| == |cust| && forall j :: 0 <= j < |draws| ==> MonthDrawOk(draws[j], m, end)
  }

  /** The exposures of month m from the first k customers, numbered from nextId. */
  function MonthExposures(nextId: int, cust: seq<Customer>, m: Month, end: Date, draws: seq<MonthDraw>, k: nat)
    : seq<Exposure>
    requires MonthInputsOk(cust, m, end, draws) && k <= |cust|
  {
    if k == 0 then []
    else
      var before := MonthExposures(nextId, cust, m, end, draws, k - 1);
      if Targeted(cust[k - 1], draws[k - 1])
      then before + [MakeExposure(nextId + |before|, cust[k - 1], m, draws[k - 1])]
      else before
  }

  /** The supplied inputs for the horizon: one list of draws per month of MonthRange(start, end). */
  predicate HorizonInputsOk(cust: seq<Customer>, start: Date, end: Date, draws: seq<seq<MonthDraw>>) {
    && ValidDate(start) && ValidDate(end)
    && |draws| == |MonthRange(start, end)|
    && forall i :: 0 <= i < |draws| ==> MonthInputsOk(cust, MonthRange(start, end)[i], end, draws[i])
  }

  /** The exposures of the first n months, with exposure_id running 1, 2, 3, ... across months. */
  function HorizonExposures(cust: seq<Customer>, start: Date, end: Date, draws: seq<seq<MonthDraw>>, n: nat)
    : seq<Exposure>
    requires HorizonInputsOk(cust, start, end, draws) && n <= |draws|
  {
    if n == 0 then []
    else
      var before := HorizonExposures(cust, start, end, draws, n - 1);
      before + MonthExposures(|before| + 1, cust, MonthRange(start, end)[n - 1], end, draws[n - 1], |cust|)
  }

  /** One month of the targeting loop: customers in cohort order, one exposure per target. */
  method SimulateMonth(exps: seq<Exposure>, cust: seq<Customer>, m: Month, end: Date, draws: seq<MonthDraw>)
    returns (exps': seq<Exposure>)
    requires MonthInputsOk(cust, m, end, draws)
    ensures exps' == exps + MonthExposures(|exps| + 1, cust, m, end, draws, |cust|)
  {
    exps' := exps;
    var expId := |exps| + 1;
    var j := 0;
    while j < |cust|
      invariant 0 <= j <= |cust|
      invariant exps' == exps + MonthExposures(|exps| + 1, cust, m, end, draws, j)
      invariant expId == |exps'| + 1
    {
      var prob := ExposureProbability(cust[j]);
      if draws[j].exposureUniform < prob {
        exps' := exps' + [MakeExposure(expId, cust[j], m, draws[j])];
        expId := expId + 1;
      }
      j := j + 1;
    }
  }

  /** The targeting loop over the months of the horizon. */
  method SimulateExposures(cust: seq<Customer>, start: Date, end: Date, draws: seq<seq<MonthDraw>>)
    returns (exps: seq<Exposure>)
    requires HorizonInputsOk(cust, start, end, draws)
    ensures exps == HorizonExposures(cust, start, end, draws, |draws|)
  {
    var months := MonthRange(start, end);
    exps := [];
    var i := 0;
    while i < |months|
      invariant 0 <= i <= |months|
      invariant exps == HorizonExposures(cust, start, end, draws, i)
    {
      exps := SimulateMonth(exps, cust, months[i], end, draws[i]);
      i := i + 1;
    }
  }

  // ---------------------------------------------------------------------------
  // Properties of the generated stream
  // ---------------------------------------------------------------------------

  /** exposure_id runs first, first + 1, ... down the sequence. */
  predicate NumberedFrom(exps: seq<Exposure>, first: int) {
    forall i :: 0 <= i < |exps| ==> exps[i].id == first + i
  }

  /** An exposure of month m: a real day of m on or before END_DATE, inside business hours. */
  predicate InMonth(e: Exposure, m: Month, end: Date) {
    && ValidDate(e.date) && ValidDate(end) && MonthOf(e.date) == m && DayNumber(e.date) <= DayNumber(end)
    && BUSINESS_OPEN_SECOND <= e.secondOfDay < BUSINESS_CLOSE_SECOND
  }

  /** An exposure of the horizon: in one of its months, on or before END_DATE, inside business hours. */
  predicate InHorizon(e: Exposure, start: Date, end: Date) {
    && ValidDate(e.date) && ValidDate(end)
    && MonthIndex(MonthOf(start)) <= MonthIndex(MonthOf(e.date)) <= MonthIndex(MonthOf(end))
    && DayNumber(e.date) <= DayNumber(end)
    && BUSINESS_OPEN_SECOND <= e.secondOfDay < BUSINESS_CLOSE_SECOND
  }

  predicate AllInMonth(exps: seq<Exposure>, m: Month, end: Date) {
    forall i :: 0 <= i < |exps| ==> InMonth(exps[i], m, end)
  }

  predicate AllInHorizon(exps: seq<Exposure>, start: Date, end: Date) {
    forall i :: 0 <= i < |exps| ==> InHorizon(exps[i], start, end)
  }

  lemma NumberedAppend(a: seq<Exposure>, b: seq<Exposure>, first: int)
    requires NumberedFrom(a, first) && NumberedFrom(b, first + |a|)
    ensures NumberedFrom(a + b, first)
  {
    assert forall i :: |a| <= i < |a + b| ==> (a + b)[i] == b[i - |a|];
  }

  /** A month's exposures are numbered consecutively from nextId. */
  lemma {:induction false} MonthExposuresNumbered(nextId: int, cust: seq<Customer>, m: Month, end: Date,
                                                  draws: seq<MonthDraw>, k: nat)
    requires MonthInputsOk(cust, m, end, draws) && k <= |cust|
    ensures NumberedFrom(MonthExposures(nextId, cust, m, end, draws, k), nextId)
    decreases k
  {
    if k > 0 {
      MonthExposuresNumbered(nextId, cust, m, end, draws, k - 1);
    }
  }

  /** exposure_id runs 1, 2, 3, ... across all months. */
  lemma {:induction false} HorizonExposuresNumbered(cust: seq<Customer>, start: Date, end: Date,
                                                    draws: seq<seq<MonthDraw>>, n: nat)
    requires HorizonInputsOk(cust, start, end, draws) && n <= |draws|
    ensures NumberedFrom(HorizonExposures(cust, start, end, draws, n), 1)
    decreases n
  {
    if n > 0 {
      var before := HorizonExposures(cust, start, end, draws, n - 1);
      var month := MonthExposures(|before| + 1, cust, MonthRange(start, end)[n - 1], end, draws[n - 1], |cust|);
      assert HorizonExposures(cust, start, end, draws, n) == before + month;
      HorizonExposuresNumbered(cust, start, end, draws, n - 1);
      MonthExposuresNumbered(|before| + 1, cust, MonthRange(start, end)[n - 1], end, draws[n - 1], |cust|);
      NumberedAppend(before, month, 1);
    }
  }

  /** Every exposure of the i-th horizon month falls on a day of that month, on or before END_DATE. */
  lemma {:induction false} MonthExposuresInMonth(cust: seq<Customer>, start: Date, end: Date,
                                                 draws: seq<seq<MonthDraw>>, i: nat, nextId: int, k: nat)
    requires HorizonInputsOk(cust, start, end, draws) && i < |draws| && k <= |cust|
    ensures AllInMonth(MonthExposures(nextId, cust, MonthRange(start, end)[i], end, draws[i], k),
                       MonthRange(start, end)[i], end)
    decreases k
  {
    if k > 0 {
      var m := MonthRange(start, end)[i];
      MonthExposuresInMonth(cust, start, end, draws, i, nextId, k - 1);
      MonthDaysWithinHorizon(start, end, i, draws[i][k - 1].dayIndex);
    }
  }

  /**
   * Every exposure lies in a month of the horizon, on a real day on or before
   * END_DATE, inside business hours.
   */
  lemma {:induction false} HorizonExposuresInHorizon(cust: seq<Customer>, start: Date, end: Date,
                                                     draws: seq<seq<MonthDraw>>, n: nat)
    requires HorizonInputsOk(cust, start, end, draws) && n <= |draws|
    ensures AllInHorizon(HorizonExposures(cust, start, end, draws, n), start, end)
    decreases n
  {
    if n > 0 {
      var m := MonthRange(start, end)[n - 1];
      var before := HorizonExposures(cust, start, end, draws, n - 1);
      var month := MonthExposures(|before| + 1, cust, m, end, draws[n - 1], |cust|);
      var r := before + month;
      assert HorizonExposures(cust, start, end, draws, n) == r;
      HorizonExposuresInHorizon(cust, start, end, draws, n - 1);
      MonthExposuresInMonth(cust, start, end, draws, n - 1, |before| + 1, |cust|);
      assert MonthIndex(MonthOf(start)) <= MonthIndex(m) <= MonthIndex(MonthOf(end));
      forall j | 0 <= j < |r| ensures InHorizon(r[j], start, end) {
        if j < |before| {
          assert r[j] == before[j];
        } else {
          assert r[j] == month[j - |before|];
          assert InMonth(r[j], m, end);
        }
      }
    }
  }

  /** Every exposure of a month belongs to one of the first k customers whose targeting draw fell below prob. */
  predicate AllFromTargets(exps: seq<Exposure>, cust: seq<Customer>, draws: seq<MonthDraw>, k: nat)
    requires k <= |cust| && |draws| == |cust|
  {
    forall i :: 0 <= i < |exps| ==>
      exists j :: 0 <= j < k && exps[i].customerId == cust[j].id && Targeted(cust[j], draws[j])
  }

  /** Only targeted customers are exposed. */
  lemma {:induction false} MonthExposuresFromTargets(nextId: int, cust: seq<Customer>, m: Month, end: Date,
                                                     draws: seq<MonthDraw>, k: nat)
    requires MonthInputsOk(cust, m, end, draws) && k <= |cust|
    ensures AllFromTargets(MonthExposures(nextId, cust, m, end, draws, k), cust, draws, k)
    decreases k
  {
    if k > 0 {
      var before := MonthExposures(nextId, cust, m, end, draws, k - 1);
      var r := MonthExposures(nextId, cust, m, end, draws, k);
      MonthExposuresFromTargets(nextId, cust, m, end, draws, k - 1);
      forall i | 0 <= i < |r|
        ensures exists j :: 0 <= j < k && r[i].customerId == cust[j].id && Targeted(cust[j], draws[j])
      {
        if i < |before| {
          assert r[i] == before[i];
          var j :| 0 <= j < k - 1 && before[i].customerId == cust[j].id && Targeted(cust[j], draws[j]);
          assert r[i].customerId == cust[j].id;
        } else {
          assert r[i].customerId == cust[k - 1].id && Targeted(cust[k - 1], draws[k - 1]);
        }
      }
    }
  }

  /** None of the first k customers is targeted. */
  predicate NoTargets(cust: seq<Customer>, draws: seq<MonthDraw>, k: nat)
    requires k <= |cust| && k <= |draws|
  {
    forall j :: 0 <= j < k ==> !Targeted(cust[j], draws[j])
  }

  /** A month emits nothing exactly when it has no target. */
  lemma {:induction false} MonthWithoutTargetsIsEmpty(nextId: int, cust: seq<Customer>, m: Month, end: Date,
                                                      draws: seq<MonthDraw>, k: nat)
    requires MonthInputsOk(cust, m, end, draws) && k <= |cust|
    ensures MonthExposures(nextId, cust, m, end, draws, k) == [] <==> NoTargets(cust, draws, k)
    decreases k
  {
    if k > 0 {
      MonthWithoutTargetsIsEmpty(nextId, cust, m, end, draws, k - 1);
      assert NoTargets(cust, draws, k) <==> NoTargets(cust, draws, k - 1) && !Targeted(cust[k - 1], draws[k - 1]);
    }
  }

  /** No customer is targeted in any of the first n months. */
  predicate NoTargetsInHorizon(cust: seq<Customer>, start: Date, end: Date, draws: seq<seq<MonthDraw>>, n: nat)
    requires HorizonInputsOk(cust, start, end, draws) && n <= |draws|
  {
    forall i :: 0 <= i < n ==> |draws[i]| == |cust| && NoTargets(cust, draws[i], |cust|)
  }

  /** The horizon emits no exposure exactly when no month has a target. */
  lemma {:induction false} HorizonWithoutTargetsIsEmpty(cust: seq<Customer>, start: Date, end: Date,
                                                        draws: seq<seq<MonthDraw>>, n: nat)
    requires HorizonInputsOk(cust, start, end, draws) && n <= |draws|
    ensures HorizonExposures(cust, start, end, draws, n) == [] <==> NoTargetsInHorizon(cust, start, end, draws, n)
    decreases n
  {
    if n > 0 {
      var m := MonthRange(start, end)[n - 1];
      assert MonthInputsOk(cust, m, end, draws[n - 1]);
      var before := HorizonExposures(cust, start, end, draws, n - 1);
      var month := MonthExposures(|before| + 1, cust, m, end, draws[n - 1], |cust|);
      assert HorizonExposures(cust, start, end, draws, n) == before + month;
      HorizonWithoutTargetsIsEmpty(cust, start, end, draws, n - 1);
      MonthWithoutTargetsIsEmpty(|before| + 1, cust, m, end, draws[n - 1], |cust|);
      assert NoTargetsInHorizon(cust, start, end, draws, n) <==>
        NoTargetsInHorizon(cust, start, end, draws, n - 1) && NoTargets(cust, draws[n - 1], |cust|);
    }
  }

  /** The number of exposures of one customer id. */
  function CountFor(exps: seq<Exposure>, customerId: int): (n: nat)
    ensures n <= |exps|
  {
    if exps == [] then 0
    else CountFor(exps[..|exps| - 1], customerId) + (if exps[|exps| - 1].customerId == customerId then 1 else 0)
  }

  /** In each month a targeted customer gets exactly one exposure and any other customer none. */
  lemma {:induction false} ExposuresPerCustomer(nextId: int, cust: seq<Customer>, m: Month, end: Date,
                                                draws: seq<MonthDraw>, k: nat, j: int)
    requires MonthInputsOk(cust, m, end, draws) && k <= |cust| && UniqueIds(cust)
    requires 0 <= j < |cust|
    ensures CountFor(MonthExposures(nextId, cust, m, end, draws, k), cust[j].id) ==
      if j < k && Targeted(cust[j], draws[j]) then 1 else 0
    decreases k
  {
    if k > 0 {
      var before := MonthExposures(nextId, cust, m, end, draws, k - 1);
      ExposuresPerCustomer(nextId, cust, m, end, draws, k - 1, j);
      if Targeted(cust[k - 1], draws[k - 1]) {
        var e := MakeExposure(nextId + |before|, cust[k - 1], m, draws[k - 1]);
        assert (before + [e])[..|before + [e]| - 1] == before;
      }
    }
  }
}
