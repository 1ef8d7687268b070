/**
 * The daily transaction simulator: for each day of the horizon and each
 * customer, a clamped purchase probability, a Bernoulli purchase draw, one or
 * two baskets per buyer, and transactions numbered by a running counter.
 * Random draws are inputs; the sine seasonality curve and exp(0.45 * activity)
 * are supplied per day and per customer.
 */
module Transactions {
  import opened Wrappers
  import opened Numeric
  import opened Calendar
  import opened Population

  /** base_p: the base daily purchase probability. */
  const BASE_PURCHASE_RATE: real := 0.015
  /** Weight of the seasonal factor in (1 + 0.9 * seas). */
  const SEASONALITY_WEIGHT: real := 0.9
  /** The purchase probability is clamped to [MIN_PURCHASE_P, MAX_PURCHASE_P]. */
  const MIN_PURCHASE_P: real := 0.0005
  const MAX_PURCHASE_P: real := 0.12
  /** A buyer has a second basket when a uniform draw falls below this rate. */
  const SECOND_BASKET_RATE: real := 0.08
  /** Item counts are clamped to [MIN_ITEMS, MAX_ITEMS]. */
  const MIN_ITEMS: int := 1
  const MAX_ITEMS: int := 25
  const SECONDS_PER_DAY: int := 86400
  /** The message of the RuntimeError raised when nothing was generated. */
  const NO_TRANSACTIONS_ERROR: string := "No transactions generated. Adjust probabilities."

  datatype Channel = Offline | Online

  /** The draws behind one transaction: channel choice, lognormal revenue, Poisson items, intraday second. */
  datatype TxDraw = TxDraw(channel: Channel, lognormal: real, poisson: int, secondOfDay: int)

  /** The draws for one customer on one day: purchase and second-basket uniforms, and two baskets' draws. */
  datatype DayDraw = DayDraw(purchaseUniform: real, basketUniform: real, first: TxDraw, second: TxDraw)

  /** One row of the transaction table; revenue in cents (two decimals). */
  datatype Transaction = Transaction(
    id: int,
    customerId: int,
    date: Date,
    secondOfDay: int,
    channel: Channel,
    revenueCents: int,
    items: int)

  /** What np.random guarantees of its draws: a positive lognormal and randint(0, 86400). */
  predicate TxDrawOk(d: TxDraw) {
    d.lognormal > 0.0 && 0 <= d.secondOfDay < SECONDS_PER_DAY
  }

  predicate DayDrawOk(d: DayDraw) {
    TxDrawOk(d.first) && TxDrawOk(d.second)
  }

  /** The invariant every generated transaction satisfies. */
  predicate TransactionOk(t: Transaction) {
    && ValidDate(t.date)
    && MIN_ITEMS <= t.items <= MAX_ITEMS
    && 0 <= t.secondOfDay < SECONDS_PER_DAY
    && t.revenueCents >= 0
  }

  /** The unclamped daily purchase probability. */
  function RawPurchaseProbability(seasonal: real, activityFactor: real): real {
    BASE_PURCHASE_RATE * (1.0 + SEASONALITY_WEIGHT * seasonal) * activityFactor
  }

  /** p = clip(base_p * (1 + 0.9 * seas) * exp(0.45 * activity), 0.0005, 0.12). */
  function PurchaseProbability(seasonal: real, activityFactor: real): (p: real)
    ensures MIN_PURCHASE_P <= p <= MAX_PURCHASE_P
    ensures MIN_PURCHASE_P <= RawPurchaseProbability(seasonal, activityFactor) <= MAX_PURCHASE_P ==>
      p == RawPurchaseProbability(seasonal, activityFactor)
  {
    Clip(RawPurchaseProbability(seasonal, activityFactor), MIN_PURCHASE_P, MAX_PURCHASE_P)
  }

  /** A more active customer (larger activity factor) is never less likely to buy on a given day. */
  lemma PurchaseProbabilityMonotone(seasonal: real, f1: real, f2: real)
    requires 0.0 <= seasonal && f1 <= f2
    ensures PurchaseProbability(seasonal, f1) <= PurchaseProbability(seasonal, f2)
  {
    var c := BASE_PURCHASE_RATE * (1.0 + SEASONALITY_WEIGHT * seasonal);
    assert c >= 0.0;
    assert c * f1 <= c * f2 by {
      assert c * (f2 - f1) >= 0.0;
    }
    assert RawPurchaseProbability(seasonal, f1) == c * f1;
    assert RawPurchaseProbability(seasonal, f2) == c * f2;
  }

  /** np.random.rand() < p. */
  predicate Buys(seasonal: real, activityFactor: real, d: DayDraw) {
    d.purchaseUniform < PurchaseProbability(seasonal, activityFactor)
  }

  /** n_tx = 1 + (rand() < 0.08). */
  function BasketCount(u: real): (n: int)
    ensures n == 1 || n == 2
    ensures n == 2 <==> u < SECOND_BASKET_RATE
  {
    if u < SECOND_BASKET_RATE then 2 else 1
  }

  /**
   * One transaction from its draws: the chosen channel, round(lognormal, 2) in
   * cents, the Poisson item count clipped to [1, 25] and the drawn second of day.
   */
  function MakeTransaction(id: int, customerId: int, date: Date, d: TxDraw): (t: Transaction)
    requires ValidDate(date) && TxDrawOk(d)
    ensures TransactionOk(t)
    ensures t.id == id && t.customerId == customerId && t.date == date
    ensures t.channel == d.channel && t.secondOfDay == d.secondOfDay
    ensures -0.5 <= t.revenueCents as real - 100.0 * d.lognormal <= 0.5
    ensures MIN_ITEMS <= d.poisson <= MAX_ITEMS ==> t.items == d.poisson
    ensures d.poisson < MIN_ITEMS ==> t.items == MIN_ITEMS
    ensures MAX_ITEMS < d.poisson ==> t.items == MAX_ITEMS
  {
    RoundAtLeast(100.0 * d.lognormal, 0);
    Transaction(id, customerId, date, d.secondOfDay, d.channel, ToCents(d.lognormal),
                ClipInt(d.poisson, MIN_ITEMS, MAX_ITEMS))
  }

  /** The transactions of one customer on one day, numbered from nextId. */
  function CustomerDayTransactions(nextId: int, c: Customer, activityFactor: real, date: Date,
                                   seasonal: real, d: DayDraw): (r: seq<Transaction>)
    requires ValidDate(date) && DayDrawOk(d)
    ensures Buys(seasonal, activityFactor, d) ==> |r| == BasketCount(d.basketUniform)
    ensures !Buys(seasonal, activityFactor, d) ==> r == []
  {
    if !Buys(seasonal, activityFactor, d) then []
    else if BasketCount(d.basketUniform) == 1 then [MakeTransaction(nextId, c.id, date, d.first)]
    else [MakeTransaction(nextId, c.id, date, d.first), MakeTransaction(nextId + 1, c.id, date, d.second)]
  }

  /**
   * The supplied inputs of one day of the loop: the cohort, each customer's
   * activity multiplier exp(0.45 * activity_score), the date, the day's
   * seasonal factor and one draw per customer.
   */
  datatype DayInputs = DayInputs(cust: seq<Customer>, factors: seq<real>, date: Date, seasonal: real,
                                 draws: seq<DayDraw>)

  /** One factor and one draw per customer, a valid date, draws in their ranges. */
  predicate DayInputsOk(x: DayInputs) {
    |x.factors| == |x.cust| && |x.draws| == |x.cust| && ValidDate(x.date) &&
    forall j :: 0 <= j < |x.draws| ==> DayDrawOk(x.draws[j])
  }

  type Day = x: DayInputs | DayInputsOk(x) witness DayInputs([], [], Date(2024, 1, 1), 0.0, [])

  /** Customer j's transactions on day x, numbered from nextId. */
  function CustomerOnDay(nextId: int, x: Day, j: nat): seq<Transaction>
    requires j < |x.cust|
  {
    CustomerDayTransactions(nextId, x.cust[j], x.factors[j], x.date, x.seasonal, x.draws[j])
  }

  /** Customer j's purchase draw fell below p on day x. */
  predicate BuysOn(x: Day, j: nat)
    requires j < |x.cust|
  {
    Buys(x.seasonal, x.factors[j], x.draws[j])
  }

  /**
   * The transactions of one day from the first k customers (cohort order),
   * numbered consecutively from nextId.
   */
  function DayTransactions(nextId: int, x: Day, k: nat): seq<Transaction>
    requires k <= |x.cust|
  {
    if k == 0 then []
    else
      var before := DayTransactions(nextId, x, k - 1);
      before + CustomerOnDay(nextId + |before|, x, k - 1)
  }

  /** The supplied inputs of the whole horizon: the cohort, its factors, and per day a date, a seasonal factor and draws. */
  datatype HorizonInputs = HorizonInputs(cust: seq<Customer>, factors: seq<real>, dates: seq<Date>,
                                         seasonal: seq<real>, draws: seq<seq<DayDraw>>)

  predicate HorizonInputsOk(h: HorizonInputs) {
    && |h.seasonal| == |h.dates| && |h.draws| == |h.dates| && |h.factors| == |h.cust|
    && (forall d :: 0 <= d < |h.dates| ==> ValidDate(h.dates[d]))
    && (forall d :: 0 <= d < |h.draws| ==> |h.draws[d]| == |h.cust|)
    && (forall d, j :: 0 <= d < |h.draws| && 0 <= j < |h.draws[d]| ==> DayDrawOk(h.draws[d][j]))
  }

  type Horizon = h: HorizonInputs | HorizonInputsOk(h) witness HorizonInputs([], [], [], [], [])

  /** The inputs of day d of the horizon. */
  function DayOf(h: Horizon, d: nat): (x: Day)
    requires d < |h.dates|
    ensures x.cust == h.cust && x.factors == h.factors && x.date == h.dates[d]
    ensures x.seasonal == h.seasonal[d] && x.draws == h.draws[d]
  {
    DayInputs(h.cust, h.factors, h.dates[d], h.seasonal[d], h.draws[d])
  }

  /**
   * The transactions of the first n days, in emission order, with
   * transaction_id running 1, 2, 3, ... across days.
   */
  function HorizonTransactions(h: Horizon, n: nat): seq<Transaction>
    requires n <= |h.dates|
  {
    if n == 0 then []
    else
      var before := HorizonTransactions(h, n - 1);
      before + DayTransactions(|before| + 1, DayOf(h, n - 1), |h.cust|)
  }

  /** One buyer's baskets: BasketCount(u) transactions with a running transaction_id. */
  method EmitBaskets(txId: int, c: Customer, activityFactor: real, date: Date, seasonal: real, draw: DayDraw)
    returns (baskets: seq<Transaction>, txId': int)
    requires ValidDate(date) && DayDrawOk(draw) && Buys(seasonal, activityFactor, draw)
    ensures baskets == CustomerDayTransactions(txId, c, activityFactor, date, seasonal, draw)
    ensures txId' == txId + |baskets|
  {
    ghost var mine := CustomerDayTransactions(txId, c, activityFactor, date, seasonal, draw);
    var count := BasketCount(draw.basketUniform);
    baskets, txId' := [], txId;
    var k := 0;
    while k < count
      invariant 0 <= k <= count
      invariant baskets == mine[..k]
      invariant txId' == txId + k
    {
      var basket := if k == 0 then draw.first else draw.second;
      baskets := baskets + [MakeTransaction(txId', c.id, date, basket)];
      txId' := txId' + 1;
      k := k + 1;
    }
    assert mine[..count] == mine;
  }

  /** Customer j on one day: the purchase draw against p, then the baskets of a buyer. */
  method SimulateCustomerDay(txId: int, x: Day, j: nat) returns (mine: seq<Transaction>, txId': int)
    requires j < |x.cust|
    ensures mine == CustomerOnDay(txId, x, j)
    ensures txId' == txId + |mine|
  {
    var p := PurchaseProbability(x.seasonal, x.factors[j]);
    if x.draws[j].purchaseUniform < p {
      mine, txId' := EmitBaskets(txId, x.cust[j], x.factors[j], x.date, x.seasonal, x.draws[j]);
    } else {
      mine, txId' := [], txId;
    }
  }

  /** One day of the loop: customers in cohort order, the baskets of each buyer in turn. */
  method SimulateDay(txId: int, x: Day) returns (day: seq<Transaction>, txId': int)
    ensures day == DayTransactions(txId, x, |x.cust|)
    ensures txId' == txId + |day|
  {
    day, txId' := [], txId;
    var j := 0;
    while j < |x.cust|
      invariant 0 <= j <= |x.cust|
      invariant day == DayTransactions(txId, x, j)
      invariant txId' == txId + |day|
    {
      var mine;
      mine, txId' := SimulateCustomerDay(txId', x, j);
      day := day + mine;
      j := j + 1;
    }
  }

  /**
   * The simulation loop over the days of the horizon, with a RuntimeError
   * when the whole horizon produced no transaction.
   */
  method SimulateTransactions(h: Horizon) returns (r: Result<seq<Transaction>, string>)
    ensures var all := HorizonTransactions(h, |h.dates|);
      r == if all == [] then Failure(NO_TRANSACTIONS_ERROR) else Success(all)
  {
    var txs: seq<Transaction> := [];
    var txId := 1;
    var d := 0;
    while d < |h.dates|
      invariant 0 <= d <= |h.dates|
      invariant txs == HorizonTransactions(h, d)
      invariant txId == |txs| + 1
    {
      var day;
      day, txId := SimulateDay(txId, DayOf(h, d));
      txs := txs + day;
      d := d + 1;
    }
    if txs == [] {
      r := Failure(NO_TRANSACTIONS_ERROR);
    } else {
      r := Success(txs);
    }
  }

  // ---------------------------------------------------------------------------
  // Properties of the generated stream
  // ---------------------------------------------------------------------------

  /** transaction_id runs first, first + 1, ... down the sequence. */
  predicate NumberedFrom(txs: seq<Transaction>, first: int) {
    forall i :: 0 <= i < |txs| ==> txs[i].id == first + i
  }

  predicate AllOk(txs: seq<Transaction>) {
    forall i :: 0 <= i < |txs| ==> TransactionOk(txs[i])
  }

  predicate AllOnDate(txs: seq<Transaction>, date: Date) {
    forall i :: 0 <= i < |txs| ==> txs[i].date == date
  }

  lemma NumberedAppend(a: seq<Transaction>, b: seq<Transaction>, first: int)
    requires NumberedFrom(a, first) && NumberedFrom(b, first + |a|)
    ensures NumberedFrom(a + b, first)
  {
    assert forall i :: |a| <= i < |a + b| ==> (a + b)[i] == b[i - |a|];
  }

  lemma OnDateAppend(a: seq<Transaction>, b: seq<Transaction>, date: Date)
    requires AllOnDate(a, date) && AllOnDate(b, date)
    ensures AllOnDate(a + b, date)
  {
    assert forall i :: |a| <= i < |a + b| ==> (a + b)[i] == b[i - |a|];
  }

  lemma OkAppend(a: seq<Transaction>, b: seq<Transaction>)
    requires AllOk(a) && AllOk(b)
    ensures AllOk(a + b)
  {
    assert forall i :: |a| <= i < |a + b| ==> (a + b)[i] == b[i - |a|];
  }

  predicate AllOfCustomer(txs: seq<Transaction>, customerId: int) {
    forall i :: 0 <= i < |txs| ==> txs[i].customerId == customerId
  }

  /** A buyer's baskets carry its customer_id, the day's date and consecutive ids from nextId. */
  lemma CustomerOnDayWellFormed(nextId: int, x: Day, j: nat)
    requires j < |x.cust|
    ensures NumberedFrom(CustomerOnDay(nextId, x, j), nextId)
    ensures AllOnDate(CustomerOnDay(nextId, x, j), x.date)
    ensures AllOk(CustomerOnDay(nextId, x, j))
    ensures AllOfCustomer(CustomerOnDay(nextId, x, j), x.cust[j].id)
    ensures CustomerOnDay(nextId, x, j) != [] ==> BuysOn(x, j)
  {
  }

  /** A day's transactions are numbered consecutively from nextId, dated that day and well formed. */
  lemma {:induction false} DayTransactionsWellFormed(nextId: int, x: Day, k: nat)
    requires k <= |x.cust|
    ensures NumberedFrom(DayTransactions(nextId, x, k), nextId)
    ensures AllOnDate(DayTransactions(nextId, x, k), x.date)
    ensures AllOk(DayTransactions(nextId, x, k))
    decreases k
  {
    if k > 0 {
      var before := DayTransactions(nextId, x, k - 1);
      var mine := CustomerOnDay(nextId + |before|, x, k - 1);
      assert DayTransactions(nextId, x, k) == before + mine;
      DayTransactionsWellFormed(nextId, x, k - 1);
      CustomerOnDayWellFormed(nextId + |before|, x, k - 1);
      NumberedAppend(before, mine, nextId);
      OnDateAppend(before, mine, x.date);
      OkAppend(before, mine);
    }
  }

  /**
   * transaction_id runs 1, 2, 3, ... in emission order over the whole horizon,
   * and every transaction is well formed: items in [1, 25], intraday second
   * in [0, 86400), non-negative revenue.
   */
  lemma {:induction false} HorizonTransactionsWellFormed(h: Horizon, n: nat)
    requires n <= |h.dates|
    ensures NumberedFrom(HorizonTransactions(h, n), 1)
    ensures AllOk(HorizonTransactions(h, n))
    decreases n
  {
    if n > 0 {
      var before := HorizonTransactions(h, n - 1);
      var day := DayTransactions(|before| + 1, DayOf(h, n - 1), |h.cust|);
      assert HorizonTransactions(h, n) == before + day;
      HorizonTransactionsWellFormed(h, n - 1);
      DayTransactionsWellFormed(|before| + 1, DayOf(h, n - 1), |h.cust|);
      NumberedAppend(before, day, 1);
      OkAppend(before, day);
    }
  }

  /** Every transaction falls on one of the given dates. */
  predicate AllOnDates(txs: seq<Transaction>, dates: seq<Date>) {
    forall i :: 0 <= i < |txs| ==> txs[i].date in dates
  }

  /** Every transaction of the first n days is dated on one of those days. */
  lemma {:induction false} HorizonTransactionsOnDates(h: Horizon, n: nat)
    requires n <= |h.dates|
    ensures AllOnDates(HorizonTransactions(h, n), h.dates[..n])
    decreases n
  {
    if n > 0 {
      var before := HorizonTransactions(h, n - 1);
      var day := DayTransactions(|before| + 1, DayOf(h, n - 1), |h.cust|);
      var all := before + day;
      assert HorizonTransactions(h, n) == all;
      HorizonTransactionsOnDates(h, n - 1);
      DayTransactionsWellFormed(|before| + 1, DayOf(h, n - 1), |h.cust|);
      assert h.dates[..n] == h.dates[..n - 1] + [h.dates[n - 1]];
      forall i | 0 <= i < |all| ensures all[i].date in h.dates[..n] {
        if i < |before| {
          assert all[i] == before[i];
        } else {
          assert all[i] == day[i - |before|];
        }
      }
    }
  }

  /** Every transaction comes from a customer among the first k whose purchase draw fell below p. */
  predicate AllFromBuyers(txs: seq<Transaction>, x: Day, k: nat)
    requires k <= |x.cust|
  {
    forall i :: 0 <= i < |txs| ==> exists j :: 0 <= j < k && txs[i].customerId == x.cust[j].id && BuysOn(x, j)
  }

  /** Every transaction of a day belongs to a customer whose purchase draw fell below p. */
  lemma {:induction false} DayTransactionsFromBuyers(nextId: int, x: Day, k: nat)
    requires k <= |x.cust|
    ensures AllFromBuyers(DayTransactions(nextId, x, k), x, k)
    decreases k
  {
    if k > 0 {
      var before := DayTransactions(nextId, x, k - 1);
      var mine := CustomerOnDay(nextId + |before|, x, k - 1);
      var r := before + mine;
      assert DayTransactions(nextId, x, k) == r;
      DayTransactionsFromBuyers(nextId, x, k - 1);
      CustomerOnDayWellFormed(nextId + |before|, x, k - 1);
      forall i | 0 <= i < |r|
        ensures exists j :: 0 <= j < k && r[i].customerId == x.cust[j].id && BuysOn(x, j)
      {
        if i >= |before| {
          assert r[i] == mine[i - |before|];
          assert BuysOn(x, k - 1);
          assert 0 <= k - 1 < k && r[i].customerId == x.cust[k - 1].id && BuysOn(x, k - 1);
        } else {
          assert r[i] == before[i];
          var j :| 0 <= j < k - 1 && before[i].customerId == x.cust[j].id && BuysOn(x, j);
          assert 0 <= j < k && r[i].customerId == x.cust[j].id && BuysOn(x, j);
        }
      }
    }
  }

  /** None of the first k customers buys on day x. */
  predicate NoBuyerOnDay(x: Day, k: nat)
    requires k <= |x.cust|
  {
    forall j :: 0 <= j < k ==> !BuysOn(x, j)
  }

  /** No customer buys on any of the first n days. */
  predicate NoBuyerInHorizon(h: Horizon, n: nat)
    requires n <= |h.dates|
  {
    forall d :: 0 <= d < n ==> NoBuyerOnDay(DayOf(h, d), |h.cust|)
  }

  /** A day emits nothing exactly when none of its customers buys. */
  lemma {:induction false} DayWithoutBuyersIsEmpty(nextId: int, x: Day, k: nat)
    requires k <= |x.cust|
    ensures DayTransactions(nextId, x, k) == [] <==> NoBuyerOnDay(x, k)
    decreases k
  {
    if k > 0 {
      var before := DayTransactions(nextId, x, k - 1);
      var mine := CustomerOnDay(nextId + |before|, x, k - 1);
      assert DayTransactions(nextId, x, k) == before + mine;
      DayWithoutBuyersIsEmpty(nextId, x, k - 1);
      assert NoBuyerOnDay(x, k) <==> NoBuyerOnDay(x, k - 1) && !BuysOn(x, k - 1);
    }
  }

  /**
   * The horizon produces no transaction (and the run aborts) exactly when no
   * customer buys on any day.
   */
  lemma {:induction false} HorizonEmptyIffNoBuyer(h: Horizon, n: nat)
    requires n <= |h.dates|
    ensures HorizonTransactions(h, n) == [] <==> NoBuyerInHorizon(h, n)
    decreases n
  {
    if n > 0 {
      var before := HorizonTransactions(h, n - 1);
      var day := DayTransactions(|before| + 1, DayOf(h, n - 1), |h.cust|);
      assert HorizonTransactions(h, n) == before + day;
      HorizonEmptyIffNoBuyer(h, n - 1);
      DayWithoutBuyersIsEmpty(|before| + 1, DayOf(h, n - 1), |h.cust|);
      assert NoBuyerInHorizon(h, n) <==> NoBuyerInHorizon(h, n - 1) && NoBuyerOnDay(DayOf(h, n - 1), |h.cust|);
    }
  }

  /** With an empty cohort the run always aborts with the no-transactions error. */
  lemma EmptyCohortAborts(h: Horizon)
    requires h.cust == []
    ensures HorizonTransactions(h, |h.dates|) == []
  {
    HorizonEmptyIffNoBuyer(h, |h.dates|);
  }

  /** The number of transactions of one customer id. */
  function CountFor(txs: seq<Transaction>, customerId: int): (n: nat)
    ensures n <= |txs|
  {
    if txs == [] then 0
    else CountFor(txs[..|txs| - 1], customerId) + (if txs[|txs| - 1].customerId == customerId then 1 else 0)
  }

  lemma {:induction false} CountForAppend(a: seq<Transaction>, b: seq<Transaction>, customerId: int)
    ensures CountFor(a + b, customerId) == CountFor(a, customerId) + CountFor(b, customerId)
    decreases |b|
  {
    if b == [] {
      assert a + b == a;
    } else {
      assert (a + b)[..|a + b| - 1] == a + b[..|b| - 1];
      CountForAppend(a, b[..|b| - 1], customerId);
    }
  }

  lemma {:induction false} CountForAllOrNone(txs: seq<Transaction>, owner: int, customerId: int)
    requires AllOfCustomer(txs, owner)
    ensures CountFor(txs, customerId) == if owner == customerId then |txs| else 0
    decreases |txs|
  {
    if txs != [] {
      var init := txs[..|txs| - 1];
      assert AllOfCustomer(init, owner) by {
        forall i | 0 <= i < |init| ensures init[i].customerId == owner {
          assert init[i] == txs[i];
        }
      }
      CountForAllOrNone(init, owner, customerId);
    }
  }

  /**
   * On each day, a customer who buys has exactly BasketCount (1 or 2)
   * transactions, and a customer who does not buy has none.
   */
  lemma {:induction false} TransactionsPerCustomer(nextId: int, x: Day, k: nat, j: nat)
    requires k <= |x.cust| && UniqueIds(x.cust) && j < |x.cust|
    ensures CountFor(DayTransactions(nextId, x, k), x.cust[j].id) ==
      if j < k && BuysOn(x, j) then BasketCount(x.draws[j].basketUniform) else 0
    decreases k
  {
    if k > 0 {
      var before := DayTransactions(nextId, x, k - 1);
      var mine := CustomerOnDay(nextId + |before|, x, k - 1);
      assert DayTransactions(nextId, x, k) == before + mine;
      TransactionsPerCustomer(nextId, x, k - 1, j);
      CustomerOnDayWellFormed(nextId + |before|, x, k - 1);
      CountForAppend(before, mine, x.cust[j].id);
      CountForAllOrNone(mine, x.cust[k - 1].id, x.cust[j].id);
    }
  }
}
