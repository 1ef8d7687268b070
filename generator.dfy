/**
 * The top level of the synthetic-data script: the cohort and its quantile
 * flags, the transaction simulation over the calendar horizon and its
 * RuntimeError, the exposure simulation, and the uplift injection guarded by
 * "not exp.empty and not tx.empty".
 */
module Generator {
  import opened Wrappers
  import opened Calendar
  import T = Transactions
  import E = Exposures
  import U = Uplift
  import P = Population

  /** The generated fact tables (revenue already adjusted). */
  datatype Tables = Tables(transactions: seq<T.Transaction>, exposures: seq<E.Exposure>)

  /** What pandas raises for exp["exposure_ts"] on a frame built from an empty list of rows. */
  const MISSING_EXPOSURE_TS: string := "KeyError: 'exposure_ts'"

  /** The exposure inputs are well shaped for the cohort, with one lift draw per exposure at most needed. */
  predicate InputsOk(h: T.Horizon, start: Date, end: Date, expDraws: seq<seq<E.MonthDraw>>, liftDraws: seq<real>) {
    E.HorizonInputsOk(h.cust, start, end, expDraws) &&
    |liftDraws| >= |E.HorizonExposures(h.cust, start, end, expDraws, |expDraws|)|
  }

  /**
   * The script as written: the RuntimeError when no transaction was produced;
   * then, with no exposure at all, exp is a frame without columns and the
   * exposure_date step raises KeyError before the uplift guard is reached.
   */
  function RunAsWritten(h: T.Horizon, start: Date, end: Date, expDraws: seq<seq<E.MonthDraw>>,
                        liftDraws: seq<real>): Result<Tables, string>
    requires InputsOk(h, start, end, expDraws, liftDraws)
  {
    var txs := T.HorizonTransactions(h, |h.dates|);
    var exps := E.HorizonExposures(h.cust, start, end, expDraws, |expDraws|);
    if txs == [] then Failure(T.NO_TRANSACTIONS_ERROR)
    else if exps == [] then Failure(MISSING_EXPOSURE_TS)
    else Success(Tables(U.WithRevenues(txs, U.Inject(U.Revenues(txs), txs, exps, liftDraws)), exps))
  }

  /**
   * The script with an empty exposure table handled as the uplift guard
   * intends: no exposure, no uplift.
   */
  function Run(h: T.Horizon, start: Date, end: Date, expDraws: seq<seq<E.MonthDraw>>,
               liftDraws: seq<real>): Result<Tables, string>
    requires InputsOk(h, start, end, expDraws, liftDraws)
  {
    var txs := T.HorizonTransactions(h, |h.dates|);
    var exps := E.HorizonExposures(h.cust, start, end, expDraws, |expDraws|);
    if txs == [] then Failure(T.NO_TRANSACTIONS_ERROR)
    else Success(Tables(U.WithRevenues(txs, U.Inject(U.Revenues(txs), txs, exps, liftDraws)), exps))
  }

  /** Writing back unchanged revenues gives the transactions back. */
  lemma WithOwnRevenues(txs: seq<T.Transaction>)
    ensures U.WithRevenues(txs, U.Revenues(txs)) == txs
  {
    U.WithRevenuesOnlyRevenue(txs, U.Revenues(txs));
  }

  /**
   * The run fails only with the no-transactions error, and then exactly when
   * nobody buys on any day; otherwise it returns every exposure and the
   * transactions with only their revenue adjusted, every one of them well formed.
   */
  lemma RunOutcome(h: T.Horizon, start: Date, end: Date, expDraws: seq<seq<E.MonthDraw>>, liftDraws: seq<real>)
    requires InputsOk(h, start, end, expDraws, liftDraws)
    ensures Run(h, start, end, expDraws, liftDraws).Failure? <==> T.NoBuyerInHorizon(h, |h.dates|)
    ensures Run(h, start, end, expDraws, liftDraws).Failure? ==>
      Run(h, start, end, expDraws, liftDraws).error == T.NO_TRANSACTIONS_ERROR
    ensures Run(h, start, end, expDraws, liftDraws).Success? ==>
      var out := Run(h, start, end, expDraws, liftDraws).value;
      var txs := T.HorizonTransactions(h, |h.dates|);
      && out.exposures == E.HorizonExposures(h.cust, start, end, expDraws, |expDraws|)
      && |out.transactions| == |txs|
      && (forall i :: 0 <= i < |txs| ==>
            out.transactions[i] == txs[i].(revenueCents := out.transactions[i].revenueCents))
      && T.AllOk(out.transactions)
  {
    var txs := T.HorizonTransactions(h, |h.dates|);
    var exps := E.HorizonExposures(h.cust, start, end, expDraws, |expDraws|);
    T.HorizonEmptyIffNoBuyer(h, |h.dates|);
    if txs != [] {
      var revs := U.Inject(U.Revenues(txs), txs, exps, liftDraws);
      U.WithRevenuesOnlyRevenue(txs, revs);
      T.HorizonTransactionsWellFormed(h, |h.dates|);
      U.InjectKeepsTransactionsOk(txs, exps, liftDraws);
    }
  }

  /**
   * As written, a run in which nobody is targeted in any month (every
   * targeting uniform at least 0.75, above every clamped probability) but
   * somebody buys ends in KeyError; the intended run returns the transactions
   * unchanged and an empty exposure table.
   */
  lemma UntargetedRunCrashesAsWritten(h: T.Horizon, start: Date, end: Date, expDraws: seq<seq<E.MonthDraw>>,
                                      liftDraws: seq<real>)
    requires InputsOk(h, start, end, expDraws, liftDraws)
    requires forall i, j :: 0 <= i < |expDraws| && 0 <= j < |expDraws[i]| ==>
      expDraws[i][j].exposureUniform >= E.MAX_EXPOSURE_P
    requires !T.NoBuyerInHorizon(h, |h.dates|)
    ensures RunAsWritten(h, start, end, expDraws, liftDraws) == Failure(MISSING_EXPOSURE_TS)
    ensures Run(h, start, end, expDraws, liftDraws) == Success(Tables(T.HorizonTransactions(h, |h.dates|), []))
  {
    var txs := T.HorizonTransactions(h, |h.dates|);
    T.HorizonEmptyIffNoBuyer(h, |h.dates|);
    E.HorizonWithoutTargetsIsEmpty(h.cust, start, end, expDraws, |expDraws|);
    assert E.NoTargetsInHorizon(h.cust, start, end, expDraws, |expDraws|) by {
      forall i | 0 <= i < |expDraws|
        ensures |expDraws[i]| == |h.cust| && E.NoTargets(h.cust, expDraws[i], |h.cust|)
      {
        assert E.MonthInputsOk(h.cust, MonthRange(start, end)[i], end, expDraws[i]);
        forall j | 0 <= j < |h.cust| ensures !E.Targeted(h.cust[j], expDraws[i][j]) {
          assert E.ExposureProbability(h.cust[j]) <= E.MAX_EXPOSURE_P;
        }
      }
    }
    WithOwnRevenues(txs);
  }

  /** Whenever at least one exposure exists, the script as written and the intended run agree. */
  lemma RunsAgreeWithExposures(h: T.Horizon, start: Date, end: Date, expDraws: seq<seq<E.MonthDraw>>,
                               liftDraws: seq<real>)
    requires InputsOk(h, start, end, expDraws, liftDraws)
    requires E.HorizonExposures(h.cust, start, end, expDraws, |expDraws|) != []
    ensures RunAsWritten(h, start, end, expDraws, liftDraws) == Run(h, start, end, expDraws, liftDraws)
  {
  }

  /**
   * The script's steps in order: the transaction loop, the exposure loop, and
   * the in-place uplift injection when both tables are non-empty.
   */
  method Generate(h: T.Horizon, start: Date, end: Date, expDraws: seq<seq<E.MonthDraw>>, liftDraws: seq<real>)
    returns (r: Result<Tables, string>)
    requires InputsOk(h, start, end, expDraws, liftDraws)
    ensures r == Run(h, start, end, expDraws, liftDraws)
  {
    var generated := T.SimulateTransactions(h);
    if generated.Failure? {
      return Failure(generated.error);
    }
    var txs := generated.value;
    var exps := E.SimulateExposures(h.cust, start, end, expDraws);
    if exps != [] && txs != [] {
      var adjusted, _ := U.InjectIntoTransactions(txs, exps, liftDraws);
      r := Success(Tables(adjusted, exps));
    } else {
      WithOwnRevenues(txs);
      r := Success(Tables(txs, exps));
    }
  }
  // ---------------------------------------------------------------------------
  // The whole script: cohort, calendar horizon, and the steps above
  // ---------------------------------------------------------------------------

  /** What numpy raises for np.quantile of an empty sample (only the exception class is modelled). */
  const EMPTY_QUANTILE_ERROR: string := "IndexError"

  /** Every random draw and supplied curve of one run of the script. */
  datatype ScriptDraws = ScriptDraws(
    customers: seq<P.CustomerDraw>,
    activityFactors: seq<real>,
    seasonality: seq<real>,
    days: seq<seq<T.DayDraw>>,
    months: seq<seq<E.MonthDraw>>,
    lifts: seq<real>)

  /**
   * The draws fit the horizon START_DATE..END_DATE and the cohort: one
   * seasonality value in [0, 1] and one row of day draws per calendar day, one
   * positive activity factor (exp(0.45 * activity_score)) and one day draw per
   * customer.
   */
  predicate HorizonShapeOk(start: Date, end: Date, d: ScriptDraws) {
    && ValidDate(start) && ValidDate(end)
    && (forall k :: 0 <= k < |d.customers| ==> P.CustomerDrawOk(d.customers[k]))
    && |d.activityFactors| == |d.customers|
    && (forall j :: 0 <= j < |d.activityFactors| ==> d.activityFactors[j] > 0.0)
    && |d.seasonality| == |DateRange(start, end)|
    && (forall i :: 0 <= i < |d.seasonality| ==> 0.0 <= d.seasonality[i] <= 1.0)
    && |d.days| == |DateRange(start, end)|
    && (forall i :: 0 <= i < |d.days| ==> |d.days[i]| == |d.customers|)
    && (forall i, j :: 0 <= i < |d.days| && 0 <= j < |d.days[i]| ==> T.DayDrawOk(d.days[i][j]))
  }

  /** The transaction loop's inputs: the generated cohort over the days of pd.date_range(START_DATE, END_DATE). */
  function HorizonOf(start: Date, end: Date, d: ScriptDraws): T.Horizon
    requires HorizonShapeOk(start, end, d)
  {
    T.HorizonInputs(P.BuildCustomers(start, d.customers), d.activityFactors, DateRange(start, end),
                    d.seasonality, d.days)
  }

  predicate ScriptInputsOk(start: Date, end: Date, d: ScriptDraws) {
    HorizonShapeOk(start, end, d) && InputsOk(HorizonOf(start, end, d), start, end, d.months, d.lifts)
  }

  /**
   * The corrected script from the cohort on (Run in place of RunAsWritten):
   * np.quantile of the value scores fails on an empty cohort; otherwise the
   * cohort feeds the run above.
   */
  function Script(start: Date, end: Date, d: ScriptDraws): Result<Tables, string>
    requires ScriptInputsOk(start, end, d)
  {
    if P.Quantile(P.ClippedScores(d.customers, true), P.HIGH_VALUE_QUANTILE).None? then Failure(EMPTY_QUANTILE_ERROR)
    else Run(HorizonOf(start, end, d), start, end, d.months, d.lifts)
  }

  /**
   * The corrected script fails exactly when the cohort is empty (np.quantile)
   * or nobody buys on any day (the RuntimeError), and with that error.
   */
  lemma ScriptOutcome(start: Date, end: Date, d: ScriptDraws)
    requires ScriptInputsOk(start, end, d)
    ensures Script(start, end, d).Failure? <==>
      d.customers == [] || T.NoBuyerInHorizon(HorizonOf(start, end, d), |DateRange(start, end)|)
    ensures Script(start, end, d).Failure? ==>
      Script(start, end, d).error == if d.customers == [] then EMPTY_QUANTILE_ERROR else T.NO_TRANSACTIONS_ERROR
  {
    if d.customers != [] {
      RunOutcome(HorizonOf(start, end, d), start, end, d.months, d.lifts);
    }
  }

  /** The script as written from the cohort on: as Script, with RunAsWritten. */
  function ScriptAsWritten(start: Date, end: Date, d: ScriptDraws): Result<Tables, string>
    requires ScriptInputsOk(start, end, d)
  {
    if P.Quantile(P.ClippedScores(d.customers, true), P.HIGH_VALUE_QUANTILE).None? then Failure(EMPTY_QUANTILE_ERROR)
    else RunAsWritten(HorizonOf(start, end, d), start, end, d.months, d.lifts)
  }

  /**
   * The script as written fails exactly when the cohort is empty, nobody buys
   * on any day, or nobody is targeted in any month; the first of these that
   * holds decides the error (IndexError, RuntimeError, KeyError). When it
   * succeeds it agrees with the corrected script.
   */
  lemma ScriptAsWrittenOutcome(start: Date, end: Date, d: ScriptDraws)
    requires ScriptInputsOk(start, end, d)
    ensures var h := HorizonOf(start, end, d);
      ScriptAsWritten(start, end, d).Failure? <==>
        || d.customers == []
        || T.NoBuyerInHorizon(h, |h.dates|)
        || E.NoTargetsInHorizon(h.cust, start, end, d.months, |d.months|)
    ensures var h := HorizonOf(start, end, d);
      ScriptAsWritten(start, end, d).Failure? ==>
        ScriptAsWritten(start, end, d).error ==
          if d.customers == [] then EMPTY_QUANTILE_ERROR
          else if T.NoBuyerInHorizon(h, |h.dates|) then T.NO_TRANSACTIONS_ERROR
          else MISSING_EXPOSURE_TS
    ensures ScriptAsWritten(start, end, d).Success? ==> ScriptAsWritten(start, end, d) == Script(start, end, d)
  {
    var h := HorizonOf(start, end, d);
    E.HorizonWithoutTargetsIsEmpty(h.cust, start, end, d.months, |d.months|);
    if d.customers != [] {
      T.HorizonEmptyIffNoBuyer(h, |h.dates|);
    }
  }

  /** Every transaction of a run over pd.date_range(start, end) falls within [start, end]. */
  lemma TransactionsWithinHorizon(h: T.Horizon, start: Date, end: Date)
    requires ValidDate(start) && ValidDate(end) && h.dates == DateRange(start, end)
    ensures var txs := T.HorizonTransactions(h, |h.dates|);
      forall i :: 0 <= i < |txs| ==>
        ValidDate(txs[i].date) && DayNumber(start) <= DayNumber(txs[i].date) <= DayNumber(end)
  {
    var txs := T.HorizonTransactions(h, |h.dates|);
    T.HorizonTransactionsOnDates(h, |h.dates|);
    assert h.dates[..|h.dates|] == h.dates;
    forall i | 0 <= i < |txs|
      ensures ValidDate(txs[i].date) && DayNumber(start) <= DayNumber(txs[i].date) <= DayNumber(end)
    {
      var k :| 0 <= k < |h.dates| && h.dates[k] == txs[i].date;
    }
  }

  /**
   * A successful script has a cohort with distinct ids, transaction_id
   * running 1, 2, 3, ..., every transaction within [START_DATE, END_DATE] and
   * every exposure in one of the horizon's months, on or before END_DATE.
   */
  lemma ScriptTables(start: Date, end: Date, d: ScriptDraws)
    requires ScriptInputsOk(start, end, d)
    ensures Script(start, end, d).Success? ==>
      var out := Script(start, end, d).value;
      && P.UniqueIds(HorizonOf(start, end, d).cust)
      && T.NumberedFrom(out.transactions, 1)
      && (forall i :: 0 <= i < |out.transactions| ==>
            ValidDate(out.transactions[i].date) &&
            DayNumber(start) <= DayNumber(out.transactions[i].date) <= DayNumber(end))
      && E.AllInHorizon(out.exposures, start, end)
  {
    var h := HorizonOf(start, end, d);
    if d.customers != [] {
      var r := Run(h, start, end, d.months, d.lifts);
      assert Script(start, end, d) == r;
      RunOutcome(h, start, end, d.months, d.lifts);
      if r.Success? {
        P.BuildCustomersUniqueIds(start, d.customers);
        var txs := T.HorizonTransactions(h, |h.dates|);
        T.HorizonTransactionsWellFormed(h, |h.dates|);
        TransactionsWithinHorizon(h, start, end);
        E.HorizonExposuresInHorizon(h.cust, start, end, d.months, |d.months|);
        var out := r.value;
        forall i | 0 <= i < |out.transactions|
          ensures ValidDate(out.transactions[i].date)
          ensures DayNumber(start) <= DayNumber(out.transactions[i].date) <= DayNumber(end)
          ensures out.transactions[i].id == 1 + i
        {
          assert out.transactions[i].date == txs[i].date && out.transactions[i].id == txs[i].id;
        }
      }
    }
  }

  /** The script's steps from the quantile flags on, in order. */
  method RunScript(start: Date, end: Date, d: ScriptDraws) returns (r: Result<Tables, string>)
    requires ScriptInputsOk(start, end, d)
    ensures r == Script(start, end, d)
  {
    var threshold := P.Quantile(P.ClippedScores(d.customers, true), P.HIGH_VALUE_QUANTILE);
    if threshold.None? {
      return Failure(EMPTY_QUANTILE_ERROR);
    }
    r := Generate(HorizonOf(start, end, d), start, end, d.months, d.lifts);
  }
}
