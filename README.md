# Omnichannel CRM synthetic data and dashboard helpers, in Dafny

This project models three parts of a retail CRM incrementality repository and proves properties of each.

1. **The synthetic-data generator.** It has five steps:
   - It builds a customer cohort with clipped latent scores and quantile-based segment flags.
   - It derives `date_id`/`month_id` calendar keys.
   - It simulates daily transactions from a clamped purchase probability.
   - It simulates monthly CRM exposures from a biased, clamped targeting probability.
   - It injects a synthetic uplift into the revenue of a responder's transactions in the 7 days after each responder exposure. The revenue array is updated in place.
2. **The path and month helpers of the dashboard.** These cover:
   - the ordered, de-duplicated candidate export folders;
   - loading the first existing CSV, or raising "file not found";
   - the default export folder;
   - `ensure_month_fields`;
   - `sort_month` with its `YYYY-MM`→`YYYYMM` key.
3. **The narrative helpers of the dashboard:**
   - sign classification;
   - NaN/inf sanitising;
   - the "N/A" cases of number formatting;
   - the five page narratives, with their conditional bullets and `None` shares.

How the model represents the source:

- **Random draws are inputs.** The normal, lognormal, Poisson, uniform and categorical draws are supplied as sequences. Each sequence is indexed the way the script consumes it:
  - per day and customer (`Transactions.DayDraw`);
  - per month and customer (`Exposures.MonthDraw`);
  - one lift draw per matching responder exposure (`Uplift`).
- **Supplied factors.** The sine seasonality curve and `exp(0.45 * activity_score)` are supplied per day and per customer.
- **Revenue is in integer cents.** `round(x, 2)` is round-half-to-even of `100 * x` (`Numeric.RoundHalfEven`).
- **File-system checks are predicates.** `Path.exists`/`is_file`/`is_dir` become a caller-supplied predicate.
- **pandas frames.** A frame is a column list plus rows, each row a map from column name to cell (`Frames`).

Modules:

| module | source | what it holds |
|---|---|---|
| `Calendar` | calendar keys | dates, `date_id`, `month_id`, date ranges and the exposure months |
| `Numeric` | numeric helpers | `clip` and round-half-to-even |
| `Population` | customers and flags | the customer cohort |
| `Transactions` | transaction loop | the simulator, as imperative methods proved equal to recursive specification functions |
| `Exposures` | exposure loop | the simulator, as imperative methods proved equal to recursive specification functions |
| `Uplift` | uplift injection | the injection as an in-place method on an `array<int>` of revenues, against the recursive `Inject` |
| `Generator` | the script's top level | the firing order, the error paths, and the script from the cohort on (the cohort and the date range feeding the loops) |
| `Paths` | `data.py` | folder and CSV lookup |
| `Frames` | `data.py` | month columns and month sorting |
| `Narrative` | `narrative.py` | classification, sanitising and narrative assembly |

An exposure day comes from `pd.date_range(m_start, min(m_end, END_DATE))`, so the day lies between the 1st of the month and the earlier of month end and END_DATE. The 1st is used even for a START_DATE in the middle of a month. The model does the same (`Exposures.MonthDrawOk`, `Calendar.MonthDayCount`).

## Model

| member | source | states |
|---|---|---|
| Numeric.Clip | databricks/00_bronze/01_generate_synth_data.py:50-51 | np.clip of a scalar: the result lies in [lo, hi], equals x inside the range, lo below it and hi above it |
| Numeric.ClipInt | databricks/00_bronze/01_generate_synth_data.py:92 | the item count clip: result in [lo, hi], x inside, lo below, hi above |
| Numeric.RoundHalfEven | databricks/00_bronze/01_generate_synth_data.py:98 | the rounding of round(x, 2) on 100·x: within 1/2 of x, and an exact tie goes to the even neighbour |
| Numeric.RoundAtLeast | databricks/00_bronze/01_generate_synth_data.py:98 | rounding never goes below an integer the value already reaches (so rounded revenue stays non-negative) |
| Numeric.RoundOfInteger | databricks/00_bronze/01_generate_synth_data.py:183 | an integer number of cents rounds to itself |
| Numeric.ToCents | databricks/00_bronze/01_generate_synth_data.py:98 | round(revenue, 2) as cents: within half a cent of 100·revenue |
| Calendar.NextDay | databricks/00_bronze/01_generate_synth_data.py:35-36 | the next calendar day is a valid date whose day number is one more |
| Calendar.DayNumberOrder | databricks/00_bronze/01_generate_synth_data.py:35-36 | chronological order of valid dates is exactly the order of their day numbers, and equal day numbers mean equal dates |
| Calendar.AddDays | databricks/00_bronze/01_generate_synth_data.py:47 | START_DATE + k days is a valid date exactly k day numbers later |
| Calendar.DateRange | databricks/00_bronze/01_generate_synth_data.py:35-38 | pd.date_range(start, end, freq="D"): DN(end) − DN(start) + 1 consecutive valid dates from start (none if end is before start) |
| Calendar.BuildCalendar | databricks/00_bronze/01_generate_synth_data.py:38-41 | the date table of pd.date_range(start, end): DN(end) − DN(start) + 1 rows (none if end is before start), row i dated i days after start, each with its own YYYYMMDD date_id, month_id == date_id div 100, and date_id strictly increasing |
| Calendar.CalendarProperties | databricks/00_bronze/01_generate_synth_data.py:38-41 | the calendar runs from START_DATE to END_DATE one day at a time, month_id == date_id div 100 on every row, and date_id strictly increases |
| Calendar.DateKeysOrdered | databricks/00_bronze/01_generate_synth_data.py:38-41 | over strictly increasing valid dates, month_id is date_id div 100 and date_id strictly increases |
| Calendar.MonthIdIsDateIdDiv100 | databricks/00_bronze/01_generate_synth_data.py:40-41 | month_id is date_id div 100 and date_id mod 100 is the day of the month |
| Calendar.DateIdOrder | databricks/00_bronze/01_generate_synth_data.py:40 | date_id order is chronological order, and equal date_ids mean equal dates |
| Calendar.DateIdLex | databricks/00_bronze/01_generate_synth_data.py:40 | date_id order is the (year, month, day) lexicographic order |
| Calendar.NextMonth | databricks/00_bronze/01_generate_synth_data.py:113 | the following period of a monthly period_range is a valid month one index later |
| Calendar.MonthsFrom | databricks/00_bronze/01_generate_synth_data.py:113 | pd.period_range(.., freq="M"): consecutive valid months from the first to the last |
| Calendar.MonthDaysWithinHorizon | databricks/00_bronze/01_generate_synth_data.py:118-120 | every eligible exposure day of a horizon month is a real date of that month no later than END_DATE |
| Calendar.MonthsHaveEligibleDay | databricks/00_bronze/01_generate_synth_data.py:118-135 | every month of the horizon has at least one eligible day, so np.random.choice over month_days always has a day to choose |
| Population.SortScores | databricks/00_bronze/01_generate_synth_data.py:54 | the order statistics behind np.quantile: a sorted permutation of the scores |
| Population.SortScoresStep | databricks/00_bronze/01_generate_synth_data.py:54 | inserting the first score into the sorted rest gives a sorted permutation of all scores |
| Population.InsertSortedPermutes | databricks/00_bronze/01_generate_synth_data.py:54 | insertion adds exactly the inserted score |
| Population.InsertSortedSorted | databricks/00_bronze/01_generate_synth_data.py:54 | insertion into a sorted sequence keeps it sorted |
| Population.QuantileLow | databricks/00_bronze/01_generate_synth_data.py:54 | the lower order-statistic index of rank q·(n−1) is a valid index |
| Population.QuantileHigh | databricks/00_bronze/01_generate_synth_data.py:54 | the upper order-statistic index is a valid index at or above the rank q·(n−1) |
| Population.Lerp | databricks/00_bronze/01_generate_synth_data.py:54 | linear interpolation between two order statistics stays between them |
| Population.Quantile | databricks/00_bronze/01_generate_synth_data.py:54-58 | np.quantile(s, q): defined iff s is non-empty (Generator.Script turns the empty case into the IndexError), and lies between the sorted scores at floor(q·(n−1)) and floor(q·(n−1)) + 1, the latter capped at n − 1 |
| Population.Flag | databricks/00_bronze/01_generate_synth_data.py:55-59 | (score >= threshold).astype(int): 1 iff a threshold exists and the score reaches it |
| Population.MakeCustomer | databricks/00_bronze/01_generate_synth_data.py:44-59 | one customer: id i+1, signup_date exactly START_DATE + the drawn offset (so within 180 days of START_DATE), the given scores, flags from the thresholds |
| Population.BuildCustomers | databricks/00_bronze/01_generate_synth_data.py:44-59 | N customers with ids 1..N in order, signup_date exactly START_DATE + each drawn offset in [0, 180) days, both scores clipped to [-2.5, 2.5], is_high_value = 1 iff value_score ≥ the 0.70 quantile of the cohort, is_active = 1 iff activity_score ≥ the 0.50 quantile (an empty cohort stops the script at np.quantile instead: Generator.ScriptOutcome) |
| Population.BuildCustomersUniqueIds | databricks/00_bronze/01_generate_synth_data.py:45 | no two customers share a customer_id |
| Population.FlagsMonotone | databricks/00_bronze/01_generate_synth_data.py:54-59 | a customer with a score at least another's has a flag at least the other's, for both flags |
| Population.QuantileAtMostMax | databricks/00_bronze/01_generate_synth_data.py:54-58 | the quantile never exceeds the maximum score |
| Population.MaxScoreIsFlagged | databricks/00_bronze/01_generate_synth_data.py:54-59 | the customer with the maximum value_score is high-value and the one with the maximum activity_score is active |
| Population.CountAtLeastAppend | databricks/00_bronze/01_generate_synth_data.py:55-59 | counting scores at or above a threshold adds up over concatenation |
| Population.CountAtLeastPermutation | databricks/00_bronze/01_generate_synth_data.py:55-59 | the count of scores at or above a threshold does not depend on their order |
| Population.QuantileSegmentSize | databricks/00_bronze/01_generate_synth_data.py:54-59 | at least n − hi scores reach the q-quantile, hi being the upper order-statistic index of rank q·(n−1) |
| Population.CountAtLeastSortedSuffix | databricks/00_bronze/01_generate_synth_data.py:54-59 | in sorted scores, everything from the threshold's index on reaches it |
| Population.InsertSortedBound | databricks/00_bronze/01_generate_synth_data.py:54 | a lower bound of all scores that the inserted score also meets still bounds the result |
| Population.CountHighValueIsCountAtLeast | databricks/00_bronze/01_generate_synth_data.py:55 | the high-value count is the number of value scores at or above the threshold |
| Population.CountActiveIsCountAtLeast | databricks/00_bronze/01_generate_synth_data.py:59 | the active count is the number of activity scores at or above the threshold |
| Population.SegmentSizes | databricks/00_bronze/01_generate_synth_data.py:53-59 | the "top ~30% / ~50%" sizes: the high-value segment has at least n − hi(0.70) customers and the active one at least n − hi(0.50); when no two customers share a score, at most n − lo(0.70) and n − lo(0.50); lo(q) and hi(q) = lo(q) + 1 (capped) are the order-statistic indices around rank q·(n−1) |
| Population.SortedDistinctStrict | databricks/00_bronze/01_generate_synth_data.py:54 | sorting pairwise-distinct scores orders them strictly |
| Population.CountAtLeastSortedPrefix | databricks/00_bronze/01_generate_synth_data.py:55-59 | in sorted scores whose element at lo − 1 is below the threshold, at most n − lo reach it |
| Population.QuantileSegmentAtMost | databricks/00_bronze/01_generate_synth_data.py:54-59 | with pairwise-distinct scores, at most n − lo scores reach the q-quantile, lo = floor(q·(n−1)) |
| Transactions.PurchaseProbability | databricks/00_bronze/01_generate_synth_data.py:73-74 | the daily purchase probability always lies in [0.0005, 0.12], and equals base_p·(1+0.9·seas)·activity factor when that is inside the range |
| Transactions.PurchaseProbabilityMonotone | databricks/00_bronze/01_generate_synth_data.py:73-74 | a larger activity factor never lowers the purchase probability |
| Transactions.BasketCount | databricks/00_bronze/01_generate_synth_data.py:82 | a buyer has 1 or 2 transactions, 2 iff the uniform is below 0.08 |
| Transactions.MakeTransaction | databricks/00_bronze/01_generate_synth_data.py:90-100 | a transaction carries the running id, the buyer, the day, the drawn channel and second of day, revenue within half a cent of 100·lognormal (round(x, 2)), and the Poisson item count when it lies in [1, 25], else 1 below and 25 above; it is well formed |
| Transactions.CustomerDayTransactions | databricks/00_bronze/01_generate_synth_data.py:76-101 | a customer whose draw is below p gets BasketCount transactions that day, any other customer none |
| Transactions.EmitBaskets | databricks/00_bronze/01_generate_synth_data.py:88-101 | the inner loop emits exactly the buyer's specified transactions and advances tx_id by their number |
| Transactions.SimulateCustomerDay | databricks/00_bronze/01_generate_synth_data.py:76-101 | one customer on one day: exactly the specified transactions, tx_id advanced by their number |
| Transactions.SimulateDay | databricks/00_bronze/01_generate_synth_data.py:69-101 | about DayTransactions: one day of the loop emits exactly DayTransactions and advances tx_id by their number |
| Transactions.SimulateTransactions | databricks/00_bronze/01_generate_synth_data.py:66-105 | about HorizonTransactions: the day loop yields exactly HorizonTransactions, or the RuntimeError "No transactions generated. Adjust probabilities." when that is empty |
| Transactions.CustomerOnDayWellFormed | databricks/00_bronze/01_generate_synth_data.py:88-101 | a buyer's transactions are numbered consecutively, dated that day, well formed, all of that customer, and exist only if the customer bought |
| Transactions.NumberedAppend | databricks/00_bronze/01_generate_synth_data.py:94-101 | consecutive numbering continues across appended batches |
| Transactions.OnDateAppend | databricks/00_bronze/01_generate_synth_data.py:96 | concatenating batches of one day keeps them all on that day |
| Transactions.OkAppend | databricks/00_bronze/01_generate_synth_data.py:92-99 | concatenating well-formed batches keeps every transaction well formed |
| Transactions.DayTransactionsWellFormed | databricks/00_bronze/01_generate_synth_data.py:88-101 | a day's transactions are numbered consecutively from the running id, dated that day, with items in [1, 25], second in [0, 86400) and non-negative revenue |
| Transactions.HorizonTransactionsWellFormed | databricks/00_bronze/01_generate_synth_data.py:66-101 | transaction_id runs 1, 2, 3, ... in emission order over the whole horizon and every transaction is well formed |
| Transactions.HorizonTransactionsOnDates | databricks/00_bronze/01_generate_synth_data.py:66-101 | every transaction of the first n days is dated on one of those days |
| Transactions.DayTransactionsFromBuyers | databricks/00_bronze/01_generate_synth_data.py:76-77 | every transaction of a day belongs to a customer whose purchase draw fell below p |
| Transactions.DayWithoutBuyersIsEmpty | databricks/00_bronze/01_generate_synth_data.py:78-79 | a day emits nothing iff none of its customers buys |
| Transactions.HorizonEmptyIffNoBuyer | databricks/00_bronze/01_generate_synth_data.py:103-105 | the whole run produces no transaction (and raises) iff nobody buys on any day |
| Transactions.EmptyCohortAborts | databricks/00_bronze/01_generate_synth_data.py:66-105 | the transaction loop over an empty cohort emits nothing, so it would raise the no-transactions error; the script itself stops earlier, at np.quantile (Generator.ScriptOutcome) |
| Transactions.CountForAppend | databricks/00_bronze/01_generate_synth_data.py:95 | per-customer counts add up over concatenation |
| Transactions.CountForAllOrNone | databricks/00_bronze/01_generate_synth_data.py:95 | a batch of one customer's transactions counts fully for that customer and zero for any other |
| Transactions.TransactionsPerCustomer | databricks/00_bronze/01_generate_synth_data.py:76-101 | on each day a buyer has exactly BasketCount (1 or 2) transactions and a non-buyer none |
| Exposures.ExposureProbability | databricks/00_bronze/01_generate_synth_data.py:123-127 | the monthly exposure probability lies in [0.02, 0.75] |
| Exposures.ExposureProbabilityValue | databricks/00_bronze/01_generate_synth_data.py:123-127 | the probability is 0.18 × (1.6 if active) × (1.4 if high-value), and the clamp never binds |
| Exposures.ExposureProbabilityMonotone | databricks/00_bronze/01_generate_synth_data.py:123-127 | gaining either flag never lowers the probability of being targeted |
| Exposures.Responder | databricks/00_bronze/01_generate_synth_data.py:140 | is_responder is 1 iff the uniform is below 0.35, else 0 |
| Exposures.SimulateMonth | databricks/00_bronze/01_generate_synth_data.py:117-157 | about MonthExposures: one month of the loop appends exactly that month's specified exposures, numbered on from the running exp_id |
| Exposures.SimulateExposures | databricks/00_bronze/01_generate_synth_data.py:113-157 | about HorizonExposures: the month loop yields exactly HorizonExposures |
| Exposures.NumberedAppend | databricks/00_bronze/01_generate_synth_data.py:150-157 | consecutive exposure numbering continues across months |
| Exposures.MonthExposuresNumbered | databricks/00_bronze/01_generate_synth_data.py:146-157 | a month's exposures are numbered consecutively from the running exp_id |
| Exposures.HorizonExposuresNumbered | databricks/00_bronze/01_generate_synth_data.py:115-157 | exposure_id runs 1, 2, 3, ... across all months |
| Exposures.MonthExposuresInMonth | databricks/00_bronze/01_generate_synth_data.py:118-137 | every exposure of a month falls on a real day of that month no later than END_DATE, at a time in [08:00, 20:00) |
| Exposures.HorizonExposuresInHorizon | databricks/00_bronze/01_generate_synth_data.py:113-157 | every exposure lies in one of the horizon's months, on or before END_DATE, inside business hours |
| Exposures.MonthExposuresFromTargets | databricks/00_bronze/01_generate_synth_data.py:129-130 | every exposure of a month belongs to a customer whose targeting draw fell below the probability |
| Exposures.MonthWithoutTargetsIsEmpty | databricks/00_bronze/01_generate_synth_data.py:131-132 | a month emits nothing iff it has no target |
| Exposures.HorizonWithoutTargetsIsEmpty | databricks/00_bronze/01_generate_synth_data.py:117-159 | the exposure table is empty iff no month has a target |
| Exposures.ExposuresPerCustomer | databricks/00_bronze/01_generate_synth_data.py:129-157 | within a month a customer has exactly one exposure if targeted and none otherwise |
| Uplift.Lift | databricks/00_bronze/01_generate_synth_data.py:182 | the lift is clipped to [0, 0.25], and a draw inside that range is used unchanged |
| Uplift.Scale | databricks/00_bronze/01_generate_synth_data.py:183 | (revenue × (1 + lift)).round(2) in cents: within half a cent of the exact product |
| Uplift.DrawsUsed | databricks/00_bronze/01_generate_synth_data.py:181-182 | the number of lift draws consumed is at most the number of exposures (the bound by responder exposures is Uplift.DrawsUsedAtMostResponders) |
| Uplift.AnyMatch | databricks/00_bronze/01_generate_synth_data.py:180-181 | mask.any() is true iff some transaction of that customer falls in the exposure's 7-day window |
| Uplift.ApplyLift | databricks/00_bronze/01_generate_synth_data.py:183 | about Pass: one pass rewrites in place exactly the masked revenues, each scaled by (1 + lift) and rounded |
| Uplift.InjectUplift | databricks/00_bronze/01_generate_synth_data.py:169-183 | the in-place loop over responder exposures leaves the array equal to Inject of its old contents and consumes DrawsUsed lift draws |
| Uplift.InjectIntoTransactions | databricks/00_bronze/01_generate_synth_data.py:167-186 | the adjusted table is the input table with revenue replaced by the injected revenues |
| Uplift.InjectPointwise | databricks/00_bronze/01_generate_synth_data.py:178-183 | about Inject and LiftedValue: each transaction's final revenue is its own pass-by-pass lifted value (the passes act pointwise) |
| Uplift.LiftedValueOutside | databricks/00_bronze/01_generate_synth_data.py:180 | a transaction outside every responder window keeps its value |
| Uplift.InjectLocality | databricks/00_bronze/01_generate_synth_data.py:169-183 | only transactions of the same customer dated in [exposure_date, exposure_date + 6] of some responder exposure can change |
| Uplift.NonResponderCustomerUnchanged | databricks/00_bronze/01_generate_synth_data.py:169 | a customer without a responder exposure keeps all revenues |
| Uplift.ScaleAtLeast | databricks/00_bronze/01_generate_synth_data.py:182-183 | a non-negative lift never lowers a non-negative revenue |
| Uplift.LiftedValueAtLeast | databricks/00_bronze/01_generate_synth_data.py:178-183 | the passes never lower a non-negative revenue |
| Uplift.InjectMonotone | databricks/00_bronze/01_generate_synth_data.py:178-183 | revenue never decreases through the injection |
| Uplift.SingleResponderExposure | databricks/00_bronze/01_generate_synth_data.py:169-183 | with one responder exposure, a transaction in its window becomes round(revenue × (1 + lift), 2) and any other is unchanged |
| Uplift.OverlappingExposuresCompound | databricks/00_bronze/01_generate_synth_data.py:178-183 | a transaction in two responder windows ends at round(round(r × (1 + l1), 2) × (1 + l2), 2) |
| Uplift.TenPercentLiftExample | databricks/00_bronze/01_generate_synth_data.py:183 | 100.00 with a 0.10 lift becomes 110.00 |
| Uplift.CompoundingIsNotAdditive | databricks/00_bronze/01_generate_synth_data.py:183 | 19.99 lifted by 0.05 then 0.10 ends at 23.09, unlike a single 0.15 lift (22.99) |
| Uplift.DrawsUsedAtMostResponders | databricks/00_bronze/01_generate_synth_data.py:181-182 | no more lift draws are consumed than there are responder exposures, and none when there are no transactions |
| Uplift.WithRevenuesOnlyRevenue | databricks/00_bronze/01_generate_synth_data.py:185-186 | about WithRevenues: writing revenue back changes only the revenue field; count, ids and all other fields are unchanged |
| Uplift.InjectKeepsTransactionsOk | databricks/00_bronze/01_generate_synth_data.py:175-186 | after injection every transaction is still well formed |
| Generator.WithOwnRevenues | databricks/00_bronze/01_generate_synth_data.py:185 | writing back unchanged revenues gives the table back |
| Generator.RunOutcome | databricks/00_bronze/01_generate_synth_data.py:103-186 | about Run: the run fails only with the no-transactions error, exactly when nobody buys; otherwise it returns all exposures and the transactions with only revenue changed, each well formed |
| Generator.UntargetedRunCrashesAsWritten | databricks/00_bronze/01_generate_synth_data.py:159-167 | about RunAsWritten against Run: if nobody is ever targeted but somebody buys, the script as written raises KeyError, while the intended run returns the transactions unchanged and no exposures |
| Generator.RunsAgreeWithExposures | databricks/00_bronze/01_generate_synth_data.py:159-186 | with at least one exposure, the script as written and the intended run agree |
| Generator.Generate | databricks/00_bronze/01_generate_synth_data.py:66-186 | the steps in script order (transactions, exposures, guarded injection) yield exactly Run |
| Generator.RunScript | databricks/00_bronze/01_generate_synth_data.py:44-186 | the corrected script (Run in place of RunAsWritten) from the cohort on: the IndexError of np.quantile on an empty cohort, otherwise the steps of Generate over the cohort and the date range (equal to Script) |
| Generator.ScriptOutcome | databricks/00_bronze/01_generate_synth_data.py:44-105 | the corrected script (Run in place of RunAsWritten) fails iff the cohort is empty (IndexError at np.quantile) or nobody buys on any day (the no-transactions RuntimeError), with that error |
| Generator.ScriptAsWrittenOutcome | databricks/00_bronze/01_generate_synth_data.py:44-167 | the script as written fails iff the cohort is empty, nobody buys, or nobody is targeted in any month, with IndexError, the RuntimeError or KeyError for the first that holds; when it succeeds it equals the corrected script |
| Generator.TransactionsWithinHorizon | databricks/00_bronze/01_generate_synth_data.py:35-101 | every transaction of the loop over pd.date_range(START_DATE, END_DATE) is dated within [START_DATE, END_DATE] |
| Generator.ScriptTables | databricks/00_bronze/01_generate_synth_data.py:35-186 | a successful script has a cohort with distinct customer_ids, transaction_id running 1, 2, 3, ..., every transaction within [START_DATE, END_DATE] and every exposure in a horizon month no later than END_DATE |
| Paths.FirstIndex | streamlit_app/utils/data.py:50-58 | the position of the first occurrence of a path |
| Paths.DedupPaths | streamlit_app/utils/data.py:50-58 | the seen-set loop returns exactly Dedup of the candidates |
| Paths.DedupElements | streamlit_app/utils/data.py:50-58 | the de-duplicated list has no two equal entries and contains exactly the input's entries |
| Paths.DedupKeepsFirstOccurrenceOrder | streamlit_app/utils/data.py:50-58 | entries keep the order of their first occurrences in the input |
| Paths.FirstIndexUnique | streamlit_app/utils/data.py:50-58 | an index holding x with no earlier x is x's first index |
| Paths.FirstIndexPrefix | streamlit_app/utils/data.py:50-58 | appending paths does not move the first occurrence of an earlier path |
| Paths.DedupOfDistinct | streamlit_app/utils/data.py:50-58 | a list without duplicates is unchanged |
| Paths.DedupHead | streamlit_app/utils/data.py:50-58 | the first candidate always survives de-duplication, in first place |
| Paths.CandidateFolders | streamlit_app/utils/data.py:33-58 | _candidate_folders is Dedup of [user folder if truthy] + the four fixed candidates |
| Paths.CandidateFoldersOrder | streamlit_app/utils/data.py:39-58 | the user folder comes first iff it is non-empty and not None, followed by the fixed paths in order, every key appearing exactly once |
| Paths.FirstExisting | streamlit_app/utils/data.py:71-75 | the first candidate whose file exists, with no earlier one existing; None iff none exists |
| Paths.LoadFromCandidates | streamlit_app/utils/data.py:70-89 | about load_csv_folder's lookup, with the message of NotFoundMessage: loads from the first existing candidate with tried_paths up to and including it; otherwise raises FileNotFoundError with the full message if required, else returns an empty frame |
| Paths.FirstExistingIsFirst | streamlit_app/utils/data.py:71-75 | the first existing index is the lookup's result |
| Paths.LoadCsvFolder | streamlit_app/utils/data.py:61-89 | load_csv_folder over the de-duplicated candidates, with the same outcomes |
| Paths.UserFolderWins | streamlit_app/utils/data.py:40-75 | a given folder that holds the file is always the one loaded |
| Paths.NothingFoundIffNoCandidateHasFile | streamlit_app/utils/data.py:71-75 | the lookup finds nothing iff no candidate holds the file |
| Paths.DefaultExportFolder | streamlit_app/utils/data.py:16-30 | the repo-level folder if it is a directory, else the app-level one if that is, else the repo-level one |
| Frames.AsStrColumn | streamlit_app/utils/data.py:113-118 | astype(str): every cell becomes a string, a missing cell becomes "nan" and a string cell is kept as it is |
| Frames.FillNa | streamlit_app/utils/data.py:113-118 | fillna(fill): exactly the missing cells take fill[i] and every other cell is unchanged, so a fill without missing cells leaves none missing |
| Frames.SetColumnFacts | streamlit_app/utils/data.py:109-118 | assigning a column sets that column in every row, leaves every other cell alone, and keeps the frame well formed |
| Frames.EnsureMonthFieldsColumns | streamlit_app/utils/data.py:98-118 | about EnsureMonthFields (ensure_month_fields), its columns: the result has the input columns followed by month_id_norm and month_label, each appended only if missing (also for empty and missing input) |
| Frames.DistinctWithMonthColumns | streamlit_app/utils/data.py:101-103 | appending the month columns never duplicates a column |
| Frames.EnsureMonthFieldsCells | streamlit_app/utils/data.py:98-118 | about EnsureMonthFields (ensure_month_fields), its cells: empty input gives no rows; a missing month_col sets both fields to "Unknown"; otherwise month_id_norm is str(month) and month_label is str(label) or month_id_norm; other cells are unchanged |
| Frames.EnsureMonthFieldsFilledCells | streamlit_app/utils/data.py:113-118 | about EnsureMonthFieldsFilled: the corrected version: a missing month becomes "Unknown" and a missing label falls back to month_id_norm |
| Frames.MissingMonthBecomesNan | streamlit_app/utils/data.py:113 | a missing month becomes "nan" as written, but "Unknown" in the corrected version |
| Frames.RemoveDashes | streamlit_app/utils/data.py:137 | s.replace("-", ""): no dash left and never longer |
| Frames.RemoveDashesNoDash | streamlit_app/utils/data.py:137 | a string without dashes is unchanged |
| Frames.RemoveDashesSplit | streamlit_app/utils/data.py:137 | dash removal distributes over concatenation |
| Frames.MonthKeyFormats | streamlit_app/utils/data.py:134-138 | about MonthKey (_key): _key turns YYYY-MM into YYYYMM, leaves 6-character keys unchanged, and is idempotent |
| Frames.MonthKeySpellingsAgree | streamlit_app/utils/data.py:134-138 | YYYY-MM and YYYYMM of the same month get the same key |
| Frames.LexLeTotal | streamlit_app/utils/data.py:142 | the string order used by sort_values is total |
| Frames.LexLeTransitive | streamlit_app/utils/data.py:142 | the string order used by sort_values is transitive |
| Frames.WithKeys | streamlit_app/utils/data.py:141 | assign(_sort_key=...): every row is paired with its own _key, and removing the keys gives the rows back in order |
| Frames.InsertKeyedPermutes | streamlit_app/utils/data.py:142 | inserting a keyed row adds exactly that row |
| Frames.InsertKeyedBound | streamlit_app/utils/data.py:142 | a key below every row key and the inserted one stays below every key after insertion |
| Frames.InsertKeyedSorted | streamlit_app/utils/data.py:142 | insertion keeps keyed rows sorted |
| Frames.InsertKeyedMatch | streamlit_app/utils/data.py:141-142 | every _sort_key stays its own row's key through insertion |
| Frames.SortKeyedFacts | streamlit_app/utils/data.py:141-142 | sorting by _sort_key gives a permutation of the rows, ordered by key, each key still its row's |
| Frames.DropSortKeyColumn | streamlit_app/utils/data.py:142 | drop(columns=["_sort_key"]): exactly the other columns remain |
| Frames.DropSortKeyCells | streamlit_app/utils/data.py:142 | drop(columns=["_sort_key"]) on the rows: no row keeps a _sort_key cell, every other cell is unchanged, and each row's key is unchanged |
| Frames.DropKeepsRowKey | streamlit_app/utils/data.py:141 | dropping _sort_key does not change a row's key |
| Frames.SortMonthFacts | streamlit_app/utils/data.py:123-143 | about SortMonth (sort_month): None, empty input, or input without month_id_norm comes back unchanged; otherwise a permutation of the rows ordered by _key(month_id_norm), without a _sort_key column |
| Narrative.DirectionOf | streamlit_app/utils/narrative.py:17-24 | "unknown" iff None or NaN; otherwise positive for x > 0, negative for x < 0, neutral for 0 |
| Narrative.DirectionCases | streamlit_app/utils/narrative.py:17-24 | infinities take their sign, 0 is neutral, and only None/NaN are unknown |
| Narrative.SafeFloat | streamlit_app/utils/narrative.py:26-35 | the default for None, NaN, ±inf or an unconvertible value, the value itself otherwise |
| Narrative.SafeFloatSanitises | streamlit_app/utils/narrative.py:26-35 | sanitising is idempotent and never yields NaN or inf |
| Narrative.FmtNum | streamlit_app/utils/narrative.py:8-15 | "N/A" for None, NaN, ±inf, an unconvertible value or a negative precision; otherwise the number itself at the requested precision |
| Narrative.FmtNumOfSanitised | streamlit_app/utils/narrative.py:8-35 | a sanitised number always formats as a number, never "N/A" |
| Narrative.NarrativeSummary | streamlit_app/utils/narrative.py:56-81 | exactly 3 bullets; the headline carries _direction of the sanitised revenue and is never "unknown" |
| Narrative.NarrativeValueSplit | streamlit_app/utils/narrative.py:86-109 | exactly 3 bullets; the headline carries _direction of the sanitised overall figure, and each segment bullet its label and direction |
| Narrative.NarrativeActiveVsNonActive | streamlit_app/utils/narrative.py:114-141 | exactly 3 bullets; the headline carries the directions of both sanitised revenue figures |
| Narrative.RfmShare | streamlit_app/utils/narrative.py:152-155 | the share is None iff the sanitised total is 0, and otherwise share × total == top |
| Narrative.NarrativeRfm | streamlit_app/utils/narrative.py:146-173 | 2 bullets plus 1 iff bottom_seg is given; the headline shows "N/A" when there is no share and the share percentage otherwise; the weakest bullet shows N/A and "unknown" when bottom_rev is None |
| Narrative.ZeroShare | streamlit_app/utils/narrative.py:187-188 | the zero-revenue share is None iff rows is 0, and otherwise share × rows == count |
| Narrative.ZeroRowsBullet | streamlit_app/utils/narrative.py:193-194 | a zero-revenue bullet shows its count, and "N/A" iff there is no percentage |
| Narrative.NarrativeDiagnostics | streamlit_app/utils/narrative.py:178-206 | None counts read as 0; both percentage bullets show "N/A" iff rows is 0; 2 bullets plus 1 iff inc_rev_median is given |

## Left out

- **Random sampling.** The NumPy random functions and the global seed are not modelled (`normal`, `lognormal`, `poisson`, `choice`, `randint`, `rand`). Draws are inputs assumed to lie in their stated ranges (`TxDrawOk`, `MonthDrawOk`, `CustomerDrawOk`). Bit-identical reproduction of the seeded stream is out of scope.
- **Global draw order.** The script draws each random array for the whole cohort at once. The model indexes the same draws per customer, so only the correspondence of values is modelled, not the order of draws.
- **The sine seasonality curve and `exp(0.45 * activity_score)`.** They are supplied values, because Dafny has no transcendental functions. The lognormal mean `3.3 + 0.35 * value_score` is folded into the supplied lognormal value.
- **Floating point.** Revenue is in exact integer cents, and probabilities and scores are exact reals. Binary floating-point error in `revenue * (1 + lift)` is not modelled.
- Numeric.RoundHalfEven: ties round to even as numpy's `rint` does. The float error that decides which side of a tie a binary value falls on is not modelled.
- Population.Quantile: an empty sample gives `None` where numpy raises IndexError; Generator.Script turns that into the failure `"IndexError"`, and only the exception class is modelled, not its message.
- Population.BuildCustomers: on an empty cohort it returns no customers; the script never gets that far, since it stops at np.quantile (Generator.Script).
- Population.Quantile: its contract bounds the result by the order statistics around rank q·(n−1) rather than restating numpy's linear-interpolation formula, which it does compute.
- **Zero rounded revenue.** A very small lognormal draw can round to 0.00. The model allows this (revenue ≥ 0), as the code does.
- **Exposure day range.** Each month's eligible days start on the 1st even when START_DATE is later in that month; the model follows the code here.
- **Joining the calendar.** The `merge` with the calendar table is replaced by computing a date's `date_id` and `month_id` directly (`Calendar.DateId`, `Calendar.MonthId`). It is equal on every horizon date.
- **Dropping the timestamp.** `transaction_ts` is split into a date and a second of day, so `dt.floor("D")` is the date field.
- **The exposure-time frame.** `pd.to_datetime(chosen_days) + chosen_times` is modelled the same way, as a date and a second of day.
- **CSV output.** Writing the CSVs and the printed row counts are I/O and are left out.
- **`load_csv_folder` I/O.** `pd.read_csv` is not modelled: the outcome `Loaded(path)` names the file that would be read.
- **Path checks.** `Path.exists() and is_file()` is one caller-supplied predicate; `exists() and is_dir()` is another.
- **Cloud paths.** `get_repo_root` and `Path.cwd()` are parameters.
- **Path normalisation.** `Path(...)` normalisation, such as collapsing `//` or a trailing `/`, is not modelled: paths are compared as the joined strings.
- **`ensure_month_fields` value types.** A month column holds either integers or strings, and `str()` of an integer is its decimal digits. Float-typed month columns (`202501.0`) and `NaN` rendering in other pandas versions are not modelled. A missing cell renders as `"nan"`, as `astype(str)` does in pandas before 3.0.
- **`sort_month` tie order.** pandas' default quicksort leaves the order of rows with equal keys unspecified. The model sorts stably by insertion, and its contract states only a permutation ordered by key.
- **Narrative text.**
  - Only the structure of each narrative is modelled: direction words, figures, names, the "N/A" placeholder and the number of bullets.
  - The fixed wording of long sentences, recommendations and caveats is not modelled. It is represented by a `Remark` or by the page.
  - Thousands-separator digit rendering by `_fmt_num` is not modelled.
- **`render_narrative`.** The Streamlit rendering, the dashboard pages, the Bronze upload job and the Gold export job are not part of this model.

## Findings

| source | as written | input that shows it | evidently intended | confidence | as-written member | corrected member |
|---|---|---|---|---|---|---|
| streamlit_app/utils/data.py:113-118 | `astype(str)` runs before `fillna`, so a missing month has already become the text "nan" and the fill never applies; the same happens to a missing `month_label` | a non-empty frame with a `month_id` column whose only cell is missing | a missing month reads "Unknown" and a missing label falls back to `month_id_norm` | not executed (pandas before 3.0, where `astype(str)` renders NaN as "nan") | Frames.MissingMonthBecomesNan | Frames.EnsureMonthFieldsFilledCells |
| databricks/00_bronze/01_generate_synth_data.py:159-167 | with no exposure rows, `pd.DataFrame([])` has no columns and `exp["exposure_ts"]` raises KeyError, so the `not exp.empty` guard of the uplift step is never reached | a cohort in which somebody buys but every monthly targeting uniform is at least 0.75 | no uplift: the transactions are saved unchanged with an empty exposure table | not executed | Generator.UntargetedRunCrashesAsWritten | Generator.Generate |
