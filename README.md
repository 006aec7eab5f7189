# UMKM demand forecasting — a Dafny model

The system helps a small bakery business (an Indonesian *UMKM*) decide how much
to produce each day. It has three parts:

- A browser front end (`app.js`): a five-step wizard. You upload a CSV of daily
  sales, train models, and then read the results, the financial comparison and
  the recommendations.
- A FastAPI backend (`backend/main.py`). It aggregates the upload per day and
  product and adds calendar features: Ramadan, Eid, near-Eid, national holidays
  and weekends. It splits each product's history 70/15/15 in date order, builds
  lag features (all shifted by one row except the weekly trend, see Findings), trains three regressors and keeps the one with the
  lowest MAE. It then simulates three production strategies (historical
  average, ML prediction, perfect foresight) for profit, waste, stockouts and
  service level.
- A stand-alone pipeline (`backend/umkm_python_code.py`). It completes the
  date × product grid, marks closure days (Sundays outside Ramadan, 5 to 7 days
  before and 1 to 7 days after each Eid, national holidays), creates lag and
  rolling features, splits the data by fixed dates and evaluates clamped
  predictions.

The model works in Dafny's terms:

- Dates are day numbers counted from 1970-01-01. pandas' `dayofweek` is
  `(n + 3) % 7`, with Monday 0.
- Data frames are sequences of records. Group-bys are maps or filters.
- JavaScript arithmetic that can give `NaN` or `Infinity` is a small
  number type.
- The page's global state and its DOM classes are a class, `Wizard.Page`,
  whose methods change the step marks and the hidden flags of the screens.

Modules:

| module | file | models |
|---|---|---|
| Common | common.dfy | Option, JSON records, `unique()`, the prediction clamp |
| Calendar | calendar.dfy | day numbers, civil dates, weekdays, inclusive periods |
| Sorting | sorting.dfy | stable sort by key, Python string order, `sorted(set(...))` |
| Series | series.dfy | `shift`, `diff`, and the shifted rolling mean, max and min |
| Wizard | wizard.dfy | step marks, screens, the upload, train and step-click handlers |
| ScenarioMetrics | scenario_metrics.dfy | normalizeScenario, the financial page's metrics, the advice labels, the recommendations figures |
| BackendCalendar | backend_calendar.dfy | add_calendar_features |
| BackendSplit | backend_split.dfy | split_product_timeseries |
| BackendFeatures | backend_features.dfy | add_lags and create_lag_features_per_product |
| BackendFinance | backend_finance.dfy | calculate_financial_scenario and the three scenarios |
| BackendUpload | backend_upload.dfy | the upload group-by and its summary |
| BackendTraining | backend_training.dfy | best model, accuracy breakdown, product performance, feature importances |
| PipelineCalendar | pipeline_calendar.dfy | define_external_variables, is_in_ramadan, calculate_closure_days, the closure rule |
| PipelinePreprocess | pipeline_preprocess.dfy | grid completion and the external-variable columns of preprocess_data |
| PipelineFeatures | pipeline_features.dfy | create_features |
| PipelineSplit | pipeline_split.dfy | split_data |
| PipelineEvaluate | pipeline_evaluate.dfy | the clamp of evaluate_model |
| EndToEnd | end_to_end.dfy | the backend's responses as the pages read them |

## Model

| member | source | states |
|---|---|---|
| Common.ClampPrediction | backend/main.py:369 | a clamped prediction is non-negative and never below the raw value; a non-negative prediction is unchanged and a negative one becomes 0 |
| Common.Distinct | backend/main.py:282 | `unique()` keeps exactly the values of its input, each once |
| Calendar.DayOfWeekPeriodic | backend/main.py:59 | the weekday repeats every seven days |
| Calendar.Epoch | backend/main.py:59 | day 0 is 1970-01-01, a Thursday (dayofweek 3) |
| Calendar.InAnyPeriodAppend | backend/main.py:73-76 | setting the flag inside one more period adds exactly that period's days |
| Sorting.SortByCorrect | backend/main.py:109 | `sort_values('date')` gives a permutation of its input, ordered by the key |
| Sorting.SortByOfSorted | backend/main.py:109 | sorting an already sorted frame changes nothing |
| Sorting.InsertByCorrect | backend/main.py:109 | one insertion step keeps the multiset and the order |
| Sorting.LexLessIrreflexive | backend/main.py:443 | Python's string `<` is irreflexive |
| Sorting.LexLessTransitive | backend/main.py:443 | Python's string `<` is transitive |
| Sorting.LexLessTotal | backend/main.py:443 | two different strings are ordered one way or the other |
| Sorting.SortedUniqueCorrect | backend/main.py:252 | `sorted(unique())` is strictly increasing and holds exactly the input's names |
| Sorting.InsertUniqueCorrect | backend/main.py:252 | one insertion into a sorted name list keeps it strictly sorted and adds exactly that name |
| Sorting.StrictlySortedUnique | backend/main.py:443 | two strictly sorted lists with the same elements are equal |
| Series.MaxOf | backend/main.py:143 | the maximum is an element and bounds every element |
| Series.MinOf | backend/main.py:144 | the minimum is an element and is bounded by every element |
| Series.PastWindow | backend/main.py:140-141 | the window of row i is the min(i, w) values just before i |
| Series.SumBounds | backend/main.py:141 | per-element bounds give bounds on the sum |
| Series.MeanWithinRange | backend/main.py:141 | a mean lies between the minimum and the maximum |
| Series.QuotientBounds | backend/main.py:141 | integer bounds on a sum carry over to its quotient by the count |
| Series.Lag | backend/main.py:137 | `shift(k)` is present exactly from row k, and is the value k rows back |
| Series.RollingMean | backend/main.py:141 | missing exactly on row 0; otherwise the mean times min(i, w) is the sum of the window before i |
| Series.RollingMax | backend/main.py:143 | missing exactly on row 0; otherwise an element of the window before i that bounds it |
| Series.RollingMin | backend/main.py:144 | missing exactly on row 0; otherwise an element of the window before i bounded by it |
| Series.Difference | backend/main.py:148 | `diff(k)` is present exactly when the k-row lag is, and is the row's value minus it |
| Series.RollingMaxIsPastMaximum | backend/main.py:143 | the shifted rolling max is one of the last w earlier values and bounds all of them |
| Series.RollingMinIsPastMinimum | backend/main.py:144 | the shifted rolling min is one of the last w earlier values and is bounded by all of them |
| Series.RollingMeanBetween | backend/main.py:139-144 | rolling min ≤ rolling mean ≤ rolling max on every row after the first |
| Series.RollingIsCausal | backend/main.py:139-144 | the rolling statistics of row i depend only on the rows before i |
| Wizard.ScreenIndex | app.js:40-41 | each of the five screens has a position below 5 |
| Wizard.ScreenAt | app.js:40-41 | ScreenAt inverts ScreenIndex |
| Wizard.MarksGrow | app.js:26-37 | the marks of n steps are those of n − 1 steps plus the last one's |
| Wizard.ActiveCount | app.js:26-37 | exactly one step is active when n names a step, none otherwise |
| Wizard.CompletedCount | app.js:26-37 | min(n − 1, count) steps are completed |
| Wizard.CsvNames | app.js:88 | a name passes the check exactly when it ends in `.csv` |
| Wizard.Page.constructor | app.js:8-10 | the page starts with no session and no results; the screens and step marks start as the page's markup leaves them (welcome only, no step marked) |
| Wizard.Page.SetActiveStep | app.js:26-37 | every step is re-marked: earlier steps completed, step n active, the rest plain |
| Wizard.Page.ShowScreen | app.js:40-56 | every screen is hidden except the named one; an unknown id leaves none visible |
| Wizard.Page.GoTo | app.js:311 | the inline buttons re-mark the steps and show one screen |
| Wizard.Page.ClickStep | app.js:574-594 | step 1 always navigates, step 2 needs a session, steps 3 to 5 need results, anything else changes nothing |
| Wizard.Page.HandleFileUpload | app.js:87-130 | a non-CSV name changes nothing; otherwise step 1 is marked, the welcome screen is shown, and a successful reply's session id is stored |
| Wizard.Page.HandleTrainClick | app.js:163-196 | without a session nothing changes; after a rendered training reply step 3 is marked with the results screen shown; after a failure the welcome screen returns |
| Wizard.TrainedPageNavigates | app.js:574-594 | once trained, a click on step 3, 4 or 5 leaves exactly one step active |
| ScenarioMetrics.HumanKeyWins | app.js:332-337 | a non-null human-readable key is read even when it holds 0 |
| ScenarioMetrics.NormalizeSpellingInvariant | app.js:332-337 | either spelling of the four keys normalises to the same values |
| ScenarioMetrics.NormalizeIdempotent | app.js:332-337 | normalising a normalised scenario changes nothing |
| ScenarioMetrics.NormalizeDefaults | app.js:332-337 | a field both of whose keys are null or absent is 0 |
| ScenarioMetrics.AbsentScenarioIsZero | app.js:339-340 | a missing Baseline or "ML Prediction" entry normalises to all zeros |
| ScenarioMetrics.UnderscoreSpellingIgnored | app.js:340 | a scenario spelled `ML_Prediction` is shown as an all-zero ML scenario |
| ScenarioMetrics.ProfitImprovement | app.js:342-347 | the improvement times the baseline's magnitude is 100 × the profit change; positive exactly when the ML profit is higher; 0 for a zero baseline |
| ScenarioMetrics.WasteReduction | app.js:349-353 | the reduction times the baseline waste is 100 × the waste saved; positive exactly when less is wasted; at most 100 |
| ScenarioMetrics.Compare | app.js:342-353 | the improvement and waste reduction are ProfitImprovement and WasteReduction of the normalised Baseline and "ML Prediction"; baseline profit plus the additional profit of line 414 is the ML profit; with a non-zero baseline the improvement and the additional profit have the same sign |
| ScenarioMetrics.ImprovementAgreesWithAdditionalProfit | app.js:342-347 | with a non-zero baseline, the improvement and the additional profit have the same sign |
| ScenarioMetrics.MixedSpellingExample | app.js:332-353 | a worked example with mixed key spellings gives +150 %, 60 % less waste and 150000 more profit |
| ScenarioMetrics.MaeAdvice | app.js:500 | the label is "trust" below 5, "buffer" from 5 to below 10, and "manual review" from 10 |
| ScenarioMetrics.AdviceMonotone | app.js:500 | a larger MAE never gets a milder label |
| ScenarioMetrics.AdviceListAt | app.js:493-500 | each listed product gets its own label, in order |
| ScenarioMetrics.AdviceRowsAreFirstFive | app.js:493 | the table shows the first min(n, 5) products, in the order received |
| ScenarioMetrics.Names | app.js:458 | the names of the product list, position by position |
| ScenarioMetrics.BestProducts | app.js:458 | the first min(n, 3) product names of the list, in order |
| ScenarioMetrics.WorstProducts | app.js:459 | the last min(n, 3) product names of the list, in order |
| ScenarioMetrics.Normalize | app.js:332-337 | each of the four fields is the human-readable key when it is present and not null, else the snake_case key when that is, else 0 |
| ScenarioMetrics.AccuracyPercent | app.js:264-272 | with a zero total the card shows a non-finite number; otherwise the percentage times the total is 100 × the count |
| ScenarioMetrics.AccuracyPercentInRange | app.js:264-272 | a count not above a positive total gives a percentage in [0, 100] |
| ScenarioMetrics.AccuracyPercentMonotone | app.js:264-272 | nested counts give ordered percentages |
| ScenarioMetrics.RecommendationsThrowWithoutUnderscoreKey | app.js:537 | as written, without an `ML_Prediction` entry the recommendations template throws |
| ScenarioMetrics.ReadReceiver | app.js:558 | a `.toFixed` receiver throws exactly when its scenario or field is absent or null, and otherwise is the field's number |
| ScenarioMetrics.RecommendationsThrowWithoutServiceLevel | app.js:558 | as written, even with an `ML_Prediction` entry, a missing or null service level throws at its `toFixed` |
| ScenarioMetrics.RecommendationsZeroBaselineNotFinite | app.js:537-558 | as written: whenever the `ML_Prediction` entry, Perfect and a service level are present, a zero baseline profit and waste make the potential gain, the profit improvement and the waste reduction all non-finite |
| ScenarioMetrics.AsWrittenAgreesAwayFromZero | app.js:556-559 | as written: with a non-zero baseline profit and waste and a non-empty test set, the profit improvement, waste reduction and annual impact equal the corrected figures |
| ScenarioMetrics.RecommendationFiguresAsWritten | app.js:537-559 | as written: the template throws exactly when Perfect, `ML_Prediction` or Baseline is missing or the service level's `toFixed` receiver throws; otherwise the service level shown is that field |
| ScenarioMetrics.AnnualProjection | app.js:559 | corrected: the projection times the test size is 365 × the profit; an empty test set gives no projection instead of a non-finite one |
| ScenarioMetrics.GapToPerfect | app.js:537 | corrected: Perfect's improvement over the baseline minus the ML scenario's (each with the financial page's zero-baseline guard), present exactly when Perfect is |
| ScenarioMetrics.RecommendationFigures | app.js:537-559 | corrected: the figures equal the financial page's improvement, waste reduction and ML service level |
| BackendCalendar.DaysToEid | backend/main.py:84-90 | days_to_eid is between 0 and 365, no larger than the distance to any Eid ahead, and equal to 365 or to one of those distances |
| BackendCalendar.DaysToEidUnique | backend/main.py:84-90 | those three properties determine days_to_eid |
| BackendCalendar.NearEidBeforeEid | backend/main.py:91 | the seven days before an Eid are near it, and an Eid day is at distance 0 |
| BackendCalendar.RamadanColumn | backend/main.py:73-76 | the folded column is set exactly on the days inside some period |
| BackendCalendar.DaysToEidColumn | backend/main.py:84-90 | the folded column equals DaysToEid row by row |
| BackendCalendar.FlagsFor | backend/main.py:56-98 | year, month and day are the civil date of the day number and quarter is (month − 1) / 3 + 1; weekend is dayofweek ≥ 5; month start is day 1 and month end is a next day of 1; Eid membership; near Eid is ≤ 7 days; holiday is one of the three national (month, day) pairs |
| BackendCalendar.AddCalendarFeatures | backend/main.py:52-106 | every row carries the flags of its date |
| BackendCalendar.NearEidMeansEidWithinAWeek | backend/main.py:84-91 | near_eid holds exactly when some Eid is 0 to 7 days ahead |
| BackendCalendar.EidDayFlags | backend/main.py:79-81 | every Eid day is flagged and is at distance 0 |
| BackendCalendar.WeekendExample | backend/main.py:63 | 1970-01-03 is a weekend day and 1970-01-05 is not |
| BackendSplit.TrainEnd | backend/main.py:113 | train_end is the floor of 0.7 n |
| BackendSplit.ValEnd | backend/main.py:114 | val_end is the floor of 0.85 n |
| BackendSplit.CutPointsOrdered | backend/main.py:113-114 | train_end ≤ val_end ≤ n |
| BackendSplit.SplitProductTimeseries | backend/main.py:107-119 | the parts have the cut sizes, together are a date-sorted permutation of the input, and no row of an earlier part is later than a row of a later part |
| BackendSplit.CutsOrdered | backend/main.py:116-118 | cutting a date-sorted list keeps the parts in date order |
| BackendSplit.PartsNonEmpty | backend/main.py:113-118 | one row gives a test row, and two rows give a training row |
| BackendSplit.TwentyRows | backend/main.py:113-118 | 20 rows split 14/3/3 |
| BackendFeatures.LagColumns | backend/main.py:136-137 | sold_lag{k} is the value k rows back, and is missing exactly on the first k rows |
| BackendFeatures.LagsAtAsWritten | backend/main.py:132-148 | as written: row i gets each lag, the shifted rolling mean, max and min of each window, and the trend s[i] − s[i − 7], present from row 7 |
| BackendFeatures.LagsAt | backend/main.py:148 | corrected: every feature of the as-written row except the trend, which is the as-written trend of the previous row (missing on row 0) |
| BackendFeatures.CausalTrend | backend/main.py:148 | corrected: the trend is the weekly change up to the previous row, missing on the first 8 rows |
| BackendFeatures.LagsAtIsCausal | backend/main.py:132-150 | corrected: every feature of row i depends only on the rows before i |
| BackendFeatures.TrendLeaksTarget | backend/main.py:148 | as written: two series that agree before row 7 get different features at row 7 |
| BackendFeatures.ByDate | backend/main.py:128-130 | the per-product `sort_values('date')` is a date-sorted permutation |
| BackendFeatures.AddLags | backend/main.py:132-150 | as written: each row keeps its data and gets the lags, shifted rolling statistics and unshifted `diff(7)` trend of its position in the series |
| BackendFeatures.CausalAddLags | backend/main.py:132-150 | corrected: each row keeps its data and gets the features of its position with the trend shifted like the rest |
| BackendFeatures.RowsOf | backend/main.py:128 | the product mask keeps exactly the rows of that product |
| BackendFeatures.CreateLagFeaturesPerProduct | backend/main.py:122-166 | as written: the three lists are the per-product results, collected over the training part's products in `unique()` order |
| BackendFeatures.CreateLagFeaturesKeepsRows | backend/main.py:122-166 | when each trained product's parts are in date order, the training list holds exactly the training rows, and the validation and test lists exactly the rows of products seen in training, each as often as in the input |
| BackendFeatures.ProductLaggedInOrder | backend/main.py:152-160 | when a product's training rows are no later than its validation rows, and those no later than its test rows, validation row j gets the features of position (training count + j) of the joined training-and-validation series, and test row j those of its position in the whole series |
| BackendFeatures.LaggedPartsInOrder | backend/main.py:152-160 | parts already sorted and in date order are lagged as one joined series: sorting the concatenations changes nothing |
| BackendFeatures.ValidationFeaturesUseOnlyThePast | backend/main.py:154-155 | corrected: with the shifted trend, a validation row's features do not depend on its own sales or on any later row |
| BackendFeatures.ValidationTrendSeesOwnSales | backend/main.py:148 | as written: the first validation row after seven zero-sales training days gets trend 0 or 5 depending only on its own sales |
| BackendFeatures.UnseenProductsDropped | backend/main.py:126 | validation and test rows of a product with no training rows are dropped |
| BackendFeatures.CollectProducts | backend/main.py:126-164 | the collected rows belong to the visited products |
| BackendFeatures.ProductLaggedRows | backend/main.py:156-160 | each product's output rows are that product's |
| BackendFinance.Ceil | backend/main.py:174 | `np.ceil` is the smallest integer not below x |
| BackendFinance.HistoricalAverageAt | backend/main.py:173-174 | the baseline quantity is the ceiling of the row's product mean sales over the test rows (which include the row), hence non-negative on non-negative sales |
| BackendFinance.ProducedSim | backend/main.py:172-178 | one quantity per test row: the historical-average ceiling for Baseline, the demand itself for Perfect, and the given plan otherwise |
| BackendFinance.LossesNonNegative | backend/main.py:181-183 | summed waste and stockouts are never negative |
| BackendFinance.CalculateFinancialScenario | backend/main.py:168-201 | profit is revenue less production and opportunity cost; waste and stockouts are non-negative; with no stockout the service level is 100 |
| BackendFinance.SimulateRow | backend/main.py:181-189 | units sold are the smaller of production and demand; waste and stockout are non-negative and never both positive; sold + waste is production, and sold + stockout is demand |
| BackendFinance.ServiceLevel | backend/main.py:200 | 100 with no positive demand; 100 exactly when nothing is missed; in [0, 100] otherwise |
| BackendFinance.UnitsBalance | backend/main.py:181-183 | over the test set, sold + wasted units equal the units produced, and sold + stockouts equal demand |
| BackendFinance.ProfitIdentity | backend/main.py:185-197 | total profit is revenue less production and opportunity cost |
| BackendFinance.StockoutsWithinDemand | backend/main.py:183 | non-negative production never misses more than the demand |
| BackendFinance.ServiceLevelInRange | backend/main.py:200 | the reported service level is a percentage |
| BackendFinance.PerfectScenario | backend/main.py:175-176 | Perfect wastes nothing, misses nothing and serves 100 % |
| BackendFinance.RowProfitAtMostPerfect | backend/main.py:181-190 | on one row with 0 ≤ cost ≤ price, producing the demand earns the most |
| BackendFinance.PerfectDominatesTotals | backend/main.py:181-190 | summed over the rows, no plan earns more than producing the demand |
| BackendFinance.PerfectMaximisesProfit | backend/main.py:401-403 | no strategy's total profit exceeds the Perfect scenario's |
| BackendFinance.MlPlan | backend/main.py:402 | the ML plan is the ceiling of the clamped prediction, row by row |
| BackendFinance.Scenarios | backend/main.py:400-403 | the scenarios are exactly Baseline, "ML Prediction" and Perfect |
| BackendFinance.AsJson | backend/main.py:192-201 | the serialised record has the snake_case keys and none of the human-readable ones |
| BackendUpload.Groups | backend/main.py:223-230 | one group per key present, each non-empty |
| BackendUpload.GroupsAreGroupSums | backend/main.py:223-230 | a key has a group exactly when some row carries it, and the group is the fold of those rows |
| BackendUpload.FoldMeanOfConstant | backend/main.py:227 | the mean of a constant price is that price |
| BackendUpload.Finish | backend/main.py:223-230 | sums are the group's, and the mean price and cost times the count are the group's sums |
| BackendUpload.DailyOfUniformGroup | backend/main.py:223-230 | a group with one price keeps it, and its quantities are the group's totals |
| BackendUpload.Stats | backend/main.py:242-253 | nothing for an empty upload; otherwise the record count is the number of groups, start and end are the least and greatest dates of the upload (each attained by a row and bracketing every row), days is their difference, and the names are the sorted distinct products |
| BackendTraining.FirstMinimum | backend/main.py:378 | the index of the smallest MAE, the first such when there is a tie |
| BackendTraining.BestModelName | backend/main.py:378 | the name of a model with the least MAE, preceded only by models with a larger one |
| BackendTraining.TieGoesToFirstModel | backend/main.py:349-378 | a three-way tie goes to XGBoost |
| BackendTraining.AbsError | backend/main.py:385 | the absolute error is non-negative and zero exactly on a perfect forecast |
| BackendTraining.Within | backend/main.py:421-423 | a row with no sales is never within tolerance; otherwise it is exactly when the absolute error is at most pct % of the sales |
| BackendTraining.CountWithin | backend/main.py:421-423 | the count never exceeds the test size |
| BackendTraining.CountWithinMonotone | backend/main.py:421-423 | a wider tolerance never counts fewer rows |
| BackendTraining.Breakdown | backend/main.py:420-425 | within 5 % ≤ within 10 % ≤ within 20 % ≤ total, and total is the test size |
| BackendTraining.ZeroSalesNeverWithin | backend/main.py:421-423 | rows with no sales never count as accurate |
| BackendTraining.Summary | backend/main.py:444-450 | an entry names its product and counts its rows |
| BackendTraining.SummaryMeans | backend/main.py:446-450 | an entry's average sales, average forecast and MAE, each times the row count, are the totals of the product's sold values, predictions and absolute errors |
| BackendTraining.ProductPerformance | backend/main.py:442-452 | one entry per test-set product, in strictly ascending name order, each equal to that product's Summary (row count, means and MAE of its rows) |
| BackendTraining.ProductMaeNonNegative | backend/main.py:450 | a product's MAE is never negative |
| BackendTraining.TopFeatures | backend/main.py:469-472 | min(15, n) pairs, largest importance first, drawn from the inputs, none smaller than a pair left out; a length mismatch fails |
| BackendTraining.TopOfSorted | backend/main.py:472 | the first m pairs of a list sorted largest first keep that order, are drawn from the inputs, and are no smaller than any pair left out |
| PipelineCalendar.DefineExternalVariables | backend/umkm_python_code.py:65-101 | the fixed Ramadan and Eid lists, and 15 holidays: 1 January, 17 August and 25 December of each year 2021 to 2025 |
| PipelineCalendar.IsInRamadan | backend/umkm_python_code.py:103-108 | true exactly when some period contains the day |
| PipelineCalendar.ClosureOffset | backend/umkm_python_code.py:116-120 | every offset lies 5 to 7 days before an Eid or 1 to 7 days after it |
| PipelineCalendar.CalculateClosureDays | backend/umkm_python_code.py:110-121 | ten dates per Eid, in loop order |
| PipelineCalendar.ClosureMembership | backend/umkm_python_code.py:110-121 | a day is listed exactly when it is 5 to 7 days before or 1 to 7 days after some Eid |
| PipelineCalendar.DayOfWeekFromOne | backend/umkm_python_code.py:170 | day_of_week is 1 to 7, and 7 exactly on Sunday |
| PipelineCalendar.SundayRule | backend/umkm_python_code.py:193-198 | a Sunday outside Ramadan is closed; a Ramadan Sunday that is no closure day or holiday is open |
| PipelineCalendar.WeekdaysOpen | backend/umkm_python_code.py:194-198 | a weekday that is no closure day or holiday is open |
| PipelineCalendar.EidDaysAreOpen | backend/umkm_python_code.py:188-190 | the Eid days themselves are never closure days |
| PipelineCalendar.ClosureOfJoinedLists | backend/umkm_python_code.py:188-190 | the Fitr list followed by the Adha list is the closure list of both Eid lists |
| PipelinePreprocess.LookupFinds | backend/umkm_python_code.py:163 | a record is found exactly when one carries the key, and its values are returned |
| PipelinePreprocess.Block | backend/umkm_python_code.py:158-163 | one row per product for a day, carrying that key's values |
| PipelinePreprocess.CompleteGrid | backend/umkm_python_code.py:152-163 | an empty frame fails; otherwise the grid spans the first to the last date times the products in order of appearance |
| PipelinePreprocess.GridHasEachPairOnce | backend/umkm_python_code.py:158-163 | each (date, product) of the range appears exactly once, and no other pair appears |
| PipelinePreprocess.Grid | backend/umkm_python_code.py:158-163 | the full date × product grid has days × products rows |
| PipelinePreprocess.GridRowsInRange | backend/umkm_python_code.py:158-163 | each row lies in the range, belongs to a listed product and carries its key's values |
| PipelinePreprocess.GridValues | backend/umkm_python_code.py:163 | a recorded pair keeps its values; a missing one is all zeros |
| PipelinePreprocess.FlagsOf | backend/umkm_python_code.py:170-198 | is_sunday is day_of_week 7, and is_closed is the closure rule |
| PipelinePreprocess.AddExternalVariables | backend/umkm_python_code.py:166-198 | each grid row gets the flags of its date |
| PipelineFeatures.SortByProductDateCorrect | backend/umkm_python_code.py:215 | the sort is a permutation, ordered by product name and then date |
| PipelineFeatures.ProductBlockCorrect | backend/umkm_python_code.py:215 | a product's block is its rows sorted by date |
| PipelineFeatures.MaskIsProductBlock | backend/umkm_python_code.py:227 | the mask of product p in the sorted frame is p's rows in date order |
| PipelineFeatures.RowsOfCount | backend/umkm_python_code.py:227 | the mask keeps every copy of a row of p and nothing else |
| PipelineFeatures.RowsOfMembers | backend/umkm_python_code.py:227 | every masked row is of product p |
| PipelineFeatures.RankInMask | backend/umkm_python_code.py:226-241 | row i is at its rank within its product's mask |
| PipelineFeatures.AssignProduct | backend/umkm_python_code.py:227-240 | after the pass for p, p's rows carry their columns and rows of unvisited products stay unassigned |
| PipelineFeatures.CreateFeatures | backend/umkm_python_code.py:209-250 | the output is the sorted frame, each row with the lag and rolling columns of its mask position, NaN filled with 0 |
| PipelineFeatures.LagFeatures | backend/umkm_python_code.py:230-236 | each lag is the sold or produced value k rows back in the product's date order, or 0 on its first k rows |
| PipelineFeatures.RollingFeatures | backend/umkm_python_code.py:239-240 | the rolling means average the product's sales on the 7 and 14 rows before, never the row itself; 0 on its first row |
| PipelineSplit.DefaultThresholds | backend/umkm_python_code.py:256 | the defaults are 2025-03-31 and 2025-06-30 |
| PipelineSplit.SplitData | backend/umkm_python_code.py:256-264 | training rows are dated up to train_end, validation rows after it up to val_end, test rows after val_end, each drawn from the frame |
| PipelineSplit.WhereCount | backend/umkm_python_code.py:262-264 | a date mask keeps every copy of a passing row and none of the others |
| PipelineSplit.SplitDataPartition | backend/umkm_python_code.py:262-264 | with ordered thresholds the three parts together are a permutation of the frame |
| PipelineSplit.SplitDataPlaces | backend/umkm_python_code.py:262-264 | a row is in a part exactly when it is in the frame and its date is in that part's range |
| PipelineSplit.WhereKeepsOrder | backend/umkm_python_code.py:262-264 | each part keeps frame order |
| PipelineSplit.ReversedThresholdsOverlap | backend/umkm_python_code.py:262-264 | with the thresholds reversed, a row between them lands in both training and test |
| PipelineEvaluate.ClampAll | backend/umkm_python_code.py:376 | each prediction is clamped at zero |
| PipelineEvaluate.ClampNeverFartherOff | backend/umkm_python_code.py:376 | against non-negative sales a clamped prediction is never farther off, and strictly closer when it was negative |
| PipelineEvaluate.ClampNeverRaisesTotalError | backend/umkm_python_code.py:376-379 | the clamp never raises the summed absolute error |
| PipelineEvaluate.ClampNeverRaisesMeanError | backend/umkm_python_code.py:376-379 | the clamp never raises the MAE |
| PipelineEvaluate.ClampKeepsNonNegative | backend/umkm_python_code.py:376 | non-negative predictions pass through unchanged |
| EndToEnd.Response | backend/main.py:400-403 | the response names the three scenarios |
| EndToEnd.FinancialPageShowsBackendTotals | app.js:339-340 | the financial page shows the backend's Baseline and ML totals |
| EndToEnd.RecommendationsNeverRender | app.js:537 | as written, the recommendations page throws on every response the backend sends |
| EndToEnd.CorrectedRecommendations | app.js:537-559 | corrected: for a non-empty test set with prices covering costs, the figures exist and the gain from perfect forecasting is never negative |
| EndToEnd.PageList | app.js:458-459 | the page's product list keeps the names and MAEs in order |
| EndToEnd.BestAndWorstByName | app.js:458-459 | the "best" three are the alphabetically first and the "worst" three the alphabetically last, whatever their errors |
| EndToEnd.SlicesOfSortedList | app.js:458-459 | slices of a strictly name-sorted list are its first and last names |

## Left out

- Input/output: HTTP, `fetch`, sessions, file reading, CSV parsing, `print`, the
  EDA and plotting code, and the timestamp session id. The backend's and the
  pipeline's dates arrive already parsed as day numbers.
- Model fitting and prediction: XGBoost, random forest, gradient boosting and
  SARIMA are foreign code. Their predictions are parameters.
- Floating point: real arithmetic is exact. Sums never meet NaN. The 0.70/0.85
  cut points are the exact floors of 7n/10 and 17n/20, not IEEE products.
- The sine and cosine encodings, the ISO week number and `dayofyear`: they have
  no property worth proving beyond their formula.
- The median imputation of the backend and the final `dropna`.
- RMSE, R², MAPE: no property is proved about them.
- DOM rendering: HTML templates, number formatting with `toFixed` and
  `toLocaleString`, charts, alerts and drag-and-drop.
- `umkm_forecasting.tsx` and `config.example.js` are not part of this model.
- The pipeline's `preprocess_data` aggregation (lines 139-146) is modelled only
  through `Lookup`, which takes the first record with a key. The group-by itself
  is modelled on the backend side (BackendUpload).
- The backend's upload output row order: the group-by is modelled as a map
  keyed by (date, product).
- pandas' sorts are modelled as stable sorts; the source's default sort is not
  guaranteed stable on ties.
- Calendar.CivilFromDays: the round trip with DaysFromCivil is not proved in
  general, only used on the dates the model needs.
- BackendFeatures.LagsAt: the rolling standard deviations and the exponential
  means (`ewm`) of add_lags are not modelled.
- PipelineFeatures.CreateFeatures: `rolling_std_7` and `week_of_year` are not
  modelled. The day, month and quarter columns are computed, but no property is
  proved about them.
- PipelineFeatures.CreateFeatures: the frame is sorted by product and then date.
  Each product's rows are one block of the result, which is exactly the order
  pandas' lexicographic sort gives.
- BackendTraining.ProductPerformance: the per-product MAPE column is not
  modelled.
- BackendUpload.Stats: `sales_stats` and the session id are left out.
- Wizard.Page.HandleTrainClick: what the render functions write into the page
  is left out. Only whether the synchronous ones (displayModelStatus,
  displayResults, displayFinancialAnalysis) completed matters.
  displayRecommendations is `async` (app.js:445) and is called without `await`
  (app.js:187), so its TypeError rejects a promise nobody awaits: it never
  reaches the handler's `catch`, and the page still moves to step 3 and the
  results screen.
- Wizard.Page.constructor: the page's markup is not part of this model. The
  initial screens (welcome visible, the other four hidden) and the unmarked
  steps are assumed; app.js:8-10 only sets the three globals to null.
- BackendFeatures.UnseenProductsDropped: inside the train endpoint, a product
  with validation or test rows but no training rows never reaches
  create_lag_features_per_product. The label encoder fitted on the training
  products (backend/main.py:294-298) raises first, and the request fails. The
  encoder is not modelled. With an empty training part the model returns three
  empty lists, where `pd.concat([])` (backend/main.py:166) raises ValueError;
  that case is unreachable for the same reason.
- Wizard.Page.HandleFileUpload: the success banner and the dataset-info panel
  are left out.

## Findings

| source | as written | input that shows it | evidently intended | confidence | as-written member | corrected member |
|---|---|---|---|---|---|---|
| app.js:537, app.js:556-559 | The recommendations template reads `results.financial_scenarios.ML_Prediction.total_profit`. The backend names that scenario `'ML Prediction'` (backend/main.py:402), so the read throws a TypeError and the recommendations page is never filled. | any training response, e.g. one test row with sold 1, price 2, cost 1 | read `financial_scenarios["ML Prediction"]`, as the financial page does; the corrected figures also take the financial page's zero-baseline guard (app.js:342-347) and give no annual projection for an empty test set, where the template as written divides by zero | not executed | EndToEnd.RecommendationsNeverRender | EndToEnd.CorrectedRecommendations |
| backend/main.py:148 | `sold_trend = series.diff(7)` subtracts from the row's own `sold`, so the feature leaks the target it is trained to predict. The docstring at line 123 promises causal features, and every other feature is shifted by one. | the series 0,0,0,0,0,0,0,0 and 0,0,0,0,0,0,0,5 agree before row 7 but get different features at row 7 | `series.shift(1).diff(7)` | not executed | BackendFeatures.TrendLeaksTarget | BackendFeatures.LagsAtIsCausal |
