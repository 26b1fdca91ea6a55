# Fraud feature transformation, modelled in Dafny

The repository's only computation is one BigQuery statement. It rebuilds the table
`financial_transactions_clean` from `financial_transactions_raw`. It drops every row whose
`amount` is NULL and emits one enriched row per surviving row. Each enriched row carries:

- calendar columns (day name, night / weekend flags, hour band, week part, week of month,
  end of month);
- categorical bins (amount band, device category, merchant group, location risk tier);
- 0/1 indicator flags for the payment channel and the device;
- risk scores (`riesgo_transaccion`, `risk_signals_count`, `channel_device_risk`,
  `transaction_risk_score`, `amount_zscore`, `amount_per_time`);
- four window aggregates over sibling rows: `account_age_days` (MIN over the account),
  `daily_device_volume` (COUNT over device and date), `sender_tx_last_hour` (a running COUNT over
  a 101-row frame of the account ordered by timestamp) and `daily_amount_rank` (RANK by amount
  descending within the date).

The model is made of functions and lemmas, like the query itself:

- `rows.dfy` (module `Rows`): the raw row, the surviving row, the `WHERE amount IS NOT NULL`
  filter, and DATE / HOUR / DAYOFWEEK derived from a UTC timestamp held in microseconds.
- `rules.dfy` (module `Rules`): every per-row CASE table, flag and score.
- `windows.dfy` (module `Windows`): the four window aggregates as functions of the whole
  filtered sequence and a row index. Partition, order and frame are written out.
- `pipeline.dfy` (module `Pipeline`): the enriched record, the SELECT list for one row,
  the whole statement, properties of its output, and two worked scenarios.

`Pipeline.Transform` is a function of the raw table alone. Two runs on the same raw table
therefore give the same enriched table: no state is carried from one run to the next.

The ORDER BY of the `ROWS` frame leaves equal timestamps in an order the engine chooses. The
frame functions of `Windows` take that choice as a parameter, a tie rank per row
(`Windows.TieOrder`), and every frame lemma holds for every such choice. `Pipeline.EnrichAt`
fixes the input order (`Windows.InputOrder`). `Windows.PositionBounds` shows that under any tie
order the position lies between the number of strictly earlier rows of the account and the
number of rows not later than it, less one, and that it does not depend on the tie order when
the timestamp is unique in the account.

## Model

| member | source | states |
|---|---|---|
| Rows.Date | fraude_pipeline_dag.py:165 | DATE of a timestamp is the day number d with d days ≤ ts < d+1 days (UTC) |
| Rows.DateUnique | fraude_pipeline_dag.py:165 | that day number is unique |
| Rows.DateMonotone | fraude_pipeline_dag.py:164-166 | DATE is monotone, so DATE(MIN(ts)) is the earliest DATE |
| Rows.Hour | fraude_pipeline_dag.py:41 | EXTRACT(HOUR) lies in 0..23 and is the hour of the day that contains ts |
| Rows.DayOfWeek | fraude_pipeline_dag.py:40 | EXTRACT(DAYOFWEEK) lies in 1..7 |
| Rows.DayOfWeekNextDay | fraude_pipeline_dag.py:40 | one day later moves to the next day of the week, wrapping Saturday to Sunday |
| Rows.DayOfWeekAnchors | fraude_pipeline_dag.py:40-41 | 1970-01-01 is a Thursday (5); day 3 is a Sunday (1) |
| Rows.Survivors | fraude_pipeline_dag.py:189-190 | every raw row with a non-null amount is kept, as its surviving row, and every kept row comes from a raw row |
| Rows.NonNullCount | fraude_pipeline_dag.py:190 | the number of raw rows with a non-null amount, at most the table size |
| Rows.SurvivorsCount | fraude_pipeline_dag.py:189-190 | the filter emits exactly as many rows as there are raw rows with a non-null amount |
| Rows.SurvivorsMultiset | fraude_pipeline_dag.py:189-190 | each surviving row occurs exactly as often as its raw row: no duplicates, and no row with a NULL amount |
| Rows.SurvivorsAppend | fraude_pipeline_dag.py:189-190 | the filter keeps input order: filtering a concatenation concatenates the filtered parts |
| Rows.SurvivorsSnoc | fraude_pipeline_dag.py:190 | appending a row extends the filtered table by it iff its amount is not NULL |
| Rules.Indicator | fraude_pipeline_dag.py:53-55 | `CASE WHEN c THEN 1 ELSE 0`: 0 or 1, and 1 iff c holds |
| Rules.DayName | fraude_pipeline_dag.py:43-51 | 1..7 map to Domingo..Sábado; any other value gives NULL (the CASE has no ELSE) |
| Rules.DayNameInjective | fraude_pipeline_dag.py:43-51 | different days get different names |
| Rules.IsNight | fraude_pipeline_dag.py:53 | 1 iff hour in 0..6 inclusive, else 0 |
| Rules.IsWeekend | fraude_pipeline_dag.py:54 | 1 iff day of week is 1 or 7 |
| Rules.FraudNum | fraude_pipeline_dag.py:55 | 1 iff the label is TRUE; FALSE and NULL give 0 |
| Rules.HourBin | fraude_pipeline_dag.py:110-117 | each of the six labels holds exactly on its hour band; Medianoche covers everything outside 0..21 |
| Rules.NightVersusHourBin | fraude_pipeline_dag.py:110-117 | is_night is Madrugada plus hour 6; hour 6 is night yet in Mañana |
| Rules.WeekPart | fraude_pipeline_dag.py:119-122 | Fin de Semana iff is_weekend is 1, else Entre Semana |
| Rules.WeekOfMonth | fraude_pipeline_dag.py:133 | CEIL(day/7): 7(r-1) < day ≤ 7r; days 1..31 give 1..5 |
| Rules.IsEndOfMonth | fraude_pipeline_dag.py:134 | 1 iff day ≥ 28 |
| Rules.AmountBin | fraude_pipeline_dag.py:69-74 | exactly four bands: <50, [50,200), [200,1000), ≥1000 (labelled >1000), each as an iff |
| Rules.AmountBinMonotone | fraude_pipeline_dag.py:69-74 | a larger amount never lands in a lower band |
| Rules.DeviceTypeCategory | fraude_pipeline_dag.py:76-80 | Mobile iff mobile, Web iff web, Physical for every other device |
| Rules.MerchantCategoryGroup | fraude_pipeline_dag.py:82-86 | Digital iff online/travel, Hibrido iff entertainment/retail, else Tradicional |
| Rules.LowerChar | fraude_pipeline_dag.py:60 | LOWER maps A-Z to a-z and keeps every other character |
| Rules.Lower | fraude_pipeline_dag.py:60 | LOWER(location) keeps the length and lower-cases each character |
| Rules.LowerIdempotent | fraude_pipeline_dag.py:60 | lower-casing twice equals lower-casing once |
| Rules.LocationRiskLevel | fraude_pipeline_dag.py:147-151 | Alta iff the lower-cased location is new york/singapore/tokyo, Media iff dubai/berlin/toronto, else Baja |
| Rules.LocationRiskCaseInsensitive | fraude_pipeline_dag.py:147-151 | the level ignores letter case |
| Rules.LocationRiskExample | fraude_pipeline_dag.py:147-151 | "New York" is Alta and "BERLIN" is Media |
| Rules.Flag | fraude_pipeline_dag.py:124-130 | each payment and device indicator is 1 iff its column equals the named value, else 0 |
| Rules.PaymentFlagsOneHot | fraude_pipeline_dag.py:124-127 | at most one payment flag is set, and one is set iff the channel is one of the four |
| Rules.DeviceFlagsOneHot | fraude_pipeline_dag.py:128-130 | device flags are one-hot over pos/web/mobile and agree with device_type_category |
| Rules.CoreSignalSum | fraude_pipeline_dag.py:88-98 | the three-signal sum is in 0..3; 3 iff all hold, 0 iff none holds |
| Rules.RiesgoTransaccion | fraude_pipeline_dag.py:88-100 | ALTO iff amount > 538.40, device web and hour 0..6; MEDIO iff exactly two hold; BAJO iff at most one |
| Rules.GeoSignal | fraude_pipeline_dag.py:140 | 1 iff a non-null geo score exceeds 0.7; a NULL score gives 0 |
| Rules.RiskSignalsCount | fraude_pipeline_dag.py:136-141 | in 0..4; the three-signal sum plus 1 iff geo > 0.7; 4 iff ALTO and the geo signal |
| Rules.Coalesce | fraude_pipeline_dag.py:105-107 | COALESCE(x, 0) is x when present, else 0 |
| Rules.TransactionRiskScore | fraude_pipeline_dag.py:104-108 | 0 when all three scores are NULL; the plain sum when all are present; never negative for non-negative scores |
| Rules.TransactionRiskScoreAdditive | fraude_pipeline_dag.py:104-108 | the score is never NULL; geo, velocity and deviation each add exactly their value when present, and a NULL score adds 0 |
| Rules.AmountZscore | fraude_pipeline_dag.py:143 | (amount-500)/600, inverted by amount = 500 + 600z; zero iff amount is 500 |
| Rules.AmountZscoreMonotone | fraude_pipeline_dag.py:143 | the z-score preserves strict order |
| Rules.SafeDivide | fraude_pipeline_dag.py:145 | NULL iff an operand is NULL or the divisor is 0; otherwise quotient × divisor = dividend |
| Rules.AmountPerTime | fraude_pipeline_dag.py:145 | NULL iff time_since_last_transaction is NULL or 0, whatever the amount |
| Rules.ChannelWeight | fraude_pipeline_dag.py:154-157 | wire_transfer 2, upi 1, other 0, written through the channel flags |
| Rules.DeviceWeight | fraude_pipeline_dag.py:158-161 | web 2, mobile 1, other 0, written through the device flags |
| Rules.ChannelDeviceRisk | fraude_pipeline_dag.py:153-162 | in 0..4; 4 iff wire_transfer on web; 0 iff neither weighted channel nor weighted device |
| Windows.MinTs | fraude_pipeline_dag.py:166 | MIN(ts) over an account: NULL iff the account has no row, else attained by a row and ≤ every row's ts |
| Windows.AccountAgeDays | fraude_pipeline_dag.py:164-168 | DATE_DIFF to the account's first date is never negative |
| Windows.MinTsDateIsMinDay | fraude_pipeline_dag.py:164-168 | DATE(MIN(ts)) is the earliest DATE among the account's rows |
| Windows.AccountAgeZeroIffEarliestDay | fraude_pipeline_dag.py:164-168 | age is 0 iff the row is on the account's earliest date |
| Windows.AccountAgeMonotone | fraude_pipeline_dag.py:164-168 | within an account, a later timestamp never has a smaller age |
| Windows.AccountAgeZeroForEarliest | fraude_pipeline_dag.py:164-168 | the account's chronologically first row has age 0 |
| Windows.AccountHasAgeZero | fraude_pipeline_dag.py:164-168 | every account with rows has a row of age 0 |
| Windows.DeviceDayCount | fraude_pipeline_dag.py:170-172 | the partition count never exceeds the table size |
| Windows.DeviceDayCountIsCohortSize | fraude_pipeline_dag.py:170-172 | the count equals the number of rows sharing (device, date) |
| Windows.DailyDeviceVolume | fraude_pipeline_dag.py:170-172 | in 1..table size and equal to the size of the row's (device, date) cohort |
| Windows.DailyDeviceVolumeShared | fraude_pipeline_dag.py:170-172 | every member of a cohort gets the same volume |
| Windows.VolumeCountsSurvivors | fraude_pipeline_dag.py:170-190 | the volume counts the raw rows of the cohort that have a non-null amount, since the window runs after the filter |
| Windows.InputOrder | fraude_pipeline_dag.py:176 | the tie order that takes equal timestamps in input order is a valid tie order |
| Windows.Before | fraude_pipeline_dag.py:175-176 | ORDER BY timestamp within the account: a preceding row is another row of the same account with a timestamp no later |
| Windows.Position | fraude_pipeline_dag.py:175-177 | a row's 0-based place in its ordered account partition is below the table size |
| Windows.Frame | fraude_pipeline_dag.py:174-178 | ROWS BETWEEN 100 PRECEDING AND CURRENT ROW holds the row itself and only rows of its account |
| Windows.BeforeTransitive | fraude_pipeline_dag.py:175-177 | the partition order (timestamp, then the tie order) is transitive, for every tie order |
| Windows.PositionStrict | fraude_pipeline_dag.py:175-177 | a preceding row has a strictly smaller position |
| Windows.PositionInjective | fraude_pipeline_dag.py:175-177 | distinct rows of an account have distinct positions |
| Windows.PositionsCard | fraude_pipeline_dag.py:175-177 | positions are one-to-one on any set of one account's rows |
| Windows.PredecessorPositions | fraude_pipeline_dag.py:175-177 | the rows before a row at position k occupy exactly positions 0..k-1 |
| Windows.FramePositions | fraude_pipeline_dag.py:174-178 | for every tie order, the frame of the row at position k holds exactly positions max(0,k-100)..k |
| Windows.SenderTxLastHour | fraude_pipeline_dag.py:174-178 | for every tie order, the frame count is min(k+1, 101) for the row at position k, so it lies in 1..101 |
| Windows.PositionBounds | fraude_pipeline_dag.py:176-177 | for every tie order the position lies between the strictly-earlier count and the not-later count less one; with a unique timestamp it equals the strictly-earlier count |
| Windows.SenderTxLastHourFirst | fraude_pipeline_dag.py:174-178 | a row earlier than all others of its account, including a singleton account, gets 1 under every tie order |
| Windows.CountAbove | fraude_pipeline_dag.py:182-183 | the same-date rows with a larger amount are no more than the date's rows |
| Windows.CountTied | fraude_pipeline_dag.py:182-183 | the same-date peers of an amount are no more than the date's rows |
| Windows.DayCount | fraude_pipeline_dag.py:180-181 | the RANK partition of a date is no larger than the table |
| Windows.CountAboveZero | fraude_pipeline_dag.py:180-183 | no row of the date is above a iff the count above a is 0 |
| Windows.CountTiedMember | fraude_pipeline_dag.py:180-183 | a row is among its own peers |
| Windows.CountsWithinDay | fraude_pipeline_dag.py:180-183 | rows above plus rows tied fit in the date's partition |
| Windows.CountAboveSplit | fraude_pipeline_dag.py:180-183 | below a, the rows above b include those above a and those tied at a, with equality when nothing lies between |
| Windows.DailyAmountRank | fraude_pipeline_dag.py:180-183 | RANK is 1 + the number of same-date rows with a larger amount, and lies in 1..rows of the date |
| Windows.RankOneIffDayMaximum | fraude_pipeline_dag.py:180-183 | rank 1 iff the row holds the date's maximum amount |
| Windows.RankCompetition | fraude_pipeline_dag.py:180-183 | a larger amount ranks strictly better by at least its peer count; the next distinct amount skips exactly that many |
| Windows.RankTiesShare | fraude_pipeline_dag.py:180-183 | tied amounts on one date share their rank |
| Windows.DayMaximum | fraude_pipeline_dag.py:180-183 | finds a row of the date whose amount is ≥ every amount of that date |
| Windows.DayHasRankOne | fraude_pipeline_dag.py:180-183 | every date with rows has a row of rank 1 |
| Pipeline.EnrichAt | fraude_pipeline_dag.py:34-188 | the SELECT list for one row keeps id, timestamp and amount; hour, weekday and day name are defined; windows stay in range |
| Pipeline.Transform | fraude_pipeline_dag.py:32-191 | one output row per surviving row, as many as raw rows with a non-null amount, each carrying the amount of its raw row |
| Pipeline.OutputRanges | fraude_pipeline_dag.py:43-183 | every categorical column takes a listed value and every count stays in its range, for every output row |
| Pipeline.OutputRiskSignalsAgree | fraude_pipeline_dag.py:88-141 | riesgo_transaccion and risk_signals_count agree: ALTO ⇒ ≥3, MEDIO ⇒ 2..3, BAJO ⇒ ≤2; 4 iff ALTO with geo > 0.7 |
| Pipeline.OutputAccountAgeZero | fraude_pipeline_dag.py:164-168 | every account in the output has a row with account_age_days 0 |
| Pipeline.ScenarioSundayNightMobile | fraude_pipeline_dag.py:43-183 | 40.00, mobile, upi, 02:00 on a Sunday: <50, night, weekend, Mobile, Domingo; singleton windows give 0, 1, 1, 1 |
| Pipeline.ScenarioAllSignals | fraude_pipeline_dag.py:88-145 | 1500.00, web, 03:00, geo 0.9: ALTO, four signals, and a 0 time gap makes amount_per_time NULL |

## Left out

- The Airflow DAG, the CSV load from the bucket and the job submission (fraude_pipeline_dag.py:1-30, 193-205) are orchestration over external services.
- Parsing the timestamp string is left out. The timestamp is an integer count of microseconds since 1970-01-01 UTC, which is what TIMESTAMP(...) produces. A string that does not parse makes the query fail; that error path is not modelled.
- EXTRACT of YEAR, MONTH, DAY and QUARTER needs the civil calendar, so these come in as given fields of the row. DATE, HOUR and DAYOFWEEK are derived exactly in UTC, BigQuery's default zone.
- SAFE_CAST of the four score strings to FLOAT64 is left out. The scores arrive already cast, with None standing for NULL or a failed cast.
- log_amount and velocity_amount_ratio (fraude_pipeline_dag.py:102, 185-188) need a natural logarithm, which the model does not have.
- Amounts and scores are exact reals, not FLOAT64. Rounding in transaction_risk_score, amount_zscore and amount_per_time is not modelled, and neither is a literal 538.40 that is not exactly representable.
- LOWER folds ASCII letters only. BigQuery's Unicode case mapping of other letters is not modelled.
- The output table is unordered in SQL. The model lists output rows in input order, and properties are stated per row.
- Pipeline.EnrichAt: equal timestamps in the account frame are taken in input order. The frame lemmas of `Windows` hold for every tie order, but the enriched table is computed for this one.
- Rules.WeekOfMonth: CEIL(EXTRACT(DAY ...) / 7) is a FLOAT64 in BigQuery, because `/` on INT64 gives FLOAT64. The model returns the same whole number as an int.
- String columns (location, device_used, sender_account and the others) cannot be NULL in the model. In BigQuery LOWER(NULL) would give a NULL location, and NULL device_used or sender_account values would form a partition of their own.
- Whole-table replacement (CREATE OR REPLACE) is the store's job. The model is the function from the raw table to the new table.
