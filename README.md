# Prognos trading pipeline — a Dafny model of its decision core

The pipeline has three services and a web backend. The services talk over a
message bus and share a configuration table:

- the **forecast engine** first trains the model once per tracked asset,
  eagerly, whatever its "trained" flag says. It then produces one forecast per
  asset per cycle, saves it and publishes it. A forecast requested while the
  flag is still off trains the model first, lazily; the flag is set once a fit
  completes;
- the **risk engine** loads five strategy parameters from the configuration
  table when it starts, and fails to start if that load fails. It scores each
  forecast against four of them (the drawdown limit is loaded but never used)
  and decides approval. It publishes a trade signal for an approved forecast,
  and now and then adapts its risk factor and reloads the parameters;
- the **execution engine** turns a signal into an order side and size, runs
  the simulated broker fill and saves the result;
- the **web backend** writes the configuration table. A background task
  upserts one key, and an initialisation command seeds the five default rows.

Module layout:

| file | module | what it holds |
|---|---|---|
| `common.dfy` | `Common` | `Option`, `Result`, `Abs`/`Min`/`Max` on reals, two multiplication lemmas |
| `messages.dfy` | `Messages` | the forecast and trade-signal payloads on the bus |
| `decimal_text.dfy` | `DecimalText` | text-to-number conversion of stored values (plain decimal notation) |
| `config_store.dfy` | `StrategyConfigStore` | the table as a `map<string,string>`; class `StrategyConfigTable` with the upsert task and the init command |
| `risk_engine.dfy` | `Risk` | parameters, loading, scoring, approval, adjustment, handling one message; class `RiskEngine` |
| `execution.dfy` | `Execution` | side, order size, simulated fill, the trade handler |
| `forecast_engine.dfy` | `Forecasting` | initial and lazy training, generation, the per-asset cycle as an event trace, the feature window; class `ForecastEngine` |
| `pipeline.dfy` | `Pipeline` | properties that span the services |

Randomness, the database and the bus become inputs:

- **Random draws** are bounded parameters:
  - the volatility sample, the performance indicator and the "adjust now" draw (risk engine);
  - the confidence draw (forecast engine);
  - the fill ratio and the price factor (simulator).
- **Database and bus calls** that can fail become succeed/fail inputs. A failure ends the handler at the point where the exception would be raised. In the initialisation command it is the index of the first default row whose database call fails.
- **The configuration load's cursor, query and fetch** together become an optional list of rows. `None` stands for a failure of any of them.
- **The model's prediction** is a parameter. `None` stands for a failed prediction.
- **Training** is a three-way outcome:
  - it fails before the fit;
  - it fails after the fit, while scoring the test split;
  - or it fits.

Numbers are mathematical reals.

## Model

| member | source | states |
|---|---|---|
| DecimalText.ParseUnsigned | trading-system/services/risk-engine/main.py:86-96 | a parsed unsigned value is non-negative and the text holds a digit; a text of digits alone reads as its decimal value |
| DecimalText.ParseDecimal | trading-system/services/risk-engine/main.py:86-96 | a negative result comes only from a leading minus; no text without a digit parses |
| DecimalText.ParsePointForm | trading-system/services/risk-engine/main.py:86-96 | a text of digits, a point and digits, with at least one digit, reads as the whole part plus the fraction over its power of ten |
| DecimalText.ParseSignedPointForm | trading-system/services/risk-engine/main.py:86-96 | the same text with a leading "+" reads as the same value, and with a leading "-" as its negation |
| DecimalText.ParseSigned | trading-system/services/risk-engine/main.py:86-96 | a leading "-" negates the unsigned reading, a leading "+" leaves it as it is, and a text without a sign reads unsigned |
| DecimalText.ParsePlainForm | trading-system/services/risk-engine/main.py:86-96 | every text in plain notation (optional sign, digits with an optional point and fraction, at least one digit) is numeric and reads as the signed value it denotes |
| DecimalText.ParsedIsPlain | trading-system/services/risk-engine/main.py:86-96 | conversely, every numeric text is in plain notation and its value is the one that notation denotes, so anything else is not numeric |
| StrategyConfigStore.UpsertSetsOnlyKey | trading-system/services/django-backend/trading/tasks.py:35-42 | after get_or_create plus save the key holds the new value, the key set grows by at most that key and every other row is unchanged |
| StrategyConfigStore.UpsertIdempotent | trading-system/services/django-backend/trading/tasks.py:35-42 | running the update task twice with the same pair leaves the table as running it once |
| StrategyConfigStore.Upsert | trading-system/services/django-backend/trading/tasks.py:35-42 | after get_or_create plus save the key holds the new value, and the keys are the old keys plus that key |
| StrategyConfigStore.InsertIfMissing | trading-system/services/django-backend/trading/management/commands/init_strategy_config.py:19-22 | get_or_create with a default: an existing key leaves the table as it was; a missing key is added with the default, and no other key |
| StrategyConfigStore.InitDefaults | trading-system/services/django-backend/trading/management/commands/init_strategy_config.py:18-22 | the command never removes a key |
| StrategyConfigStore.InitReports | trading-system/services/django-backend/trading/management/commands/init_strategy_config.py:24-33 | the command writes one report line per default row it reaches |
| StrategyConfigStore.StrategyConfigTable.UpdateStrategyConfig | trading-system/services/django-backend/trading/tasks.py:28-45 | when the database calls succeed the table becomes the upsert of the old table and the message is "Updated " followed by the key; when they fail the table is unchanged and no message is returned; other rows always keep their values |
| StrategyConfigStore.InitDefaultsKeys | trading-system/services/django-backend/trading/management/commands/init_strategy_config.py:18-22 | after the command the keys are exactly the old keys plus the default keys |
| StrategyConfigStore.InitDefaultsKeepsExisting | trading-system/services/django-backend/trading/management/commands/init_strategy_config.py:18-22 | a row that already exists keeps its stored value: get_or_create with defaults never overwrites |
| StrategyConfigStore.InitDefaultsOtherKeys | trading-system/services/django-backend/trading/management/commands/init_strategy_config.py:18-22 | a key outside the defaults is neither added, removed nor changed |
| StrategyConfigStore.InitDefaultsInsertsMissing | trading-system/services/django-backend/trading/management/commands/init_strategy_config.py:18-22 | with distinct default keys, a missing default key is created with its default text |
| StrategyConfigStore.InitDefaultsNoOpWhenPresent | trading-system/services/django-backend/trading/management/commands/init_strategy_config.py:18-22 | when every default key is present the command leaves the table unchanged |
| StrategyConfigStore.InitDefaultsIdempotent | trading-system/services/django-backend/trading/management/commands/init_strategy_config.py:18-22 | running the command twice gives the same table as running it once |
| StrategyConfigStore.InitReportsShape | trading-system/services/django-backend/trading/management/commands/init_strategy_config.py:24-33 | one report per default row, in order: "Created" with the default exactly for the rows that were missing, otherwise "Already exists" with the stored value |
| StrategyConfigStore.DefaultConfigDistinct | trading-system/services/django-backend/trading/management/commands/init_strategy_config.py:10-16 | the five default keys are distinct and are exactly the five parameter names |
| StrategyConfigStore.StrategyConfigTable.InsertMissing | trading-system/services/django-backend/trading/management/commands/init_strategy_config.py:18-33 | the loop over any list of default rows stops at the first row whose database call fails; the table and reports are the fold over the rows before it, those keys are present, existing rows keep their values, and the loop completes exactly when no row fails |
| StrategyConfigStore.StrategyConfigTable.InitStrategyConfig | trading-system/services/django-backend/trading/management/commands/init_strategy_config.py:8-37 | the table and reports are the fold over the default rows before the first failing one, followed by the success line only when none fails; without a failure every default key is present; existing rows keep their values |
| Risk.WithField | trading-system/services/risk-engine/main.py:86-96 | loading one row changes the named parameter to the value and no other parameter |
| Risk.RiskEngine.constructor | trading-system/services/risk-engine/main.py:52-56 | the engine starts from risk factor 1.0, limit 0.1, threshold 0.7, drawdown 0.05, multiplier 1.0 |
| Risk.RiskEngine.Start | trading-system/services/risk-engine/main.py:52-59 | an engine exists after startup exactly when the startup load from the built-in defaults succeeds, and it holds the loaded parameters |
| Risk.ApplyRow | trading-system/services/risk-engine/main.py:86-96 | a row fails exactly when its key is a parameter name and its value is not numeric; any other key changes nothing; a parameter key sets that parameter to the parsed value and leaves the others |
| Risk.Load | trading-system/services/risk-engine/main.py:86-103 | a successful load saw a numeric value in every row with a parameter key |
| Risk.FetchAndLoad | trading-system/services/risk-engine/main.py:76-103 | a failed cursor, query or fetch fails the load and applies nothing; a successful load fetched rows whose parameter values are all numeric |
| Risk.LoadIgnoresUnknownKeys | trading-system/services/risk-engine/main.py:86-96 | rows whose keys are not parameter names change nothing and the load succeeds |
| Risk.LoadKeepsUnnamedField | trading-system/services/risk-engine/main.py:86-96 | a parameter that no row names keeps its previous value |
| Risk.LoadOkIffAllNumeric | trading-system/services/risk-engine/main.py:86-103 | the load succeeds exactly when every row with a parameter key holds a numeric value |
| Risk.LoadLastRowWins | trading-system/services/risk-engine/main.py:86-96 | on a successful load, the last row naming a parameter decides its value |
| Risk.LoadStopsAtFirstNonNumeric | trading-system/services/risk-engine/main.py:86-103 | the first non-numeric parameter value stops the load with an error, and the rows before it stay applied |
| Risk.RiskEngine.LoadStrategyConfig | trading-system/services/risk-engine/main.py:72-103 | a failed fetch leaves the fields alone and fails; otherwise the fields and the outcome are those of the load fold over the fetched rows |
| Risk.RiskEngine.ApplyRows | trading-system/services/risk-engine/main.py:86-96 | the loop over the fetched rows leaves the fields and the outcome given by the load fold |
| Risk.EvaluateForecastRisk | trading-system/services/risk-engine/main.py:105-177 | the division by the limit fails exactly when the limit is 0; otherwise the assessment copies asset, horizon, prediction and confidence |
| Risk.PositionCheckAlwaysScores | trading-system/services/risk-engine/main.py:142-146 | the raw size is capped at the limit, so the "exceeds limit" branch never fires and the position term always scores |
| Risk.ReasonsInOrder | trading-system/services/risk-engine/main.py:128-173 | the reasons are low confidence, large magnitude and high volatility, each exactly when its test holds and in that order, followed by one verdict matching the approval; "position size exceeds limit" never appears |
| Risk.ScoreTerms | trading-system/services/risk-engine/main.py:128-156 | the uncapped score is the sum of the weighted terms 0.3, 0.2, 0.3, 0.2, a flagged check adding nothing |
| Risk.StoredBounds | trading-system/services/risk-engine/main.py:159-160 | the stored score is at most 1.0 and the stored size is never negative |
| Risk.ScoreNonNegative | trading-system/services/risk-engine/main.py:128-160 | with a positive limit and non-negative confidence the score lies in [0, 1] |
| Risk.NominalScoreNeedsNoCap | trading-system/services/risk-engine/main.py:128-159 | with confidence at most 1, non-negative risk factor and volatility, and positive limit, the raw score is at most 1, so the cap is inert |
| Risk.PerfectForecastScoresOne | trading-system/services/risk-engine/main.py:128-159 | a certain, flat, calm forecast scores exactly 1.0: the weights sum to one |
| Risk.ApprovalRule | trading-system/services/risk-engine/main.py:167-173 | approved iff confidence reaches the threshold, the adjusted size is within the limit and the score reaches 0.5; capped and uncapped scores decide alike |
| Risk.SizeConjunctHolds | trading-system/services/risk-engine/main.py:142-168 | with non-negative risk factor, positive limit and non-negative volatility times multiplier, the size condition always holds and the stored size lies in [0, limit] |
| Risk.SizeConjunctCanFailWithNegativeRiskFactor | trading-system/services/risk-engine/main.py:142-151 | the premise is needed: a negative risk factor can push the adjusted size past the limit |
| Risk.LowConfidenceRejects | trading-system/services/risk-engine/main.py:129-173 | confidence below the threshold always rejects, the low-confidence reason comes first and the verdict last |
| Risk.ApprovalExample | trading-system/services/risk-engine/main.py:105-177 | default parameters, prediction 0.02, confidence 0.9, volatility 0.01: size 0.0198, approved with the single passed reason |
| Risk.LowConfidenceExample | trading-system/services/risk-engine/main.py:129-173 | the same forecast with confidence 0.5 is rejected with reasons [low confidence, failed] |
| Risk.AdjustedRiskFactor | trading-system/services/risk-engine/main.py:199-219 | poor performance shrinks the factor but not below 0.1, good performance grows it but not above 2.0, otherwise unchanged; [0.1, 2.0] is preserved |
| Risk.AdjustKeepsRange | trading-system/services/risk-engine/main.py:179-229 | whatever the indicator and the database outcomes, a factor in [0.1, 2.0] stays there |
| Risk.Adjust | trading-system/services/risk-engine/main.py:179-229 | the attempt succeeds iff the write and the commit succeed; once the write succeeds the engine holds the adjusted factor even if the commit fails |
| Risk.AdjustPersistence | trading-system/services/risk-engine/main.py:193-228 | the table receives exactly the engine's new factor and only on success; a failed write leaves the factor alone; the factor changes only with a due adjustment |
| Risk.RiskEngine.AdjustStrategyParameters | trading-system/services/risk-engine/main.py:179-229 | only the risk factor changes, as the adjustment function says, and it stays in [0.1, 2.0] |
| Risk.SignalOf | trading-system/services/risk-engine/main.py:270-278 | the trade signal carries the assessment's asset, horizon, prediction, position size, confidence and risk score |
| Risk.HandleForecastUpdateSpec | trading-system/services/risk-engine/main.py:231-254 | a signal goes out only for an approved assessment; success needs a successful evaluation and, when a signal goes out, its publish; with the adjust draw it also needs the write, the commit and the reload's fetch |
| Risk.SignalIffApproved | trading-system/services/risk-engine/main.py:243-244 | a signal is published exactly for an approved assessment, carrying its asset, horizon, prediction, size, confidence and score |
| Risk.ParamsChangeOnlyOnAdjust | trading-system/services/risk-engine/main.py:231-254 | without the adjust draw the parameters are unchanged; a failed evaluation publishes nothing and fails |
| Risk.AdjustThenReload | trading-system/services/risk-engine/main.py:248-250 | a completed adjustment is followed by a reload from the table, which decides the final parameters |
| Risk.ReloadReadsBackRiskFactor | trading-system/services/risk-engine/main.py:206-250 | when the reloaded rows are numeric and the last risk-factor row reads as the new factor, the handler succeeds and keeps that factor |
| Risk.RiskEngine.HandleForecastUpdate | trading-system/services/risk-engine/main.py:231-254 | evaluate, publish if approved, then maybe adjust and reload, stopping at the first failure; outcome and new fields match the handler function |
| Execution.TradeSide | trading-system/services/lean-execution/main.py:83-89 | buy iff the prediction is positive, sell iff negative, no trade iff zero |
| Execution.OrderSize | trading-system/services/lean-execution/main.py:91-97 | the order size has the sign of the position size, and a fraction in [0, 1] gives an order of at most 1000 |
| Execution.FillWithinOrder | trading-system/services/lean-execution/main.py:143 | a fill ratio in [0.9, 1.0] puts the filled size between 90% and 100% of the ordered size, for either sign |
| Execution.SimulateTradeExecution | trading-system/services/lean-execution/main.py:125-153 | the fill copies asset and side, is filled at ordered price 100 with an average price in [99, 101], and its filled size is 90%–100% of the ordered size |
| Execution.ExecuteTrade | trading-system/services/lean-execution/main.py:71-123 | a zero prediction does nothing; otherwise exactly one simulation of size 1000 times the position size on the side TradeSide gives, then one save of its result |
| Forecasting.Confidence | trading-system/services/forecast-engine/main.py:187 | the confidence lies in [0.7, 1.0) |
| Forecasting.Generate | trading-system/services/forecast-engine/main.py:161-199 | a forecast exists only with a prediction, carries the asset, horizon and prediction, and has confidence in [0.7, 1.0) |
| Forecasting.ForecastEngine.constructor | trading-system/services/forecast-engine/main.py:57 | a new engine is untrained |
| Forecasting.ForecastEngine.TrainModel | trading-system/services/forecast-engine/main.py:128-159 | the flag is set once the fit completes, even if the evaluation after it fails; success only when everything completes |
| Forecasting.ForecastEngine.GenerateForecast | trading-system/services/forecast-engine/main.py:161-199 | trains only when untrained, then predicts; matches the generation function, and an already trained engine makes no training run |
| Forecasting.ForecastEngine.SaveAndPublish | trading-system/services/forecast-engine/main.py:248-258 | the events after generation: a missing forecast fails; otherwise generated, then saved unless the save fails, then published unless the publish fails |
| Forecasting.SaveAndPublishEvents | trading-system/services/forecast-engine/main.py:248-258 | the steps after generation end with the publish when a forecast exists and its save and publish succeed, and with the asset's failure otherwise; every earlier event is a generation or a save |
| Forecasting.SaveAndPublishEndsOnce | trading-system/services/forecast-engine/main.py:246-258 | the steps after generation end exactly once, with the asset's own failure or publish |
| Forecasting.ForecastEngine.RunForecastCycle | trading-system/services/forecast-engine/main.py:241-260 | the loop's event trace and final flag equal the cycle fold over the assets |
| Forecasting.Step | trading-system/services/forecast-engine/main.py:245-258 | one asset only appends to the trace, and the flag is on afterwards iff it was on or the asset's training run got past its fit |
| Forecasting.Cycle | trading-system/services/forecast-engine/main.py:241-260 | a cycle never clears the flag and appends at least one event per asset |
| Forecasting.StepAttemptsAsset | trading-system/services/forecast-engine/main.py:245-258 | each asset's steps end exactly once, with its own failure or publish |
| Forecasting.CycleAttemptsEveryAsset | trading-system/services/forecast-engine/main.py:245-258 | every asset is attempted, in list order; a failure never ends the cycle early |
| Forecasting.CycleKeepsStepOrder | trading-system/services/forecast-engine/main.py:248-254 | a save follows the generation of the same forecast, and a publish follows its save |
| Forecasting.CycleTrainedFlag | trading-system/services/forecast-engine/main.py:151-152 | the flag is set after the cycle iff it was set before or some training run got past its fit |
| Forecasting.NoTrainingOnceTrained | trading-system/services/forecast-engine/main.py:163-165 | once trained, no later asset starts a training run |
| Forecasting.StepTrainsWhenUntrained | trading-system/services/forecast-engine/main.py:163-165 | while the flag is off, an asset's steps start with a training run for that asset |
| Forecasting.CycleTrainsWhenUntrained | trading-system/services/forecast-engine/main.py:163-165 | an asset reached while the flag is still off (off at the start, and no earlier training run got past its fit) makes a training run of its own |
| Forecasting.CycleTrainsUntilFitted | trading-system/services/forecast-engine/main.py:151-165 | across the trace, no training run follows one that got past its fit, and the flag is on once such a run is recorded |
| Forecasting.CycleExtendsTrace | trading-system/services/forecast-engine/main.py:245-258 | the cycle only appends events, never rewrites earlier ones |
| Forecasting.CycleSplit | trading-system/services/forecast-engine/main.py:245-258 | the cycle over a list is the cycle over a prefix followed by the cycle over the rest |
| Forecasting.SucceedingAssetIsPublished | trading-system/services/forecast-engine/main.py:245-258 | an asset whose prediction, save and publish succeed is published with its forecast whatever happened to earlier assets, once the model is trained |
| Forecasting.TrainEach | trading-system/services/forecast-engine/main.py:266-271 | the initial training appends one event per asset and never clears the flag |
| Forecasting.TrainEachIsEager | trading-system/services/forecast-engine/main.py:266-271 | the initial training appends one training run per asset, in order, even when the flag is already on; the flag ends up on iff it was on or some run got past its fit |
| Forecasting.ForecastEngine.TrainAll | trading-system/services/forecast-engine/main.py:266-271 | the loop's training runs and final flag equal the initial-training fold |
| Forecasting.InitialTrainingThenCycle | trading-system/services/forecast-engine/main.py:262-276 | if some initial training run got past its fit, the first cycle trains no more; if all failed before the fit, its first asset trains again |
| Forecasting.ForecastEngine.RunRound | trading-system/services/forecast-engine/main.py:262-276 | one round of run over the three default assets: the initial-training fold followed by the cycle fold |
| Forecasting.LastCompleteRow | trading-system/services/forecast-engine/main.py:97-115 | the latest-row lookup finds the last row that keeps every feature and a target, and finds none only when no such row exists |
| Forecasting.WindowPrediction | trading-system/services/forecast-engine/main.py:170-183 | a window yields a prediction only when some row survives, and then it is the model's prediction |
| Forecasting.ForecastWindowHasNoRow | trading-system/services/forecast-engine/main.py:170-180 | the seven-day window of generate_forecast keeps no row, so its prediction always fails |
| Forecasting.CycleWithoutPredictionsPublishesNothing | trading-system/services/forecast-engine/main.py:245-258 | a cycle in which no prediction succeeds publishes nothing |
| Forecasting.AsWrittenCycleNeverPublishes | trading-system/services/forecast-engine/main.py:170-180 | with predictions taken from the seven-day window, no cycle ever publishes a forecast |
| Forecasting.LongerWindowKeepsPrediction | trading-system/services/forecast-engine/main.py:97-115 | a window longer than 168 hours keeps a latest row, the one before the newest hour, and yields the model's prediction |
| Pipeline.SeededValuesParse | trading-system/services/django-backend/trading/management/commands/init_strategy_config.py:10-16 | every seeded value parses to the risk engine's built-in value for the same key |
| Pipeline.SeededConfigLoadsDefaults | trading-system/services/risk-engine/main.py:52-96 | loading the seeded rows from any parameters succeeds and yields exactly the built-in defaults |
| Pipeline.GeneratedForecastClearsDefaultThreshold | trading-system/services/forecast-engine/main.py:187 | a generated forecast never trips the default confidence check |
| Pipeline.ApprovedSignalOrderBounded | trading-system/services/lean-execution/main.py:83-97 | with a non-negative risk factor, a positive limit and a non-negative volatility adjustment, the order size lies in [0, 1000 × limit], on the prediction's side, and the fill stays within the order |

## Left out

- Redis, PostgreSQL and Celery plumbing is not modelled. This covers connections, cursors, JSON encoding and the listener loops. The database and bus calls that can fail in the modelled handlers, the configuration task and command included, are success inputs instead.
- Risk.RiskEngine.Start: the database connection opened before the startup load (risk-engine/main.py:47-49) is assumed to succeed. Only the load can make the start fail.
- Malformed bus payloads (JSON decode errors in the listeners) are not modelled.
- The machine-learning internals are not modelled: synthetic prices, the feature values, RSI, the random forest and the MSE value. Training is a three-way outcome and the prediction an optional input. Only which rows survive the feature windows is modelled, to state the finding below.
- Timestamps, trade ids, log messages and the `time.sleep` in the simulator are not modelled.
- The periodic run loops and their intervals are not modelled beyond one round. Forecasting.ForecastEngine.RunRound covers the initial training and one cycle; the repetition, the sleeps and the retry after a failed cycle are left out. The web backend's views, serializers, admin, auth-token command, forecast placeholder tasks and frontend are not modelled either.
- Floating-point rounding is not modelled: all arithmetic is on mathematical reals.
- The `:.2f` text of the reasons is not modelled. Reasons are a datatype carrying the same numbers.
- DecimalText.ParseDecimal: Python's float() also accepts whitespace, exponents, "inf", "nan" and underscores. Those forms are treated as not numeric here.
- Risk.Adjust: the `str()` rendering of the new risk factor that is written to the table is not modelled. The persisted value is the number itself.
- The save of the risk assessment only logs. It is left out.
- The save of the execution result only logs. It appears only as a `Saved` effect.

## Findings

| source | as written | input that shows it | evidently intended | confidence | as-written member | corrected member |
|---|---|---|---|---|---|---|
| trading-system/services/forecast-engine/main.py:170 | generate_forecast loads 7 × 24 = 168 hourly rows. The 168-hour average exists only on the last row, which has no next-hour target, so dropna keeps no row and the latest-row lookup raises | any call of generate_forecast | a history longer than 168 hours (the 30 days used for training would do), so a latest complete row exists and a forecast is produced | not executed | Forecasting.AsWrittenCycleNeverPublishes | Forecasting.LongerWindowKeepsPrediction |

The rest of the model takes the prediction as an input that may succeed, which is what a window longer than 168 hours yields.
