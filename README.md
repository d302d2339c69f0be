# Fraud detection scoring core, in Dafny

This project models the sequential logic on the scoring path of a real-time
fraud detection service and proves properties of it:

- **Feature derivation** (`FeatureEngineering`, `features.dfy`). A transaction and a
  customer history are mapped to the 15-key feature map:
  - temporal flags;
  - amount features, where an empty history is replaced by the one-sample history `[amount]`;
  - frequency counts passed through;
  - a case-insensitive transaction-type code;
  - an exact-match location risk flag.

  The map is then projected onto the 8 ordered inputs of the scaler. The keys
  of the feature dict are the constructors of `Feature`, and `Feature.Key()`
  gives each key's text.
- **Decision engine** (`Prediction`, `prediction.dfy`). The class `FraudPredictor` has:
  - a threshold (0.5 at start) with a range-checked setter;
  - the inclusive `>=` decision rule;
  - a catch-all fallback to `(0, 0.0)`;
  - `batch_predict` over the zipped inputs;
  - a result cache bounded at 10000 entries.

  The cache is a Python dict, so it is modelled as its entries plus their
  insertion order. Its `popitem()` removes the most recently inserted key. A
  new id cached into a full cache is therefore dropped again at once, and the
  cache is left exactly as it was.
- **Metrics and alerting** (`Monitoring`, `monitoring.dfy`):
  - `MetricsCollector` keeps the prediction, fraud, legitimate and error counters and the latency list;
  - its summary uses the detection rate `fraud / max(total, 1) * 100` and the average of the last 100 latencies;
  - `AlertingService` appends an alert whenever the rate is strictly above its threshold.
- **Helpers** (`Utils`, `utils.dfy`, and `DataPipeline`, `data_pipeline.dfy`):
  - the required-field check;
  - `batch_data`, which splits a list into batches;
  - the per-operation timing table;
  - the pydantic transaction record with its positive-amount validator;
  - the `(ok, record, error)` triple of `validate_transaction`;
  - the flat dict built by `preprocess_transaction`.

Modelling conventions:

- **Floats** are exact `real`s.
- **numpy's `log1p`, population `std` and float division** are uninterpreted
  function fields of `Numerics`. The history mean is exact, so the
  empty-history substitution can be stated precisely.
- **The scaler and the classifier** are function values fixed at construction.
  They return `None` where the library would raise.
- **A Python dict with optional keys** is a record of `Option` fields, where
  `None` means the key is absent.
- **Raw dicts** in the helpers are `map<string, Value>`.
- **Exceptions** become `Option`, `Result` or `Outcome` values.

## Model

| member | source | states |
|---|---|---|
| FeatureEngineering.KeysAreDistinct | src/feature_engineering.py:24-78 | distinct feature constructors stand for distinct dict keys, so a map over `Feature` is the feature dict |
| FeatureEngineering.TemporalFeatures | src/feature_engineering.py:21-30 | the temporal dict has exactly the 5 temporal keys; hour, day_of_week and day_of_month pass through; is_weekend and is_night are 0 or 1 |
| FeatureEngineering.WeekendAndNight | src/feature_engineering.py:27-28 | for a parsed timestamp, is_weekend is 1 iff the weekday is Saturday or Sunday, and is_night is 1 iff the hour is 22, 23 or 0 to 5 |
| FeatureEngineering.EffectiveHistory | src/feature_engineering.py:34-35 | an empty history is replaced by [amount] and a non-empty one is kept unchanged, so the statistics are never taken over an empty list |
| FeatureEngineering.AmountFeatures | src/feature_engineering.py:32-42 | the amount dict has exactly the 4 amount keys; the amount passes through, amount_log is log1p(amount), amount_normalized divides the amount by the history mean plus 1e-5, and amount_deviation divides |amount - mean| by the history std plus 1e-5, all over the effective history |
| FeatureEngineering.EmptyHistoryIsOwnSample | src/feature_engineering.py:34-41 | an empty history gives the same features as the history [amount]; its mean is the amount; the deviation's numerator is 0; the amount is normalised by itself |
| FeatureEngineering.FrequencyFeatures | src/feature_engineering.py:44-50 | the frequency dict has exactly the 3 frequency keys; both counts pass through; avg_txn_per_hour times 24 is the 24-hour count |
| FeatureEngineering.Lower | src/feature_engineering.py:85 | lower-casing keeps the length and lower-cases each character |
| FeatureEngineering.EncodeTransactionType | src/feature_engineering.py:82-85 | the code lies in 0..4 and is non-zero iff the lower-cased type is online, atm, pos or transfer |
| FeatureEngineering.LowerKeepsLowercase | src/feature_engineering.py:85 | a string with no upper-case letter is unchanged by lower-casing |
| FeatureEngineering.EncodingIsCaseInsensitiveAndInjective | src/feature_engineering.py:82-85 | types equal up to case get the same code; two types with the same non-zero code are equal up to case |
| FeatureEngineering.EncodingIgnoresCase | src/feature_engineering.py:84-85 | ONLINE is code 1 and Atm code 2 |
| FeatureEngineering.EncodingOfPosAndTransfer | src/feature_engineering.py:84-85 | POS is code 3 and transfer code 4 |
| FeatureEngineering.EncodingOfUnknownTypes | src/feature_engineering.py:84-85 | the empty type and an unknown type get code 0 |
| FeatureEngineering.LocationRisk | src/feature_engineering.py:87-90 | the risk is 0.0 or 1.0, and it is 1.0 iff the location equals high_risk_country or suspicious_region exactly |
| FeatureEngineering.LocationMatchIsCaseSensitive | src/feature_engineering.py:89-90 | differently cased risky names carry no risk |
| FeatureEngineering.CardPresentValue | src/feature_engineering.py:76 | `transaction.get('card_present', 0)` as a number is 1 exactly for a present true and 0 otherwise |
| FeatureEngineering.GetOr | src/feature_engineering.py:76-78 | `dict.get(key, default)`: the present value, or the default when the key is absent |
| FeatureEngineering.MergeFeatures | src/feature_engineering.py:54-78 | the merged dict has the 15 keys; each temporal, amount and frequency key keeps its group's value; the three extra entries hold their values |
| FeatureEngineering.KeyGroupsDisjoint | src/feature_engineering.py:24-78 | the four key groups are pairwise disjoint, so no update overwrites another group's key |
| FeatureEngineering.CreateFeatureVector | src/feature_engineering.py:52-80 | it succeeds iff timestamp, a parsable timestamp, amount and customer_id are present; a missing timestamp raises KeyError first; on success the keys are exactly the 15 feature keys |
| FeatureEngineering.FeatureCount | src/feature_engineering.py:52-80 | there are 5 temporal, 4 amount, 3 frequency and 3 extra keys, 15 in all |
| FeatureEngineering.FeatureValues | src/feature_engineering.py:57-80 | every entry of a derived map is its extractor's value: the 5 temporal entries from the parsed timestamp, the 4 amount entries from the amount and the history amounts (default []), the 3 frequency entries from the two counts (default 0), card_present, the type code of the given type (default '') and the risk of the given location (default ''); hour, is_weekend, amount, amount_log and the two counts are also given in closed form |
| FeatureEngineering.FeatureDefaults | src/feature_engineering.py:63-78 | missing amounts act as [amount]; card_present is 1 only when it is true and 0 otherwise; a missing type gives code 0; a missing location gives risk 0 |
| FeatureEngineering.ModelInputs | src/feature_engineering.py:94-103 | the scaler input has 8 entries, each the value of its fixed key, or 0 when the key is absent |
| FeatureEngineering.Lookup | src/feature_engineering.py:94-103 | `features.get(name, 0)`: the stored value, or 0 for an absent key |
| FeatureEngineering.ModelInputsOfComplete | src/feature_engineering.py:94-103 | on a map holding all 8 keys the input is amount, amount_log, transactions_1h, transactions_24h, card_present, hour, is_weekend, amount_deviation, in that order |
| FeatureEngineering.ModelInputsOfFeatures | src/feature_engineering.py:92-103 | on a derived feature map the input starts with the amount and log1p(amount), and its sixth entry is the hour |
| FeatureEngineering.ModelInputsOfEmpty | src/feature_engineering.py:94-103 | an empty map projects to eight zeros |
| Numbers.Last | src/monitoring.py:52 | `s[-n:]` is the last min(n, len) elements, in order |
| Numbers.ZipPrefix | src/prediction.py:42 | zipping the first n pairs gives n results, the i-th computed from the i-th pair |
| Numbers.Sum | src/utils.py:76 | sum() of an empty list is 0 and of a single sample is that sample; `SumAppend` adds one sample at a time |
| Numbers.Mean | src/feature_engineering.py:40-41 | the mean times the sample count is the sum, i.e. sum / len |
| Numbers.MeanWithin | src/utils.py:76 | a mean of samples within [lo, hi] lies within [lo, hi] |
| Numbers.MeanSingleton | src/feature_engineering.py:35 | the mean of [x] is x |
| Numbers.MeanOfTwo | src/utils.py:76 | the mean of two samples is their midpoint |
| Prediction.Decide | src/prediction.py:27 | the verdict is 0 or 1, and it is 1 iff the probability is at least the threshold (equality counts as fraud) |
| Prediction.DecisionMonotone | src/prediction.py:27 | raising the threshold never turns a legitimate verdict into fraud |
| Prediction.Evaluate | src/prediction.py:23-27 | a score exists iff the feature vector, the scaler and the classifier all succeed; the score's probability is exactly the classifier's answer on the scaled model inputs, and its verdict follows the decision rule; the probability lies in [0, 1] when the classifier returns probabilities |
| Prediction.PredictOutcome | src/prediction.py:20-37 | predict answers the score when there is one and the transaction has an id, and the fallback (0, 0.0) otherwise; the verdict is 0 or 1 and follows the decision rule; the probability lies in [0, 1] when the classifier returns probabilities |
| Prediction.ScoringFailureFallsBack | src/prediction.py:24-37 | a scaler or classifier that raises gives no score and makes predict answer (0, 0.0) |
| Prediction.PredictReturnsClassifierAnswer | tests/test_prediction.py:14-24 | with an id and a working pipeline, predict answers the classifier's probability p with the threshold verdict; at 0.5, p = 0.8 gives (1, 0.8) and p = 0.2 gives (0, 0.2) |
| Prediction.TestTransactionsFallBack | tests/test_prediction.py:14-34 | a transaction with only transaction_id and amount fails feature derivation and gets the fallback (0, 0.0) |
| Prediction.Insert | src/prediction.py:55-59 | after caching, the cache is valid and holds at most 10000 entries; the new entry is stored iff the id was already cached or there was room, and otherwise the entries are unchanged |
| Prediction.SizeIsOrderLength | src/prediction.py:57-58 | the dict's size is the length of its insertion order |
| Prediction.InsertFacts | src/prediction.py:57-59 | the dict grows past 10000 exactly when a new id meets a full cache; then the pop undoes the store; otherwise the store is a valid cache |
| Prediction.PutNew | src/prediction.py:57 | storing a new id adds one key, keeping the order distinct and matching the keys |
| Prediction.PutNewIsUndone | src/prediction.py:57-59 | a new id goes last in the order, so popitem removes exactly it and restores the old entries |
| Prediction.InsertExisting | src/prediction.py:57-59 | overwriting a cached id keeps the order and size and changes only that entry |
| Prediction.Put | src/prediction.py:57 | the stored keys become the old keys plus the id, which maps to the new entry; other entries are unchanged; a new id goes to the end of the insertion order, an existing one keeps its place |
| Prediction.PopItem | src/prediction.py:59 | the most recently inserted key leaves the order and the dict; the other entries are unchanged |
| Prediction.InsertNewWithRoom | src/prediction.py:57-59 | a new id in a cache with room is appended to the order and stored; the size grows by one |
| Prediction.InsertNewWhenFull | src/prediction.py:57-59 | a new id in a full cache is inserted and popped again: the cache is unchanged and the id is not cached |
| Prediction.CacheEffect | src/prediction.py:22-37 | one predict call leaves the cache valid |
| Prediction.CachedIsReturned | src/prediction.py:26-33 | when predict succeeds and the id fits, the cached entry equals the returned prediction |
| Prediction.FallbackWritesNothing | src/prediction.py:22-37 | when anything raises, predict answers (0, 0.0) and the cache is unchanged |
| Prediction.CacheEffects | src/prediction.py:39-45 | the cache after scoring a prefix of the pairs is valid |
| Prediction.FraudPredictor.constructor | src/prediction.py:13-18 | a new predictor has threshold 0.5 and an empty cache |
| Prediction.FraudPredictor.Predict | src/prediction.py:20-37 | the answer is the predict outcome for the current threshold; the cache changes exactly as one predict call prescribes |
| Prediction.FraudPredictor.BatchPredict | src/prediction.py:39-45 | there are min(len(transactions), len(histories)) results in input order, each the predict outcome of its pair; the cache is as after predicting the pairs one by one |
| Prediction.FraudPredictor.SetThreshold | src/prediction.py:47-53 | a threshold in [0, 1] is accepted and set; any other is refused with ValueError and the old threshold stays; the cache is not touched |
| Prediction.FraudPredictor.CachePrediction | src/prediction.py:55-59 | the cache becomes the result of inserting the prediction, and stays valid |
| Prediction.ThresholdScenario | tests/test_prediction.py:36-42 | on a fresh predictor, setting 1.5 is refused and setting 0.7 is accepted, leaving the threshold at 0.7 |
| Prediction.CacheScenario | tests/test_prediction.py:44-47 | caching txn1 as (1, 0.9) on a fresh predictor stores exactly that entry under txn1 |
| Monitoring.Count | src/monitoring.py:58 | reading a `defaultdict(int)` gives the stored count, or 0 for a key never counted |
| Monitoring.DetectionRate | src/monitoring.py:49 | rate times max(total, 1) is fraud times 100; the rate lies in [0, 100] when fraud is at most total |
| Monitoring.RateBounds | src/monitoring.py:49 | dividing by a positive count and scaling by 100 inverts multiplication and stays within [0, 100] for a fraction of the count |
| Monitoring.EightOfTenIsEighty | src/monitoring.py:49 | 8 fraud detections out of 10 give a rate of 80 |
| Monitoring.AverageLatency | src/monitoring.py:52 | the average is 0 without samples and otherwise the mean of the last min(100, n) samples |
| Monitoring.LatencyWindowSlides | src/monitoring.py:37-52 | below 100 samples a new sample joins the window; from 100 on, the oldest one leaves as it enters |
| Monitoring.AverageLatencyWithin | src/monitoring.py:52 | the average lies between the bounds of the last 100 samples |
| Monitoring.AverageIgnoresOldSamples | src/monitoring.py:52 | samples older than the last 100 do not affect the average |
| Monitoring.MetricsCollector.constructor | src/monitoring.py:19-24 | all counters start at 0, the latency list is empty, and the counter invariant holds |
| Monitoring.MetricsCollector.RecordPrediction | src/monitoring.py:26-33 | total grows by 1 and exactly one of fraud or legitimate grows by 1; any verdict other than 1 counts as legitimate; the invariant fraud_detections = fraud count and total = fraud + legitimate is kept |
| Monitoring.MetricsCollector.RecordLatency | src/monitoring.py:37-40 | the sample is appended at the end; nothing else changes |
| Monitoring.MetricsCollector.RecordError | src/monitoring.py:42-45 | the error count grows by 1; nothing else changes |
| Monitoring.MetricsCollector.GetMetrics | src/monitoring.py:47-62 | the summary reports the counters, the windowed average latency and the detection rate; under the invariant, total = fraud + legitimate, the rate lies in [0, 100], and it is 0 when there were no predictions; the rate is fraud / max(total, 1) * 100 and the legitimate count is the one kept under the legitimate key |
| Monitoring.AlertingService.constructor | src/monitoring.py:67-69 | the threshold is the argument, 5.0 by default, and the alert log is empty |
| Monitoring.AlertingService.CheckFraudRate | src/monitoring.py:71-84 | true is returned, and one alert with the rate and threshold appended, iff the rate is strictly above the threshold; otherwise the log is unchanged |
| Monitoring.AlertingService.GetAlerts | src/monitoring.py:86-88 | the last min(100, len) alerts, oldest first |
| Monitoring.EightOfTenScenario | src/monitoring.py:26-62 | eight fraud and two legitimate predictions give a summary with 10 predictions, 8 detections, a rate of 80 and 2 legitimate predictions |
| Monitoring.RepeatedAlertsAreKept | src/monitoring.py:71-84 | checking a 6% summary twice against 5% alerts both times and keeps two equal alerts; a rate equal to the threshold does not alert |
| Utils.AllPresent | src/utils.py:33 | true iff every listed field is a key of the dict |
| Utils.ValidateTransactionData | src/utils.py:26-33 | true iff all 9 required keys are present; other keys do not matter |
| Utils.ValidationIsMonotone | src/utils.py:26-33 | adding a key never invalidates a dict; removing a required key always does |
| Utils.FlattenAppend | src/utils.py:49 | appending a batch appends its elements to the joined batches |
| Utils.MulAtLeast | src/utils.py:48 | a positive multiple of k is at least k |
| Utils.DivOfBounds | src/utils.py:48 | m / k is b when b * k <= m < (b + 1) * k |
| Utils.CeilDivOfBounds | src/utils.py:48 | ceil(n / k) is b when (b - 1) * k < n <= b * k |
| Utils.BatchStep | src/utils.py:48-49 | one more slice keeps the loop state: the joined batches are the data read so far, and all batches but the last are full |
| Utils.BatchesDone | src/utils.py:48-50 | when the range is exhausted the batches join back to the data and there are ceil(len / k) of them |
| Utils.BatchCount | src/utils.py:48 | nb slices of size k that cover n elements, the last one starting inside, number ceil(n / k) |
| Utils.BatchData | src/utils.py:45-50 | batch size 0 raises and a negative size gives []; for a positive size the batches join back to the input, there are ceil(len / size) of them, none is empty, none is longer than the size, and all but the last are full |
| Utils.PerformanceMonitor.constructor | src/utils.py:63-64 | the timing table starts empty |
| Utils.PerformanceMonitor.RecordTime | src/utils.py:66-70 | the duration is appended to the operation's list, which is created on first use; other operations are unchanged |
| Utils.PerformanceMonitor.GetAvgTime | src/utils.py:72-76 | 0.0 for an unknown operation or an empty list, otherwise the mean of its durations |
| Utils.PerformanceMonitor.AvgTimeWithin | src/utils.py:72-76 | the average lies between the smallest and largest recorded duration |
| Utils.PerformanceMonitor.GetSummary | src/utils.py:78-82 | the keys are exactly the recorded operations, each mapped to its average |
| Utils.TimingScenario | src/utils.py:66-82 | timings of 10 and 20 for one operation average 15; an unrecorded operation averages 0; the summary covers just the recorded operation |
| DataPipeline.AsString | src/data_pipeline.py:18-25 | a string field accepts exactly the string values, unchanged |
| DataPipeline.AsFloat | src/data_pipeline.py:20 | a float field accepts floats unchanged, ints as their value, and booleans as 1.0 and 0.0; nothing else |
| DataPipeline.AsBool | src/data_pipeline.py:26 | a bool field gives true exactly for True, 1 and 1.0, false exactly for False, 0 and 0.0, and rejects the rest |
| DataPipeline.AmountMustBePositive | src/data_pipeline.py:28-32 | an amount is accepted iff it is positive, and then unchanged; otherwise the error is 'Amount must be positive' |
| DataPipeline.NoErrorsIsWellFormed | src/data_pipeline.py:16-32 | a dict raises no validation error iff every field is present with the right kind and the amount is positive |
| DataPipeline.StringErrors | src/data_pipeline.py:18-25 | a string field gives no error iff present as a string, Missing when absent and WrongType otherwise; never the amount error |
| DataPipeline.BoolErrors | src/data_pipeline.py:26 | the bool field gives no error iff present with a boolean reading, Missing when absent and WrongType otherwise; never the amount error |
| DataPipeline.Build | src/data_pipeline.py:62 | the record holds each string field's string, the coerced positive amount and the coerced card_present |
| DataPipeline.AmountErrors | src/data_pipeline.py:20-31 | the amount yields no error iff it is present, numeric and positive, and at most one error otherwise: missing, wrong type, or not positive exactly when it is numeric and at most 0 |
| DataPipeline.RecordErrors | src/data_pipeline.py:16-31 | every missing field is reported as missing; the not-positive error is reported iff the amount is numeric and at most 0 |
| DataPipeline.ValidateTransaction | src/data_pipeline.py:59-66 | ok iff the dict is well formed (every field present and of the right kind, amount positive); ok gives the record built from the dict and no error, not ok gives no record and exactly the field errors, at least one; a validated dict has all 9 required keys |
| DataPipeline.NonPositiveAmountIsReported | src/data_pipeline.py:28-31 | a numeric amount at most 0 makes validation fail and the amount error is among those reported |
| DataPipeline.PreprocessTransaction | src/data_pipeline.py:68-82 | the dict has exactly the 10 processed keys; card_present becomes 1 or 0; processed_at is the given time; the dict passes the required-field check |
| DataPipeline.ProcessedKeyCount | src/data_pipeline.py:70-81 | the processed dict has 10 keys |
| DataPipeline.PreprocessRoundTrip | src/data_pipeline.py:59-82 | validating the preprocessed dict of a record with a positive amount gives back exactly that record: every field is copied unchanged |

## Left out

- Kafka, PostgreSQL and Redis in `src/data_pipeline.py:37-108`: I/O against external services.
- The HTTP API in `src/api.py`: service plumbing around the predictor and the metrics collector.
- The model wrappers in `src/model_training.py`: the classifier is a function value returning a probability or `None`.
- Configuration in `src/config.py`: it is environment-driven.
- In `src/utils.py`:
  - logging setup, uuid generation and SHA-256 hashing;
  - JSON (de)serialisation;
  - timestamp formatting and parsing.
- `StandardScaler.transform` and the joblib loading and saving of the scaler: foreign library calls, kept opaque after the 8-slot projection.
- ISO-8601 parsing and weekday computation with `datetime.fromisoformat`: a transaction carries the parsed hour, weekday and day, or the marker `Unparseable`.
- Floating-point rounding, NaN and infinity: floats are exact reals.
  - `log1p`, `std` and float division are uninterpreted.
  - The history mean and the monitoring averages are exact.
- Prometheus counters and gauges, logging, and wall-clock timestamps in metrics, alerts and `processed_at`: the time is passed in as a parameter or omitted from the records.
- Monitoring.AlertingService.CheckFraudRate: compares the exact rate, not the rate after its `"%.2f%%"` formatting and re-parse. The gap runs both ways. A rate just above the threshold that rounds down to it (threshold 5.0, rate 5.004, shown as "5.00") alerts in the model but not in the Python service. A rate just below a threshold with more than two decimals that rounds up past it (threshold 4.996, rate 4.9951, shown as "5.00") alerts in the Python service but not in the model.
- Monitoring.MetricsCollector.GetMetrics: returns the rate and the average latency as reals, not as formatted strings. The read of `predictions['legitimate']` through the defaultdict, which inserts a 0 entry but changes no count, is not modelled.
- FeatureEngineering.Lower: lower-cases ASCII letters only. Full Unicode lower-casing would change no type code, because the only non-ASCII character that lower-cases to an ASCII letter lower-cases to 'k', and no type key contains 'k'.
- DataPipeline.ValidateTransaction: the pydantic coercions are modelled as follows.
  - A string field accepts only strings.
  - A float field accepts floats, integers and booleans.
  - A bool field accepts booleans and the numbers 0 and 1, as integers or floats.
  - The wider pydantic coercions are not modelled. These are: numeric strings to floats (`"amount": "100.50"` is reported here as WrongType), strings such as "true", "yes" or "0" to booleans, numbers to strings, and bytes.
  - The error is the list of field errors, not its `str()` rendering.
- `card_present` in the feature dict is whatever the transaction holds. The model's transaction holds a boolean or nothing, so the value is 1.0 for true and 0.0 otherwise.
- There is no concurrency in the code, and none is modelled.
