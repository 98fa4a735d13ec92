# AIOps decision layer in Dafny

A model of the decision layer of a small AIOps system. The system collects host metrics
(cpu, memory, disk) and checks them against configured thresholds. It detects anomalous
samples with an isolation forest and forecasts the metrics with a regressor over a sliding
window. It raises alerts with a cooldown, and for anomalous samples it runs Windows shell
remediation commands.

The model covers five parts of the system, one Dafny module each, plus shared helpers.

- **`Alerting`** models the alert manager (`alerting/alert_manager.py`):
  - cooldown suppression over an append-only alert history, held by the class
    `AlertManager`;
  - the severity prefix and colour tables;
  - the enabled-flag gates of the email, webhook and SMS senders. The delivery services
    are oracles.
- **`Remediation`** models the remediation engine (`remediation/auto_remediation.py`):
  - the dispatch table and the four handlers, with the shell as an oracle from command
    line to process result;
  - the temp-directory loop of `handle_disk_full`, as a method proved equal to its
    specification function.
- **`AnomalyDetection`** models the anomaly detector (`models/anomaly_detection.py`):
  - the index filter behind `np.where(predictions == -1)[0]`;
  - how `load_model` and `train` change the `model` field. The forest, pickling and the
    file system are oracles.
- **`Analytics`** models predictive analytics (`analytics/predictive_analytics.py`):
  - the sliding windows of `prepare_data`;
  - the model and scaler fields under `load_model` and `train`;
  - the forecasting loop, which feeds each prediction back into a fixed-length window.
    The scaler and the regressor are oracles.
- **`Controller`** models the operations controller (`controller/main_controller.py`):
  - its settings and the threshold check;
  - one cycle of each of the three workers (collection, anomaly detection, prediction),
    each as a step method on the class `AIOpsController`;
  - the start/stop state machine.

Supporting modules:

- `Config` models the configuration merge both components share.
- `Metrics` models samples and `_check_thresholds`.
- `Paths` models posixpath's `os.path.dirname` and `os.path.join`.
- `Json` models decoded configuration values and Python truthiness.
- `Sequences` provides index filtering and flattening.
- `Wrappers` provides `Option`.

Time is an integer number of seconds passed in as `now`. Metric values, thresholds and
the cooldown are reals.

## Model

| member | source | states |
|---|---|---|
| Config.MergeConfig | controller/main_controller.py:86-90 | the merge loop leaves exactly the dictionary `Merge` describes: items applied in file order, stopping at the first update that raises |
| Config.LoadConfig | alerting/alert_manager.py:56-70 | with no usable file the defaults are returned unchanged; no default key is ever lost |
| Config.MergeKeepsUnmentioned | alerting/alert_manager.py:61-65 | keys only grow, new keys come from the file, and a key the file does not mention keeps its default |
| Config.MergeOverlays | alerting/alert_manager.py:61-65 | when no update raises, the result has exactly the default keys plus the file's keys, each file key holding the shallow-merged or replaced value |
| Config.DictUpdateKeepsSubkeys | alerting/alert_manager.py:62-63 | a dict value for a dict default is merged shallowly: default sub-keys the file omits survive, and the file's sub-keys win |
| Config.MergeStopsAtFailure | controller/main_controller.py:86-93 | the first update that raises (`update` on a non-dict entry) ends the merge; what was merged before it is kept |
| Alerting.AlertSettingsOf | alerting/alert_manager.py:75-142 | the cooldown is the configured number or 15 when absent; each channel flag is the truthiness of its "enabled" entry; with SMS enabled the recipients are what iterating `to_numbers` visits (missing or not iterable: none); exactly the excluded configurations give None |
| Alerting.Recipients | alerting/alert_manager.py:141-142 | iterating a list visits its items, a string its characters, and null, booleans and numbers are not iterable |
| Alerting.DefaultAlertSettings | alerting/alert_manager.py:26-54 | the built-in configuration has a 15-minute cooldown and every channel disabled |
| Alerting.PresentationIgnoresCase | alerting/alert_manager.py:185-189 | the prefix and colour lookups give the same answer for a severity and its upper- or lower-cased form |
| Alerting.PresentationTable | alerting/alert_manager.py:185-215 | the fallback prefix and colour are used exactly when the lower-cased severity is not critical, warning or info; the three known prefixes are distinct |
| Alerting.EmailSent | alerting/alert_manager.py:86-110 | false without sending when email is disabled; otherwise the result of the SMTP exchange |
| Alerting.WebhookSent | alerting/alert_manager.py:112-133 | false without posting when disabled; otherwise true exactly when the post returns a status below 300 |
| Alerting.SendSmsAlert | alerting/alert_manager.py:135-163 | disabled, or recipients that are not iterable: false, no post. Otherwise one post per recipient in order; a failing status is ignored; the first request that raises ends the loop and the result is false |
| Alerting.AlertManager.constructor | alerting/alert_manager.py:10-13 | a new manager has the given settings and an empty history |
| Alerting.AlertManager.ShouldSendAlert | alerting/alert_manager.py:72-84 | true exactly when no history entry has the same type and resource and is younger than the cooldown window |
| Alerting.AlertManager.TriggerAlert | alerting/alert_manager.py:165-227 | suppressed: false and history unchanged. Otherwise exactly one record (with `now`) is appended before the channels run, and the result is true whatever the channels report |
| Alerting.RepeatWithinCooldownSuppressed | alerting/alert_manager.py:72-84 | after an alert fires at t, a second alert for the same type and resource at t2 with t2 - t inside the window is suppressed and appends nothing |
| Alerting.OtherPairsNeverSuppress | alerting/alert_manager.py:78-82 | a record for another type or resource never changes whether an alert is sent |
| Alerting.WindowEndsAtCooldown | alerting/alert_manager.py:75-81 | the comparison is strict: an entry exactly cooldown * 60 seconds old no longer suppresses (900 s for the default 15 minutes; 899 s still suppresses) |
| Alerting.FireAllAppendsOnly | alerting/alert_manager.py:171-182 | a series of triggers only appends, at most one record per trigger, and never changes earlier records |
| Alerting.SamePairFiresAtMostOnce | alerting/alert_manager.py:165-182 | with a positive cooldown, alerts for one type and resource at one instant add at most one record |
| Metrics.CheckThresholds | controller/main_controller.py:123-138 | the loop returns exactly `Violations`: one entry per qualifying metric, in sample order |
| Metrics.ViolationsFollowSample | controller/main_controller.py:128-136 | the violations are exactly the entries that have a threshold, are numeric and reach it: the j-th violation comes from the j-th qualifying position |
| Metrics.ViolationMetricsDistinct | controller/main_controller.py:128-136 | in a sample without repeated keys, no metric is reported twice |
| Metrics.ViolationsExact | controller/main_controller.py:128-136 | every qualifying entry is reported, and every reported violation comes from a qualifying entry |
| Metrics.ThresholdBoundary | controller/main_controller.py:129-131 | a value equal to its threshold is a violation; strings, dicts, lists and null never are |
| Metrics.FeatureMatrix | controller/main_controller.py:201-205 | the feature matrix has one row per sample, each with three columns |
| Metrics.FeatureMatrixRows | controller/main_controller.py:272-277 | row i holds the cpu, memory and disk values of sample i |
| Paths.DirnameEmpty | models/anomaly_detection.py:52 | the directory part of a path is empty exactly when the path has no '/' |
| Paths.DirnameShape | analytics/predictive_analytics.py:59 | a directory part is empty, does not end in '/', or is made of slashes only |
| Paths.DirnameJoin | analytics/predictive_analytics.py:59-60 | for every directory `dirname` can return and every slash-free name, the directory part of their join is that directory |
| Remediation.ExecuteCommand | remediation/auto_remediation.py:25-36 | zero exit gives (true, stdout), non-zero exit gives (false, stderr), and a shell that cannot launch propagates an exception |
| Remediation.HighCpu | remediation/auto_remediation.py:38-54 | with a non-empty process name exactly `taskkill /F /IM <name>`, otherwise only the top-5 CPU listing; the result is that command's success |
| Remediation.MemoryLeak | remediation/auto_remediation.py:56-72 | with a non-empty name exactly the kill-and-start command, otherwise only the top-5 memory listing; the result is that command's success |
| Remediation.ServiceDown | remediation/auto_remediation.py:98-117 | query first; output mentioning RUNNING gives true with no start; otherwise `sc start <name>` and its success; a query that cannot launch raises |
| Remediation.TempPaths | remediation/auto_remediation.py:79-82 | two temp directories are tried, the second always the default one |
| Remediation.HandleDiskFull | remediation/auto_remediation.py:74-96 | the loop over the temp paths gives exactly `DiskFull` |
| Remediation.MoreCleanupAfterRaise | remediation/auto_remediation.py:84-87 | after a delete fails to launch, later temp paths issue nothing |
| Remediation.DiskFullCommands | remediation/auto_remediation.py:84-96 | one delete per existing temp path in order, then the clean-up tool; the result is the clean-up tool's success alone |
| Remediation.DiskFullIgnoresTempResults | remediation/auto_remediation.py:87-96 | the deletes' exit statuses never change the result |
| Remediation.Remediate | remediation/auto_remediation.py:119-126 | an unknown issue type returns false and runs nothing; keyword arguments that do not fit the handler raise `TypeError` before any command |
| Remediation.DispatchTable | remediation/auto_remediation.py:9-14 | a known issue type with fitting arguments gives exactly its handler's result |
| Remediation.ArgumentlessCalls | remediation/auto_remediation.py:119-123 | the argument-free calls run the listings and the disk clean-up; `service_down` without a name raises `TypeError` |
| Remediation.ArgumentlessNeverTypeError | remediation/auto_remediation.py:119-123 | an argument-free call for high_cpu, memory_leak or disk_full can raise only `OSError` |
| Remediation.LastCommandDecides | remediation/auto_remediation.py:38-117 | a handler that returns normally reports the exit status of the last command it issued, except that a running service reports success |
| Remediation.ServiceAlreadyRunning | remediation/auto_remediation.py:103-115 | a service reported RUNNING is never started and the result is true |
| AnomalyDetection.AnomalyIndices | models/anomaly_detection.py:74-76 | exactly the positions labelled -1, strictly increasing |
| AnomalyDetection.AnomalyCount | models/anomaly_detection.py:76 | there are as many indices as -1 labels |
| AnomalyDetection.AnomalyDetector.constructor | models/anomaly_detection.py:9-12 | a new detector has its path and no model |
| AnomalyDetection.AnomalyDetector.LoadModel | models/anomaly_detection.py:47-64 | true exactly when the path is set, its directory can be created, the file exists and unpickles; only then is the model replaced |
| AnomalyDetection.AnomalyDetector.Train | models/anomaly_detection.py:23-45 | the model field changes as `ModelAfterTrain` says; the model is written only when `save_model` and the path are set; a failed write makes the result false |
| AnomalyDetection.AnomalyDetector.DetectAnomalies | models/anomaly_detection.py:66-81 | None without a fitted model or when prediction raises; otherwise the anomalous indices |
| AnomalyDetection.ModelAfterLoad | models/anomaly_detection.py:47-64 | a successful load installs the stored model; any failure leaves the model as it was |
| AnomalyDetection.ModelAfterTrain | models/anomaly_detection.py:25-36 | unreadable data leaves the model; otherwise a new forest, fitted exactly when the fit succeeds |
| AnomalyDetection.LoadNeedsDirectory | models/anomaly_detection.py:49-52 | loading fails without a path and for a path with no directory part |
| Analytics.Tail | analytics/predictive_analytics.py:126 | `data[-k:]` has k rows when 0 < k <= n, and is the whole data when k is 0 or exceeds n |
| Analytics.TailIsSuffix | analytics/predictive_analytics.py:105 | the tail is a suffix of the data |
| Analytics.Windows | analytics/predictive_analytics.py:28-29 | max(0, n - look_back) windows |
| Analytics.WindowsAt | analytics/predictive_analytics.py:28-29 | window i is the flattened rows i .. i+look_back |
| Analytics.Targets | analytics/predictive_analytics.py:30 | max(0, n - look_back) targets |
| Analytics.PrepareData | analytics/predictive_analytics.py:25-31 | the loop builds exactly `Prepared`: the windows and targets, or None when no window was built and the reshape raises |
| Analytics.PreparedPairs | analytics/predictive_analytics.py:28-31 | n - look_back pairs, window i covering rows i .. i+look_back and target i the next row |
| Analytics.PreparedNeedsData | analytics/predictive_analytics.py:28-31 | `prepare_data` raises exactly when there are no more rows than the look-back |
| Analytics.ZeroLookBackWindows | analytics/predictive_analytics.py:28-31 | with a look-back of 0, every row is a target and each of the n windows is empty |
| Analytics.WindowWidth | analytics/predictive_analytics.py:29-31 | each window of a w-column matrix holds look_back * w values |
| Analytics.WindowsSlide | analytics/predictive_analytics.py:28-30 | window i+1 is window i without its first row, followed by target i |
| Analytics.ScalerBesideModel | analytics/predictive_analytics.py:59-60 | for every model path, `scaler.pkl` is in the same directory as the model file |
| Analytics.AfterLoad | analytics/predictive_analytics.py:71-92 | nothing changes unless the scaler loads; once it loads it replaces the old one, even when the model then fails; the model is replaced exactly on full success |
| Analytics.AfterTrain | analytics/predictive_analytics.py:33-69 | no data or no columns changes nothing; a failed scaler refit leaves the scaler unfitted and keeps the model; otherwise the scaler is refit; too little data keeps the old model; a failed fit leaves an unfitted regressor; a successful fit leaves one expecting one window's values |
| Analytics.FailedRefitStopsPredictions | analytics/predictive_analytics.py:47 | after a scaler refit that raises, no prediction succeeds until the next successful train or load |
| Analytics.ZeroLookBackLeavesUnfitted | analytics/predictive_analytics.py:50-54 | with a look-back of 0 on data with rows, training leaves an unfitted regressor, whatever model was there |
| Analytics.TrainedWidth | analytics/predictive_analytics.py:50-54 | a regressor trained on w columns expects look_back * w inputs |
| Analytics.Shift | analytics/predictive_analytics.py:137 | one step keeps the window length and ends with the new row |
| Analytics.AdvanceKeepsLastRows | analytics/predictive_analytics.py:129-137 | after feeding back rows, the window is the last rows of the initial window followed by the fed-back rows |
| Analytics.PredictiveAnalytics.constructor | analytics/predictive_analytics.py:10-14 | a new instance has no model and a fresh scaler |
| Analytics.PredictiveAnalytics.LoadModel | analytics/predictive_analytics.py:71-92 | true exactly when `LoadSucceeds`; the fields change as `AfterLoad` says |
| Analytics.PredictiveAnalytics.Train | analytics/predictive_analytics.py:33-69 | the fields change as `AfterTrain` says; with a path, the model then the scaler are written, and a failed write makes the result false |
| Analytics.PredictiveAnalytics.ForecastNextDays | analytics/predictive_analytics.py:118-142 | None without a model; otherwise the forecast from the last look_back rows |
| Analytics.Forecast | analytics/predictive_analytics.py:127-139 | the loop gives exactly `ForecastFrom` |
| Analytics.Predict | analytics/predictive_analytics.py:94-116 | a prediction exists only with a fitted model and scaler and a window whose value count matches the regressor |
| Analytics.ForecastShape | analytics/predictive_analytics.py:129-139 | at most `days` rows, each of the data's width |
| Analytics.ForecastStep | analytics/predictive_analytics.py:129-137 | row k is the prediction on the window after the first k rows were fed back |
| Analytics.ForecastStopsAtFailure | analytics/predictive_analytics.py:131-134 | a forecast shorter than `days` ends where the next prediction failed |
| Analytics.WindowLengthInvariant | analytics/predictive_analytics.py:126-137 | every prediction sees a window of the initial length |
| Controller.ThresholdsOf | controller/main_controller.py:125-131 | a table is accepted exactly when it is a dict of numbers, and then has the configured keys, each read as its number |
| Controller.SettingsOf | controller/main_controller.py:30-38 | remediation is on unless configured falsy; a string model path is used as is, an absent one takes its default, a falsy one means unset; exactly the excluded configurations give None |
| Controller.DefaultSettings | controller/main_controller.py:64-79 | built-in settings: remediation on, thresholds 90/85/90, the two default model paths |
| Controller.ThresholdAlerts | controller/main_controller.py:150-158 | one `threshold_exceeded` warning per violation, in order, for the violating metric |
| Controller.EscalationRule | controller/main_controller.py:223-232 | one issue per metric strictly above 90 (missing counts as 0), cpu, memory, disk order, no repeats, thresholds ignored |
| Controller.RowRemediationsInOrder | controller/main_controller.py:223-232 | remediation calls are made in issue order, only the last one may raise, and without a raise every issue is called |
| Controller.RemediationCalls | controller/main_controller.py:223-232 | when no call raises `TypeError`, a row's calls stop only at an `OSError`, which is the last call |
| Controller.ReactionStopsAtAbort | controller/main_controller.py:209-232 | once an exception ends the cycle, later anomalies add nothing |
| Controller.ReactionAlerts | controller/main_controller.py:208-220 | each anomaly index gives one `anomaly_detected` alert for its row, in order, until the cycle aborts |
| Controller.ReactionWithoutRemediation | controller/main_controller.py:209-223 | without auto-remediation nothing is remediated, and only an index outside the rows aborts |
| Controller.DayWarningsSound | controller/main_controller.py:286-305 | every warning of a day comes from a feature above 90% of its threshold |
| Controller.DayWarningsComplete | controller/main_controller.py:286-305 | every feature above 90% of its threshold gets its warning |
| Controller.WarningAlertInjective | controller/main_controller.py:293-305 | two warnings are equal only for the same day and feature |
| Controller.DayWarningsDay | controller/main_controller.py:297-302 | every warning of a day names that day plus one |
| Controller.WarningsDays | controller/main_controller.py:286-302 | every warning names a day inside the forecast |
| Controller.WarningsExact | controller/main_controller.py:286-305 | a warning for (day, feature) fires exactly when the value exceeds 0.9 * threshold (90 by default), for that feature and day + 1 |
| Controller.StoreAsWrittenDeadlocks | controller/main_controller.py:160-166 | as written, storing blocks for ever exactly on every 100th sample |
| Controller.StoreCorrectedPersists | controller/main_controller.py:160-166 | with the save moved out of the lock, every sample is kept and snapshot k holds the first 100(k+1) samples |
| Controller.AIOpsController.constructor | controller/main_controller.py:21-51 | stopped, no workers, an empty buffer, fresh components built from the settings |
| Controller.AIOpsController.Start | controller/main_controller.py:321-342 | running afterwards; a second start adds no workers; from stopped exactly three workers |
| Controller.AIOpsController.SaveMetrics | controller/main_controller.py:97-110 | nothing for an empty buffer, otherwise a snapshot of the whole buffer |
| Controller.AIOpsController.Stop | controller/main_controller.py:344-367 | stopped afterwards with no workers; true exactly when it was running, and only then is a non-empty buffer saved |
| Controller.AIOpsController.TriggerAll | controller/main_controller.py:151-158 | the alert history is that of triggering the requests in order |
| Controller.AIOpsController.CollectionStep | controller/main_controller.py:140-172 | a stopped controller or a failed collection changes nothing. Otherwise one alert per violation, then the sample is stored, with a snapshot on every 100th |
| Controller.AIOpsController.RefreshAnomalyModel | controller/main_controller.py:183-196 | load; train on the whole buffer exactly when loading failed and more than 60 samples are buffered |
| Controller.AIOpsController.React | controller/main_controller.py:208-232 | the reaction to the anomaly indices is exactly `AnomalyReaction`, and each of its alerts is triggered |
| Controller.AIOpsController.DetectAndReact | controller/main_controller.py:199-232 | the detector runs only when the three features are columns; its indices are reacted to |
| Controller.AIOpsController.DetectionStep | controller/main_controller.py:174-238 | nothing while stopped; refresh the model; with more than 10 samples react to the anomalies among exactly the last 10 |
| Controller.AIOpsController.RefreshPredictionModel | controller/main_controller.py:249-267 | load; train on the whole buffer exactly when loading failed and more than 60 samples are buffered |
| Controller.AIOpsController.RaiseDayWarnings | controller/main_controller.py:287-305 | the warnings of one forecast row, feature by feature, each triggered |
| Controller.AIOpsController.RaiseWarnings | controller/main_controller.py:286-305 | the warnings of a whole forecast, day by day, each triggered |
| Controller.AIOpsController.ForecastAndWarn | controller/main_controller.py:276-305 | forecast one step from the last 6 rows; warnings for exactly the forecast values above 90% of their threshold |
| Controller.AIOpsController.PredictionStep | controller/main_controller.py:240-319 | nothing while stopped; refresh the model; forecast only with more than 30 samples having the three features; warn with the latest sample as current values |
| Controller.MismatchedLookBackForecastsNothing | controller/main_controller.py:259-282 | trained with look-back 24 and forecasting with 6, the regressor rejects every window and the forecast is empty |
| Controller.MatchedLookBackReachesRegressor | controller/main_controller.py:280-282 | with one look-back for both, the forecast holds the regressor's prediction |

## Left out

- Threads, `time.sleep`, the warm-up delays, `join(timeout=10)` and the polling of
  `running` are not modelled. Each worker is one cycle, and the caller decides the
  interleaving.
- `data_lock` is modelled only in the deadlock finding below; the step methods assume the
  corrected storing step.
- Logging and the text of alert messages (`json.dumps`, `strftime`, the message
  templates) are left out. Alerts carry their arguments as data, and only the prefix and
  colour tables are modelled.
- SMTP, HTTP requests, the shell, pickling, the file system, the isolation forest, the
  random-forest regressor and the min-max scaler are oracles passed as parameters. Their
  floating-point behaviour is not modelled.
- Alerting.AlertSettingsOf: excludes (gives None for) some configurations that the source
  tolerates in part. The first is a channel entry that is not a dict: reading its
  "enabled" flag raises out of `trigger_alert` after the record is appended. The second
  is a cooldown that is not a number: `_should_send_alert` raises only once a record for
  the same type and resource exists, and sends normally before that. The third, with SMS
  enabled, is a dict of recipients: the source iterates its keys in insertion order, which
  the decoded configuration (a map) does not keep.
- Controller.SettingsOf: excludes two kinds of configuration that the source tolerates in
  part. The first is a threshold table that is not a dict of numbers. The source raises
  only when a sampled metric or a forecast feature meets a non-numeric entry, so an entry
  no sample carries is harmless there. The second is a truthy model path that is not a
  string. The anomaly detector's load and save then fail inside their `try`, while
  `os.path.exists` (analytics/predictive_analytics.py:73) raises outside the `try` for
  most such values and reads an integer as a file descriptor.
- Paths: `os.path` is modelled as posixpath. On Windows, which the remediation commands
  target, ntpath also splits on `\` and on drive letters and joins with `\`, so the
  scaler of the default model would be `models\scaler.pkl`.
- Controller.AIOpsController.CollectionStep: requires the collected sample to carry numeric
  cpu, memory and disk values, as the collector (infrastructure/data_collector.py, not part
  of this model) produces them.
- Metrics.FeatureMatrix: a feature column present in some samples but missing or
  non-numeric in another is read as 0, where pandas would give NaN.
- The CSV write of a snapshot is assumed to succeed, and `os.makedirs` for its directory
  is not modelled. The training data is the buffer's feature matrix rather than a
  round trip through a temporary CSV file, and `os.remove` of that file is left out.
- Controller.AIOpsController.DetectionStep: takes the remediation entry point as a
  parameter `remediate`. Its contract does not itself say that this is the engine's
  argument-free call; `Controller.RemediationCalls` and
  `Remediation.ArgumentlessNeverTypeError` state what those calls do.
- One `now` is used for every alert of a cycle.
- `_clean_old_data` is not modelled: it filters `metrics_df`, which is never assigned and
  never called.
- `plot_forecast` (matplotlib) is not modelled.
- Controller.AIOpsController.RefreshPredictionModel: trains with a look-back of 6, not
  the 24 the source passes (see Findings).
- Controller.AIOpsController.PredictionStep: inherits that look-back of 6 through
  `RefreshPredictionModel` (see Findings).
- web/app.py, main.py, infrastructure/data_collector.py and train_model.py are not part
  of this model.

## Findings

| source | as written | input that shows it | evidently intended | confidence | as-written member | corrected member |
|---|---|---|---|---|---|---|
| controller/main_controller.py:161-166 | The collection cycle holds `data_lock` while calling `_save_metrics_to_csv`, which acquires the same non-reentrant lock again (line 107). | With a `data_path` that has a directory part, such as the default `data/metrics.csv`, the 100th collected sample (a buffer holding 99 samples): the collection worker blocks for ever, holding the lock the other workers need. | Save every 100th sample and carry on collecting. | not executed | Controller.StoreAsWrittenDeadlocks | Controller.StoreCorrectedPersists |
| controller/main_controller.py:259-282 | The prediction model is trained with `look_back=24` (line 263) but forecasts use `look_back=6` (line 281). | More than 60 buffered samples with no stored model: the regressor expects 72 inputs, every forecast window holds 18, `predict` raises, and no prediction warning is ever raised. | The same look-back for training and forecasting. | not executed | Controller.MismatchedLookBackForecastsNothing | Controller.MatchedLookBackReachesRegressor |
