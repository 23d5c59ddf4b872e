# CAN Intrusion Detection — a verified model of its core

The system detects intrusions on a vehicle's CAN bus. A Python backend has
five HTTP handlers:

- a one-point One-Class SVM detector;
- a 10-reading LSTM autoencoder detector;
- a 10-reading battery-voltage spoofing detector;
- a synthetic attack generator (fuzzy, spoofing, replay, DoS);
- a dataset sampler.

A React frontend keeps a bounded history store of readings and anomalies. It
compares the three detectors side by side. It computes summary statistics
over the history and explains a selected anomaly. It generates attacks,
exports them as CSV, and compares an attack batch with normal data. A
research logger records the user's actions.

The model has one Dafny module per source file. The modules build on three
small shared ones:

- `Json` (`wrappers.dfy`, `json.dfy`) models JavaScript and JSON values. An
  object is a `map<string, Value>`. Object spread is map union, where the
  right operand wins as in JavaScript. A missing key is `undefined`. `Truthy`
  is JavaScript truthiness. `x || 0` on a number is `NumOr0`.
- `Text` holds `Array.prototype.join`, a splitter and decimal rendering.
- `Aggregates` holds sums, means, `Math.max` / `Math.min` and
  `filter(Boolean).length`.

The modules per source file are:

- `AnomalyStore` is the zustand store. `StoreState`, `Action` and `Apply` are
  its specification. The class `Store` performs each action in place and is
  proved to do exactly `Apply`. The store invariant is that both buffers stay
  within 50 and 30 entries and there are never more anomalies than readings.
- `ResearchLog` is the logger singleton (a class with an append-only log).
- `ModelComparison`, `AnalysisStats`, `AnomalyTimeline` and
  `FeatureImportance` are the analysis and real-time panels.
- `AttackComparison` and `AttackGeneratorPanel` are the attack panels.
- `Gateway` holds the typed response bodies shared by backend and frontend.
- `Requests` holds the pydantic request schemas.
- `LstmModel` holds the LSTM window logic.
- `AttackGen` holds the attack generator (a class over the dataset rows).
- `App` holds the FastAPI handlers.

Detector networks, HTTP transport, clocks and randomness are not modelled as
code:

- Each detector's network is a function parameter returning a value or a
  failure.
- Clock readings are parameters. `now(i)` is the `datetime.now()` of the
  i-th generated record.
- Random choices are nondeterministic choices within the documented ranges.

## Model

| member | source | states |
|---|---|---|
| AnomalyStore.Newest | frontend/src/stores/useAnomalyStore.js:21 | `slice(-n)` keeps the newest min(n, length) elements, in order |
| AnomalyStore.Push | frontend/src/stores/useAnomalyStore.js:21-23 | a push onto a capacity-`cap` buffer has length min(len+1, cap), and the new element is last |
| AnomalyStore.PushKeepsNewest | frontend/src/stores/useAnomalyStore.js:21-23 | the elements before the new one are the newest survivors of the old buffer, in their old order. Below capacity the push is an append |
| AnomalyStore.AnnotateMerges | frontend/src/stores/useAnomalyStore.js:21 | the history record has the keys of the reading, the detection and `timestamp`. Detection fields override reading fields, and the stamp overrides both |
| AnomalyStore.AnomalyEntryFields | frontend/src/stores/useAnomalyStore.js:23 | the anomaly record is the detection plus the stamp. No field of the reading that the detection lacks is present |
| AnomalyStore.ApplyBounded | frontend/src/stores/useAnomalyStore.js:20-36 | every action keeps both buffers within capacity and anomalies no more numerous than readings |
| AnomalyStore.RunBounded | frontend/src/stores/useAnomalyStore.js:20-36 | any sequence of actions keeps the store invariant (induction over the actions) |
| AnomalyStore.ReachableBounded | frontend/src/stores/useAnomalyStore.js:5-36 | every state reachable from the initial state (empty buffers, threshold 60, not streaming, nothing selected) satisfies the invariant |
| AnomalyStore.AddReadingEffect | frontend/src/stores/useAnomalyStore.js:20-25 | `addReading` appends to readings up to 50 with eviction of the oldest. It appends to anomalies up to 30 exactly when `is_anomaly` is truthy, and otherwise leaves anomalies equal. Threshold, streaming flag and selection are untouched |
| AnomalyStore.ClearHistoryEffect | frontend/src/stores/useAnomalyStore.js:31 | `clearHistory` empties both buffers and changes nothing else |
| AnomalyStore.LastWriteWins | frontend/src/stores/useAnomalyStore.js:27-36 | the setters do not validate. Of two writes to the same field (threshold, streaming, selection) only the last is visible |
| AnomalyStore.AnomalousReadings | frontend/src/stores/useAnomalyStore.js:23 | the anomaly records a run of actions pushes are at most its length |
| AnomalyStore.AnomaliesAfter | frontend/src/stores/useAnomalyStore.js:20-36 | apart from `clearHistory`, only an `addReading` with a truthy `is_anomaly` changes the anomalies buffer, by one push |
| AnomalyStore.AnomalySurvives | frontend/src/stores/useAnomalyStore.js:20-25 | an anomaly record j places from the newest end survives any later actions without `clearHistory` that push k anomaly records, whenever j + k < 30. Normal readings in between are unlimited |
| AnomalyStore.AnomalyOutlivesReading | frontend/src/stores/useAnomalyStore.js:20-25 | the anomaly record of a reading stays in the anomalies buffer through any later actions without `clearHistory` holding fewer than 30 anomalous readings, however many normal readings come in between |
| AnomalyStore.AnomalySurvivesReadings | frontend/src/stores/useAnomalyStore.js:20-25 | the anomaly record of a reading is still there after any 29 further readings, whatever they are |
| AnomalyStore.GuardedRunSelectsAnomalies | frontend/src/stores/useAnomalyStore.js:34 | the store accepts any selection. When every caller selects only anomalous records, the selection stays anomalous across any run |
| AnomalyStore.Store.constructor | frontend/src/stores/useAnomalyStore.js:3-17 | the store starts in the initial state and satisfies the invariant |
| AnomalyStore.Store.AddReading | frontend/src/stores/useAnomalyStore.js:20-25 | the new state is `Apply(old state, AddReading)` and the invariant is kept |
| AnomalyStore.Store.SetThreshold | frontend/src/stores/useAnomalyStore.js:27 | the new state is `Apply(old state, SetThreshold)` |
| AnomalyStore.Store.SetStreaming | frontend/src/stores/useAnomalyStore.js:29 | the new state is `Apply(old state, SetStreaming)` |
| AnomalyStore.Store.ClearHistory | frontend/src/stores/useAnomalyStore.js:31 | the new state is `Apply(old state, ClearHistory)` |
| AnomalyStore.Store.SelectAnomaly | frontend/src/stores/useAnomalyStore.js:34 | the new state is `Apply(old state, SelectAnomaly)` |
| AnomalyStore.Store.ClearSelection | frontend/src/stores/useAnomalyStore.js:36 | the new state is `Apply(old state, ClearSelection)` |
| ResearchLog.Entry | frontend/src/utils/logger.js:13-20 | a log entry has the four base keys plus the event's keys. The event's fields win, and each base field holds the session, user or time value unless the event overrides it |
| ResearchLog.SessionId | frontend/src/utils/logger.js:9 | the session id is longer than the prefix and starts with `session_` |
| ResearchLog.ResearchLogger.constructor | frontend/src/utils/logger.js:7-11 | a new logger has no entries, the generated session id and a null user, so every entry carries the session id |
| ResearchLog.ResearchLogger.Log | frontend/src/utils/logger.js:13-27 | `log` appends exactly one entry built by `Entry`. Session consistency is kept when the event does not override `sessionId` |
| ResearchLog.ResearchLogger.GetLogs | frontend/src/utils/logger.js:41-43 | `getLogs` returns the log as it is |
| ResearchLog.ResearchLogger.ClearLogs | frontend/src/utils/logger.js:46-48 | `clearLogs` empties the log |
| Gateway.EncodeFlag | backend/app.py:161-167 | a flag in a handler's answer is encoded exactly when it is a Python `bool`, as its truth value. A `numpy.bool_` raises after the handler has returned, and the server answers 500 |
| Gateway.Received | frontend/src/utils/api.js:28-32 | the client yields a body exactly when the server answered with success. An error status becomes a rejected call |
| ModelComparison.RecentReadings | frontend/src/components/analysis/ModelComparison.jsx:14-16 | the comparison window is the newest min(10, n) readings, in order |
| ModelComparison.SvmPayload | frontend/src/components/analysis/ModelComparison.jsx:26-39 | the SVM body has `datetime` = stamp / 1000 (a missing stamp gives NaN, sent as null). Each channel is copied from the latest reading when present and left out when absent. There are no other keys |
| ModelComparison.SequenceEntry | frontend/src/components/analysis/ModelComparison.jsx:42-52 | each sequence entry has exactly `datetime` and the eight channels. A channel is the reading's number or 0 |
| ModelComparison.SequencePayload | frontend/src/components/analysis/ModelComparison.jsx:42-66 | the LSTM and battery bodies are the window mapped entry by entry |
| ModelComparison.Requests | frontend/src/components/analysis/ModelComparison.jsx:29-67 | the calls go SVM, then LSTM, then battery. Each is made only if the previous ones succeeded, with the payloads above |
| ModelComparison.Compare | frontend/src/components/analysis/ModelComparison.jsx:29-74 | results exist exactly when all three calls succeed, and then they hold the three answers and the stamp |
| ModelComparison.ComparisonData | frontend/src/components/analysis/ModelComparison.jsx:93-122 | no results means no rows. Otherwise there are three rows (SVM, LSTM, battery) whose anomaly flags are the detectors' `is_anomaly`, `is_anomaly` and `is_spoofed`. The SVM row shows confidence ×100 and the non-negative \|score\|. The LSTM row shows the placeholder confidence 85 and the reconstruction error ×100. The battery row shows the placeholder 90 and the score ×100 |
| ModelComparison.Votes | frontend/src/components/analysis/ModelComparison.jsx:217 | the vote count is at most the number of rows |
| ModelComparison.VoteCountsFlags | frontend/src/components/analysis/ModelComparison.jsx:217-218 | the vote count is the number of detectors that flagged an anomaly. The models agree exactly when all three flags are equal |
| ModelComparison.SvmCardConfidenceIsScore | frontend/src/components/analysis/ModelComparison.jsx:99-100 | for a backend SVM answer (confidence = \|score\| / 100), the SVM row's confidence equals its score |
| ModelComparison.ComparisonPanel.constructor | frontend/src/components/analysis/ModelComparison.jsx:10-11 | no results, not comparing, nothing sent |
| ModelComparison.ComparisonPanel.AwaitDetectors | frontend/src/components/analysis/ModelComparison.jsx:26-74 | the requests sent are exactly `Requests`: SVM, then LSTM, then battery, each made only after the previous succeeded. The result is `Compare`'s |
| ModelComparison.ComparisonPanel.RunComparison | frontend/src/components/analysis/ModelComparison.jsx:18-90 | with fewer than 10 readings nothing is sent or changed. Otherwise the requests of `Requests` are sent and the busy flag ends false. On success the results are stored and one `model_comparison_run` entry is logged; on failure results and log are unchanged |
| AnalysisStats.ChannelStat | frontend/src/components/analysis/AnalysisStats.jsx:22-28 | a channel's min and max are attained values bounding every value, min ≤ avg ≤ max, avg is the mean, and the "variance" is the range max − min ≥ 0 |
| AnalysisStats.FirstMax | frontend/src/components/analysis/AnalysisStats.jsx:32-33 | the stable descending sort's first element is the earliest index whose value is maximal |
| AnalysisStats.MostVolatile | frontend/src/components/analysis/AnalysisStats.jsx:32-33 | the most volatile sensor has a variance no smaller than any sensor's, and every sensor listed before it has a strictly smaller variance |
| AnalysisStats.SensorTable | frontend/src/components/analysis/AnalysisStats.jsx:16-29 | the sensor table has exactly the eight channels, each with the statistics of its column (missing or falsy values count as 0) |
| AnalysisStats.SummariseSensors | frontend/src/components/analysis/AnalysisStats.jsx:16-29 | the loop over the eight sensors builds exactly the sensor table |
| AnalysisStats.ComputeStats | frontend/src/components/analysis/AnalysisStats.jsx:8-47 | no statistics for an empty history. Otherwise the totals, the normal count (readings − anomalies), the detection rate (anomalies / readings × 100), the mean score, the sensor table and the most volatile sensor are as above |
| AnalysisStats.DetectionRateIsPercentage | frontend/src/components/analysis/AnalysisStats.jsx:39 | with no more anomalies than readings the detection rate lies in [0, 100] |
| AnalysisStats.ReachableCountsAreSane | frontend/src/components/analysis/AnalysisStats.jsx:11-12 | on every state the store can reach, the normal count is non-negative and the detection rate is a percentage |
| AnomalyTimeline.Score | frontend/src/components/realtime/AnomalyTimeline.jsx:10 | a point's score is the reading's `anomaly_score` when truthy, else 0 |
| AnomalyTimeline.ChartData | frontend/src/components/realtime/AnomalyTimeline.jsx:8-13 | one point per reading, indexed in order, carrying its flag, its score and the full reading |
| AnomalyTimeline.DotClick | frontend/src/components/realtime/AnomalyTimeline.jsx:15-19 | a click selects exactly when there is a point whose flag is truthy, and it selects that point's full reading |
| AnomalyTimeline.ChartClickSelectsIffAnomalous | frontend/src/components/realtime/AnomalyTimeline.jsx:8-19 | clicking the point of reading i selects exactly when reading i is anomalous, and then selects reading i itself |
| AnomalyTimeline.ClickActions | frontend/src/components/realtime/AnomalyTimeline.jsx:15-19 | a sequence of clicks issues at most one action per click, every one of them a guarded selection |
| AnomalyTimeline.ChartClicksKeepSelectionAnomalous | frontend/src/components/realtime/AnomalyTimeline.jsx:15-19 | through chart clicks alone the selected anomaly is always an anomalous reading |
| AnomalyTimeline.HandleDotClick | frontend/src/components/realtime/AnomalyTimeline.jsx:15-19 | the store performs the click's action when there is one and is unchanged otherwise |
| FeatureImportance.Features | frontend/src/components/realtime/FeatureImportance.jsx:9 | the features list is `feature_importance.features` when that is an array, and otherwise empty |
| FeatureImportance.View | frontend/src/components/realtime/FeatureImportance.jsx:7-10 | nothing is shown without a selection. Otherwise the top min(5, n) features are shown, an overflow section exists exactly when n > 5, and top followed by overflow is the whole list. Each top feature is highlighted exactly when its contribution exceeds 15 |
| FeatureImportance.Close | frontend/src/components/realtime/FeatureImportance.jsx:26-27 | closing clears the selection, so the panel disappears |
| AttackComparison.SourceKey | frontend/src/components/attacks/AttackComparison.jsx:49 | the flow average reads the dataset's spaced column name and every other feature its own name |
| AttackComparison.Averages | frontend/src/components/attacks/AttackComparison.jsx:41-55 | one average per feature, each the mean of that source column with missing or falsy values as 0. An empty batch gives no number (NaN) |
| AttackComparison.CalculateAverages | frontend/src/components/attacks/AttackComparison.jsx:41-55 | the loop over the features computes `Averages` |
| AttackComparison.FlowAverageIgnoresUnspacedKey | frontend/src/components/attacks/AttackComparison.jsx:49-51 | on a batch none of whose samples has the spaced key, the flow average is 0 whatever the samples' `VolumeFlowRateRMS` |
| AttackComparison.GeneratedFlowAverageIsZero | backend/utils/attack_gen.py:45 | every generated attack batch has flow average 0 in the comparison, since generated records carry only the unspaced key |
| AttackComparison.SampleToReading | frontend/src/components/attacks/AttackComparison.jsx:62-72 | the detection body has `datetime` from the parsed date. The flow is the first truthy of the two flow keys. The other channels are copied from their capitalised names (absent stays absent), and there are no other keys |
| AttackComparison.BatchDetections | frontend/src/components/attacks/AttackComparison.jsx:57-79 | one flag per sample among the first min(10, n), in order. A flag is true exactly when the detector call succeeded and reported an anomaly |
| AttackComparison.DetectedCount | frontend/src/components/attacks/AttackComparison.jsx:81 | the detected count never exceeds the batch size or 10 |
| AttackComparison.ComparisonView.constructor | frontend/src/components/attacks/AttackComparison.jsx:7-10 | all panel data starts empty and not loading |
| AttackComparison.ComparisonView.LoadComparisonData | frontend/src/components/attacks/AttackComparison.jsx:18-39 | loading ends false. A failed sample request leaves the panel data unchanged and gives no count. Otherwise the normal batch and both averages are stored and the detected count of the batch is returned |
| AttackGen.AttackRecord.ToRecord | backend/utils/attack_gen.py:35-46 | a generated record carries `VolumeFlowRateRMS` and never the dataset's spaced key, its `Attack` name and its `datetime` |
| AttackGen.Copied | backend/utils/attack_gen.py:77-89 | a copied record keeps the row's tag, takes the new time and the attack name |
| AttackGen.CopiedKeepsChannels | backend/utils/attack_gen.py:80-87 | a replayed record's channels equal the dataset row's, the flow column read from its spaced name |
| AttackGen.AttackGenerator.constructor | backend/utils/attack_gen.py:14-16 | the generator holds the dataset rows |
| AttackGen.AttackGenerator.Sample | backend/utils/attack_gen.py:52 | sampling n rows succeeds exactly when 0 ≤ n ≤ dataset size, and then picks n distinct valid row indices |
| AttackGen.AttackGenerator.Generate | backend/utils/attack_gen.py:18-29 | an unknown type fails with `Unknown attack type: …`. Fuzzy always succeeds with max(n, 0) records. The others succeed exactly when the sample fits the dataset, with n, n or 5n records. Every record carries the attack name and its time |
| AttackGen.AttackGenerator.GenerateFuzzy | backend/utils/attack_gen.py:31-48 | max(n, 0) records, each with every channel in its documented range, a `Fuzzy_` tag with four digits, the name `Fuzzy` and its time |
| AttackGen.AttackGenerator.GenerateSpoofing | backend/utils/attack_gen.py:50-69 | n sampled rows, each perturbed within ±2/±2/±1/±5/±3/±2/±5/±3 of the row, tag kept, named `Spoofing` |
| AttackGen.AttackGenerator.GenerateReplay | backend/utils/attack_gen.py:71-90 | n sampled rows copied unchanged except time, named `Replay` |
| AttackGen.AttackGenerator.GenerateDos | backend/utils/attack_gen.py:92-112 | 5n records. Record t copies sampled row t mod n, named `DoS` |
| AttackGen.AttackGenerator.AppendRound | backend/utils/attack_gen.py:98-111 | one round of the DoS loop appends the n copies of the sample in sample order |
| AttackGen.AttackGenerator.GetNormalSamples | backend/utils/attack_gen.py:114-117 | n distinct dataset rows as records, failing exactly when n is outside [0, size] |
| AttackGen.TagOfFour | backend/utils/attack_gen.py:36 | `Fuzzy_` followed by a number in [1000, 9999] is a fuzzy tag whose digits read back as that number |
| AttackGen.Uniform | backend/utils/attack_gen.py:38-45 | a uniform draw lies within its bounds |
| AttackGen.DosRepeatsBlock | backend/utils/attack_gen.py:97-111 | the DoS output is periodic: record t equals record t − n except for its time |
| AttackGeneratorPanel.PanelChoicesAccepted | frontend/src/components/attacks/AttackGenerator.jsx:7-8 | the panel's four types are exactly the backend's, its defaults are among its choices, and every slider value with every type passes the backend's validation unchanged |
| AttackGeneratorPanel.GeneratorPanel.constructor | frontend/src/components/attacks/AttackGenerator.jsx:7-10 | the panel starts on fuzzy, 50 samples, idle, no data |
| AttackGeneratorPanel.GeneratorPanel.HandleGenerate | frontend/src/components/attacks/AttackGenerator.jsx:39-62 | on success the batch is kept, one `attack_generated` entry is logged and the callback gets the batch when there is one. On failure only the busy flag changes. The busy flag always ends false |
| AttackGeneratorPanel.Cell | frontend/src/components/attacks/AttackGenerator.jsx:72 | a missing or null value renders as the empty cell, a string as itself, a boolean as `true` or `false`, an object as `[object Object]`; numbers and arrays go through the number-to-text conversion |
| AttackGeneratorPanel.Cells | frontend/src/components/attacks/AttackGenerator.jsx:72 | one cell per header, in header order |
| AttackGeneratorPanel.CsvLines | frontend/src/components/attacks/AttackGenerator.jsx:69-74 | the header line followed by one line per sample, each the comma-joined cells |
| AttackGeneratorPanel.HandleDownload | frontend/src/components/attacks/AttackGenerator.jsx:64-74 | no data means no file. An empty batch throws (no first sample). Otherwise the file is the newline-joined lines with the header taken from the first sample's keys |
| AttackGeneratorPanel.CsvReadsBack | frontend/src/components/attacks/AttackGenerator.jsx:68-74 | when no header or cell contains a comma or a newline, splitting the file by newline gives back the lines (1 + n of them), and splitting each line by comma gives back the header and the cells |
| Requests.ToArray | backend/schemas/requests.py:24-36 | the model vector has nine values in the order datetime, accelerometers, current, pressure, temperature, thermocouple, flow, voltage |
| Requests.ArrayRoundTrip | backend/schemas/requests.py:24-36 | the vector determines the reading and back |
| Requests.Field | backend/schemas/requests.py:12-22 | a field is read under its alias when the alias is present, else under its field name, and must be a number |
| Requests.ParseSensorReading | backend/schemas/requests.py:9-22 | a body validates exactly when all nine fields are numbers under alias or name, and then holds each field's value in its own slot |
| Requests.ParseSerialized | backend/schemas/requests.py:9-22 | a serialised reading validates back to itself |
| Requests.ParseAttackRequest | backend/schemas/requests.py:39-42 | a body validates exactly when the type is one of four and the count, defaulting to 10, is an integer in [1, 1000]. Then it holds those values |
| Requests.AttackBodyAccepted | frontend/src/utils/api.js:20-26 | the client's attack body for a valid choice validates to that choice |
| LstmModel.LastRows | backend/models/lstm_model.py:59 | the detector keeps the newest min(10, n) rows |
| LstmModel.LstmDetector.Detect | backend/models/lstm_model.py:52-67 | an empty window or a row whose width differs from the scaler's fails. Otherwise the verdict is error > threshold, with the error of the last ten rows, held in a `numpy.bool_` |
| LstmModel.DetectUsesLastTen | backend/models/lstm_model.py:59 | two sequences with the same last ten rows get the same answer |
| LstmModel.Windows | backend/models/lstm_model.py:45-50 | max(n − len, 0) windows; window i is `data[i..i+len]` |
| LstmModel.CreateSequences | backend/models/lstm_model.py:45-50 | the loop builds exactly `Windows` |
| LstmModel.WindowsShape | backend/models/lstm_model.py:45-50 | each window has the sequence length, consecutive windows overlap in all but one row, and windows + length = data length |
| App.HealthCheck | backend/app.py:68-78 | status `healthy` and one loaded flag per detector |
| App.SvmPrediction | backend/models/svm_model.py:48 | the SVM predicts 1 exactly when the score is at least 60, else −1 |
| App.ParseAll | backend/app.py:125 | a list body validates exactly when every element does, and then holds the parsed readings in order |
| App.DetectSvm | backend/app.py:103-121 | an invalid body is a 422 with its error. Success happens exactly when validation and the detector succeed, with anomaly = (prediction 1), confidence × 100 = \|score\|, and the reading's timestamp. Every error is a 422 or a 500 |
| App.DetectLstm | backend/app.py:124-148 | an invalid body gives 422 and fewer than 10 valid readings give 400. Otherwise the answer is `LstmAnswer` of the detector's result on the nine-value vectors of the last ten readings |
| App.LstmAnswer | backend/app.py:134-148 | a detector error is a 500. A verdict returned as it is is a 500 when its flag is a `numpy.bool_`, and a success carrying the flag, the error and the threshold when it is a Python `bool` |
| App.DetectorAnswerIsError | backend/app.py:136-143 | whatever rows the detector is given, returning its verdict as it is gives a 500 |
| App.DetectLstmNeverAnswers | backend/app.py:124-148 | whatever detector is loaded, the handler as written never succeeds, and a valid body never gets a 422 |
| App.DetectLstmAlwaysFails | backend/app.py:134 | with the loaded detector (scaler fitted on eight columns) every valid request of ten or more readings is a 500 |
| App.LstmRow | backend/models/lstm_model.py:18-22 | the corrected row is the first eight vector values, matching the LSTM column order |
| App.DetectLstmCorrected | backend/app.py:124-148 | an invalid body gives 422 and fewer than 10 valid readings give 400. Otherwise the eight LSTM columns of the last ten readings go to the detector, and its flag is returned as `bool(is_anomaly)`: its answer is a success and its failure is a 500 |
| App.DetectLstmCorrectedAnswers | backend/app.py:134-143 | with eight-column rows every valid request of ten or more readings succeeds, with error and threshold reported and the verdict error > threshold |
| App.BatteryDetector.Detect | backend/models/battery_model.py:36-45 | the detector scores the last ten pairs and flags spoofing exactly when the error exceeds 0.05. The flag is a `numpy.bool_` |
| App.DetectBattery | backend/app.py:151-174 | invalid is 422. Fewer than 10 is 400. Otherwise the detector's flag is returned as it is: a `numpy.bool_` flag gives a 500, and a Python `bool` a success with the flag and the error |
| App.DetectBatteryAlwaysFails | backend/app.py:161-167 | every valid request of ten or more readings is answered with a 500, because the detector's flag cannot be encoded |
| App.DetectBatteryCorrected | backend/app.py:151-174 | with `bool(is_spoofed)` returned: invalid is 422, fewer than 10 is 400, otherwise success with the error of the last ten (datetime, voltage) pairs, spoofed exactly when it exceeds 0.05 |
| App.Severity | backend/app.py:210 | `high` above 80, `medium` in (60, 80], `low` at or below 60 |
| App.SeverityAgreesWithVerdict | backend/app.py:208-210 | a normal verdict is always `low` and an anomaly above 60 is never `low`. At exactly 60 the verdict is anomalous yet `low` |
| App.GenerateAttack | backend/app.py:81-100 | an invalid body is a 422 and a generator failure a 500, no other error. A success echoes the type and counts the records, each carrying its attack name. A valid fuzzy request always succeeds with the requested count. A valid spoofing, replay or DoS request succeeds exactly when the dataset has at least n rows, with n, n and 5n records |
| App.GetSampleData | backend/app.py:177-191 | success exactly when 0 ≤ n ≤ dataset size, with n samples and count n; otherwise a 500 |
| App.SequenceEntryValidates | frontend/src/components/analysis/ModelComparison.jsx:42-52 | every comparison sequence entry of a stamped reading validates against the reading schema, with each channel the reading's value or 0 |
| App.ComparisonLstmRequestFails | frontend/src/components/analysis/ModelComparison.jsx:53 | given ten stamped readings, the comparison's LSTM request reaches the detector and always gets a 500, so a comparison never completes |

## Left out

- Periodic polling and streaming (`useRealtimeData`) and the websocket loop are left out. Only the severity ladder of the websocket handler is modelled.
- HTTP transport is a function parameter returning a body or an error. The three comparison calls in sequence are modelled that way, and axios error details are not kept.
- The SVM, LSTM and battery networks and their scalers are function parameters. For the SVM that is the decision score; for the LSTM it is the reconstruction error and the fitted width; for the battery it is the reconstruction error. The training-time 95th-percentile threshold is a parameter.
- A battery-network exception is not modelled. `App.DetectBatteryCorrected` therefore never answers 500 to a valid request of ten or more readings.
- FastAPI's JSON encoding of an answer is modelled only for its flags. A numpy float, such as the LSTM threshold or an error passed through `float()`, is a Python `float` and encodes.
- Json.NumOr0 reads a truthy non-number (`true`, a non-empty string) as 0, where JavaScript's `x || 0` keeps it. Readings come from the backend's numeric JSON, so a channel holds a number or nothing.
- Randomness (`random.uniform`, `random.randint`, `df.sample`, `Math.random`) is a nondeterministic choice within the documented bounds. Exact distributions are not modelled.
- Clocks (`Date.now()`, `datetime.now()`, `toISOString`) are parameters. So is date parsing in the attack comparison (`new Date(…).getTime()`).
- JavaScript's number-to-text rendering in the CSV export (numbers, and the numbers inside an array cell), and the key order of `Object.keys`, are parameters. A `map` has no key order.
- `toFixed` display formatting, every rendered element, the 3-D view, ControlPanel, SensorReadings, browser downloads, alerts and console output are left out.
- Pydantic's lax coercion of numeric strings and booleans is not modelled. Only JSON numbers validate.
- Dataset columns beyond tag, datetime and the eight channels are not modelled.
- FeatureImportance.Features treats a truthy non-array `features` value as an empty list. In the source the outcome depends on the value's type: a string is sliced by characters and an object throws.
- FeatureImportance.IsHighContributor treats a non-numeric contribution as not high. JavaScript would compare a numeric string by value.
- The concurrency of `Promise.all` is not modelled. The flags are gathered in sample order, and the count does not depend on order.
- AttackComparison.DetectedCount: only bounds the count, because the count is the number of true flags of `BatchDetections`, whose contract states each flag; the source only writes it to the console, so the model returns it.
- AttackComparison.ComparisonView.LoadComparisonData: a failure thrown by the batch detection after the averages are stored is not modelled, because every per-sample failure there is caught and counted as false.

## Findings

| source | as written | input that shows it | evidently intended | confidence | as-written member | corrected member |
|---|---|---|---|---|---|---|
| backend/app.py:134 | the LSTM handler sends each reading's nine-value `to_array()` vector (backend/schemas/requests.py:24-36). The detector's scaler was fitted on eight columns (backend/models/lstm_model.py:18-22, 31-34), so `scaler.transform` rejects every window and the handler answers 500. The comparison panel's LSTM call (frontend/src/components/analysis/ModelComparison.jsx:53) therefore always fails | any ten valid readings, e.g. ten copies of a reading with every field 0 | send the eight LSTM columns (the vector without its final voltage) and return `bool(is_anomaly)`, so that a valid window gets a verdict | not executed | App.DetectLstm, App.DetectLstmAlwaysFails, App.ComparisonLstmRequestFails | App.DetectLstmCorrected, App.DetectLstmCorrectedAnswers |
| backend/app.py:161-167 | the battery handler returns the detector's flag as it is under `is_spoofed`. That flag is a `numpy.bool_` (backend/models/battery_model.py:42-43: the numpy error compared with 0.05). FastAPI encodes the returned dict only after the handler has returned, outside its `try`, and its encoder has no rule for `numpy.bool_`, so every valid request of ten or more readings is answered with a 500. The LSTM handler returns its flag the same way (backend/app.py:140, backend/models/lstm_model.py:64-65) | any ten valid readings, e.g. ten copies of a reading with every field 0 | return `bool(is_anomaly)`, so that the answer can be encoded | not executed; rests on FastAPI's encoder | App.DetectBattery, App.DetectBatteryAlwaysFails, App.DetectLstmNeverAnswers | App.DetectBatteryCorrected, App.DetectLstmCorrectedAnswers |
