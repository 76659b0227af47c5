# GasGuard core, modelled in Dafny

GasGuard watches gas concentrations (methane, LPG, carbon monoxide and
hydrogen sulfide) in four zones and decides how dangerous each reading is.
This project models the decision logic and the simulators that feed it, and
proves properties of both:

- **The hybrid risk classifier** of the ML service has two versions: the
  trained-model service and the older untrained one.
  - A reading is classified twice. The PPM path looks each gas up in its
    threshold table and takes the worst gas. The anomaly path feeds the
    last ten readings to an LSTM and classifies its prediction error.
  - The final risk is the higher of the two. From it follow:
    - a confidence, from the rank distance between the two paths;
    - the notify, alarm and ventilation flags;
    - a recommended action;
    - a leak probability, rank / 5.
  - Files: `risk_levels.dfy`, `ppm_classifier.dfy`, `anomaly_scoring.dfy`,
    `fusion.dfy`, `trained_service.dfy`, `untrained_service.dfy`.
- **The scenario simulator service** keeps a record per zone: its scenario,
  the ticks remaining, custom levels and leak progress.
  - Each tick advances the record.
  - Readings are drawn from the scenario's template.
  - A scenario activation request is validated, and a zone or all zones
    can be reset.
  - File: `scenario_simulator.dfy`.
- **The stand-alone IoT simulator** has one mode machine per zone: NORMAL,
  then a gradual leak, then possibly a spike.
  - It keeps send statistics.
  - File: `iot_simulator.dfy`.
- **Training-data selection** covers three things:
  - the sliding windows that make (input, target) pairs;
  - the dataset dispatch and column resolution of the generic training
    script;
  - how the Zenodo script identifies sensor files, picks value columns,
    truncates and orders features.
  - Files: `sequence_windows.dfy`, `train_model.dfy`, `train_zenodo.dfy`.
  - `SequenceWindows.CreateSequences` stands for the identical
    `create_sequences` of both scripts (ml-service/train_model.py:211-235
    and ml-service/train_zenodo.py:220-237).

The LSTM network is a function parameter `Window -> Vector`. The min-max
scaler is an affine map per feature, with a positive range. Random draws are
parameters, such as a unit draw per gas, the transition draw and the
amplitude. The backend's answer to a post is an input value.

`classify_by_ppm` returns NORMAL for a gas name it has no table for,
rather than rejecting it (ml-service/app_with_trained_model.py:133-136). The
model does the same (`PpmClassifier.ClassifyFallbacks`).

Both service versions carry the same thresholds, `classify_by_ppm`,
`get_highest_risk`, `classify_multi_gas_ppm`, request check and fusion. The
trained version's line numbers are cited for them. The untrained version
(ml-service/app_old_untrained.py:31-164 and 243-368) differs only in error
message wording.

The untrained version's trend window starts at `len(buffer) - 12`. For a
buffer of 10 or 11 readings, Python's negative slice bound gives an empty
window, and the reshape raises. The model keeps that: the route answers
with a server error on the 10th and 11th reading.
`UntrainedService.RecentErrorsNeedTwelve` proves that this happens exactly
below 12 readings.

## Model

| member | source | states |
|---|---|---|
| RiskLevels.Rank | ml-service/app_with_trained_model.py:73-80 | RISK_HIERARCHY ranks are 0..5; rank 0 is only NORMAL and rank 5 only CRITICAL |
| RiskLevels.FromRank | ml-service/app_with_trained_model.py:73-80 | every rank 0..5 belongs to a level, and it is that level's rank |
| RiskLevels.Parse | ml-service/app_with_trained_model.py:73-80 | a string found among the hierarchy keys is the label of the level returned; a string not found is no level's label |
| RiskLevels.RankInjective | ml-service/app_with_trained_model.py:73-80 | two levels have the same rank iff they are the same level |
| RiskLevels.ParseLabel | ml-service/app_with_trained_model.py:73-80 | parsing a level's label gives the level back |
| RiskLevels.MaxLevel | ml-service/app_with_trained_model.py:322 | the higher of two levels ranks at least as high as both and is one of them |
| PpmClassifier.TablesWellFormed | ml-service/app_with_trained_model.py:38-71 | each gas table has six bands in rank order; the first starts at 0, each ends where the next begins, and only the last is unbounded |
| PpmClassifier.FirstMatchFinds | ml-service/app_with_trained_model.py:141-143 | the band loop returns the level of the first band holding the value |
| PpmClassifier.FirstMatchMisses | ml-service/app_with_trained_model.py:141-145 | a value in no band falls through the loop |
| PpmClassifier.BandEndsBeforeLater | ml-service/app_with_trained_model.py:38-71 | an earlier band ends at or before a later one starts |
| PpmClassifier.BandsDisjoint | ml-service/app_with_trained_model.py:38-71 | no value lies in two bands of one table |
| PpmClassifier.BandsCover | ml-service/app_with_trained_model.py:38-71 | every non-negative value lies in some band |
| PpmClassifier.ClassifyIsContainingBand | ml-service/app_with_trained_model.py:133-145 | for a known gas and a non-negative value, the result is a band's level iff the value lies in that band (min <= ppm < max) |
| PpmClassifier.ClassifyMonotone | ml-service/app_with_trained_model.py:133-145 | a higher non-negative concentration never ranks lower |
| PpmClassifier.ClassifyFallbacks | ml-service/app_with_trained_model.py:133-145 | an unknown gas gives NORMAL; for a known gas a negative, NaN or infinite value gives CRITICAL |
| PpmClassifier.MethaneBoundary | ml-service/app_with_trained_model.py:39-46 | methane 999 ppm is NORMAL, 1000 is LOW_ANOMALY (the lower bound is inclusive), 7000 is CRITICAL |
| PpmClassifier.KnownOnly | ml-service/app_with_trained_model.py:155-156 | the labels kept are all hierarchy keys and no more than the input |
| PpmClassifier.HighestRiskIgnoresUnknown | ml-service/app_with_trained_model.py:147-162 | an empty list gives NORMAL; labels outside the hierarchy do not change the result |
| PpmClassifier.HighestRiskIsMaximum | ml-service/app_with_trained_model.py:147-162 | the result ranks at least as high as every known label in the list, and is NORMAL or one of those labels |
| PpmClassifier.GetHighestRisk | ml-service/app_with_trained_model.py:147-162 | the accumulator loop computes the highest risk of the list |
| PpmClassifier.DominantIndex | ml-service/app_with_trained_model.py:181 | the dominant gas is one of the classified gases |
| PpmClassifier.DominantIsFirstMaximum | ml-service/app_with_trained_model.py:181 | `max(..., key=rank)` picks the first gas of maximal rank: no gas ranks higher and every earlier gas ranks strictly lower |
| PpmClassifier.MultiGasIsMaxRule | ml-service/app_with_trained_model.py:164-182 | each gas keeps its ppm and its own class; the overall risk ranks at least as high as every gas and is the class of the dominant gas, the first gas reaching it |
| PpmClassifier.ClassifyMultiGasPpm | ml-service/app_with_trained_model.py:164-182 | the per-gas loop computes the multi-gas classification |
| PpmClassifier.MultiGasDominanceExample | ml-service/app_with_trained_model.py:164-182 | example, not a general property: methane 500, lpg 400, CO 120 and H2S 8 give WARNING with carbonMonoxide dominant |
| AnomalyScoring.AnomalyBands | ml-service/app_with_trained_model.py:28-35 | the bands are inclusive above: NORMAL iff error <= 0.15, LOW_ANOMALY iff 0.15 < error <= 0.30, and so on up to CRITICAL iff error > 1.10 |
| AnomalyScoring.AnomalyMonotone | ml-service/app_with_trained_model.py:195-200 | a larger error never ranks lower |
| AnomalyScoring.AnomalyNonFinite | ml-service/app_with_trained_model.py:195-200 | a NaN or +inf error is CRITICAL; -inf is NORMAL |
| AnomalyScoring.LastN | ml-service/app_with_trained_model.py:210 | the tail taken has min(len, n) elements |
| AnomalyScoring.AppendKeepsNewest | ml-service/app_with_trained_model.py:192-204 | appending to the full deque drops the oldest reading: the buffer is the newest 50 readings, ending with the new one |
| AnomalyScoring.AppendAll | ml-service/app_with_trained_model.py:192-204 | any sequence of appends keeps the buffer within 50 readings |
| AnomalyScoring.AppendAllKeepsNewest | ml-service/app_with_trained_model.py:192-204 | after any history of appends the buffer is the last 50 readings of everything appended |
| AnomalyScoring.MeanAbsDiff | ml-service/app_with_trained_model.py:229 | the mean absolute difference is non-negative, and zero iff the vectors are equal |
| AnomalyScoring.InverseUndoesTransform | ml-service/app_with_trained_model.py:213-224 | inverse_transform undoes transform for a scaler with positive ranges |
| AnomalyScoring.NormalizeWindow | ml-service/app_with_trained_model.py:213-214 | normalising a window keeps its length |
| AnomalyScoring.AsWrittenPerfectPredictionIsCritical | ml-service/app_with_trained_model.py:221-229 | as written, a prediction equal to the scaled reading gets error 999 and CRITICAL (see Findings) |
| AnomalyScoring.PerfectPredictionHasZeroError | ml-service/app_with_trained_model.py:221-229 | corrected error: zero iff the prediction equals the normalised reading, and then NORMAL |
| AnomalyScoring.RatioTrendByRatio | ml-service/app_with_trained_model.py:246-251 | for a positive reference: increasing iff ratio > 1.2, decreasing iff ratio < 0.8, stable iff 0.8 <= ratio <= 1.2 |
| AnomalyScoring.RatioTrendScaleInvariant | ml-service/app_with_trained_model.py:246-251 | scaling both sides by a positive factor does not change the trend |
| AnomalyScoring.CalculateTrendUsesLastFive | ml-service/app_with_trained_model.py:237-251 | fewer than 5 readings give stable; otherwise only the last five readings matter |
| AnomalyScoring.CalculateTrendScaleInvariant | ml-service/app_with_trained_model.py:237-251 | `_calculate_trend` is unchanged when all readings are scaled by a positive factor |
| Fusion.ParseBody | ml-service/app_with_trained_model.py:275-312 | no body or an empty one is "Invalid input" (iff); non-empty sensorData reads the four gases of entry 0, a missing one as 0; otherwise `values` must hold exactly 4 numbers, else "Expected 4 gas values" (iff); gas_values are methane, lpg, carbonMonoxide, hydrogenSulfide in that order and agree with the vector |
| Fusion.MissingGasIsNormal | ml-service/app_with_trained_model.py:283-290 | a gas absent from the sensorData entry reads 0 ppm, which is NORMAL |
| Fusion.ConfidenceOf | ml-service/app_with_trained_model.py:324-330 | high iff the ranks are equal, medium iff one apart, low iff two or more apart |
| Fusion.ActionFor | ml-service/app_with_trained_model.py:337-366 | "monitor" iff rank <= 1; "evacuate" iff CRITICAL |
| Fusion.HighestOfTwo | ml-service/app_with_trained_model.py:322 | get_highest_risk of two labels keeps the first unless the second ranks strictly higher |
| Fusion.Fuse | ml-service/app_with_trained_model.py:321-367 | final risk ranks >= both inputs and is one of them; confidence from the ranks; notify iff rank 2..3; alarm iff rank >= 4; ventilation equals alarm; the action map; leak probability rank / 5, so in [0,1], 1 iff CRITICAL, 0 iff NORMAL |
| Fusion.FuseSymmetric | ml-service/app_with_trained_model.py:321-335 | the decision does not depend on which path reported which risk |
| Fusion.FuseIsMax | ml-service/app_with_trained_model.py:322 | the final risk is the maximum of the two risks |
| Fusion.AllCriticalDecision | ml-service/app_with_trained_model.py:321-367 | both paths CRITICAL give a high-confidence CRITICAL with alarm, ventilation, "evacuate" and probability 1 |
| TrainedService.AnomalyResultCases | ml-service/app_with_trained_model.py:202-235 | below 10 readings: the old state, error 0 and "insufficient_data" (trend iff); otherwise the anomaly class of a non-negative error |
| TrainedService.ExactPredictionIsNormal | ml-service/app_with_trained_model.py:202-235 | corrected (see Findings): a network that predicts the normalised reading exactly yields NORMAL once warm |
| TrainedService.CorrectedDiffersOnlyInError | ml-service/app_with_trained_model.py:202-235 | the corrected result equals the code's without a scaler and during the cold start; with a scaler the trend is the same and the risk is the anomaly class of the code's own error |
| TrainedService.AsWrittenExactPredictionIsCritical | ml-service/app_with_trained_model.py:221-229 | as written, an exact prediction of the reading (1,1,1,1) under a [0, 1000] scaler is CRITICAL once warm, where the corrected result is NORMAL (see Findings) |
| TrainedService.GasLeakPredictor.constructor | ml-service/app_with_trained_model.py:189-193 | empty buffer, state NORMAL, the given model and scaler |
| TrainedService.GasLeakPredictor.PredictAnomaly | ml-service/app_with_trained_model.py:202-235 | the reading is appended to the bounded buffer first; the result is the anomaly result of the new buffer, and the state becomes the reported risk |
| TrainedService.GasLeakPredictor.Predict | ml-service/app_with_trained_model.py:272-374 | corrected (see Findings): a rejected body answers 400 and leaves the predictor unchanged; otherwise the PPM result, the corrected anomaly result of the appended buffer and their fusion |
| UntrainedService.PySlice | ml-service/app_old_untrained.py:208 | Python slicing with in-range bounds is the ordinary subsequence; a slice is never longer than the list |
| UntrainedService.ErrorsBetween | ml-service/app_old_untrained.py:207-211 | a successful error list has one error per window index |
| UntrainedService.FailureStops | ml-service/app_old_untrained.py:207-211 | once a window fails, the comprehension has raised and later windows do not matter |
| UntrainedService.RecentErrorsNeedTwelve | ml-service/app_old_untrained.py:206-211 | the recent-error computation fails iff the buffer holds fewer than 12 readings; otherwise it is exactly the errors of the windows ending 2 and 1 readings before the newest |
| UntrainedService.WarmResultCases | ml-service/app_old_untrained.py:199-226 | a warm prediction fails iff fewer than 12 readings; otherwise the class of a non-negative error, with the ratio trend of the two recent errors |
| UntrainedService.GasLeakPredictor.constructor | ml-service/app_old_untrained.py:167-171 | empty buffer, not initialised, state NORMAL |
| UntrainedService.GasLeakPredictor.WarmUp | ml-service/app_old_untrained.py:173-177 | the model becomes the fitted one and is marked initialised; buffer and state unchanged |
| UntrainedService.GasLeakPredictor.ComputeRecentErrors | ml-service/app_old_untrained.py:207-211 | the loop computes the recent-error list, stopping at the first window that cannot be reshaped |
| UntrainedService.GasLeakPredictor.PredictAnomaly | ml-service/app_old_untrained.py:186-226 | append first; warm-up once, at the first call with a full window, never again; below 10 readings the old state; otherwise the warm result, the state changing only on success |
| UntrainedService.GasLeakPredictor.Predict | ml-service/app_old_untrained.py:239-368 | a rejected body answers 400 and changes nothing (buffer, state, flag, network, warm-up count); for readings the buffer is appended and warm_up runs at most once, at the first full window; below 10 readings the old state with error 0 and "insufficient_data"; a failing trend computation answers 500 and keeps the state; otherwise the PPM result fused with the anomaly result |
| ScenarioSimulator.TemplateCalibrated | simulator-service/app.py:28-67 | every value in a level's template range classifies as that level for its gas |
| ScenarioSimulator.TickPreserves | simulator-service/app.py:168-200 | a tick keeps a record well formed and leaves a NORMAL zone unchanged; the scenario stays or the record reverts to NORMAL; progress falls only on that revert |
| ScenarioSimulator.TickNSplit | simulator-service/app.py:168-200 | a+b updates are a updates followed by b |
| ScenarioSimulator.CountdownRuns | simulator-service/app.py:185-191 | a timed non-leak scenario loses exactly one tick per update |
| ScenarioSimulator.CountdownExpires | simulator-service/app.py:185-200 | a timed non-leak scenario with k ticks is back to the full NORMAL record after exactly k updates |
| ScenarioSimulator.NoCountdownNeverExpires | simulator-service/app.py:186-194 | a scenario without a countdown never reverts |
| ScenarioSimulator.GradualRamp | simulator-service/app.py:178-179 | after j < 20 updates the gradual leak's progress is j/20 and its countdown is untouched |
| ScenarioSimulator.FullStrengthStep | simulator-service/app.py:178-200 | the update that reaches progress 1 also takes the first tick off the countdown |
| ScenarioSimulator.GradualHold | simulator-service/app.py:178-183 | at full progress the countdown runs one tick per update |
| ScenarioSimulator.GradualExpires | simulator-service/app.py:178-200 | a gradual leak with k ticks reverts to NORMAL after exactly 19 + k updates |
| ScenarioSimulator.Trunc | simulator-service/app.py:282 | `int()` truncates toward zero |
| ScenarioSimulator.TicksBounds | simulator-service/app.py:280-288 | a countdown is at least 1 and covers a duration of at least one interval to within one 2-second tick; defaults are 1 for SUDDEN_SPIKE, 30 for GRADUAL_LEAK and none otherwise |
| ScenarioSimulator.FirstNonNumeric | simulator-service/app.py:275-277 | none iff all four gases are present and numeric (a bool counts as numeric); otherwise a gas that is missing or not numeric |
| ScenarioSimulator.Activation | simulator-service/app.py:253-300 | "JSON body required" iff there is no body, a falsy non-object or an object with no keys (an object of nulls passes this check); a truthy non-object answers 500; accepted iff the object is non-empty, zone and scenario are valid strings, CUSTOM comes with four numeric levels and the duration is absent, null or numeric; a valid request with any other duration answers 500; the new record is for the requested zone, well formed, with the requested scenario, progress 0 and the computed countdown |
| ScenarioSimulator.InterpolateBounds | simulator-service/app.py:105-116 | the gradual-leak ranges are the NORMAL template at progress 0 and WARNING at 1, and lie between them |
| ScenarioSimulator.TemplateFallbackUnused | simulator-service/app.py:126-131 | a record that is not CUSTOM, GRADUAL_LEAK or SUDDEN_SPIKE always names a template, so the NORMAL fallback of `.get` is never taken and the zone reads from its own template |
| ScenarioSimulator.UniformInRange | simulator-service/app.py:122-131 | a unit draw maps into the range |
| ScenarioSimulator.TemplateScenarioReadsAsItsState | simulator-service/app.py:126-131 | a zone in a level's scenario produces readings that each gas classifies as that level |
| ScenarioSimulator.ValidStatesUpdate | simulator-service/app.py:290-297 | writing a well-formed record for a known zone keeps zone_states valid |
| ScenarioSimulator.Simulator.constructor | simulator-service/app.py:73-74 | no zone records and zero counters |
| ScenarioSimulator.Simulator.InitZoneStates | simulator-service/app.py:77-86 | every zone NORMAL with no countdown, levels or progress |
| ScenarioSimulator.Simulator.UpdateZoneState | simulator-service/app.py:168-200 | only the given zone changes, by one tick |
| ScenarioSimulator.Simulator.ActivateScenario | simulator-service/app.py:253-310 | the result is Activation of the request; on success exactly the requested zone is replaced by the new record; on any error, 400 or 500, nothing changes |
| ScenarioSimulator.Simulator.ResetZone | simulator-service/app.py:313-341 | a missing zone or "all" resets every zone; a known zone resets only itself; anything else is refused and changes nothing |
| ScenarioSimulator.Simulator.SendReading | simulator-service/app.py:134-165 | exactly one of total_sent and errors grows; total_sent grows iff the backend answered 200 |
| IotSimulator.LeakRangesBounds | iot-simulator.py:91-105 | the leak ranges are the normal ranges at progress 0 and the gradual ranges at 1, and lie between them |
| IotSimulator.StepPreservesInvariant | iot-simulator.py:144-164 | a step never produces OSCILLATING, keeps progress in [0,1] and leaves a spike pending only at full progress |
| IotSimulator.NormalStartsLeak | iot-simulator.py:148-153 | a start-leak draw switches to a gradual leak from 0, yet the reading returned is a normal one |
| IotSimulator.GradualLeakStep | iot-simulator.py:107-116 | progress climbs by 0.05, capped at 1; on reaching 1 the zone spikes iff the draw is below 0.3 (progress kept), else returns to NORMAL with progress 0 |
| IotSimulator.SpikeIsSingle | iot-simulator.py:120-132 | a spike yields one reading in the spike ranges and the zone is NORMAL again |
| IotSimulator.DrawInTemplate | iot-simulator.py:82-89 | unit draws give a reading inside the ranges |
| IotSimulator.AsWrittenCountsTwice | iot-simulator.py:191-208 | as written, a 200 answer whose body is a JSON list counts as one success and one failure (see Findings) |
| IotSimulator.SendEffect | iot-simulator.py:184-210 | corrected: each attempt adds one to successful or failed, never both; successful grows iff a 200 answer's risk state can be read; total_sent grows iff an answer arrived; risk counts grow by at most the new successes |
| IotSimulator.SendEffectAgreesElsewhere | iot-simulator.py:184-210 | the corrected effect equals the code's on every outcome except a parsed 200 answer whose risk state cannot be read |
| IotSimulator.CountRiskTotal | iot-simulator.py:197-200 | counting a label raises the total of the six counters by at most one, and not at all for a label outside them |
| IotSimulator.LabelInjective | iot-simulator.py:72-79 | sanity fact: the six counter keys are distinct labels |
| IotSimulator.RiskTotalZero | iot-simulator.py:72-79 | sanity fact: fresh counters sum to zero |
| IotSimulator.IoTSimulator.constructor | iot-simulator.py:63-80 | every zone NORMAL with progress 0; all counters zero |
| IotSimulator.IoTSimulator.GradualLeakReading | iot-simulator.py:91-118 | one gradual-leak step of the zone; other zones and the statistics unchanged |
| IotSimulator.IoTSimulator.SpikeReading | iot-simulator.py:120-132 | a spike reading and the zone back to NORMAL |
| IotSimulator.IoTSimulator.GenerateReading | iot-simulator.py:144-164 | one step of the zone's mode machine; other zones unchanged; the invariant is kept |
| IotSimulator.IoTSimulator.SendReading | iot-simulator.py:166-210 | the statistics follow the corrected send effect, keeping the risk counts within the successes; returns whether the attempt succeeded |
| SequenceWindows.PairCount | ml-service/train_model.py:222 | the count is n - L when n > L, else 0 |
| SequenceWindows.CreateSequences | ml-service/train_model.py:211-235 | max(0, n-L) pairs; input i is data[i:i+L] (length L) and target i is data[i+L] |
| SequenceWindows.SequencedUnique | ml-service/train_model.py:220-226 | the pairs are determined by the data |
| SequenceWindows.TargetIsNextWindowEnd | ml-service/train_model.py:222-226 | each target is the last row of the next window, and consecutive windows overlap in all but one row |
| SequenceWindows.TargetsAreSuffix | ml-service/train_model.py:222-226 | the targets are the data without its first L rows; there are no pairs when n <= L |
| TrainModel.ChooseDataset | ml-service/train_model.py:417-424 | dispatch order: "synthetic", then a .csv suffix, then a directory; anything else raises ValueError (each case iff) |
| TrainModel.CsvSuffixBeatsDirectory | ml-service/train_model.py:419-422 | an instance of ChooseDataset's order: a directory named `*.csv` is read as a CSV file |
| TrainModel.CheckCustomCsv | ml-service/train_model.py:102-104 | accepted iff methane, lpg, co and h2s are all columns |
| TrainModel.FirstPresent | ml-service/train_model.py:170-186 | the first alias that is a column, or none iff no alias is |
| TrainModel.ResolvedColumnCases | ml-service/train_model.py:169-192 | an existing column is kept; CH4 is preferred to Methane; with no alias the column is all zeros; every resolved column has one value per row |
| TrainModel.ResolveAll | ml-service/train_model.py:169-192 | the resolved frame has its old columns plus the four feature columns |
| TrainModel.ResolveAllKeeps | ml-service/train_model.py:169-192 | no existing column changes and the frame stays rectangular |
| TrainModel.ResolveInSequence | ml-service/train_model.py:169-192 | resolving the features one after another equals resolving each against the original frame |
| TrainModel.StepAgrees | ml-service/train_model.py:169-192 | adding other feature columns does not change how a feature resolves |
| TrainModel.DataFrame.constructor | ml-service/train_model.py:160 | the frame as given |
| TrainModel.DataFrame.FillFeature | ml-service/train_model.py:170-192 | one feature column is added by alias or zero-fill; nothing else changes |
| TrainModel.DataFrame.ResolveFeatureColumns | ml-service/train_model.py:169-192 | the frame becomes the resolved frame |
| TrainModel.DataFrame.FeatureMatrix | ml-service/train_model.py:195 | one row per frame row, columns in the order methane, lpg, co, h2s |
| TrainModel.DataFrame.Preprocess | ml-service/train_model.py:160-195 | the feature rows are the resolved columns in feature order |
| TrainZenodo.LowerChar | ml-service/train_zenodo.py:82 | lower-casing maps capitals to lower case and keeps every other character |
| TrainZenodo.Lower | ml-service/train_zenodo.py:82 | the lower-cased name has the same length, character by character |
| TrainZenodo.ContainsAt | ml-service/train_zenodo.py:88-97 | a name with the substring at some position contains it |
| TrainZenodo.SensorTypeOf | ml-service/train_zenodo.py:87-100 | decided on the lower-cased name in the order lpg, co without cng, cng or methane, smoke, flame; other names are skipped (each case iff) |
| TrainZenodo.CoCheckedBeforeMethane | ml-service/train_zenodo.py:88-93 | a name containing "co" (such as "methane_concentration") but neither "lpg" nor "cng" is read as the CO sensor |
| TrainZenodo.LoadZenodoDataset | ml-service/train_zenodo.py:51-109 | .xlsx files are used, else .xls; it fails iff there are none; otherwise the dictionary built in file order |
| TrainZenodo.LoadedKeys | ml-service/train_zenodo.py:81-102 | a sensor is loaded iff some readable file names it |
| TrainZenodo.LastFileWins | ml-service/train_zenodo.py:81-102 | the last readable file of a sensor is the one kept |
| TrainZenodo.FirstColumn | ml-service/train_zenodo.py:155-158 | the first candidate that is a column, or none iff none is |
| TrainZenodo.ValueColumnFound | ml-service/train_zenodo.py:148-165 | a value column is chosen iff the sheet has columns, by the search itself, so the fallback is never reached; it is the first preferred name present, else the last column |
| TrainZenodo.FirstColumnOfExtended | ml-service/train_zenodo.py:152-158 | a candidate list ending in a present column always finds one |
| TrainZenodo.Min3 | ml-service/train_zenodo.py:136 | the common length is at most each length and equals one of them |
| TrainZenodo.ValueSeries | ml-service/train_zenodo.py:148-167 | the series has the common length; none iff the sheet has no columns |
| TrainZenodo.PreprocessShape | ml-service/train_zenodo.py:115-200 | fails iff LPG, CO or methane is missing, has no columns or has no rows (an LPG sheet with columns and no common rows fails on `values.min()`, and only then); otherwise every series is cut to the shortest sheet, rows are methane, lpg, co, h2s, and h2s is clipped to [0, 100] |
| TrainZenodo.ExtraSensorsIgnored | ml-service/train_zenodo.py:126-133 | smoke and flame sheets do not affect the features |

## Left out

- TensorFlow/Keras model building, training, `predict` and the random fit
  of `warm_up`. These are a function parameter `Window -> Vector`, and the
  fitted network is an argument of `WarmUp`.
- Fitting the min-max scaler. The scaler is a given per-feature minimum and
  positive range.
- Flask routes beyond the body checks modelled, plus CORS, `/health`,
  `/status`, timestamps and the `requests` HTTP client. A send's outcome is
  an input.
- `background_loop`, `threading.Lock`, `time.sleep` and the IoT run loop.
  Each state update is one sequential method call.
- `reading_count` and `current_readings` of the IoT simulator. Nothing in
  the core reads them.
- Random generation: `random.uniform`, `random.random` and `np.random`.
  The draws are parameters. The synthetic data generator of the training
  script is not modelled.
- Floating-point behaviour:
  - The model uses exact reals.
  - Rounding is not modelled: 2-decimal readings, `round(prediction_error, 4)`,
    `round(leakProbability, 2)`, the payload's `round(..., 2)`.
  - `nan_to_num` is not modelled.
  - The accumulation of 0.05 and 1/20 progress steps is exact. In floats,
    twenty steps of 0.05 may not reach 1.0 exactly.
- Non-finite or non-numeric values in a /predict body. ParseBody takes real
  numbers. The classifiers themselves take NaN and ±inf.
- A `gases` field that is not an object, and the other key types JSON
  allows.
- The untrained version's error message wording and its `/health` text.
- File I/O, as follows:
  - Excel, CSV and pickle reading and writing, and model saving.
  - Plots and evaluation metrics.
  - The train/test split.
  - The fixed-file-name `load_zenodo_dataset` of the generic training
    script (ml-service/train_model.py:49-80).
- The derived H2S column of the Zenodo script takes its divisor and noise
  draws as functions. Its divisor is assumed to lie in [10, 50], as drawn.
- TrainZenodo.Lower: ASCII lower-casing only. Python's `str.lower` also
  folds non-ASCII letters.
- Ventilation latching, alert emission and per-zone locks. These live in
  a backend controller; monitor-dashboard.py is not part of this model.
- IotSimulator.IoTSimulator.SendReading: follows the corrected statistics,
  not the double count of the code as written (see Findings).
- TrainedService.GasLeakPredictor.PredictAnomaly: uses the corrected
  normalised-space error, not the error of the code as written (see
  Findings).
- TrainedService.GasLeakPredictor.Predict: its anomaly result is the
  corrected one, so with a scaler its risk, error and fused decision follow
  the corrected error, not the code as written (see Findings;
  `TrainedService.CorrectedDiffersOnlyInError` bounds the difference).
- TrainedService.ExactPredictionIsNormal: holds of the corrected error only.
  With a scaler, the code as written classifies the same prediction
  CRITICAL in the example of `TrainedService.AsWrittenExactPredictionIsCritical`.
- ScenarioSimulator.Activation: a NaN or infinite duration is not
  representable (JSON numbers are reals here); Python's parser accepts
  one and `int()` then fails with a server error. A gasLevels value that is
  neither an object nor null is not modelled either.

## Findings

| source | as written | input that shows it | evidently intended | confidence | as-written member | corrected member |
|---|---|---|---|---|---|---|
| ml-service/app_with_trained_model.py:221-229 | With a scaler, the error compares the de-normalised prediction with `inverse_transform(values)`. But `values` is the raw reading, not a normalised one, so the raw reading is scaled a second time. | scaler min 0, range 1000 per gas; reading (1,1,1,1); prediction equal to the normalised reading (0.001 each): error 999, so CRITICAL | the error of a prediction that matches the reading is 0 (compare in one space) | not executed | AnomalyScoring.AsWrittenPerfectPredictionIsCritical | AnomalyScoring.PerfectPredictionHasZeroError |
| iot-simulator.py:191-208 | `successful` is incremented before the risk state is read. A body that is not an object, a `reading` that is not an object, or an unhashable `riskState` then raises into the handler, which also increments `failed`. | status 200 with body `[]`: successful 1 and failed 1 after one send | each attempt counts as exactly one success or one failure | not executed | IotSimulator.AsWrittenCountsTwice | IotSimulator.SendEffect |
