# SmartField Companion: agronomic engine and rover command path

This project models the decision logic of SmartField Companion in Dafny and proves properties of it. SmartField Companion is a farm dashboard with a small field rover. There are two parts.

**Agronomic evaluation engine**
- The dashboard's crop-profile table: five crops, each with an optimal range for the nine sensor channels. Both lookups fall back to a default instead of failing.
- The three-band status classifier (optimal, warning, critical, with a margin of 30 % of the range's width).
- The snapshot builder, which classifies the built-in readings against the selected crop.
- The recommendation engine: four independent rules (pH, nitrogen, irrigation, temperature), then a stable sort by priority.
- The backend's threshold rules engine, which builds an ordered list of actions and a summary sentence.

**Rover command path**
- The on-screen joystick: it clamps the cursor to a disk, normalises the vector and inverts y.
- The control panel's emergency-stop and speed state.
- The two `RoverMotion` variants:
  - the Raspberry Pi agent's version: deadzone, differential mixing, counter-steering clamped to [70, 110], an idle rule, and a latched watchdog;
  - the backend's version: explicit or computed four-wheel steering, equal wheel speeds, and an unlatched watchdog.
- Their servo controllers and motor drivers.
- The backend's `SystemState` singleton.

**How it is modelled**
- Pure code becomes functions over datatypes, with lemmas.
- Objects that update their fields become classes:
  - `Joystick`, `Panel`, `MotorDriver`, `ServoController`, `RoverMotion`, `SystemState` and `Registry`.
  - Each state-changing method has a `modifies` clause and states the whole new state; the methods that only read the state have no `modifies` clause.
  - The method bodies follow the source's statements in order, and the pure functions beside them are their specification. The in-place methods are tied to the functions that specify them. For example, `SetMotor` is tied to `Drive` and `MotorOutputFor`. `SetAngle` is tied to `SetAngleStep`. `GetAISuggestions` is tied to `Suggestions`. `Analyze` is tied to `Recommendations` and `Summary`.
- GPIO becomes a recorded map from pin number to level. Each PWM channel becomes its duty cycle.
- Numbers are `real`.
- Things outside the program become parameters:
  - the clock is `now`;
  - `Math.random` is the `draws` argument;
  - `Math.sqrt` is an argument `distance`, constrained so that `distance * distance = dx * dx + dy * dy` and `distance >= 0`.
- The suggestion texts interpolate numbers into templates. The model keeps these parts of each text:
  - the exact titles;
  - which variant of the description a rule picks (`Advice`);
  - the values the text interpolates (`TextFacts`: crop name, reading, range).
- `Array.prototype.sort` with the rank comparator is modelled by what a stable sort must return: `SortByPriority` gives the high group, then the medium group, then the low group, each in its original order. `StableSortIsUnique` proves that any rank-sorted result that keeps the order within each priority equals `SortByPriority`.

Files, one module each:
- `common.dfy`: `Option`, `Find`, `Clamp` and `Abs`.
- `hardware.dfy`: pin levels, motor output, and the servo duty formula.
- `sensor_types.dfy`: the dashboard's record types.
- `crop_presets.dfy`: the crop table and its two lookups.
- `mock_sensor_data.dfy`: the classifier, the snapshot builder, the rules and the sort.
- `suggestion_properties.dfy`: facts about the full suggestion result.
- `rules_engine.dfy`: the backend rules engine.
- `virtual_joystick.dfy` and `rover_control.dfy`: the joystick and the control panel.
- `pi_config.dfy`, `pi_motor_driver.dfy`, `pi_servo_controller.dfy` and `pi_motion.dfy`: the Pi agent.
- `backend_motor_driver.dfy`, `backend_servo_controller.dfy` and `backend_motion.dfy`: the backend's rover drivers.
- `system_state.dfy`: the backend's `SystemState` (module `BackendState`).

## Model

| member | source | states |
|---|---|---|
| Common.Find | src/data/cropPresets.ts:92 | `None` exactly when no element satisfies the predicate; otherwise an element of the sequence that satisfies it, with no satisfying element before it (the first match, as `Array.prototype.find` returns) |
| Common.Clamp | pi_agent/rover/motor_driver.py:76 | `max(lo, min(hi, v))` lies in [lo, hi] for lo <= hi, is v inside the interval and the nearer bound outside it, and is lo when lo > hi |
| Common.Abs | pi_agent/rover/motor_driver.py:88 | the result is non-negative and equals x or -x |
| CropPresets.RiceWellFormed | src/data/cropPresets.ts:4-20 | the rice row defines exactly the nine channels, each with min < max |
| CropPresets.WheatWellFormed | src/data/cropPresets.ts:21-37 | the wheat row defines exactly the nine channels, each with min < max |
| CropPresets.VegetablesWellFormed | src/data/cropPresets.ts:38-54 | the vegetables row defines exactly the nine channels, each with min < max |
| CropPresets.CornWellFormed | src/data/cropPresets.ts:55-71 | the corn row defines exactly the nine channels, each with min < max |
| CropPresets.CottonWellFormed | src/data/cropPresets.ts:72-88 | the cotton row defines exactly the nine channels, each with min < max |
| CropPresets.PresetWellFormed | src/data/cropPresets.ts:3-89 | every preset of the table has exactly the nine channel keys, and every range has min < max |
| CropPresets.PresetIdsDistinct | src/data/cropPresets.ts:3-89 | the table has five presets, no two with the same id |
| CropPresets.SensorIdsDistinct | src/data/mockSensorData.ts:20-30 | the nine channel ids are pairwise different |
| CropPresets.RuleChannelIndices | src/data/mockSensorData.ts:20-30 | the channels the suggestion rules read (moisture, ph, nitrogen, ambient-temp) sit at positions 0, 2, 4 and 8 of the channel list |
| CropPresets.GetCropPreset | src/data/cropPresets.ts:91-93 | the result is always a row of the table; its id is the argument when some row has that id, and it is the first row (rice) otherwise, so the lookup never fails |
| CropPresets.GetOptimalRange | src/data/cropPresets.ts:95-98 | for one of the nine channels, the selected preset defines it and the result is that preset's range; any other id gets {0, 100}; every result has min < max |
| CropPresets.KnownCropRange | src/data/cropPresets.ts:91-98 | looking up a row's own id selects that row (ids are distinct), and the range is that row's entry for the channel |
| CropPresets.WheatPhRange | src/data/cropPresets.ts:29 | wheat's pH range is {6.0, 7.5} |
| CropPresets.WheatNitrogenRange | src/data/cropPresets.ts:31 | wheat's nitrogen range is {30, 60} |
| CropPresets.WheatMoistureRange | src/data/cropPresets.ts:27 | wheat's moisture range is {30, 50} |
| CropPresets.WheatTemperatureRange | src/data/cropPresets.ts:35 | wheat's air-temperature range is {15, 25} |
| CropPresets.UnknownCropIsRice | src/data/cropPresets.ts:92-97 | for a crop id no row has, both the preset and every channel's range are rice's |
| CropPresets.BananaUsesRicePh | src/data/cropPresets.ts:92-97 | an unknown crop ("banana") gets rice's pH range {5.5, 6.5} |
| MockSensorData.Margin | src/data/mockSensorData.ts:13 | the warning margin is non-negative for a proper range, and is zero exactly for a zero-width range |
| MockSensorData.GetStatus | src/data/mockSensorData.ts:10-17 | optimal exactly when min <= v <= max; warning exactly when outside that range but inside it widened by 30 % of the width on both sides; critical exactly when outside the widened range (three exclusive, exhaustive cases) |
| MockSensorData.StatusByDistance | src/data/mockSensorData.ts:10-17 | for a proper range, the status depends on the distance from the range alone: 0 gives optimal, up to the margin gives warning, beyond it gives critical |
| MockSensorData.StatusMonotoneInDistance | src/data/mockSensorData.ts:10-17 | a value further from the range never gets a less severe status |
| MockSensorData.ZeroWidthRange | src/data/mockSensorData.ts:13-16 | a range with min == max has no warning band: the status is optimal at that value and critical everywhere else |
| MockSensorData.RicePhExamples | src/data/mockSensorData.ts:10-17 | against rice's pH range {5.5, 6.5}, 5.3 is a warning and 5.0 is critical |
| MockSensorData.RuleChannelValues | src/data/mockSensorData.ts:21-29 | the built-in moisture, pH, nitrogen and air-temperature values are 42, 5.4, 28 and 31 |
| MockSensorData.GenerateHistory | src/data/mockSensorData.ts:4-8 | 24 samples, none negative; with draws in [0, 1) and a non-negative base and variance, each sample lies within the variance of the base |
| MockSensorData.Sample | src/data/mockSensorData.ts:5-7 | one sample is non-negative and, for a draw in [0, 1), within the variance of the base |
| MockSensorData.MakeReading | src/data/mockSensorData.ts:33-47 | one reading keeps the channel's id and base value, carries the crop's range for that channel and the classifier's status for the value against it, has 24 non-negative history samples, and, for a non-negative base value and draws in [0, 1), every sample lies within 15 % of the base value |
| MockSensorData.GetSensorData | src/data/mockSensorData.ts:32-49 | one reading per built-in channel in table order; value, unit, name, icon, min and max copied from the table; optimal is the crop's range for that id; status is the classifier's verdict; history has 24 non-negative samples; the time stamp is `now` |
| MockSensorData.SnapshotChannels | src/data/mockSensorData.ts:32-49 | the snapshot lists exactly the nine channels every preset defines, in the same order |
| MockSensorData.IssueCount | src/pages/Index.tsx:14 | the number of non-optimal readings is at most the number of readings, and is 0 exactly when every reading is optimal |
| MockSensorData.IssueCountAppend | src/pages/Index.tsx:14 | the count of a concatenation is the sum of the counts, so the count adds one per non-optimal reading |
| MockSensorData.IssueCountSingle | src/pages/Index.tsx:14 | a single reading counts one exactly when its status is not optimal |
| MockSensorData.FindSensor | src/data/mockSensorData.ts:56 | `None` exactly when no reading has that id; otherwise a reading of the snapshot with that id, with no reading of that id before it |
| MockSensorData.PriorityFor | src/data/mockSensorData.ts:67 | high exactly for a critical status and medium otherwise, never low |
| MockSensorData.PhRule | src/data/mockSensorData.ts:56-70 | a suggestion exactly when there is a pH reading that is not optimal: id ph-correction; lime advice exactly when the value is below the range, otherwise sulfur or organic matter; high priority exactly when the reading is critical, otherwise medium; it carries the crop's name, the value and the range |
| MockSensorData.NitrogenRule | src/data/mockSensorData.ts:72-88 | a suggestion exactly when the reading is not optimal and below the range, so excess nitrogen never yields one; the rice-specific advice exactly when the crop id is "rice"; high priority exactly when critical |
| MockSensorData.IrrigationRule | src/data/mockSensorData.ts:90-116 | exactly one suggestion whenever there is a moisture reading; it is the low-priority irrigation-status exactly when moisture is optimal, otherwise irrigation-action with high priority exactly when critical, and more water exactly when the value is below the range |
| MockSensorData.TemperatureRule | src/data/mockSensorData.ts:118-132 | a suggestion exactly when the temperature reading is not optimal: id temp-advisory; heat advice exactly when the value is above the range; high priority exactly when critical |
| MockSensorData.RuleSuggestions | src/data/mockSensorData.ts:51-132 | the four rules give at most four suggestions, and at least one whenever there is a moisture reading |
| MockSensorData.WithPriority | src/data/mockSensorData.ts:134-136 | filtering by one priority yields no more elements than the input |
| MockSensorData.WithPriorityAppend | src/data/mockSensorData.ts:134-136 | filtering distributes over concatenation |
| MockSensorData.WithPriorityOnly | src/data/mockSensorData.ts:134-136 | every element filtered by a priority has that priority |
| MockSensorData.WithPrioritySubset | src/data/mockSensorData.ts:134-136 | every element filtered by a priority comes from the input |
| MockSensorData.WithPriorityTwice | src/data/mockSensorData.ts:134-136 | filtering twice by the same priority is filtering once; filtering by two different priorities leaves nothing |
| MockSensorData.WithPriorityNone | src/data/mockSensorData.ts:134-136 | a sequence with no element of a priority filters to the empty sequence |
| MockSensorData.WithPriorityMultiset | src/data/mockSensorData.ts:134-136 | the three priority groups together hold exactly the input's elements, with multiplicity |
| MockSensorData.SortByPriority | src/data/mockSensorData.ts:134-136 | sorting keeps the number of suggestions; that it is sorted, a permutation, stable and the only such order is stated by the lemmas below |
| MockSensorData.SortedSplits | src/data/mockSensorData.ts:134-136 | a rank-sorted sequence is its high group, then its medium group, then its low group |
| MockSensorData.SortByPrioritySorted | src/data/mockSensorData.ts:134-136 | the sorted suggestions are ordered by rank: high = 0, medium = 1, low = 2 |
| MockSensorData.SortByPriorityPermutes | src/data/mockSensorData.ts:134-136 | sorting is a permutation: same multiset, same length, same elements |
| MockSensorData.SortByPriorityStable | src/data/mockSensorData.ts:134-136 | suggestions of equal priority keep their original relative order |
| MockSensorData.StableSortIsUnique | src/data/mockSensorData.ts:134-136 | any rank-sorted sequence that keeps each priority's original order equals `SortByPriority`, so the model is what every stable sort returns |
| MockSensorData.Suggestions | src/data/mockSensorData.ts:51-137 | the returned list has at most four suggestions, and at least one whenever there is a moisture reading |
| MockSensorData.PushPhSuggestion | src/data/mockSensorData.ts:56-70 | the pH block appends exactly the pH rule's output to the suggestions so far |
| MockSensorData.PushNitrogenSuggestion | src/data/mockSensorData.ts:72-88 | the nitrogen block appends exactly the nitrogen rule's output |
| MockSensorData.PushIrrigationSuggestion | src/data/mockSensorData.ts:90-116 | the irrigation block appends exactly the irrigation rule's output |
| MockSensorData.PushTemperatureSuggestion | src/data/mockSensorData.ts:118-132 | the temperature block appends exactly the temperature rule's output |
| MockSensorData.GetAISuggestions | src/data/mockSensorData.ts:51-137 | the result is the four rules' output, in rule order, sorted by priority (`Suggestions`), for the preset the crop id selects |
| SuggestionProperties.DifferentElementsDifferentIds | src/data/mockSensorData.ts:51-137 | in an id-distinct sequence, different elements have different ids |
| SuggestionProperties.WithPriorityDistinct | src/data/mockSensorData.ts:134-136 | filtering by priority keeps ids distinct |
| SuggestionProperties.SortDistinct | src/data/mockSensorData.ts:134-136 | sorting by priority keeps ids distinct |
| SuggestionProperties.AppendDistinct | src/data/mockSensorData.ts:51-137 | two id-distinct sequences with no common id concatenate to an id-distinct sequence |
| SuggestionProperties.RuleParts | src/data/mockSensorData.ts:56-132 | the rules' output consists of four parts, each with at most one suggestion, tagged by id (ph-correction, nitrogen-supplement, irrigation-*, temp-advisory) |
| SuggestionProperties.PartOf | src/data/mockSensorData.ts:56-132 | a suggestion's id or kind shows which rule emitted it |
| SuggestionProperties.RulePartsDistinct | src/data/mockSensorData.ts:56-132 | four tagged parts concatenate to at most four suggestions with distinct ids |
| SuggestionProperties.RuleSuggestionsDistinct | src/data/mockSensorData.ts:56-132 | before sorting: at most four suggestions, no two with the same id |
| SuggestionProperties.SuggestionsDistinct | src/data/mockSensorData.ts:51-137 | the result has at most four suggestions, no two with the same id |
| SuggestionProperties.SameIdSameIndex | src/data/mockSensorData.ts:51-137 | in an id-distinct sequence an id occurs at one index only |
| SuggestionProperties.PhInParts | src/data/mockSensorData.ts:56-70 | among the rules' parts, a ph-correction is present exactly when the pH part is non-empty, and it is that part's suggestion |
| SuggestionProperties.NitrogenInParts | src/data/mockSensorData.ts:72-88 | a nitrogen-supplement is present exactly when the nitrogen part is non-empty, and it is that part's suggestion |
| SuggestionProperties.IrrigationInParts | src/data/mockSensorData.ts:90-116 | every irrigation suggestion among the parts is the irrigation part's suggestion |
| SuggestionProperties.TemperatureInParts | src/data/mockSensorData.ts:118-132 | a temp-advisory is present exactly when the temperature part is non-empty, and it is that part's suggestion |
| SuggestionProperties.SuggestionsPermuteParts | src/data/mockSensorData.ts:51-137 | the final result holds exactly the elements of the four rules' parts, with distinct ids |
| SuggestionProperties.PhCorrectionInResult | src/data/mockSensorData.ts:56-70 | the final result contains a ph-correction exactly when a pH reading exists and is not optimal, and that suggestion is the pH rule's |
| SuggestionProperties.NitrogenSupplementInResult | src/data/mockSensorData.ts:72-88 | the final result contains a nitrogen-supplement exactly when the reading is not optimal and below the range, and that suggestion is the nitrogen rule's |
| SuggestionProperties.TemperatureAdvisoryInResult | src/data/mockSensorData.ts:118-132 | the final result contains a temp-advisory exactly when the temperature reading is not optimal, and that suggestion is the temperature rule's |
| SuggestionProperties.IrrigationInPermutation | src/data/mockSensorData.ts:90-116 | an id-distinct permutation of the parts holds the irrigation part's suggestion at exactly one index, and no other irrigation suggestion |
| SuggestionProperties.IrrigationInResult | src/data/mockSensorData.ts:90-116 | every irrigation suggestion in the final result is the irrigation rule's, and there is none without a moisture reading |
| SuggestionProperties.IrrigationExactlyOnce | src/data/mockSensorData.ts:90-116 | with a moisture reading, the final result holds exactly one irrigation suggestion, at a single index |
| SuggestionProperties.FindUnique | src/data/mockSensorData.ts:53-118 | looking up an id that occurs at one index finds the reading at that index |
| SuggestionProperties.SnapshotFind | src/data/mockSensorData.ts:32-49 | in a snapshot, looking up a channel finds that channel's own reading |
| SuggestionProperties.SnapshotReading | src/data/mockSensorData.ts:32-49 | the reading a snapshot lookup finds has the table's value, the crop's range and the classifier's status |
| SuggestionProperties.WheatPhReading | src/data/mockSensorData.ts:23 | for wheat, the built-in pH 5.4 is critical against {6.0, 7.5} |
| SuggestionProperties.WheatNitrogenReading | src/data/mockSensorData.ts:25 | for wheat, nitrogen 28 is a warning against {30, 60} |
| SuggestionProperties.WheatMoistureReading | src/data/mockSensorData.ts:21 | for wheat, moisture 42 is optimal in {30, 50} |
| SuggestionProperties.WheatTemperatureReading | src/data/mockSensorData.ts:29 | for wheat, air temperature 31 is critical against {15, 25} |
| SuggestionProperties.FourRulesFire | src/data/mockSensorData.ts:56-132 | a critical acidic pH, a low nitrogen warning, optimal moisture and a critical heat reading produce four suggestions with priorities high, medium, low and high |
| SuggestionProperties.SortFour | src/data/mockSensorData.ts:134-136 | four suggestions with priorities high, medium, low, high sort to positions 1, 4, 2, 3 |
| SuggestionProperties.SortWheatOrder | src/data/mockSensorData.ts:134-136 | the rules' four wheat suggestions sort to ph-correction, temp-advisory, nitrogen-supplement, irrigation-status |
| SuggestionProperties.WheatRuleSuggestions | src/data/mockSensorData.ts:51-132 | for wheat with the built-in readings, the rules emit ph-correction (high), nitrogen-supplement (medium), irrigation-status (low) and temp-advisory (high), in that order |
| SuggestionProperties.WheatSuggestions | src/data/mockSensorData.ts:51-137 | for wheat with the built-in readings, the result is ph-correction, temp-advisory, nitrogen-supplement, irrigation-status |
| RulesEngine.Get | backend/ai/rules_engine.py:10 | `dict.get`: the stored value when the key is present, the default otherwise |
| RulesEngine.Soil | backend/ai/rules_engine.py:7 | the "soil" group when present, and an empty group otherwise |
| RulesEngine.Ph | backend/ai/rules_engine.py:10 | the soil group's pH when both the group and the key are present, and 7.0 otherwise |
| RulesEngine.Nitrogen | backend/ai/rules_engine.py:23 | the soil group's nitrogen when both the group and the key are present, and 0 otherwise |
| RulesEngine.Moisture | backend/ai/rules_engine.py:31 | the soil group's moisture when both the group and the key are present, and 0 otherwise |
| RulesEngine.PhRule | backend/ai/rules_engine.py:10-20 | no recommendation exactly when 6.0 <= ph <= 7.5; otherwise one, which is lime exactly when ph < 6.0 and sulfur otherwise, raised for that reading |
| RulesEngine.NitrogenRule | backend/ai/rules_engine.py:23-28 | one fertilizer recommendation exactly when nitrogen < 20 |
| RulesEngine.MoistureRule | backend/ai/rules_engine.py:31-36 | one watering recommendation exactly when moisture < 30 |
| RulesEngine.Recommendations | backend/ai/rules_engine.py:9-36 | at most three recommendations, and none exactly when pH is in [6.0, 7.5], nitrogen is at least 20 and moisture is at least 30 (with the defaults for missing readings) |
| RulesEngine.Actions | backend/ai/rules_engine.py:40 | the list of recommended actions, one per recommendation, in order |
| RulesEngine.Join | backend/ai/rules_engine.py:40 | joining nothing gives the empty text; a join starts with the first part, followed by the separator when there are two parts or more |
| RulesEngine.Summary | backend/ai/rules_engine.py:38-40 | no recommendations give "Soil is healthy."; otherwise the sentence starts with "Attention required: " then the first action, and ends with a full stop |
| RulesEngine.Analyze | backend/ai/rules_engine.py:5-45 | the recommendations are the three rules' output in rule order, on the readings with their defaults, and the summary describes exactly those recommendations |
| RulesEngine.RecommendationsShape | backend/ai/rules_engine.py:9-36 | at most three recommendations, in rule order (pH, nitrogen, moisture), each rule at most once, each action one of the four |
| RulesEngine.ActionsByThreshold | backend/ai/rules_engine.py:7-36 | each action is in the result exactly when its threshold is crossed, with pH defaulting to 7 and nitrogen and moisture to 0 |
| RulesEngine.ActionsAppend | backend/ai/rules_engine.py:40 | the actions of a concatenation are the concatenation of the actions |
| RulesEngine.SummaryHealthyIffEmpty | backend/ai/rules_engine.py:38-40 | the summary is "Soil is healthy." exactly when nothing is recommended |
| RulesEngine.JoinSnoc | backend/ai/rules_engine.py:40 | joining one more part appends the separator and that part |
| RulesEngine.JoinLength | backend/ai/rules_engine.py:40 | the joined text's length is the parts' lengths plus one separator between each pair of neighbours |
| RulesEngine.SummaryOfTwo | backend/ai/rules_engine.py:38-40 | with two recommendations, the summary is the prefix, both actions separated by ", ", and a full stop |
| RulesEngine.NoSoilGroup | backend/ai/rules_engine.py:7-36 | with no "soil" group, the engine recommends exactly fertilizer and then water, and the summary names both |
| BackendState.InitialReadingsAnalysis | backend/state/system_state.py:17-25 | on the initial readings (pH 5.6, nitrogen 18, moisture 42), the engine recommends exactly lime and then fertilizer |
| VirtualJoystick.KnobOffset | src/components/dashboard/VirtualJoystick.tsx:29-39 | the offset always lies in the disk of radius 56; a displacement within 56 is kept as it is; a longer one lands exactly on the rim along the same ray, with the same signs on both axes |
| VirtualJoystick.Normalize | src/components/dashboard/VirtualJoystick.tsx:41-43 | the reported vector is the offset divided by 56, with y negated; an offset in the disk gives a vector in the unit disk |
| VirtualJoystick.NormalizeRoundTrip | src/components/dashboard/VirtualJoystick.tsx:41-45 | normalising loses nothing: the knob offset and the reported vector determine each other |
| VirtualJoystick.ReportedInUnitDisk | src/components/dashboard/VirtualJoystick.tsx:29-46 | every reported vector has length at most 1 and components in [-1, 1] |
| VirtualJoystick.FarRightIsFullRight | src/components/dashboard/VirtualJoystick.tsx:29-46 | a cursor 100 pixels right of centre puts the knob at (56, 0) and reports (1, 0) |
| VirtualJoystick.Joystick.constructor | src/components/dashboard/VirtualJoystick.tsx:15-16 | the knob starts centred, not dragging, with nothing reported yet, and the given `disabled` and `mounted` flags |
| VirtualJoystick.Joystick.HandleMove | src/components/dashboard/VirtualJoystick.tsx:22-47 | nothing changes while unmounted or disabled; otherwise the knob offset is the clamped pixel delta and exactly its normalised vector is reported |
| VirtualJoystick.Joystick.HandleStart | src/components/dashboard/VirtualJoystick.tsx:49-56 | nothing changes while disabled; otherwise the drag begins and one move is performed |
| VirtualJoystick.Joystick.HandleEnd | src/components/dashboard/VirtualJoystick.tsx:58-62 | the drag ends, the knob returns to (0, 0), and (0, 0) is reported whatever the previous position was |
| VirtualJoystick.Joystick.MouseMove | src/components/dashboard/VirtualJoystick.tsx:65-69 | a mouse move acts only while dragging |
| VirtualJoystick.Joystick.TouchMove | src/components/dashboard/VirtualJoystick.tsx:71-76 | a touch move acts only while dragging with a finger down, and uses the first touch |
| VirtualJoystick.Joystick.Up | src/components/dashboard/VirtualJoystick.tsx:78-82 | mouse-up and touch-end end a drag in progress, and do nothing otherwise |
| RoverControl.BatteryColor | src/components/dashboard/RoverControl.tsx:43-47 | optimal exactly above 50 %, warning exactly in (20, 50], critical exactly at 20 % or below |
| RoverControl.BatteryColorMonotone | src/components/dashboard/RoverControl.tsx:43-47 | more charge never shows a worse colour |
| RoverControl.Panel.constructor | src/components/dashboard/RoverControl.tsx:22-24 | the panel shows the rover state it was given, the joystick vector at rest, and no emergency stop |
| RoverControl.Panel.JoystickDisabled | src/components/dashboard/RoverControl.tsx:93 | the joystick is disabled whenever the stop flag is set or the rover is disconnected, and only then |
| RoverControl.Panel.ControlsDisabled | src/components/dashboard/RoverControl.tsx:113-132 | whatever disables the speed slider and the stop button also disables the joystick; during an emergency stop on a connected rover the slider and button stay usable while the joystick does not |
| RoverControl.MockRoverStartsReady | src/data/mockSensorData.ts:139-144 | the dashboard's initial rover shows an optimal battery colour, and a panel built from it starts with the joystick, the slider and the stop button enabled |
| RoverControl.Panel.HandleJoystickMove | src/components/dashboard/RoverControl.tsx:26-30 | while the stop flag is set nothing changes; otherwise the position becomes the new vector |
| RoverControl.Panel.HandleSpeedChange | src/components/dashboard/RoverControl.tsx:32-34 | the speed becomes the slider's first value; connection, battery and position are kept |
| RoverControl.Panel.HandleEmergencyStop | src/components/dashboard/RoverControl.tsx:36-38 | sets the stop flag, zeroes the vector, and the joystick is then disabled |
| RoverControl.Panel.EmergencyTimerElapsed | src/components/dashboard/RoverControl.tsx:40 | the timer clears only the stop flag |
| RoverControl.StopThenMoveThenTimer | src/components/dashboard/RoverControl.tsx:26-40 | after a stop, a move is ignored; once the timer fires the vector is still (0, 0) |
| Hardware.MotorOutputFor | pi_agent/rover/motor_driver.py:75-88 | the duty is the magnitude of the speed clamped to the limit, in [0, limit]; in1 is high exactly when the speed is non-negative (0 counts as forward), and in2 is always the opposite level |
| Hardware.MotorOutputInRange | backend/rover/motor_driver.py:84-93 | a speed within the limit is passed through: the duty is its magnitude |
| Hardware.ClampAngle | pi_agent/rover/servo_controller.py:35 | the angle is clamped into [0, 180], and an angle already inside is kept |
| Hardware.ServoDuty | backend/rover/servo_controller.py:39 | an angle in [0, 180] gets a duty in [2, 12] |
| Hardware.ServoDutyRoundTrip | pi_agent/rover/servo_controller.py:47 | the duty formula is invertible: the angle can be read back from the duty |
| Hardware.ServoDutyMonotone | backend/rover/servo_controller.py:39 | a larger angle never gets a smaller duty |
| Hardware.Drive | pi_agent/rover/motor_driver.py:81-86 | after driving one channel, its two direction pins hold the output's levels (in2 written last), and every other pin keeps its level |
| Hardware.DriveChannelsIndependent | pi_agent/rover/motor_driver.py:90-105 | with four distinct direction pins, each channel's pins depend on its own speed only, and each pair is set to opposite levels |
| Hardware.Release | pi_agent/rover/motor_driver.py:112-115 | after stopping, the four direction pins are low and every other pin keeps its level |
| PiMotorDriver.MotorDriver.constructor | pi_agent/rover/motor_driver.py:45-68 | the driver keeps the given direction and PWM pins, both PWM channels start at duty 0, and no pin level has been written |
| PiMotorDriver.MotorDriver.SetMotor | pi_agent/rover/motor_driver.py:70-88 | the pins become `Drive` of the old levels, and only the selected channel's duty changes, to the clamped magnitude |
| PiMotorDriver.MotorDriver.SetSpeed | pi_agent/rover/motor_driver.py:90-105 | the left channel is driven from the left speed, then the right channel from the right speed |
| PiMotorDriver.MotorDriver.Stop | pi_agent/rover/motor_driver.py:107-115 | both duties become 0 and the four direction pins low |
| PiServoController.Jitter | pi_agent/rover/servo_controller.py:38 | a command is jitter exactly when the clamped angle lies strictly within one degree of the last applied angle, on either side |
| PiServoController.SetAngleStep | pi_agent/rover/servo_controller.py:31-48 | a clamped angle within one degree of the last applied angle changes nothing; otherwise both the remembered angle and the duty (in [2, 12]) follow the clamped angle |
| PiServoController.FirstCommandApplies | pi_agent/rover/servo_controller.py:21-39 | from the initial state (last angle -1), the first command always moves the servo |
| PiServoController.SetAngleIdempotent | pi_agent/rover/servo_controller.py:38-41 | repeating a command changes nothing |
| PiServoController.AppliedStateInRange | pi_agent/rover/servo_controller.py:35-48 | once a command is applied, the remembered angle lies in [0, 180] and the duty is its formula value |
| PiServoController.ServoController.constructor | pi_agent/rover/servo_controller.py:21-27 | the servo keeps its pin, its last angle starts at -1 and its PWM at duty 0, so the first command always applies |
| PiServoController.ServoController.SetAngle | pi_agent/rover/servo_controller.py:31-48 | the servo's state becomes `SetAngleStep` of the old state |
| PiServoController.ServoController.Detach | pi_agent/rover/servo_controller.py:56-58 | the duty becomes 0 and the last angle is kept |
| PiServoController.DetachThenSameAngle | pi_agent/rover/servo_controller.py:31-58 | after a detach, asking again for the last applied angle sends no signal |
| PiMotion.Deadzone | pi_agent/rover/motion.py:63-64 | a component smaller than 5 in magnitude becomes 0, others are kept, so every result is 0 or at least 5 in magnitude |
| PiMotion.DeadzoneIdempotent | pi_agent/rover/motion.py:63-64 | applying the deadzone twice is applying it once |
| PiMotion.JoystickToWheels | pi_agent/rover/motion.py:20-35 | left is y + x and right is y - x, each kept when within ±maxSpeed and clamped into it otherwise |
| PiMotion.WheelsMirror | pi_agent/rover/motion.py:28-33 | turning the other way swaps the two sides |
| PiMotion.StraightDrivesEqually | pi_agent/rover/motion.py:28-33 | pushing straight ahead drives both sides alike |
| PiMotion.JoystickToSteering | pi_agent/rover/motion.py:37-56 | both angles lie in [70, 110]; for x in [-100, 100] the front angle is 90 + x/5, with no clamping, and front + rear = 180 |
| PiMotion.SteeringCounterTurns | pi_agent/rover/motion.py:45-54 | front + rear = 180 for every x, even when clamped, and turning the other way swaps the two angles |
| PiMotion.SteeringMonotone | pi_agent/rover/motion.py:45-54 | a stronger turn never turns the front less or the rear less the other way |
| PiMotion.RoverMotion.constructor | pi_agent/rover/motion.py:8-18 | a fresh stopped motor driver, four fresh servos on the configured pins 23, 24, 25 and 8 in their initial state, the command time set to now, and the watchdog not yet triggered |
| PiMotion.RoverMotion.ProcessCommand | pi_agent/rover/motion.py:58-91 | the command time is recorded and the latch cleared; an idle command (both components 0 after the deadzone) stops the motors and detaches the four servos; any other command drives the mixed speeds and steers front and rear |
| PiMotion.RoverMotion.CheckWatchdog | pi_agent/rover/motion.py:93-104 | reports a timeout exactly when more than 1 s has passed; it stops the motors only on the first timeout after a command, and latches |
| PiMotion.WatchdogStopsOnce | pi_agent/rover/motion.py:93-104 | two checks in one silence both report the timeout, and the second leaves the motors alone |
| BackendMotorDriver.MotorDriver.constructor | backend/rover/motor_driver.py:44-76 | both PWM channels start at duty 0 and no pin level has been written |
| BackendMotorDriver.MotorDriver.SetMotor | backend/rover/motor_driver.py:78-93 | the pins become `Drive` of the old levels with limit 100, and only the selected channel's duty changes |
| BackendMotorDriver.MotorDriver.SetSpeed | backend/rover/motor_driver.py:95-108 | the left channel (pins 5, 6) is set from the left speed and the right channel (pins 13, 19) from the right speed, independently |
| BackendMotorDriver.MotorDriver.Stop | backend/rover/motor_driver.py:110-117 | both duties become 0 and pins 5, 6, 13 and 19 low |
| BackendServoController.CommandDuty | backend/rover/servo_controller.py:35-39 | every command's duty lies in [2, 12]; for an angle in [0, 180] the angle can be read back from it |
| BackendServoController.CommandDutyMonotone | backend/rover/servo_controller.py:35-39 | a larger requested angle never gets a smaller duty, clamping included |
| BackendServoController.ServoController.constructor | backend/rover/servo_controller.py:22-29 | the PWM starts at duty 0 |
| BackendServoController.ServoController.SetAngle | backend/rover/servo_controller.py:31-40 | every command writes the duty for its clamped angle, with no memory of earlier angles |
| BackendMotion.CalculateSteeringAngles | backend/rover/motion.py:17-52 | four angles, with front-left = front-right = 90 - 45x/100 and rear-left = rear-right, front + rear = 180; for x in [-100, 100] every angle is in [45, 135] |
| BackendMotion.SteeringAnglesMirror | backend/rover/motion.py:46-52 | turning the other way swaps the front and rear angles |
| BackendMotion.SteeringAnglesMonotone | backend/rover/motion.py:46-52 | as x grows the front angle falls and the rear angle rises |
| BackendMotion.JoystickToWheels | backend/rover/motion.py:54-65 | both sides get the same speed: y, clamped into ±maxSpeed |
| BackendMotion.WheelsIgnoreX | backend/rover/motion.py:54-65 | the joystick's x has no effect on the wheels |
| BackendMotion.TargetAngles | backend/rover/motion.py:74-79 | a non-empty explicit list wins; an absent or empty one falls back to the computed angles |
| BackendMotion.RoverMotion.constructor | backend/rover/motion.py:7-15 | a fresh stopped motor driver, four distinct fresh servos on pins 23, 24, 25 and 8 at duty 0, and the command time set to now; the `servo` alias of the first servo is not modelled |
| BackendMotion.RoverMotion.ProcessCommand | backend/rover/motion.py:67-97 | the command time is recorded; servo i gets the i-th target angle while there is one, extra angles are ignored, and servos without an angle keep their duty; both motors get the same speed from y |
| BackendMotion.RoverMotion.CheckWatchdog | backend/rover/motion.py:99-108 | reports a timeout exactly when more than 1 s has passed, and then stops the motors on every call |
| BackendMotion.WatchdogStopsEveryTime | backend/rover/motion.py:99-108 | two checks in one silence both report the timeout and leave the motors stopped: there is no latch |
| BackendState.Trunc | backend/state/system_state.py:57 | `int()` truncates toward zero: the result is within 1 of x, on the side of 0 |
| BackendState.NatToDecimal | backend/state/system_state.py:58 | the decimal text is non-empty, all digits, with no leading zero |
| BackendState.NatDecimalRoundTrip | backend/state/system_state.py:58 | the decimal text of a natural number reads back as that number |
| BackendState.IntToDecimal | backend/state/system_state.py:58 | `str(n)`: a non-empty text that starts with a minus sign exactly for a negative `n`, has only digits after it, and reads back as `n` |
| BackendState.LastCommandText | backend/state/system_state.py:46-58 | "Never" exactly when no command has been recorded |
| BackendState.LastCommandTextElapsed | backend/state/system_state.py:56-58 | otherwise the text is a decimal integer followed by " seconds ago", and that integer is the elapsed time truncated toward zero |
| BackendState.TwoSecondsAgo | backend/state/system_state.py:56-58 | 2.7 seconds after the last command the text is "2 seconds ago" |
| BackendState.SystemState.constructor | backend/state/system_state.py:13-31 | a new state is the initial state |
| BackendState.SystemState.Initialize | backend/state/system_state.py:13-31 | online, battery 78, no command time, the fixed readings, and the zero command |
| BackendState.SystemState.SetCommand | backend/state/system_state.py:33-40 | stores x, y, speed and the time stamp, records the command time, and keeps the rest |
| BackendState.SystemState.UpdateLastCommandTime | backend/state/system_state.py:42-43 | records the command time and keeps the rest |
| BackendState.SystemState.GetStatus | backend/state/system_state.py:45-64 | reports the connection, the battery and the last-command text, changing nothing |
| BackendState.SystemState.GetSensors | backend/state/system_state.py:66-72 | reports the stored groups and the time stamp, changing nothing |
| BackendState.Registry.constructor | backend/state/system_state.py:5 | the registry starts with no instance, as `_instance = None` |
| BackendState.Registry.Get | backend/state/system_state.py:7-11 | the first construction creates and initialises the instance; every later one returns that same instance, untouched |
| BackendState.SameInstance | backend/state/system_state.py:7-11 | two constructions yield the same object |

## Left out

- The suggestion texts: the model keeps the titles, the advice variant and the interpolated facts, but not the formatted description and reason strings, whose number formatting is JavaScript's. The same holds for the backend's `reason` strings. `Recommendation` keeps the reading the reason text interpolates.
- `Math.random`, `Date`, `datetime.now()` and `time.time()` become parameters (`draws`, `now`, the time-stamp text). `Math.sqrt` becomes the `distance` parameter, constrained to the displacement's length.
- Floating point: every number is a real, so IEEE rounding at band edges is not captured. For rice, for example, 5.5 - 0.3 is exactly 5.2 here. Python's integer readings and thresholds are reals too.
- `getOptimalRange` with a channel id such as "constructor": JavaScript would find an inherited property of the object. The model treats the ranges as a plain map.
- The frontend's `CropType` restricts the crop id to the five crops. The model accepts any string, and the fallback to rice covers the rest.
- RoverControl.Panel.HandleSpeedChange: requires a non-empty slider value. In the source, an empty array would set the speed to `undefined`; the slider always supplies one value.
- React state updates are asynchronous and batched. The model applies each `set...` call at once, in program order. React's `useCallback` dependency lists and the listener re-registration effect are not modelled; the joystick's `isDragging` is read directly.
- The `disabled` prop is a field of the joystick that no method changes. The base element's bounding box is given as the centre coordinates of each move. React rendering, CSS and the knob transform are not modelled.
- GPIO setup, `GPIO.setmode`, `GPIO.setwarnings`, PWM frequencies, logging, `print` and exception handling in the drivers are not modelled. A servo whose PWM failed to initialise is not modelled.
- BackendMotion.RoverMotion.constructor: the backend's `self.servo = self.servos[0]` alias (backend/rover/motion.py:14) is not modelled. Nothing in the modelled core reads it, so the model does not capture that `servo` and `servos[0]` are one object.
- `pi_agent/config.py` does not define the motor direction and PWM pins that `pi_agent/rover/motor_driver.py` reads. The model passes them to the driver's constructor.
- The Pi agent's `watchdog_triggered` attribute is absent until the first command. `getattr` reads it as False, so the model starts it at false.
- `SystemState.set_command` reads the clock twice: once for `ts` and once for `last_command_time`. The model takes both as parameters.
- `SystemState.get_sensors` merges `lastUpdated` into the sensor dictionary, which would overwrite a stored group of that name. The model returns the groups and the stamp side by side.
- A "soil" entry that is not a dictionary, or a reading that is not a number, would make the Python code fail. The model's types rule these out.
- `AIRulesEngine.analyze`'s pH reason text says the optimal range is 6.5-7.5, although its threshold is 6.0. The model keeps the thresholds and not the text.
- The dashboard pages and cards that display these values, the REST API and its routers, the HTTP client, the Pi agent's polling loop and the backend's asynchronous watchdog task are not part of this model.
- `Array.prototype.sort` is a library call. The model gives the result a stable sort must produce, rather than a sorting algorithm.
