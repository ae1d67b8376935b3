# Crop recommendation dashboard: a Dafny model of its decision logic

The dashboard collects a location, typed in or read from the device's GPS.
It then shows one fixed weather snapshot, one fixed soil sample and a fixed
list of three crop recommendations. Almost all of it is rendering. This
project models the four pieces that make decisions, and proves what they
promise:

- `SoilHealth` (soil_health.dfy) models the soil view. It holds the
  per-parameter health classifier with its range table, the two colour
  mappings of its result, the progress-bar values, and when the pH and
  organic-content advice is shown.
- `CropSuitability` (crop_suitability.dfy) models the crop view. It holds the
  three threshold chains over the suitability score (level, bar colour, badge
  variant) and the language-dependent crop name.
- `LocationEntry` (location_input.dfy) models the location form. The class
  `LocationInput` holds the form's text, its GPS spinner flag, the
  geolocation requests still waiting for an answer, and the log of locations
  passed to `onLocationSelect`. It also models JavaScript's `trim`.
- `App` (app.dfy) models the root component. It holds the three mock tables,
  the speech language tag, a pure state machine (`Step`, `Run`) over the
  session state, and the class `Session`. The class's fields are the
  component's `useState` cells, and its methods are specified by `Step`.
- `Domain` (domain.dfy) holds the shared value records.

Readings, scores and coordinates are exact `real`s. The logic only compares
them with decimal literals and divides them by constants. The deferred
completion that `handleLocationSelect` schedules with `setTimeout` is an
explicit event, `TimerFires`. `pendingTimers` counts the completions that are
scheduled and have not yet run.
This count, and the form's count of pending geolocation requests and its log
of selected locations, are not component state: they are `ghost` fields.

The code differs from what one might assume in three places:

- The suitability score is a JavaScript number in the code, not an integer.
  It is a `real` here, so a score of 89.5 is "recommended".
- The GPS fallback's marker is the literal address `Delhi, India (Default)`.
- An empty manual entry is refused by the handler itself (line 47), and not
  only by the disabled button.

## Model

| member | source | states |
|---|---|---|
| SoilHealth.Ranges | src/components/SoilAnalysis.tsx:74-80 | For every parameter the table's intervals nest: excellent inside good, good inside moderate, moderate inside poor. Every poor interval starts at 0. |
| SoilHealth.Classify | src/components/SoilAnalysis.tsx:82-86 | The band returned is one whose test passes for the reading. No better band's test passes. |
| SoilHealth.SoilHealthStatus | src/components/SoilAnalysis.tsx:73-87 | Total for every real reading. The result is excellent iff the reading is in the excellent range. It is good iff outside excellent and inside good. It is moderate iff outside both and inside moderate. It is not poor iff the reading is in the moderate range. |
| SoilHealth.PoorEntryNeverConsulted | src/components/SoilAnalysis.tsx:75-86 | Replacing a table's poor interval by any other interval never changes the result. |
| SoilHealth.NestedBandsAreCumulative | src/components/SoilAnalysis.tsx:74-86 | For any nested table, the result is at least as good as band b iff the reading lies in b's interval. |
| SoilHealth.OutOfDomainReadingsArePoor | src/components/SoilAnalysis.tsx:83-86 | A negative reading, or one above the poor interval, is classified poor rather than rejected. |
| SoilHealth.ClassifierExamples | src/components/SoilAnalysis.tsx:73-87 | pH 7.0 is excellent, 6.2 good, 5.7 moderate and 2.0 poor. 8.5 is moderate and 8.51 poor. Absurd nitrogen and potassium readings are poor. |
| SoilHealth.StatusBand | src/components/SoilAnalysis.tsx:89-107 | The two colour switches recognise exactly the four strings excellent, good, moderate and poor; every other string falls to their default. |
| SoilHealth.BandName | src/components/SoilAnalysis.tsx:83-86 | The status string returned for each band is one the colour switches recognise, and it is read back as that same band. |
| SoilHealth.StatusColor | src/components/SoilAnalysis.tsx:89-97 | The badge colour is the grey default exactly when the status is not one of the four band names. |
| SoilHealth.ProgressColor | src/components/SoilAnalysis.tsx:99-107 | The bar colour is the grey default exactly when the status is not one of the four band names. |
| SoilHealth.ColoursSeparateBands | src/components/SoilAnalysis.tsx:89-107 | The status colour and the progress colour each differ between any two bands. Neither is the grey default for a status the classifier returns. |
| SoilHealth.ScaleMax | src/components/SoilAnalysis.tsx:182-232 | Each progress scale (14, 10, 100, 50, 300) is positive and equals the top of that parameter's poor interval. |
| SoilHealth.ProgressValue | src/components/SoilAnalysis.tsx:182-232 | A reading in [0, scale] gives a value in [0, 100]. The value times the scale is the reading times 100, so the reading can be recovered. |
| SoilHealth.ProgressMonotone | src/components/SoilAnalysis.tsx:182-232 | A larger reading never gives a smaller progress value. |
| SoilHealth.ShowsPhAdvice | src/components/SoilAnalysis.tsx:262 | The pH advice is shown iff pH < 6.5 or pH > 7.5, that is, iff its status is not excellent. |
| SoilHealth.ShowsOrganicAdvice | src/components/SoilAnalysis.tsx:276 | The organic advice is shown iff the content is < 3 or > 5, that is, iff its status is not excellent. |
| CropSuitability.SuitabilityLevel | src/components/CropRecommendations.tsx:63-68 | The level is the strongest one whose cut-off (90, 75, 60, none) the score reaches. No stronger level's cut-off is reached. |
| CropSuitability.LevelMonotone | src/components/CropRecommendations.tsx:63-68 | A higher score never gives a weaker level. |
| CropSuitability.LevelBoundaries | src/components/CropRecommendations.tsx:63-68 | 90 is highly recommended and 89 recommended. 75 is recommended and 74 moderate. 60 is moderate and 59 low. |
| CropSuitability.SuitabilityColor | src/components/CropRecommendations.tsx:70-75 | The colour chain agrees with the level for every score: green, blue, yellow, red. |
| CropSuitability.BadgeVariant | src/components/CropRecommendations.tsx:77-82 | The badge chain agrees with the level for every score: default, secondary, outline, destructive. |
| CropSuitability.ColourAndBadgeDetermineLevel | src/components/CropRecommendations.tsx:70-82 | Different levels get different colours and different badges. |
| CropSuitability.CropName | src/components/CropRecommendations.tsx:85 | The crop's name is its Hindi name when the language is Hindi, and its English name for every other language. |
| CropSuitability.Subtitle | src/components/CropRecommendations.tsx:114-116 | A line under the heading is shown exactly when the language is Hindi, and it is the crop's English name. |
| CropSuitability.EnglishNameAlwaysShown | src/components/CropRecommendations.tsx:110-116 | Every card shows the English name, as its heading or as its subtitle. A Hindi card shows the Hindi name as heading and the English name below it. |
| CropSuitability.DisplayedNames | src/components/CropRecommendations.tsx:104-113 | There is one card name per recommendation, in order. Each is that crop's name in the selected language. |
| CropSuitability.NamesFollowLanguage | src/components/CropRecommendations.tsx:104-113 | The card headings depend on the language only through whether it is Hindi. Switching away and back restores every heading. |
| LocationEntry.TrimStart | src/components/LocationInput.tsx:47 | The kept text is a suffix of the input. What was dropped is all whitespace, and the kept text does not start with whitespace. |
| LocationEntry.TrimEnd | src/components/LocationInput.tsx:47 | The kept text is a prefix of the input. What was dropped is all whitespace, and the kept text does not end with whitespace. A text starting with a non-space keeps something. |
| LocationEntry.Trim | src/components/LocationInput.tsx:47 | The result is a slice of the input whose head and tail outside it are all whitespace. The trimmed text (as used by the handler and by the button's guard at line 121) is empty iff every character is JavaScript whitespace. Otherwise it neither starts nor ends with whitespace, and it is never longer than the input. |
| LocationEntry.ManualLocation | src/components/LocationInput.tsx:45-56 | Nothing is sent iff the text is blank. Otherwise the location sent is (28.6139, 77.2090) with the raw, untrimmed text as its address. |
| LocationEntry.SubmitEnabled | src/components/LocationInput.tsx:121 | The submit button is enabled iff the text is not blank and the app is not loading. |
| LocationEntry.GpsEnabled | src/components/LocationInput.tsx:156 | The GPS button is enabled iff neither the GPS spinner nor the app is loading. |
| LocationEntry.EnabledSubmitSelects | src/components/LocationInput.tsx:118-121 | A submit through the enabled button always sends the reference location with the typed text. |
| LocationEntry.LocationFor | src/components/LocationInput.tsx:62-80 | A device position is passed on with its latitude and longitude unchanged. A geolocation error gives the Delhi fallback. |
| LocationEntry.LocationInput.constructor | src/components/LocationInput.tsx:21-22 | The form starts with empty text, the spinner off, no pending request and nothing sent. |
| LocationEntry.LocationInput.ChangeText | src/components/LocationInput.tsx:114 | The text field holds exactly the new text. |
| LocationEntry.LocationInput.SubmitManual | src/components/LocationInput.tsx:45-56 | The form sends what ManualLocation gives for its text. The log grows by that one location, or not at all. |
| LocationEntry.LocationInput.RequestPosition | src/components/LocationInput.tsx:58-92 | With geolocation, a request is started, the spinner stays on and nothing is sent yet. Without it, the fallback is sent at once and the spinner ends off. |
| LocationEntry.LocationInput.PositionCallback | src/components/LocationInput.tsx:61-82 | The callback for a pending request sends exactly one location, LocationFor of the outcome, with no retry. It turns the spinner off. |
| LocationEntry.LocationInput.UseGps | src/components/LocationInput.tsx:58-93 | On every path (success, error, unsupported) one click sends exactly one location and ends with the spinner off. |
| App.MockWeather | src/App.tsx:62-72 | The weather snapshot's humidity is a percentage, and it has three forecast days. |
| App.MockSoil | src/App.tsx:74-81 | The mock sample is excellent on all five parameters. Neither advice block is shown for it. Every progress value is in [0, 100]. |
| App.MockRecommendations | src/App.tsx:83-114 | There are three entries. Each score is in [0, 100], and the scores strictly descend (95, 88, 82). |
| App.MockRecommendationLevels | src/App.tsx:83-114 | The mock crops are labelled highly recommended, recommended and recommended. |
| App.SpeechLanguageTag | src/App.tsx:182 | The tag is hi-IN iff the language is Hindi, and en-US iff it is not. |
| App.Initial | src/App.tsx:53-59 | A fresh session has no location, no data, language Hindi, loading off and nothing scheduled. It satisfies the session invariant, and only its location tab is enabled. |
| App.TabEnabled | src/App.tsx:224-236 | The location tab is always enabled. Weather and soil are enabled iff there is a location. Recommendations and dashboard are enabled iff there are crops. |
| App.Step | src/App.tsx:165-177 | Only a selection moves the location and sets loading. Only a completion changes the data, and it installs the snapshot, clears loading and shows the weather tab. Only the selector (line 200) changes the language. Only a selection or a completion changes loading. A tab click (line 218) moves to the clicked tab iff it is enabled; no other event but a completion moves the active tab. Each selection schedules one completion and each completion consumes one. |
| App.Run | src/App.tsx:165-177 | Over any sequence of events, pending completions at the end plus completions run equals pending completions at the start plus selections made. |
| App.TabsInConsistentStates | src/App.tsx:224-236 | In every consistent state the recommendations and dashboard tabs are enabled iff the snapshot is loaded. Loaded data also enables the weather and soil tabs. |
| App.StepKeepsConsistent | src/App.tsx:165-177 | Every event preserves the invariant. The invariant says: data fields are unloaded or all from the single snapshot; loading implies a pending completion; pending completions or data imply a location; the active tab is enabled. |
| App.RunKeepsConsistent | src/App.tsx:165-177 | Every state reachable from a consistent one by any sequence of events is consistent. |
| App.LastSelectionWins | src/App.tsx:165-177 | After any sequence of events, the location is the argument of the last selection. Completions never change it. |
| App.LoadedIffSomeTimerFired | src/App.tsx:170-176 | From a consistent state, the snapshot is loaded afterwards iff it already was or some completion ran. Nothing unloads it. |
| App.TwoSelectionsSettle | src/App.tsx:165-176 | Selecting a then b, with the two completions run in either order relative to b, ends in one state. That state has location b, the single snapshot, loading off and the weather tab active. |
| App.FirstCompletionClearsLoading | src/App.tsx:165-176 | With two selections in flight, the first completion already turns loading off while the second is still scheduled. |
| App.Session.constructor | src/App.tsx:53-59 | A new session has no location, no weather or soil, no recommendations, language Hindi, the location tab active and loading off. |
| App.Session.HandleLocationSelect | src/App.tsx:165-168 | Location becomes the argument and loading turns on. One completion is scheduled and nothing else changes. This is Step on SelectLocation, and it keeps the invariant. |
| App.Session.CompleteLoad | src/App.tsx:170-176 | The snapshot is installed, loading turns off and the weather tab becomes active. The location and the language are untouched. This is Step on TimerFires, and it keeps the invariant. |
| App.Session.SetSelectedLanguage | src/App.tsx:200 | Only the language changes. |
| App.Session.SetActiveTab | src/App.tsx:218-236 | A click moves to the clicked tab only when that tab is enabled. Nothing else changes. This is Step on ClickTab, and it keeps the invariant. |

## Left out

- Rendering is not modelled: all JSX, the chart data and the summary text templates of the soil, crop, weather and dashboard views. Only the crop-name choice inside the crop summary is modelled.
- The label dictionaries are not modelled. For the six languages without a table, the source's `translations[lang]` is undefined and rendering would fail on it; the model does not say what should happen then.
- src/components/LanguageSelector.tsx is not part of this model. Its eight codes appear only as the `Hi | En | Other` value.
- Locale date formatting and `toFixed(4)` are not modelled. The address of a GPS success is carried as an opaque text, `PositionOutcome.formatted`.
- The coordinate arithmetic of the map click (src/components/InteractiveMap.tsx) is not modelled. Its result enters the session as an ordinary `SelectLocation` event.
- The speech-synthesis call itself is left out (feature detection and `speak`). Only its language tag is modelled.
- The 2000 ms delay is not modelled. Completions are events that can occur at any later point, in any order with other events.
- `e.preventDefault()` and `console.error` are left out. They have no effect on the modelled state.
- The soil-type line of the soil advice card is not modelled. It is shown unconditionally and has no decision in it.
- SoilHealth.ProgressValue: exact real division, not IEEE-754 doubles, so rounding in the last place is not modelled. How the progress widget clamps values outside [0, 100] is not part of this model.
