# VanRakshak vision site: verified model of its behavioural core

VanRakshak is a wildlife-conservation showcase site. Most of it is animation and
static content. This project models in Dafny the parts that hold logic, and proves
what they guarantee:

- **Species recognition** (`SpeciesRecognition`, `Text`). A classifier label is
  lower-cased and scanned against an ordered ten-entry keyword table; the first key
  contained in the label wins, and no match gives an "Unidentified Species" record.
  The confidence is the rounded percentage. The model-load guard is a small state
  machine over `mobileNetModel` and `isLoading`. The on-device-then-remote
  classification chain is modelled over abstract outcomes: a thrown error, a
  prediction list, or a response with an ok flag.
- **Mock forest-activity service** (`ForestActivity`). A store of activities and a
  monotone id counter. The store is seeded once with 50 activities, grows by one to
  three activities per real-time update, and reports per-type and per-severity
  counts. Every `Math.random()` value the model keeps is a parameter: a real `r` with `0 <= r < 1`
  (`JsMath.IsUnit`), and `Math.floor(r * n)` becomes `JsMath.ScaledIndex`.
- **Activity heatmap** (`ActivityHeatmap`, `BoundedFeed`). A newest-first list
  capped at 100, five counters, and a type filter.
- **Acoustic analyzer** (`AcousticAnalyzer`). A listening switch, a 64-bar
  spectrum, and a newest-first list of at most five sound detections.
- **Conservation rewards** (`ConservationRewards`). The current tier, the next
  tier, the points still missing, and the earned marks over a four-tier threshold
  table.
- **Day-night cycle** (`DayNightCycle`). The period of the day for an hour, and
  the sun-or-moon choice with its exact progress fraction.
- **Colour psychology** (`ColorPsychology`). The theme, the colour temperature it
  drives, the dark-mode flag and its time rule, the case-insensitive contextual
  colour lookup, and the theme classes on the page body, kept as a set.
- **Weather** (`WeatherEffects`). A three-state cycle, plus the fixed-size
  rain-drop and sun-ray tables.

Timers are explicit method calls, for example `Tick` and `Advance`. What a foreign
library or the network returns is an input. JavaScript's `Math.round(x)` is
`floor(x + 0.5)` (`JsMath.Round`). Numbers are exact reals and integers.

## Model

| member | source | states |
|---|---|---|
| JsMath.ScaledIndex | src/services/mockForestActivityService.ts:72-76 | `Math.floor(r * n)` for `0 <= r < 1` is a valid index into a table of `n` entries |
| JsMath.Pick | src/services/mockForestActivityService.ts:72-76 | a uniform pick always yields an entry of the table |
| JsMath.RandomConfidence | src/services/mockForestActivityService.ts:91 | `floor(r * 30) + 70` lies in 70..99 |
| JsMath.Round | src/services/aiSpeciesRecognition.ts:83 | the rounded value is within one half of its argument |
| JsMath.RoundedPercentInRange | src/services/aiSpeciesRecognition.ts:83 | `round(p * 100)` lies in 0..100 for `p` in [0, 1] |
| Text.LowerChar | src/services/aiSpeciesRecognition.ts:76 | upper-case ASCII letters map to lower case, and every other character is unchanged |
| Text.ToLower | src/services/aiSpeciesRecognition.ts:76 | same length, pointwise lower-casing, and no upper-case letter left |
| Text.Contains | src/services/aiSpeciesRecognition.ts:80 | `includes` holds iff the key occurs at some position of the label |
| Text.MissingCharNotContained | src/services/aiSpeciesRecognition.ts:80 | a key containing a character the label lacks is not contained in it |
| SpeciesRecognition.FirstMatchFrom | src/services/aiSpeciesRecognition.ts:79-88 | the table scan returns the first entry whose key is in the label, or none when no key is |
| SpeciesRecognition.Unidentified | src/services/aiSpeciesRecognition.ts:91-96 | the fallback record: "Unidentified Species (label)", "Unknown behavior", "Location to be determined", with the given confidence |
| SpeciesRecognition.UnidentifiedKeepsLabel | src/services/aiSpeciesRecognition.ts:91-96 | the fallback species name holds the label exactly as given, between "Unidentified Species (" and ")" |
| SpeciesRecognition.MapPredictionToWildlife | src/services/aiSpeciesRecognition.ts:75-97 | the first matching key's record, or "Unidentified Species (label)" with the label as given; the confidence is `round(p * 100)` in both branches |
| SpeciesRecognition.MatchOrFallback | src/services/aiSpeciesRecognition.ts:79-96 | a label either has a first match or matches no key, never both |
| SpeciesRecognition.FirstMatchUnique | src/services/aiSpeciesRecognition.ts:79-88 | the first match is unique |
| SpeciesRecognition.ConfidenceIsPercentage | src/services/aiSpeciesRecognition.ts:83-93 | the confidence is in 0..100 when the probability is in [0, 1] |
| SpeciesRecognition.BengalTigerExample | src/services/aiSpeciesRecognition.ts:24-86 | "Bengal tiger, Panthera tigris" and "BENGAL TIGER" at 0.978 both give Bengal Tiger / Hunting patrol / Sundarbans National Park at 98 |
| SpeciesRecognition.TigerMatches | src/services/aiSpeciesRecognition.ts:24-86 | a label containing "tiger" in any letter case maps to Bengal Tiger / Hunting patrol / Sundarbans National Park, since the tiger key is scanned first |
| SpeciesRecognition.SportsCarMatchesNoKey | src/services/aiSpeciesRecognition.ts:23-34 | the lower-cased "sports car" contains none of the ten keys |
| SpeciesRecognition.SportsCarExample | src/services/aiSpeciesRecognition.ts:91-96 | "sports car" at 0.55 gives "Unidentified Species (sports car)" at 55 |
| SpeciesRecognition.LowerCaseUnchanged | src/services/aiSpeciesRecognition.ts:76 | a label with no upper-case letter is unchanged by lower-casing |
| SpeciesRecognition.NoKeyWithoutEOrI | src/services/aiSpeciesRecognition.ts:23-34 | a label with neither 'e' nor 'i' matches no key |
| SpeciesRecognition.FallbackWhenNoKey | src/services/aiSpeciesRecognition.ts:91-96 | a label that matches no key in any letter case gives the fallback record |
| SpeciesRecognition.AISpeciesRecognitionService.constructor | src/services/aiSpeciesRecognition.ts:18-20 | no model, not loading, empty API key |
| SpeciesRecognition.AISpeciesRecognitionService.BeginLoad | src/services/aiSpeciesRecognition.ts:37-40 | a load starts iff no model is present and none is in flight |
| SpeciesRecognition.AISpeciesRecognitionService.FinishLoad | src/services/aiSpeciesRecognition.ts:44-51 | the loading flag is cleared on both paths; a failed load leaves no model and reports "Failed to load AI model" |
| SpeciesRecognition.AISpeciesRecognitionService.LoadMobileNetModel | src/services/aiSpeciesRecognition.ts:36-52 | a present or in-flight model makes the call a no-op; otherwise the model becomes the load's result and the flag ends false |
| SpeciesRecognition.AISpeciesRecognitionService.SetHuggingFaceApiKey | src/services/aiSpeciesRecognition.ts:145-147 | only the key changes |
| SpeciesRecognition.AISpeciesRecognitionService.ClassifyWithHuggingFace | src/services/aiSpeciesRecognition.ts:99-143 | an empty key fails with the key error; otherwise the call succeeds iff the response is ok and non-empty, and it maps the first result; any other failure is "Backup classification failed" |
| SpeciesRecognition.AISpeciesRecognitionService.ClassifyImage | src/services/aiSpeciesRecognition.ts:54-73 | with a model and a non-empty prediction list, the top prediction is mapped; with no model or an empty list, the remote path decides; every failure is "Failed to classify image" |
| SpeciesRecognition.OverlappingLoadsStartOnce | src/services/aiSpeciesRecognition.ts:37-51 | of two overlapping loads only the first starts; the second call returns success at once while no model is present yet; after a failed load the next call starts again |
| ForestActivity.Descriptions | src/services/mockForestActivityService.ts:34-65 | each type has three phrases |
| ForestActivity.SeedActivity | src/services/mockForestActivityService.ts:71-93 | a seeded activity is well formed (listed location row, a phrase of its own type, confidence 70..99) and carries its counter |
| ForestActivity.LiveKind | src/services/mockForestActivityService.ts:120-128 | below 0.3 animal movement, below 0.5 conservation patrol, otherwise a uniform pick among the six types |
| ForestActivity.LiveSeverity | src/services/mockForestActivityService.ts:131-133 | poaching and fire detection are high when the draw exceeds 0.7 and medium otherwise, never low; other types pick uniformly |
| ForestActivity.LiveActivity | src/services/mockForestActivityService.ts:119-151 | a real-time activity is well formed, carries its counter, and has the biased type and severity |
| ForestActivity.BuiltFromSnoc | src/services/mockForestActivityService.ts:99-105 | appending the activity built from the next draw, under the next counter, extends a batch by one, both for the seeding loop and for the real-time loop |
| ForestActivity.UpdateCount | src/services/mockForestActivityService.ts:115 | between 1 and 3 updates |
| ForestActivity.StoreInvariantAppend | src/services/mockForestActivityService.ts:83-154 | appending a well-formed activity with the next counter keeps the counters increasing and bounded |
| ForestActivity.DistinctIds | src/services/mockForestActivityService.ts:83-142 | the ids in the store are pairwise distinct |
| ForestActivity.CountKind | src/services/mockForestActivityService.ts:170 | a type count never exceeds the store size |
| ForestActivity.CountSeverity | src/services/mockForestActivityService.ts:174 | a severity count never exceeds the store size |
| ForestActivity.StatsOf | src/services/mockForestActivityService.ts:167-177 | `total` is the store size, and the maps cover exactly the six types and the three levels |
| ForestActivity.KindCountsSum | src/services/mockForestActivityService.ts:169-172 | the six type counts add up to the store size |
| ForestActivity.SeverityCountsSum | src/services/mockForestActivityService.ts:173-176 | the three severity counts add up to the store size |
| ForestActivity.StatsPartitionTotal | src/services/mockForestActivityService.ts:164-180 | in the stats, `byType` sums to `total` and so does `bySeverity` |
| ForestActivity.MockForestActivityService.constructor | src/services/mockForestActivityService.ts:68-69 | empty store, counter 0 |
| ForestActivity.MockForestActivityService.GenerateRandomActivity | src/services/mockForestActivityService.ts:71-93 | the counter goes up by exactly one and the activity embeds the new value |
| ForestActivity.MockForestActivityService.SeedIfEmpty | src/services/mockForestActivityService.ts:97-106 | before the delay, an empty store is seeded with exactly 50 activities in draw order, numbered after the old counter; a non-empty one is unchanged |
| ForestActivity.MockForestActivityService.Snapshot | src/services/mockForestActivityService.ts:110 | after the delay, the result is a copy of the store as it is then |
| ForestActivity.MockForestActivityService.GetActivities | src/services/mockForestActivityService.ts:95-111 | with no call overlapping the delay, an empty store is seeded with exactly 50 activities in draw order and a non-empty one is unchanged; the result is the store |
| ForestActivity.MockForestActivityService.MakeRealtimeActivity | src/services/mockForestActivityService.ts:119-151 | one real-time iteration takes the next counter and builds the activity with the biased type and severity from its draws |
| ForestActivity.MockForestActivityService.GetRealtimeUpdates | src/services/mockForestActivityService.ts:113-162 | 1 to 3 new activities, each appended in creation order; exactly those are returned, and the counter advances by their number |
| ForestActivity.MockForestActivityService.GetActivityStats | src/services/mockForestActivityService.ts:164-180 | the stats of the store after the seeding step |
| ForestActivity.StatsWithUpdateDuringDelay | src/services/mockForestActivityService.ts:95-177 | when a real-time update runs during the delay of `getActivities`, the counted copy is the 50 seeded activities followed by the 1 to 3 pushed ones, so the stats total is 51 to 53, and the counter has advanced by 50 plus their number |
| ActivityHeatmap.CountThreats | src/components/ForestActivityHeatmap.tsx:64 | the threat count never exceeds the list |
| ActivityHeatmap.ThreatsAreHighOrMedium | src/components/ForestActivityHeatmap.tsx:64-65 | threats are exactly the high activities plus the medium ones |
| ActivityHeatmap.PoachingAndMovementWithinTotal | src/components/ForestActivityHeatmap.tsx:61-63 | poaching plus movement never exceeds the total |
| ActivityHeatmap.UpdateStats | src/components/ForestActivityHeatmap.tsx:60-68 | `total` is the length and the type counts are as named; `activeAlerts <= threats <= total` |
| ActivityHeatmap.KeepKind | src/components/ForestActivityHeatmap.tsx:73 | every kept activity has the selected type |
| ActivityHeatmap.KeepKindIsOrderedSelection | src/components/ForestActivityHeatmap.tsx:73 | the filter is an order-preserving subsequence that keeps every activity of the type |
| ActivityHeatmap.KeepKindMembership | src/components/ForestActivityHeatmap.tsx:73 | an activity is kept iff it is in the list and has the type |
| ActivityHeatmap.Filtered | src/components/ForestActivityHeatmap.tsx:71-73 | 'all' returns the list unchanged; a type returns its ordered selection |
| ActivityHeatmap.ForestActivityHeatmap.constructor | src/components/ForestActivityHeatmap.tsx:18-27 | empty list, filter 'all', real-time on, zero counters |
| ActivityHeatmap.ForestActivityHeatmap.LoadInitialData | src/components/ForestActivityHeatmap.tsx:30-38 | the list becomes the generated one and the counters are computed from it; a throwing generator changes nothing |
| ActivityHeatmap.ForestActivityHeatmap.Tick | src/components/ForestActivityHeatmap.tsx:41-58 | with real-time on, the new activity goes first, the first 99 old ones follow, and the length is `min(old + 1, 100)`; with real-time off nothing changes |
| ActivityHeatmap.ForestActivityHeatmap.SetSelectedActivityType | src/components/ForestActivityHeatmap.tsx:19 | only the filter changes |
| ActivityHeatmap.ForestActivityHeatmap.SetRealTimeEnabled | src/components/ForestActivityHeatmap.tsx:20 | only the flag changes |
| BoundedFeed.PrependKeep | src/components/ForestActivityHeatmap.tsx:48 | the new item is first and the rest are the first `keep` previous items in order; the length is `min(old + 1, keep + 1)` |
| BoundedFeed.PrependKeepDropsOldest | src/components/ForestActivityHeatmap.tsx:48 | the previous list is the kept part followed by the dropped tail: only the oldest entries are dropped |
| BoundedFeed.PrependKeepBounded | src/components/AcousticAnalyzer.tsx:36 | the result never exceeds `keep + 1` entries, and nothing is dropped below the cap |
| AcousticAnalyzer.Detects | src/components/AcousticAnalyzer.tsx:27 | defines the detection condition: listening and a draw above 0.7 |
| AcousticAnalyzer.NewDetection | src/components/AcousticAnalyzer.tsx:28-34 | a detection copies one of the six sound profiles and has a confidence of 70..99 |
| AcousticAnalyzer.Spectrum | src/components/AcousticAnalyzer.tsx:23 | exactly 64 bars, each `100 * r` and in [0, 100) |
| AcousticAnalyzer.AcousticAnalyzer.constructor | src/components/AcousticAnalyzer.tsx:6-8 | not listening, no data, no detections |
| AcousticAnalyzer.AcousticAnalyzer.StartListening | src/components/AcousticAnalyzer.tsx:43-46 | listening on and the list emptied |
| AcousticAnalyzer.AcousticAnalyzer.StopListening | src/components/AcousticAnalyzer.tsx:48-50 | listening off; the detections stay |
| AcousticAnalyzer.AcousticAnalyzer.Tick | src/components/AcousticAnalyzer.tsx:22-37 | the spectrum is replaced; a detection is added iff listening and the draw exceeds 0.7, and it goes first ahead of at most four previous ones; the list never exceeds 5 |
| AcousticAnalyzer.FeedKeepsNewestFive | src/components/AcousticAnalyzer.tsx:36 | at most five detections, the new one first, then the previous first four in order |
| ConservationRewards.ThresholdsIncrease | src/components/ConservationRewards.tsx:11-16 | the thresholds strictly increase |
| ConservationRewards.InBand | src/components/ConservationRewards.tsx:26-27 | defines the `find` condition: the points reach the tier and are below the next tier, or the tier is the last one |
| ConservationRewards.FindBand | src/components/ConservationRewards.tsx:26-27 | the `find` returns the first tier whose band contains the points, or none |
| ConservationRewards.CurrentTierIndex | src/components/ConservationRewards.tsx:26-28 | from 500 points on, the tier's band contains the points; below 500 it falls back to bronze |
| ConservationRewards.BandsDisjoint | src/components/ConservationRewards.tsx:26-27 | no two bands overlap |
| ConservationRewards.CurrentTierUnique | src/components/ConservationRewards.tsx:26-27 | the current tier is the unique tier whose band contains the points |
| ConservationRewards.NextFrom | src/components/ConservationRewards.tsx:30 | the first tier at or after a position whose threshold exceeds the points |
| ConservationRewards.NextTierIndex | src/components/ConservationRewards.tsx:30 | the first tier whose threshold exceeds the points; there is none iff points >= 5000 |
| ConservationRewards.RemainingPoints | src/components/ConservationRewards.tsx:62-65 | shown iff there is a next tier, and then strictly positive |
| ConservationRewards.Earned | src/components/ConservationRewards.tsx:91-100 | defines the earned mark (the ring and the "earned" label): the points reach the tier |
| ConservationRewards.EarnedIsPrefix | src/components/ConservationRewards.tsx:91-99 | the earned tiers form a prefix of the table |
| ConservationRewards.EarnedUpToCurrent | src/components/ConservationRewards.tsx:26-100 | from the first threshold on, a tier is marked earned iff it is not after the current tier |
| ConservationRewards.NextFollowsCurrent | src/components/ConservationRewards.tsx:26-30 | from 500 points on, the next tier directly follows the current one, and there is none only at diamond |
| ConservationRewards.BelowFirstThreshold | src/components/ConservationRewards.tsx:26-30 | below 500 the current tier is bronze, unearned, and also the next tier |
| ConservationRewards.UserPointsExample | src/components/ConservationRewards.tsx:9-65 | at 2450 points: silver now, gold next, 550 to go |
| DayNightCycle.TimeOfDayAt | src/components/EnhancedDayNightCycle.tsx:16-24 | dawn exactly for [5, 8), day for [8, 17), dusk for [17, 20), night otherwise |
| DayNightCycle.SunMoonPosition | src/components/EnhancedDayNightCycle.tsx:48-75 | the sun iff 6 <= hour < 18 |
| DayNightCycle.DayProgressInUnit | src/components/EnhancedDayNightCycle.tsx:51-57 | day progress lies in [0, 1) |
| DayNightCycle.DayProgressMonotone | src/components/EnhancedDayNightCycle.tsx:57 | during the day, day progress never decreases with the time, and a strictly later time gives strictly more |
| DayNightCycle.NightProgressRange | src/components/EnhancedDayNightCycle.tsx:66-67 | night progress is non-negative and exceeds 1 exactly after 05:00 |
| DayNightCycle.PeriodAndBodyDisagree | src/components/EnhancedDayNightCycle.tsx:16-55 | at 05:xx it is dawn with the moon; at 17:xx it is dusk with the sun |
| DayNightCycle.StarsVisible | src/components/EnhancedDayNightCycle.tsx:113-114 | defines when stars are rendered: the night period only |
| DayNightCycle.StarsOnlyAtNight | src/components/EnhancedDayNightCycle.tsx:114 | stars show iff the hour is before 5 or from 20 on, and then the moon is up |
| ColorPsychology.ThemeClass | src/components/ColorPsychologyProvider.tsx:51-57 | each theme's class is one of the listed values, only neutral has none, and every non-empty one is one of the four theme classes |
| ColorPsychology.ShouldBeDark | src/components/ColorPsychologyProvider.tsx:32 | defines the time rule: dark before 06:00 and from 20:00 |
| ColorPsychology.AutoTemperature | src/components/ColorPsychologyProvider.tsx:71-78 | endangered gives warm, ai-processing cool, thriving and success neutral; the neutral theme keeps the temperature |
| ColorPsychology.GetContextualColors | src/components/ColorPsychologyProvider.tsx:90-106 | a class is returned iff the lower-cased context is a key, and it is a theme class |
| ColorPsychology.ContextualColorsIgnoreCase | src/components/ColorPsychologyProvider.tsx:105 | contexts equal up to letter case get the same class |
| ColorPsychology.TigerExample | src/components/ColorPsychologyProvider.tsx:92-105 | "Tiger" and "tiger" both give color-endangered; an unknown context gives '' |
| ColorPsychology.ThemeEffectExclusive | src/components/ColorPsychologyProvider.tsx:47-66 | after the effect the only theme class present is the current theme's, none for neutral; other classes are untouched |
| ColorPsychology.ColorPsychologyProvider.constructor | src/components/ColorPsychologyProvider.tsx:24-26 | neutral theme and temperature, light mode |
| ColorPsychology.ColorPsychologyProvider.SetTheme | src/components/ColorPsychologyProvider.tsx:68-79 | the theme is always set, and the temperature follows it |
| ColorPsychology.ColorPsychologyProvider.SetTemperature | src/components/ColorPsychologyProvider.tsx:81-83 | only the temperature changes |
| ColorPsychology.ColorPsychologyProvider.ToggleDarkModeFrom | src/components/ColorPsychologyProvider.tsx:85-88 | a handler created at a render that saw the flag as `rendered` writes `!rendered`, whatever the flag is now |
| ColorPsychology.ColorPsychologyProvider.ToggleDarkMode | src/components/ColorPsychologyProvider.tsx:85-88 | called from the current render, the dark-mode flag flips |
| ColorPsychology.ColorPsychologyProvider.CheckTimeBasedTheme | src/components/ColorPsychologyProvider.tsx:30-38 | dark iff hour < 6 or hour >= 20, written only when it differs |
| ColorPsychology.ColorPsychologyProvider.ToggleDarkModeThenRecheck | src/components/ColorPsychologyProvider.tsx:29-88 | a toggle followed by the time check, which re-runs because the flag changed: the flag ends as the hour says, so a toggle made while the flag matched the hour is undone |
| ColorPsychology.ColorPsychologyProvider.ApplyThemeEffect | src/components/ColorPsychologyProvider.tsx:47-66 | the classes become the transition and temperature classes plus the old ones, minus every theme class, plus the current theme's |
| ColorPsychology.ToggleDarkModeTwice | src/components/ColorPsychologyProvider.tsx:85-88 | toggling twice, with a re-render between the calls, restores the flag and changes nothing else |
| ColorPsychology.ToggleDarkModeTwiceFromOneRender | src/components/ColorPsychologyProvider.tsx:85-88 | two calls of the handler from one render write the same value, so the flag stays flipped and nothing else changes |
| WeatherEffects.IndexOf | src/components/WeatherEffects.tsx:13 | `indexOf` gives the first position of the value, and -1 exactly when it is absent |
| WeatherEffects.IndexFrom | src/components/WeatherEffects.tsx:13 | the search from a position finds the first occurrence, or -1 when there is none |
| WeatherEffects.NextWeather | src/components/WeatherEffects.tsx:11-15 | every step changes the weather |
| WeatherEffects.IndexNeverMissing | src/components/WeatherEffects.tsx:6-13 | `indexOf` never returns -1 |
| WeatherEffects.SuccessorTable | src/components/WeatherEffects.tsx:12-14 | clear to rain, rain to mist, mist to clear |
| WeatherEffects.CycleOfThree | src/components/WeatherEffects.tsx:14 | each step changes the state, and three steps return to it |
| WeatherEffects.AdvancedPeriodic | src/components/WeatherEffects.tsx:10-16 | the weather after n + 3 ticks equals the weather after n |
| WeatherEffects.WeatherEffects.constructor | src/components/WeatherEffects.tsx:6 | starts clear |
| WeatherEffects.WeatherEffects.Advance | src/components/WeatherEffects.tsx:10-16 | one tick moves to the successor, a different state |
| WeatherEffects.RainDrops | src/components/WeatherEffects.tsx:21-26 | exactly 80 drops numbered in order, with position, delay and duration in their ranges |
| WeatherEffects.SunRays | src/components/WeatherEffects.tsx:28-33 | exactly 8 rays at angle `45i - 22.5`, opacity in [0.1, 0.2), delay `0.2i` |
| WeatherEffects.SunRayFan | src/components/WeatherEffects.tsx:30 | consecutive rays are 45 degrees apart, within -22.5 to 292.5 |

## Left out

- Rendering, animation and layout (framer-motion, canvas drawing, the sky gradient strings) are not modelled; only the state they display is.
- The coordinate jitter of activities is not modelled. An activity keeps its location row, which holds the name and the base coordinates.
- Timestamps, `Date.now()` id suffixes and the hours-ago offset of seeded activities are not modelled, nor the random draw that offset consumes.
- The sine and cosine placement of the sun and moon is not modelled; only the progress fraction is.
- Timers and the simulated delays are not modelled. Each interval tick is one explicit method call. An `await` is a point between two calls where that matters: the model-load guard, and the delay inside `getActivities`.
- React effects are explicit method calls: `CheckTimeBasedTheme` is the time-check effect and `ApplyThemeEffect` the theme effect. Re-running the time check whenever the dark-mode flag changes is modelled for the toggle, by `ToggleDarkModeThenRecheck`.
- Floating-point rounding is not modelled: numbers are exact reals.
- `mobilenet.load()`, `classify` and the remote model's HTTP request are foreign calls. Their results are inputs (`MobileNet`, `LocalOutcome`, `RemoteOutcome`), so the Authorization header and the request body are not modelled.
- `processImageFile` and `processImageFromCanvas` (image loading from a file or canvas) are I/O and are not modelled.
- Text.ToLower: lower-cases ASCII letters only, because JavaScript's full Unicode case mapping has no counterpart here.
- SpeciesRecognition.AISpeciesRecognitionService.ClassifyImage: as the code is written, a local classifier that throws sends `classifyImage` straight to "Failed to classify image" without trying the remote path. The service's own comments describe a fallback in that case; the model follows the code.
- ColorPsychology.ColorPsychologyProvider.ToggleDarkMode: models the click handler alone. On the page the time-check effect re-runs right after it and writes the hour's value back, so the flag always ends at the hour's value; that combination is ToggleDarkModeThenRecheck.
- ColorPsychology.ToggleDarkModeTwice: assumes the page re-renders between the two calls, so each call sees the current flag. Two calls of a handler from one render (or a handler kept from an older render) both write the same value; ToggleDarkModeTwiceFromOneRender covers that case.
- ForestActivity.MockForestActivityService.GetActivities: covers a call that no other call overlaps. The 500 ms delay between seeding and copying the store is covered by SeedIfEmpty, Snapshot and StatsWithUpdateDuringDelay.
- SpeciesRecognition.AISpeciesRecognitionService.LoadMobileNetModel: covers a call that no other call overlaps. The interleaving of two calls around the `await` is covered by BeginLoad, FinishLoad and OverlappingLoadsStartOnce. SpeciesRecognition.OverlappingLoadsStartOnce states what the code does: an overlapping caller gets success back immediately, with no model present and before the first load has finished or failed; it is not made to wait for that load.
- A `null` prediction or result list (as opposed to an empty one) is not modelled.
- `generateMockForestActivity` is imported by the heatmap but not defined in `src/services/mockForestActivityService.ts`. It is an abstract generator: the heatmap receives either its activities or its exception, and nothing is assumed about the length of the returned list.
- ActivityHeatmap.ForestActivityHeatmap.Tick: a generator call returning an empty list (whose element 0 is `undefined`) is not modelled; a tick gets an activity or an exception.
- The `ActivityType` and `SeverityLevel` types of both the service and the heatmap come from `src/types/forestActivity`, which is not part of this model. The model takes their values from the service's `activityTypes` and `severityLevels` tables.
- The stars' random positions, the acoustic detection's `Date.now()` id and its locale time string, and the rain drops' and sun rays' CSS are not modelled.
- The `document.documentElement` 'dark' class toggle is not modelled; only the dark-mode flag is.
- The ever-growing `document.body.className` string is modelled as a set of class names. Repeated names and their order are not modelled.
- ColorPsychology.GetContextualColors: a context naming an inherited object property, such as "constructor", is not modelled; the colour map is a plain map.
- The other components (3D scenes, carousels, forms, navigation and the like) are not modelled: they hold no behavioural logic beyond rendering.
