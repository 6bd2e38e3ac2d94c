# Driver attention dashboard: the decision logic, modelled in Dafny

The dashboard shows fleet drivers, their attention and fatigue telemetry,
their history and their sleep. Most of it is markup. This project models
the small decisions the views make and proves properties of them:

- **Distance suggestions.** Each driver gets a suitability score for a trip
  distance. The score adds weighted attention and an experience bonus, then
  subtracts weighted fatigue, a duty-hours penalty and a distance-specific
  penalty, and clamps the total to [0, 100]. The suggestions for a distance
  are the five best-scoring on-duty drivers.
- **Driver history.** A conjunctive filter combines a case-insensitive
  search over name or licence with a status select and a risk select, each
  of which has a "todos" wildcard. The view also shows counts and a rounded
  average.
- **Real-time monitor.** The view counts on-duty, critical and routed
  drivers and shows a rounded mean attention and the three-colour bands.
- **Driver detail.** Four threshold rules pick the recommendation cards.
  The view also shows a critical banner, the latest telemetry sample and
  the avatar initials.
- **Sleep profile.** The view shows the best and worst night, the total
  hours slept, the latest night's deep and REM sleep, and the status badge
  text.

Files:

- `types.dfy` (`DriverTypes`): the records and enumerations.
- `seqs.dfy` (`Seqs`): the array operations the views are written with.
  These are `filter`, a `reduce` sum, `Math.max`/`Math.min`,
  `Math.round`, and "last element or 0".
- `bands.dfy` (`Bands`): the green/yellow/red banding.
- `suggestions.dfy` (`DistanceSuggestions`): scoring and ranking.
- `history.dfy` (`DriverHistory`), `monitor.dfy` (`RealTimeMonitor`),
  `detail.dfy` (`DriverDetail`) and `profile.dfy` (`ProfileDetail`): one
  module per view.

How the model reads JavaScript:

- **Numbers.** They are exact `real`s, so the weights 0.4 and 0.3 carry no
  rounding error.
- **Optional fields.** They are `Option`s. The truthiness tests of the
  source are written out, so an absent `hoursOnDuty` and a `hoursOnDuty`
  of 0 both skip the thresholds.
- **Empty lists.** The NaN average of an empty list is `None`. So are the
  ±Infinity of `Math.max()` and `Math.min()` over an empty list.
- **Scoring.** `getDriverSuitability` updates a local `score` step by step,
  so it is an imperative method, `DistanceSuggestions.DriverSuitability`. It
  is proved equal to the specification function
  `DistanceSuggestions.Suitability`.
- **Sort.** `Array.prototype.sort` is stable. It is modelled as a stable
  insertion sort and proved to be a descending permutation that keeps input
  order among equal scores.

## Model

| member | source | states |
|---|---|---|
| Seqs.Filter | components/driver-history.tsx:67-75 | `filter` returns no more elements than it is given, and an element is in the result exactly when it is in the input and satisfies the predicate |
| Seqs.FilterIsSubsequence | components/driver-history.tsx:67 | the result of `filter` is an order-preserving subsequence of its input |
| Seqs.FilterNarrowing | components/driver-history.tsx:71-72 | a predicate that implies another selects a subsequence of what the other selects |
| Seqs.FilterKeepsAll | components/driver-history.tsx:67-75 | a predicate every element satisfies keeps the whole list, in order |
| Seqs.FilterExtensional | components/driver-history.tsx:68-70 | two predicates that agree on every element select the same list |
| Seqs.FilterAppend | components/distance-suggestions.tsx:52 | filtering a concatenation is concatenating the filtered parts |
| Seqs.FilterOfPrefix | components/distance-suggestions.tsx:58 | filtering the first k elements gives a prefix of filtering them all |
| Seqs.SubsequenceLength | components/driver-history.tsx:226 | a subsequence is never longer than the list it comes from |
| Seqs.SumAppend | components/profile-detail.tsx:190 | the `reduce` sum of a concatenation is the sum of the two sums |
| Seqs.SumBounds | components/profile-detail.tsx:190 | the sum of n values that each lie in [lo, hi] lies in [n·lo, n·hi] |
| Seqs.MaxOf | components/profile-detail.tsx:202 | `Math.max` over a non-empty list is one of its elements and is at least every element |
| Seqs.MinOf | components/profile-detail.tsx:208 | `Math.min` over a non-empty list is one of its elements and is at most every element |
| Seqs.Round | components/real-time-monitor.tsx:63 | `Math.round` gives the integer n with n − ½ ≤ x < n + ½, so a half rounds up |
| Seqs.RoundMonotone | components/real-time-monitor.tsx:63 | rounding never reverses the order of two numbers |
| Seqs.RoundedMean | components/driver-history.tsx:80 | the rounded mean has a value exactly when the list is non-empty; an empty list gives NaN in the source |
| Seqs.MeanWithinBounds | components/driver-history.tsx:80 | the mean of values in [lo, hi] lies in [lo, hi] |
| Seqs.RoundedMeanWithinExtremes | components/real-time-monitor.tsx:63 | the rounded mean lies between the rounded minimum and the rounded maximum |
| Seqs.RoundedMeanOfWholeNumbers | components/driver-history.tsx:80 | for whole-number values the rounded mean lies between the minimum and the maximum |
| Seqs.LastOrZeroReadsNewest | components/driver-detail.tsx:196 | `s[s.length - 1]?.field \|\| 0` reads the newest element, and gives 0 for an empty list |
| Bands.ScoreBand | components/real-time-monitor.tsx:55-59 | green exactly from 80 up, yellow exactly on [60, 80), red exactly below 60 (the same chain as driver-history.tsx:61-65, driver-detail.tsx:30-34, profile-detail.tsx:29-33 and distance-suggestions.tsx:65-69) |
| Bands.ScoreBandMonotone | components/real-time-monitor.tsx:55-59 | a higher score never gets a worse band |
| Bands.BarMatchesScore | components/profile-detail.tsx:35-39 | `getBarColor` (used for each night's bar at profile-detail.tsx:134) and the text-colour chain pick the same band for every score; driver-detail.tsx:36-40 declares an identical `getBarColor` that is never called |
| Bands.FatigueBand | components/real-time-monitor.tsx:226 | banding `100 − fatigue` is green iff fatigue ≤ 20, yellow iff 20 < fatigue ≤ 40, red iff fatigue > 40 (also driver-detail.tsx:110) |
| DistanceSuggestions.CategoryOf | components/distance-suggestions.tsx:16-20 | corta iff d ≤ 50, media iff 50 < d ≤ 200, larga iff d > 200; both boundaries fall into the shorter category |
| DistanceSuggestions.HoursPenalty | components/distance-suggestions.tsx:38-41 | the penalty is 20 iff hours are present and above 8, 10 iff in (6, 8], and 0 iff absent or at most 6; an absent value and 0 both skip the thresholds |
| DistanceSuggestions.HoursPenaltyMonotone | components/distance-suggestions.tsx:38-41 | more hours never lower the penalty, and absent hours and 0 hours cost nothing |
| DistanceSuggestions.DistancePenalty | components/distance-suggestions.tsx:44-45 | −15 iff larga with novato, −25 iff corta with critico, 0 iff neither; never both at once |
| DistanceSuggestions.Clamp | components/distance-suggestions.tsx:47 | `Math.max(0, Math.min(100, x))` lies in [0, 100], is x when x is in range, 0 below and 100 above |
| DistanceSuggestions.ClampMonotone | components/distance-suggestions.tsx:47 | clamping never reverses the order of two scores |
| DistanceSuggestions.Suitability | components/distance-suggestions.tsx:22-48 | the score lies in [0, 100] and equals the unclamped weighted sum whenever that sum is in range |
| DistanceSuggestions.DriverSuitability | components/distance-suggestions.tsx:22-48 | the step-by-step accumulation of `score` ends in [0, 100], equal to the specification function `Suitability` |
| DistanceSuggestions.SuitabilityMonotoneInAttention | components/distance-suggestions.tsx:27 | with every other field fixed, a higher attention score never lowers suitability |
| DistanceSuggestions.SuitabilityAntitoneInFatigue | components/distance-suggestions.tsx:35 | with every other field fixed, a higher fatigue level never raises suitability |
| DistanceSuggestions.SuitabilityExamples | components/distance-suggestions.tsx:24-47 | worked values: 90 attention, experto, fatigue 10, 3 h at 50 km gives 63; two low cases clamp to 0 |
| DistanceSuggestions.InsertPermutation | components/distance-suggestions.tsx:57 | one insertion step adds exactly the inserted entry |
| DistanceSuggestions.HeadOutscoresRest | components/distance-suggestions.tsx:57 | in a descending list no entry outscores the first |
| DistanceSuggestions.InsertSorted | components/distance-suggestions.tsx:57 | inserting into a descending list keeps it descending |
| DistanceSuggestions.InsertSortedPermutation | components/distance-suggestions.tsx:57 | inserting keeps the list descending and adds exactly the inserted entry |
| DistanceSuggestions.SortSortedPermutation | components/distance-suggestions.tsx:57 | the sort returns a descending permutation of its input |
| DistanceSuggestions.PassOver | components/distance-suggestions.tsx:57 | passing a higher-scored entry does not change the relative order of equal-score entries |
| DistanceSuggestions.InsertStable | components/distance-suggestions.tsx:57 | among entries of one score, the inserted entry goes in front of those it is inserted before |
| DistanceSuggestions.SortStable | components/distance-suggestions.tsx:57 | the sort is stable: the entries of any one score keep their input order |
| DistanceSuggestions.SuggestionsContents | components/distance-suggestions.tsx:50-58 | there are min(5, on-duty count) suggestions, each an on-duty input driver carrying its own suitability score |
| DistanceSuggestions.SuggestionsOrdered | components/distance-suggestions.tsx:57-58 | the suggestions are ordered best first |
| DistanceSuggestions.DroppedTailScoresLower | components/distance-suggestions.tsx:58 | after `slice(0, k)` of a descending list, every dropped entry scores at most every kept one |
| DistanceSuggestions.SuggestionsKeepTheBest | components/distance-suggestions.tsx:50-58 | no on-duty driver left out of the suggestions outscores any driver kept in them |
| DistanceSuggestions.SuggestionsBreakTiesByInputOrder | components/distance-suggestions.tsx:57-58 | the suggestions of any one score are a prefix of the on-duty drivers of that score, in input order |
| DistanceSuggestions.PanelDistancesMatchTheirLabels | components/distance-suggestions.tsx:61-63 | the panels' 50, 200 and 500 km fall into corta, media and larga |
| DistanceSuggestions.BadgeFor | components/distance-suggestions.tsx:71-75 | Excelente, Bueno and "No recomendado" correspond exactly to the green, yellow and red score bands |
| DistanceSuggestions.LowScoreNote | components/distance-suggestions.tsx:125-128 | the note appears exactly for "No recomendado" scores and blames fatigue iff fatigue is above 50, attention otherwise |
| DriverHistory.FilteredDrivers | components/driver-history.tsx:67-75 | a record is shown iff name or licence contains the search term (ignoring case), the status is "todos" or matches, and the risk is "todos" or matches; the shown list is an order-preserving subsequence, so never longer |
| DriverHistory.ClearedFiltersShowEverything | components/driver-history.tsx:209-213 | with the initial or cleared filters (empty search, "todos", "todos") the whole history is shown, in order |
| DriverHistory.NarrowingStatusKeepsSubsequence | components/driver-history.tsx:71 | choosing a specific status instead of "todos" shows a subsequence of what was shown |
| DriverHistory.NarrowingRiskKeepsSubsequence | components/driver-history.tsx:72 | choosing a specific risk instead of "todos" shows a subsequence of what was shown |
| DriverHistory.SearchIgnoresCase | components/driver-history.tsx:68-70 | a search term and its lowercase form show the same records |
| DriverHistory.ActiveCount | components/driver-history.tsx:78 | the active count is at most the total, and is 0 iff no record is "activo" |
| DriverHistory.HighRiskCount | components/driver-history.tsx:79 | the high-risk count is at most the total, and is 0 iff no record is "alto" |
| DriverHistory.ActiveCountAppend | components/driver-history.tsx:78 | the active count is 0 for an empty history and grows by one exactly for each record whose status is "activo", so it is the number of such records |
| DriverHistory.HighRiskCountAppend | components/driver-history.tsx:79 | the high-risk count is 0 for an empty history and grows by one exactly for each record whose risk is "alto", so it is the number of such records |
| DriverHistory.AverageAttention | components/driver-history.tsx:80 | the average exists exactly for a non-empty history |
| DriverHistory.AverageAttentionWithinScores | components/driver-history.tsx:80 | the average lies between the rounded lowest and highest record scores |
| DriverHistory.AverageAttentionOfWholeScores | components/driver-history.tsx:80 | for whole-number scores the average lies between the lowest and highest score |
| RealTimeMonitor.ActiveDrivers | components/real-time-monitor.tsx:61 | exactly the on-duty drivers, in order, never more than all drivers (the count shown at lines 85 and 103) |
| RealTimeMonitor.CriticalDrivers | components/real-time-monitor.tsx:62 | exactly the drivers at attention level critico, in order |
| RealTimeMonitor.ShowsCriticalAlert | components/real-time-monitor.tsx:153 | the alert card appears iff some driver is critico |
| RealTimeMonitor.ActiveRouteCount | components/real-time-monitor.tsx:145 | the number of routed drivers is at most the number of drivers |
| RealTimeMonitor.ActiveRouteCountAppend | components/real-time-monitor.tsx:145 | the count is 0 for no drivers, and a driver adds one iff its `currentRoute` is present and non-empty |
| RealTimeMonitor.AverageAttention | components/real-time-monitor.tsx:63 | the average exists exactly for a non-empty driver list |
| RealTimeMonitor.AverageAttentionWithinScores | components/real-time-monitor.tsx:63 | the average lies between the rounded lowest and highest attention score |
| RealTimeMonitor.AttentionBarBand | components/real-time-monitor.tsx:261-265 | the inline bar conditional picks the `getScoreColor` band for every score |
| DriverDetail.Recommendations | components/driver-detail.tsx:293-320 | "Atención Crítica" iff attention < 60, "Alta Fatiga" iff fatigue > 70, "Exceso de Horas" iff hours are present and above 8, "Estado Óptimo" iff attention ≥ 80 and fatigue < 30; no card twice |
| DriverDetail.OptimalExcludesWarnings | components/driver-detail.tsx:314 | "Estado Óptimo" never appears beside "Atención Crítica" or "Alta Fatiga" |
| DriverDetail.ExcessHoursSlotPrintsZero | components/driver-detail.tsx:307 | as written, a driver with `hoursOnDuty` 0 gets the number 0 rendered in the card grid |
| DriverDetail.ExcessHoursSlot | components/driver-detail.tsx:307 | the intended slot is the card iff hours are present and above 8, otherwise nothing, never a number |
| DriverDetail.ExcessHoursSlotAgreesElsewhere | components/driver-detail.tsx:307 | the intended and the written slot differ only at `hoursOnDuty` 0 |
| DriverDetail.CriticalBannerIgnoresScore | components/driver-detail.tsx:132 | the banner depends on the attention level alone, not on the score |
| DriverDetail.LatestMetrics | components/driver-detail.tsx:188-223 | the metrics block is absent iff there is no sample, and otherwise shows the last sample's four figures |
| DriverDetail.Split | components/driver-detail.tsx:82 | `split(" ")` yields at least one piece, and no piece contains a space |
| DriverDetail.SplitJoin | components/driver-detail.tsx:82 | joining the pieces with spaces gives back the name |
| DriverDetail.FirstChars | components/driver-detail.tsx:83-84 | at most one initial per piece |
| DriverDetail.FirstCharsAreWordStarts | components/driver-detail.tsx:81-84 | the first characters of the pieces are the non-space characters that open a word |
| DriverDetail.InitialsAreWordStarts | components/driver-detail.tsx:81-84 | the initials are the word-opening characters, at most one per piece, never a space |
| DriverDetail.NoSpaceInWordStarts | components/driver-detail.tsx:81-84 | word-opening characters are never spaces |
| DriverDetail.InitialsOfTwoWords | components/driver-detail.tsx:81-84 | "Jo Li" gives "JL" |
| DriverDetail.InitialsSkipEmptyPieces | components/driver-detail.tsx:81-84 | a doubled space adds no initial ("A  B" gives "AB"), and an empty name gives "" |
| ProfileDetail.BestNight | components/profile-detail.tsx:202 | "Mejor noche" exists iff there are nights, is one night's quality and is at least every night's |
| ProfileDetail.WorstNight | components/profile-detail.tsx:208 | "Noche más difícil" exists iff there are nights, is one night's quality and is at most every night's |
| ProfileDetail.WorstAtMostBest | components/profile-detail.tsx:202-208 | the worst night is never better than the best |
| ProfileDetail.TotalHoursAddsNight | components/profile-detail.tsx:190 | one more night adds exactly its hours to the total |
| ProfileDetail.TotalHoursBounds | components/profile-detail.tsx:190 | n nights of between lo and hi hours total between n·lo and n·hi |
| ProfileDetail.LatestPhasesReadNewestNight | components/profile-detail.tsx:91-97 | deep and REM sleep come from the last night, or are 0 with no nights (also lines 162 and 171) |
| ProfileDetail.ReplaceFirst | components/profile-detail.tsx:75 | `replace` with a one-character pattern keeps the length |
| ProfileDetail.ReplaceFirstWithoutMatch | components/profile-detail.tsx:75 | a string without the pattern comes back unchanged |
| ProfileDetail.ReplaceFirstAt | components/profile-detail.tsx:75 | only the first occurrence changes: the text before it and after it is kept |
| ProfileDetail.StatusBand | components/profile-detail.tsx:16-27 | each sleep status gets its own colour: perfecto green, con-problemas yellow, critico red |
| ProfileDetail.StatusLabelWithHyphen | components/profile-detail.tsx:75 | "con-problemas" reads "con problemas" |
| ProfileDetail.StatusLabelsWithoutHyphen | components/profile-detail.tsx:75 | "perfecto" and "critico" read unchanged |

## Left out

- Rendering is not modelled: the JSX markup, icons, avatar images and Tailwind class strings. The colour helpers become a three-valued band (`Bands.Band`). The one `ScoreBand` stands for every identical 80/60 text-colour chain. The separately written bar-fill chain is `BarBand`, and `Bands.BarMatchesScore` proves the two agree. The status and risk badge colours of the history view are not modelled. Neither is the attention-level colour and icon of the monitor and detail views.
- View switching is not modelled. This covers `components/attention-monitor-app.tsx` and `components/sleep-monitor-app.tsx`, which swap views with `useState` setters and hold the mock data. The types these files declare (`Profile`) are modelled.
- `components/dashboard.tsx` is not part of this model. It is a static mock layout.
- `components/grafic.tsx` is not part of this model. It wraps a charting library, and its one computation is unused.
- `service/somnia.ts` is not part of this model. It is a single network `fetch` with logging.
- `components/profile-list.tsx` is not part of this model. It holds styling lookups and repeats the status-label rewrite modelled in `ProfileDetail.StatusLabel`.
- IEEE-754 floating point is not modelled: numbers are exact reals. The same goes for the display rounding of the suitability score (`Math.round` at components/distance-suggestions.tsx:100), `toFixed(1)` on the total hours, and `Date` or locale formatting.
- DriverHistory.ToLower: lowercases ASCII letters only. Unicode case folding is not modelled.
- NaN is not modelled as a value. Empty lists give `None` where the source gets NaN or ±Infinity: `Seqs.RoundedMean`, `ProfileDetail.BestNight`, `ProfileDetail.WorstNight`. A telemetry field that is NaN would also turn `|| 0` into 0; `Seqs.LastOrZero` has no NaN to meet.
- The suggestions view is not reachable from the app shell, and its `Driver` import path names a module that no longer exports that type. Neither changes its logic, so it is modelled on the live `Driver` record.
- That `map` spreads into new objects and leaves the input drivers untouched holds by construction: Dafny values are immutable. `SuggestedDriver` pairs the unchanged driver with its score rather than copying its fields.
- DistanceSuggestions.SuggestedDrivers: the `distanceCategory` argument is accepted and ignored, as in the source. Only `maxDistance` reaches the score.
- The `hoursOnDuty && (...)` slots at components/real-time-monitor.tsx:241 and components/driver-detail.tsx:259, and the `estimatedDistance && (...)` slot at components/driver-detail.tsx:247, share the stray-"0" behaviour described under Findings. Only the recommendation slot at line 307 is modelled as a rendered value.
- DriverDetail.Initials: JavaScript's `n[0]` reads one UTF-16 code unit, while a Dafny `char` is a whole Unicode scalar value. For a name piece that starts outside the Basic Multilingual Plane the source shows half a surrogate pair; the model shows the whole character.
- Shared text displays are not modelled separately. These are `{driver.hoursOnDuty || 0}h` at components/distance-suggestions.tsx:117 and the initials at components/real-time-monitor.tsx:189 and components/driver-history.tsx:239. They use the same expressions as the modelled ones.

## Findings

| source | as written | input that shows it | evidently intended | confidence | as-written member | corrected member |
|---|---|---|---|---|---|---|
| components/driver-detail.tsx:307 | `{driver.hoursOnDuty && driver.hoursOnDuty > 8 && (<card/>)}`: `&&` yields its first falsy operand, and React prints the number 0 | a driver with `hoursOnDuty: 0` gets a stray "0" in the recommendations grid (the same pattern appears at real-time-monitor.tsx:241 and driver-detail.tsx:259 for `hoursOnDuty`, and at driver-detail.tsx:247 for `estimatedDistance`) | the "Exceso de Horas" card or nothing | not executed | DriverDetail.ExcessHoursSlotPrintsZero | DriverDetail.ExcessHoursSlot |
