# Fire-cloud sunset forecast: scoring core

This project models the decision logic of a small sunset "fire-cloud" forecaster for
Yongkang, Tainan. The forecaster takes an hourly weather forecast (low, mid and high
cloud cover, relative humidity, visibility, ISO-8601 time stamps) and a PM2.5 reading.
It picks the forecast slot of the sunset hour and scores the chance of a vivid sunset
from 0 to 100 with a fixed rule table. It then maps the score to one of four advice tiers.

Modules:

- `HourSlot` models the slot search in `calculate_burn_probability`. The hour is rendered
  with two digits, and the search looks for `"T" + hour + ":"` as a substring (Python's
  `in`). The first match wins; when nothing matches, slot 0 is used.
- `Scoring` holds what both rule tables share: the readings, the humidity and
  visibility corrections, and the clamp into [0, 100].
- `App` models `calculate_burn_probability` of `app.py` as a method. The method has the
  source's scan loop with its `break`, the indexed reads, and the score built up by
  increments. It is proved equal to the function `BurnProbability`. Every lookup failure
  that the source's blanket `except` catches gives the tagged result `InsufficientData`.
  The source returns `(0, {})` for these cases; `AsPair` gives that pair view. The causes
  are a missing `hourly` or `time` key, a missing series, a series too short for the
  selected slot, or a JSON null there (Python raises `TypeError` on the addition `mid + high` or on a threshold comparison).
- `Algorithm` models `logic/algorithm.py`. `calculate_fci` is the other revision of the
  rule table: an extra canvas band (80, 90] worth +30, a low-cloud penalty of -40, a
  PM2.5 sweet spot of 15..35, and a PM2.5 penalty above 50. `get_advice` is the
  four-tier lookup.
- `RuleTables` relates the two rule tables. The two tables are kept separate, never
  merged.

Readings are exact `real`s. Only the threshold comparisons matter. The score only ever
gets integer constants added, so it stays an integer. The `int(...)` at
`logic/algorithm.py:42` therefore changes nothing, and the model does not truncate.

## Model

| member | source | states |
|---|---|---|
| HourSlot.Pad2 | app.py:56 | the `02d` rendering of an hour is two decimal digits whose value is the hour |
| HourSlot.Pad2Injective | app.py:56 | distinct hours give distinct two-digit patterns |
| HourSlot.ContainsIff | app.py:56 | the substring test holds exactly when the pattern occurs at some position of the time stamp |
| HourSlot.FindFrom | app.py:55-58 | the scan returns the first matching index at or after its start, or none exactly when no later stamp matches |
| HourSlot.SlotIndex | app.py:54-58 | the selected index is the least index whose stamp contains `T<hh>:`, so no earlier stamp contains it; with no match the index is 0 |
| HourSlot.TimestampMatchesOwnHour | app.py:56 | a well-formed `date T hh : mm` stamp contains the pattern of hour h if and only if its hour is h |
| HourSlot.SlotOfHourlySeries | app.py:54-58 | on a series of well-formed stamps the selected slot is the first whose hour is the target hour, and 0 when no stamp has that hour |
| Scoring.Clamp | app.py:82 | the final score lies in [0, 100], equals the raw score inside that range, is 0 below it and 100 above it |
| Scoring.ClampMonotone | logic/algorithm.py:42 | clamping preserves the order of raw scores |
| App.SampleAt | app.py:60-64 | an indexed read succeeds exactly when the key exists, the index is in range and the entry is a number, and then yields that entry |
| App.CalculateBurnProbability | app.py:51-85 | scan, reads, increments and clamp compute exactly `BurnProbability`; a computed score lies in [0, 100] |
| App.RawScoreBounds | app.py:66-82 | the unclamped sum lies in [-40, 100] with both ends reached, so only the lower clamp can bind |
| App.CanvasBands | app.py:67-70 | mid+high of 30 and 80 give +50; [30, 80] gives +50, [10, 30) gives +30, anything else +10 |
| App.LowCloudBands | app.py:72-73 | only low < 30 earns +20, only low > 60 costs 30, and [30, 60] contributes 0 |
| App.Pm25Bands | app.py:75-77 | PM2.5 in [15, 40] gives +20, above 60 gives -10, below 15 or in (40, 60] gives +10 |
| App.FailureIff | app.py:52-85 | the result is the failure case exactly when `hourly` or `time` is missing or a series is missing, too short or null at the selected slot |
| App.SuccessDetails | app.py:82-83 | on success the details hold exactly the keys low, mid, high, pm2.5, with the selected slot's cloud cover and the PM2.5 argument, and the score is the clamped sum of the terms at that slot, humidity and visibility included |
| App.PairKeepsFailureDistinct | app.py:83-85 | failure is the pair `(0, {})`, and an empty details map arises only from failure, never from a computed score of 0 |
| App.EveningSlot | app.py:54-58 | with stamps at 17:00, 18:00 and 19:00, hour 18 selects slot 1 |
| App.Scenarios | app.py:66-83 | three sample snapshots score 100, 10 and 50 with tiers severe, low and ordinary, and a payload without `hourly` is a failure rather than a 0 |
| App.PageTierMatchesAdvice | app.py:117-120 | the page's inline advice thresholds pick the same tier as `get_advice` for every score |
| Algorithm.CalculateFci | logic/algorithm.py:1-42 | the increments and the clamp give the clamped sum of the variant terms, and the index lies in [0, 100] |
| Algorithm.FciRawBounds | logic/algorithm.py:6-42 | the unclamped variant sum lies in [-50, 100] with both ends reached, so only the lower clamp can bind |
| Algorithm.CanvasBands | logic/algorithm.py:10-16 | [30, 80] gives +50; [10, 30) and (80, 90] both give +30; anything else +10 |
| Algorithm.LowCloudBands | logic/algorithm.py:20-25 | only low < 30 earns +20, only low > 60 costs 40, and [30, 60] contributes 0 |
| Algorithm.Pm25Bands | logic/algorithm.py:29-34 | PM2.5 in [15, 35] gives +20, above 50 gives -10, below 15 or in (35, 50] gives +10 |
| Algorithm.AdviceTier | logic/algorithm.py:44-52 | score >= 80 is tier 1, [60, 80) tier 2, [40, 60) tier 3, below 40 tier 4, each if and only if |
| Algorithm.GetAdvice | logic/algorithm.py:44-52 | the result is the message of the score's tier, and no score of another tier gets the same message |
| Algorithm.MessageInjective | logic/algorithm.py:45-52 | the four tiers have four distinct messages |
| Algorithm.AdviceMonotone | logic/algorithm.py:44-52 | a higher score never gets a worse tier |
| RuleTables.CanvasDifference | logic/algorithm.py:11-16 | the two canvas terms differ only on (80, 90], by +20 for the variant |
| RuleTables.LowCloudDifference | logic/algorithm.py:20-25 | the two low-cloud terms differ only above 60, by -10 for the variant |
| RuleTables.Pm25Difference | logic/algorithm.py:29-34 | the two PM2.5 terms differ only on (35, 40], by -10, and on (50, 60], by -20 |
| RuleTables.TablesAgreeOutsideVariantBands | logic/algorithm.py:6-40 | outside the bands where the revisions differ, both tables give the same raw score |
| RuleTables.MoreLowCloudNeverHelps | app.py:72-73 | in both tables, raising low cloud never raises the raw or the clamped score |
| RuleTables.HumidityAndVisibilityDirection | app.py:79-80 | in both tables, more humidity never raises the score and more visibility never lowers it |
| RuleTables.CorrectionsIndependent | logic/algorithm.py:37-40 | changing humidity and visibility shifts either raw score by exactly the change in those two corrections |
| RuleTables.CorrectionsFireTogether | logic/algorithm.py:37-40 | the humidity penalty and visibility bonus can both fire on one snapshot, and together they cancel |

Points of the code's behaviour worth noting:

- The slot is found by a substring test on the time stamp, not by parsing its hour.
  `HourSlot.SlotOfHourlySeries` shows that on well-formed stamps this picks the first
  stamp of hour h.
- Slot 0 is used only when no stamp matches. A slot past the end of a shorter series is
  a failure.
- The PM2.5 detail's key is `"pm2.5"`.

## Left out

- `get_data` in app.py and all of logic/api_client.py are left out: the HTTP fetches,
  the PM2.5 JSON walk and the fallback to 25. PM2.5 is a plain `real` argument, which a
  caller sets to 25.0 when no reading is available.
- The Streamlit page is left out: the layout, the metrics, the map, and the ISO parsing
  of the sunset time stamp, including the undefined names at app.py:105. The target hour
  is an input of type `Hour` (0..23), which is the range `datetime.hour` gives. Only the
  inline advice thresholds at app.py:117-120 are modelled.
- Python exceptions are modelled only as the lookup failures a forecast payload can
  produce: a missing key, an index past the end, or a null entry. Entries of other JSON
  types, a `time` series holding non-strings, and a PM2.5 argument that is not a number
  are not modelled.
- IEEE floating point is not modelled. Readings are exact reals, so `mid + high` is
  computed without rounding.
- The purity and idempotence of scoring need no statement: Dafny functions are
  deterministic by construction.
