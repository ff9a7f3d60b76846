/**
 * `calculate_burn_probability` of app.py: pick the hourly slot of the sunset hour, read
 * the five aligned hourly series there, apply the default rule table, clamp, and report
 * the score with the readings it used. Every lookup failure of the payload becomes the
 * tagged result `InsufficientData`, kept apart from a genuine score of 0.
 */
module App {

  import opened Wrappers
  import opened Scoring
  import opened HourSlot
  import Algorithm

  /** One entry of an hourly series: a JSON number, or null. */
  type Sample = Option<real>

  /** The `hourly` object of the forecast payload; a field is `None` when its key is absent. */
  datatype Hourly = Hourly(
    time: Option<seq<string>>,
    cloudCoverLow: Option<seq<Sample>>,
    cloudCoverMid: Option<seq<Sample>>,
    cloudCoverHigh: Option<seq<Sample>>,
    relativeHumidity2m: Option<seq<Sample>>,
    visibility: Option<seq<Sample>>)

  /** The forecast payload; `hourly` is `None` when its key is absent. */
  datatype WeatherData = WeatherData(hourly: Option<Hourly>)

  /** Either a score with the snapshot details used, or the lookup failed. */
  datatype BurnResult = Ok(score: int, details: map<string, real>) | InsufficientData

  /** The number at index `i` of a series: absent when the key is missing, the index is
      past the end, or the entry is null. */
  function SampleAt(series: Option<seq<Sample>>, i: nat): (v: Option<real>)
    ensures v.Some? <==> series.Some? && i < |series.value| && series.value[i].Some?
    ensures v.Some? ==> v.value == series.value[i].value
  {
    match series
    case None => None
    case Some(s) => if i < |s| then s[i] else None
  }

  /** Canvas term on mid + high cloud. */
  function CanvasTerm(midHigh: real): int
  {
    if 30.0 <= midHigh <= 80.0 then 50
    else if 10.0 <= midHigh < 30.0 then 30
    else 10
  }

  /** Low-cloud obstruction term. */
  function LowCloudTerm(low: real): int
  {
    if low < 30.0 then 20
    else if low > 60.0 then -30
    else 0
  }

  /** Particulate scattering term. */
  function Pm25Term(pm25: real): int
  {
    if 15.0 <= pm25 <= 40.0 then 20
    else if pm25 > 60.0 then -10
    else 10
  }

  /** The unclamped score: the sum of the four independent terms. */
  function RawScore(r: Readings): int
  {
    CanvasTerm(r.mid + r.high) + LowCloudTerm(r.low) + Pm25Term(r.pm25)
      + HumidityTerm(r.humidity) + VisibilityTerm(r.visibility)
  }

  /** The snapshot details reported with a score. */
  function Details(low: real, mid: real, high: real, pm25: real): map<string, real>
  {
    map["low" := low, "mid" := mid, "high" := high, "pm2.5" := pm25]
  }

  /** What `calculate_burn_probability` computes, as a function of its arguments. */
  function BurnProbability(weather: WeatherData, pm25: real, targetHour: Hour): BurnResult
  {
    match weather.hourly
    case None => InsufficientData
    case Some(hourly) =>
      match hourly.time
      case None => InsufficientData
      case Some(times) =>
        var i := SlotIndex(times, targetHour);
        var low := SampleAt(hourly.cloudCoverLow, i);
        var mid := SampleAt(hourly.cloudCoverMid, i);
        var high := SampleAt(hourly.cloudCoverHigh, i);
        var humidity := SampleAt(hourly.relativeHumidity2m, i);
        var visibility := SampleAt(hourly.visibility, i);
        if low.Some? && mid.Some? && high.Some? && humidity.Some? && visibility.Some? then
          var r := Readings(low.value, mid.value, high.value, pm25, humidity.value, visibility.value);
          Ok(Clamp(RawScore(r)), Details(r.low, r.mid, r.high, pm25))
        else
          InsufficientData
  }

  /** `calculate_burn_probability`: a first-match scan with a break, indexed reads, and a
      score built up by increments, then clamped. */
  method CalculateBurnProbability(weather: WeatherData, pm25: real, targetHour: Hour)
    returns (r: BurnResult)
    ensures r == BurnProbability(weather, pm25, targetHour)
    ensures r.Ok? ==> 0 <= r.score <= 100
  {
    if weather.hourly.None? || weather.hourly.value.time.None? {
      return InsufficientData;
    }
    var hourly := weather.hourly.value;
    var times := hourly.time.value;
    var pattern := HourPattern(targetHour);

    var targetIdx: nat := 0;
    for i := 0 to |times|
      invariant targetIdx == 0
      invariant forall j :: 0 <= j < i ==> !Contains(times[j], pattern)
    {
      if Contains(times[i], pattern) {
        targetIdx := i;
        break;
      }
    }

    var low := SampleAt(hourly.cloudCoverLow, targetIdx);
    var mid := SampleAt(hourly.cloudCoverMid, targetIdx);
    var high := SampleAt(hourly.cloudCoverHigh, targetIdx);
    var humidity := SampleAt(hourly.relativeHumidity2m, targetIdx);
    var visibility := SampleAt(hourly.visibility, targetIdx);
    if low.None? || mid.None? || high.None? || humidity.None? || visibility.None? {
      return InsufficientData;
    }

    var score := 0;
    var midHighTotal := mid.value + high.value;
    if 30.0 <= midHighTotal <= 80.0 {
      score := score + 50;
    } else if 10.0 <= midHighTotal < 30.0 {
      score := score + 30;
    } else {
      score := score + 10;
    }

    if low.value < 30.0 {
      score := score + 20;
    } else if low.value > 60.0 {
      score := score - 30;
    }

    if 15.0 <= pm25 <= 40.0 {
      score := score + 20;
    } else if pm25 > 60.0 {
      score := score - 10;
    } else {
      score := score + 10;
    }

    if humidity.value > 85.0 {
      score := score - 10;
    }
    if visibility.value > 20000.0 {
      score := score + 10;
    }

    var finalScore := Clamp(score);
    r := Ok(finalScore, Details(low.value, mid.value, high.value, pm25));
  }

  /** The raw score lies in [-40, 100], and both ends are reached, so only the lower
      clamp can ever change it. */
  lemma RawScoreBounds(r: Readings)
    ensures -40 <= RawScore(r) <= 100
    ensures Clamp(RawScore(r)) == if RawScore(r) < 0 then 0 else RawScore(r)
    ensures RawScore(Readings(70.0, 0.0, 0.0, 70.0, 90.0, 0.0)) == -40
    ensures RawScore(Readings(0.0, 30.0, 30.0, 25.0, 50.0, 30000.0)) == 100
  {
  }

  /** Canvas bands: both 30 and 80 are in the +50 band, [10, 30) earns +30, the rest +10. */
  lemma CanvasBands(midHigh: real)
    ensures CanvasTerm(30.0) == 50 && CanvasTerm(80.0) == 50
    ensures CanvasTerm(midHigh) == 50 <==> 30.0 <= midHigh <= 80.0
    ensures CanvasTerm(midHigh) == 30 <==> 10.0 <= midHigh < 30.0
    ensures CanvasTerm(midHigh) == 10 <==> (midHigh < 10.0 || midHigh > 80.0)
  {
  }

  /** Low-cloud bands: only below 30 earns +20, only above 60 costs 30; [30, 60] is neutral. */
  lemma LowCloudBands(low: real)
    ensures LowCloudTerm(low) == 20 <==> low < 30.0
    ensures LowCloudTerm(low) == -30 <==> low > 60.0
    ensures LowCloudTerm(low) == 0 <==> 30.0 <= low <= 60.0
  {
  }

  /** PM2.5 bands: [15, 40] earns +20, above 60 costs 10, the rest earns +10. */
  lemma Pm25Bands(pm25: real)
    ensures Pm25Term(pm25) == 20 <==> 15.0 <= pm25 <= 40.0
    ensures Pm25Term(pm25) == -10 <==> pm25 > 60.0
    ensures Pm25Term(pm25) == 10 <==> (pm25 < 15.0 || 40.0 < pm25 <= 60.0)
  {
  }

  /** The payload fields at slot `i` all hold numbers. */
  ghost predicate ReadableAt(hourly: Hourly, i: nat)
  {
    && hourly.cloudCoverLow.Some? && i < |hourly.cloudCoverLow.value| && hourly.cloudCoverLow.value[i].Some?
    && hourly.cloudCoverMid.Some? && i < |hourly.cloudCoverMid.value| && hourly.cloudCoverMid.value[i].Some?
    && hourly.cloudCoverHigh.Some? && i < |hourly.cloudCoverHigh.value| && hourly.cloudCoverHigh.value[i].Some?
    && hourly.relativeHumidity2m.Some? && i < |hourly.relativeHumidity2m.value|
    && hourly.relativeHumidity2m.value[i].Some?
    && hourly.visibility.Some? && i < |hourly.visibility.value| && hourly.visibility.value[i].Some?
  }

  /** The failure result arises exactly when `hourly` or `time` is missing, or one of the
      five series is missing, too short for the selected slot, or null there. */
  lemma FailureIff(weather: WeatherData, pm25: real, targetHour: Hour)
    ensures BurnProbability(weather, pm25, targetHour).InsufficientData? <==>
              || weather.hourly.None?
              || weather.hourly.value.time.None?
              || !ReadableAt(weather.hourly.value, SlotIndex(weather.hourly.value.time.value, targetHour))
  {
  }

  /** On success the details are exactly low, mid and high cloud at the selected slot plus
      the PM2.5 argument; humidity and visibility only enter the score. */
  lemma SuccessDetails(weather: WeatherData, pm25: real, targetHour: Hour)
    requires BurnProbability(weather, pm25, targetHour).Ok?
    ensures var hourly := weather.hourly.value;
            var i := SlotIndex(hourly.time.value, targetHour);
            var r := BurnProbability(weather, pm25, targetHour);
            && ReadableAt(hourly, i)
            && r.details.Keys == {"low", "mid", "high", "pm2.5"}
            && r.details["low"] == hourly.cloudCoverLow.value[i].value
            && r.details["mid"] == hourly.cloudCoverMid.value[i].value
            && r.details["high"] == hourly.cloudCoverHigh.value[i].value
            && r.details["pm2.5"] == pm25
            && r.score == Clamp(RawScore(Readings(
                 hourly.cloudCoverLow.value[i].value, hourly.cloudCoverMid.value[i].value,
                 hourly.cloudCoverHigh.value[i].value, pm25,
                 hourly.relativeHumidity2m.value[i].value, hourly.visibility.value[i].value)))
  {
  }

  /** The `(score, details)` pair the function returns: failure is `(0, {})`. */
  function AsPair(r: BurnResult): (int, map<string, real>)
  {
    match r
    case Ok(score, details) => (score, details)
    case InsufficientData => (0, map[])
  }

  /** Even in the pair form, failure stays distinguishable from a computed score of 0:
      a computed result always carries its four details. */
  lemma PairKeepsFailureDistinct(weather: WeatherData, pm25: real, targetHour: Hour)
    ensures var r := BurnProbability(weather, pm25, targetHour);
            AsPair(r).1 == map[] <==> r.InsufficientData?
    ensures AsPair(InsufficientData) == (0, map[])
  {
    var r := BurnProbability(weather, pm25, targetHour);
    if r.Ok? {
      assert "low" in AsPair(r).1;
    }
  }

  /** Time stamps at 17:00, 18:00 and 19:00 of one day. */
  function EveningTimes(): seq<string>
  {
    [Timestamp("2024-06-01", 17, "00"), Timestamp("2024-06-01", 18, "00"),
     Timestamp("2024-06-01", 19, "00")]
  }

  /** Hour 18 selects the middle slot of the evening series. */
  lemma EveningSlot()
    ensures SlotIndex(EveningTimes(), 18) == 1
  {
    var times := EveningTimes();
    TimestampMatchesOwnHour("2024-06-01", 17, "00", 18);
    TimestampMatchesOwnHour("2024-06-01", 18, "00", 18);
    assert Contains(times[1], HourPattern(18)) && !Contains(times[0], HourPattern(18));
  }

  /** An evening payload whose given readings sit at 18:00, while the neighbouring slots
      hold full cloud cover, fog and no visibility. */
  function EveningPayload(low: real, mid: real, high: real, humidity: real, visibility: real): WeatherData
  {
    WeatherData(Some(Hourly(
      Some(EveningTimes()),
      Some([Some(100.0), Some(low), Some(100.0)]),
      Some([Some(100.0), Some(mid), Some(100.0)]),
      Some([Some(100.0), Some(high), Some(100.0)]),
      Some([Some(100.0), Some(humidity), Some(100.0)]),
      Some([Some(0.0), Some(visibility), Some(0.0)]))))
  }

  /** Three sample snapshots read from the 18:00 slot, scoring 100, 10 and 50 with their
      advice tiers, and a payload without `hourly` yielding the failure result rather
      than 0. */
  lemma Scenarios()
    ensures BurnProbability(EveningPayload(10.0, 20.0, 40.0, 70.0, 25000.0), 25.0, 18)
              == Ok(100, Details(10.0, 20.0, 40.0, 25.0))
    ensures Algorithm.AdviceTier(100) == Algorithm.SevereAlert
    ensures BurnProbability(EveningPayload(70.0, 10.0, 10.0, 90.0, 10000.0), 25.0, 18)
              == Ok(10, Details(70.0, 10.0, 10.0, 25.0))
    ensures Algorithm.AdviceTier(10) == Algorithm.LowProbability
    ensures BurnProbability(EveningPayload(0.0, 0.0, 0.0, 50.0, 5000.0), 25.0, 18)
              == Ok(50, Details(0.0, 0.0, 0.0, 25.0))
    ensures Algorithm.AdviceTier(50) == Algorithm.Ordinary
    ensures BurnProbability(WeatherData(None), 25.0, 18) == InsufficientData
  {
    EveningSlot();
  }

  /** The advice shown on the page, thresholds checked from high to low. */
  function PageTier(prob: int): Algorithm.Tier
  {
    if prob >= 80 then Algorithm.SevereAlert
    else if prob >= 60 then Algorithm.WorthTrying
    else if prob >= 40 then Algorithm.Ordinary
    else Algorithm.LowProbability
  }

  /** The page repeats the thresholds of `get_advice` exactly. */
  lemma PageTierMatchesAdvice(prob: int)
    ensures PageTier(prob) == Algorithm.AdviceTier(prob)
  {
  }
}
