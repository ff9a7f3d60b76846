/**
 * How the two revisions of the rule table relate: where exactly they differ, where they
 * agree, and the shape both share (more low cloud or more humidity never helps, better
 * visibility never hurts, the two corrections are independent).
 */
module RuleTables {

  import opened Scoring
  import App
  import Algorithm

  /** The canvas terms differ only on (80, 90], where the variant pays 20 more. */
  lemma CanvasDifference(midHigh: real)
    ensures Algorithm.CanvasTerm(midHigh) - App.CanvasTerm(midHigh) ==
            if 80.0 < midHigh <= 90.0 then 20 else 0
  {
  }

  /** The low-cloud terms differ only above 60, where the variant costs 10 more. */
  lemma LowCloudDifference(low: real)
    ensures Algorithm.LowCloudTerm(low) - App.LowCloudTerm(low) ==
            if low > 60.0 then -10 else 0
  {
  }

  /** The PM2.5 terms differ only on (35, 40] and (50, 60]. */
  lemma Pm25Difference(pm25: real)
    ensures Algorithm.Pm25Term(pm25) - App.Pm25Term(pm25) ==
            if 35.0 < pm25 <= 40.0 then -10
            else if 50.0 < pm25 <= 60.0 then -20
            else 0
  {
  }

  /** Outside the bands the revisions disagree on, both tables give the same score. */
  lemma TablesAgreeOutsideVariantBands(r: Readings)
    requires !(80.0 < r.mid + r.high <= 90.0) && r.low <= 60.0
    requires !(35.0 < r.pm25 <= 40.0) && !(50.0 < r.pm25 <= 60.0)
    ensures Algorithm.FciRaw(r) == App.RawScore(r)
  {
    CanvasDifference(r.mid + r.high);
    LowCloudDifference(r.low);
    Pm25Difference(r.pm25);
  }

  /** More low cloud never raises either score. */
  lemma MoreLowCloudNeverHelps(r: Readings, low: real)
    requires low >= r.low
    ensures App.RawScore(r.(low := low)) <= App.RawScore(r)
    ensures Algorithm.FciRaw(r.(low := low)) <= Algorithm.FciRaw(r)
    ensures Clamp(App.RawScore(r.(low := low))) <= Clamp(App.RawScore(r))
    ensures Clamp(Algorithm.FciRaw(r.(low := low))) <= Clamp(Algorithm.FciRaw(r))
  {
  }

  /** More humidity never raises either score; better visibility never lowers it. */
  lemma HumidityAndVisibilityDirection(r: Readings, humidity: real, visibility: real)
    requires humidity >= r.humidity && visibility >= r.visibility
    ensures App.RawScore(r.(humidity := humidity)) <= App.RawScore(r)
    ensures Algorithm.FciRaw(r.(humidity := humidity)) <= Algorithm.FciRaw(r)
    ensures App.RawScore(r.(visibility := visibility)) >= App.RawScore(r)
    ensures Algorithm.FciRaw(r.(visibility := visibility)) >= Algorithm.FciRaw(r)
  {
  }

  /** The humidity and visibility corrections are independent of each other and of the
      other terms: changing those two readings shifts either raw score by exactly the
      change in the two corrections. */
  lemma CorrectionsIndependent(r: Readings, humidity: real, visibility: real)
    ensures App.RawScore(r.(humidity := humidity, visibility := visibility)) - App.RawScore(r)
            == HumidityTerm(humidity) - HumidityTerm(r.humidity)
               + VisibilityTerm(visibility) - VisibilityTerm(r.visibility)
    ensures Algorithm.FciRaw(r.(humidity := humidity, visibility := visibility)) - Algorithm.FciRaw(r)
            == HumidityTerm(humidity) - HumidityTerm(r.humidity)
               + VisibilityTerm(visibility) - VisibilityTerm(r.visibility)
  {
  }

  /** Both corrections can fire on the same snapshot, and then they cancel out. */
  lemma CorrectionsFireTogether(r: Readings)
    requires r.humidity > 85.0 && r.visibility > 20000.0
    ensures App.RawScore(r) == App.RawScore(r.(humidity := 0.0, visibility := 0.0))
    ensures Algorithm.FciRaw(r) == Algorithm.FciRaw(r.(humidity := 0.0, visibility := 0.0))
    ensures HumidityTerm(r.humidity) == -10 && VisibilityTerm(r.visibility) == 10
  {
  }
}
