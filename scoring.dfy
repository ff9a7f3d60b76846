/**
 * What both revisions of the fire-cloud rule table share: the readings a score is
 * computed from, the humidity and visibility corrections, and the final clamp
 * `max(0, min(100, score))`.
 */
module Scoring {

  /** One hourly snapshot: cloud cover in percent, PM2.5 in ug/m3, humidity in percent,
      visibility in metres. */
  datatype Readings = Readings(low: real, mid: real, high: real, pm25: real,
                               humidity: real, visibility: real)

  /** Humidity correction: above 85 percent, haze is likely. */
  function HumidityTerm(humidity: real): int
  {
    if humidity > 85.0 then -10 else 0
  }

  /** Visibility correction: above 20 km, the light passes cleanly. */
  function VisibilityTerm(visibility: real): int
  {
    if visibility > 20000.0 then 10 else 0
  }

  /** The clamp into the score range [0, 100]. */
  function Clamp(score: int): (r: int)
    ensures 0 <= r <= 100
    ensures 0 <= score <= 100 ==> r == score
    ensures score < 0 ==> r == 0
    ensures score > 100 ==> r == 100
  {
    if score < 0 then 0 else if score > 100 then 100 else score
  }

  /** Clamping never reverses the order of two raw scores. */
  lemma ClampMonotone(a: int, b: int)
    requires a <= b
    ensures Clamp(a) <= Clamp(b)
  {
  }
}
