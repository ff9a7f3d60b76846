/**
 * The Fire Cloud Index of logic/algorithm.py: the variant rule table (an extra upper
 * canvas band, a heavier low-cloud penalty, a narrower PM2.5 sweet spot and a lower
 * PM2.5 penalty threshold) and the mapping of a score to one of four advice tiers.
 */
module Algorithm {

  import opened Scoring

  /** Canvas term on mid + high cloud: 30..80 is ideal; 10..30 and 80..90 are fair. */
  function CanvasTerm(midHigh: real): int
  {
    if 30.0 <= midHigh <= 80.0 then 50
    else if (10.0 <= midHigh < 30.0) || (80.0 < midHigh <= 90.0) then 30
    else 10
  }

  /** Low-cloud obstruction term, with the heavy penalty of this revision. */
  function LowCloudTerm(low: real): int
  {
    if low < 30.0 then 20
    else if low > 60.0 then -40
    else 0
  }

  /** Particulate scattering term, with the 15..35 sweet spot of this revision. */
  function Pm25Term(pm25: real): int
  {
    if 15.0 <= pm25 <= 35.0 then 20
    else if pm25 > 50.0 then -10
    else 10
  }

  /** The unclamped index: the sum of the four independent terms. */
  function FciRaw(r: Readings): int
  {
    CanvasTerm(r.mid + r.high) + LowCloudTerm(r.low) + Pm25Term(r.pm25)
      + HumidityTerm(r.humidity) + VisibilityTerm(r.visibility)
  }

  /** `calculate_fci`: accumulates the score term by term and clamps it. The score only
      ever receives integer constants, so the final `int(...)` leaves it unchanged. */
  method CalculateFci(low: real, mid: real, high: real, pm25: real, hum: real, vis: real)
    returns (fci: int)
    ensures 0 <= fci <= 100
    ensures fci == Clamp(FciRaw(Readings(low, mid, high, pm25, hum, vis)))
  {
    var score := 0;

    var totalHighMid := mid + high;
    if 30.0 <= totalHighMid <= 80.0 {
      score := score + 50;
    } else if (10.0 <= totalHighMid < 30.0) || (80.0 < totalHighMid <= 90.0) {
      score := score + 30;
    } else {
      score := score + 10;
    }

    if low < 30.0 {
      score := score + 20;
    } else if low > 60.0 {
      score := score - 40;
    } else {
      score := score + 0;
    }

    if 15.0 <= pm25 <= 35.0 {
      score := score + 20;
    } else if pm25 > 50.0 {
      score := score - 10;
    } else {
      score := score + 10;
    }

    if hum > 85.0 {
      score := score - 10;
    }
    if vis > 20000.0 {
      score := score + 10;
    }

    fci := Clamp(score);
  }

  /** The raw index lies in [-50, 100], and both ends are reached, so only the lower
      clamp can ever change it. */
  lemma FciRawBounds(r: Readings)
    ensures -50 <= FciRaw(r) <= 100
    ensures Clamp(FciRaw(r)) == if FciRaw(r) < 0 then 0 else FciRaw(r)
    ensures FciRaw(Readings(70.0, 0.0, 0.0, 60.0, 90.0, 0.0)) == -50
    ensures FciRaw(Readings(0.0, 30.0, 30.0, 25.0, 50.0, 30000.0)) == 100
  {
  }

  /** Canvas bands: (80, 90] earns the same +30 as [10, 30). */
  lemma CanvasBands(midHigh: real)
    ensures CanvasTerm(midHigh) == 50 <==> 30.0 <= midHigh <= 80.0
    ensures CanvasTerm(midHigh) == 30 <==> (10.0 <= midHigh < 30.0 || 80.0 < midHigh <= 90.0)
    ensures CanvasTerm(midHigh) == 10 <==> (midHigh < 10.0 || midHigh > 90.0)
  {
  }

  /** Low-cloud bands: only below 30 earns, only above 60 costs 40; [30, 60] is neutral. */
  lemma LowCloudBands(low: real)
    ensures LowCloudTerm(low) == 20 <==> low < 30.0
    ensures LowCloudTerm(low) == -40 <==> low > 60.0
    ensures LowCloudTerm(low) == 0 <==> 30.0 <= low <= 60.0
  {
  }

  /** PM2.5 bands: [15, 35] is the sweet spot, above 50 is penalised, and both (35, 50]
      and below 15 earn the small bonus. */
  lemma Pm25Bands(pm25: real)
    ensures Pm25Term(pm25) == 20 <==> 15.0 <= pm25 <= 35.0
    ensures Pm25Term(pm25) == -10 <==> pm25 > 50.0
    ensures Pm25Term(pm25) == 10 <==> (pm25 < 15.0 || 35.0 < pm25 <= 50.0)
  {
  }

  /** The four advice tiers, from the strongest call to action to the weakest. */
  datatype Tier = SevereAlert | WorthTrying | Ordinary | LowProbability

  /** The ordinal of a tier: 1 is the best outlook, 4 the worst. */
  function Rank(t: Tier): nat
  {
    match t
    case SevereAlert => 1
    case WorthTrying => 2
    case Ordinary => 3
    case LowProbability => 4
  }

  /** The tier `get_advice` picks, thresholds checked from high to low. */
  function AdviceTier(score: int): (t: Tier)
    ensures t == SevereAlert <==> 80 <= score
    ensures t == WorthTrying <==> 60 <= score < 80
    ensures t == Ordinary <==> 40 <= score < 60
    ensures t == LowProbability <==> score < 40
  {
    if score >= 80 then SevereAlert
    else if score >= 60 then WorthTrying
    else if score >= 40 then Ordinary
    else LowProbability
  }

  /** The (headline, body) pair shown for a tier. */
  function Message(t: Tier): (string, string)
  {
    match t
    case SevereAlert => ("🔥 大景警報！", "極高機率出現火燒雲，建議立刻帶著相機衝去河堤！")
    case WorthTrying => ("📷 值得一試", "有機會出現不錯的色溫，可以去碰碰運氣。")
    case Ordinary => ("☁️ 普通晚霞", "雲層條件一般，可能只有淡淡的顏色。")
    case LowProbability => ("💤 早點回家", "雲層太厚或下雨，出景機率極低。")
  }

  /** Distinct tiers have distinct messages. */
  lemma MessageInjective(a: Tier, b: Tier)
    requires Message(a) == Message(b)
    ensures a == b
  {
    assert Message(a).0 == Message(b).0;
  }

  /** `get_advice`: the message of the score's tier, which names that tier alone. */
  function GetAdvice(score: int): (advice: (string, string))
    ensures advice == Message(AdviceTier(score))
    ensures forall other: int :: Message(AdviceTier(other)) == advice ==>
              AdviceTier(other) == AdviceTier(score)
  {
    Message(AdviceTier(score))
  }

  /** A higher score never gets a more pessimistic tier. */
  lemma AdviceMonotone(a: int, b: int)
    requires a >= b
    ensures Rank(AdviceTier(a)) <= Rank(AdviceTier(b))
  {
  }
}
