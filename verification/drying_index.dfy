/**
 The drying index: a linear score over the day's average temperature, wind,
 vapour pressure deficit (VPD), humidity and cloud cover, clamped to
 [0, 100]. The preference p (0 = safety first, 1 = speed first) shifts
 weight from humidity and cloud (safety) to wind and VPD (speed).
 */
module DryingIndex {

  const MinIndex: real := 0.0
  const MaxIndex: real := 100.0

  function SafetyWeight(p: real): real { 1.0 - p }
  function SpeedWeight(p: real): real { p }

  function TempWeight(p: real): real { 1.0 }
  function WindWeight(p: real): real { 1.5 + 0.5 * SpeedWeight(p) }
  function VpdWeight(p: real): real { 1.0 + 0.5 * SpeedWeight(p) }
  function HumidityWeight(p: real): real { 0.5 + 0.5 * SafetyWeight(p) }
  function CloudWeight(p: real): real { 0.3 + 0.2 * SafetyWeight(p) }

  /** The five weights one preference produces. */
  datatype Weights = Weights(temp: real, wind: real, vpd: real, humidity: real, cloud: real)

  function WeightsFor(p: real): Weights {
    Weights(TempWeight(p), WindWeight(p), VpdWeight(p), HumidityWeight(p), CloudWeight(p))
  }

  /** The linear score for given weights: drying inputs add, humidity and cloud subtract. */
  function Score(temp: real, wind: real, vpd: real, humidity: real, cloud: real, w: Weights): real {
    temp * w.temp + wind * w.wind + vpd * w.vpd - humidity * w.humidity - cloud * w.cloud
  }

  /** The linear score before clamping. */
  function Raw(temp: real, wind: real, vpd: real, humidity: real, cloud: real, p: real): real {
    Score(temp, wind, vpd, humidity, cloud, WeightsFor(p))
  }

  /** `Math.max(lo, Math.min(hi, x))`. */
  function Clamp(x: real, lo: real, hi: real): (r: real)
    requires lo <= hi
    ensures lo <= r <= hi
    ensures lo <= x <= hi ==> r == x
    ensures x < lo ==> r == lo
    ensures hi < x ==> r == hi
  {
    if x < lo then lo else if hi < x then hi else x
  }

  /** `calculateDryingIndex`: any preference is accepted; the result always lies in [0, 100]. */
  function Index(temp: real, wind: real, vpd: real, humidity: real, cloud: real, p: real): (r: real)
    ensures MinIndex <= r <= MaxIndex
    ensures MinIndex <= Raw(temp, wind, vpd, humidity, cloud, p) <= MaxIndex ==> r == Raw(temp, wind, vpd, humidity, cloud, p)
    ensures Raw(temp, wind, vpd, humidity, cloud, p) < MinIndex ==> r == MinIndex
    ensures MaxIndex < Raw(temp, wind, vpd, humidity, cloud, p) ==> r == MaxIndex
  {
    Clamp(Raw(temp, wind, vpd, humidity, cloud, p), MinIndex, MaxIndex)
  }

  /** For a preference in [0, 1] every weight is strictly positive, so every input pulls the score one way. */
  lemma WeightsPositive(p: real)
    requires 0.0 <= p <= 1.0
    ensures TempWeight(p) > 0.0
    ensures 1.5 <= WindWeight(p) <= 2.0
    ensures 1.0 <= VpdWeight(p) <= 1.5
    ensures 0.5 <= HumidityWeight(p) <= 1.0
    ensures 0.3 <= CloudWeight(p) <= 0.5
  {
  }

  /** A higher preference strictly raises the wind and VPD weights and strictly lowers the humidity and cloud weights. */
  lemma WeightsShiftWithPreference(p: real, q: real)
    requires p < q
    ensures WindWeight(p) < WindWeight(q)
    ensures VpdWeight(p) < VpdWeight(q)
    ensures HumidityWeight(p) > HumidityWeight(q)
    ensures CloudWeight(p) > CloudWeight(q)
    ensures TempWeight(p) == TempWeight(q)
  {
  }

  /** Clamping preserves the order of its inputs. */
  lemma ClampMonotone(x: real, y: real)
    requires x <= y
    ensures Clamp(x, MinIndex, MaxIndex) <= Clamp(y, MinIndex, MaxIndex)
  {
  }

  lemma ScaleMonotone(a: real, b: real, w: real)
    requires a <= b && 0.0 <= w
    ensures a * w <= b * w
  {
  }

  lemma SumMonotone(a: real, b: real, c: real, a': real, b': real, c': real, d: real, e: real)
    requires a <= a' && b <= b' && c <= c'
    ensures a + b + c - d - e <= a' + b' + c' - d - e
  {
  }

  /** With non-negative weights, the score never falls as temperature, wind or VPD rise. */
  lemma ScoreIncreasesWithDryingConditions(
    temp: real, wind: real, vpd: real, humidity: real, cloud: real,
    temp': real, wind': real, vpd': real, w: Weights)
    requires 0.0 <= w.temp && 0.0 <= w.wind && 0.0 <= w.vpd
    requires temp <= temp' && wind <= wind' && vpd <= vpd'
    ensures Score(temp, wind, vpd, humidity, cloud, w) <= Score(temp', wind', vpd', humidity, cloud, w)
  {
    ScaleMonotone(temp, temp', w.temp);
    ScaleMonotone(wind, wind', w.wind);
    ScaleMonotone(vpd, vpd', w.vpd);
    SumMonotone(temp * w.temp, wind * w.wind, vpd * w.vpd, temp' * w.temp, wind' * w.wind, vpd' * w.vpd,
                humidity * w.humidity, cloud * w.cloud);
  }

  /** With non-negative weights, the score never rises as humidity or cloud rise. */
  lemma ScoreDecreasesWithHumidityAndCloud(
    temp: real, wind: real, vpd: real, humidity: real, cloud: real,
    humidity': real, cloud': real, w: Weights)
    requires 0.0 <= w.humidity && 0.0 <= w.cloud
    requires humidity <= humidity' && cloud <= cloud'
    ensures Score(temp, wind, vpd, humidity', cloud', w) <= Score(temp, wind, vpd, humidity, cloud, w)
  {
    ScaleMonotone(humidity, humidity', w.humidity);
    ScaleMonotone(cloud, cloud', w.cloud);
  }

  /** With non-negative inputs, moving weight towards wind and VPD and away from humidity and cloud never lowers the score. */
  lemma ScoreIncreasesWithWeights(
    temp: real, wind: real, vpd: real, humidity: real, cloud: real, w: Weights, v: Weights)
    requires 0.0 <= wind && 0.0 <= vpd && 0.0 <= humidity && 0.0 <= cloud
    requires w.temp == v.temp && w.wind <= v.wind && w.vpd <= v.vpd
    requires v.humidity <= w.humidity && v.cloud <= w.cloud
    ensures Score(temp, wind, vpd, humidity, cloud, w) <= Score(temp, wind, vpd, humidity, cloud, v)
  {
    ScaleMonotone(w.wind, v.wind, wind);
    ScaleMonotone(w.vpd, v.vpd, vpd);
    ScaleMonotone(v.humidity, w.humidity, humidity);
    ScaleMonotone(v.cloud, w.cloud, cloud);
    assert wind * w.wind == w.wind * wind && wind * v.wind == v.wind * wind;
    assert vpd * w.vpd == w.vpd * vpd && vpd * v.vpd == v.vpd * vpd;
    assert humidity * w.humidity == w.humidity * humidity && humidity * v.humidity == v.humidity * humidity;
    assert cloud * w.cloud == w.cloud * cloud && cloud * v.cloud == v.cloud * cloud;
  }

  /** Warmer, windier and drier air never lowers the index. */
  lemma IndexIncreasesWithDryingConditions(
    temp: real, wind: real, vpd: real, humidity: real, cloud: real,
    temp': real, wind': real, vpd': real, p: real)
    requires 0.0 <= p <= 1.0
    requires temp <= temp' && wind <= wind' && vpd <= vpd'
    ensures Index(temp, wind, vpd, humidity, cloud, p) <= Index(temp', wind', vpd', humidity, cloud, p)
  {
    WeightsPositive(p);
    ScoreIncreasesWithDryingConditions(temp, wind, vpd, humidity, cloud, temp', wind', vpd', WeightsFor(p));
    ClampMonotone(Raw(temp, wind, vpd, humidity, cloud, p), Raw(temp', wind', vpd', humidity, cloud, p));
  }

  /** More humidity and more cloud never raise the index. */
  lemma IndexDecreasesWithHumidityAndCloud(
    temp: real, wind: real, vpd: real, humidity: real, cloud: real,
    humidity': real, cloud': real, p: real)
    requires 0.0 <= p <= 1.0
    requires humidity <= humidity' && cloud <= cloud'
    ensures Index(temp, wind, vpd, humidity', cloud', p) <= Index(temp, wind, vpd, humidity, cloud, p)
  {
    WeightsPositive(p);
    ScoreDecreasesWithHumidityAndCloud(temp, wind, vpd, humidity, cloud, humidity', cloud', WeightsFor(p));
    ClampMonotone(Raw(temp, wind, vpd, humidity', cloud', p), Raw(temp, wind, vpd, humidity, cloud, p));
  }

  /** With non-negative wind, VPD, humidity and cloud, a higher preference never lowers the index. */
  lemma IndexIncreasesWithPreference(
    temp: real, wind: real, vpd: real, humidity: real, cloud: real, p: real, q: real)
    requires p <= q
    requires 0.0 <= wind && 0.0 <= vpd && 0.0 <= humidity && 0.0 <= cloud
    ensures Index(temp, wind, vpd, humidity, cloud, p) <= Index(temp, wind, vpd, humidity, cloud, q)
  {
    ScoreIncreasesWithWeights(temp, wind, vpd, humidity, cloud, WeightsFor(p), WeightsFor(q));
    ClampMonotone(Raw(temp, wind, vpd, humidity, cloud, p), Raw(temp, wind, vpd, humidity, cloud, q));
  }

  /** A balanced preference on a mild, breezy day: 25 + 17.5 + 1.875 - 30 - 8 = 6.375. */
  lemma BalancedExample()
    ensures Index(25.0, 10.0, 1.5, 40.0, 20.0, 0.5) == 6.375
  {
  }

  /** The same day under a safety-first preference scores -8.5 before clamping, so 0. */
  lemma SafetyFirstExample()
    ensures Raw(25.0, 10.0, 1.5, 40.0, 20.0, 0.0) == -8.5
    ensures Index(25.0, 10.0, 1.5, 40.0, 20.0, 0.0) == 0.0
  {
  }
}
