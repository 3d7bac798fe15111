/**
 * The quality score of one yield: four gas factors scaled by the yield's weight, a
 * temperature factor and a humidity factor, combined into a weighted percentage.
 * Every constant and branch is as the controller's main loop writes it, including the
 * upper humidity branch, which subtracts the temperature bound `thr_temp_max`.
 */
module Scoring {

  const ThrMethane: real := 55.0
  const ThrAlcohol: real := 0.4
  const ThrHydrogen: real := 1.0
  const ThrAmmonia: real := 0.4
  const ThrHumidMin: real := 85.0
  const ThrHumidMax: real := 90.0   // defined but never read by the scorer
  const ThrTempMin: real := 0.0     // defined but never read: the scorer writes the literal 0
  const ThrTempMax: real := 15.0

  /** Python's `max` of two numbers. */
  function Max(x: real, y: real): real
  {
    if x >= y then x else y
  }

  /** `max(1 - ppm/(weight*thr), 0)`: one gas factor. */
  function GasFactor(ppm: real, weight: real, thr: real): real
    requires weight > 0.0 && thr > 0.0
  {
    Max(1.0 - ppm / (weight * thr), 0.0)
  }

  /** `q_temp`: 1 on [0, 15], falling off by 1/15 per degree outside it, never below 0. */
  function TempFactor(temp: real): real
  {
    if temp < 0.0 then Max(1.0 + temp / 15.0, 0.0)
    else if temp > 15.0 then Max(1.0 - (temp - ThrTempMax) / 15.0, 0.0)
    else 1.0
  }

  /** `q_humid`, as written: the branch above 90 % subtracts `thr_temp_max`. */
  function HumidFactor(humid: real): real
  {
    if humid < 85.0 then Max(1.0 - (ThrHumidMin - humid) / 5.0, 0.0)
    else if humid > 90.0 then Max(1.0 - (humid - ThrTempMax) / 5.0, 0.0)
    else 1.0
  }

  /** The weighted composite of the six factors, as a percentage of its maximum 12. */
  function Composite(qAlcohol: real, qMethane: real, qAmmonia: real, qHydrogen: real, qTemp: real, qHumid: real): real
  {
    (2.0 * qAlcohol + 2.0 * qMethane + 4.0 * qAmmonia + 2.0 * qHydrogen + qTemp + qHumid) * 100.0 / 12.0
  }

  /** `Quality`: the score of a yield of the given weight under the given readings. */
  function Quality(weight: real, alcohol: real, methane: real, airQuality: real, hydrogen: real,
                   temp: real, humid: real): real
    requires weight > 0.0
  {
    Composite(GasFactor(alcohol, weight, ThrAlcohol), GasFactor(methane, weight, ThrMethane),
              GasFactor(airQuality, weight, ThrAmmonia), GasFactor(hydrogen, weight, ThrHydrogen),
              TempFactor(temp), HumidFactor(humid))
  }

  // ---------------------------------------------------------------------------
  // Gas factors
  // ---------------------------------------------------------------------------

  /** A nonnegative concentration over a positive allowance gives a nonnegative ratio. */
  lemma RatioNonNegative(ppm: real, d: real)
    requires ppm >= 0.0 && d > 0.0
    ensures ppm / d >= 0.0
  {
  }

  /** Division by a positive allowance keeps the order of concentrations. */
  lemma RatioMonotone(ppm: real, ppm': real, d: real)
    requires ppm <= ppm' && d > 0.0
    ensures ppm / d <= ppm' / d
  {
    assert ppm' / d - ppm / d == (ppm' - ppm) / d;
    RatioNonNegative(ppm' - ppm, d);
  }

  /** Each gas factor lies in [0, 1] for a nonnegative concentration. */
  lemma GasFactorRange(ppm: real, weight: real, thr: real)
    requires weight > 0.0 && thr > 0.0 && ppm >= 0.0
    ensures 0.0 <= GasFactor(ppm, weight, thr) <= 1.0
  {
    RatioNonNegative(ppm, weight * thr);
  }

  /** A gas factor never increases as the concentration grows. */
  lemma GasFactorAntitone(ppm: real, ppm': real, weight: real, thr: real)
    requires weight > 0.0 && thr > 0.0 && ppm <= ppm'
    ensures GasFactor(ppm', weight, thr) <= GasFactor(ppm, weight, thr)
  {
    RatioMonotone(ppm, ppm', weight * thr);
  }

  /** A gas factor is 0 exactly when the concentration reaches weight * thr. */
  lemma GasFactorZeroIff(ppm: real, weight: real, thr: real)
    requires weight > 0.0 && thr > 0.0
    ensures GasFactor(ppm, weight, thr) == 0.0 <==> ppm >= weight * thr
  {
    var d := weight * thr;
    assert (ppm / d) * d == ppm;
    if ppm >= d {
      RatioMonotone(d, ppm, d);
    } else {
      RatioMonotone(ppm, d, d);
      assert ppm / d != 1.0;
    }
  }

  /** For a nonnegative concentration, a gas factor is 1 exactly when none of the gas is present. */
  lemma GasFactorOneIff(ppm: real, weight: real, thr: real)
    requires weight > 0.0 && thr > 0.0 && ppm >= 0.0
    ensures GasFactor(ppm, weight, thr) == 1.0 <==> ppm == 0.0
  {
    var d := weight * thr;
    assert (ppm / d) * d == ppm;
    RatioNonNegative(ppm, d);
  }

  // ---------------------------------------------------------------------------
  // Temperature and humidity factors
  // ---------------------------------------------------------------------------

  /** The temperature factor lies in [0, 1] and is 1 exactly on [0, 15] degrees. */
  lemma TempFactorRange(temp: real)
    ensures 0.0 <= TempFactor(temp) <= 1.0
    ensures TempFactor(temp) == 1.0 <==> 0.0 <= temp <= 15.0
  {
  }

  /** The temperature factor reaches 0 at -15 and at 30 degrees. */
  lemma TempFactorZeroIff(temp: real)
    ensures TempFactor(temp) == 0.0 <==> temp <= -15.0 || temp >= 30.0
  {
  }

  /** The humidity factor lies in [0, 1] and is 1 exactly on the band [85, 90] %. */
  lemma HumidFactorRange(humid: real)
    ensures 0.0 <= HumidFactor(humid) <= 1.0
    ensures HumidFactor(humid) == 1.0 <==> 85.0 <= humid <= 90.0
  {
  }

  /** Below the band the humidity factor falls by 1/5 per percent, reaching 0 at 80 %. */
  lemma HumidFactorBelowBand(humid: real)
    requires humid < 85.0
    ensures HumidFactor(humid) == Max(1.0 - (85.0 - humid) / 5.0, 0.0)
    ensures HumidFactor(humid) == 0.0 <==> humid <= 80.0
  {
  }

  /**
   * Because the upper branch subtracts the temperature bound 15 rather than a humidity
   * bound, every humidity above 90 % scores 0: 1 - (h - 15)/5 < 0 for h > 20.
   */
  lemma HumidFactorDropsAboveBand(humid: real)
    requires humid > 90.0
    ensures HumidFactor(humid) == 0.0
  {
  }

  // ---------------------------------------------------------------------------
  // The composite score
  // ---------------------------------------------------------------------------

  /** The composite of factors in [0, 1] is a percentage in [0, 100], and 100 only when every factor is 1. */
  lemma CompositeRange(qa: real, qm: real, qn: real, qh: real, qt: real, qu: real)
    requires 0.0 <= qa <= 1.0 && 0.0 <= qm <= 1.0 && 0.0 <= qn <= 1.0
    requires 0.0 <= qh <= 1.0 && 0.0 <= qt <= 1.0 && 0.0 <= qu <= 1.0
    ensures 0.0 <= Composite(qa, qm, qn, qh, qt, qu) <= 100.0
    ensures Composite(qa, qm, qn, qh, qt, qu) == 100.0 <==>
      qa == 1.0 && qm == 1.0 && qn == 1.0 && qh == 1.0 && qt == 1.0 && qu == 1.0
  {
  }

  /** With nonnegative concentrations and a positive weight, the quality is in [0, 100]. */
  lemma QualityRange(weight: real, alcohol: real, methane: real, airQuality: real, hydrogen: real,
                     temp: real, humid: real)
    requires weight > 0.0
    requires alcohol >= 0.0 && methane >= 0.0 && airQuality >= 0.0 && hydrogen >= 0.0
    ensures 0.0 <= Quality(weight, alcohol, methane, airQuality, hydrogen, temp, humid) <= 100.0
  {
    GasFactorRange(alcohol, weight, ThrAlcohol);
    GasFactorRange(methane, weight, ThrMethane);
    GasFactorRange(airQuality, weight, ThrAmmonia);
    GasFactorRange(hydrogen, weight, ThrHydrogen);
    TempFactorRange(temp);
    HumidFactorRange(humid);
    CompositeRange(GasFactor(alcohol, weight, ThrAlcohol), GasFactor(methane, weight, ThrMethane),
                   GasFactor(airQuality, weight, ThrAmmonia), GasFactor(hydrogen, weight, ThrHydrogen),
                   TempFactor(temp), HumidFactor(humid));
  }

  /**
   * With nonnegative concentrations, the quality is 100 exactly when no gas is present,
   * the temperature is in [0, 15] and the humidity in [85, 90].
   */
  lemma QualityPerfectIff(weight: real, alcohol: real, methane: real, airQuality: real, hydrogen: real,
                          temp: real, humid: real)
    requires weight > 0.0
    requires alcohol >= 0.0 && methane >= 0.0 && airQuality >= 0.0 && hydrogen >= 0.0
    ensures Quality(weight, alcohol, methane, airQuality, hydrogen, temp, humid) == 100.0 <==>
      alcohol == 0.0 && methane == 0.0 && airQuality == 0.0 && hydrogen == 0.0 &&
      0.0 <= temp <= 15.0 && 85.0 <= humid <= 90.0
  {
    GasFactorRange(alcohol, weight, ThrAlcohol);
    GasFactorRange(methane, weight, ThrMethane);
    GasFactorRange(airQuality, weight, ThrAmmonia);
    GasFactorRange(hydrogen, weight, ThrHydrogen);
    GasFactorOneIff(alcohol, weight, ThrAlcohol);
    GasFactorOneIff(methane, weight, ThrMethane);
    GasFactorOneIff(airQuality, weight, ThrAmmonia);
    GasFactorOneIff(hydrogen, weight, ThrHydrogen);
    TempFactorRange(temp);
    HumidFactorRange(humid);
    CompositeRange(GasFactor(alcohol, weight, ThrAlcohol), GasFactor(methane, weight, ThrMethane),
                   GasFactor(airQuality, weight, ThrAmmonia), GasFactor(hydrogen, weight, ThrHydrogen),
                   TempFactor(temp), HumidFactor(humid));
  }

  /** More of any gas, the other readings fixed, never raises the quality. */
  lemma QualityAntitoneInGases(weight: real, alcohol: real, methane: real, airQuality: real, hydrogen: real,
                               alcohol': real, methane': real, airQuality': real, hydrogen': real,
                               temp: real, humid: real)
    requires weight > 0.0
    requires alcohol <= alcohol' && methane <= methane' && airQuality <= airQuality' && hydrogen <= hydrogen'
    ensures Quality(weight, alcohol', methane', airQuality', hydrogen', temp, humid) <=
            Quality(weight, alcohol, methane, airQuality, hydrogen, temp, humid)
  {
    GasFactorAntitone(alcohol, alcohol', weight, ThrAlcohol);
    GasFactorAntitone(methane, methane', weight, ThrMethane);
    GasFactorAntitone(airQuality, airQuality', weight, ThrAmmonia);
    GasFactorAntitone(hydrogen, hydrogen', weight, ThrHydrogen);
  }

  /** A clean yield at 7 degrees and 87 % humidity scores the full 100. */
  lemma CleanYieldScoresFull()
    ensures Quality(1.0, 0.0, 0.0, 0.0, 0.0, 7.0, 87.0) == 100.0
  {
  }
}
