/**
 * The conversion chain of the MQ gas channels: a raw 12-bit ADC reading becomes a
 * voltage on a 3.3 V reference, and the voltage becomes a concentration in ppm through
 * the power law a * voltage^b of the sensor wired to that pin.
 *
 * Python's float exponentiation `voltage ** b` (b is not an integer) has no counterpart
 * in Dafny, so every conversion takes the exponentiation as a parameter `pow`; the
 * properties that need it to behave like real exponentiation say so in their requires.
 */
module Calibration {

  /** Full scale of the 12-bit ADC and its reference voltage. */
  const AdcMax: int := 4095
  const VRef: real := 3.3

  /** One reading of a 12-bit ADC channel. */
  type AdcSample = x: int | 0 <= x <= 4095

  /** GPIO number an ADC channel is attached to. */
  type Pin = int

  /** Real exponentiation x^y, supplied by the caller. */
  type Pow = (real, real) -> real

  /** The coefficients of one sensor's calibration curve ppm = a * voltage^b. */
  datatype Curve = Curve(a: real, b: real)

  /** The analog pins in the order they are read: the key order of `adc_pins`. */
  const AdcPins: seq<Pin> := [32, 33, 35, 36]

  const AlcoholPin: Pin := 32     // MQ-3
  const MethanePin: Pin := 33     // MQ-4
  const AirQualityPin: Pin := 35  // MQ-135, used as the ammonia proxy
  const HydrogenPin: Pin := 36    // MQ-8

  /** `sensor_params`: the calibration curve of each analog pin. */
  const SensorParams: map<Pin, Curve> := map[
    32 := Curve(21.0, 1.59),
    33 := Curve(35.89, 2.83),
    35 := Curve(5.0, 2.5),
    36 := Curve(0.3, 2.25)
  ]

  /** x^y is positive for a positive base, as real exponentiation is. */
  ghost predicate PowPositive(pow: Pow)
  {
    forall x: real, y: real :: x > 0.0 ==> pow(x, y) > 0.0
  }

  /** x^y is strictly increasing in a positive base for a positive exponent. */
  ghost predicate PowIncreasing(pow: Pow)
  {
    forall x: real, x': real, y: real :: 0.0 < x < x' && y > 0.0 ==> pow(x, y) < pow(x', y)
  }

  /** `raw / 4095 * 3.3`: the voltage a raw ADC reading stands for. */
  function AdcToVoltage(raw: int): (v: real)
    ensures v == 0.0 <==> raw == 0
    ensures 0 <= raw <= AdcMax ==> 0.0 <= v <= VRef
    ensures raw == AdcMax ==> v == VRef
  {
    raw as real / 4095.0 * 3.3
  }

  /** `voltage_to_ppm`: zero volts read as zero ppm, otherwise the power law. */
  function VoltageToPpm(pow: Pow, voltage: real, a: real, b: real): real
  {
    if voltage == 0.0 then 0.0 else a * pow(voltage, b)
  }

  /** One raw reading of a channel, converted to ppm with that channel's curve. */
  function RawToPpm(pow: Pow, curve: Curve, raw: int): real
  {
    VoltageToPpm(pow, AdcToVoltage(raw), curve.a, curve.b)
  }

  /** Every raw reading of a window, converted to ppm, in order. */
  function ConvertAll(pow: Pow, curve: Curve, raws: seq<AdcSample>): seq<real>
  {
    seq(|raws|, i requires 0 <= i < |raws| => RawToPpm(pow, curve, raws[i]))
  }

  /** Converting one more reading appends its ppm value. */
  lemma ConvertAllSnoc(pow: Pow, curve: Curve, raws: seq<AdcSample>, raw: AdcSample)
    ensures ConvertAll(pow, curve, raws + [raw]) == ConvertAll(pow, curve, raws) + [RawToPpm(pow, curve, raw)]
  {
  }

  /** The voltage is strictly increasing in the raw reading, so distinct readings give distinct voltages. */
  lemma AdcToVoltageStrictlyIncreasing(raw: int, raw': int)
    requires raw < raw'
    ensures AdcToVoltage(raw) < AdcToVoltage(raw')
  {
  }

  /** Zero volts give zero ppm whatever the curve and the exponentiation. */
  lemma ZeroVoltageGivesZeroPpm(pow: Pow, a: real, b: real)
    ensures VoltageToPpm(pow, 0.0, a, b) == 0.0
  {
  }

  /** A nonzero voltage gives a * voltage^b. */
  lemma NonzeroVoltageFollowsPowerLaw(pow: Pow, voltage: real, a: real, b: real)
    requires voltage != 0.0
    ensures VoltageToPpm(pow, voltage, a, b) == a * pow(voltage, b)
  {
  }

  /** A raw reading of 0 converts to 0 V and hence to 0 ppm on every channel. */
  lemma ZeroRawGivesZeroPpm(pow: Pow, curve: Curve)
    ensures AdcToVoltage(0) == 0.0
    ensures RawToPpm(pow, curve, 0) == 0.0
  {
  }

  /** Every configured curve has a positive coefficient and a positive, non-integer exponent. */
  lemma ConfiguredCurves()
    ensures SensorParams.Keys == set p | p in AdcPins
    ensures forall p :: p in SensorParams ==> SensorParams[p].a > 0.0 && SensorParams[p].b > 0.0
    ensures forall p :: p in SensorParams ==> SensorParams[p].b.Floor as real != SensorParams[p].b
  {
  }

  /** With a nonnegative coefficient, each reading converts to a nonnegative concentration. */
  lemma {:induction false} PpmNonNegative(pow: Pow, curve: Curve, raw: AdcSample)
    requires PowPositive(pow)
    requires curve.a >= 0.0
    ensures RawToPpm(pow, curve, raw) >= 0.0
  {
    var v := AdcToVoltage(raw);
    if v != 0.0 {
      assert pow(v, curve.b) > 0.0;
    }
  }

  /** With a positive curve, a higher raw reading means a strictly higher concentration. */
  lemma PpmStrictlyIncreasing(pow: Pow, curve: Curve, raw: AdcSample, raw': AdcSample)
    requires PowPositive(pow) && PowIncreasing(pow)
    requires curve.a > 0.0 && curve.b > 0.0
    requires raw < raw'
    ensures RawToPpm(pow, curve, raw) < RawToPpm(pow, curve, raw')
  {
    var v, v' := AdcToVoltage(raw), AdcToVoltage(raw');
    assert v < v';
    assert pow(v', curve.b) > 0.0;
    if v != 0.0 {
      assert pow(v, curve.b) < pow(v', curve.b);
    }
  }

  /** Each converted value of a window is nonnegative when the curve's coefficient is. */
  lemma ConvertAllNonNegative(pow: Pow, curve: Curve, raws: seq<AdcSample>)
    requires PowPositive(pow)
    requires curve.a >= 0.0
    ensures forall i :: 0 <= i < |raws| ==> ConvertAll(pow, curve, raws)[i] >= 0.0
  {
    forall i | 0 <= i < |raws|
      ensures ConvertAll(pow, curve, raws)[i] >= 0.0
    {
      PpmNonNegative(pow, curve, raws[i]);
    }
  }
}
