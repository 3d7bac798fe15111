/**
 * Stabilised acquisition: settle a channel by discarding its first reads, then average
 * a window of the following reads. The hardware reads (`adc.read()`, `hx.get_units()`)
 * are supplied as the sequence of values the device would return, in order; the delays
 * between reads are left out.
 */
module Sampling {
  import opened Stats
  import opened Calibration

  /** Default read counts of `get_stable_sensor_value`. */
  const SensorIgnoreDefault: nat := 5
  const SensorSampleDefault: nat := 10
  /** Default round and read counts of `get_all_mq_ppms` and `get_stable_weight`. */
  const IgnoreDefault: nat := 10
  const SampleDefault: nat := 20

  /**
   * `get_stable_sensor_value`: discard `ignoreCount` reads of the channel, convert the
   * next `sampleCount` reads to ppm and return their mean, with the number of reads made.
   */
  method GetStableSensorValue(samples: seq<AdcSample>, pow: Pow, curve: Curve, ignoreCount: nat, sampleCount: nat)
    returns (ppm: real, readCount: nat)
    requires sampleCount >= 1
    requires |samples| >= ignoreCount + sampleCount
    ensures readCount == ignoreCount + sampleCount
    ensures ppm == Mean(ConvertAll(pow, curve, samples[ignoreCount..ignoreCount + sampleCount]))
  {
    readCount := 0;
    for i := 0 to ignoreCount
      invariant readCount == i
    {
      readCount := readCount + 1;   // this read is discarded
    }
    var readings: seq<real> := [];
    for k := 0 to sampleCount
      invariant readCount == ignoreCount + k
      invariant readings == ConvertAll(pow, curve, samples[ignoreCount..ignoreCount + k])
    {
      var adcVal := samples[readCount];
      readCount := readCount + 1;
      var voltage := AdcToVoltage(adcVal);
      var value := VoltageToPpm(pow, voltage, curve.a, curve.b);
      assert samples[ignoreCount..ignoreCount + k + 1] == samples[ignoreCount..ignoreCount + k] + [adcVal];
      ConvertAllSnoc(pow, curve, samples[ignoreCount..ignoreCount + k], adcVal);
      readings := readings + [value];
    }
    ppm := Sum(readings) / (|readings| as real);
  }

  /**
   * `get_stable_weight`: discard `ignoreCount` load-cell reads and return the mean of the
   * next `sampleCount`, with the number of reads made.
   */
  method GetStableWeight(samples: seq<real>, ignoreCount: nat, sampleCount: nat)
    returns (weight: real, readCount: nat)
    requires sampleCount >= 1
    requires |samples| >= ignoreCount + sampleCount
    ensures readCount == ignoreCount + sampleCount
    ensures weight == Mean(samples[ignoreCount..ignoreCount + sampleCount])
  {
    readCount := 0;
    for i := 0 to ignoreCount
      invariant readCount == i
    {
      readCount := readCount + 1;   // this read is discarded
    }
    var readings: seq<real> := [];
    for k := 0 to sampleCount
      invariant readCount == ignoreCount + k
      invariant readings == samples[ignoreCount..ignoreCount + k]
    {
      readings := readings + [samples[readCount]];
      readCount := readCount + 1;
    }
    weight := Sum(readings) / (|readings| as real);
  }

  /** The stable ppm value lies within the range of the converted values of the window it averages. */
  lemma StableValueWithinWindow(pow: Pow, curve: Curve, samples: seq<AdcSample>, ignoreCount: nat, sampleCount: nat, lo: real, hi: real)
    requires sampleCount >= 1
    requires |samples| >= ignoreCount + sampleCount
    requires forall i :: ignoreCount <= i < ignoreCount + sampleCount ==> lo <= RawToPpm(pow, curve, samples[i]) <= hi
    ensures lo <= Mean(ConvertAll(pow, curve, samples[ignoreCount..ignoreCount + sampleCount])) <= hi
  {
    var window := ConvertAll(pow, curve, samples[ignoreCount..ignoreCount + sampleCount]);
    forall i | 0 <= i < |window|
      ensures lo <= window[i] <= hi
    {
      assert window[i] == RawToPpm(pow, curve, samples[ignoreCount + i]);
    }
    MeanBounds(window, lo, hi);
  }

  /** A window in which the channel reads one value throughout averages to that value's ppm. */
  lemma SteadyChannelGivesItsPpm(pow: Pow, curve: Curve, samples: seq<AdcSample>, ignoreCount: nat, sampleCount: nat, raw: AdcSample)
    requires sampleCount >= 1
    requires |samples| >= ignoreCount + sampleCount
    requires forall i :: ignoreCount <= i < ignoreCount + sampleCount ==> samples[i] == raw
    ensures Mean(ConvertAll(pow, curve, samples[ignoreCount..ignoreCount + sampleCount])) == RawToPpm(pow, curve, raw)
  {
    StableValueWithinWindow(pow, curve, samples, ignoreCount, sampleCount, RawToPpm(pow, curve, raw), RawToPpm(pow, curve, raw));
  }

  /** The stable weight lies within the range of the load-cell reads it averages. */
  lemma StableWeightWithinWindow(samples: seq<real>, ignoreCount: nat, sampleCount: nat, lo: real, hi: real)
    requires sampleCount >= 1
    requires |samples| >= ignoreCount + sampleCount
    requires forall i :: ignoreCount <= i < ignoreCount + sampleCount ==> lo <= samples[i] <= hi
    ensures lo <= Mean(samples[ignoreCount..ignoreCount + sampleCount]) <= hi
  {
    var window := samples[ignoreCount..ignoreCount + sampleCount];
    assert forall i :: 0 <= i < |window| ==> window[i] == samples[ignoreCount + i];
    MeanBounds(window, lo, hi);
  }

  // ---------------------------------------------------------------------------
  // The lock-step sampler of all analog channels.
  // ---------------------------------------------------------------------------

  /** One `adc_pins[pin].read()` in the given round. */
  datatype ReadEvent = ReadEvent(round: nat, pin: Pin)

  /** The keys of a dictionary are pairwise distinct. */
  predicate Distinct(pins: seq<Pin>)
  {
    forall i, j :: 0 <= i < j < |pins| ==> pins[i] != pins[j]
  }

  /** The reads of one round: every pin once, in key order. */
  function RoundReads(pins: seq<Pin>, round: nat): seq<ReadEvent>
  {
    seq(|pins|, j requires 0 <= j < |pins| => ReadEvent(round, pins[j]))
  }

  /** The reads of `rounds` complete rounds, one round after the other. */
  function LockStepTrace(pins: seq<Pin>, rounds: nat): seq<ReadEvent>
  {
    if rounds == 0 then [] else LockStepTrace(pins, rounds - 1) + RoundReads(pins, rounds - 1)
  }

  /** The reads of channel `j` in rounds lo .. hi-1 of a round-by-pin table. */
  function Column(table: seq<seq<AdcSample>>, j: nat, lo: nat, hi: nat): seq<AdcSample>
    requires lo <= hi <= |table|
    requires forall r :: lo <= r < hi ==> j < |table[r]|
  {
    seq(hi - lo, r requires 0 <= r < hi - lo => table[lo + r][j])
  }

  /** Every row of the table holds one read per pin. */
  predicate RoundsCover(table: seq<seq<AdcSample>>, n: nat)
  {
    forall r :: 0 <= r < |table| ==> |table[r]| == n
  }

  /** The value `get_all_mq_ppms` reports for channel j: the mean ppm of its kept rounds. */
  function ChannelMean(pow: Pow, curve: Curve, table: seq<seq<AdcSample>>, j: nat, ignoreCount: nat, sampleCount: nat): real
    requires sampleCount >= 1
    requires |table| >= ignoreCount + sampleCount
    requires forall r :: 0 <= r < |table| ==> j < |table[r]|
  {
    Mean(ConvertAll(pow, curve, Column(table, j, ignoreCount, ignoreCount + sampleCount)))
  }

  /** One more round extends each column by that round's read. */
  lemma ColumnSnoc(table: seq<seq<AdcSample>>, j: nat, lo: nat, hi: nat)
    requires lo <= hi < |table|
    requires forall r :: lo <= r <= hi ==> j < |table[r]|
    ensures Column(table, j, lo, hi + 1) == Column(table, j, lo, hi) + [table[hi][j]]
  {
  }

  /** `readings` holds, for every pin, the ppm values of its reads in rounds lo .. hi-1. */
  ghost predicate Collected(readings: map<Pin, seq<real>>, pins: seq<Pin>, params: map<Pin, Curve>,
                            table: seq<seq<AdcSample>>, pow: Pow, lo: nat, hi: nat)
    requires forall i :: 0 <= i < |pins| ==> pins[i] in params
    requires lo <= hi <= |table| && RoundsCover(table, |pins|)
  {
    && readings.Keys == (set p | p in pins)
    && forall i :: 0 <= i < |pins| ==>
         pins[i] in readings && readings[pins[i]] == ConvertAll(pow, params[pins[i]], Column(table, i, lo, hi))
  }

  /**
   * One kept round of `get_all_mq_ppms`: read every pin once, in key order, convert the
   * read to ppm with that pin's curve and append it to the pin's list.
   */
  method SampleRound(pins: seq<Pin>, params: map<Pin, Curve>, table: seq<seq<AdcSample>>, pow: Pow,
                     lo: nat, round: nat, readings: map<Pin, seq<real>>, trace: seq<ReadEvent>)
    returns (readings': map<Pin, seq<real>>, trace': seq<ReadEvent>)
    requires Distinct(pins)
    requires forall i :: 0 <= i < |pins| ==> pins[i] in params
    requires lo <= round < |table| && RoundsCover(table, |pins|)
    requires Collected(readings, pins, params, table, pow, lo, round)
    ensures Collected(readings', pins, params, table, pow, lo, round + 1)
    ensures trace' == trace + RoundReads(pins, round)
  {
    readings', trace' := readings, trace;
    for j := 0 to |pins|
      invariant trace' == trace + RoundReads(pins, round)[..j]
      invariant readings'.Keys == set p | p in pins
      invariant forall i :: 0 <= i < j ==>
        readings'[pins[i]] == ConvertAll(pow, params[pins[i]], Column(table, i, lo, round + 1))
      invariant forall i :: j <= i < |pins| ==> readings'[pins[i]] == readings[pins[i]]
    {
      var pin := pins[j];
      var raw := table[round][j];
      var voltage := AdcToVoltage(raw);
      var curve := params[pin];
      var ppm := VoltageToPpm(pow, voltage, curve.a, curve.b);
      ColumnSnoc(table, j, lo, round);
      ConvertAllSnoc(pow, curve, Column(table, j, lo, round), raw);
      readings' := readings'[pin := readings'[pin] + [ppm]];
      trace' := trace' + [ReadEvent(round, pin)];
      assert RoundReads(pins, round)[..j + 1] == RoundReads(pins, round)[..j] + [ReadEvent(round, pin)];
    }
    assert RoundReads(pins, round)[..|pins|] == RoundReads(pins, round);
  }

  /**
   * `get_all_mq_ppms`: in each of `ignoreCount` rounds read every pin once and discard
   * the reads; in each of the next `sampleCount` rounds read every pin once and append its
   * ppm to that pin's list; return each pin's mean. `table[r][j]` is what pin `pins[j]`
   * reads in round r; `trace` records the reads in the order they are made.
   */
  method GetAllMqPpms(pins: seq<Pin>, params: map<Pin, Curve>, table: seq<seq<AdcSample>>, pow: Pow, ignoreCount: nat, sampleCount: nat)
    returns (ppms: map<Pin, real>, trace: seq<ReadEvent>)
    requires Distinct(pins)
    requires forall i :: 0 <= i < |pins| ==> pins[i] in params
    requires sampleCount >= 1
    requires |table| >= ignoreCount + sampleCount
    requires RoundsCover(table, |pins|)
    ensures ppms.Keys == set p | p in pins
    ensures forall j :: 0 <= j < |pins| ==>
      ppms[pins[j]] == ChannelMean(pow, params[pins[j]], table, j, ignoreCount, sampleCount)
    ensures trace == LockStepTrace(pins, ignoreCount + sampleCount)
  {
    var readings: map<Pin, seq<real>> := map p | p in pins :: [];
    trace := [];
    // Discarded rounds: every pin is read once per round.
    for round := 0 to ignoreCount
      invariant trace == LockStepTrace(pins, round)
    {
      for j := 0 to |pins|
        invariant trace == LockStepTrace(pins, round) + RoundReads(pins, round)[..j]
      {
        trace := trace + [ReadEvent(round, pins[j])];
        assert RoundReads(pins, round)[..j + 1] == RoundReads(pins, round)[..j] + [ReadEvent(round, pins[j])];
      }
      assert RoundReads(pins, round)[..|pins|] == RoundReads(pins, round);
    }
    // Kept rounds: each read is converted and appended to its pin's list.
    for k := 0 to sampleCount
      invariant trace == LockStepTrace(pins, ignoreCount + k)
      invariant Collected(readings, pins, params, table, pow, ignoreCount, ignoreCount + k)
    {
      readings, trace := SampleRound(pins, params, table, pow, ignoreCount, ignoreCount + k, readings, trace);
    }
    forall p | p in readings
      ensures |readings[p]| == sampleCount
    {
      var i :| 0 <= i < |pins| && pins[i] == p;
    }
    ppms := map p | p in readings :: Sum(readings[p]) / (|readings[p]| as real);
  }

  /** A trace of complete rounds holds one read per pin per round. */
  lemma {:induction false} LockStepTraceLength(pins: seq<Pin>, rounds: nat)
    ensures |LockStepTrace(pins, rounds)| == rounds * |pins|
  {
    if rounds > 0 {
      LockStepTraceLength(pins, rounds - 1);
    }
  }

  /** Read number r * |pins| + j of the trace is pin j's read in round r: the lock-step order. */
  lemma {:induction false} LockStepTraceAt(pins: seq<Pin>, rounds: nat, r: nat, j: nat)
    requires r < rounds && j < |pins|
    ensures r * |pins| + j < |LockStepTrace(pins, rounds)|
    ensures LockStepTrace(pins, rounds)[r * |pins| + j] == ReadEvent(r, pins[j])
  {
    var n := |pins|;
    LockStepTraceLength(pins, rounds - 1);
    LockStepTraceLength(pins, rounds);
    if r < rounds - 1 {
      LockStepTraceAt(pins, rounds - 1, r, j);
    } else {
      assert r * n + j == (rounds - 1) * n + j;
    }
  }

  /** Every read of round r comes before every read of a later round. */
  lemma {:induction false} LockStepRoundsInOrder(pins: seq<Pin>, rounds: nat, k: nat, k': nat)
    requires k <= k' < |LockStepTrace(pins, rounds)|
    ensures LockStepTrace(pins, rounds)[k].round <= LockStepTrace(pins, rounds)[k'].round
    ensures LockStepTrace(pins, rounds)[k'].round < rounds
  {
    var prefix := LockStepTrace(pins, rounds - 1);
    if k' < |prefix| {
      LockStepRoundsInOrder(pins, rounds - 1, k, k');
    } else if k < |prefix| {
      LockStepRoundsInOrder(pins, rounds - 1, k, k);
    }
  }

  /** The number of reads of `pin` in a trace. */
  function CountReads(trace: seq<ReadEvent>, pin: Pin): nat
  {
    if |trace| == 0 then 0
    else CountReads(trace[..|trace| - 1], pin) + (if trace[|trace| - 1].pin == pin then 1 else 0)
  }

  lemma {:induction false} CountReadsAppend(t: seq<ReadEvent>, u: seq<ReadEvent>, pin: Pin)
    ensures CountReads(t + u, pin) == CountReads(t, pin) + CountReads(u, pin)
  {
    if |u| > 0 {
      var u' := u[..|u| - 1];
      assert (t + u)[..|t + u| - 1] == t + u';
      CountReadsAppend(t, u', pin);
    } else {
      assert t + u == t;
    }
  }

  /** A round reads each of its distinct pins exactly once and no other pin. */
  lemma {:induction false} CountRoundReads(pins: seq<Pin>, round: nat, pin: Pin)
    requires Distinct(pins)
    ensures CountReads(RoundReads(pins, round), pin) == if pin in pins then 1 else 0
  {
    if |pins| > 0 {
      var init := pins[..|pins| - 1];
      assert RoundReads(pins, round)[..|pins| - 1] == RoundReads(init, round);
      CountRoundReads(init, round, pin);
      assert pin in pins <==> pin in init || pin == pins[|pins| - 1];
      if pin == pins[|pins| - 1] {
        assert pin !in init;
      }
    }
  }

  /** Over `rounds` rounds each configured pin is read exactly `rounds` times, and no other pin is read. */
  lemma {:induction false} EachPinReadOncePerRound(pins: seq<Pin>, rounds: nat, pin: Pin)
    requires Distinct(pins)
    ensures CountReads(LockStepTrace(pins, rounds), pin) == if pin in pins then rounds else 0
  {
    if rounds > 0 {
      EachPinReadOncePerRound(pins, rounds - 1, pin);
      CountReadsAppend(LockStepTrace(pins, rounds - 1), RoundReads(pins, rounds - 1), pin);
      CountRoundReads(pins, rounds - 1, pin);
    }
  }
}
