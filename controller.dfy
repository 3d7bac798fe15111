/**
 * One pass of the controller's main loop: poll for a card, check it against the
 * registry, and for a welcomed user sample the gas channels, score the yield and build
 * the upload record. The flags `id_init`, `valid_id` and `yield_init` are the fields of
 * a `Station` that the loop updates from pass to pass.
 */
module Controller {
  import opened Options
  import opened Stats
  import opened Calibration
  import opened Sampling
  import opened Scoring
  import opened Identity
  import opened Upload

  /** What a pass produces for a welcomed user: the name, the quality and the uploaded record. */
  datatype Report = Report(name: string, quality: real, payload: map<string, Value>)

  /** The analog pins are distinct and each has a calibration curve. */
  lemma AdcPinsConfigured()
    ensures Distinct(AdcPins)
    ensures forall i :: 0 <= i < |AdcPins| ==> AdcPins[i] in SensorParams
  {
  }

  /** The ppm `get_all_mq_ppms()` reports for the pin at index j of `adc_pins`, with its default round counts. */
  function PinPpm(pow: Pow, table: seq<seq<AdcSample>>, j: nat): real
    requires j < |AdcPins|
    requires |table| >= IgnoreDefault + SampleDefault && RoundsCover(table, |AdcPins|)
  {
    ChannelMean(pow, SensorParams[AdcPins[j]], table, j, IgnoreDefault, SampleDefault)
  }

  /** The report a pass gives a welcomed user, from the name, the weight and what the sensors read. */
  function ExpectedReport(name: string, weight: real, table: seq<seq<AdcSample>>, pow: Pow, temp: real, humid: real): Report
    requires weight > 0.0
    requires |table| >= IgnoreDefault + SampleDefault && RoundsCover(table, |AdcPins|)
  {
    var alcohol, methane, airQuality, hydrogen := PinPpm(pow, table, 0), PinPpm(pow, table, 1), PinPpm(pow, table, 2), PinPpm(pow, table, 3);
    Report(name, Quality(weight, alcohol, methane, airQuality, hydrogen, temp, humid),
           CleanData(Record(Some(name), Some(temp), Some(humid), weight,
                            Some(airQuality), Some(hydrogen), Some(methane), Some(alcohol))))
  }

  /** Every pin's reported ppm is nonnegative when exponentiation behaves as it does on the reals. */
  lemma PinPpmNonNegative(pow: Pow, table: seq<seq<AdcSample>>, j: nat)
    requires PowPositive(pow)
    requires j < |AdcPins|
    requires |table| >= IgnoreDefault + SampleDefault && RoundsCover(table, |AdcPins|)
    ensures PinPpm(pow, table, j) >= 0.0
  {
    var curve := SensorParams[AdcPins[j]];
    var column := Column(table, j, IgnoreDefault, IgnoreDefault + SampleDefault);
    ConvertAllNonNegative(pow, curve, column);
    MeanNonNegative(ConvertAll(pow, curve, column));
  }

  /** The quality reported for any sensor readings is a percentage in [0, 100], using every factor. */
  lemma ReportQualityInRange(name: string, weight: real, table: seq<seq<AdcSample>>, pow: Pow, temp: real, humid: real)
    requires PowPositive(pow)
    requires weight > 0.0
    requires |table| >= IgnoreDefault + SampleDefault && RoundsCover(table, |AdcPins|)
    ensures 0.0 <= ExpectedReport(name, weight, table, pow, temp, humid).quality <= 100.0
  {
    PinPpmNonNegative(pow, table, 0);
    PinPpmNonNegative(pow, table, 1);
    PinPpmNonNegative(pow, table, 2);
    PinPpmNonNegative(pow, table, 3);
    QualityRange(weight, PinPpm(pow, table, 0), PinPpm(pow, table, 1), PinPpm(pow, table, 2), PinPpm(pow, table, 3), temp, humid);
  }

  /** The record uploaded for a welcomed user carries all eight fields, none of them dropped by the filter. */
  lemma ReportPayloadComplete(name: string, weight: real, table: seq<seq<AdcSample>>, pow: Pow, temp: real, humid: real)
    requires weight > 0.0
    requires |table| >= IgnoreDefault + SampleDefault && RoundsCover(table, |AdcPins|)
    ensures ExpectedReport(name, weight, table, pow, temp, humid).payload.Keys == RecordKeys
    ensures ExpectedReport(name, weight, table, pow, temp, humid).payload["user_name"] == Text(name)
  {
    CompleteRecordUploadedWhole(name, temp, humid, weight, PinPpm(pow, table, 2), PinPpm(pow, table, 3),
                                PinPpm(pow, table, 1), PinPpm(pow, table, 0));
  }

  /** The controller's loop state. */
  class Station {
    var idInit: bool
    var validId: bool
    var yieldInit: bool

    /** The state at the top of every pass of the main loop. */
    predicate AtLoopHead()
      reads this
    {
      !idInit && !validId && !yieldInit
    }

    /** `id_init = 0`, `valid_id = 0`, `yield_init = 0` before the loop starts. */
    constructor ()
      ensures AtLoopHead()
    {
      idInit, validId, yieldInit := false, false, false;
    }

    /** The card check: set or clear the identity flags and say what to display. */
    method Identify(uid: Option<string>) returns (greeting: Greeting)
      modifies this
      ensures greeting == Classify(uid)
      ensures greeting.Welcome? ==> validId && idInit
      ensures greeting == UndefinedUser ==> !validId && !idInit
      ensures greeting == PlaceCardProperly ==> validId == old(validId) && idInit == old(idInit)
      ensures yieldInit == old(yieldInit)
    {
      if uid.Some? && uid.value in KnownUsers {
        validId := true;
        greeting := Welcome(KnownUsers[uid.value]);
        idInit := true;
      } else if uid == None {
        greeting := PlaceCardProperly;
      } else {
        greeting := UndefinedUser;
        validId := false;
        idInit := false;
      }
    }

    /**
     * One pass of the main loop. `polls` are the card polls made within the identity
     * window, `table` what the four analog pins read round by round, `weight` the yield's
     * weight and `temp`, `humid` the DHT11 reading. Only a welcomed user is sampled and
     * reported, and the pass ends in the state it started from.
     */
    method RunIteration(polls: Polls, weight: real, table: seq<seq<AdcSample>>, pow: Pow, temp: real, humid: real)
      returns (scanPrompt: bool, greeting: Greeting, report: Option<Report>)
      requires AtLoopHead()
      requires weight > 0.0
      requires |table| >= IgnoreDefault + SampleDefault && RoundsCover(table, |AdcPins|)
      modifies this
      ensures AtLoopHead()
      ensures scanPrompt
      ensures greeting == Classify(PolledUid(polls))
      ensures report.Some? <==> greeting.Welcome?
      ensures report.Some? ==> report.value == ExpectedReport(greeting.name, weight, table, pow, temp, humid)
    {
      scanPrompt := !idInit;
      var uid := PollUid(polls);
      greeting := Identify(uid);
      if validId {
        // The button wait ends only once `yield_init` is set.
        yieldInit := true;
        AdcPinsConfigured();
        var ppms, trace := GetAllMqPpms(AdcPins, SensorParams, table, pow, IgnoreDefault, SampleDefault);
        var alcohol, methane, airQuality, hydrogen := ppms[AlcoholPin], ppms[MethanePin], ppms[AirQualityPin], ppms[HydrogenPin];
        var quality := Quality(weight, alcohol, methane, airQuality, hydrogen, temp, humid);
        var data := Record(Some(greeting.name), Some(temp), Some(humid), weight,
                           Some(airQuality), Some(hydrogen), Some(methane), Some(alcohol));
        report := Some(Report(greeting.name, quality, CleanData(data)));
        // The offload wait ends only once `yield_init` is cleared.
        yieldInit := false;
      } else {
        report := None;
      }
      idInit := false;
      validId := false;
    }
  }
}
