# Yield quality station: acquisition and scoring pipeline

A MicroPython controller identifies a user by RFID card, samples four MQ gas sensors
(alcohol, methane, air quality used as an ammonia proxy, hydrogen) and a DHT11
temperature and humidity sensor, scores the yield, and uploads a record. This project
models the deterministic core of that controller in Dafny and proves properties of it:

- **Calibration** (`calibration.dfy`): a 12-bit ADC reading becomes a voltage,
  `raw / 4095 * 3.3`, and the voltage becomes ppm through `voltage_to_ppm`, which returns
  0 for 0 V and `a * voltage ** b` otherwise. Python floats are exact `real`s. The
  exponentiation is a parameter `pow`, because the exponents are not integers. Lemmas that
  need `pow` to act like real exponentiation state it in their `requires`
  (`PowPositive`, `PowIncreasing`).
- **Stable readers** (`sampling.dfy`): `get_stable_sensor_value` and `get_stable_weight`
  are loops. They discard `ignore_count` reads and average the next `sample_count`. The
  device reads are a given sequence. Each method is proved to make exactly
  `ignore_count + sample_count` reads and to return the `Mean` of the kept window.
- **Lock-step sampler** (`sampling.dfy`): `get_all_mq_ppms` is a pair of nested loops
  over rounds and pins. The reads are a round-by-pin table, and the method also returns
  the order in which it reads. It is proved to return one mean per configured pin, taken
  over that pin's kept rounds. Its read order is proved to be `LockStepTrace`. Lemmas show
  that this order reads every pin once per round, round after round, and reads each pin
  exactly once for every round.
- **Scorer** (`scoring.dfy`): the four gas factors, the piecewise temperature and
  humidity factors, and the weighted composite, with the constants of the main loop.
- **Identity** (`identity.dfy`): the UID as upper-case hex, a decoder that is its
  inverse, the registry `known_users`, the card check, and the poll loop as written.
- **Upload** (`upload.dfy`): the `data` record and the filter that drops `None` values.
- **Controller** (`controller.dfy`): the flags `id_init`, `valid_id` and `yield_init` as
  fields of a class. One pass of the main loop is a method that ends in the state it
  started from. Only a welcomed user is sampled and reported.

Where the design description and the code disagree, the model follows the code:

- The humidity branch above 90 % subtracts `thr_temp_max` (15), not a humidity bound.
  The model keeps this, and `HumidFactorDropsAboveBand` proves the consequence: every
  humidity above 90 % scores 0. `thr_humid_max` is defined but never read.
- A failed card poll does not lead to "no identity". Line 249 assigns the fixed uid
  `CB2CBD4B11` after every failed poll, so `PolledUid` gives that uid, and
  `FailedPollsWelcomeForcedUser` proves it welcomes its registered holder.
- Faulted reads are not excluded from the averages: the code has no fault path for ADC
  or load-cell reads.
- A missing temperature or humidity does not give an "indeterminate" score. The code
  would raise `TypeError` at line 320, so the scorer takes present values.
- `id_init` is always 0 when line 237 tests it, because lines 381-382 reset it at the
  end of every pass. `Station.RunIteration` states this: `scanPrompt` always holds.

## Model

| member | source | states |
|---|---|---|
| `Calibration.AdcToVoltage` | main.py:54 | the voltage is 0 exactly when the raw reading is 0; a 12-bit reading maps into [0, 3.3] V, and full scale maps to 3.3 V |
| `Calibration.AdcToVoltageStrictlyIncreasing` | main.py:79 | a higher raw reading gives a strictly higher voltage, so distinct readings give distinct voltages |
| `Calibration.ZeroVoltageGivesZeroPpm` | main.py:61-63 | `voltage_to_ppm` returns 0 at 0 V for every `a`, `b` and exponentiation |
| `Calibration.NonzeroVoltageFollowsPowerLaw` | main.py:64 | for a nonzero voltage the result is `a * voltage^b` |
| `Calibration.ZeroRawGivesZeroPpm` | main.py:53-55 | a raw reading of 0 converts to 0 V and hence to 0 ppm, whatever the channel's curve |
| `Calibration.ConfiguredCurves` | main.py:161-166 | every analog pin has a curve; each coefficient and exponent is positive and each exponent is not an integer |
| `Calibration.PpmNonNegative` | main.py:61-64 | with `a >= 0` and a positive power of a positive base, every conversion is nonnegative |
| `Calibration.PpmStrictlyIncreasing` | main.py:78-81 | with a positive curve and increasing exponentiation, a higher raw reading means strictly more ppm |
| `Calibration.ConvertAllNonNegative` | main.py:55-56 | every converted value in a window is nonnegative when the curve's coefficient is |
| `Stats.SumBounds` | main.py:59 | readings within [lo, hi] put `sum(readings)` within [n * lo, n * hi] |
| `Stats.MeanBounds` | main.py:59 | the mean of readings within [lo, hi] is within [lo, hi] |
| `Stats.MeanOfConstant` | main.py:99 | a window of equal readings averages to that reading |
| `Stats.MeanNonNegative` | main.py:86 | nonnegative readings have a nonnegative mean |
| `Sampling.GetStableSensorValue` | main.py:42-59 | makes exactly `ignore_count + sample_count` reads and returns the mean of the converted reads `ignore_count .. ignore_count + sample_count - 1`; the discarded reads have no influence |
| `Sampling.GetStableWeight` | main.py:88-99 | makes exactly `ignore_count + sample_count` load-cell reads and returns the mean of the last `sample_count` of them |
| `Sampling.StableValueWithinWindow` | main.py:52-59 | the stable ppm value lies within the range of the converted values it averages |
| `Sampling.SteadyChannelGivesItsPpm` | main.py:52-59 | a channel that reads one value throughout the window yields that value's ppm |
| `Sampling.StableWeightWithinWindow` | main.py:94-99 | the stable weight lies within the range of the kept load-cell reads |
| `Sampling.SampleRound` | main.py:77-82 | one kept round reads every pin once, in key order, and appends each pin's converted read to that pin's list only |
| `Sampling.GetAllMqPpms` | main.py:66-86 | the result's keys are exactly the pins; each value is the mean of that pin's converted reads in the kept rounds; the reads are made in the order `LockStepTrace` gives |
| `Sampling.LockStepTraceLength` | main.py:70-83 | the reads of `rounds` rounds over n pins number `rounds * n` |
| `Sampling.LockStepTraceAt` | main.py:76-78 | read number `r * n + j` is pin j's read in round r: every pin is read in round r before any read of round r + 1 |
| `Sampling.LockStepRoundsInOrder` | main.py:70-78 | the rounds of successive reads never decrease and stay below the number of rounds |
| `Sampling.CountRoundReads` | main.py:77-78 | one round reads each configured pin exactly once and no other pin |
| `Sampling.EachPinReadOncePerRound` | main.py:70-83 | each configured pin is read exactly `ignore_count + sample_count` times, and no other pin is read |
| `Scoring.GasFactorRange` | main.py:315-318 | each gas factor lies in [0, 1] for a nonnegative concentration and a positive weight |
| `Scoring.GasFactorAntitone` | main.py:315-318 | a gas factor never increases as its concentration grows |
| `Scoring.GasFactorZeroIff` | main.py:315-318 | a gas factor is 0 exactly when the concentration reaches weight times its threshold |
| `Scoring.GasFactorOneIff` | main.py:315-318 | for a nonnegative concentration, a gas factor is 1 exactly when the concentration is 0 |
| `Scoring.TempFactorRange` | main.py:320-325 | `q_temp` lies in [0, 1] and is 1 exactly on [0, 15] degrees |
| `Scoring.TempFactorZeroIff` | main.py:320-323 | `q_temp` is 0 exactly at or below -15 and at or above 30 degrees |
| `Scoring.HumidFactorRange` | main.py:327-332 | `q_humid` lies in [0, 1] and is 1 exactly on [85, 90] % |
| `Scoring.HumidFactorBelowBand` | main.py:327-328 | below 85 % `q_humid` falls by 1/5 per percent and is 0 exactly at or below 80 % |
| `Scoring.HumidFactorDropsAboveBand` | main.py:329-330 | because the branch subtracts `thr_temp_max`, `q_humid` is 0 for every humidity above 90 % |
| `Scoring.CompositeRange` | main.py:334 | the weighted composite of factors in [0, 1] lies in [0, 100] and is 100 exactly when every factor is 1 |
| `Scoring.QualityRange` | main.py:306-334 | with nonnegative ppm values and a positive weight, `Quality` lies in [0, 100] |
| `Scoring.QualityPerfectIff` | main.py:306-334 | with nonnegative ppm values, `Quality` is 100 exactly when all four gases are at 0 ppm, the temperature is in [0, 15] and the humidity is in [85, 90] |
| `Scoring.QualityAntitoneInGases` | main.py:315-334 | raising any gas concentration, with the other readings fixed, never raises `Quality` |
| `Scoring.CleanYieldScoresFull` | main.py:306-334 | weight 1, no gas, 7 degrees and 87 % score exactly 100 |
| `Identity.UidToString` | main.py:245 | the UID string has two characters per byte of the serial number |
| `Identity.HexValue` | main.py:245 | reads back an upper-case hex digit to its value, and gives -1 for any other character |
| `Identity.HexValueOfDigit` | main.py:245 | each digit `{:02X}` writes reads back as the value it was written for |
| `Identity.ParseUidString` | main.py:245 | decoding the UID string gives back the serial number |
| `Identity.StringOfParsedUid` | main.py:245 | every string that decodes is the UID string of what it decodes to |
| `Identity.UidToStringInjective` | main.py:245 | distinct serial numbers give distinct UID strings |
| `Identity.AnindyaCardWelcomed` | main.py:110-111 | the card with serial CB 2C BD 4B 11 is welcomed as Anindya |
| `Identity.NittyaCardWelcomed` | main.py:112 | the card with serial 83 F3 5D FC D1 is welcomed as Nittya |
| `Identity.CharlieCardWelcomed` | main.py:113 | the 4-byte card CD E7 81 A4 is welcomed as Charlie |
| `Identity.Classify` | main.py:252-264 | a uid in `known_users` is welcomed with its registered name; `None` asks for the card again; any other uid is an undefined user |
| `Identity.FirstReadAt` | main.py:242-246 | the first successful poll's serial number is the one the loop keeps |
| `Identity.FirstReadNoneIff` | main.py:240-249 | there is no card read exactly when every poll failed |
| `Identity.PollUid` | main.py:240-249 | the poll loop leaves the UID string of the first successful poll; if every poll failed, it leaves the forced uid after at least one poll and `None` after none |
| `Identity.PolledUidPresent` | main.py:249 | after at least one poll the loop always leaves a uid |
| `Identity.FailedPollsWelcomeForcedUser` | main.py:249-254 | when every poll fails, the forced uid is welcomed as its registered holder |
| `Identity.ReadCardClassified` | main.py:245-254 | when a card is read, the user is welcomed exactly when its UID string is registered |
| `Upload.CleanData` | main.py:145 | keeps exactly the entries whose value is not `None`, with their values unchanged |
| `Upload.CleanDataIdempotent` | main.py:145 | filtering twice is the same as filtering once |
| `Upload.CleanDataKeepsCompleteRecord` | main.py:145 | a record with no `None` value passes the filter unchanged |
| `Upload.Record` | main.py:358-367 | the record has exactly the eight keys of the upload |
| `Upload.CleanRecordFields` | main.py:358-367 | the uploaded record keeps the weight, and keeps each other field exactly when it is present |
| `Upload.CompleteRecordUploadedWhole` | main.py:358-369 | a record whose fields are all present is uploaded whole, with all eight keys |
| `Controller.AdcPinsConfigured` | main.py:126-131 | the analog pins are distinct and each has a calibration curve |
| `Controller.PinPpmNonNegative` | main.py:76-86 | every pin's reported ppm is nonnegative when powers of positive bases are positive |
| `Controller.ReportQualityInRange` | main.py:276-334 | the quality of any sampled yield lies in [0, 100] |
| `Controller.ReportPayloadComplete` | main.py:358-369 | the record uploaded for a welcomed user has all eight fields and names that user |
| `Controller.Station.constructor` | main.py:216-218 | all three flags start cleared |
| `Controller.Station.Identify` | main.py:252-264 | a known uid sets `valid_id` and `id_init`; an unknown uid clears both; `None` changes neither; `yield_init` is untouched |
| `Controller.Station.RunIteration` | main.py:221-382 | every pass starts and ends with all flags cleared, and always shows the scan prompt; the greeting is the card check of the polled uid; a report is produced exactly for a welcomed user, and holds the quality and filtered record of the pipeline's readings |

## Left out

- Wi-Fi connection (main.py:26-40) and the HTTP POST with its JSON encoding (main.py:146-152): network I/O. Only the filter at main.py:145 is modelled.
- OLED rendering, `print` and the rounded display strings (main.py:180-185, main.py:336-356): user interface and float formatting.
- The MFRC522 SPI protocol (main.py:173-175, main.py:241-243): each poll is an input that holds the serial number, or `None` when `request` or `anticoll` did not answer OK.
- The clock and the 7-second identity window (main.py:233-240): the polls are the sequence of polls made before the window closed.
- All `time.sleep` delays: the read order is modelled, the timing is not.
- HX711 tare and scale calibration (main.py:190-214), ADC attenuation and width setup (main.py:135-137), and DHT11 measurement (main.py:298-304): hardware drivers. Their readings are inputs.
- The button wait (main.py:270-272) and the offload and fan loop (main.py:373-379): hardware polling. Only their effect on `yield_init` is modelled: the first ends with it set, the second with it cleared.
- The hard-coded weight 3.087 (main.py:275): the weight is a parameter, required to be positive.
- The commented-out per-sensor block (main.py:284-296).
- The `adc_pins[pin]` lookup in `get_stable_sensor_value` (main.py:43): `Sampling.GetStableSensorValue` takes the reads of the channel itself.
- IEEE float rounding: readings and scores are exact reals, and `voltage ** b` is the abstract parameter `pow`.
- Station.RunIteration: requires the DHT11 temperature and humidity to be present. On a sensor fault the source sets them to `None` and then raises `TypeError` at main.py:320; that crash is not modelled.
- Sampling.GetStableSensorValue, Sampling.GetStableWeight, Sampling.GetAllMqPpms: require `sample_count >= 1`, because the source divides by `len(readings)` and raises `ZeroDivisionError` on an empty list.
