/**
 * The record sent to the logging endpoint: the dictionary the main loop builds and the
 * filter that drops its `None` entries before it is serialised. The HTTP request itself
 * is not part of this model.
 */
module Upload {
  import opened Options

  /** A dictionary value: `None`, a string or a number. */
  datatype Value = Null | Text(text: string) | Number(number: real)

  /** `{k: v for k, v in data.items() if v is not None}`. */
  function CleanData(data: map<string, Value>): (clean: map<string, Value>)
    ensures forall k :: k in clean <==> k in data && data[k] != Null
    ensures forall k :: k in clean ==> clean[k] == data[k]
  {
    map k | k in data && data[k] != Null :: data[k]
  }

  /** Filtering a filtered record changes nothing. */
  lemma CleanDataIdempotent(data: map<string, Value>)
    ensures CleanData(CleanData(data)) == CleanData(data)
  {
  }

  /** A record without `None` entries passes the filter unchanged. */
  lemma CleanDataKeepsCompleteRecord(data: map<string, Value>)
    requires forall k :: k in data ==> data[k] != Null
    ensures CleanData(data) == data
  {
  }

  function TextOrNull(o: Option<string>): Value
  {
    if o.Some? then Text(o.value) else Null
  }

  function NumberOrNull(o: Option<real>): Value
  {
    if o.Some? then Number(o.value) else Null
  }

  /** The eight keys of an uploaded record. */
  const RecordKeys: set<string> := {"user_name", "temperature", "humidity", "load_cell",
                                    "nh3_sensor", "h2_sensor", "ch4_sensor", "alcohol_sensor"}

  /** The dictionary `data` built from the cycle's variables, each of which may still be `None`. */
  function Record(name: Option<string>, temp: Option<real>, humid: Option<real>, weight: real,
                  nh3: Option<real>, h2: Option<real>, ch4: Option<real>, alcohol: Option<real>): (data: map<string, Value>)
    ensures data.Keys == RecordKeys
  {
    map[
      "user_name" := TextOrNull(name),
      "temperature" := NumberOrNull(temp),
      "humidity" := NumberOrNull(humid),
      "load_cell" := Number(weight),
      "nh3_sensor" := NumberOrNull(nh3),
      "h2_sensor" := NumberOrNull(h2),
      "ch4_sensor" := NumberOrNull(ch4),
      "alcohol_sensor" := NumberOrNull(alcohol)
    ]
  }

  /** The uploaded record keeps the weight and exactly those other fields that are present. */
  lemma CleanRecordFields(name: Option<string>, temp: Option<real>, humid: Option<real>, weight: real,
                          nh3: Option<real>, h2: Option<real>, ch4: Option<real>, alcohol: Option<real>)
    ensures var clean := CleanData(Record(name, temp, humid, weight, nh3, h2, ch4, alcohol));
      && clean["load_cell"] == Number(weight)
      && ("user_name" in clean <==> name.Some?)
      && ("temperature" in clean <==> temp.Some?)
      && ("humidity" in clean <==> humid.Some?)
      && ("nh3_sensor" in clean <==> nh3.Some?)
      && ("h2_sensor" in clean <==> h2.Some?)
      && ("ch4_sensor" in clean <==> ch4.Some?)
      && ("alcohol_sensor" in clean <==> alcohol.Some?)
  {
  }

  /** When every field is present the filter keeps all eight keys and their values. */
  lemma CompleteRecordUploadedWhole(name: string, temp: real, humid: real, weight: real,
                                    nh3: real, h2: real, ch4: real, alcohol: real)
    ensures var data := Record(Some(name), Some(temp), Some(humid), weight, Some(nh3), Some(h2), Some(ch4), Some(alcohol));
      CleanData(data) == data && CleanData(data).Keys == RecordKeys
  {
    var data := Record(Some(name), Some(temp), Some(humid), weight, Some(nh3), Some(h2), Some(ch4), Some(alcohol));
    CleanDataKeepsCompleteRecord(data);
  }
}
