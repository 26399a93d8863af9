/**
 * One collected contact entry and its conversion to and from a string-keyed mapping
 * (keyword construction `Record(**item)` and `asdict(record)`).
 */
module Records {
  import opened Wrappers
  import opened Json

  /** The six declared field names: the only keys keyword construction accepts. */
  const FieldNames: set<string> := {"name", "age", "email", "phone", "notes", "timestamp"}

  /**
   * A record. The field annotations (str, int) are not enforced when a record is built from a
   * mapping, so each field holds whatever JSON value it was given.
   */
  datatype Record = Record(
    name: JsonValue,
    age: JsonValue,
    email: JsonValue,
    phone: JsonValue,
    notes: JsonValue,
    timestamp: JsonValue)

  /** Why keyword construction of a record fails (each is a TypeError in the source). */
  datatype ConstructionError =
    | NotAMapping                             // `**` applied to something that is not a mapping
    | UnexpectedFields(names: set<string>)    // keys that are not declared fields
    | MissingFields(names: set<string>)       // declared fields that have no key

  /** A record built from the typed values `add_record` receives and the creation timestamp. */
  function Make(name: string, age: int, email: string, phone: string, notes: string, timestamp: string): (r: Record)
    ensures ToMapping(r) == map["name" := JString(name), "age" := JNumber(age), "email" := JString(email),
                                "phone" := JString(phone), "notes" := JString(notes), "timestamp" := JString(timestamp)]
  {
    Record(JString(name), JNumber(age), JString(email), JString(phone), JString(notes), JString(timestamp))
  }

  /** `asdict(record)`: the mapping from each field name to that field's value. */
  function ToMapping(r: Record): (m: map<string, JsonValue>)
    ensures m.Keys == FieldNames
  {
    map["name" := r.name, "age" := r.age, "email" := r.email,
        "phone" := r.phone, "notes" := r.notes, "timestamp" := r.timestamp]
  }

  /**
   * `Record(**m)`: succeeds exactly when the key set is the six field names. An unexpected key is
   * reported before missing ones, as keyword binding rejects an unknown keyword first.
   */
  function FromMapping(m: map<string, JsonValue>): (r: Result<Record, ConstructionError>)
    ensures r.Success? <==> m.Keys == FieldNames
    ensures r.Success? ==> ToMapping(r.value) == m
    ensures m.Keys - FieldNames != {} ==> r.Failure? && r.error.UnexpectedFields?
    ensures r.Failure? && r.error.UnexpectedFields? ==> r.error.names == m.Keys - FieldNames
    ensures r.Failure? && r.error.MissingFields? ==> r.error.names == FieldNames - m.Keys && m.Keys < FieldNames
    ensures m.Keys < FieldNames ==> r == Failure(MissingFields(FieldNames - m.Keys))
    ensures r.Failure? ==> !r.error.NotAMapping?
  {
    if m.Keys - FieldNames != {} then
      Failure(UnexpectedFields(m.Keys - FieldNames))
    else if FieldNames - m.Keys != {} then
      Failure(MissingFields(FieldNames - m.Keys))
    else
      Success(Record(m["name"], m["age"], m["email"], m["phone"], m["notes"], m["timestamp"]))
  }

  /** `Record(**item)` for an arbitrary JSON value: only an object is a mapping. */
  function FromValue(v: JsonValue): (r: Result<Record, ConstructionError>)
    ensures r.Success? <==> v.JObject? && v.fields.Keys == FieldNames
    ensures r.Success? ==> v == JObject(ToMapping(r.value))
  {
    if v.JObject? then FromMapping(v.fields) else Failure(NotAMapping)
  }

  /** Building a record from its own mapping gives the record back. */
  lemma MappingRoundTrip(r: Record)
    ensures FromMapping(ToMapping(r)) == Success(r)
  {
  }
}
