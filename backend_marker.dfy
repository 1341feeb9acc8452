/** The backend's marker record (backend/models/marker.py): a pydantic model
    whose five fields are all required and whose label is restricted to two
    categories. */
module BackendMarker {
  import opened Common
  import opened Json

  /** A validated marker. The `label` field is called `kind` here (`label`
      is a Dafny keyword). */
  datatype Marker = Marker(lat: real, lon: real, kind: string, timestamp: string, city: string)

  /** `Literal["graffiti", "pothole"]`. */
  predicate ValidLabel(kind: string)
  {
    kind == "graffiti" || kind == "pothole"
  }

  /** pydantic's `ValidationError`: the fields that failed, in declaration order. */
  datatype ValidationError = ValidationError(fields: seq<string>)

  /** The field names, in declaration order. */
  const FieldNames: seq<string> := ["lat", "lon", "label", "timestamp", "city"]

  /** `Marker(lat=..., lon=..., label=..., timestamp=..., city=...)` with
      arguments of the declared types: only the label can be refused. */
  function New(lat: real, lon: real, kind: string, timestamp: string, city: string): (r: Result<Marker, ValidationError>)
    ensures r.Ok? <==> ValidLabel(kind)
    ensures r.Ok? ==> r.value == Marker(lat, lon, kind, timestamp, city)
    ensures r.Err? ==> r.error.fields == ["label"]
  {
    if ValidLabel(kind) then Ok(Marker(lat, lon, kind, timestamp, city))
    else Err(ValidationError(["label"]))
  }

  predicate NumberField(d: map<string, Json>, name: string)
  {
    name in d && d[name].JNum?
  }

  predicate StringField(d: map<string, Json>, name: string)
  {
    name in d && d[name].JStr?
  }

  /** Whether the value under `name` is acceptable for that field. A missing
      key is never acceptable: no field has a default. */
  predicate FieldOk(d: map<string, Json>, name: string)
  {
    match name
    case "lat" => NumberField(d, "lat")
    case "lon" => NumberField(d, "lon")
    case "label" => StringField(d, "label") && ValidLabel(d["label"].s)
    case _ => StringField(d, name)
  }

  /** The failing fields of a dictionary, in declaration order. */
  function BadFields(d: map<string, Json>): (bad: seq<string>)
    ensures forall i :: 0 <= i < |bad| ==> bad[i] in FieldNames && !FieldOk(d, bad[i])
    ensures forall i :: 0 <= i < |FieldNames| && !FieldOk(d, FieldNames[i]) ==> FieldNames[i] in bad
  {
    (if FieldOk(d, "lat") then [] else ["lat"])
    + (if FieldOk(d, "lon") then [] else ["lon"])
    + (if FieldOk(d, "label") then [] else ["label"])
    + (if FieldOk(d, "timestamp") then [] else ["timestamp"])
    + (if FieldOk(d, "city") then [] else ["city"])
  }

  predicate AllFieldsOk(d: map<string, Json>)
  {
    FieldOk(d, "lat") && FieldOk(d, "lon") && FieldOk(d, "label") && FieldOk(d, "timestamp") && FieldOk(d, "city")
  }

  /** `Marker(**d)`: a marker when every field is present with an acceptable
      value (other keys are ignored), else the list of failing fields. */
  function FromFields(d: map<string, Json>): (r: Result<Marker, ValidationError>)
    ensures r.Ok? <==> AllFieldsOk(d)
    ensures r.Ok? ==>
      && r.value.lat == d["lat"].n && r.value.lon == d["lon"].n
      && r.value.kind == d["label"].s && ValidLabel(r.value.kind)
      && r.value.timestamp == d["timestamp"].s && r.value.city == d["city"].s
    ensures r.Err? ==> r.error.fields != []
  {
    var bad := BadFields(d);
    if bad == [] then
      Ok(Marker(d["lat"].n, d["lon"].n, d["label"].s, d["timestamp"].s, d["city"].s))
    else
      assert !FieldOk(d, bad[0]);
      Err(ValidationError(bad))
  }

  /** `m.dict()`: exactly the five fields. */
  function ToFields(m: Marker): (d: map<string, Json>)
    ensures d.Keys == {"lat", "lon", "label", "timestamp", "city"}
  {
    map["lat" := JNum(m.lat), "lon" := JNum(m.lon), "label" := JStr(m.kind),
        "timestamp" := JStr(m.timestamp), "city" := JStr(m.city)]
  }

  /** A valid marker survives being written out as a dictionary and read
      back. */
  lemma FieldsRoundTrip(m: Marker)
    requires ValidLabel(m.kind)
    ensures FromFields(ToFields(m)) == Ok(m)
  {
  }

  /** Every field is required: leaving any one out is refused, naming it. */
  lemma MissingFieldRejected(d: map<string, Json>, name: string)
    requires name in FieldNames && name !in d
    ensures FromFields(d).Err? && name in FromFields(d).error.fields
  {
  }
}
