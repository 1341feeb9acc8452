/** The backend service (backend/main.py): a process-wide marker list, kept
    in `markers.json` and read back when the service starts; the `/analyze/`
    handler, which records one marker per detected problem; and the line
    text of the `/generate_report/` handler. */
module BackendMain {
  import opened Common
  import opened Text
  import opened Json
  import opened BackendMarker

  /** The `address` part of the reverse geocoder's raw answer; an absent key
      (or an absent `address`) is `None`. */
  datatype Address = Address(city: Option<string>, town: Option<string>, village: Option<string>)

  const UnknownCity: string := "Unknown"

  /** The city the handler records: the address's city, else its town, else
      its village, else "Unknown", an empty name counting as absent. The
      result is never empty. */
  function CityOf(a: Address): (city: string)
    ensures city != ""
    ensures Truthy(a.city) ==> city == a.city.value
    ensures !Truthy(a.city) && Truthy(a.town) ==> city == a.town.value
    ensures !Truthy(a.city) && !Truthy(a.town) && Truthy(a.village) ==> city == a.village.value
    ensures !Truthy(a.city) && !Truthy(a.town) && !Truthy(a.village) ==> city == UnknownCity
  {
    var options := [a.city, a.town, a.village];
    assert options[0] == a.city && options[1] == a.town && options[2] == a.village;
    FirstTruthy(options, UnknownCity)
  }

  /** What the outside calls made before the marker loop produce: the labels
      `detect_issues` found, in order, and the place the reverse geocoder
      found (`None` when it found none). */
  datatype Upstream = Upstream(labels: seq<string>, place: Option<Address>)

  /** Why the handler answered status 500: an outside call raised (with its
      message); the geocoder found no place, so reading its `raw` field
      raised; a detected label is not a marker category; or writing the
      marker file raised. */
  datatype Failure = Raised(message: string) | NoPlace | Invalid(error: ValidationError) | SaveFailed

  /** The handler's answer: status 200 with the detections and the city, or
      status 500 with the error. */
  datatype Response = Analyzed(detections: seq<string>, city: string) | ServerError(failure: Failure)

  function Status(r: Response): (code: int)
    ensures code == 200 <==> r.Analyzed?
    ensures code == 500 <==> r.ServerError?
  {
    if r.Analyzed? then 200 else 500
  }

  /** The number of labels that can be turned into markers before the first
      one that cannot: every label before it is a category, and the label at
      it (if any) is not. */
  function ValidPrefix(labels: seq<string>): (n: nat)
    ensures n <= |labels|
    ensures forall i :: 0 <= i < n ==> ValidLabel(labels[i])
    ensures n < |labels| ==> !ValidLabel(labels[n])
  {
    CountWhile(labels, (l: string) => ValidLabel(l))
  }

  /** The markers of one `/analyze/` call: one per label, in order, all with
      the request's position, the call's timestamp and the same city. */
  function Batch(lat: real, lon: real, labels: seq<string>, timestamp: string, city: string): (r: seq<Marker>)
    ensures |r| == |labels|
    ensures forall i :: 0 <= i < |r| ==>
      r[i].lat == lat && r[i].lon == lon && r[i].kind == labels[i] && r[i].timestamp == timestamp && r[i].city == city
  {
    seq(|labels|, i requires 0 <= i < |labels| => Marker(lat, lon, labels[i], timestamp, city))
  }

  /** Every marker carries one of the two categories: no other `Marker` can
      be constructed. */
  predicate AllValid(ms: seq<Marker>)
  {
    forall i :: 0 <= i < |ms| ==> ValidLabel(ms[i].kind)
  }

  /** `json.dump([m.dict() for m in markers])`: the list as a JSON array of
      records, in order. */
  function DumpAll(ms: seq<Marker>): (v: Json)
    ensures v.JArr? && |v.items| == |ms|
    ensures forall i :: 0 <= i < |ms| ==> v.items[i] == JObj(ToFields(ms[i]))
  {
    JArr(seq(|ms|, i requires 0 <= i < |ms| => JObj(ToFields(ms[i]))))
  }

  /** Why reading the list back raised: the JSON value cannot be iterated, an
      element is not a dictionary (`**` needs a mapping), or an element's
      fields are refused. `at` is the position of the first offending
      element. */
  datatype LoadError = NotIterable | NotARecord(at: nat) | BadRecord(at: nat, error: ValidationError)

  /** An element `Marker(**m)` accepts: a dictionary with acceptable fields. */
  predicate RecordOk(item: Json)
  {
    item.JObj? && FromFields(item.fields).Ok?
  }

  /** `[Marker(**m) for m in items]`: every element a dictionary the record
      accepts, converted in order; otherwise the first element that fails. */
  function LoadRecords(items: seq<Json>): (r: Result<seq<Marker>, LoadError>)
    ensures r.Ok? <==> forall i :: 0 <= i < |items| ==> RecordOk(items[i])
    ensures r.Ok? ==> |r.value| == |items| && AllValid(r.value)
    ensures r.Ok? ==> forall i :: 0 <= i < |items| ==> FromFields(items[i].fields) == Ok(r.value[i])
    ensures r.Err? ==>
      && (r.error.NotARecord? || r.error.BadRecord?)
      && r.error.at < |items| && !RecordOk(items[r.error.at])
      && (forall i :: 0 <= i < r.error.at ==> RecordOk(items[i]))
      && (r.error.NotARecord? <==> !items[r.error.at].JObj?)
      && (r.error.BadRecord? ==> FromFields(items[r.error.at].fields) == Err(r.error.error))
  {
    var n := CountWhile(items, (item: Json) => RecordOk(item));
    if n == |items| then
      Ok(seq(|items|, i requires 0 <= i < |items| && RecordOk(items[i]) => FromFields(items[i].fields).value))
    else if !items[n].JObj? then Err(NotARecord(n))
    else Err(BadRecord(n, FromFields(items[n].fields).error))
  }

  /** The list comprehension over whatever `json.load` produced. Iterating a
      dictionary yields its keys and iterating a string its characters,
      neither of which `**` accepts, so those load only when empty; other
      scalars cannot be iterated at all. */
  function LoadAll(v: Json): (r: Result<seq<Marker>, LoadError>)
    ensures v.JArr? ==> r == LoadRecords(v.items)
    ensures (v.JObj? && v.fields == map[]) || (v.JStr? && v.s == "") ==> r == Ok([])
    ensures (v.JObj? && v.fields != map[]) || (v.JStr? && v.s != "") ==> r == Err(NotARecord(0))
    ensures v.JNull? || v.JBool? || v.JNum? ==> r == Err(NotIterable)
    ensures r.Ok? ==> AllValid(r.value)
  {
    match v
    case JArr(items) => LoadRecords(items)
    case JObj(fields) => if fields == map[] then Ok([]) else Err(NotARecord(0))
    case JStr(s) => if s == "" then Ok([]) else Err(NotARecord(0))
    case _ => Err(NotIterable)
  }

  /** Reading back what was written gives the same markers in the same order. */
  lemma LoadAfterDump(ms: seq<Marker>)
    requires AllValid(ms)
    ensures LoadAll(DumpAll(ms)) == Ok(ms)
  {
    var items := DumpAll(ms).items;
    forall i | 0 <= i < |items|
      ensures items[i].JObj? && FromFields(items[i].fields) == Ok(ms[i])
    {
      FieldsRoundTrip(ms[i]);
    }
    var r := LoadRecords(items);
    assert r.Ok?;
    assert forall i :: 0 <= i < |ms| ==> Ok(r.value[i]) == FromFields(items[i].fields) == Ok(ms[i]);
    assert r.value == ms;
  }

  /** What `markers.json` holds for the service: no file, text that is not
      JSON, or a JSON value. */
  datatype Disk = NoFile | Garbled | Parsed(value: Json)

  /** How a write of `markers.json` ends: the whole dump is written; opening
      the file for writing raises, before anything is truncated; or the dump
      raises after `open("w")` has emptied the file, leaving it empty or
      half-written. */
  datatype WriteOutcome = Written | OpenFailed | DumpFailed

  class MarkerDisk {
    var contents: Disk

    constructor (initial: Disk)
      ensures contents == initial
    {
      contents := initial;
    }
  }

  /** The service's global state: the marker list and the file it is kept in. */
  class MarkerService {
    var markers: seq<Marker>
    const disk: MarkerDisk

    /** Every marker in the list was built by the record, so carries one
        of the two categories. */
    predicate Valid()
      reads this
    {
      AllValid(markers)
    }

    /** The module-level `markers = []`, before `load_markers` runs. */
    constructor (disk: MarkerDisk)
      ensures this.disk == disk && markers == []
      ensures Valid()
    {
      this.disk := disk;
      markers := [];
    }

    /** `save_markers`: the whole list replaces the file, or the write
        raises (`ok` false). A failed open leaves the file as it was; a
        failed dump leaves text that no longer reads as JSON. */
    method SaveMarkers(outcome: WriteOutcome) returns (ok: bool)
      modifies disk
      ensures ok <==> outcome.Written?
      ensures outcome.Written? ==> disk.contents == Parsed(DumpAll(markers))
      ensures outcome.OpenFailed? ==> disk.contents == old(disk.contents)
      ensures outcome.DumpFailed? ==> disk.contents == Garbled
    {
      match outcome {
        case Written =>
          disk.contents := Parsed(DumpAll(markers));
        case OpenFailed =>
        case DumpFailed =>
          disk.contents := Garbled;
      }
      ok := outcome.Written?;
    }

    /** `load_markers`, run at start-up: no file keeps the list as it is; a
        file is read back whole, or the read raises (`ok` false), which stops
        the service from starting, with the list untouched. */
    method LoadMarkers() returns (ok: bool)
      requires Valid()
      modifies this`markers
      ensures ok <==> disk.contents.NoFile? || (disk.contents.Parsed? && LoadAll(disk.contents.value).Ok?)
      ensures ok && disk.contents.Parsed? ==> markers == LoadAll(disk.contents.value).value
      ensures !(ok && disk.contents.Parsed?) ==> markers == old(markers)
      ensures Valid()
    {
      match disk.contents
      case NoFile =>
        ok := true;
      case Garbled =>
        ok := false;
      case Parsed(v) =>
        var loaded := LoadAll(v);
        ok := loaded.Ok?;
        if ok {
          markers := loaded.value;
        }
    }

    /** `/analyze/` for a photo taken at (`lat`, `lon`) at time `timestamp`.
        A failing outside call, or a position with no place, answers 500 and
        changes nothing. Otherwise one marker per label is appended in order;
        a label that is not a category raises at its turn, leaving the
        markers before it appended but the file unwritten, and answers 500;
        when every label is accepted the whole list is saved, even when
        nothing was detected; when that write succeeds the answer carries
        the detections and the city, and when it raises the answer is 500
        with the new markers kept in memory. */
    method Analyze(lat: real, lon: real, upstream: Result<Upstream, string>, timestamp: string, write: WriteOutcome)
      returns (response: Response)
      requires Valid()
      modifies this`markers, disk
      ensures upstream.Err? ==>
        response == ServerError(Raised(upstream.error)) && markers == old(markers) && disk.contents == old(disk.contents)
      ensures upstream.Ok? && upstream.value.place.None? ==>
        response == ServerError(NoPlace) && markers == old(markers) && disk.contents == old(disk.contents)
      ensures upstream.Ok? && upstream.value.place.Some? ==>
        var labels := upstream.value.labels;
        var city := CityOf(upstream.value.place.value);
        var n := ValidPrefix(labels);
        && markers == old(markers) + Batch(lat, lon, labels[..n], timestamp, city)
        && (n == |labels| && write.Written? ==> response == Analyzed(labels, city) && disk.contents == Parsed(DumpAll(markers)))
        && (n == |labels| && write.OpenFailed? ==> response == ServerError(SaveFailed) && disk.contents == old(disk.contents))
        && (n == |labels| && write.DumpFailed? ==> response == ServerError(SaveFailed) && disk.contents == Garbled)
        && (n < |labels| ==> response == ServerError(Invalid(ValidationError(["label"]))) && disk.contents == old(disk.contents))
      ensures Valid()
    {
      if upstream.Err? {
        return ServerError(Raised(upstream.error));
      }
      var labels := upstream.value.labels;
      if upstream.value.place.None? {
        return ServerError(NoPlace);
      }
      var city := CityOf(upstream.value.place.value);
      ghost var before := markers;
      var i := 0;
      while i < |labels|
        invariant 0 <= i <= |labels|
        invariant forall j :: 0 <= j < i ==> ValidLabel(labels[j])
        invariant markers == before + Batch(lat, lon, labels[..i], timestamp, city)
        invariant disk.contents == old(disk.contents)
        invariant Valid()
      {
        var made := New(lat, lon, labels[i], timestamp, city);
        if made.Err? {
          assert ValidPrefix(labels) == i;
          return ServerError(Invalid(made.error));
        }
        markers := markers + [made.value];
        assert labels[..i + 1] == labels[..i] + [labels[i]];
        i := i + 1;
      }
      assert labels[..i] == labels;
      assert ValidPrefix(labels) == i;
      var saved := SaveMarkers(write);
      response := if saved then Analyzed(labels, city) else ServerError(SaveFailed);
    }
  }

  /** A restarted service finds exactly the list the running one last
      saved. */
  method SaveThenRestart(service: MarkerService) returns (restarted: MarkerService, ok: bool)
    requires service.Valid()
    modifies service.disk
    ensures ok && restarted.markers == service.markers
  {
    var saved := service.SaveMarkers(Written);
    LoadAfterDump(service.markers);
    restarted := new MarkerService(service.disk);
    ok := restarted.LoadMarkers();
  }

  /** A save whose dump raised leaves a file the next start-up cannot read,
      so the service does not start and the markers in memory are lost. */
  method FailedSaveBlocksRestart(service: MarkerService) returns (restarted: MarkerService, ok: bool)
    modifies service.disk
    ensures !ok && restarted.markers == []
  {
    var saved := service.SaveMarkers(DumpFailed);
    restarted := new MarkerService(service.disk);
    ok := restarted.LoadMarkers();
  }

  /** The separator `generate_report` joins and splits on: the two
      characters backslash and `n` (the source writes `"\\n"`), not a line
      break. */
  const Sep: string := ['\\', 'n']

  /** `f"{m.timestamp} - {m.label.upper()} in {m.city}"`: the timestamp and
      " - ", then the label in capitals, then " in " and the city; its
      length is the three fields' plus seven. */
  function ReportLine(m: Marker): (line: string)
    ensures m.timestamp + " - " <= line
    ensures |line| == |m.timestamp| + |m.kind| + |m.city| + 7
    ensures line[|m.timestamp| + 3..|m.timestamp| + 3 + |m.kind|] == Upper(m.kind)
    ensures line[|m.timestamp| + 3 + |m.kind|..] == " in " + m.city
  {
    m.timestamp + " - " + Upper(m.kind) + " in " + m.city
  }

  /** One line per marker, in order. */
  function ReportLines(ms: seq<Marker>): (lines: seq<string>)
    ensures |lines| == |ms| && forall i :: 0 <= i < |ms| ==> lines[i] == ReportLine(ms[i])
  {
    seq(|ms|, i requires 0 <= i < |ms| => ReportLine(ms[i]))
  }

  /** `Sep.join(lines)`: no lines give the empty text, and the text starts
      with the first line. */
  function JoinLines(lines: seq<string>): (text: string)
    ensures lines == [] ==> text == ""
    ensures lines != [] ==> lines[0] <= text
  {
    if lines == [] then ""
    else if |lines| == 1 then lines[0]
    else lines[0] + Sep + JoinLines(lines[1..])
  }

  /** `s.find(Sep)`: the first position where the separator starts. */
  function FindSep(s: string): (r: Option<nat>)
    ensures r.Some? ==> r.value + 2 <= |s| && s[r.value] == '\\' && s[r.value + 1] == 'n'
    ensures r.Some? ==> forall j :: 0 <= j < r.value ==> !(s[j] == '\\' && s[j + 1] == 'n')
    ensures r.None? ==> forall j :: 0 <= j < |s| - 1 ==> !(s[j] == '\\' && s[j + 1] == 'n')
  {
    if |s| < 2 then None
    else if s[0] == '\\' && s[1] == 'n' then Some(0)
    else
      match FindSep(s[1..])
      case None => None
      case Some(k) => Some(k + 1)
  }

  /** `s.split(Sep)`: the pieces between separators, always at least one. */
  function SplitLines(s: string): (pieces: seq<string>)
    ensures |pieces| >= 1
    decreases |s|
  {
    match FindSep(s)
    case None => [s]
    case Some(i) => [s[..i]] + SplitLines(s[i + 2..])
  }

  predicate NoBackslash(s: string)
  {
    forall i :: 0 <= i < |s| ==> s[i] != '\\'
  }

  /** In a text that starts with a piece free of backslashes, the first
      separator is the one right after that piece. */
  lemma FindSepAfter(a: string, t: string)
    requires NoBackslash(a)
    ensures FindSep(a + Sep + t) == Some(|a|)
  {
    var s := a + Sep + t;
    assert s[|a|] == '\\' && s[|a| + 1] == 'n';
    assert forall j :: 0 <= j < |a| ==> s[j] == a[j];
  }

  /** Splitting the joined lines gives the lines back, as long as there is
      at least one and none contains a backslash. */
  lemma {:induction false} SplitJoin(lines: seq<string>)
    requires |lines| >= 1
    requires forall i :: 0 <= i < |lines| ==> NoBackslash(lines[i])
    ensures SplitLines(JoinLines(lines)) == lines
  {
    if |lines| == 1 {
      assert NoBackslash(lines[0]);
    } else {
      var rest := lines[1..];
      assert forall i :: 0 <= i < |rest| ==> rest[i] == lines[i + 1];
      SplitJoin(rest);
      var s := lines[0] + Sep + JoinLines(rest);
      FindSepAfter(lines[0], JoinLines(rest));
      assert s[..|lines[0]|] == lines[0];
      assert s[|lines[0]| + 2..] == JoinLines(rest);
      assert lines == [lines[0]] + rest;
    }
  }

  /** A report line has no backslash when the marker's fields have none. */
  lemma ReportLineNoBackslash(m: Marker)
    requires NoBackslash(m.timestamp) && NoBackslash(m.kind) && NoBackslash(m.city)
    ensures NoBackslash(ReportLine(m))
  {
  }

  /** The lines handed to the PDF, one cell each: the report text split on
      the separator. */
  function ReportCells(ms: seq<Marker>): (cells: seq<string>)
    ensures |cells| >= 1
  {
    SplitLines(JoinLines(ReportLines(ms)))
  }

  /** An empty request gives a single empty line; otherwise, when no field
      holds a backslash, the report has exactly one line per marker, in the
      request's order. */
  lemma ReportHasOneLinePerMarker(ms: seq<Marker>)
    ensures ms == [] ==> ReportCells(ms) == [""]
    ensures ms != [] && (forall i :: 0 <= i < |ms| ==>
      NoBackslash(ms[i].timestamp) && NoBackslash(ms[i].kind) && NoBackslash(ms[i].city)) ==>
      ReportCells(ms) == ReportLines(ms)
  {
    var lines := ReportLines(ms);
    if ms != [] && (forall i :: 0 <= i < |ms| ==>
      NoBackslash(ms[i].timestamp) && NoBackslash(ms[i].kind) && NoBackslash(ms[i].city)) {
      forall i | 0 <= i < |lines| ensures NoBackslash(lines[i]) {
        ReportLineNoBackslash(ms[i]);
      }
      SplitJoin(lines);
    }
  }
}
