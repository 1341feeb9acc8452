/** The capture screen (frontend/screens/CameraScreen.tsx): it holds the
    marker list read from `markers.json`, sends a photo for detection, and
    publishes the confirmed problem by appending one record and rewriting
    the whole file. */
module CameraScreen {
  import opened Common
  import opened MarkerStore

  datatype Facing = Back | Front

  /** The camera the shutter uses after the flip button. */
  function Toggled(f: Facing): (r: Facing)
    ensures r != f
  {
    if f == Back then Front else Back
  }

  lemma ToggleTwiceIsIdentity(f: Facing)
    ensures Toggled(Toggled(f)) == f
  {
  }

  /** A location fix: the `coords` of `Location.getCurrentPositionAsync`. */
  datatype Coords = Coords(latitude: real, longitude: real)

  /** What the screen learns from `POST /analyze/`: the request or the
      decoding of its JSON body threw, or a reply with its HTTP status flag
      and the labels of `data.detections` in order (no field: none). */
  datatype AnalyzeReply = Failed | Answered(httpOk: bool, detections: seq<string>)

  /** What the gallery picker returns: cancelled, or the picked assets' uris. */
  datatype PickerResult = Canceled | Picked(assets: seq<string>)

  /** A reply the screen accepts: a success status and at least one detection. */
  predicate Detected(reply: AnalyzeReply)
  {
    reply.Answered? && reply.httpOk && |reply.detections| > 0
  }

  /** The marker list the screen starts from. `None` stands for a parsed
      value that is not a list, which the screen nevertheless stores. */
  function InitialMarkers(stored: Stored): (r: Option<seq<Marker>>)
    ensures stored.ArrayOf? ==> r == Some(stored.items)
    ensures stored.Unreadable? || stored.Malformed? ==> r == Some([])
    ensures r.None? <==> stored.NonArray?
  {
    match stored
    case ArrayOf(items) => Some(items)
    case NonArray => None
    case _ => Some([])
  }

  /** The record `publishMarker` builds: the stored fix, the edited label and
      the current time as an ISO string; no city. */
  function NewMarker(fix: Coords, kind: string, now: string): (m: Marker)
    ensures m.lat == fix.latitude && m.lon == fix.longitude
    ensures m.kind == kind && m.timestamp == now && m.city.None?
  {
    Marker(fix.latitude, fix.longitude, kind, now, None)
  }

  /** `saveLocalMarkers`: the whole list replaces the file's contents; a
      failed write leaves the file as it was. */
  method SaveLocalMarkers(file: MarkerFile, list: seq<Marker>, writeOk: bool)
    modifies file
    ensures file.contents == if writeOk then ArrayOf(list) else old(file.contents)
  {
    if writeOk {
      file.contents := ArrayOf(list);
    }
  }

  class CaptureScreen {
    var markers: Option<seq<Marker>>
    var uri: Option<string>
    var facing: Facing
    var loading: bool
    var detectionLabel: string
    var location: Option<Coords>
    const file: MarkerFile

    /** The component's initial state, before the mount effect runs. */
    constructor (file: MarkerFile)
      ensures this.file == file
      ensures markers == Some([]) && uri.None? && facing == Back
      ensures !loading && detectionLabel == "" && location.None?
    {
      this.file := file;
      markers := Some([]);
      uri := None;
      facing := Back;
      loading := false;
      detectionLabel := "";
      location := None;
    }

    /** The mount effect: the parsed file, or `[]` when reading or parsing fails. */
    method LoadMarkers()
      modifies this`markers
      ensures markers == InitialMarkers(file.contents)
    {
      match file.contents
      case ArrayOf(items) =>
        markers := Some(items);
      case NonArray =>
        markers := None;
      case _ =>
        markers := Some([]);
    }

    /** The part `takePicture` and `uploadFromGallery` share once they have an
        image: show it, fetch a location fix (a failed fix stops the handler
        with the spinner still on), then keep the first detected label, or
        drop the image when nothing was detected or the request failed. */
    method Analyze(photoUri: string, fix: Option<Coords>, reply: AnalyzeReply)
      modifies this`uri, this`loading, this`location, this`detectionLabel
      ensures loading == fix.None?
      ensures uri == if fix.Some? && !Detected(reply) then None else Some(photoUri)
      ensures location == if fix.Some? then fix else old(location)
      ensures detectionLabel == if fix.Some? && Detected(reply) then reply.detections[0] else old(detectionLabel)
      ensures markers == old(markers) && file.contents == old(file.contents)
    {
      uri := Some(photoUri);
      loading := true;
      if fix.None? {
        return;
      }
      location := fix;
      match reply
      case Failed =>
        loading := false;
        uri := None;
      case Answered(httpOk, detections) =>
        loading := false;
        if httpOk && |detections| > 0 {
          detectionLabel := detections[0];
        } else {
          uri := None;
        }
    }

    /** `takePicture`: a capture without a uri does nothing. */
    method TakePicture(photo: Option<string>, fix: Option<Coords>, reply: AnalyzeReply)
      modifies this`uri, this`loading, this`location, this`detectionLabel
      ensures photo.None? || photo.value == "" ==>
        uri == old(uri) && loading == old(loading) && location == old(location) && detectionLabel == old(detectionLabel)
      ensures photo.Some? && photo.value != "" ==>
        && loading == fix.None?
        && uri == (if fix.Some? && !Detected(reply) then None else photo)
        && location == (if fix.Some? then fix else old(location))
        && detectionLabel == (if fix.Some? && Detected(reply) then reply.detections[0] else old(detectionLabel))
      ensures markers == old(markers) && file.contents == old(file.contents)
    {
      if photo.None? || photo.value == "" {
        return;
      }
      Analyze(photo.value, fix, reply);
    }

    /** `uploadFromGallery`: a cancelled or empty pick does nothing; otherwise
        the first asset goes through the same detection steps. */
    method UploadFromGallery(result: PickerResult, fix: Option<Coords>, reply: AnalyzeReply)
      modifies this`uri, this`loading, this`location, this`detectionLabel
      ensures result.Canceled? || |result.assets| == 0 ==>
        uri == old(uri) && loading == old(loading) && location == old(location) && detectionLabel == old(detectionLabel)
      ensures result.Picked? && |result.assets| > 0 ==>
        && loading == fix.None?
        && uri == (if fix.Some? && !Detected(reply) then None else Some(result.assets[0]))
        && location == (if fix.Some? then fix else old(location))
        && detectionLabel == (if fix.Some? && Detected(reply) then reply.detections[0] else old(detectionLabel))
      ensures markers == old(markers) && file.contents == old(file.contents)
    {
      if result.Canceled? || |result.assets| == 0 {
        return;
      }
      Analyze(result.assets[0], fix, reply);
    }

    /** `publishMarker`: append one record to the list, make the extended list
        the screen's state, write that same list to the file, and clear the
        capture. Without a fix, or with a stored value that is not a list,
        building the record throws and nothing changes; when the write fails
        the list is already replaced but the capture is not cleared. */
    method PublishMarker(now: string, writeOk: bool) returns (appended: bool)
      modifies this`markers, this`uri, this`detectionLabel, file
      ensures appended <==> old(location).Some? && old(markers).Some?
      ensures appended ==>
        && markers == Some(old(markers).value + [NewMarker(old(location).value, old(detectionLabel), now)])
        && file.contents == (if writeOk then ArrayOf(markers.value) else old(file.contents))
        && uri == (if writeOk then None else old(uri))
        && detectionLabel == (if writeOk then "" else old(detectionLabel))
      ensures !appended ==>
        markers == old(markers) && uri == old(uri) && detectionLabel == old(detectionLabel) && file.contents == old(file.contents)
    {
      if location.None? || markers.None? {
        return false;
      }
      var updated := markers.value + [NewMarker(location.value, detectionLabel, now)];
      markers := Some(updated);
      SaveLocalMarkers(file, updated, writeOk);
      appended := true;
      if writeOk {
        uri := None;
        detectionLabel := "";
      }
    }

    method ToggleFacing()
      modifies this`facing
      ensures facing == Toggled(old(facing))
    {
      facing := Toggled(facing);
    }
  }

  /** Publishing and then opening the capture screen again: the new screen
      starts from exactly the list the first one holds, the published record
      last and every earlier record unchanged before it. */
  method PublishThenReopen(screen: CaptureScreen, now: string) returns (reopened: CaptureScreen)
    requires screen.location.Some? && screen.markers.Some?
    modifies screen, screen.file
    ensures reopened.markers == screen.markers && reopened.markers.Some?
    ensures |reopened.markers.value| == |old(screen.markers.value)| + 1
    ensures reopened.markers.value[..|old(screen.markers.value)|] == old(screen.markers.value)
    ensures reopened.markers.value[|old(screen.markers.value)|] == NewMarker(old(screen.location.value), old(screen.detectionLabel), now)
  {
    var appended := screen.PublishMarker(now, true);
    reopened := new CaptureScreen(screen.file);
    reopened.LoadMarkers();
  }
}
