/** The device-local marker store: the file `markers.json` in the app's
    document directory, which the camera screen rewrites whole and the map
    and list screens read. */
module MarkerStore {
  import opened Common

  /** One reported problem as the frontend keeps it. Records the camera
      screen writes carry no `city`; the list screen adds one after
      reverse geocoding. The record's `label` field is called `kind` here
      (`label` is a Dafny keyword). */
  datatype Marker = Marker(lat: real, lon: real, kind: string, timestamp: string, city: Option<string>)

  /** What reading `markers.json` and passing its text to `JSON.parse`
      yields: the read fails (no file yet), the text is not JSON, the JSON is
      not an array, or an array of marker records. */
  datatype Stored = Unreadable | Malformed | NonArray | ArrayOf(items: seq<Marker>)

  /** The file itself. Writing a list and parsing it back gives the same
      list, so the contents are kept as the parse outcome. */
  class MarkerFile {
    var contents: Stored

    constructor (initial: Stored)
      ensures contents == initial
    {
      contents := initial;
    }
  }
}
