/** The map screen (frontend/screens/HomeScreen.js): the last settled map
    region, kept in key-value storage under `last_map_region`, the marker
    list reloaded from `markers.json` whenever the screen gains focus, and
    the label search over those markers. */
module HomeScreen {
  import opened Common
  import opened Text
  import opened MarkerStore
  import CameraScreen

  /** A map viewport: its centre and its span in degrees. */
  datatype Region = Region(latitude: real, longitude: real, latitudeDelta: real, longitudeDelta: real)

  /** What `AsyncStorage.getItem(REGION_KEY)` and `JSON.parse` yield: nothing
      stored (or an empty string), a read or parse failure, or a parsed
      value: a region, or `None` for a stored `null`. */
  datatype RegionEntry = Absent | Unusable | Saved(region: Option<Region>)

  class RegionStore {
    var entry: RegionEntry

    constructor (initial: RegionEntry)
      ensures entry == initial
    {
      entry := initial;
    }
  }

  /** The span `fetchUserLocation` and the location button use. */
  const FixSpan: real := 0.5

  /** The viewport centred on a location fix. */
  function RegionAround(fix: CameraScreen.Coords): (r: Region)
    ensures r.latitude == fix.latitude && r.longitude == fix.longitude
    ensures r.latitudeDelta == FixSpan && r.longitudeDelta == FixSpan
  {
    Region(fix.latitude, fix.longitude, FixSpan, FixSpan)
  }

  /** The search test: the lower-cased label contains the lower-cased
      query, so a query longer than the label never matches. */
  predicate MatchesSearch(m: Marker, query: string)
    ensures MatchesSearch(m, query) ==> |query| <= |m.kind|
  {
    Contains(Lower(m.kind), Lower(query))
  }

  /** The search ignores case: capitalising the label and the query does
      not change whether a marker matches. */
  lemma SearchIgnoresCase(m: Marker, query: string)
    ensures MatchesSearch(m.(kind := Upper(m.kind)), Upper(query)) <==> MatchesSearch(m, query)
  {
    LowerAfterUpper(m.kind);
    LowerAfterUpper(query);
  }

  function SearchPred(query: string): Marker -> bool
  {
    m => MatchesSearch(m, query)
  }

  lemma EmptyQueryMatchesAll()
    ensures forall m :: MatchesSearch(m, "")
  {
    forall m: Marker ensures MatchesSearch(m, "") {
      assert "" <= Lower(m.kind)[0..];
    }
  }

  /** `filteredMarkers`: exactly the markers the search matches, every copy
      of each, in their order in the list; the empty query keeps every
      marker. */
  function FilteredMarkers(markers: seq<Marker>, query: string): (r: seq<Marker>)
    ensures forall i :: 0 <= i < |r| ==> MatchesSearch(r[i], query) && r[i] in markers
    ensures forall i :: 0 <= i < |markers| && MatchesSearch(markers[i], query) ==> markers[i] in r
    ensures forall m :: multiset(r)[m] == if MatchesSearch(m, query) then multiset(markers)[m] else 0
    ensures Subseq(r, markers)
    ensures query == "" ==> r == markers
  {
    KeepIsSubseq(markers, SearchPred(query));
    KeepCounts(markers, SearchPred(query));
    assert query == "" ==> Keep(markers, SearchPred(query)) == markers by {
      if query == "" {
        EmptyQueryMatchesAll();
        KeepAll(markers, SearchPred(query));
      }
    }
    Keep(markers, SearchPred(query))
  }

  /** Searching the search result again changes nothing. */
  lemma {:induction false} SearchIdempotent(markers: seq<Marker>, query: string)
    ensures FilteredMarkers(FilteredMarkers(markers, query), query) == FilteredMarkers(markers, query)
  {
    KeepIdempotent(markers, SearchPred(query));
  }

  /** `getColorForLabel`: the two known categories get their own colours,
      every other label the grey default. */
  function ColorForLabel(kind: string): (color: string)
    ensures color == "#FF6B6B" <==> kind == "graffiti"
    ensures color == "#4ECDC4" <==> kind == "pothole"
    ensures color == "#999" <==> kind != "graffiti" && kind != "pothole"
  {
    match kind
    case "graffiti" => "#FF6B6B"
    case "pothole" => "#4ECDC4"
    case _ => "#999"
  }

  /** The reload rule of `fetchMarkers` (lines 91-101): a parsed array
      replaces the markers, a parsed non-array leaves them, a read or parse
      error empties them. */
  function ReloadMarkers(current: seq<Marker>, stored: Stored): (r: seq<Marker>)
    ensures stored.ArrayOf? ==> r == stored.items
    ensures stored.NonArray? ==> r == current
    ensures stored.Unreadable? || stored.Malformed? ==> r == []
  {
    match stored
    case ArrayOf(items) => items
    case NonArray => current
    case _ => []
  }

  /** `fetchMarkers` as written: its first statement calls `setLoading`,
      which the component never declares, so the call throws before the
      file is read and the markers stay what they were. */
  function ReloadMarkersAsWritten(current: seq<Marker>, stored: Stored): (r: seq<Marker>)
    ensures r == current
  {
    current
  }

  /** The screen starts with no markers, so as written a file holding a
      published marker never reaches the map, where the intended rule shows it. */
  lemma FetchMarkersNeverLoads(m: Marker)
    ensures ReloadMarkersAsWritten([], ArrayOf([m])) == []
    ensures ReloadMarkers([], ArrayOf([m])) == [m]
  {
  }

  class MapScreen {
    var region: Option<Region>
    var markers: seq<Marker>
    var searchQuery: string
    const store: RegionStore
    const file: MarkerFile

    constructor (store: RegionStore, file: MarkerFile)
      ensures this.store == store && this.file == file
      ensures region.None? && markers == [] && searchQuery == ""
    {
      this.store := store;
      this.file := file;
      region := None;
      markers := [];
      searchQuery := "";
    }

    /** `saveRegion`: overwrite the stored region; a failed write is logged
        and leaves the entry as it was. */
    method SaveRegion(r: Region, writeOk: bool)
      modifies store
      ensures store.entry == if writeOk then Saved(Some(r)) else old(store.entry)
    {
      if writeOk {
        store.entry := Saved(Some(r));
      }
    }

    /** `loadSavedRegion`: reports whether a stored value was found and
        parsed, and shows it when it was (a stored `null` included). */
    method LoadSavedRegion() returns (found: bool)
      modifies this`region
      ensures found <==> store.entry.Saved?
      ensures region == if found then store.entry.region else old(region)
    {
      found := false;
      if store.entry.Saved? {
        region := store.entry.region;
        found := true;
      }
    }

    /** `fetchUserLocation`: centre on a fix with both spans 0.5 and save that
        same region; a failed fix is logged and changes nothing. */
    method FetchUserLocation(fix: Option<CameraScreen.Coords>, writeOk: bool)
      modifies this`region, store
      ensures fix.None? ==> region == old(region) && store.entry == old(store.entry)
      ensures fix.Some? ==>
        && region == Some(RegionAround(fix.value))
        && store.entry == (if writeOk then Saved(Some(RegionAround(fix.value))) else old(store.entry))
    {
      if fix.Some? {
        var newRegion := RegionAround(fix.value);
        region := Some(newRegion);
        SaveRegion(newRegion, writeOk);
      }
    }

    /** The mount effect: without location permission nothing happens; with
        it the saved region is shown, and only when none is found is a live
        fix requested. */
    method Startup(granted: bool, fix: Option<CameraScreen.Coords>, writeOk: bool) returns (requestedFix: bool)
      modifies this`region, store
      ensures requestedFix <==> granted && !old(store.entry).Saved?
      ensures !granted ==> region == old(region) && store.entry == old(store.entry)
      ensures granted && old(store.entry).Saved? ==>
        region == old(store.entry).region && store.entry == old(store.entry)
      ensures requestedFix && fix.None? ==> region == old(region) && store.entry == old(store.entry)
      ensures requestedFix && fix.Some? ==>
        && region == Some(RegionAround(fix.value))
        && store.entry == (if writeOk then Saved(Some(RegionAround(fix.value))) else old(store.entry))
    {
      requestedFix := false;
      if !granted {
        return;
      }
      var found := LoadSavedRegion();
      if !found {
        requestedFix := true;
        FetchUserLocation(fix, writeOk);
      }
    }

    /** `fetchMarkers`, run on every focus, with the rule of lines 91-101. */
    method FetchMarkers()
      modifies this`markers
      ensures markers == ReloadMarkers(old(markers), file.contents)
    {
      match file.contents
      case ArrayOf(items) =>
        markers := items;
      case NonArray =>
      case _ =>
        markers := [];
    }

    /** `onRegionChangeComplete`: the settled region is both shown and saved. */
    method OnRegionChangeComplete(r: Region, writeOk: bool)
      modifies this`region, store
      ensures region == Some(r)
      ensures store.entry == if writeOk then Saved(Some(r)) else old(store.entry)
    {
      region := Some(r);
      SaveRegion(r, writeOk);
    }

    /** The markers drawn on the map. */
    function Visible(): (r: seq<Marker>)
      reads this
      ensures Subseq(r, markers)
      ensures searchQuery == "" ==> r == markers
    {
      FilteredMarkers(markers, searchQuery)
    }
  }

  /** A region settled on in one visit is the region the next visit's
      startup shows, and no location fix is requested then. */
  method SettleThenRestart(screen: MapScreen, r: Region, file: MarkerFile) returns (next: MapScreen, requestedFix: bool)
    modifies screen, screen.store
    ensures next.region == Some(r) && !requestedFix
  {
    screen.OnRegionChangeComplete(r, true);
    next := new MapScreen(screen.store, file);
    requestedFix := next.Startup(true, None, true);
  }
}
