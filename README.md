# CityWatcher marker store, in Dafny

CityWatcher is a reporting app for urban problems such as graffiti and potholes. A phone takes a photo, and the backend detects the problems in it. The confirmed problem becomes a **marker**: a position, a category label and a timestamp. Markers are kept in a `markers.json` list. Several screens read that list, and the backend keeps a list of its own.

This project models that list logic and proves properties of it:

- **Capture screen** (`CameraScreen`). It loads the list at start, falling back to `[]`. Detection outcomes decide whether a captured image is kept and which label it gets. `publishMarker` appends exactly one record, rewrites the whole file with that same list, and clears the capture. The camera flip is also modelled.
- **Map screen** (`HomeScreen`):
  - the case-insensitive label search;
  - the label-to-colour table;
  - the saved map region, with the live location fix as fallback;
  - the marker reload, which accepts only an array.
- **List screens**:
  - `ProblemList`:
    - the city-name fallback of reverse geocoding;
    - the order-preserving city enrichment;
    - the distinct city chips;
    - the city filter;
    - the "Total" and "Today" figures. "Today" compares ISO timestamp strings. `LexOrder` proves that for same-format timestamps this comparison is chronological.
  - `OldProblemList`: the combined city/type text filter and the age filter. Both always restart from the full list.
- **Backend** (`BackendMain`, `BackendMarker`):
  - the pydantic `Marker` record and its two allowed labels;
  - the global marker list and its save/load round trip;
  - the `/analyze/` loop, which appends one marker per detection;
  - the `city` → `town` → `village` → `"Unknown"` fallback;
  - the report lines of `/generate_report/`.
- **Pin helpers** (`MapUtils`): the queries by type and by user, the type-config lookup, and new-pin construction with defaults.

Stateful code is modelled as classes with `modifies` frames:
- the React components' state;
- the device file;
- the key-value store;
- the backend's global list and its file.

Pure views are functions with contracts, and the lemmas relate them.

Outside calls become parameters:
- the geocoders, the location fix, the detector, the HTTP reply and the clock;
- JavaScript's `new Date(...)` parser, as a `TimeParser`.

JSON text is modelled by its parse outcome: no file, not JSON, not an array, or an array of records.

Files:
- `common.dfy`: `Option`/`Result`, the order-preserving filter `Keep`, `Dedup`, `Subseq`, truthiness and `FirstTruthy`, ASCII case maps, substring search, decimal numerals, and JavaScript string order.
- `json.dfy`: JSON values.
- `marker_store.dfy`: the frontend marker and the `markers.json` file.
- One file per source file: `camera_screen.dfy`, `home_screen.dfy`, `problem_list.dfy`, `old_problem_list.dfy`, `backend_marker.dfy`, `backend_main.dfy`, `map_utils.dfy`.

## Model

| member | source | states |
|---|---|---|
| Common.FirstTruthy | backend/main.py:46-49 | the value of an `a or b or ... or fallback` chain: the first truthy option, else the fallback |
| Common.Dedup | frontend/screens/ProblemList.tsx:109-110 | `Array.from(new Set(s))`: no element twice, and the same elements as the input, both ways; the order is stated by `DedupKeepsFirstOrder` |
| Common.DedupKeepsFirstOrder | frontend/screens/ProblemList.tsx:109-110 | a `Set` keeps insertion order: the values come in the order of their first occurrences in the input |
| Common.Keep | frontend/screens/HomeScreen.js:125-127 | `Array.prototype.filter`: every kept element satisfies the predicate and comes from the input, every satisfying element is kept, and the result is no longer than the input |
| Common.KeepCounts | frontend/screens/HomeScreen.js:125-127 | `Array.prototype.filter` keeps every copy of a selected value and no copy of any other: each value's multiplicity in the result is its multiplicity in the input, or zero |
| Common.KeepSize | frontend/screens/ProblemList.tsx:158 | the `.length` of a filtered array is the number of positions whose element the predicate selects |
| LexOrder.LexLess | frontend/screens/ProblemList.tsx:158 | JavaScript's string `<`: a proper prefix always comes first, and no string comes before itself; `LexIsNumericOnTemplate` relates it to time order |
| Text.Lower | frontend/screens/HomeScreen.js:126 | `toLowerCase()` on ASCII: same length, each capital becomes its own small letter (code + 32), no capital is left, and every other character is unchanged |
| Text.Upper | backend/main.py:88 | `upper()` on ASCII: same length, each small letter becomes its own capital (code - 32), no small letter is left, and every other character is unchanged |
| Text.LowerAfterUpper | frontend/screens/HomeScreen.js:126 | lower-casing after upper-casing gives the same string as lower-casing alone, which is what makes the lower-cased comparisons case-insensitive |
| Text.Contains | frontend/screens/HomeScreen.js:126 | `includes`: the empty string is contained in every string, and a contained string is no longer than the one containing it |
| Text.Decimal | frontend/utils/mapUtils.js:23 | `String(n)`: at least one digit, all digits, and no leading zero except in "0" |
| Text.DecimalValue | frontend/utils/mapUtils.js:23 | the decimal numeral `String(n)` reads back as `n` |
| LexOrder.LexIsNumericOnTemplate | frontend/screens/ProblemList.tsx:158 | for two strings written in one digit template, JavaScript's string `<` agrees with the numeric order of their digits |
| CameraScreen.Toggled | frontend/screens/CameraScreen.tsx:168-170 | the flip always yields the other camera |
| CameraScreen.ToggleTwiceIsIdentity | frontend/screens/CameraScreen.tsx:168-170 | flipping twice gives the original camera back |
| CameraScreen.InitialMarkers | frontend/screens/CameraScreen.tsx:43-52 | the starting list is the parsed file; a read or parse failure gives `[]`; a parsed non-array is stored as is (`None`) |
| CameraScreen.NewMarker | frontend/screens/CameraScreen.tsx:155-160 | the new record carries the stored fix's coordinates, the current label and the current ISO time, and no city |
| CameraScreen.SaveLocalMarkers | frontend/screens/CameraScreen.tsx:28-30 | the file's contents become exactly the given list, or stay as they were when the write fails |
| CameraScreen.CaptureScreen.constructor | frontend/screens/CameraScreen.tsx:35-40 | initial component state: empty list, no image, back camera, no spinner, empty label, no fix |
| CameraScreen.CaptureScreen.LoadMarkers | frontend/screens/CameraScreen.tsx:43-52 | the mount effect sets the list to `InitialMarkers` of the file |
| CameraScreen.CaptureScreen.Analyze | frontend/screens/CameraScreen.tsx:71-105 | without a fix the spinner stays on; a success reply with detections keeps the image and takes the first label; a failed, non-ok or empty reply drops the image and ends loading; the marker list and the file never change |
| CameraScreen.CaptureScreen.TakePicture | frontend/screens/CameraScreen.tsx:67-106 | a capture without a uri changes nothing; otherwise the detection steps above apply to it |
| CameraScreen.CaptureScreen.UploadFromGallery | frontend/screens/CameraScreen.tsx:108-152 | a cancelled or empty pick changes nothing; otherwise the first asset goes through the same steps |
| CameraScreen.CaptureScreen.PublishMarker | frontend/screens/CameraScreen.tsx:154-166 | it appends exactly when a fix exists and the list is an array. The new list is the old one plus the new record, and the file receives that same list. `uri` and the label are cleared after a successful write. Otherwise nothing changes |
| CameraScreen.CaptureScreen.ToggleFacing | frontend/screens/CameraScreen.tsx:168-170 | the facing becomes the other camera |
| CameraScreen.PublishThenReopen | frontend/screens/CameraScreen.tsx:154-166 | a screen opened after publishing loads n+1 records: the old n unchanged, then the new one |
| HomeScreen.RegionAround | frontend/screens/HomeScreen.js:59-64 | the region centred on the fix with both spans 0.5 |
| HomeScreen.EmptyQueryMatchesAll | frontend/screens/HomeScreen.js:125-127 | every label contains the empty query |
| HomeScreen.MatchesSearch | frontend/screens/HomeScreen.js:126 | the per-marker search test: a match needs a query no longer than the label |
| HomeScreen.SearchIgnoresCase | frontend/screens/HomeScreen.js:126 | the search is case-insensitive: a capitalised label and a capitalised query match exactly when the originals do |
| HomeScreen.FilteredMarkers | frontend/screens/HomeScreen.js:125-127 | the result holds exactly the markers whose lower-cased label contains the lower-cased query, both directions, with every copy of a matching marker kept and none of any other, as an order-preserving subsequence; the empty query keeps all |
| HomeScreen.SearchIdempotent | frontend/screens/HomeScreen.js:125-127 | searching the search result again changes nothing |
| HomeScreen.ColorForLabel | frontend/screens/HomeScreen.js:114-123 | `#FF6B6B` iff graffiti, `#4ECDC4` iff pothole, `#999` iff any other label |
| HomeScreen.ReloadMarkers | frontend/screens/HomeScreen.js:91-101 | a parsed array replaces the markers, a parsed non-array leaves them, and a read or parse error empties them |
| HomeScreen.ReloadMarkersAsWritten | frontend/screens/HomeScreen.js:89-90 | as written, the reload leaves the markers exactly as they were, whatever the file holds |
| HomeScreen.FetchMarkersNeverLoads | frontend/screens/HomeScreen.js:89-102 | from the initial empty list, the written code shows no marker of a file holding one, where the intended rule shows it |
| HomeScreen.MapScreen.constructor | frontend/screens/HomeScreen.js:29-32 | no region, no markers, empty search |
| HomeScreen.MapScreen.SaveRegion | frontend/screens/HomeScreen.js:34-40 | the stored entry becomes the region, or stays when the write fails |
| HomeScreen.MapScreen.LoadSavedRegion | frontend/screens/HomeScreen.js:42-54 | returns true iff a stored value is present and parses; it then shows that value, and otherwise the region is unchanged |
| HomeScreen.MapScreen.FetchUserLocation | frontend/screens/HomeScreen.js:56-70 | a fix sets the region around it and saves that same region; a failed fix changes nothing |
| HomeScreen.MapScreen.Startup | frontend/screens/HomeScreen.js:72-85 | a live fix is requested iff permission is granted and no saved region is found; the saved region wins when present |
| HomeScreen.MapScreen.FetchMarkers | frontend/screens/HomeScreen.js:91-101 | the markers become `ReloadMarkers` of the old markers and the file |
| HomeScreen.MapScreen.OnRegionChangeComplete | frontend/screens/HomeScreen.js:157-160 | the settled region is both the shown region and the stored one |
| HomeScreen.MapScreen.Visible | frontend/screens/HomeScreen.js:125-127 | the drawn markers are a subsequence of the list; with no search, all of them |
| HomeScreen.SettleThenRestart | frontend/screens/HomeScreen.js:157-160 | a region settled on is what the next startup shows, with no fix requested |
| ProblemList.CityName | frontend/screens/ProblemList.tsx:77-91 | the first address's city, else its subregion, else "Unknown location"; an empty or failed lookup gives "Unknown location"; never empty |
| ProblemList.WithCity | frontend/screens/ProblemList.tsx:100-103 | the spread copy differs from the problem only in `city`, which becomes a non-empty name |
| ProblemList.Enrich | frontend/screens/ProblemList.tsx:99-104 | same length and order; each record differs from its original only in `city`, which is the geocoded name |
| ProblemList.UniqueCities | frontend/screens/ProblemList.tsx:109-111 | no duplicates, no empty entry, each entry the city of a loaded problem, and every non-empty city listed |
| ProblemList.DedupKeepStaysDistinct | frontend/screens/ProblemList.tsx:109-111 | filtering a duplicate-free list keeps it duplicate-free |
| ProblemList.FilteredProblems | frontend/screens/ProblemList.tsx:131-133 | no (or empty) selection gives every problem; a selection gives exactly the problems of that city, both directions, every copy of each, order kept, so "Total" is the number of that city's problems |
| ProblemList.TodayCount | frontend/screens/ProblemList.tsx:158 | "Today" is the number of positions in view whose timestamp string is greater than the cutoff; it never exceeds "Total", equals it when every timestamp is after the cutoff, and is 0 when none is |
| ProblemList.CutoffItselfNotRecent | frontend/screens/ProblemList.tsx:158 | the comparison is strict: a problem stamped exactly at the cutoff is not counted |
| ProblemList.TodayShrinksAsCutoffGrows | frontend/screens/ProblemList.tsx:158 | a later cutoff never counts more problems than an earlier one |
| ProblemList.RecentIsChronological | frontend/screens/ProblemList.tsx:158 | for ISO timestamps in the cutoff's format, "after the cutoff" as a string means later in time |
| ProblemList.ListScreen.constructor | frontend/screens/ProblemList.tsx:71-75 | no problems, no chips, loading, no city selected |
| ProblemList.ListScreen.LoadProblems | frontend/screens/ProblemList.tsx:93-119 | a parsed array becomes the enriched list, and its distinct cities become the chips. Any failure empties the list and keeps the chips. Loading always ends |
| ProblemList.ListScreen.SelectCity | frontend/screens/ProblemList.tsx:172-186 | a chip press sets the selection (`None` for "All Cities") |
| ProblemList.ListScreen.View | frontend/screens/ProblemList.tsx:131-133 | the list shown (its length is "Total") is a subsequence of the problems |
| ProblemList.EveryChipSelectsSomething | frontend/screens/ProblemList.tsx:109-133 | for any problem list, choosing any of its chips shows at least one problem |
| OldProblemList.AgeInMillis | frontend/screens/OldProblemList.js:53-54 | age in days ≤ d iff age in milliseconds ≤ d·86400000 |
| OldProblemList.AgeInDays | frontend/screens/OldProblemList.js:52-53 | the fractional age: that many days' worth of milliseconds is the time elapsed, and it is non-negative iff the record is not from the future |
| OldProblemList.AgeMatches | frontend/screens/OldProblemList.js:52-54 | a record whose timestamp does not parse passes neither test; otherwise "newer" passes iff the age is at most `days` and "older" iff it is more |
| OldProblemList.ByAge | frontend/screens/OldProblemList.js:49-57 | exactly the records whose age test passes, both directions, every copy of each, as a subsequence of all records |
| OldProblemList.AgeViewsPartition | frontend/screens/OldProblemList.js:49-57 | the "newer" and "older" views split the records with readable timestamps (all records when every timestamp is readable) as multisets |
| OldProblemList.TwoDaysIsNewer | frontend/screens/OldProblemList.js:54 | a record exactly 2 days old is "newer than 2 days" and not "older" |
| OldProblemList.TextMatches | frontend/screens/OldProblemList.js:42-44 | empty queries accept any record; a non-empty city query needs a city at least as long as the query, a type query a label at least as long |
| OldProblemList.TextMatchIgnoresCase | frontend/screens/OldProblemList.js:42-44 | both text filters are case-insensitive: capitalising the city, the type and both queries does not change whether a record matches |
| OldProblemList.CityFilterThrows | frontend/screens/OldProblemList.js:42 | `item.city.toLowerCase()` throws only for a non-empty city query and only when some record has no city |
| OldProblemList.ByText | frontend/screens/OldProblemList.js:37-47 | throws (`None`) iff the city query is non-empty and some record has no city. Otherwise it keeps exactly the records both queries accept, both directions, every copy of each, order kept. Empty queries give all records |
| OldProblemList.ByTextIdempotent | frontend/screens/OldProblemList.js:39-46 | filtering the shown list again with the same queries gives the same list |
| OldProblemList.OldListScreen.constructor | frontend/screens/OldProblemList.js:19-22 | empty lists and queries |
| OldProblemList.OldListScreen.Load | frontend/screens/OldProblemList.js:24-35 | a parsed array becomes both lists; a parsed non-array is stored in both; a failure changes nothing |
| OldProblemList.OldListScreen.SetCityQuery | frontend/screens/OldProblemList.js:87 | the city input sets the city query and nothing else |
| OldProblemList.OldListScreen.SetTypeQuery | frontend/screens/OldProblemList.js:93 | the type input sets the type query and nothing else |
| OldProblemList.OldListScreen.ApplyFilters | frontend/screens/OldProblemList.js:37-47 | the shown list is recomputed from all records with `ByText`; when that throws, it stays |
| OldProblemList.OldListScreen.FilterByAge | frontend/screens/OldProblemList.js:49-57 | the shown list is recomputed from all records with `ByAge`; a non-array list throws and leaves it |
| BackendMarker.New | backend/models/marker.py:4-9 | construction succeeds iff the label is "graffiti" or "pothole", and otherwise names the `label` field |
| BackendMarker.BadFields | backend/models/marker.py:4-9 | lists exactly the fields that are missing or ill-typed, or carry a label outside the two |
| BackendMarker.FromFields | backend/models/marker.py:4-9 | `Marker(**d)` succeeds iff all five fields are present and acceptable, and copies them; otherwise it names at least one failing field |
| BackendMarker.ToFields | backend/main.py:20 | `m.dict()` has exactly the five field names |
| BackendMarker.FieldsRoundTrip | backend/models/marker.py:4-9 | a valid marker written as a dictionary and read back is the same marker |
| BackendMarker.MissingFieldRejected | backend/models/marker.py:5-9 | every field is required: a dictionary without one is refused, naming it |
| BackendMain.CityOf | backend/main.py:46-49 | city, else town, else village, else "Unknown", empty names skipped; never empty |
| BackendMain.Status | backend/main.py:66-77 | 200 iff the handler answered, 500 iff it failed |
| BackendMain.ValidPrefix | backend/main.py:54-62 | the position of the first detection whose label the record refuses, or the count |
| BackendMain.Batch | backend/main.py:53-62 | one marker per label, in order, all sharing lat, lon, timestamp and city |
| BackendMain.DumpAll | backend/main.py:18-20 | the saved JSON is an array of the markers' dictionaries, in order |
| BackendMain.LoadRecords | backend/main.py:27 | `[Marker(**m) for m in items]`: succeeds iff every item is an acceptable dictionary, converting each in order; otherwise it reports the first failing item |
| BackendMain.LoadAll | backend/main.py:22-27 | an array loads its records; an empty object or string loads `[]`, and a non-empty one raises at its first key or character; a number, boolean or null raises |
| BackendMain.LoadAfterDump | backend/main.py:18-27 | loading what was saved restores the same list in the same order |
| BackendMain.MarkerService.constructor | backend/main.py:16 | the list starts empty, so the invariant that every marker has a valid label holds |
| BackendMain.MarkerService.SaveMarkers | backend/main.py:18-20 | a successful write makes the file the dump of the whole list; a failed open leaves the file as it was; a dump that raises after `open("w")` leaves text that does not parse; it reports success exactly for a full write |
| BackendMain.MarkerService.LoadMarkers | backend/main.py:22-29 | no file keeps the list; a readable file replaces it; unreadable JSON or a bad record raises and changes nothing; every marker keeps a valid label |
| BackendMain.MarkerService.Analyze | backend/main.py:33-77 | a failing outside call or a missing place gives 500 and changes nothing. Otherwise one marker per detection is appended, in order, sharing the call's position, time and city. A refused label raises at its turn, after the earlier appends and before the save, and gives 500. Otherwise the whole list is saved, even with no detection: a full write answers 200 with the detections and the city, and a write that raises answers 500 with the new markers kept in memory. Every marker keeps a valid label |
| BackendMain.SaveThenRestart | backend/main.py:18-29 | a restarted service loads exactly the list last saved, given the service invariant that every marker has a valid label |
| BackendMain.FailedSaveBlocksRestart | backend/main.py:18-29 | after a save whose dump raised, the next start-up cannot read the file and fails, with no markers loaded |
| BackendMain.ReportLine | backend/main.py:88 | the f-string line is the timestamp, " - ", the label in capitals, " in " and the city, in that order; seven characters longer than its three fields together |
| BackendMain.ReportLines | backend/main.py:87-89 | one line `"{timestamp} - {LABEL} in {city}"` per marker, in order |
| BackendMain.JoinLines | backend/main.py:87-89 | the joined report text: empty for no lines, and it starts with the first line; `SplitJoin` is its inverse |
| BackendMain.FindSep | backend/main.py:96 | the first occurrence of the separator, and none before it |
| BackendMain.SplitLines | backend/main.py:96 | `split` always yields at least one piece |
| BackendMain.SplitJoin | backend/main.py:87-96 | splitting the joined lines gives them back, for at least one line and no backslashes |
| BackendMain.ReportCells | backend/main.py:96-97 | the report text split on the separator gives at least one cell; `ReportHasOneLinePerMarker` fixes them |
| BackendMain.ReportHasOneLinePerMarker | backend/main.py:87-97 | the PDF gets one cell per marker in order (fields without backslashes); an empty request gives one empty cell |
| MapUtils.AllPins | frontend/utils/mapUtils.js:3-5 | the bundled `pins` array itself; `QueriesAreSubsequences` relates both queries to it |
| MapUtils.Prop | frontend/utils/mapUtils.js:7-13 | a property read throws exactly on `null`/`undefined`, finds a present key of an object, yields the inherited `Object.prototype` member for such a name, and is otherwise `undefined` |
| MapUtils.PinsByType | frontend/utils/mapUtils.js:7-9 | exactly the pins whose `problem_type` is the argument, both directions, every copy of each; throws iff some pin is `null` |
| MapUtils.PinsByUser | frontend/utils/mapUtils.js:11-13 | exactly the pins whose `user.id` is the argument, both directions, every copy of each; throws iff some pin's user cannot be read |
| MapUtils.UserlessPinThrows | frontend/utils/mapUtils.js:11-13 | one pin without `user` makes the whole query throw |
| MapUtils.QueriesAreSubsequences | frontend/utils/mapUtils.js:3-13 | both queries return order-preserving subsequences of `getAllPins` |
| MapUtils.DistinctTypesDisjoint | frontend/utils/mapUtils.js:7-9 | no pin is returned for two different types |
| MapUtils.ProblemTypeConfig | frontend/utils/mapUtils.js:15-17 | the `problem_types` entry for a present key; for an absent key the inherited `Object.prototype` member of that name (`constructor`, `toString`, ...) if there is one, else `undefined`; it never throws |
| MapUtils.NewPin | frontend/utils/mapUtils.js:19-31 | the keys are the three defaults plus `pinData`'s, and every `pinData` field wins. Without overrides: the id is the decimal of pins+1 with no leading zero, `created_at` is now, and `status` is "pending" |
| MapUtils.DefaultIdsDiffer | frontend/utils/mapUtils.js:23 | default ids for pin lists of different lengths differ |

## Left out

- Camera capture, the image picker, permission prompts other than the location grant, `Alert` dialogs, navigation, styling and map rendering are UI and OS input/output.
- Clustering is left out. `MapViewClustering` lives in a library that is not part of this model.
- HTTP is left out: FastAPI routing, `FileResponse`, the `/markers.json` download and the `fetch` calls. The `/analyze/` reply reaches the app only as `AnalyzeReply`. The service's answer keeps only the detections and the city, not the suggestions, report URL or address.
- `backend/detect.py`, `get_suggestions`, `generate_pdf` and the FPDF drawing are left out. Their outcome is the `Upstream` parameter of `Analyze`, and the report is modelled only as its text lines. A failure in `generate_pdf` is folded into `Raised`, together with failures of `detect_issues`, `get_suggestions` and the geocoder call.
- The reverse geocoders, the location fix, the clock and the date parser are parameters.
- Async interleavings are left out: `Promise.all` and overlapping handlers are treated as one sequential step each.
- `ProblemList` `onRefresh` only toggles the `refreshing` flag around `loadProblems`, which is modelled.
- `HomeScreen` `handleMyLocation` is `FetchUserLocation`.
- Case mapping is ASCII only. `toLowerCase`, `toUpperCase` and Python's `upper()` also map non-ASCII letters. String order is by code point, so UTF-16 surrogate order is not captured.
- `OldProblemList.AgeInDays` is exact rational arithmetic. The floating-point rounding of the division is not modelled.
- A stored value that is neither an array nor a list of markers is not distinguished further than "not an array". For `CameraScreen.CaptureScreen.PublishMarker`, a stored JSON string would be spread into its characters rather than throw.
- `HomeScreen.MapScreen.LoadSavedRegion`: a stored JSON value other than a region or `null` (a number, say) is not representable and is not modelled.
- `BackendMarker.FromFields` does not model pydantic's coercions: a numeric string accepted as a float, an integer as a float, and so on.
- `MapUtils.Prop`: properties that non-object values carry are read as `undefined`. Examples are an array's or a string's `length` and the properties of an inherited function. The three keys the queries read (`problem_type`, `user`, `id`) are not among them. An object parsed from JSON has `Object.prototype` as its prototype, and the model takes that for granted.
- `ProblemList.UniqueCities`: the chips' order, which is the order in which each city first appears, is not stated. Only their set and their distinctness are. `Common.DedupKeepsFirstOrder` states that order for the de-duplication step, but it is not carried through the filter that drops empty cities.
- `BackendMain.ReportHasOneLinePerMarker` states one line per marker only when no field holds a backslash. A field containing the two characters backslash and `n` is split further.
- The `/generate_report/` request body is a list of valid markers. FastAPI's 422 answer for an invalid body is not modelled.
- `MapUtils` assumes the bundled data has a `pins` array and a `problem_types` object. The data file itself is not part of this model, and neither is key order in the built pin. Arguments are strings.

## Findings

| source | as written | input that shows it | evidently intended | confidence | as-written member | corrected member |
|---|---|---|---|---|---|---|
| frontend/screens/HomeScreen.js:90 | `fetchMarkers` first calls `setLoading(true)`, which the component never declares. It throws before the file is read, so the map keeps its initial empty marker list | a `markers.json` holding one published marker: the map shows none | the reload rule of lines 91-101: an array replaces the markers, a read or parse error empties them | high (not executed) | HomeScreen.ReloadMarkersAsWritten, HomeScreen.FetchMarkersNeverLoads | HomeScreen.ReloadMarkers, HomeScreen.MapScreen.FetchMarkers |
