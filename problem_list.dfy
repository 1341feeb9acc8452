/** The problem list screen (frontend/screens/ProblemList.tsx): it reads the
    markers, gives each one the name of its city by reverse geocoding,
    offers the distinct cities as filter chips, and counts the problems in
    view and those reported within the last day. */
module ProblemList {
  import opened Common
  import opened LexOrder
  import opened MarkerStore

  /** One entry of `Location.reverseGeocodeAsync`'s answer; an absent field
      is `None`. */
  datatype GeoAddress = GeoAddress(city: Option<string>, subregion: Option<string>)

  /** The reverse geocoder, an outside service: for a position it answers a
      list of addresses, or `None` when the call throws or answers nothing. */
  type Geocoder = (real, real) -> Option<seq<GeoAddress>>

  const UnknownLocation: string := "Unknown location"

  /** `getCityName`: the first address's city, else its subregion, else
      "Unknown location"; an empty or failed lookup also gives "Unknown
      location". The name is never empty. */
  function CityName(reply: Option<seq<GeoAddress>>): (name: string)
    ensures name != ""
    ensures reply.None? || reply.value == [] ==> name == UnknownLocation
    ensures reply.Some? && reply.value != [] ==>
      name == (if Truthy(reply.value[0].city) then reply.value[0].city.value
               else if Truthy(reply.value[0].subregion) then reply.value[0].subregion.value
               else UnknownLocation)
  {
    if reply.None? || reply.value == [] then UnknownLocation
    else
      var first := reply.value[0];
      if Truthy(first.city) then first.city.value
      else if Truthy(first.subregion) then first.subregion.value
      else UnknownLocation
  }

  /** `{...problem, city: await getCityName(problem.lat, problem.lon)}`. */
  function WithCity(p: Marker, geocode: Geocoder): (r: Marker)
    ensures r.(city := p.city) == p
    ensures r.city.Some? && r.city.value != ""
  {
    p.(city := Some(CityName(geocode(p.lat, p.lon))))
  }

  /** The enrichment step of `loadProblems`: one record per loaded record, in
      the same order, each differing from its original only in `city`, which
      is now the geocoded name. */
  function Enrich(problems: seq<Marker>, geocode: Geocoder): (r: seq<Marker>)
    ensures |r| == |problems|
    ensures forall i :: 0 <= i < |r| ==>
      && r[i].(city := problems[i].city) == problems[i]
      && r[i].city == Some(CityName(geocode(problems[i].lat, problems[i].lon)))
  {
    if problems == [] then []
    else [WithCity(problems[0], geocode)] + Enrich(problems[1..], geocode)
  }

  function CityOptions(problems: seq<Marker>): (r: seq<Option<string>>)
    ensures |r| == |problems| && forall i :: 0 <= i < |r| ==> r[i] == problems[i].city
  {
    seq(|problems|, i requires 0 <= i < |problems| => problems[i].city)
  }

  function TruthyPred(): Option<string> -> bool
  {
    s => Truthy(s)
  }

  /** `Array.from(new Set(problems.map(p => p.city))).filter(Boolean)`: the
      distinct truthy cities. No city appears twice, none is empty, each is
      the city of a loaded problem, and every problem with a non-empty city
      has its city listed. */
  function UniqueCities(problems: seq<Marker>): (cities: seq<string>)
    ensures forall i, j :: 0 <= i < j < |cities| ==> cities[i] != cities[j]
    ensures forall i :: 0 <= i < |cities| ==> cities[i] != "" && Some(cities[i]) in CityOptions(problems)
    ensures forall k :: 0 <= k < |problems| && Truthy(problems[k].city) ==> problems[k].city.value in cities
  {
    var kept := Keep(Dedup(CityOptions(problems)), TruthyPred());
    ChipOptions(problems);
    var cities := Unwrap(kept);
    forall k | 0 <= k < |problems| && Truthy(problems[k].city)
      ensures problems[k].city.value in cities
    {
      UnwrapHas(kept, problems[k].city);
    }
    cities
  }

  /** The truthy options left after removing repetitions: none twice, each a
      problem's city, and every truthy city among them. */
  lemma ChipOptions(problems: seq<Marker>)
    ensures var kept := Keep(Dedup(CityOptions(problems)), TruthyPred());
      && (forall i, j :: 0 <= i < j < |kept| ==> kept[i] != kept[j])
      && (forall i :: 0 <= i < |kept| ==> Truthy(kept[i]) && kept[i] in CityOptions(problems))
      && (forall k :: 0 <= k < |problems| && Truthy(problems[k].city) ==> problems[k].city in kept)
  {
    var options := CityOptions(problems);
    var distinct := Dedup(options);
    DedupKeepStaysDistinct(distinct, TruthyPred());
    forall k | 0 <= k < |problems| && Truthy(problems[k].city)
      ensures problems[k].city in Keep(distinct, TruthyPred())
    {
      assert options[k] == problems[k].city;
      assert options[k] in distinct;
    }
  }

  /** The values of a list of present options. */
  function Unwrap(s: seq<Option<string>>): (r: seq<string>)
    requires forall i :: 0 <= i < |s| ==> s[i].Some?
    ensures |r| == |s| && forall i :: 0 <= i < |s| ==> s[i] == Some(r[i])
  {
    seq(|s|, i requires 0 <= i < |s| => s[i].value)
  }

  lemma UnwrapHas(s: seq<Option<string>>, x: Option<string>)
    requires forall i :: 0 <= i < |s| ==> s[i].Some?
    requires x in s
    ensures x.Some? && x.value in Unwrap(s)
  {
  }

  /** Filtering a list without repetitions leaves it without repetitions. */
  lemma {:induction false} DedupKeepStaysDistinct<T>(s: seq<T>, p: T -> bool)
    requires forall i, j :: 0 <= i < j < |s| ==> s[i] != s[j]
    ensures forall i, j :: 0 <= i < j < |Keep(s, p)| ==> Keep(s, p)[i] != Keep(s, p)[j]
  {
    if s != [] {
      DedupKeepStaysDistinct(s[1..], p);
      var k := Keep(s[1..], p);
      assert s[0] !in s[1..];
      assert forall i :: 0 <= i < |k| ==> k[i] in s[1..];
    }
  }

  function CityIs(city: string): Marker -> bool
  {
    (p: Marker) => p.city == Some(city)
  }

  /** `filteredProblems`: with no city chosen (or the empty string) every
      problem; otherwise exactly the problems of that city, every copy of
      each, in order. */
  function FilteredProblems(problems: seq<Marker>, selected: Option<string>): (r: seq<Marker>)
    ensures !Truthy(selected) ==> r == problems
    ensures Truthy(selected) ==>
      && (forall i :: 0 <= i < |r| ==> r[i].city == selected && r[i] in problems)
      && (forall i :: 0 <= i < |problems| && problems[i].city == selected ==> problems[i] in r)
    ensures Truthy(selected) ==>
      forall m :: multiset(r)[m] == if m.city == selected then multiset(problems)[m] else 0
    ensures Subseq(r, problems)
  {
    if Truthy(selected) then
      KeepIsSubseq(problems, CityIs(selected.value));
      KeepCounts(problems, CityIs(selected.value));
      Keep(problems, CityIs(selected.value))
    else
      assert Subseq(problems, problems) by { SubseqRefl(problems); }
      problems
  }

  lemma {:induction false} SubseqRefl<T>(s: seq<T>)
    ensures Subseq(s, s)
  {
    if s != [] { SubseqRefl(s[1..]); }
  }

  function RecentPred(cutoff: string): Marker -> bool
  {
    (p: Marker) => LexLess(cutoff, p.timestamp)
  }

  /** The positions in `view` of the problems stamped after `cutoff`. */
  function RecentPositions(view: seq<Marker>, cutoff: string): set<int>
  {
    set i | 0 <= i < |view| && LexLess(cutoff, view[i].timestamp)
  }

  /** The "Today" figure: the number of problems in view whose timestamp
      string is greater than `cutoff`, the ISO string of one day before now.
      It never exceeds the "Total" figure, `|view|`, and reaches it when
      every problem in view is recent. */
  function TodayCount(view: seq<Marker>, cutoff: string): (n: nat)
    ensures n == |RecentPositions(view, cutoff)|
    ensures n <= |view|
    ensures n == |view| <== forall i :: 0 <= i < |view| ==> LexLess(cutoff, view[i].timestamp)
    ensures n == 0 <== forall i :: 0 <= i < |view| ==> !LexLess(cutoff, view[i].timestamp)
  {
    KeepSize(view, RecentPred(cutoff));
    KeepAll(view, RecentPred(cutoff));
    KeepNone(view, RecentPred(cutoff));
    assert Selected(view, RecentPred(cutoff)) == RecentPositions(view, cutoff);
    |Keep(view, RecentPred(cutoff))|
  }

  /** The comparison is strict: a problem stamped exactly at the cutoff is
      not recent. */
  lemma CutoffItselfNotRecent(p: Marker, cutoff: string)
    requires p.timestamp == cutoff
    ensures !RecentPred(cutoff)(p)
  {
    LexIrreflexive(cutoff);
  }

  /** A later cutoff never counts more problems: every problem after the
      later cutoff is also after the earlier one. */
  lemma TodayShrinksAsCutoffGrows(view: seq<Marker>, earlier: string, later: string)
    requires LexLess(earlier, later)
    ensures TodayCount(view, later) <= TodayCount(view, earlier)
  {
    var afterLater := RecentPositions(view, later);
    var afterEarlier := RecentPositions(view, earlier);
    forall i | i in afterLater ensures i in afterEarlier {
      LexTransitive(earlier, later, view[i].timestamp);
    }
    SubsetSize(afterLater, afterEarlier);
  }

  /** A subset is never larger than its superset. */
  lemma SubsetSize(a: set<int>, b: set<int>)
    requires a <= b
    ensures |a| <= |b|
  {
    assert b == a + (b - a);
    assert a * (b - a) == {};
  }

  /** With timestamps and cutoff written from one template, as
      `toISOString()` writes them, a problem counts as recent exactly when
      its time, read as the number YYYYMMDDhhmmssSSS, is later than the
      cutoff's. */
  lemma RecentIsChronological(p: Marker, cutoff: string)
    requires SameTemplate(cutoff, p.timestamp)
    ensures RecentPred(cutoff)(p) <==> Text.Value(DigitsOf(cutoff)) < Text.Value(DigitsOf(p.timestamp))
  {
    LexIsNumericOnTemplate(cutoff, p.timestamp);
  }

  class ListScreen {
    var problems: seq<Marker>
    var cities: seq<string>
    var loading: bool
    var selectedCity: Option<string>
    const file: MarkerFile

    constructor (file: MarkerFile)
      ensures this.file == file
      ensures problems == [] && cities == [] && loading && selectedCity.None?
    {
      this.file := file;
      problems := [];
      cities := [];
      loading := true;
      selectedCity := None;
    }

    /** `loadProblems`: a parsed array is enriched with city names and its
        distinct cities become the chips; any failure (no file, bad JSON, a
        value that is not an array) empties the list and keeps the chips.
        Loading ends either way. */
    method LoadProblems(geocode: Geocoder)
      modifies this`problems, this`cities, this`loading
      ensures file.contents.ArrayOf? ==>
        problems == Enrich(file.contents.items, geocode) && cities == UniqueCities(problems)
      ensures !file.contents.ArrayOf? ==> problems == [] && cities == old(cities)
      ensures !loading
    {
      if file.contents.ArrayOf? {
        var withCities := Enrich(file.contents.items, geocode);
        problems := withCities;
        cities := UniqueCities(withCities);
      } else {
        problems := [];
      }
      loading := false;
    }

    /** A chip press: a city, or `None` for "All Cities". */
    method SelectCity(choice: Option<string>)
      modifies this`selectedCity
      ensures selectedCity == choice
    {
      selectedCity := choice;
    }

    /** The list shown, whose length is the "Total" figure. */
    function View(): (r: seq<Marker>)
      reads this
      ensures Subseq(r, problems)
    {
      FilteredProblems(problems, selectedCity)
    }
  }

  /** Every chip built from a problem list names a city that shows at least
      one problem of that list when chosen. */
  lemma {:induction false} EveryChipSelectsSomething(problems: seq<Marker>, k: nat)
    requires k < |UniqueCities(problems)|
    ensures |FilteredProblems(problems, Some(UniqueCities(problems)[k]))| > 0
  {
    var c := UniqueCities(problems)[k];
    var options := CityOptions(problems);
    assert Some(c) in options;
    var j :| 0 <= j < |options| && options[j] == Some(c);
    assert problems[j].city == Some(c);
    assert problems[j] in FilteredProblems(problems, Some(c));
  }
}
