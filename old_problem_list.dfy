/** The earlier list screen (frontend/screens/OldProblemList.js): all
    markers from the file, and a shown list that each filter button
    recomputes from all of them: a city and type text filter, and an age
    filter. */
module OldProblemList {
  import opened Common
  import opened Text
  import opened MarkerStore

  /** Milliseconds in a day, `1000 * 60 * 60 * 24`. */
  const DayMillis: int := 86400000

  /** `new Date(s)` read as milliseconds since the epoch, an outside
      parser: `None` for a string it cannot read (an Invalid Date). */
  type TimeParser = string -> Option<int>

  /** `ageInDays`: the age in days, as a fraction, of a record made at time
      `t`: that many days' worth of milliseconds is the time elapsed. */
  function AgeInDays(now: int, t: int): (age: real)
    ensures age * DayMillis as real == (now - t) as real
    ensures t <= now <==> age >= 0.0
  {
    (now - t) as real / DayMillis as real
  }

  /** Comparing the fractional age with a whole number of days is comparing
      the age in milliseconds with that many days' worth. */
  lemma AgeInMillis(now: int, t: int, days: int)
    ensures AgeInDays(now, t) <= days as real <==> now - t <= days * DayMillis
  {
  }

  /** The test of `filterByAge`: a record whose timestamp does not parse
      compares false both ways (NaN), so neither view keeps it. */
  predicate AgeMatches(m: Marker, now: int, days: int, newer: bool, parse: TimeParser)
    ensures AgeMatches(m, now, days, newer, parse) ==> parse(m.timestamp).Some?
    ensures parse(m.timestamp).Some? ==>
      (AgeMatches(m, now, days, newer, parse) <==> (newer <==> AgeInDays(now, parse(m.timestamp).value) <= days as real))
  {
    match parse(m.timestamp)
    case None => false
    case Some(t) => if newer then AgeInDays(now, t) <= days as real else AgeInDays(now, t) > days as real
  }

  function AgePred(now: int, days: int, newer: bool, parse: TimeParser): Marker -> bool
  {
    m => AgeMatches(m, now, days, newer, parse)
  }

  function ParsesPred(parse: TimeParser): Marker -> bool
  {
    (m: Marker) => parse(m.timestamp).Some?
  }

  /** `filterByAge(days, newer)` applied to the whole list. */
  function ByAge(all: seq<Marker>, now: int, days: int, newer: bool, parse: TimeParser): (r: seq<Marker>)
    ensures Subseq(r, all)
    ensures forall i :: 0 <= i < |r| ==> r[i] in all && AgeMatches(r[i], now, days, newer, parse)
    ensures forall i :: 0 <= i < |all| && AgeMatches(all[i], now, days, newer, parse) ==> all[i] in r
    ensures forall m :: multiset(r)[m] == if AgeMatches(m, now, days, newer, parse) then multiset(all)[m] else 0
  {
    KeepIsSubseq(all, AgePred(now, days, newer, parse));
    KeepCounts(all, AgePred(now, days, newer, parse));
    Keep(all, AgePred(now, days, newer, parse))
  }

  /** The "newer" and the "older" view split the records with a readable
      timestamp between them, each occurrence going to exactly one; when
      every timestamp is readable they split the whole list. */
  lemma AgeViewsPartition(all: seq<Marker>, now: int, days: int, parse: TimeParser)
    ensures multiset(ByAge(all, now, days, true, parse)) + multiset(ByAge(all, now, days, false, parse))
         == multiset(Keep(all, ParsesPred(parse)))
    ensures (forall i :: 0 <= i < |all| ==> parse(all[i].timestamp).Some?) ==>
      multiset(ByAge(all, now, days, true, parse)) + multiset(ByAge(all, now, days, false, parse)) == multiset(all)
  {
    KeepSplit(all, AgePred(now, days, true, parse), AgePred(now, days, false, parse), ParsesPred(parse));
    KeepAll(all, ParsesPred(parse));
  }

  /** The boundary case: now 2024-01-10T00:00:00Z and a record from
      2024-01-08T00:00:00Z, exactly two days old. "Newer than 2 days" keeps
      it, "older than 2 days" does not. */
  lemma TwoDaysIsNewer(m: Marker, parse: TimeParser)
    requires parse(m.timestamp) == Some(1704672000000)
    ensures AgeMatches(m, 1704844800000, 2, true, parse)
    ensures !AgeMatches(m, 1704844800000, 2, false, parse)
  {
  }

  /** The test of `applyFilters`: an empty query accepts everything; the
      city query is a case-insensitive substring of the city, the type query
      of the label. */
  predicate TextMatches(m: Marker, cityQuery: string, typeQuery: string)
    ensures cityQuery == "" && typeQuery == "" ==> TextMatches(m, cityQuery, typeQuery)
    ensures TextMatches(m, cityQuery, typeQuery) && cityQuery != "" ==> m.city.Some? && |cityQuery| <= |m.city.value|
    ensures TextMatches(m, cityQuery, typeQuery) ==> |typeQuery| <= |m.kind|
  {
    && (cityQuery == "" || (m.city.Some? && Contains(Lower(m.city.value), Lower(cityQuery))))
    && (typeQuery == "" || Contains(Lower(m.kind), Lower(typeQuery)))
  }

  /** Both text filters ignore case: capitalising the record's city and
      type and both queries does not change whether the record matches. */
  lemma TextMatchIgnoresCase(m: Marker, cityQuery: string, typeQuery: string)
    ensures
      var upper := m.(kind := Upper(m.kind), city := if m.city.Some? then Some(Upper(m.city.value)) else None);
      TextMatches(upper, Upper(cityQuery), Upper(typeQuery)) <==> TextMatches(m, cityQuery, typeQuery)
  {
    LowerAfterUpper(m.kind);
    LowerAfterUpper(cityQuery);
    LowerAfterUpper(typeQuery);
    if m.city.Some? {
      LowerAfterUpper(m.city.value);
    }
  }

  function TextPred(cityQuery: string, typeQuery: string): Marker -> bool
  {
    m => TextMatches(m, cityQuery, typeQuery)
  }

  /** `item.city.toLowerCase()` throws on a record without a city, which is
      what the camera screen writes, as soon as the city query is non-empty. */
  predicate CityFilterThrows(all: seq<Marker>, cityQuery: string)
    ensures cityQuery == "" ==> !CityFilterThrows(all, cityQuery)
    ensures (forall i :: 0 <= i < |all| ==> all[i].city.Some?) ==> !CityFilterThrows(all, cityQuery)
  {
    cityQuery != "" && exists i :: 0 <= i < |all| && all[i].city.None?
  }

  /** `applyFilters` applied to the whole list: `None` when it throws,
      otherwise exactly the records both queries accept, in order; with both
      queries empty, the whole list. */
  function ByText(all: seq<Marker>, cityQuery: string, typeQuery: string): (r: Option<seq<Marker>>)
    ensures r.None? <==> CityFilterThrows(all, cityQuery)
    ensures r.Some? ==>
      && Subseq(r.value, all)
      && (forall i :: 0 <= i < |r.value| ==> r.value[i] in all && TextMatches(r.value[i], cityQuery, typeQuery))
      && (forall i :: 0 <= i < |all| && TextMatches(all[i], cityQuery, typeQuery) ==> all[i] in r.value)
    ensures r.Some? ==>
      forall m :: multiset(r.value)[m] == if TextMatches(m, cityQuery, typeQuery) then multiset(all)[m] else 0
    ensures cityQuery == "" && typeQuery == "" ==> r == Some(all)
  {
    if CityFilterThrows(all, cityQuery) then None
    else
      KeepIsSubseq(all, TextPred(cityQuery, typeQuery));
      KeepCounts(all, TextPred(cityQuery, typeQuery));
      KeepAll(all, TextPred(cityQuery, typeQuery));
      Some(Keep(all, TextPred(cityQuery, typeQuery)))
  }

  /** Filtering the shown list again with the same queries shows the same list. */
  lemma ByTextIdempotent(all: seq<Marker>, cityQuery: string, typeQuery: string)
    requires ByText(all, cityQuery, typeQuery).Some?
    ensures ByText(ByText(all, cityQuery, typeQuery).value, cityQuery, typeQuery) == ByText(all, cityQuery, typeQuery)
  {
    KeepIdempotent(all, TextPred(cityQuery, typeQuery));
  }

  class OldListScreen {
    /** `None` stands for a parsed value that is not a list, which the screen
        stores and on which every filter then throws. */
    var allProblems: Option<seq<Marker>>
    var filteredProblems: Option<seq<Marker>>
    var cityQuery: string
    var typeQuery: string
    const file: MarkerFile

    constructor (file: MarkerFile)
      ensures this.file == file
      ensures allProblems == Some([]) && filteredProblems == Some([])
      ensures cityQuery == "" && typeQuery == ""
    {
      this.file := file;
      allProblems := Some([]);
      filteredProblems := Some([]);
      cityQuery := "";
      typeQuery := "";
    }

    /** The mount effect: the parsed value becomes both lists; a failed read
        or parse is only logged. */
    method Load()
      modifies this`allProblems, this`filteredProblems
      ensures file.contents.ArrayOf? ==>
        allProblems == Some(file.contents.items) && filteredProblems == allProblems
      ensures file.contents.NonArray? ==> allProblems.None? && filteredProblems.None?
      ensures file.contents.Unreadable? || file.contents.Malformed? ==>
        allProblems == old(allProblems) && filteredProblems == old(filteredProblems)
    {
      match file.contents
      case ArrayOf(items) =>
        allProblems := Some(items);
        filteredProblems := Some(items);
      case NonArray =>
        allProblems := None;
        filteredProblems := None;
      case _ =>
    }

    /** The city text input (`setCity`): the query changes, the shown list
        does not until a filter button is pressed. */
    method SetCityQuery(text: string)
      modifies this`cityQuery
      ensures cityQuery == text
    {
      cityQuery := text;
    }

    /** The type text input (`setType`). */
    method SetTypeQuery(text: string)
      modifies this`typeQuery
      ensures typeQuery == text
    {
      typeQuery := text;
    }

    /** `applyFilters`: the shown list is recomputed from all records, so it
        replaces whatever filter was shown before; when the filter throws the
        shown list stays. */
    method ApplyFilters() returns (ok: bool)
      modifies this`filteredProblems
      ensures ok <==> allProblems.Some? && !CityFilterThrows(allProblems.value, cityQuery)
      ensures ok ==> filteredProblems == ByText(allProblems.value, cityQuery, typeQuery)
      ensures !ok ==> filteredProblems == old(filteredProblems)
    {
      if allProblems.None? {
        return false;
      }
      var result := ByText(allProblems.value, cityQuery, typeQuery);
      ok := result.Some?;
      if ok {
        filteredProblems := result;
      }
    }

    /** `filterByAge(days, newer)`: likewise recomputed from all records. */
    method FilterByAge(days: int, newer: bool, now: int, parse: TimeParser) returns (ok: bool)
      modifies this`filteredProblems
      ensures ok <==> allProblems.Some?
      ensures ok ==> filteredProblems == Some(ByAge(allProblems.value, now, days, newer, parse))
      ensures !ok ==> filteredProblems == old(filteredProblems)
    {
      if allProblems.None? {
        return false;
      }
      filteredProblems := Some(ByAge(allProblems.value, now, days, newer, parse));
      ok := true;
    }
  }
}
