/** The station search box (src/components/ui/AutoCompleteInput.tsx): its
    five state fields, the pending debounced search, the case-insensitive
    station filter and the dropdown rule. */
module AutoCompleteInput {
  import opened Wrappers
  import opened Entities
  import opened Sequences

  /** `toLowerCase` on ASCII letters. */
  function LowerChar(c: char): char {
    if 'A' <= c <= 'Z' then (c as int + 32) as char else c
  }

  /** Lowercasing leaves no capital letter and keeps every other character. */
  function Lower(s: string): (r: string)
    ensures |r| == |s|
    ensures forall i :: 0 <= i < |r| ==> !('A' <= r[i] <= 'Z')
    ensures forall i :: 0 <= i < |s| && !('A' <= s[i] <= 'Z') ==> r[i] == s[i]
    ensures forall i :: 0 <= i < |s| && 'A' <= s[i] <= 'Z' ==> r[i] as int == s[i] as int + 32
  {
    seq(|s|, i requires 0 <= i < |s| => LowerChar(s[i]))
  }

  lemma LowerIdempotent(s: string)
    ensures Lower(Lower(s)) == Lower(s)
  {
  }

  /** Two characters are equal up to letter case: the same, or a capital and
      the code point 32 above it. */
  predicate CharEqualUpToCase(a: char, b: char) {
    a == b || ('A' <= a <= 'Z' && b as int == a as int + 32) || ('A' <= b <= 'Z' && a as int == b as int + 32)
  }

  /** Two strings are equal up to letter case, position by position. */
  predicate EqualUpToCase(s: string, t: string) {
    |s| == |t| && forall i :: 0 <= i < |s| ==> CharEqualUpToCase(s[i], t[i])
  }

  lemma LowerCharEqualIff(a: char, b: char)
    ensures LowerChar(a) == LowerChar(b) <==> CharEqualUpToCase(a, b)
  {
  }

  /** Lowercasing identifies exactly the strings that are equal up to letter case. */
  lemma LowerEqualIff(s: string, t: string)
    ensures Lower(s) == Lower(t) <==> EqualUpToCase(s, t)
  {
    if |s| == |t| {
      forall i | 0 <= i < |s|
        ensures Lower(s)[i] == Lower(t)[i] <==> CharEqualUpToCase(s[i], t[i])
      {
        LowerCharEqualIff(s[i], t[i]);
      }
      if EqualUpToCase(s, t) {
        assert Lower(s) == Lower(t);
      }
    }
  }

  /** `needle` occurs in `haystack` starting at index `i`. */
  predicate OccursAt(haystack: string, needle: string, i: int) {
    0 <= i && i + |needle| <= |haystack| && haystack[i..i + |needle|] == needle
  }

  /** `haystack.includes(needle)`. */
  predicate Contains(haystack: string, needle: string) {
    exists i | 0 <= i <= |haystack| - |needle| :: OccursAt(haystack, needle, i)
  }

  /** A needle whose first two characters never occur side by side in the
      haystack does not occur in it. */
  lemma AbsentPair(haystack: string, needle: string)
    requires |needle| >= 2
    requires forall i :: 0 <= i < |haystack| - 1 ==> !(haystack[i] == needle[0] && haystack[i + 1] == needle[1])
    ensures !Contains(haystack, needle)
  {
    forall i | 0 <= i <= |haystack| - |needle|
      ensures !OccursAt(haystack, needle, i)
    {
      assert haystack[i..i + |needle|][0] == haystack[i];
      assert haystack[i..i + |needle|][1] == haystack[i + 1];
    }
  }

  /** The filter's test: the lowercased name contains the lowercased query. */
  predicate Matches(s: Station, query: string) {
    Contains(Lower(s.name), Lower(query))
  }

  /** `stations.filter(...)`: the stations that match, in their order. */
  function FilterStations(stations: seq<Station>, query: string): (r: seq<Station>)
    ensures forall s :: s in r <==> s in stations && Matches(s, query)
    ensures IsSubsequence(r, stations)
  {
    if stations == [] then []
    else if Matches(stations[0], query) then [stations[0]] + FilterStations(stations[1..], query)
    else FilterStations(stations[1..], query)
  }

  /** The filter keeps every copy of a matching station and none of the others. */
  lemma {:induction false} FilterStationsCounts(stations: seq<Station>, query: string)
    ensures forall s :: multiset(FilterStations(stations, query))[s] == if Matches(s, query) then multiset(stations)[s] else 0
  {
    if stations != [] {
      FilterStationsCounts(stations[1..], query);
      assert stations == [stations[0]] + stations[1..];
    }
  }

  /** Queries that differ only in letter case select the same stations. */
  lemma {:induction false} FilterIgnoresCase(stations: seq<Station>, q1: string, q2: string)
    requires Lower(q1) == Lower(q2)
    ensures FilterStations(stations, q1) == FilterStations(stations, q2)
  {
    if stations != [] {
      FilterIgnoresCase(stations[1..], q1, q2);
    }
  }

  const CentralStation: Station := Station("1", "Central Station")
  const NorthStation: Station := Station("2", "North Station")
  const SouthCentralHub: Station := Station("3", "South Central Hub")
  const SampleStations: seq<Station> := [CentralStation, NorthStation, SouthCentralHub]

  /** The sample queries and station names, lowercased. */
  lemma LowerCentral()
    ensures Lower("Central") == "central"
    ensures Lower(CentralStation.name) == "central station"
  {
  }

  lemma LowerNorth()
    ensures Lower("North") == "north"
    ensures Lower(NorthStation.name) == "north station"
  {
  }

  lemma LowerSouthCentral()
    ensures Lower(SouthCentralHub.name) == "south central hub"
  {
  }

  /** The names containing "central", and the one that does not. */
  lemma CentralMatches()
    ensures Matches(CentralStation, "Central")
    ensures Matches(SouthCentralHub, "Central")
  {
    LowerCentral();
    LowerSouthCentral();
    assert OccursAt("central station", "central", 0);
    assert OccursAt("south central hub", "central", 6);
  }

  lemma NorthMisses()
    ensures !Matches(NorthStation, "Central")
  {
    LowerCentral();
    LowerNorth();
    AbsentPair("north station", "central");
  }

  /** "Central" keeps Central Station and South Central Hub, not North Station. */
  lemma FilterCentral()
    ensures FilterStations(SampleStations, "Central") == [CentralStation, SouthCentralHub]
  {
    CentralMatches();
    NorthMisses();
    assert FilterStations(SampleStations[2..], "Central") == [SouthCentralHub];
    assert FilterStations(SampleStations[1..], "Central") == [SouthCentralHub];
  }

  /** Only North Station's name contains "north". */
  lemma NorthMatches()
    ensures Matches(NorthStation, "North")
  {
    LowerNorth();
    assert OccursAt("north station", "north", 0);
  }

  lemma OthersMissNorth()
    ensures !Matches(CentralStation, "North")
    ensures !Matches(SouthCentralHub, "North")
  {
    LowerCentral();
    LowerNorth();
    LowerSouthCentral();
    AbsentPair("central station", "north");
    AbsentPair("south central hub", "north");
  }

  /** "North" keeps North Station only. */
  lemma FilterNorth()
    ensures FilterStations(SampleStations, "North") == [NorthStation]
  {
    NorthMatches();
    OthersMissNorth();
    assert FilterStations(SampleStations[2..], "North") == [];
    assert FilterStations(SampleStations[1..], "North") == [NorthStation];
  }

  class AutoCompleteInput {
    var query: string
    var suggestions: seq<Station>
    var isLoading: bool
    var showSuggestions: bool
    var selectedStation: Option<Station>
    /** The debounced search waiting on its timer, with the query it captured. */
    var pending: Option<string>

    constructor ()
      ensures query == "" && suggestions == [] && !isLoading && !showSuggestions
      ensures selectedStation == None && pending == None
    {
      query := "";
      suggestions := [];
      isLoading := false;
      showSuggestions := false;
      selectedStation := None;
      pending := None;
    }

    /** The dropdown is rendered. */
    predicate DropdownVisible()
      reads this
      ensures DropdownVisible() <==> showSuggestions && suggestions != []
    {
      showSuggestions && |suggestions| > 0
    }

    /** The effect on `query`, as written: the previous timer is cleared; a
        non-empty query starts loading and schedules a search, an empty one
        clears the suggestions and hides the dropdown but leaves the loading
        flag as it was. */
    method QueryChanged() returns (scheduled: bool)
      modifies this
      ensures scheduled <==> |query| > 0
      ensures scheduled ==> isLoading && pending == Some(query)
      ensures scheduled ==> suggestions == old(suggestions) && showSuggestions == old(showSuggestions)
      ensures !scheduled ==> pending == None && suggestions == [] && !showSuggestions && isLoading == old(isLoading)
      ensures query == old(query) && selectedStation == old(selectedStation)
    {
      if |query| > 0 {
        isLoading := true;
        pending := Some(query);
        scheduled := true;
      } else {
        suggestions := [];
        showSuggestions := false;
        pending := None;
        scheduled := false;
      }
    }

    /** The same effect with the empty-query branch also ending loading. */
    method QueryChangedCorrected() returns (scheduled: bool)
      modifies this
      ensures SpinnerMeansPending()
      ensures scheduled <==> |query| > 0
      ensures scheduled ==> isLoading && pending == Some(query)
      ensures scheduled ==> suggestions == old(suggestions) && showSuggestions == old(showSuggestions)
      ensures !scheduled ==> pending == None && suggestions == [] && !showSuggestions && !isLoading
      ensures query == old(query) && selectedStation == old(selectedStation)
    {
      scheduled := QueryChanged();
      if !scheduled {
        isLoading := false;
      }
    }

    /** The spinner is shown only while a search is waiting. */
    predicate SpinnerMeansPending()
      reads this
    {
      isLoading ==> pending.Some?
    }

    /** The timer fires and its fetch settles: on success the suggestions are
        the stations matching the captured query and the dropdown opens; on
        failure the suggestions are emptied; loading ends on both paths. With
        no search waiting nothing happens. */
    method Settle(response: Fetch<seq<Station>>) returns (fired: bool)
      modifies this
      ensures fired <==> old(pending).Some?
      ensures !fired ==> suggestions == old(suggestions) && showSuggestions == old(showSuggestions) && isLoading == old(isLoading)
      ensures !fired ==> pending == old(pending)
      ensures fired ==> !isLoading && pending == None
      ensures fired && response.Success? ==> suggestions == FilterStations(response.data, old(pending).value) && showSuggestions
      ensures fired && response.Failure? ==> suggestions == [] && showSuggestions == old(showSuggestions)
      ensures query == old(query) && selectedStation == old(selectedStation)
      ensures old(SpinnerMeansPending()) ==> SpinnerMeansPending()
    {
      fired := pending.Some?;
      if fired {
        match response {
          case Success(stations) =>
            suggestions := FilterStations(stations, pending.value);
            showSuggestions := true;
          case Failure =>
            suggestions := [];
        }
        isLoading := false;
        pending := None;
      }
    }

    /** `handleSelect(station)`: returns the station handed to `onSelect`. */
    method HandleSelect(station: Station) returns (selected: Station)
      modifies this
      ensures selected == station
      ensures selectedStation == Some(station) && query == station.name && !showSuggestions
      ensures suggestions == old(suggestions) && isLoading == old(isLoading) && pending == old(pending)
    {
      selectedStation := Some(station);
      query := station.name;
      showSuggestions := false;
      selected := station;
    }

    /** `handleInputChange`: the new text becomes the query and any selection is dropped. */
    method HandleInputChange(text: string)
      modifies this
      ensures query == text && selectedStation == None
      ensures suggestions == old(suggestions) && isLoading == old(isLoading)
      ensures showSuggestions == old(showSuggestions) && pending == old(pending)
    {
      query := text;
      selectedStation := None;
    }
  }

  /** Typing `text` and letting the search settle on `response`; returns the
      stations the dropdown shows (none when it is hidden). */
  method Search(text: string, response: Fetch<seq<Station>>) returns (shown: seq<Station>, spinner: bool)
    ensures |text| > 0 && response.Success? ==> shown == FilterStations(response.data, text) && !spinner
    ensures response.Failure? ==> shown == [] && !spinner
    ensures text == "" ==> shown == [] && !spinner
  {
    var box := new AutoCompleteInput();
    box.HandleInputChange(text);
    var scheduled := box.QueryChanged();
    var fired := box.Settle(response);
    shown := if box.DropdownVisible() then box.suggestions else [];
    spinner := box.isLoading;
  }

  /** Selecting a suggestion reports exactly that station and hides the
      dropdown; since the query changes to the station's name, the search
      runs again and, once it settles, the dropdown is open again. */
  method SelectReopensDropdown() returns (selected: Station, visibleAfterSelect: bool, visibleAfterResearch: bool)
    ensures selected == CentralStation
    ensures !visibleAfterSelect && visibleAfterResearch
  {
    var box := new AutoCompleteInput();
    box.HandleInputChange("Central");
    var scheduled := box.QueryChanged();
    var fired := box.Settle(Success(SampleStations));
    FilterCentral();
    selected := box.HandleSelect(box.suggestions[0]);
    visibleAfterSelect := box.DropdownVisible();
    scheduled := box.QueryChanged();
    fired := box.Settle(Success(SampleStations));
    assert OccursAt(Lower(CentralStation.name), Lower(CentralStation.name), 0);
    visibleAfterResearch := box.DropdownVisible();
  }

  /** As written: typing a letter and deleting it before the search fires
      leaves the spinner on with no search waiting. */
  method ClearWhileSearchPending() returns (spinner: bool, searchWaiting: bool)
    ensures spinner && !searchWaiting
  {
    var box := new AutoCompleteInput();
    box.HandleInputChange("C");
    var scheduled := box.QueryChanged();
    box.HandleInputChange("");
    scheduled := box.QueryChanged();
    spinner, searchWaiting := box.isLoading, box.pending.Some?;
  }

  /** With the corrected effect the same keystrokes end with no spinner. */
  method ClearWhileSearchPendingCorrected() returns (spinner: bool, searchWaiting: bool)
    ensures !spinner && !searchWaiting
  {
    var box := new AutoCompleteInput();
    box.HandleInputChange("C");
    var scheduled := box.QueryChangedCorrected();
    box.HandleInputChange("");
    scheduled := box.QueryChangedCorrected();
    spinner, searchWaiting := box.isLoading, box.pending.Some?;
  }
}
