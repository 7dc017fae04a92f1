/** The explorer toolbar of `components/toolbar.tsx`: a case-insensitive search over
    the landmarks of the current dataset, the fallback panels shown when there is
    nothing to list, the annotation switch and the dataset menu's links. */
module Toolbar {
  import opened Seqs
  import opened Text
  import opened Urls

  datatype Feature = Feature(name: string, coords: string, description: string)

  const Features: map<string, seq<Feature>> := map[
    "earth" := [
      Feature("Mount Everest", "27.9881\U{B0}N, 86.9250\U{B0}E", "Highest mountain on Earth"),
      Feature("Amazon Rainforest", "3.4653\U{B0}S, 62.2159\U{B0}W", "Largest tropical rainforest"),
      Feature("Great Barrier Reef", "18.2871\U{B0}S, 147.6992\U{B0}E", "World's largest coral reef"),
      Feature("Sahara Desert", "23.4162\U{B0}N, 25.6628\U{B0}E", "Largest hot desert")
    ],
    "moon" := [
      Feature("Tycho Crater", "43.3\U{B0}S, 11.4\U{B0}W", "Prominent impact crater"),
      Feature("Mare Tranquillitatis", "8.5\U{B0}N, 31.4\U{B0}E", "Apollo 11 landing site"),
      Feature("Copernicus Crater", "9.7\U{B0}N, 20.1\U{B0}W", "Large impact crater"),
      Feature("South Pole-Aitken", "53\U{B0}S, 169\U{B0}W", "Largest impact basin")
    ],
    "mars" := [
      Feature("Olympus Mons", "18.65\U{B0}N, 226.2\U{B0}E", "Largest volcano in solar system"),
      Feature("Valles Marineris", "14\U{B0}S, 59\U{B0}W", "Massive canyon system"),
      Feature("Hellas Planitia", "42.7\U{B0}S, 70\U{B0}E", "Large impact crater"),
      Feature("Gale Crater", "5.4\U{B0}S, 137.8\U{B0}E", "Curiosity rover location")
    ],
    "space" := [
      Feature("Pillars of Creation", "M16 Eagle Nebula", "Star-forming region"),
      Feature("Crab Nebula", "M1", "Supernova remnant"),
      Feature("Andromeda Galaxy", "M31", "Nearest major galaxy"),
      Feature("Orion Nebula", "M42", "Stellar nursery")
    ]
  ]

  /** `FEATURES[dataset] || []`. */
  function FeaturesOf(dataset: string): (fs: seq<Feature>)
    ensures dataset in Features ==> fs == Features[dataset]
    ensures dataset !in Features ==> fs == []
  {
    if dataset in Features then Features[dataset] else []
  }

  /** The filter callback: the lower-cased query occurs in the lower-cased name or description. */
  function MatchesQuery(query: string): Feature -> bool
  {
    (f: Feature) => Contains(Lower(f.name), Lower(query)) || Contains(Lower(f.description), Lower(query))
  }

  /** What `handleSearch` stores as results: nothing for a query that trims to empty,
      otherwise the dataset's matching features in their listed order. The matching
      uses the query as typed, untrimmed. */
  function SearchResults(dataset: string, query: string): (results: seq<Feature>)
    ensures IsBlank(query) ==> results == []
    ensures IsSubsequence(results, FeaturesOf(dataset))
    ensures forall k :: 0 <= k < |results| ==> MatchesQuery(query)(results[k])
    ensures !IsBlank(query) ==>
      forall f :: f in FeaturesOf(dataset) && MatchesQuery(query)(f) ==> f in results
  {
    FilterIsSubsequence(FeaturesOf(dataset), MatchesQuery(query));
    if IsBlank(query) then [] else Filter(FeaturesOf(dataset), MatchesQuery(query))
  }

  /** A dataset the toolbar has no landmarks for finds nothing, whatever is typed. */
  lemma UnknownDatasetFindsNothing(dataset: string, query: string)
    requires dataset !in Features
    ensures SearchResults(dataset, query) == []
  {
  }

  /** The three panels under the search box. */
  datatype Panel = Results(found: seq<Feature>) | NoResults | Popular(first: seq<Feature>)

  /** The first three landmarks, or all of them when there are fewer (`slice(0, 3)`). */
  function PopularFeatures(dataset: string): (fs: seq<Feature>)
    ensures |fs| <= 3 && fs <= FeaturesOf(dataset)
    ensures |FeaturesOf(dataset)| >= 3 ==> |fs| == 3
  {
    var all := FeaturesOf(dataset);
    if |all| <= 3 then all else all[..3]
  }

  /** The panel for the stored query and results: results when there are any, "No
      results found" for any non-empty query, else the popular list. */
  function PanelFor(dataset: string, searchQuery: string, searchResults: seq<Feature>): (p: Panel)
    ensures |searchResults| > 0 ==> p == Results(searchResults)
    ensures |searchResults| == 0 && searchQuery != "" ==> p == NoResults
    ensures |searchResults| == 0 && searchQuery == "" ==> p == Popular(PopularFeatures(dataset))
  {
    if |searchResults| > 0 then Results(searchResults)
    else if searchQuery != "" then NoResults
    else Popular(PopularFeatures(dataset))
  }

  /** A query of spaces finds nothing, yet the panel says "No results found" rather than
      going back to the popular list, because the stored query is the raw text. */
  lemma BlankQueryShowsNoResults(dataset: string, query: string)
    requires query != "" && IsBlank(query)
    ensures PanelFor(dataset, query, SearchResults(dataset, query)) == NoResults
  {
  }

  /** Clearing the box brings the popular list back. */
  lemma ClearedQueryShowsPopular(dataset: string)
    ensures PanelFor(dataset, "", SearchResults(dataset, "")) == Popular(PopularFeatures(dataset))
  {
  }

  /** `/explore?dataset=<name>`, the link behind each entry of the dataset menu. */
  function ExploreUrl(dataset: string): (url: string)
    ensures url == "/explore?dataset=" + dataset
  {
    assert Join(Pieces([("dataset", dataset)]), '&') == "dataset=" + dataset;
    WithQuery("/explore", [("dataset", dataset)])
  }

  /** The explorer page reads back the dataset the menu entry named. */
  lemma ExploreUrlRoundTrip(dataset: string)
    requires Plain(dataset)
    ensures GetParam(ExploreUrl(dataset), "dataset") == Some(dataset)
  {
    var ps := [("dataset", dataset)];
    assert Plain("dataset");
    GetParamOfBuilt("/explore", ps, 0);
  }

  class Bar {
    const dataset: string
    var isSearchOpen: bool
    var searchQuery: string
    var searchResults: seq<Feature>
    var isAnnotationActive: bool

    constructor (dataset: string)
      ensures this.dataset == dataset && !isSearchOpen && searchQuery == "" && searchResults == [] && !isAnnotationActive
    {
      this.dataset := dataset;
      isSearchOpen := false;
      searchQuery := "";
      searchResults := [];
      isAnnotationActive := false;
    }

    /** What the open search panel shows below the box. */
    function View(): Panel
      reads this
    {
      PanelFor(dataset, searchQuery, searchResults)
    }

    /** The search button toggles the panel; its close button only closes it. */
    method ToggleSearch()
      modifies this
      ensures isSearchOpen == !old(isSearchOpen)
      ensures searchQuery == old(searchQuery) && searchResults == old(searchResults) && isAnnotationActive == old(isAnnotationActive)
    {
      isSearchOpen := !isSearchOpen;
    }

    /** The panel's own close button. */
    method CloseSearch()
      modifies this
      ensures !isSearchOpen
      ensures searchQuery == old(searchQuery) && searchResults == old(searchResults) && isAnnotationActive == old(isAnnotationActive)
    {
      isSearchOpen := false;
    }

    /** Every keystroke in the search box. */
    method Search(query: string)
      modifies this
      ensures searchQuery == query && searchResults == SearchResults(dataset, query)
      ensures isSearchOpen == old(isSearchOpen) && isAnnotationActive == old(isAnnotationActive)
    {
      searchQuery := query;
      if !IsBlank(query) {
        searchResults := Filter(FeaturesOf(dataset), MatchesQuery(query));
      } else {
        searchResults := [];
      }
    }

    /** Flips the annotation flag and returns the value handed to `onAnnotationToggle`. */
    method ToggleAnnotation() returns (reported: bool)
      modifies this
      ensures isAnnotationActive == !old(isAnnotationActive) && reported == isAnnotationActive
      ensures isSearchOpen == old(isSearchOpen) && searchQuery == old(searchQuery) && searchResults == old(searchResults)
    {
      var newState := !isAnnotationActive;
      isAnnotationActive := newState;
      reported := newState;
    }
  }

  /** Lower-casing twice is lower-casing once. */
  /** Opening the panel and typing two spaces shows "No results found"; clearing the box
      then shows the popular landmarks again, and closing hides the panel. */
  method BlankThenCleared(dataset: string) returns (blank: Panel, cleared: Panel, open: bool)
    ensures blank == NoResults
    ensures cleared == Popular(PopularFeatures(dataset))
    ensures !open
  {
    var b := new Bar(dataset);
    b.ToggleSearch();
    assert IsBlank("  ");
    b.Search("  ");
    BlankQueryShowsNoResults(dataset, "  ");
    blank := b.View();
    b.Search("");
    cleared := b.View();
    b.CloseSearch();
    open := b.isSearchOpen;
  }

  lemma LowerIdempotent(s: string)
    ensures Lower(Lower(s)) == Lower(s)
  {
    var once := Lower(s);
    var twice := Lower(once);
    forall i | 0 <= i < |s|
      ensures twice[i] == once[i]
    {
      assert twice[i] == LowerChar(once[i]);
    }
  }

  /** Lower-casing never turns a character into or out of white space. */
  lemma LowerKeepsBlank(s: string)
    ensures IsBlank(Lower(s)) <==> IsBlank(s)
  {
    var r := Lower(s);
    forall i | 0 <= i < |s|
      ensures IsJsWhitespace(r[i]) <==> IsJsWhitespace(s[i])
    {
      assert r[i] == LowerChar(s[i]);
    }
  }

  /** The search ignores the case of the query: typing it in capitals finds the same features. */
  lemma SearchIgnoresCase(dataset: string, query: string)
    ensures SearchResults(dataset, Lower(query)) == SearchResults(dataset, query)
  {
    LowerKeepsBlank(query);
    LowerIdempotent(query);
    var fs := FeaturesOf(dataset);
    forall j | 0 <= j < |fs|
      ensures MatchesQuery(Lower(query))(fs[j]) == MatchesQuery(query)(fs[j])
    {
    }
    FilterCongruent(fs, MatchesQuery(Lower(query)), MatchesQuery(query));
  }

  /** Turning annotation mode on and off reports true, then false. */
  method AnnotationSwitchTwice() returns (first: bool, second: bool)
    ensures first && !second
  {
    var bar := new Bar("earth");
    first := bar.ToggleAnnotation();
    second := bar.ToggleAnnotation();
  }
}
