/** The catalog list: the choice between the full listing and the listing of
    the selected type, the case-insensitive name search, the progressive
    disclosure window and the loading / empty / ready view. */
module PokemonList {
  import opened Common

  /** One entry of a listing: a species name and the locator of its detail record. */
  datatype Entry = Entry(name: string, url: string)

  /** What a listing query reports: its data once resolved, and whether it is loading. */
  datatype Query = Query(data: Option<seq<Entry>>, isLoading: bool)

  /** The initial window and the step it grows by. */
  const PageSize: nat := 20

  /** `p.name.toLowerCase().includes(searchTerm.toLowerCase())`. */
  predicate Matches(e: Entry, term: string) {
    Contains(Lower(e.name), Lower(term))
  }

  /** `list.filter(...)` with `Matches`. */
  function FilterByName(list: seq<Entry>, term: string): (r: seq<Entry>)
    ensures |r| <= |list|
    ensures forall e :: e in r ==> e in list && Matches(e, term)
    ensures forall e :: e in list && Matches(e, term) ==> e in r
  {
    if list == [] then []
    else (if Matches(list[0], term) then [list[0]] else []) + FilterByName(list[1..], term)
  }

  /** The search keeps the source order. */
  lemma {:induction false} FilterByNameIsStable(list: seq<Entry>, term: string)
    ensures Subsequence(FilterByName(list, term), list)
    decreases |list|
  {
    if list != [] {
      var r, rest := FilterByName(list, term), FilterByName(list[1..], term);
      FilterByNameIsStable(list[1..], term);
      if Matches(list[0], term) {
        assert r[0] == list[0] && r[1..] == rest;
      } else {
        assert r == rest;
        assert r != [] ==> r[0] in rest && r[0] != list[0];
      }
    }
  }

  /** The search keeps each matching entry exactly as often as it occurs, and no other. */
  lemma {:induction false} FilterByNameCounts(list: seq<Entry>, term: string, e: Entry)
    ensures multiset(FilterByName(list, term))[e] == if Matches(e, term) then multiset(list)[e] else 0
    decreases |list|
  {
    if list != [] {
      FilterByNameCounts(list[1..], term, e);
      assert list == [list[0]] + list[1..];
      var head := if Matches(list[0], term) then [list[0]] else [];
      assert FilterByName(list, term) == head + FilterByName(list[1..], term);
    }
  }

  /** The search ignores the case of the term. */
  lemma {:induction false} FilterByNameIgnoresCase(list: seq<Entry>, t1: string, t2: string)
    requires Lower(t1) == Lower(t2)
    ensures FilterByName(list, t1) == FilterByName(list, t2)
    decreases |list|
  {
    if list != [] {
      FilterByNameIgnoresCase(list[1..], t1, t2);
    }
  }

  /** The listing the search runs over: the type listing when a type is selected. */
  function Source(all: Option<seq<Entry>>, byType: Option<seq<Entry>>, selectedType: Option<string>): (r: Option<seq<Entry>>)
  {
    if Truthy(selectedType) then byType else all
  }

  /** The `filteredPokemon` memo. */
  function Filtered(all: Option<seq<Entry>>, byType: Option<seq<Entry>>, selectedType: Option<string>, searchTerm: string): (r: seq<Entry>)
    ensures all.None? ==> r == []
    ensures Source(all, byType, selectedType).None? ==> r == []
    ensures all.Some? && Source(all, byType, selectedType).Some? ==>
      var source := Source(all, byType, selectedType).value;
      && (searchTerm == "" ==> r == source)
      && Subsequence(r, source)
      && (forall e :: e in r ==> Matches(e, searchTerm))
      && (forall e :: e in source && Matches(e, searchTerm) ==> e in r)
      && (searchTerm != "" ==> r == FilterByName(source, searchTerm))
  {
    if all.None? then []
    else
      var list := Source(all, byType, selectedType);
      if list.None? then []
      else if searchTerm != "" then
        FilterByNameIsStable(list.value, searchTerm);
        FilterByName(list.value, searchTerm)
      else
        SubsequenceOfSelf(list.value);
        list.value
  }

  /** With a type selected the result is drawn from the type listing, never from the full one. */
  lemma FilteredUsesTypeListing(all: seq<Entry>, byType: Option<seq<Entry>>, selectedType: Option<string>, searchTerm: string)
    requires Truthy(selectedType)
    ensures byType.None? ==> Filtered(Some(all), byType, selectedType, searchTerm) == []
    ensures byType.Some? ==> forall e :: e in Filtered(Some(all), byType, selectedType, searchTerm) ==> e in byType.value
  {
  }

  /** A one-letter search term matches exactly the names holding that letter. */
  lemma ContainsLetter(hay: string, c: char)
    ensures Contains(hay, [c]) <==> c in hay
  {
    if Contains(hay, [c]) {
      var i :| OccursAt(hay, [c], i);
      assert hay[i..i + 1][0] == hay[i];
    }
    if c in hay {
      var i :| 0 <= i < |hay| && hay[i] == c;
      assert hay[i..i + 1] == [c];
      assert OccursAt(hay, [c], i);
    }
  }

  /** A name matches a one-letter term exactly when it holds that letter in either case. */
  lemma MatchesLetter(e: Entry, c: char)
    ensures Matches(e, [c]) <==> LowerChar(c) in Lower(e.name)
  {
    assert Lower([c]) == [LowerChar(c)];
    ContainsLetter(Lower(e.name), LowerChar(c));
  }

  const ScenarioListing := [Entry("abra", "1"), Entry("geodude", "2"), Entry("onix", "3"), Entry("aron", "4")]

  lemma ScenarioMatches()
    ensures Matches(ScenarioListing[0], "A") && !Matches(ScenarioListing[1], "A")
    ensures !Matches(ScenarioListing[2], "A") && Matches(ScenarioListing[3], "A")
  {
    var list := ScenarioListing;
    MatchesLetter(list[0], 'A');
    MatchesLetter(list[1], 'A');
    MatchesLetter(list[2], 'A');
    MatchesLetter(list[3], 'A');
    assert Lower("abra")[0] == 'a' && Lower("aron")[0] == 'a';
    assert 'a' !in Lower("geodude") && 'a' !in Lower("onix");
  }

  /** A typed capital letter finds the lower-case names that contain it, in listing order. */
  lemma SearchScenario()
    ensures Filtered(Some(ScenarioListing), None, None, "A") == [ScenarioListing[0], ScenarioListing[3]]
  {
    ScenarioSearch();
  }

  lemma ScenarioSearch()
    ensures FilterByName(ScenarioListing, "A") == [ScenarioListing[0], ScenarioListing[3]]
  {
    var list := ScenarioListing;
    ScenarioMatches();
    assert FilterByName(list[3..], "A") == [list[3]];
    assert FilterByName(list[1..], "A") == [list[3]];
  }

  /** A search that matches nothing in the selected type's listing gives the empty view. */
  lemma EmptyTypeScenario()
    ensures ListView(Query(Some([Entry("pikachu", "1")]), false), Query(Some([Entry("ponyta", "2"), Entry("vulpix", "3")]), false),
                     Some("fire"), "z", PageSize) == Empty
  {
    MatchesLetter(Entry("ponyta", "2"), 'z');
    MatchesLetter(Entry("vulpix", "3"), 'z');
    assert 'z' !in Lower("ponyta") && 'z' !in Lower("vulpix");
  }

  /** One run of the infinite-scroll effect: `min(prev + 20, length)` when the
      sentinel is in view and not everything is shown, else no change. */
  function GrowStep(count: nat, inView: bool, total: nat): (r: nat)
    ensures inView && count < total ==> count < r <= total && r <= count + PageSize
    ensures inView && count < total && r < total ==> r == count + PageSize
    ensures !(inView && count < total) ==> r == count
  {
    if inView && count < total then
      if count + PageSize < total then count + PageSize else total
    else count
  }

  /** The window after the sentinel has been seen `k` times in a row. */
  function GrownTimes(count: nat, total: nat, k: nat): (r: nat)
    decreases k
  {
    if k == 0 then count else GrownTimes(GrowStep(count, true, total), total, k - 1)
  }

  /** Growth reaches exactly the filtered length after enough sightings, and stays there. */
  lemma {:induction false} GrowReachesTotal(count: nat, total: nat, k: nat)
    requires count <= total
    requires k * PageSize >= total - count
    ensures GrownTimes(count, total, k) == total
    decreases k
  {
    if k > 0 {
      GrowReachesTotal(GrowStep(count, true, total), total, k - 1);
    }
  }

  /** Growth never shrinks the window and never passes the filtered length. */
  lemma {:induction false} GrowMonotone(count: nat, total: nat, k: nat)
    requires count <= total
    ensures count <= GrownTimes(count, total, k) <= total
    decreases k
  {
    if k > 0 {
      GrowMonotone(GrowStep(count, true, total), total, k - 1);
    }
  }

  /** Forty-five results: 20, then 40, then 45, then no further growth. */
  lemma GrowScenario()
    ensures GrowStep(20, true, 45) == 40
    ensures GrowStep(40, true, 45) == 45
    ensures GrowStep(45, true, 45) == 45
  {
  }

  function Min(a: nat, b: nat): (m: nat) { if a < b then a else b }

  /** What the list renders. */
  datatype View =
    | Loading
    | Empty
    | Ready(showing: nat, total: nat, visible: seq<Entry>, sentinel: bool)

  /** The render of `PokemonList`: spinner, empty notice, or the window over the results. */
  function ListView(all: Query, byType: Query, selectedType: Option<string>, searchTerm: string, displayedCount: nat): (v: View)
    ensures v.Loading? <==> all.isLoading || (Truthy(selectedType) && byType.isLoading)
    ensures v.Empty? <==> !v.Loading? && Filtered(all.data, byType.data, selectedType, searchTerm) == []
    ensures v.Ready? ==>
      var filtered := Filtered(all.data, byType.data, selectedType, searchTerm);
      && v.total == |filtered| > 0
      && v.visible <= filtered
      && |v.visible| == v.showing == Min(displayedCount, |filtered|)
      && (v.sentinel <==> v.showing < v.total)
      && (v.sentinel <==> GrowStep(displayedCount, true, v.total) != displayedCount)
  {
    if all.isLoading || (Truthy(selectedType) && byType.isLoading) then
      Loading
    else
      var filtered := Filtered(all.data, byType.data, selectedType, searchTerm);
      if |filtered| == 0 then
        Empty
      else
        var shown := Min(displayedCount, |filtered|);
        Ready(shown, |filtered|, filtered[..shown], displayedCount < |filtered|)
  }

  /** The `displayedCount` state of one mounted list, with the filter values the
      reset effect last ran for. */
  class ListWindow {
    var displayedCount: nat
    var searchTerm: string
    var selectedType: Option<string>

    /** The window never drops below one page: it starts there, resets there and only grows. */
    ghost predicate Valid()
      reads this
    {
      displayedCount >= PageSize
    }

    /** Mounting: the count starts at 20 and the reset effect records the filter. */
    constructor (searchTerm: string, selectedType: Option<string>)
      ensures Valid()
      ensures displayedCount == PageSize
      ensures this.searchTerm == searchTerm && this.selectedType == selectedType
    {
      displayedCount := PageSize;
      this.searchTerm := searchTerm;
      this.selectedType := selectedType;
    }

    /** Because the window never drops below one page, a ready list always shows
        the first page, or every result when there are fewer. */
    lemma ShowsFirstPage(all: Query, byType: Query, selectedType: Option<string>, searchTerm: string)
      requires Valid()
      ensures var v := ListView(all, byType, selectedType, searchTerm, displayedCount);
        v.Ready? ==> v.showing >= Min(PageSize, v.total) && v.visible[..Min(PageSize, v.total)] == Filtered(all.data, byType.data, selectedType, searchTerm)[..Min(PageSize, v.total)]
    {
    }

    /** The infinite-scroll effect for the current filtered length. */
    method Grow(inView: bool, total: nat)
      requires Valid()
      modifies this
      ensures Valid()
      ensures displayedCount == GrowStep(old(displayedCount), inView, total)
      ensures searchTerm == old(searchTerm) && selectedType == old(selectedType)
    {
      if inView && displayedCount < total {
        displayedCount := Min(displayedCount + PageSize, total);
      }
    }

    /** The reset effect: runs when `searchTerm` or `selectedType` differs from
        what it last saw, and then sets the count to exactly 20. */
    method SyncFilter(term: string, selected: Option<string>)
      requires Valid()
      modifies this
      ensures Valid()
      ensures searchTerm == term && selectedType == selected
      ensures old(searchTerm) != term || old(selectedType) != selected ==> displayedCount == PageSize
      ensures old(searchTerm) == term && old(selectedType) == selected ==> displayedCount == old(displayedCount)
    {
      if term != searchTerm || selected != selectedType {
        displayedCount := PageSize;
      }
      searchTerm, selectedType := term, selected;
    }

    /** The effects of one commit, in declaration order: growth, then reset.
        When the filter changed, the reset wins. */
    method Commit(inView: bool, total: nat, term: string, selected: Option<string>)
      requires Valid()
      modifies this
      ensures Valid()
      ensures searchTerm == term && selectedType == selected
      ensures old(searchTerm) != term || old(selectedType) != selected ==> displayedCount == PageSize
      ensures old(searchTerm) == term && old(selectedType) == selected ==>
        displayedCount == GrowStep(old(displayedCount), inView, total)
    {
      Grow(inView, total);
      SyncFilter(term, selected);
    }
  }
}
