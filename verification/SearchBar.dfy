/**
 * The inline search bar: a query whose untrimmed length decides whether the
 * dropdown shows, at most five results per group, and a highlighted index
 * that runs from -1 (nothing highlighted) to the last result.
 */
module SearchBar {
  import opened Wrappers
  import opened Strings
  import opened Records
  import opened SearchEngine
  import opened CommandPaletteContext
  import opened CommandPalette

  /** Results shown per group. */
  const Cap := 5

  /** `hits.slice(0, 5)`. */
  function Capped(hits: seq<Hit>): (r: seq<Hit>)
    ensures |r| == if |hits| < Cap then |hits| else Cap
    ensures r == hits[..|r|]
  {
    if |hits| <= Cap then hits else hits[..Cap]
  }

  function Total(results: Results): nat
  {
    |results.projects| + |results.files|
  }

  /** What the query effect shows for a query of at least two characters. */
  function Shown(engine: Engine, query: string): (r: Results)
    reads engine
    ensures |r.projects| == if |engine.SearchProjects(query)| < Cap then |engine.SearchProjects(query)| else Cap
    ensures |r.files| == if |engine.SearchFiles(query)| < Cap then |engine.SearchFiles(query)| else Cap
    ensures r.projects == engine.SearchProjects(query)[..|r.projects|]
    ensures r.files == engine.SearchFiles(query)[..|r.files|]
  {
    var projects := engine.SearchProjects(query);
    var files := engine.SearchFiles(query);
    Results(Capped(projects), Capped(files))
  }

  class Bar {
    const engine: Engine
    var query: string
    var results: Results
    var isOpen: bool
    var selectedIndex: int

    ghost predicate Valid()
      reads this
    {
      && -1 <= selectedIndex
      && |results.projects| <= Cap && |results.files| <= Cap
      && (isOpen ==> |query| >= 2)
      && (|query| >= 2 ==> selectedIndex < Total(results))
      && (|query| < 2 ==> results == NoResults)
    }

    constructor (engine: Engine)
      ensures Valid()
      ensures this.engine == engine
      ensures query == "" && results == NoResults && !isOpen && selectedIndex == -1
    {
      this.engine := engine;
      query := "";
      results := NoResults;
      isOpen := false;
      selectedIndex := -1;
    }

    /**
     * `setQuery(q)` and the effect that runs when the query changes: two or
     * more characters, counted before trimming, open the dropdown with the
     * capped results and nothing highlighted; fewer close it with no results.
     */
    method SetQuery(q: string)
      requires Valid()
      modifies this
      ensures Valid()
      ensures query == q
      ensures q == old(query) ==>
        results == old(results) && isOpen == old(isOpen) && selectedIndex == old(selectedIndex)
      ensures q != old(query) && |q| >= 2 ==>
        isOpen && selectedIndex == -1 && results == Shown(engine, q)
      ensures q != old(query) && |q| < 2 ==>
        !isOpen && results == NoResults && selectedIndex == old(selectedIndex)
    {
      if q != query {
        query := q;
        if |q| >= 2 {
          results := Shown(engine, q);
          isOpen := true;
          selectedIndex := -1;
        } else {
          results := NoResults;
          isOpen := false;
        }
      }
    }

    /** Focusing the input reopens the dropdown when the query is long enough. */
    method Focus()
      requires Valid()
      modifies this
      ensures Valid()
      ensures isOpen == (old(isOpen) || |query| >= 2)
      ensures query == old(query) && results == old(results) && selectedIndex == old(selectedIndex)
    {
      if |query| >= 2 {
        isOpen := true;
      }
    }

    /** A mouse press outside the bar closes the dropdown and keeps everything else. */
    method ClickOutside()
      requires Valid()
      modifies this
      ensures Valid()
      ensures !isOpen
      ensures query == old(query) && results == old(results) && selectedIndex == old(selectedIndex)
    {
      isOpen := false;
    }

    /** The clear button: empty query, no results, closed, nothing highlighted. */
    method ClearQuery()
      requires Valid()
      modifies this
      ensures Valid()
      ensures query == "" && results == NoResults && !isOpen && selectedIndex == -1
    {
      SetQuery("");
      isOpen := false;
      selectedIndex := -1;
    }

    /** `handleSelect`: reports the choice to the matching callback, clears the query and closes. */
    method Select(kind: Kind, item: Record) returns (chosen: Selection)
      requires Valid()
      modifies this
      ensures Valid()
      ensures chosen == Selection(kind, item)
      ensures query == "" && results == NoResults && !isOpen && selectedIndex == old(selectedIndex)
    {
      chosen := Selection(kind, item);
      SetQuery("");
      isOpen := false;
    }

    /** `handleKeyDown`; `chosen` is the selection reported to a callback, if any. */
    method KeyDown(key: Key) returns (chosen: Option<Selection>)
      requires Valid()
      modifies this
      ensures Valid()
      ensures isOpen ==> -1 <= selectedIndex < Total(results)
      ensures !old(isOpen) && !key.Escape? ==>
        && chosen == None && isOpen == old(isOpen)
        && query == old(query) && results == old(results) && selectedIndex == old(selectedIndex)
      ensures old(isOpen) && key.ArrowDown? ==>
        && chosen == None && isOpen && query == old(query) && results == old(results)
        && selectedIndex == if old(selectedIndex) < Total(results) - 1 then old(selectedIndex) + 1 else old(selectedIndex)
      ensures old(isOpen) && key.ArrowUp? ==>
        && chosen == None && isOpen && query == old(query) && results == old(results)
        && selectedIndex == if old(selectedIndex) > 0 then old(selectedIndex) - 1 else -1
      ensures old(isOpen) && key.Enter? && old(selectedIndex) >= 0 ==>
        && old(selectedIndex) < |Flatten(old(results))|
        && chosen == Some(Selection(Flatten(old(results))[old(selectedIndex)].kind,
                                    Flatten(old(results))[old(selectedIndex)].item))
        && query == "" && results == NoResults && !isOpen && selectedIndex == old(selectedIndex)
      ensures old(isOpen) && key.Enter? && old(selectedIndex) < 0 ==>
        && chosen == None && isOpen && query == old(query) && results == old(results)
        && selectedIndex == old(selectedIndex)
      ensures key.Escape? ==>
        chosen == None && query == "" && results == NoResults && !isOpen && selectedIndex == -1
      ensures old(isOpen) && key.Other? ==>
        && chosen == None && isOpen && query == old(query) && results == old(results)
        && selectedIndex == old(selectedIndex)
    {
      chosen := None;
      var total: int := Total(results);
      if !isOpen && !key.Escape? {
        return;
      }
      match key
      case ArrowDown =>
        isOpen := true;
        if selectedIndex < total - 1 {
          selectedIndex := selectedIndex + 1;
        }
      case ArrowUp =>
        selectedIndex := if selectedIndex > 0 then selectedIndex - 1 else -1;
      case Enter =>
        if selectedIndex >= 0 {
          var flat := Flatten(results);
          if selectedIndex < |flat| {
            var picked := Select(flat[selectedIndex].kind, flat[selectedIndex].item);
            chosen := Some(picked);
          }
        }
      case Escape =>
        isOpen := false;
        SetQuery("");
        selectedIndex := -1;
      case Other(_) =>
    }
  }

  /**
   * Whitespace and one letter open the dropdown, since its untrimmed length
   * is at least two, yet show no results, since the engine trims it to one
   * character.
   */
  lemma PaddedLetterOpensEmpty(engine: Engine, pad: string, c: char)
    requires AllSpace(pad) && |pad| >= 1 && !IsSpace(c)
    ensures |pad + [c]| >= 2
    ensures Shown(engine, pad + [c]) == NoResults
  {
    PaddedLetterIsShort(pad, c);
  }
}
