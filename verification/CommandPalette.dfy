/**
 * The command palette component: the flat result list it navigates, the
 * query handler that runs a search, and the keyboard machine that moves the
 * highlighted index and dispatches selections to the palette's reducer.
 */
module CommandPalette {
  import opened Wrappers
  import opened Strings
  import opened Records
  import opened SearchEngine
  import opened CommandPaletteContext

  /** One entry of the flat list: the group's tag, the item and its score. */
  datatype FlatItem = FlatItem(kind: Kind, item: Record, score: nat)

  /** The keys the handlers tell apart. */
  datatype Key = Escape | ArrowDown | ArrowUp | Enter | Other(name: string)

  function Tagged(hits: seq<Hit>, kind: Kind): (r: seq<FlatItem>)
    ensures |r| == |hits|
    ensures forall i | 0 <= i < |hits| :: r[i] == FlatItem(kind, hits[i].item, hits[i].score)
  {
    seq(|hits|, i requires 0 <= i < |hits| => FlatItem(kind, hits[i].item, hits[i].score))
  }

  /**
   * Project results, then file results, each in its group's order; file `i`
   * sits at position `|projects| + i`, which is where the file group
   * highlights it.
   */
  function Flatten(results: Results): (flat: seq<FlatItem>)
    ensures |flat| == |results.projects| + |results.files|
    ensures forall i | 0 <= i < |results.projects| ::
      flat[i].kind == ProjectKind && flat[i].item == results.projects[i].item
    ensures forall i | 0 <= i < |results.files| ::
      flat[|results.projects| + i].kind == FileKind && flat[|results.projects| + i].item == results.files[i].item
  {
    Tagged(results.projects, ProjectKind) + Tagged(results.files, FileKind)
  }

  /** The action a flat entry dispatches when chosen. */
  function Choose(entry: FlatItem): (a: Action)
    ensures entry.kind == ProjectKind ==> a == SelectProject(entry.item)
    ensures entry.kind == FileKind ==> a == SelectFile(entry.item)
  {
    if entry.kind == ProjectKind then SelectProject(entry.item) else SelectFile(entry.item)
  }

  /** The largest index the arrows reach in a list of `n` entries. */
  function LastIndex(n: nat): nat
  {
    if n == 0 then 0 else n - 1
  }

  /** The palette component together with the reducer state it reads. */
  class Palette {
    const engine: Engine
    var context: State
    /** The flattened results, kept in step with `context.results`. */
    var allResults: seq<FlatItem>
    /** The highlighted entry. */
    var selectedIndex: int

    ghost predicate Valid()
      reads this
    {
      && allResults == Flatten(context.results)
      && 0 <= selectedIndex
      && (context.isOpen ==> selectedIndex <= LastIndex(|allResults|))
    }

    constructor (engine: Engine)
      ensures Valid()
      ensures this.engine == engine && context == InitialState && selectedIndex == 0
    {
      this.engine := engine;
      context := InitialState;
      allResults := [];
      selectedIndex := 0;
    }

    /** Indexes non-empty project and file lists; an empty list leaves the previous index in place. */
    method IndexData(projects: seq<Record>, files: seq<Record>)
      modifies engine
      ensures engine.projectIndex == if projects != [] then Some(projects) else old(engine.projectIndex)
      ensures engine.fileIndex == if files != [] then Some(files) else old(engine.fileIndex)
    {
      if projects != [] {
        engine.InitializeProjects(Some(projects));
      }
      if files != [] {
        engine.InitializeFiles(Some(files));
      }
    }

    /** `openPalette()`; the selection is reset when the palette becomes visible. */
    method Open() returns (dispatched: seq<Action>)
      requires Valid()
      modifies this
      ensures Valid()
      ensures dispatched == [CommandPaletteContext.Open]
      ensures context == ReduceAll(old(context), dispatched)
      ensures context.isOpen
      ensures selectedIndex == if old(context.isOpen) then old(selectedIndex) else 0
    {
      dispatched := [CommandPaletteContext.Open];
      ReduceAllShort(context, CommandPaletteContext.Open, CommandPaletteContext.Open);
      if !context.isOpen {
        selectedIndex := 0;
      }
      context := Reduce(context, CommandPaletteContext.Open);
    }

    /** `closePalette()`: the results, and so the flat list, are emptied; the index is left as it was. */
    method Close() returns (dispatched: seq<Action>)
      requires Valid()
      modifies this
      ensures Valid()
      ensures dispatched == [CommandPaletteContext.Close]
      ensures context == ReduceAll(old(context), dispatched) && context == InitialState
      ensures allResults == [] && selectedIndex == old(selectedIndex)
    {
      dispatched := [CommandPaletteContext.Close];
      ReduceAllShort(context, CommandPaletteContext.Close, CommandPaletteContext.Close);
      context := Reduce(context, CommandPaletteContext.Close);
      allResults := Flatten(context.results);
    }

    /** `handleQueryChange`: stores the query, searches when its trimmed length reaches 2, resets the index. */
    method QueryChange(query: string) returns (dispatched: seq<Action>)
      requires Valid()
      modifies this
      ensures Valid()
      ensures |Trim(query)| >= 2 ==> dispatched == [SetQuery(query), SetResults(engine.SearchAll(query))]
      ensures |Trim(query)| < 2 ==> dispatched == [SetQuery(query), SetResults(NoResults)]
      ensures context == ReduceAll(old(context), dispatched)
      ensures context.searchQuery == query && context.isOpen == old(context.isOpen)
      ensures selectedIndex == 0
    {
      var results := if |Trim(query)| >= 2 then engine.SearchAll(query) else NoResults;
      dispatched := [SetQuery(query), SetResults(results)];
      Show(query, results);
    }

    /** Stores the query and its results, and puts the highlight on the first entry. */
    method Show(query: string, results: Results)
      requires Valid()
      modifies this
      ensures Valid()
      ensures context == ReduceAll(old(context), [SetQuery(query), SetResults(results)])
      ensures context.searchQuery == query && context.isOpen == old(context.isOpen)
      ensures selectedIndex == 0
    {
      QueryThenResults(context, query, results);
      context := context.(searchQuery := query, results := results, selectedIndex := 0);
      allResults := Flatten(results);
      selectedIndex := 0;
    }

    /** `handleKeyDown`. */
    method KeyDown(key: Key) returns (dispatched: seq<Action>)
      requires Valid()
      modifies this
      ensures Valid()
      ensures context == ReduceAll(old(context), dispatched)
      ensures key.Escape? ==> dispatched == [CommandPaletteContext.Close] && selectedIndex == old(selectedIndex)
      ensures key.ArrowDown? ==> (
        && dispatched == []
        && selectedIndex == if old(selectedIndex) < |allResults| - 1 then old(selectedIndex) + 1 else old(selectedIndex))
      ensures key.ArrowUp? ==> (
        && dispatched == []
        && selectedIndex == if old(selectedIndex) > 0 then old(selectedIndex) - 1 else old(selectedIndex))
      ensures key.Enter? && 0 < |old(allResults)| && old(selectedIndex) < |old(allResults)| ==>
        dispatched == [Choose(old(allResults)[old(selectedIndex)]), CommandPaletteContext.Close]
        && selectedIndex == old(selectedIndex)
      ensures key.Enter? && !(0 < |old(allResults)| && old(selectedIndex) < |old(allResults)|) ==>
        dispatched == [] && selectedIndex == old(selectedIndex)
      ensures key.Other? ==> dispatched == [] && selectedIndex == old(selectedIndex)
      ensures context.isOpen ==> 0 <= selectedIndex <= LastIndex(|allResults|)
    {
      dispatched := [];
      ReduceAllShort(context, CommandPaletteContext.Close, CommandPaletteContext.Close);
      match key
      case Escape =>
        dispatched := Close();
      case ArrowDown =>
        if selectedIndex < |allResults| - 1 {
          selectedIndex := selectedIndex + 1;
        }
      case ArrowUp =>
        if selectedIndex > 0 {
          selectedIndex := selectedIndex - 1;
        }
      case Enter =>
        if |allResults| > 0 && selectedIndex < |allResults| {
          var choice := Choose(allResults[selectedIndex]);
          ReduceAllShort(context, choice, CommandPaletteContext.Close);
          context := Reduce(context, choice);
          var closing := Close();
          dispatched := [choice] + closing;
        }
      case Other(_) =>
    }

    /** Clicking entry `i` of the list selects it according to its group and closes. */
    method Click(i: nat) returns (dispatched: seq<Action>)
      requires Valid() && i < |allResults|
      modifies this
      ensures Valid()
      ensures dispatched == [Choose(old(allResults)[i]), CommandPaletteContext.Close]
      ensures context == ReduceAll(old(context), dispatched)
      ensures selectedIndex == old(selectedIndex)
    {
      var choice := Choose(allResults[i]);
      ReduceAllShort(context, choice, CommandPaletteContext.Close);
      context := Reduce(context, choice);
      var closing := Close();
      dispatched := [choice] + closing;
    }
  }

  /** Choosing an entry with Enter or a click leaves the context with no selection, since Close follows. */
  lemma ChoiceIsClearedByClose(state: State, entry: FlatItem)
    ensures ReduceAll(state, [Choose(entry), CommandPaletteContext.Close]).selectedResult == None
  {
    ReduceAllShort(state, Choose(entry), CommandPaletteContext.Close);
  }
}
