/**
 * The command palette's global state and its reducer: a pure transition
 * function from a state and an action to the next state.
 */
module CommandPaletteContext {
  import opened Wrappers
  import opened Records
  import opened SearchEngine

  /** The `type` tag of a selected result. */
  datatype Kind = ProjectKind | FileKind

  /** `{type, data}`: a chosen result and its record. */
  datatype Selection = Selection(kind: Kind, data: Record)

  datatype State = State(
    isOpen: bool,
    searchQuery: string,
    results: Results,
    selectedIndex: int,
    selectedResult: Option<Selection>)

  /** The actions the provider dispatches, with their payloads; `Unknown` is any other type. */
  datatype Action =
    | Open
    | Close
    | SetQuery(query: string)
    | SetResults(results: Results)
    | SelectProject(project: Record)
    | SelectFile(file: Record)
    | Reset
    | Unknown(tag: string)

  const InitialState := State(false, "", NoResults, 0, None)

  /** `commandPaletteReducer(state, action)`. */
  function Reduce(state: State, action: Action): (r: State)
    ensures action.Open? ==>
      && r.isOpen && r.selectedIndex == 0
      && r.searchQuery == state.searchQuery && r.results == state.results
      && r.selectedResult == state.selectedResult
    ensures action.Close? || action.Reset? ==> r == InitialState
    ensures action.SetQuery? ==>
      && r.searchQuery == action.query && r.selectedIndex == 0
      && r.isOpen == state.isOpen && r.results == state.results
      && r.selectedResult == state.selectedResult
    ensures action.SetResults? ==>
      && r.results == action.results && r.selectedIndex == 0
      && r.isOpen == state.isOpen && r.searchQuery == state.searchQuery
      && r.selectedResult == state.selectedResult
    ensures action.SelectProject? || action.SelectFile? ==>
      && r.selectedResult.Some?
      && r.selectedResult.value.kind == (if action.SelectProject? then ProjectKind else FileKind)
      && r.selectedResult.value.data == (if action.SelectProject? then action.project else action.file)
      && r.isOpen == state.isOpen && r.searchQuery == state.searchQuery
      && r.results == state.results && r.selectedIndex == state.selectedIndex
    ensures action.Unknown? ==> r == state
  {
    match action
    case Open => state.(isOpen := true, selectedIndex := 0)
    case Close =>
      state.(isOpen := false, searchQuery := "", results := NoResults, selectedIndex := 0, selectedResult := None)
    case SetQuery(query) => state.(searchQuery := query, selectedIndex := 0)
    case SetResults(results) => state.(results := results, selectedIndex := 0)
    case SelectProject(project) => state.(selectedResult := Some(Selection(ProjectKind, project)))
    case SelectFile(file) => state.(selectedResult := Some(Selection(FileKind, file)))
    case Reset => InitialState
    case Unknown(_) => state
  }

  /** The state after dispatching `actions` in order. */
  function ReduceAll(state: State, actions: seq<Action>): State
    decreases |actions|
  {
    if actions == [] then state else ReduceAll(Reduce(state, actions[0]), actions[1..])
  }

  /** Dispatching one action, or two in a row. */
  lemma ReduceAllShort(state: State, a: Action, b: Action)
    ensures ReduceAll(state, []) == state
    ensures ReduceAll(state, [a]) == Reduce(state, a)
    ensures ReduceAll(state, [a, b]) == Reduce(Reduce(state, a), b)
  {
    assert [a][1..] == [];
    assert [b][1..] == [];
    assert [a, b][1..] == [b];
    calc {
      ReduceAll(state, [a, b]);
      ReduceAll(Reduce(state, a), [b]);
      ReduceAll(Reduce(Reduce(state, a), b), []);
    }
  }

  /** A query followed by its results, as the palette's input handler dispatches them. */
  lemma QueryThenResults(state: State, query: string, results: Results)
    ensures ReduceAll(state, [SetQuery(query), SetResults(results)]) ==
      state.(searchQuery := query, results := results, selectedIndex := 0)
  {
    ReduceAllShort(state, SetQuery(query), SetResults(results));
  }

  /** Open, Close and Reset are idempotent. */
  lemma OpenCloseResetIdempotent(state: State, action: Action)
    requires action.Open? || action.Close? || action.Reset?
    ensures Reduce(Reduce(state, action), action) == Reduce(state, action)
  {
  }

  /** Only the selection actions touch `selectedResult`, and only Close and Reset clear it. */
  lemma SelectionChangesOnlyBySelectOrClear(state: State, action: Action)
    ensures var r := Reduce(state, action);
      r.selectedResult != state.selectedResult ==>
        action.SelectProject? || action.SelectFile? || action.Close? || action.Reset?
  {
  }

  /** A selection followed by Close, as the palette's Enter and click handlers dispatch them, leaves no selection. */
  lemma SelectThenCloseLeavesNoSelection(state: State, action: Action)
    requires action.SelectProject? || action.SelectFile?
    ensures Reduce(Reduce(state, action), Close).selectedResult == None
  {
  }

  /** The reducer only ever stores 0 as `selectedIndex`, so from the initial state it stays 0. */
  lemma {:induction false} SelectedIndexStaysZero(state: State, actions: seq<Action>)
    requires state.selectedIndex == 0
    ensures ReduceAll(state, actions).selectedIndex == 0
    decreases |actions|
  {
    if actions != [] {
      SelectedIndexStaysZero(Reduce(state, actions[0]), actions[1..]);
    }
  }

  /** Whatever was dispatched before, a final Close restores the initial state. */
  lemma {:induction false} CloseAfterAnything(state: State, actions: seq<Action>)
    ensures ReduceAll(state, actions + [Close]) == InitialState
    decreases |actions|
  {
    if actions == [] {
      assert actions + [Close] == [Close];
    } else {
      assert (actions + [Close])[1..] == actions[1..] + [Close];
      CloseAfterAnything(Reduce(state, actions[0]), actions[1..]);
    }
  }
}
