/** A project's dashboard: its conversation list, the selected conversation and the new-conversation form. */
module ProjectDashboard {
  import opened Wrappers
  import opened Strings
  import opened Records

  /** `xs.map(c => c.id === u.id ? u : c)`. */
  function ReplaceById(xs: seq<Record>, u: Record): (r: seq<Record>)
    ensures |r| == |xs|
    ensures forall i | 0 <= i < |xs| :: r[i] == if xs[i].id == u.id then u else xs[i]
    decreases |xs|
  {
    if xs == [] then []
    else
      var rest := ReplaceById(xs[1..], u);
      assert forall i | 1 <= i < |xs| :: xs[i] == xs[1..][i - 1];
      [if xs[0].id == u.id then u else xs[0]] + rest
  }

  /** Replacing keeps every id in place. */
  lemma ReplaceKeepsIds(xs: seq<Record>, u: Record)
    ensures Ids(ReplaceById(xs, u)) == Ids(xs)
  {
  }

  /** Replacing twice with the same record is replacing once. */
  lemma ReplaceIdempotent(xs: seq<Record>, u: Record)
    ensures ReplaceById(ReplaceById(xs, u), u) == ReplaceById(xs, u)
  {
  }

  /** An update for an id the list does not hold leaves the list unchanged. */
  lemma ReplaceAbsent(xs: seq<Record>, u: Record)
    requires u.id !in Ids(xs)
    ensures ReplaceById(xs, u) == xs
  {
    assert forall i | 0 <= i < |xs| :: xs[i].id != u.id by {
      forall i | 0 <= i < |xs| ensures xs[i].id != u.id {
        assert Ids(xs)[i] == xs[i].id;
      }
    }
  }

  class Dashboard {
    var conversations: seq<Record>
    var files: seq<Record>
    var selectedConv: Option<Record>
    var loading: bool
    var showNewConv: bool
    var newConvTitle: string

    constructor ()
      ensures conversations == [] && files == [] && selectedConv == None
      ensures loading && !showNewConv && newConvTitle == ""
    {
      conversations := [];
      files := [];
      selectedConv := None;
      loading := true;
      showNewConv := false;
      newConvTitle := "";
    }

    /**
     * `fetchData`; `response` is the project's conversations and files, `None`
     * when either request fails. A non-empty conversation list selects its
     * first conversation; an empty one keeps the previous selection.
     */
    method FetchData(response: Option<(seq<Record>, seq<Record>)>)
      modifies this
      ensures !loading && showNewConv == old(showNewConv) && newConvTitle == old(newConvTitle)
      ensures response == None ==>
        conversations == old(conversations) && files == old(files) && selectedConv == old(selectedConv)
      ensures response.Some? ==> conversations == response.value.0 && files == response.value.1
      ensures response.Some? && response.value.0 != [] ==> selectedConv == Some(response.value.0[0])
      ensures response.Some? && response.value.0 == [] ==> selectedConv == old(selectedConv)
    {
      loading := true;
      if response.Some? {
        var (convs, fs) := response.value;
        conversations := convs;
        files := fs;
        if |convs| > 0 {
          selectedConv := Some(convs[0]);
        }
      }
      loading := false;
    }

    method SetTitle(title: string)
      modifies this
      ensures newConvTitle == title
      ensures conversations == old(conversations) && files == old(files) && selectedConv == old(selectedConv)
      ensures loading == old(loading) && showNewConv == old(showNewConv)
    {
      newConvTitle := title;
    }

    /**
     * `handleCreateConversation`. `request` is the `(project id, title)`
     * posted, `None` when the title is blank; `response` is the created
     * conversation, `None` when the request fails.
     */
    method CreateConversation(projectId: string, response: Option<Record>) returns (request: Option<(string, string)>)
      modifies this
      ensures files == old(files) && loading == old(loading)
      ensures Trim(old(newConvTitle)) == "" ==> request == None
      ensures Trim(old(newConvTitle)) != "" ==> request == Some((projectId, old(newConvTitle)))
      ensures Trim(old(newConvTitle)) == "" || response == None ==>
        && conversations == old(conversations) && selectedConv == old(selectedConv)
        && newConvTitle == old(newConvTitle) && showNewConv == old(showNewConv)
      ensures Trim(old(newConvTitle)) != "" && response.Some? ==>
        && conversations == [response.value] + old(conversations) && selectedConv == response
        && newConvTitle == "" && !showNewConv
    {
      request := None;
      if Trim(newConvTitle) == "" {
        return;
      }
      request := Some((projectId, newConvTitle));
      if response.Some? {
        conversations := [response.value] + conversations;
        selectedConv := response;
        newConvTitle := "";
        showNewConv := false;
      }
    }

    /** `handleConversationUpdate`: the record replaces every entry with its id and becomes the selection. */
    method ConversationUpdate(updated: Record)
      modifies this
      ensures conversations == ReplaceById(old(conversations), updated)
      ensures selectedConv == Some(updated)
      ensures files == old(files) && loading == old(loading)
      ensures showNewConv == old(showNewConv) && newConvTitle == old(newConvTitle)
    {
      conversations := ReplaceById(conversations, updated);
      selectedConv := Some(updated);
    }
  }
}
