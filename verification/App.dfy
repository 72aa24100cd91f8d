/** The app shell's project list and which project is selected. */
module App {
  import opened Wrappers
  import opened Records

  /** `xs.filter(p => p.id !== id)`. */
  function RemoveById(xs: seq<Record>, id: string): (r: seq<Record>)
    ensures |r| <= |xs|
    ensures forall x :: x in r <==> x in xs && x.id != id
    decreases |xs|
  {
    if xs == [] then [] else
      var rest := RemoveById(xs[1..], id);
      assert forall x | x in xs :: x == xs[0] || x in xs[1..];
      (if xs[0].id == id then [] else [xs[0]]) + rest
  }

  /** Removal distributes over concatenation, so the remaining projects keep their order. */
  lemma {:induction false} RemoveByIdAppend(a: seq<Record>, b: seq<Record>, id: string)
    ensures RemoveById(a + b, id) == RemoveById(a, id) + RemoveById(b, id)
    decreases |a|
  {
    if a == [] {
      assert a + b == b;
    } else {
      assert (a + b)[0] == a[0];
      assert (a + b)[1..] == a[1..] + b;
      RemoveByIdAppend(a[1..], b, id);
    }
  }

  /** Deleting an id no project has leaves the list as it was. */
  lemma {:induction false} RemoveByIdAbsent(xs: seq<Record>, id: string)
    requires forall i | 0 <= i < |xs| :: xs[i].id != id
    ensures RemoveById(xs, id) == xs
    decreases |xs|
  {
    if xs != [] {
      RemoveByIdAbsent(xs[1..], id);
      assert xs == [xs[0]] + xs[1..];
    }
  }

  /** A new project prepended and then deleted by id is gone, and the others are as they were. */
  lemma CreateThenDelete(xs: seq<Record>, p: Record)
    requires forall i | 0 <= i < |xs| :: xs[i].id != p.id
    ensures RemoveById([p] + xs, p.id) == xs
  {
    RemoveByIdAppend([p], xs, p.id);
    RemoveByIdAbsent(xs, p.id);
  }

  class Shell {
    var projects: seq<Record>
    var selectedProject: Option<Record>
    var loading: bool
    var showNewProject: bool

    constructor ()
      ensures projects == [] && selectedProject == None && loading && !showNewProject
    {
      projects := [];
      selectedProject := None;
      loading := true;
      showNewProject := false;
    }

    /**
     * `fetchProjects`; `response` is the listed projects, `None` when the
     * request fails. A non-empty list selects its first project; an empty one
     * keeps the previous selection.
     */
    method FetchProjects(response: Option<seq<Record>>)
      modifies this
      ensures !loading && showNewProject == old(showNewProject)
      ensures response == None ==> projects == old(projects) && selectedProject == old(selectedProject)
      ensures response.Some? ==> projects == response.value
      ensures response.Some? && response.value != [] ==> selectedProject == Some(response.value[0])
      ensures response.Some? && response.value == [] ==> selectedProject == old(selectedProject)
    {
      loading := true;
      if response.Some? {
        projects := response.value;
        if |response.value| > 0 {
          selectedProject := Some(response.value[0]);
        }
      }
      loading := false;
    }

    /** `handleCreateProject`; `response` is the created project, `None` when the request fails. */
    method CreateProject(response: Option<Record>)
      modifies this
      ensures loading == old(loading)
      ensures response == None ==>
        projects == old(projects) && selectedProject == old(selectedProject) && showNewProject == old(showNewProject)
      ensures response.Some? ==>
        projects == [response.value] + old(projects) && selectedProject == response && !showNewProject
    {
      if response.Some? {
        projects := [response.value] + projects;
        selectedProject := response;
        showNewProject := false;
      }
    }

    /**
     * `handleDeleteProject`; `deleted` is whether the request succeeded. The
     * selection moves to the first remaining project, or to none, whichever
     * project was selected before.
     */
    method DeleteProject(projectId: string, deleted: bool)
      modifies this
      ensures loading == old(loading) && showNewProject == old(showNewProject)
      ensures !deleted ==> projects == old(projects) && selectedProject == old(selectedProject)
      ensures deleted ==> projects == RemoveById(old(projects), projectId)
      ensures deleted ==> selectedProject == if projects == [] then None else Some(projects[0])
      ensures deleted ==> forall i | 0 <= i < |projects| :: projects[i].id != projectId
    {
      if deleted {
        var filtered := RemoveById(projects, projectId);
        projects := filtered;
        selectedProject := if filtered == [] then None else Some(filtered[0]);
      }
    }
  }
}
