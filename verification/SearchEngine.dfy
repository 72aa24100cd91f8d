/**
 * The frontend's search service: one fuzzy index over projects and one over
 * files, each absent until a non-empty list is indexed.
 *
 * Fuse.js is abstract here. An index is the list it was built from, and the
 * engine holds, per index, Fuse's matcher with that index's fixed options
 * (keys, weights, threshold) as a `Scorer`: the score of an item for a query,
 * or `None` when the item does not match. A search returns the matching items
 * ordered the way Fuse's default sort orders them: by score, closest first,
 * and among equal scores by position in the indexed list.
 */
module SearchEngine {
  import opened Wrappers
  import opened Strings
  import opened Records

  /** One search result: the item, its score (lower is closer) and its position in the indexed list. */
  datatype Hit = Hit(item: Record, score: nat, refIndex: nat)

  /** The two result groups the UI shows. */
  datatype Results = Results(projects: seq<Hit>, files: seq<Hit>)

  const NoResults := Results([], [])

  /** Fuse's matcher for one index's options. */
  type Scorer = (Record, string) -> Option<nat>

  // ---------------------------------------------------------------------------
  // The abstract index
  // ---------------------------------------------------------------------------

  /** Fuse's result order: by score, then by position in the indexed list. */
  predicate Before(a: Hit, b: Hit)
  {
    a.score < b.score || (a.score == b.score && a.refIndex <= b.refIndex)
  }

  predicate Ranked(hits: seq<Hit>)
  {
    forall i, j | 0 <= i < j < |hits| :: Before(hits[i], hits[j])
  }

  /** Non-decreasing scores: what callers of a search may rely on. */
  predicate ScoresAscend(hits: seq<Hit>)
  {
    forall i, j | 0 <= i < j < |hits| :: hits[i].score <= hits[j].score
  }

  /** A hit that comes before every hit of a ranked list can head it. */
  lemma RankedCons(x: Hit, rest: seq<Hit>)
    requires Ranked(rest) && forall y | y in rest :: Before(x, y)
    ensures Ranked([x] + rest)
  {
    var r := [x] + rest;
    forall i, j | 0 <= i < j < |r| ensures Before(r[i], r[j]) {
      assert r[j] == rest[j - 1];
      if i > 0 {
        assert r[i] == rest[i - 1];
      }
    }
  }

  /** The head of a ranked list comes before every later hit, and the tail stays ranked. */
  lemma RankedTail(hits: seq<Hit>)
    requires Ranked(hits) && hits != []
    ensures Ranked(hits[1..])
    ensures forall y | y in hits[1..] :: Before(hits[0], y)
  {
    forall y | y in hits[1..] ensures Before(hits[0], y) {
      var k :| 0 <= k < |hits[1..]| && hits[1..][k] == y;
      assert hits[k + 1] == y;
    }
  }

  /** Puts `h` into a ranked list. */
  function Insert(h: Hit, hits: seq<Hit>): (r: seq<Hit>)
    requires Ranked(hits)
    ensures Ranked(r)
    ensures multiset(r) == multiset(hits) + multiset{h}
    decreases |hits|
  {
    if hits == [] then [h]
    else
      RankedTail(hits);
      assert hits == [hits[0]] + hits[1..];
      if Before(h, hits[0]) then
        RankedCons(h, hits);
        [h] + hits
      else
        var rest := Insert(h, hits[1..]);
        assert forall y | y in rest :: Before(hits[0], y) by {
          forall y | y in rest ensures Before(hits[0], y) {
            assert y in multiset(rest);
            if y != h {
              assert y in multiset(hits[1..]);
            }
          }
        }
        RankedCons(hits[0], rest);
        [hits[0]] + rest
  }

  /** Sorts hits into Fuse's result order. */
  function Sort(hits: seq<Hit>): (r: seq<Hit>)
    ensures Ranked(r)
    ensures multiset(r) == multiset(hits)
    decreases |hits|
  {
    if hits == [] then []
    else
      assert hits == [hits[0]] + hits[1..];
      Insert(hits[0], Sort(hits[1..]))
  }

  /** The items at positions `from`, `from + 1`, ... that match `query`, each with its score. */
  function Matches(items: seq<Record>, score: Scorer, query: string, from: nat): (r: seq<Hit>)
    ensures forall h | h in r ::
      from <= h.refIndex < from + |items| && h.item == items[h.refIndex - from] && score(h.item, query) == Some(h.score)
    ensures forall i | 0 <= i < |items| && score(items[i], query).Some? ::
      Hit(items[i], score(items[i], query).value, from + i) in r
    decreases |items|
  {
    if items == [] then []
    else
      var rest := Matches(items[1..], score, query, from + 1);
      assert forall i | 1 <= i < |items| :: items[i] == items[1..][i - 1];
      match score(items[0], query)
      case Some(s) => [Hit(items[0], s, from)] + rest
      case None => rest
  }

  /** Positions strictly increase along the list, so no position, and no hit, occurs twice. */
  predicate Increasing(hits: seq<Hit>)
  {
    forall i, j | 0 <= i < j < |hits| :: hits[i].refIndex < hits[j].refIndex
  }

  /** A hit placed before a list of later positions keeps positions increasing. */
  lemma IncreasingCons(h: Hit, rest: seq<Hit>)
    requires Increasing(rest) && forall x | x in rest :: h.refIndex < x.refIndex
    ensures Increasing([h] + rest)
  {
    var r := [h] + rest;
    forall i, j | 0 <= i < j < |r| ensures r[i].refIndex < r[j].refIndex {
      assert r[j] == rest[j - 1];
      if i > 0 {
        assert r[i] == rest[i - 1];
      }
    }
  }

  /** The matches come in the order of the indexed list, each position once. */
  lemma {:induction false} MatchesIncreasing(items: seq<Record>, score: Scorer, query: string, from: nat)
    ensures Increasing(Matches(items, score, query, from))
    decreases |items|
  {
    if items != [] {
      MatchesIncreasing(items[1..], score, query, from + 1);
      var rest := Matches(items[1..], score, query, from + 1);
      if score(items[0], query).Some? {
        IncreasingCons(Hit(items[0], score(items[0], query).value, from), rest);
      }
    }
  }

  /** In a list with increasing positions every member occurs exactly once. */
  lemma {:induction false} IncreasingOnce(hits: seq<Hit>, h: Hit)
    requires Increasing(hits) && h in hits
    ensures multiset(hits)[h] == 1
    decreases |hits|
  {
    assert hits == [hits[0]] + hits[1..];
    if h == hits[0] {
      assert h !in hits[1..] by {
        forall k | 0 <= k < |hits[1..]| ensures hits[1..][k] != h {
          assert hits[1..][k] == hits[k + 1];
        }
      }
    } else {
      IncreasingOnce(hits[1..], h);
    }
  }

  /** A hit at two positions of a list occurs at least twice in it. */
  lemma RepeatCountsTwice(hits: seq<Hit>, i: nat, j: nat)
    requires i < j < |hits| && hits[i] == hits[j]
    ensures multiset(hits)[hits[i]] >= 2
  {
    assert hits == hits[..j] + [hits[j]] + hits[j + 1..];
    assert hits[i] in hits[..j];
  }

  /** A permutation of a list with increasing positions never repeats a position. */
  lemma PermutationKeepsPositionsApart(r: seq<Hit>, m: seq<Hit>)
    requires Increasing(m) && multiset(r) == multiset(m)
    ensures forall i, j | 0 <= i < j < |r| :: r[i].refIndex != r[j].refIndex
  {
    forall i, j | 0 <= i < j < |r| ensures r[i].refIndex != r[j].refIndex {
      if r[i].refIndex == r[j].refIndex {
        assert r[i] in multiset(m) && r[j] in multiset(m);
        var a :| 0 <= a < |m| && m[a] == r[i];
        var b :| 0 <= b < |m| && m[b] == r[j];
        assert a == b;
        RepeatCountsTwice(r, i, j);
        IncreasingOnce(m, r[i]);
        assert false;
      }
    }
  }

  /** `fuse.search(query)` on an index built from `items`. */
  function FuseSearch(items: seq<Record>, score: Scorer, query: string): (r: seq<Hit>)
    ensures Ranked(r) && ScoresAscend(r)
    ensures multiset(r) == multiset(Matches(items, score, query, 0))
    ensures forall i, j | 0 <= i < j < |r| :: r[i].refIndex != r[j].refIndex
    ensures forall h | h in r :: h.item in items && score(h.item, query) == Some(h.score)
    ensures forall i | 0 <= i < |items| && score(items[i], query).Some? ::
      Hit(items[i], score(items[i], query).value, i) in r
  {
    var matches := Matches(items, score, query, 0);
    var r := Sort(matches);
    assert forall h | h in r :: h in matches by {
      forall h | h in r ensures h in matches {
        assert h in multiset(r);
      }
    }
    assert forall h | h in matches :: h in r by {
      forall h | h in matches ensures h in r {
        assert h in multiset(matches);
      }
    }
    MatchesIncreasing(items, score, query, 0);
    PermutationKeepsPositionsApart(r, matches);
    r
  }

  // ---------------------------------------------------------------------------
  // The engine
  // ---------------------------------------------------------------------------

  /** What a search demands of its query before the index is consulted. */
  predicate Searchable(query: string)
  {
    query != "" && |Trim(query)| >= 2
  }

  class Engine {
    /** Fuse's matcher with the project index's options (name, description, system prompt; threshold 0.4). */
    const scoreProject: Scorer
    /** Fuse's matcher with the file index's options (filename, file type, extracted text; threshold 0.3). */
    const scoreFile: Scorer
    /** The list the project index was built from, if there is one. */
    var projectIndex: Option<seq<Record>>
    /** The list the file index was built from, if there is one. */
    var fileIndex: Option<seq<Record>>

    constructor (scoreProject: Scorer, scoreFile: Scorer)
      ensures this.scoreProject == scoreProject && this.scoreFile == scoreFile
      ensures projectIndex == None && fileIndex == None
    {
      this.scoreProject := scoreProject;
      this.scoreFile := scoreFile;
      projectIndex := None;
      fileIndex := None;
    }

    /** A missing or empty list leaves no project index; any other list replaces it wholesale. */
    method InitializeProjects(projects: Option<seq<Record>>)
      modifies this
      ensures projects == None || projects == Some([]) ==> projectIndex == None
      ensures projects.Some? && projects.value != [] ==> projectIndex == projects
      ensures fileIndex == old(fileIndex)
    {
      if projects == None || projects.value == [] {
        projectIndex := None;
        return;
      }
      projectIndex := projects;
    }

    /** A missing or empty list leaves no file index; any other list replaces it wholesale. */
    method InitializeFiles(files: Option<seq<Record>>)
      modifies this
      ensures files == None || files == Some([]) ==> fileIndex == None
      ensures files.Some? && files.value != [] ==> fileIndex == files
      ensures projectIndex == old(projectIndex)
    {
      if files == None || files.value == [] {
        fileIndex := None;
        return;
      }
      fileIndex := files;
    }

    /** The projects matching the trimmed query, closest first. */
    function SearchProjects(query: string): (r: seq<Hit>)
      reads this
      ensures !Searchable(query) || projectIndex == None ==> r == []
      ensures ScoresAscend(r)
      ensures forall h | h in r ::
        projectIndex.Some? && h.item in projectIndex.value && scoreProject(h.item, Trim(query)) == Some(h.score)
    {
      if !Searchable(query) || projectIndex == None then []
      else FuseSearch(projectIndex.value, scoreProject, Trim(query))
    }

    /** The files matching the trimmed query, closest first. */
    function SearchFiles(query: string): (r: seq<Hit>)
      reads this
      ensures !Searchable(query) || fileIndex == None ==> r == []
      ensures ScoresAscend(r)
      ensures forall h | h in r ::
        fileIndex.Some? && h.item in fileIndex.value && scoreFile(h.item, Trim(query)) == Some(h.score)
    {
      if !Searchable(query) || fileIndex == None then []
      else FuseSearch(fileIndex.value, scoreFile, Trim(query))
    }

    /** Both groups for one query. */
    function SearchAll(query: string): (r: Results)
      reads this
      ensures r.projects == SearchProjects(query) && r.files == SearchFiles(query)
    {
      Results(SearchProjects(query), SearchFiles(query))
    }

    /** Drops both indexes. */
    method Clear()
      modifies this
      ensures projectIndex == None && fileIndex == None
    {
      projectIndex := None;
      fileIndex := None;
    }

    /** Whether each index is present: `(projectsReady, filesReady)`. */
    function GetStatus(): (r: (bool, bool))
      reads this
      ensures r.0 <==> projectIndex.Some?
      ensures r.1 <==> fileIndex.Some?
    {
      (projectIndex != None, fileIndex != None)
    }
  }

  // ---------------------------------------------------------------------------
  // Properties
  // ---------------------------------------------------------------------------

  /** Every project that matches the trimmed query is found, at its position in the indexed list. */
  lemma SearchProjectsComplete(e: Engine, query: string, i: nat)
    requires Searchable(query) && e.projectIndex.Some? && i < |e.projectIndex.value|
    requires e.scoreProject(e.projectIndex.value[i], Trim(query)).Some?
    ensures Hit(e.projectIndex.value[i], e.scoreProject(e.projectIndex.value[i], Trim(query)).value, i)
      in e.SearchProjects(query)
  {
  }

  /** Whitespace around a query changes neither group. */
  lemma SearchIgnoresPadding(e: Engine, front: string, query: string, back: string)
    requires AllSpace(front) && AllSpace(back)
    ensures e.SearchAll(front + query + back) == e.SearchAll(query)
  {
    var padded := front + query + back;
    TrimIgnoresPadding(front, query, back);
    assert Searchable(padded) == Searchable(query) by {
      if query == "" {
        assert Trim(query) == "";
      }
    }
    assert e.SearchProjects(padded) == e.SearchProjects(query);
    assert e.SearchFiles(padded) == e.SearchFiles(query);
  }

  /** Whitespace and one letter: long enough untrimmed, too short once trimmed. */
  lemma PaddedLetterIsShort(pad: string, c: char)
    requires AllSpace(pad) && !IsSpace(c)
    ensures !Searchable(pad + [c])
  {
    TrimStartSkipsPadding(pad, [c]);
    TrimOneLetter(c);
  }

  lemma TrimOneLetter(c: char)
    requires !IsSpace(c)
    ensures TrimEnd(TrimStart([c])) == [c]
  {
    TrimStartKeepsWord([c]);
    TrimEndKeepsWord([c]);
  }

  /** After re-indexing, an item that is not in the new list is never found, whatever the query. */
  lemma ReindexForgetsOldItems(e: Engine, item: Record, query: string)
    requires e.projectIndex.Some? && item !in e.projectIndex.value
    ensures forall h | h in e.SearchProjects(query) :: h.item != item
  {
  }
}
