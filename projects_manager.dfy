/** The projects manager's in-memory project list. */
module ProjectsManager {
  import opened Wrappers
  import opened Seqs
  import opened Strings

  /** A project: only `name` is always present; rows from the server carry nothing else. */
  datatype Project = Project(id: Option<int>, name: string, projectIfc: Option<int>)

  /** A row of the server's project list. */
  datatype ProjectRow = ProjectRow(id: int, name: string)

  /** The search test: the lower-cased name contains the lower-cased query. */
  predicate NameMatches(p: Project, query: string) {
    Contains(ToLower(p.name), ToLower(query))
  }

  /** `list.filter(...)` with the search test: the matching projects, in list order. */
  function Matching(projects: seq<Project>, query: string): (r: seq<Project>)
    ensures forall p :: p in r <==> p in projects && NameMatches(p, query)
    ensures SubseqOf(r, projects)
    ensures |r| <= |projects|
  {
    if projects == [] then []
    else
      var init := projects[..|projects| - 1];
      var last := projects[|projects| - 1];
      assert projects == init + [last];
      var rest := Matching(init, query);
      if NameMatches(last, query) then
        assert (rest + [last])[..|rest|] == rest;
        rest + [last]
      else rest
  }

  /** Every text contains the empty text. */
  lemma ContainsEmpty(s: string)
    ensures Contains(s, "")
  {
    assert OccursAt(s, "", 0);
  }

  /** An empty query matches every project, so the whole list comes back. */
  lemma {:induction false} MatchingEmptyQuery(projects: seq<Project>)
    ensures Matching(projects, "") == projects
  {
    if projects != [] {
      MatchingEmptyQuery(projects[..|projects| - 1]);
      ContainsEmpty(ToLower(projects[|projects| - 1].name));
      assert projects == projects[..|projects| - 1] + [projects[|projects| - 1]];
    }
  }

  /** A project appended to the list shows up last in a search it matches, and nothing else moves. */
  lemma MatchingAppend(projects: seq<Project>, p: Project, query: string)
    ensures Matching(projects + [p], query)
            == Matching(projects, query) + (if NameMatches(p, query) then [p] else [])
  {
    assert (projects + [p])[..|projects|] == projects;
  }

  /** The projects `loadProjects` makes of the server's rows: a project per row, carrying its name. */
  function RowProjects(rows: seq<ProjectRow>): (r: seq<Project>)
    ensures |r| == |rows|
    ensures forall i :: 0 <= i < |rows| ==> r[i] == Project(None, rows[i].name, None)
  {
    seq(|rows|, i requires 0 <= i < |rows| => Project(None, rows[i].name, None))
  }

  class ProjectsManager {
    var list: seq<Project>

    constructor ()
      ensures list == []
    {
      list := [];
    }

    /** `filterProjects`: the projects matching the query, in list order; the list is read only. */
    function FilterProjects(query: string): (r: seq<Project>)
      reads this
      ensures forall p :: p in r <==> p in list && NameMatches(p, query)
      ensures SubseqOf(r, list)
    {
      Matching(list, query)
    }

    /** `newProject`: appends its argument and hands it back. */
    method NewProject(data: Project) returns (r: Project)
      modifies this
      ensures list == old(list) + [data]
      ensures r == data
    {
      list := list + [data];
      r := data;
    }

    /**
     * `loadProjects`: with the server's rows (`None` when the request fails), one
     * project per row is appended in row order; `updated` says whether the update
     * callback fires.
     */
    method LoadProjects(rows: Option<seq<ProjectRow>>) returns (updated: bool)
      modifies this
      ensures updated <==> rows.Some?
      ensures rows.Some? ==> list == old(list) + RowProjects(rows.value)
      ensures rows.None? ==> list == old(list)
    {
      updated := false;
      if rows.None? {
        return;
      }
      var i := 0;
      while i < |rows.value|
        invariant 0 <= i <= |rows.value|
        invariant list == old(list) + RowProjects(rows.value[..i])
      {
        var row := rows.value[i];
        var _ := NewProject(Project(None, row.name, None));
        assert RowProjects(rows.value[..i + 1]) == RowProjects(rows.value[..i]) + [Project(None, row.name, None)];
        i := i + 1;
      }
      assert rows.value[..i] == rows.value;
      updated := true;
    }

    /**
     * `importFromJSON`: the projects parsed from the chosen file (`None` when no file is
     * chosen, it is empty, parsing throws or the value is not iterable) are appended in
     * file order.
     */
    method ImportFromJSON(parsed: Option<seq<Project>>)
      modifies this
      ensures parsed.Some? ==> list == old(list) + parsed.value
      ensures parsed.None? ==> list == old(list)
    {
      if parsed.None? {
        return;
      }
      var i := 0;
      while i < |parsed.value|
        invariant 0 <= i <= |parsed.value|
        invariant list == old(list) + parsed.value[..i]
      {
        assert parsed.value[..i + 1] == parsed.value[..i] + [parsed.value[i]];
        var _ := NewProject(parsed.value[i]);
        i := i + 1;
      }
      assert parsed.value[..i] == parsed.value;
    }
  }
}
