/**
 * The second viewer's root element: it renders a view chosen from the window's path,
 * and the projects page navigates to `/project/<id>` when a card is clicked.
 */
module Routing {
  import opened Wrappers
  import opened Strings

  const ProjectPrefix: string := "/project/"

  datatype View = Loading | ProjectsPage | IfcPage(projectId: string) | NotFound

  /** A text that starts with `pat` has its first occurrence of `pat` at 0. */
  lemma IndexOfAtStart(s: string, pat: string)
    requires StartsWith(s, pat)
    ensures IndexOf(s, pat) == Some(0)
  {
    assert OccursAt(s, pat, 0);
  }

  /**
   * The view for a path: loading while there is no projects manager; the projects page
   * for exactly `/`; for a path starting with `/project/`, the IFC page with the text
   * between the first and the second `/project/` (or the end); otherwise "not found".
   */
  function Route(hasManager: bool, path: string): (v: View)
    ensures !hasManager ==> v == Loading
    ensures hasManager && path == "/" ==> v == ProjectsPage
    ensures hasManager && path != "/" && StartsWith(path, ProjectPrefix) ==>
              v.IfcPage? && Some(v.projectId) == SplitSecond(path, ProjectPrefix)
    ensures hasManager && path != "/" && !StartsWith(path, ProjectPrefix) ==> v == NotFound
  {
    if !hasManager then Loading
    else if path == "/" then ProjectsPage
    else if StartsWith(path, ProjectPrefix) then
      IndexOfAtStart(path, ProjectPrefix);
      IfcPage(SplitSecond(path, ProjectPrefix).value)
    else NotFound
  }

  /** `handleCardClick`: the path the projects page navigates to for a project id. */
  function ProjectPath(projectId: string): (path: string)
    ensures StartsWith(path, ProjectPrefix)
    ensures path[|ProjectPrefix|..] == projectId
  {
    assert (ProjectPrefix + projectId)[..|ProjectPrefix|] == ProjectPrefix;
    ProjectPrefix + projectId
  }

  /**
   * The path built for a card routes back to the IFC page of that same id, as long as
   * the id does not itself contain `/project/`.
   */
  lemma RouteProjectPath(projectId: string)
    requires !Contains(projectId, ProjectPrefix)
    ensures Route(true, ProjectPath(projectId)) == IfcPage(projectId)
  {
    var path := ProjectPath(projectId);
    var n := |ProjectPrefix|;
    IndexOfAtStart(path, ProjectPrefix);
    forall j: nat | n <= j ensures !OccursAt(path, ProjectPrefix, j) {
      if j + n <= |path| {
        assert path[j..j + n] == projectId[j - n..j - n + n];
        assert !OccursAt(projectId, ProjectPrefix, j - n);
      }
    }
    assert IndexOfFrom(path, ProjectPrefix, n) == None;
  }

  /** `/project/` alone opens the IFC page with an empty id. */
  lemma RouteBarePrefix()
    ensures Route(true, ProjectPrefix) == IfcPage("")
  {
    assert !OccursAt("", ProjectPrefix, 0);
    assert ProjectPath("") == ProjectPrefix;
    RouteProjectPath("");
  }

  /** The `app-root` element. */
  class AppRoot {
    var currentPath: string
    var hasManager: bool

    constructor (pathname: string)
      ensures currentPath == pathname && !hasManager
    {
      currentPath := pathname;
      hasManager := false;
    }

    /** `connectedCallback`: the projects manager is created. */
    method ConnectedCallback()
      modifies this`hasManager
      ensures hasManager
    {
      hasManager := true;
    }

    /** `handleRouting`: the current path becomes the window's path. */
    method HandleRouting(pathname: string)
      modifies this`currentPath
      ensures currentPath == pathname
    {
      currentPath := pathname;
    }

    /** `render`: the view for the current state. */
    function Render(): View
      reads this
    {
      Route(hasManager, currentPath)
    }
  }
}
