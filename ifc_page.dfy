/**
 * The second viewer's IFC page: an in-memory todo list fed by a description input,
 * a priority dropdown and the current selection.
 */
module IfcPage {
  import opened Seqs

  /** A page todo: description, creation time, the selection it was made from, priority. */
  datatype PageTodo = PageTodo(description: string, date: int,
                               fragmentMap: map<string, set<int>>, priority: string)

  /** How `createTodo` ends: no components yet, an alert for a missing field, or a new todo. */
  datatype CreateOutcome = NoComponents | AskDescription | AskPriority | Created

  /** What `createLeftPanel` renders. */
  datatype LeftPanel = Loading | LoadingHider | Tabs

  /** The todos whose description differs from `description`, in list order. */
  function WithoutDescription(todos: seq<PageTodo>, description: string): (r: seq<PageTodo>)
    ensures forall t :: t in r <==> t in todos && t.description != description
    ensures SubseqOf(r, todos)
  {
    if todos == [] then []
    else
      var init := todos[..|todos| - 1];
      var last := todos[|todos| - 1];
      assert todos == init + [last];
      var rest := WithoutDescription(init, description);
      if last.description != description then
        assert (rest + [last])[..|rest|] == rest;
        rest + [last]
      else rest
  }

  /**
   * Filtering a list with one more todo at its end: the survivors of the list, then that
   * todo when its description differs; every surviving todo is kept as often as it occurs.
   */
  lemma WithoutDescriptionAppend(todos: seq<PageTodo>, t: PageTodo, description: string)
    ensures WithoutDescription(todos + [t], description)
            == WithoutDescription(todos, description) + (if t.description != description then [t] else [])
  {
    assert (todos + [t])[..|todos|] == todos;
  }

  /** A list without that description is left as it is. */
  lemma {:induction false} WithoutAbsentDescription(todos: seq<PageTodo>, description: string)
    requires forall i :: 0 <= i < |todos| ==> todos[i].description != description
    ensures WithoutDescription(todos, description) == todos
  {
    if todos != [] {
      WithoutAbsentDescription(todos[..|todos| - 1], description);
      assert todos == todos[..|todos| - 1] + [todos[|todos| - 1]];
    }
  }

  /** Deleting twice by the same description is deleting once. */
  lemma WithoutDescriptionIdempotent(todos: seq<PageTodo>, description: string)
    ensures WithoutDescription(WithoutDescription(todos, description), description)
            == WithoutDescription(todos, description)
  {
    var once := WithoutDescription(todos, description);
    forall i | 0 <= i < |once| ensures once[i].description != description {
      assert once[i] in once;
    }
    WithoutAbsentDescription(once, description);
  }

  class IfcPage {
    var componentsPresent: bool
    var componentsReady: bool
    var todoList: seq<PageTodo>
    var description: string
    /** The dropdown's value; the empty string while nothing is chosen. */
    var priority: string

    constructor ()
      ensures !componentsPresent && !componentsReady
      ensures todoList == [] && description == "" && priority == ""
    {
      componentsPresent := false;
      componentsReady := false;
      todoList := [];
      description := "";
      priority := "";
    }

    /** `addTodo`: the todo goes at the end; earlier entries stay as they were. */
    method AddTodo(todo: PageTodo)
      modifies this`todoList
      ensures todoList == old(todoList) + [todo]
    {
      todoList := todoList + [todo];
    }

    /**
     * `createTodo`: with components present and both a description and a priority,
     * one todo is appended carrying them, the current selection and the time `now`;
     * otherwise the list is unchanged and `outcome` says which check stopped it.
     */
    method CreateTodo(now: int, selection: map<string, set<int>>) returns (outcome: CreateOutcome)
      modifies this`todoList
      ensures outcome == Created <==> componentsPresent && description != "" && priority != ""
      ensures outcome == NoComponents <==> !componentsPresent
      ensures outcome == AskDescription <==> componentsPresent && description == ""
      ensures outcome == Created ==>
                todoList == old(todoList) + [PageTodo(description, now, selection, priority)]
      ensures outcome != Created ==> todoList == old(todoList)
    {
      if !componentsPresent {
        return NoComponents;
      }
      if description == "" {
        return AskDescription;
      }
      if priority == "" {
        return AskPriority;
      }
      AddTodo(PageTodo(description, now, selection, priority));
      outcome := Created;
    }

    /**
     * `deleteTodo`: once confirmed, every todo with the same description goes, the
     * others keep their order; declined, nothing changes.
     */
    method DeleteTodo(todo: PageTodo, confirmed: bool)
      modifies this`todoList
      ensures confirmed ==> todoList == WithoutDescription(old(todoList), todo.description)
      ensures !confirmed ==> todoList == old(todoList)
    {
      if confirmed {
        todoList := WithoutDescription(todoList, todo.description);
      }
    }

    /**
     * `createLeftPanel`: the loading placeholder unless components are present and
     * ready; then the hider placeholder when the hider panel could not be built.
     */
    function CreateLeftPanel(hiderAvailable: bool): (r: LeftPanel)
      reads this
      ensures r == Loading <==> !componentsPresent || !componentsReady
      ensures r == Tabs <==> componentsPresent && componentsReady && hiderAvailable
    {
      if !componentsPresent || !componentsReady then Loading
      else if !hiderAvailable then LoadingHider
      else Tabs
    }
  }
}
