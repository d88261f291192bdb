/**
 * The todo panel of the viewer: validating a new todo against the current selection,
 * building the list query from the filter state, deciding which cards are highlighted
 * and building an edited record.
 */
module TodoCard {
  import opened Wrappers
  import opened Seqs
  import opened Strings
  import opened Scene
  import opened StoredIds
  import opened Numbers

  datatype Priority = LOW | MEDIUM | HIGH

  function PriorityName(p: Priority): string {
    match p
    case LOW => "LOW"
    case MEDIUM => "MEDIUM"
    case HIGH => "HIGH"
  }

  /** The sort keys offered by the "Sort By" dropdown; sorting itself happens on the server. */
  datatype SortKey = ByDescription | ByDeadline | ByPriority

  function SortKeyName(k: SortKey): string {
    match k
    case ByDescription => "Description"
    case ByDeadline => "Deadline"
    case ByPriority => "Priority"
  }

  /** A JavaScript `Date`, as its time value. */
  datatype Date = Date(millis: int)

  datatype Camera = Camera(position: Vec3, target: Vec3, cameraType: string)

  /**
   * A todo record as the server returns it; `expressIDs` is held already parsed. `manager`
   * is `None` for `NaN`, which an edit can put there and JSON sends as `null`.
   */
  datatype ToDo = ToDo(
    id: int, content: string, writer: int, ifc: int, createDate: Date, deadline: Date,
    manager: Option<int>, managerName: string, managerPosition: string,
    expressIDs: seq<IdEntry>, priority: Priority, camera: Camera)

  // ---------------------------------------------------------------------------
  // Stored ids and highlighting

  /**
   * The set of stored ids flattened one level: nested arrays contribute their
   * elements, bare numbers themselves (`.flat()` in the card, the `Array.isArray`
   * branch of "Track").
   */
  function FlattenIds(entries: seq<IdEntry>): (r: set<int>)
    ensures forall x :: x in r <==> exists k :: 0 <= k < |entries| && EntryHolds(entries[k], x)
  {
    Elems(Flat(entries))
  }

  /**
   * A card is highlighted when its stored ids meet the ids of the FIRST selected
   * fragment key; with nothing selected no card is highlighted.
   */
  function IsHighlighted(stored: seq<IdEntry>, sel: Selection): (b: bool)
    ensures b <==> |sel| > 0 && exists k, x :: 0 <= k < |stored| && EntryHolds(stored[k], x)
                                                && x in ValueIds(sel[0].value)
  {
    if |sel| == 0 then false
    else
      var hit := FlattenIds(stored) * FirstSelectedIds(sel);
      assert forall x :: x in hit <==> x in FlattenIds(stored) && x in ValueIds(sel[0].value);
      hit != {}
  }

  // ---------------------------------------------------------------------------
  // Creating a todo

  /** The form inputs; None stands for an element the page does not contain. */
  datatype CreateForm = CreateForm(
    description: Option<string>, deadline: Option<string>,
    priority: Option<string>, manager: Option<string>)

  datatype CreateError = NoSelection | NoValidFragment | InvalidFragment | NoIfcId | MissingField

  /**
   * The body of the POST that creates a todo (the camera is not modelled); `manager` is
   * the parsed dropdown value, `None` for `NaN`, which the JSON body sends as `null`.
   */
  datatype CreateRequest = CreateRequest(
    content: string, writer: int, ifc: int, manager: Option<int>,
    deadline: string, priority: string, expressIDs: seq<int>)

  /** `getIfcIdByModelUUID`: a missing binding and the id 0 are both falsy, shown as 0. */
  function IfcIdOf(ifcOf: map<string, int>, uuid: string): int {
    if uuid in ifcOf then ifcOf[uuid] else 0
  }

  /** A key that is in the fragments manager and whose value is a `Set`. */
  predicate ValidKey(e: SelEntry, fragments: map<string, Fragment>) {
    e.fragmentId in fragments && e.value.IdSet?
  }

  /** Every id of every selected value, in key order. */
  function AllIds(sel: Selection): (r: seq<int>)
    ensures forall x :: x in r <==> exists k :: 0 <= k < |sel| && x in ValueIds(sel[k].value)
  {
    if sel == [] then []
    else
      var init := sel[..|sel| - 1];
      assert forall k :: 0 <= k < |init| ==> init[k] == sel[k];
      AllIds(init) + ValueIds(sel[|sel| - 1].value)
  }

  /** `[...new Set(expressIDsArray.flat())]`: the de-duplicated union of all selected id sets. */
  function SelectionUnion(sel: Selection): (r: seq<int>)
    ensures NoDups(r)
    ensures forall x :: x in r <==> exists k :: 0 <= k < |sel| && x in ValueIds(sel[k].value)
  {
    var all := AllIds(sel);
    var r := Dedup(all);
    assert forall x :: x in r <==> x in Elems(all);
    r
  }

  /** An input that exists and holds a non-empty value. */
  predicate Filled(input: Option<string>) {
    input.Some? && input.value != ""
  }

  /** `priorityDropdown?.value || "LOW"`. */
  function PriorityOrLow(input: Option<string>): string {
    if Filled(input) then input.value else "LOW"
  }

  /**
   * The checks of the "Create Todo" button, in the order the handler makes them;
   * a Failure means no POST is sent.
   */
  function ValidateCreate(form: CreateForm, sel: Selection, fragments: map<string, Fragment>,
                          ifcOf: map<string, int>): (r: Result<CreateRequest, CreateError>)
    ensures |sel| == 0 ==> r == Failure(NoSelection)
    ensures (forall k :: 0 <= k < |sel| ==> !ValidKey(sel[k], fragments)) ==> r.Failure?
    ensures r.Success? <==>
      && |sel| > 0
      && (exists k :: 0 <= k < |sel| && ValidKey(sel[k], fragments))
      && FirstModelUuid(sel, fragments).Some?
      && IfcIdOf(ifcOf, FirstModelUuid(sel, fragments).value) != 0
      && form.description.Some? && !Blank(form.description.value)
      && Filled(form.deadline) && Filled(form.manager)
    ensures r.Success? ==>
      && r.value.content == form.description.value
      && r.value.ifc == IfcIdOf(ifcOf, FirstModelUuid(sel, fragments).value)
      && r.value.manager == ParseInt(form.manager.value, NoRadix)
      && r.value.deadline == form.deadline.value
      && r.value.priority == (if Filled(form.priority) then form.priority.value else "LOW")
      && r.value.expressIDs == SelectionUnion(sel)
  {
    var union := SelectionUnion(sel);
    if |sel| == 0 then Failure(NoSelection)
    else if forall k :: 0 <= k < |sel| ==> !ValidKey(sel[k], fragments) then Failure(NoValidFragment)
    else match FirstModelUuid(sel, fragments)
      case None => Failure(InvalidFragment)
      case Some(uuid) =>
        var ifcId := IfcIdOf(ifcOf, uuid);
        if ifcId == 0 then Failure(NoIfcId)
        else
          var description := form.description;
          var text := if description.Some? then description.value else "";
          TrimEmptyIffBlank(text);
          if description.None? || Trim(description.value) == ""
             || !Filled(form.deadline) || !Filled(form.manager)
          then Failure(MissingField)
          else Success(CreateRequest(description.value, 1, ifcId, ParseInt(form.manager.value, NoRadix),
                                     form.deadline.value, PriorityOrLow(form.priority), union))
  }

  /** A manager option whose value is an id's text sends that id. */
  lemma CreateSendsManagerId(form: CreateForm, sel: Selection, fragments: map<string, Fragment>,
                             ifcOf: map<string, int>, id: int)
    requires form.manager == Some(IntText(id))
    requires ValidateCreate(form, sel, fragments, ifcOf).Success?
    ensures ValidateCreate(form, sel, fragments, ifcOf).value.manager == Some(id)
  {
    assert IntText(id) + "" == IntText(id);
    ParseIntText(id, "", NoRadix);
  }

  // ---------------------------------------------------------------------------
  // The list query

  /** A query parameter's value; `NaN` is what `NaN.toString()` writes. */
  datatype ParamValue = Text(text: string) | Number(n: int) | NaN

  /** The parameter value of a number that may be `NaN` (`None`). */
  function NumberValue(m: Option<int>): (v: ParamValue)
    ensures v.NaN? <==> m.None?
    ensures v.Number? ==> v.n == m.value
  {
    if m.Some? then Number(m.value) else NaN
  }

  datatype Param = Param(name: string, value: ParamValue)

  /** `GET /api/todo/<ifcId>` with its search parameters, in the order they are appended. */
  datatype ListQuery = ListQuery(ifcId: int, params: seq<Param>)

  predicate HasParam(q: ListQuery, name: string) {
    exists k :: 0 <= k < |q.params| && q.params[k].name == name
  }

  function PriorityNames(ps: seq<Priority>): (r: seq<string>)
    ensures |r| == |ps| && forall k :: 0 <= k < |ps| ==> r[k] == PriorityName(ps[k])
  {
    seq(|ps|, k requires 0 <= k < |ps| => PriorityName(ps[k]))
  }

  /** `Array.from(selectedPriorities).join(',')`. */
  function PriorityFilterText(ps: seq<Priority>): string {
    Join(PriorityNames(ps), ",")
  }

  /** The filter text is empty exactly when no priority is checked. */
  lemma {:induction false} PriorityFilterEmpty(ps: seq<Priority>)
    ensures PriorityFilterText(ps) == "" <==> |ps| == 0
  {
    if |ps| > 0 {
      var names := PriorityNames(ps);
      assert |names[0]| > 0;
      if |ps| > 1 {
        assert Join(names, ",") == names[0] + "," + Join(names[1..], ",");
      }
    }
  }

  /** The filter text names the checked priorities, in the order they were checked. */
  lemma PriorityFilterRoundTrip(ps: seq<Priority>)
    requires |ps| > 0
    ensures Split(PriorityFilterText(ps), ',') == PriorityNames(ps)
  {
    var names := PriorityNames(ps);
    forall k | 0 <= k < |names| ensures ',' !in names[k] {
      match ps[k]
      case LOW => assert names[k] == "LOW";
      case MEDIUM => assert names[k] == "MEDIUM";
      case HIGH => assert names[k] == "HIGH";
    }
    SplitJoin(names, ',');
  }

  /**
   * The list query: `sortBy` always, first; `filter` only for a non-empty filter text;
   * `manager` whenever the manager filter is defined, 0 and `NaN` included; `manager` is
   * that value as a parameter.
   */
  function BuildListQuery(ifcId: int, sortBy: SortKey, filterText: string,
                          manager: Option<ParamValue>): (q: ListQuery)
    ensures q.ifcId == ifcId
    ensures |q.params| >= 1 && q.params[0] == Param("sortBy", Text(SortKeyName(sortBy)))
    ensures HasParam(q, "filter") <==> filterText != ""
    ensures HasParam(q, "manager") <==> manager.Some?
    ensures forall k :: 0 <= k < |q.params| && q.params[k].name == "filter" ==>
              q.params[k].value == Text(filterText)
    ensures forall k :: 0 <= k < |q.params| && q.params[k].name == "manager" ==>
              manager.Some? && q.params[k].value == manager.value
  {
    var sortParam := [Param("sortBy", Text(SortKeyName(sortBy)))];
    var filterParam := if filterText != "" then [Param("filter", Text(filterText))] else [];
    var managerParam := if manager.Some? then [Param("manager", manager.value)] else [];
    var q := ListQuery(ifcId, sortParam + filterParam + managerParam);
    assert filterText != "" ==> q.params[1].name == "filter";
    assert manager.Some? ==> q.params[|q.params| - 1].name == "manager";
    q
  }

  /**
   * What one refresh of the list (`updateToDoList`) asks for once the expressIDs request
   * has answered: the IFC id whose markers are placed, the list query and the ids to
   * highlight.
   */
  datatype Refresh = Refresh(markerIfcId: int, list: ListQuery, selected: set<int>)

  /**
   * The filter state the panel's handlers reassign: the sort key, the checked
   * priorities (a `Set`, kept in insertion order), the manager filter (`None` for `NaN`)
   * and the id of the IFC model whose todos are shown.
   */
  class TodoPanel {
    var sortBy: SortKey
    var priorities: seq<Priority>
    var managerFilter: Option<int>
    var currentIfcId: int

    ghost predicate Valid()
      reads this
    {
      NoDups(priorities)
    }

    constructor ()
      ensures Valid()
      ensures sortBy == ByDeadline && priorities == [] && managerFilter == Some(0) && currentIfcId == 0
    {
      sortBy := ByDeadline;
      priorities := [];
      managerFilter := Some(0);
      currentIfcId := 0;
    }

    /** A priority checkbox changed: checking adds the priority, unchecking removes it. */
    method TogglePriority(p: Priority, checked: bool)
      requires Valid()
      modifies this`priorities
      ensures Valid()
      ensures Elems(priorities) == if checked then old(Elems(priorities)) + {p}
                                   else old(Elems(priorities)) - {p}
      ensures checked ==> priorities == if p in old(priorities) then old(priorities)
                                        else old(priorities) + [p]
      ensures !checked ==> priorities == RemoveAll(old(priorities), p)
    {
      if checked {
        if p !in priorities {
          NoDupsSnoc(priorities, p);
          ElemsConcat(priorities, [p]);
          priorities := priorities + [p];
        }
      } else {
        priorities := RemoveAll(priorities, p);
      }
    }

    /**
     * The manager filter dropdown changed to the option `value` (the first one when the
     * dropdown holds several): the filter is `parseInt(value, 10)`, `NaN` for a value that
     * is not a number.
     */
    method SelectManager(value: string)
      modifies this`managerFilter
      ensures managerFilter == ParseInt(value, Ten)
      ensures forall id: int :: value == IntText(id) ==> managerFilter == Some(id)
      ensures Blank(value) ==> managerFilter.None?
    {
      managerFilter := ParseInt(value, Ten);
      forall id: int | value == IntText(id) ensures managerFilter == Some(id) {
        assert IntText(id) + "" == IntText(id);
        ParseIntText(id, "", Ten);
      }
      BlankParsesToNaN(value, Ten);
    }

    /** A "Sort By" option was clicked. */
    method SelectSortKey(k: SortKey)
      modifies this`sortBy
      ensures sortBy == k
    {
      sortBy := k;
    }

    /**
     * The highlighter's select event. An invalid first fragment changes nothing; an
     * unbound model resets the current id to 0 without a refresh; otherwise the
     * current id becomes the model's IFC id and the list is refreshed for it.
     */
    method OnHighlight(sel: Selection, fragments: map<string, Fragment>, ifcOf: map<string, int>)
      returns (refresh: Option<int>)
      modifies this`currentIfcId
      ensures FirstModelUuid(sel, fragments).None? ==>
                currentIfcId == old(currentIfcId) && refresh == None
      ensures FirstModelUuid(sel, fragments).Some? ==>
                currentIfcId == IfcIdOf(ifcOf, FirstModelUuid(sel, fragments).value)
      ensures refresh.Some? <==> FirstModelUuid(sel, fragments).Some? && currentIfcId != 0
      ensures refresh.Some? ==> refresh.value == currentIfcId
    {
      refresh := None;
      var uuid := FirstModelUuid(sel, fragments);
      if uuid.Some? {
        var ifcId := IfcIdOf(ifcOf, uuid.value);
        if ifcId == 0 {
          currentIfcId := 0;
        } else {
          currentIfcId := ifcId;
          refresh := Some(ifcId);
        }
      }
    }

    /**
     * `updateToDoList(ifcId)`. `idsReplyOk` says whether the expressIDs request for `ifcId`
     * answered with an ok status and a JSON body; otherwise the handler throws to its
     * `catch` and nothing follows (`None`). After a good reply, markers are placed from
     * the todos of `ifcId`, but the list itself is fetched for the current id with the
     * current filters and the manager filter always sent (as `NaN` when it is not a number).
     */
    function RefreshFor(ifcId: int, sel: Selection, idsReplyOk: bool): (r: Option<Refresh>)
      reads this
      ensures r.Some? <==> idsReplyOk
      ensures r.Some? ==> r.value.markerIfcId == ifcId && r.value.list.ifcId == currentIfcId
      ensures r.Some? ==> r.value.list == BuildListQuery(currentIfcId, sortBy,
                            PriorityFilterText(priorities), Some(NumberValue(managerFilter)))
      ensures r.Some? ==> r.value.list.params[0] == Param("sortBy", Text(SortKeyName(sortBy)))
      ensures r.Some? ==> (HasParam(r.value.list, "filter") <==> |priorities| > 0)
      ensures r.Some? ==> forall k ::
                (0 <= k < |r.value.list.params| && r.value.list.params[k].name == "filter") ==>
                Split(r.value.list.params[k].value.text, ',') == PriorityNames(priorities)
      ensures r.Some? ==> HasParam(r.value.list, "manager")
      ensures r.Some? ==> forall k ::
                (0 <= k < |r.value.list.params| && r.value.list.params[k].name == "manager") ==>
                r.value.list.params[k].value == NumberValue(managerFilter)
      ensures r.Some? ==> r.value.selected == FirstSelectedIds(sel)
    {
      PriorityFilterEmpty(priorities);
      var r := Refresh(ifcId, BuildListQuery(currentIfcId, sortBy, PriorityFilterText(priorities),
                                             Some(NumberValue(managerFilter))),
                       FirstSelectedIds(sel));
      if !idsReplyOk then None
      else if |priorities| > 0 then PriorityFilterRoundTrip(priorities); Some(r)
      else Some(r)
    }
  }

  // ---------------------------------------------------------------------------
  // Editing a todo

  /**
   * The record the "Save" button sends: the original with the four edited fields replaced;
   * the manager is `parseInt(value, 10)` of the manager option `managerValue` (the first
   * one when the dropdown holds several), `NaN` for a value that is not a number.
   */
  function EditedTodo(todo: ToDo, content: string, managerValue: string, priority: Priority,
                      deadline: Date): (r: ToDo)
    ensures r.content == content && r.manager == ParseInt(managerValue, Ten)
    ensures r.priority == priority && r.deadline == deadline
    ensures r.(content := todo.content, manager := todo.manager,
               priority := todo.priority, deadline := todo.deadline) == todo
  {
    todo.(content := content, manager := ParseInt(managerValue, Ten), priority := priority,
          deadline := deadline)
  }

  /** Saving with a manager option whose value is an id's text stores that id. */
  lemma EditSavesManagerId(todo: ToDo, content: string, id: int, priority: Priority,
                           deadline: Date)
    ensures EditedTodo(todo, content, IntText(id), priority, deadline).manager == Some(id)
  {
    assert IntText(id) + "" == IntText(id);
    ParseIntText(id, "", Ten);
  }
}
