/**
 * What the core reads from the 3D scene: world positions, the highlighter's current
 * selection and the fragments known to the fragments manager.
 */
module Scene {
  import opened Wrappers
  import opened Seqs

  /** A point in world space (a three.js `Vector3`). */
  datatype Vec3 = Vec3(x: real, y: real, z: real)

  /**
   * The value the selection holds for one fragment key: normally a `Set` of express
   * ids, kept here in its insertion order; anything else fails the `instanceof Set` test.
   */
  datatype SelValue = IdSet(ids: seq<int>) | NotASet

  /** One key of `highlighter.selection.select` with its value. */
  datatype SelEntry = SelEntry(fragmentId: string, value: SelValue)

  /** `highlighter.selection.select`, in `Object.keys` order. */
  type Selection = seq<SelEntry>

  /**
   * What the core reads of an entry of `fragmentsManager.list`: the uuid of its mesh's
   * parent (None when the mesh or the parent is missing) and the uuid of its group
   * (None when `fragment.group` is unset).
   */
  datatype Fragment = Fragment(parentUuid: Option<string>, groupUuid: Option<string>)

  /** `Array.from(value)`: the ids of a `Set`; nothing for any other value. */
  function ValueIds(v: SelValue): seq<int> {
    if v.IdSet? then v.ids else []
  }

  /** The ids of the first selected fragment key, `Array.from(expressIDs || [])`;
    * empty when nothing is selected. */
  function FirstSelectedIds(sel: Selection): set<int> {
    if |sel| == 0 then {} else Elems(ValueIds(sel[0].value))
  }

  /**
   * The model uuid the handlers derive from the first selected fragment key:
   * None when nothing is selected, the key is unknown to the fragments manager,
   * the fragment has no mesh parent, or the parent's uuid is the empty string.
   */
  function FirstModelUuid(sel: Selection, fragments: map<string, Fragment>): (r: Option<string>)
    ensures r.Some? ==> |sel| > 0 && sel[0].fragmentId in fragments && r.value != ""
    ensures r.Some? ==> fragments[sel[0].fragmentId].parentUuid == Some(r.value)
    ensures r.None? ==> |sel| == 0 || sel[0].fragmentId !in fragments
                        || fragments[sel[0].fragmentId].parentUuid in {None, Some("")}
  {
    if |sel| == 0 || sel[0].fragmentId !in fragments then None
    else
      match fragments[sel[0].fragmentId].parentUuid
      case None => None
      case Some(u) => if u == "" then None else Some(u)
  }
}
