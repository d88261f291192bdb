/**
 * The "place marker" toolbar action: the markers of the world are cleared, then a
 * rocket marker is drawn at the centre of every element whose express id a todo
 * stores, item by item.
 */
module PlaceMarker {
  import opened Wrappers
  import opened Seqs
  import opened Scene
  import opened StoredIds
  import opened MarkerLayer

  /** What `JSON.parse` makes of a stored text: a parse error, some non-array, or an id array. */
  datatype Parsed = ParseError | NotArray | IdArray(entries: seq<IdEntry>)

  /**
   * The `expressIDs` field of one item: missing (or the item itself missing), not a
   * string, the empty string, or a non-empty string and what parsing it gives.
   */
  datatype RawIds = Missing | NotText | EmptyText | Json(parsed: Parsed)

  datatype Item = Item(expressIDs: RawIds)

  /**
   * The id set of an item, or `None` when the item is skipped: its field is missing,
   * not a string, empty, unparsable or not an array. The set keeps first occurrences.
   */
  function ItemIds(item: Item): (r: Option<seq<int>>)
    ensures r.Some? <==> item.expressIDs.Json? && item.expressIDs.parsed.IdArray?
    ensures r.Some? ==> NoDups(r.value)
    ensures r.Some? ==> forall x :: x in r.value <==>
      exists k :: 0 <= k < |item.expressIDs.parsed.entries| && EntryHolds(item.expressIDs.parsed.entries[k], x)
  {
    match item.expressIDs
    case Json(IdArray(entries)) =>
      var ids := Dedup(Flat(entries));
      assert forall x :: x in ids <==> x in Elems(Flat(entries));
      Some(ids)
    case _ => None
  }

  /** The centres of those ids that have vertices, in id order. */
  function Centers(ids: seq<int>, centerOf: int -> Option<Vec3>): seq<Vec3> {
    if ids == [] then []
    else
      var last := centerOf(ids[|ids| - 1]);
      Centers(ids[..|ids| - 1], centerOf) + (if last.Some? then [last.value] else [])
  }

  /** The marker positions one item contributes: none unless its ids parse and a model is loaded. */
  function ItemCenters(item: Item, hasGroup: bool, centerOf: int -> Option<Vec3>): seq<Vec3> {
    var ids := ItemIds(item);
    if ids.Some? && hasGroup then Centers(ids.value, centerOf) else []
  }

  /** The marker positions of all items, item after item. */
  function AllCenters(items: seq<Item>, hasGroup: bool, centerOf: int -> Option<Vec3>): seq<Vec3> {
    if items == [] then []
    else AllCenters(items[..|items| - 1], hasGroup, centerOf)
         + ItemCenters(items[|items| - 1], hasGroup, centerOf)
  }

  /** Rocket markers at `ps`, under the consecutive ids from `start` on. */
  function MarkersFrom(start: nat, ps: seq<Vec3>): map<nat, Marker> {
    if ps == [] then map[]
    else MarkersFrom(start, ps[..|ps| - 1])[start + |ps| - 1 := Marker(Rocket, ps[|ps| - 1])]
  }

  /** The markers from `start` on sit exactly at the ids `start` .. `start + |ps| - 1`, in order. */
  lemma {:induction false} MarkersFromIds(start: nat, ps: seq<Vec3>)
    ensures forall id :: id in MarkersFrom(start, ps) <==> start <= id < start + |ps|
    ensures forall j :: 0 <= j < |ps| ==> MarkersFrom(start, ps)[start + j] == Marker(Rocket, ps[j])
  {
    if ps != [] {
      MarkersFromIds(start, ps[..|ps| - 1]);
    }
  }

  /** An id with vertices has a marker among the centres of its id list. */
  lemma {:induction false} CentersCover(ids: seq<int>, centerOf: int -> Option<Vec3>, id: int)
    requires id in ids && centerOf(id).Some?
    ensures centerOf(id).value in Centers(ids, centerOf)
  {
    var init := ids[..|ids| - 1];
    if ids[|ids| - 1] != id {
      assert ids == init + [ids[|ids| - 1]];
      CentersCover(init, centerOf, id);
    }
  }

  /** Every centre comes from an id of the list that has vertices. */
  lemma {:induction false} CentersSound(ids: seq<int>, centerOf: int -> Option<Vec3>, c: Vec3)
    requires c in Centers(ids, centerOf)
    ensures exists id :: id in ids && centerOf(id) == Some(c)
  {
    var init := ids[..|ids| - 1];
    var last := ids[|ids| - 1];
    if c in Centers(init, centerOf) {
      CentersSound(init, centerOf, c);
      var id :| id in init && centerOf(id) == Some(c);
      assert id in ids;
    } else {
      assert centerOf(last) == Some(c);
    }
  }

  /** No markers are placed when no model is loaded. */
  lemma {:induction false} NoGroupNoMarkers(items: seq<Item>, centerOf: int -> Option<Vec3>)
    ensures AllCenters(items, false, centerOf) == []
  {
    if items != [] {
      NoGroupNoMarkers(items[..|items| - 1], centerOf);
    }
  }

  /**
   * With a model loaded, every id of every readable item that has vertices gets a
   * rocket at its centre.
   */
  lemma {:induction false} AllCentersCover(items: seq<Item>, centerOf: int -> Option<Vec3>, i: nat, id: int)
    requires i < |items| && ItemIds(items[i]).Some? && id in ItemIds(items[i]).value
    requires centerOf(id).Some?
    ensures centerOf(id).value in AllCenters(items, true, centerOf)
  {
    var init := items[..|items| - 1];
    if i == |items| - 1 {
      CentersCover(ItemIds(items[i]).value, centerOf, id);
    } else {
      assert items[i] == init[i];
      AllCentersCover(init, centerOf, i, id);
    }
  }

  /**
   * Every rocket placed sits at the centre of some id of a readable item, and only
   * when a model is loaded.
   */
  lemma {:induction false} AllCentersSound(items: seq<Item>, hasGroup: bool, centerOf: int -> Option<Vec3>, c: Vec3)
    requires c in AllCenters(items, hasGroup, centerOf)
    ensures hasGroup
    ensures exists i, id :: 0 <= i < |items| && ItemIds(items[i]).Some? && id in ItemIds(items[i]).value
                            && centerOf(id) == Some(c)
  {
    var init := items[..|items| - 1];
    var last := |items| - 1;
    if c in AllCenters(init, hasGroup, centerOf) {
      AllCentersSound(init, hasGroup, centerOf, c);
      var i, id :| 0 <= i < |init| && ItemIds(init[i]).Some? && id in ItemIds(init[i]).value
                   && centerOf(id) == Some(c);
      assert init[i] == items[i];
    } else {
      CentersSound(ItemIds(items[last]).value, centerOf, c);
    }
  }

  /** The inner loop of `placeMarker`: a rocket at the centre of each id that has vertices. */
  method PlaceItem(layer: Markers, idSet: seq<int>, centerOf: int -> Option<Vec3>,
                   ghost start: nat, ghost before: seq<Vec3>)
    requires layer.Valid()
    requires layer.live == MarkersFrom(start, before) && layer.nextId == start + |before|
    modifies layer
    ensures layer.Valid()
    ensures layer.live == MarkersFrom(start, before + Centers(idSet, centerOf))
    ensures layer.nextId == start + |before + Centers(idSet, centerOf)|
  {
    var k := 0;
    assert before + Centers(idSet[..k], centerOf) == before;
    while k < |idSet|
      invariant 0 <= k <= |idSet|
      invariant layer.Valid()
      invariant layer.live == MarkersFrom(start, before + Centers(idSet[..k], centerOf))
      invariant layer.nextId == start + |before + Centers(idSet[..k], centerOf)|
    {
      assert idSet[..k + 1][..k] == idSet[..k];
      var center := centerOf(idSet[k]);
      ghost var ps := before + Centers(idSet[..k], centerOf);
      if center.Some? {
        assert before + Centers(idSet[..k + 1], centerOf) == ps + [center.value];
        assert (ps + [center.value])[..|ps|] == ps;
        var _ := layer.Create(Rocket, center.value);
      } else {
        assert before + Centers(idSet[..k + 1], centerOf) == ps;
      }
      k := k + 1;
    }
    assert idSet[..k] == idSet;
  }

  /**
   * `placeMarker`: the world's markers are cleared, then each item is read in turn;
   * an item whose ids are missing or do not parse to an array is skipped, nothing is
   * placed without a loaded model, and each distinct id with vertices gets a rocket at
   * its centre. `hasGroup` says whether a fragments group is loaded; `centerOf` gives
   * the centre of an element's vertices, `None` when it has none.
   */
  method PlaceMarkers(layer: Markers, items: seq<Item>, hasGroup: bool, centerOf: int -> Option<Vec3>)
    requires layer.Valid()
    modifies layer
    ensures layer.Valid()
    ensures layer.live == MarkersFrom(old(layer.nextId), AllCenters(items, hasGroup, centerOf))
    ensures layer.nextId == old(layer.nextId) + |AllCenters(items, hasGroup, centerOf)|
  {
    layer.Clear();
    ghost var start := layer.nextId;
    var i := 0;
    while i < |items|
      invariant 0 <= i <= |items|
      invariant layer.Valid()
      invariant layer.live == MarkersFrom(start, AllCenters(items[..i], hasGroup, centerOf))
      invariant layer.nextId == start + |AllCenters(items[..i], hasGroup, centerOf)|
    {
      ghost var before := AllCenters(items[..i], hasGroup, centerOf);
      assert items[..i + 1][..i] == items[..i];
      assert AllCenters(items[..i + 1], hasGroup, centerOf) == before + ItemCenters(items[i], hasGroup, centerOf);
      match items[i].expressIDs
      case Json(IdArray(entries)) =>
        var idSet := Dedup(Flat(entries));
        if hasGroup {
          var processed: set<int> := {};
          var alreadyProcessed := false;
          var j := 0;
          while j < |idSet|
            invariant !alreadyProcessed
          {
            if idSet[j] in processed {
              alreadyProcessed := true;
            }
            j := j + 1;
          }
          if !alreadyProcessed {
            PlaceItem(layer, idSet, centerOf, start, before);
          }
        } else {
          assert before + ItemCenters(items[i], hasGroup, centerOf) == before;
        }
        i := i + 1;
      case _ =>
      assert before + ItemCenters(items[i], hasGroup, centerOf) == before;
      i := i + 1;
    }
    assert items[..i] == items;
  }
}
