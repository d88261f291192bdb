/**
 * "Place Marker" of the second viewer (`placeMarkerOnSelected`): a map from a
 * quantised position key to the first position seen there, an occurrence count and
 * the id of the count label drawn there.
 */
module MarkerBoard {
  import opened Wrappers
  import opened Scene
  import opened MarkerLayer

  datatype Anchor = Anchor(position: Vec3, count: nat, labelId: Option<nat>)

  /** Where a count label is drawn: 0.1 to the right of the centre (exact arithmetic here). */
  function LabelPosition(center: Vec3): Vec3 {
    Vec3(center.x + 0.1, center.y, center.z)
  }

  /** The count kept for each key. */
  function CountsOf(anchors: map<string, Anchor>): map<string, nat> {
    map k | k in anchors :: anchors[k].count
  }

  /** The count a key has in a count map, 0 when it is absent. */
  function CountAt(counts: map<string, nat>, key: string): nat {
    if key in counts then counts[key] else 0
  }

  /** The count bookkeeping of one placement: a new key starts at 1, a known one goes up by 1. */
  function Placed(counts: map<string, nat>, key: string): map<string, nat> {
    counts[key := CountAt(counts, key) + 1]
  }

  /** The counts after placing at each key of `keys` in turn. */
  function PlaceAll(counts: map<string, nat>, keys: seq<string>): map<string, nat> {
    if keys == [] then counts
    else Placed(PlaceAll(counts, keys[..|keys| - 1]), keys[|keys| - 1])
  }

  /** How often `key` occurs in `keys`. */
  function Occurrences(keys: seq<string>, key: string): nat {
    if keys == [] then 0
    else Occurrences(keys[..|keys| - 1], key) + (if keys[|keys| - 1] == key then 1 else 0)
  }

  /**
   * After a run of placements each key's count is its old count plus the number of
   * placements made at it, and a key is present exactly when it was already or was
   * placed at: two placements at one key leave a single entry with count 2.
   */
  lemma {:induction false} PlaceAllCounts(counts: map<string, nat>, keys: seq<string>, key: string)
    ensures CountAt(PlaceAll(counts, keys), key) == CountAt(counts, key) + Occurrences(keys, key)
    ensures key in PlaceAll(counts, keys) <==> key in counts || Occurrences(keys, key) > 0
  {
    if keys != [] {
      PlaceAllCounts(counts, keys[..|keys| - 1], key);
    }
  }

  /**
   * The position map of the toolbar's "Place Marker" button, over the marker
   * component it draws into.
   */
  class MarkerBoard {
    var anchors: map<string, Anchor>
    const layer: Markers

    /**
     * Every entry has been placed at least once; it carries a label exactly when it
     * was placed more than once, and that label is a live marker showing the count;
     * no two entries share a label.
     */
    ghost predicate Valid()
      reads this, layer
    {
      && layer.Valid()
      && (forall k :: k in anchors ==> anchors[k].count >= 1)
      && (forall k :: k in anchors ==> (anchors[k].labelId.Some? <==> anchors[k].count >= 2))
      && (forall k :: k in anchors && anchors[k].labelId.Some? ==>
            anchors[k].labelId.value in layer.live
            && layer.live[anchors[k].labelId.value].text == CountLabel(anchors[k].count))
      && (forall k1, k2 :: k1 in anchors && k2 in anchors && k1 != k2 && anchors[k1].labelId.Some? ==>
            anchors[k1].labelId != anchors[k2].labelId)
    }

    constructor (layer: Markers)
      requires layer.Valid()
      ensures Valid() && this.layer == layer && anchors == map[]
    {
      this.layer := layer;
      anchors := map[];
    }

    /**
     * `placeMarkerOnSelected`. Only the first selected fragment's ids feed the
     * bounding sphere; `sphereOf` is the bounding-box collaborator and `keyOf` the
     * rounding of the centre to a key. Nothing changes when nothing is selected, the
     * first fragment is unknown or there is no sphere. Otherwise a rocket is drawn at
     * the centre; a new key gets count 1 and no label; a known key's count goes up by
     * one, its old label is deleted and a label with the new count is drawn.
     */
    method PlaceOnSelected(sel: Selection, fragments: map<string, Fragment>,
                           sphereOf: (string, SelValue) -> Option<Vec3>, keyOf: Vec3 -> string)
      returns (placed: bool)
      requires Valid()
      modifies this`anchors, layer
      ensures Valid()
      ensures placed <==> |sel| > 0 && sel[0].fragmentId in fragments
                          && sphereOf(sel[0].fragmentId, sel[0].value).Some?
      ensures !placed ==> anchors == old(anchors) && layer.live == old(layer.live)
                          && layer.nextId == old(layer.nextId)
      ensures placed ==>
        var center := sphereOf(sel[0].fragmentId, sel[0].value).value;
        var key := keyOf(center);
        var rocket := old(layer.nextId);
        && CountsOf(anchors) == Placed(old(CountsOf(anchors)), key)
        && (key !in old(anchors) ==>
              && anchors == old(anchors)[key := Anchor(center, 1, None)]
              && layer.live == old(layer.live)[rocket := Marker(Rocket, center)]
              && layer.nextId == rocket + 1)
        && (key in old(anchors) ==>
              var a := old(anchors)[key];
              var kept := if a.labelId.Some? then old(layer.live) - {a.labelId.value} else old(layer.live);
              && anchors == old(anchors)[key := Anchor(a.position, a.count + 1, Some(rocket + 1))]
              && layer.live == kept[rocket := Marker(Rocket, center)]
                                   [rocket + 1 := Marker(CountLabel(a.count + 1), LabelPosition(center))]
              && layer.nextId == rocket + 2)
    {
      placed := false;
      if |sel| == 0 {
        return;
      }
      var fragmentId := sel[0].fragmentId;
      if fragmentId !in fragments {
        return;
      }
      var sphere := sphereOf(fragmentId, sel[0].value);
      if sphere.None? {
        return;
      }
      placed := true;
      var center := sphere.value;
      var key := keyOf(center);
      if key in anchors {
        PlaceAgain(key, center);
      } else {
        PlaceFirst(key, center);
      }
    }

    /** First placement at `key`: a rocket at the centre and an entry with count 1. */
    method PlaceFirst(key: string, center: Vec3)
      requires Valid() && key !in anchors
      modifies this`anchors, layer
      ensures Valid()
      ensures anchors == old(anchors)[key := Anchor(center, 1, None)]
      ensures layer.live == old(layer.live)[old(layer.nextId) := Marker(Rocket, center)]
      ensures layer.nextId == old(layer.nextId) + 1
    {
      var rocket := layer.Create(Rocket, center);
      anchors := anchors[key := Anchor(center, 1, None)];
    }

    /**
     * A repeat placement at `key`: a rocket at the centre, the count raised by one,
     * the old count label replaced by one showing the new count.
     */
    method PlaceAgain(key: string, center: Vec3)
      requires Valid() && key in anchors
      modifies this`anchors, layer
      ensures Valid()
      ensures
        var a := old(anchors)[key];
        var rocket := old(layer.nextId);
        var kept := if a.labelId.Some? then old(layer.live) - {a.labelId.value} else old(layer.live);
        && anchors == old(anchors)[key := Anchor(a.position, a.count + 1, Some(rocket + 1))]
        && layer.live == kept[rocket := Marker(Rocket, center)]
                             [rocket + 1 := Marker(CountLabel(a.count + 1), LabelPosition(center))]
        && layer.nextId == rocket + 2
    {
      var a := anchors[key];
      var rocket := layer.Create(Rocket, center);
      if a.labelId.Some? {
        layer.Delete(a.labelId.value);
      }
      var countLabel := layer.Create(CountLabel(a.count + 1), LabelPosition(center));
      anchors := anchors[key := Anchor(a.position, a.count + 1, Some(countLabel))];
    }
  }
}
