/**
 * The viewer's marker component for the one world the core draws in: the markers
 * that are live, by id. `create` hands out a fresh id, `delete` removes one marker.
 */
module MarkerLayer {
  import opened Scene

  /** The text of a marker: the rocket glyph or an occurrence count. */
  datatype MarkerText = Rocket | CountLabel(count: nat)

  datatype Marker = Marker(text: MarkerText, at: Vec3)

  class Markers {
    var live: map<nat, Marker>
    var nextId: nat

    /** Every live marker has an id below the next one handed out. */
    ghost predicate Valid()
      reads this
    {
      forall id :: id in live ==> id < nextId
    }

    constructor ()
      ensures Valid() && live == map[] && nextId == 0
    {
      live := map[];
      nextId := 0;
    }

    /** `marker.create(world, text, position)`: adds a marker under a fresh id. */
    method Create(text: MarkerText, at: Vec3) returns (id: nat)
      requires Valid()
      modifies this
      ensures Valid()
      ensures id == old(nextId) && id !in old(live) && nextId == old(nextId) + 1
      ensures live == old(live)[id := Marker(text, at)]
    {
      id := nextId;
      live := live[id := Marker(text, at)];
      nextId := nextId + 1;
    }

    /** `marker.delete(id)`: removes that marker, if it is live. */
    method Delete(id: nat)
      requires Valid()
      modifies this`live
      ensures Valid()
      ensures live == old(live) - {id}
    {
      live := live - {id};
    }

    /** `clearMarkers`: every marker of the world is deleted, one at a time. */
    method Clear()
      requires Valid()
      modifies this`live
      ensures Valid()
      ensures live == map[]
    {
      while live != map[]
        invariant Valid()
        decreases |live|
      {
        var id :| id in live;
        Delete(id);
      }
    }
  }
}
