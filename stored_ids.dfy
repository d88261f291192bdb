/** The `expressIDs` a todo stores, after `JSON.parse`: an array of id arrays or bare ids. */
module StoredIds {
  import opened Seqs

  /** One element of a stored id array: a nested id array or a bare id. */
  datatype IdEntry = Nested(ids: seq<int>) | Bare(id: int)

  /** `x` is one of the ids an entry stands for. */
  predicate EntryHolds(e: IdEntry, x: int) {
    match e
    case Nested(ids) => x in ids
    case Bare(id) => x == id
  }

  function EntryIds(e: IdEntry): seq<int> {
    match e
    case Nested(ids) => ids
    case Bare(id) => [id]
  }

  /** `entries.flat()`: nested arrays contribute their elements, bare ids themselves, in order. */
  function Flat(entries: seq<IdEntry>): (r: seq<int>)
    ensures forall x :: x in r <==> exists k :: 0 <= k < |entries| && EntryHolds(entries[k], x)
  {
    if entries == [] then []
    else
      var init := entries[..|entries| - 1];
      assert forall k :: 0 <= k < |init| ==> init[k] == entries[k];
      Flat(init) + EntryIds(entries[|entries| - 1])
  }
}
