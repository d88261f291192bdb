/** The meshes of the world, known by their uuids. */
module Meshes {
  import opened Seqs

  /**
   * The disposal loop shared by both viewers: for each disposed fragment id, the mesh
   * of the world with that uuid, if any, is deleted; the other meshes stay.
   */
  method DisposeMeshes(meshes: set<string>, fragmentIDs: seq<string>) returns (remaining: set<string>)
    ensures remaining == meshes - Elems(fragmentIDs)
    ensures forall m :: m in meshes && m !in fragmentIDs ==> m in remaining
  {
    remaining := meshes;
    var i := 0;
    while i < |fragmentIDs|
      invariant 0 <= i <= |fragmentIDs|
      invariant remaining == meshes - Elems(fragmentIDs[..i])
    {
      assert fragmentIDs[..i + 1] == fragmentIDs[..i] + [fragmentIDs[i]];
      ElemsConcat(fragmentIDs[..i], [fragmentIDs[i]]);
      if fragmentIDs[i] in remaining {
        remaining := remaining - {fragmentIDs[i]};
      }
      i := i + 1;
    }
    assert fragmentIDs[..i] == fragmentIDs;
  }
}
