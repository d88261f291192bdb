/**
 * The measurement toolbar: edge, face and volume tools, each with an `enabled` flag,
 * the measurements the edge and face tools hold, and the lists saved by the S key.
 * The same handlers exist in the second viewer's entry point.
 */
module Measurement {
  import opened Wrappers
  import opened Scene

  datatype Tool = Edge | Face | Volume

  datatype KeyCode = KeyO | KeyS | KeyL | OtherKey

  /** A serialised edge dimension: its end points' coordinates. */
  type Dimension = seq<real>

  /** A serialised face measurement. */
  datatype AreaMeasure = AreaMeasure(position: seq<real>, perimeter: real, area: real)

  /** What the edge and face tools hold, and what the S key last saved from them. */
  datatype Lists = Lists(edges: seq<Dimension>, faces: seq<AreaMeasure>,
                         savedEdges: seq<Dimension>, savedFaces: seq<AreaMeasure>)

  /** `delete()` on a tool: the measurement under the mouse, if any, goes. */
  function DeletePicked<T>(s: seq<T>, picked: Option<nat>): (r: seq<T>)
    ensures picked.Some? && picked.value < |s| ==> |r| == |s| - 1
    ensures picked.None? || picked.value >= |s| ==> r == s
    ensures forall x :: x in r ==> x in s
    ensures picked.Some? && picked.value < |s| ==>
              forall i :: 0 <= i < |r| ==> r[i] == (if i < picked.value then s[i] else s[i + 1])
  {
    if picked.Some? && picked.value < |s| then s[..picked.value] + s[picked.value + 1..] else s
  }

  /**
   * The key handler. O deletes the picked measurement of the edge tool when it is
   * enabled, else of the face tool; S saves the active tool's measurements and deletes
   * them all; L puts a non-empty saved list back into the enabled tool. The edge tool
   * is looked at first each time.
   */
  function KeyEffect(edgeOn: bool, faceOn: bool, l: Lists, code: KeyCode, picked: Option<nat>): (r: Lists)
    ensures !edgeOn && !faceOn ==> r == l
    ensures code == KeyO && edgeOn ==> r == l.(edges := DeletePicked(l.edges, picked))
    ensures code == KeyO && !edgeOn && faceOn ==> r == l.(faces := DeletePicked(l.faces, picked))
    ensures code == KeyL && edgeOn && |l.savedEdges| > 0 ==> r == l.(edges := l.edges + l.savedEdges)
    ensures code == KeyL && !(edgeOn && |l.savedEdges| > 0) && faceOn && |l.savedFaces| > 0 ==>
              r == l.(faces := l.faces + l.savedFaces)
    ensures code == KeyS && edgeOn ==> r == l.(savedEdges := l.edges, edges := [])
    ensures code == KeyS && !edgeOn && faceOn ==> r == l.(savedFaces := l.faces, faces := [])
    ensures code == KeyL && (edgeOn ==> |l.savedEdges| == 0) && (faceOn ==> |l.savedFaces| == 0) ==> r == l
    ensures code != KeyS ==> r.savedEdges == l.savedEdges && r.savedFaces == l.savedFaces
    ensures code == OtherKey ==> r == l
  {
    match code
    case KeyO =>
      if edgeOn then l.(edges := DeletePicked(l.edges, picked))
      else if faceOn then l.(faces := DeletePicked(l.faces, picked))
      else l
    case KeyS =>
      if edgeOn then l.(savedEdges := l.edges, edges := [])
      else if faceOn then l.(savedFaces := l.faces, faces := [])
      else l
    case KeyL =>
      if edgeOn && |l.savedEdges| > 0 then l.(edges := l.edges + l.savedEdges)
      else if faceOn && |l.savedFaces| > 0 then l.(faces := l.faces + l.savedFaces)
      else l
    case OtherKey => l
  }

  /**
   * "S: Delete all" then "L: Recover deleted" gives the active tool back the
   * measurements it held, and keeps them saved for another recovery.
   */
  lemma SaveThenRestoreEdges(l: Lists, faceOn: bool)
    requires |l.edges| > 0
    ensures KeyEffect(true, faceOn, KeyEffect(true, faceOn, l, KeyS, None), KeyL, None)
            == l.(savedEdges := l.edges)
  {
    assert [] + l.edges == l.edges;
  }

  lemma SaveThenRestoreFaces(l: Lists)
    requires |l.faces| > 0
    ensures KeyEffect(false, true, KeyEffect(false, true, l, KeyS, None), KeyL, None)
            == l.(savedFaces := l.faces)
  {
    assert [] + l.faces == l.faces;
  }

  /** Saving an empty tool empties the saved list, after which L restores nothing. */
  lemma SaveEmptyThenRestore(l: Lists)
    requires |l.edges| == 0
    ensures KeyEffect(true, false, KeyEffect(true, false, l, KeyS, None), KeyL, None)
            == l.(savedEdges := [])
  {
  }

  class MeasurementTools {
    var edgeOn: bool
    var faceOn: bool
    var volumeOn: bool
    var edges: seq<Dimension>
    var faces: seq<AreaMeasure>
    var savedEdges: seq<Dimension>
    var savedFaces: seq<AreaMeasure>

    function Enabled(t: Tool): bool
      reads this
    {
      match t
      case Edge => edgeOn
      case Face => faceOn
      case Volume => volumeOn
    }

    /** At most one tool is enabled. */
    ghost predicate Valid()
      reads this
    {
      forall t, u :: Enabled(t) && Enabled(u) ==> t == u
    }

    function Snapshot(): Lists
      reads this
    {
      Lists(edges, faces, savedEdges, savedFaces)
    }

    /** Setup: every tool starts disabled and nothing is saved. */
    constructor ()
      ensures Valid()
      ensures forall t :: !Enabled(t)
      ensures Snapshot() == Lists([], [], [], [])
    {
      edgeOn, faceOn, volumeOn := false, false, false;
      edges, faces := [], [];
      savedEdges, savedFaces := [], [];
    }

    /** A toolbar button: toggles its own tool and disables the other two. */
    method Click(tool: Tool)
      requires Valid()
      modifies this`edgeOn, this`faceOn, this`volumeOn
      ensures Valid()
      ensures Enabled(tool) == !old(Enabled(tool))
      ensures forall t :: t != tool ==> !Enabled(t)
    {
      match tool
      case Edge =>
        edgeOn := !edgeOn;
        faceOn := false;
        volumeOn := false;
      case Face =>
        faceOn := !faceOn;
        edgeOn := false;
        volumeOn := false;
      case Volume =>
        volumeOn := !volumeOn;
        edgeOn := false;
        faceOn := false;
    }

    /** The keydown listener; `picked` is the measurement under the mouse, if any. */
    method KeyDown(code: KeyCode, picked: Option<nat>)
      modifies this`edges, this`faces, this`savedEdges, this`savedFaces
      ensures Snapshot() == KeyEffect(edgeOn, faceOn, old(Snapshot()), code, picked)
    {
      if code == KeyO {
        if edgeOn {
          edges := DeletePicked(edges, picked);
        } else if faceOn {
          faces := DeletePicked(faces, picked);
        }
      } else if code == KeyS {
        if edgeOn {
          savedEdges := edges;
          edges := [];
        } else if faceOn {
          savedFaces := faces;
          faces := [];
        }
      } else if code == KeyL {
        if edgeOn && |savedEdges| > 0 {
          edges := edges + savedEdges;
        } else if faceOn && |savedFaces| > 0 {
          faces := faces + savedFaces;
        }
      }
    }

    /**
     * Double click on the viewport: the edge tool, else the face tool, creates a
     * measurement where the mouse is (`edgeHit`/`faceHit`, `None` when the mouse
     * hits nothing). With neither enabled nothing changes.
     */
    method DoubleClick(edgeHit: Option<Dimension>, faceHit: Option<AreaMeasure>)
      modifies this`edges, this`faces
      ensures edgeOn ==> (faces == old(faces)
                          && edges == old(edges) + (if edgeHit.Some? then [edgeHit.value] else []))
      ensures !edgeOn && faceOn ==> (edges == old(edges)
                          && faces == old(faces) + (if faceHit.Some? then [faceHit.value] else []))
      ensures !edgeOn && !faceOn ==> edges == old(edges) && faces == old(faces)
    {
      if edgeOn {
        if edgeHit.Some? {
          edges := edges + [edgeHit.value];
        }
      } else if faceOn {
        if faceHit.Some? {
          faces := faces + [faceHit.value];
        }
      }
    }

    /** Highlight: the volume of the selection is computed only when the volume tool is on. */
    method Highlight(sel: Selection) returns (volumeQueried: bool)
      ensures volumeQueried <==> Enabled(Volume)
    {
      volumeQueried := volumeOn;
    }

    /** Clearing the selection clears the volume tool only when it is on. */
    method SelectionCleared() returns (volumeCleared: bool)
      ensures volumeCleared <==> Enabled(Volume)
    {
      volumeCleared := volumeOn;
    }
  }
}
