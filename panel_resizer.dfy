/**
 * The side panel's resize handle: a press within 15 pixels of the panel's right edge
 * starts a drag, moves while dragging set the width within bounds, a release ends the
 * drag, and the cursor shows where a drag can start.
 */
module PanelResizer {
  import opened Wrappers

  const ResizeThreshold: real := 15.0
  const MaxWidthRatio: real := 2.0 / 3.0

  datatype Cursor = ColResize | DefaultCursor

  /** The press or hover point is in the handle: right of `right - 15`. */
  predicate InHandle(clientX: real, right: real) {
    clientX > right - ResizeThreshold
  }

  /**
   * The width a drag asks for, `initialWidth + (clientX - initialX)`, when it is
   * strictly between 0 and two thirds of the app's width; `None` otherwise.
   */
  function DraggedWidth(initialWidth: real, initialX: real, clientX: real, appWidth: real): (r: Option<real>)
    ensures r.Some? ==> 0.0 < r.value < appWidth * MaxWidthRatio
    ensures r.Some? ==> r.value - initialWidth == clientX - initialX
    ensures r.None? <==> !(0.0 < initialWidth + (clientX - initialX) < appWidth * MaxWidthRatio)
  {
    var w := initialWidth + (clientX - initialX);
    if 0.0 < w && w < appWidth * MaxWidthRatio then Some(w) else None
  }

  /** Moving back to where the drag started asks for the width the panel had then. */
  lemma DragBackToStart(initialWidth: real, initialX: real, appWidth: real)
    requires 0.0 < initialWidth < appWidth * MaxWidthRatio
    ensures DraggedWidth(initialWidth, initialX, initialX, appWidth) == Some(initialWidth)
  {
  }

  /** The cursor for the mouse at `clientX` over a panel whose right edge is at `right`. */
  function CursorAt(clientX: real, right: real): (c: Cursor)
    ensures c == ColResize <==> InHandle(clientX, right)
  {
    if clientX > right - ResizeThreshold then ColResize else DefaultCursor
  }

  class Resizer {
    var isResizing: bool
    var initialX: real
    var initialWidth: real
    /** `panel.style.width`, in pixels. */
    var width: real
    var cursor: Cursor
    /** Whether the window-level move and release listeners are attached. */
    var listening: bool

    /** The window listeners are attached exactly while a drag is under way. */
    ghost predicate Valid()
      reads this
    {
      listening == isResizing
    }

    constructor (width: real)
      ensures Valid() && !isResizing && initialX == 0.0 && initialWidth == 0.0
      ensures this.width == width && cursor == DefaultCursor
    {
      isResizing := false;
      initialX := 0.0;
      initialWidth := 0.0;
      this.width := width;
      cursor := DefaultCursor;
      listening := false;
    }

    /**
     * Press on the panel: inside the handle a drag starts from the mouse and the
     * panel's current width (`offsetWidth`); elsewhere nothing changes.
     */
    method MouseDown(clientX: real, right: real, offsetWidth: real)
      requires Valid()
      modifies this`isResizing, this`initialX, this`initialWidth, this`listening
      ensures Valid()
      ensures InHandle(clientX, right) ==> isResizing && initialX == clientX && initialWidth == offsetWidth
      ensures !InHandle(clientX, right) ==>
                isResizing == old(isResizing) && initialX == old(initialX) && initialWidth == old(initialWidth)
    {
      if clientX <= right - ResizeThreshold {
        return;
      }
      isResizing := true;
      initialX := clientX;
      initialWidth := offsetWidth;
      listening := true;
    }

    /** Move on the window: while dragging, the width follows the mouse within bounds. */
    method MouseMove(clientX: real, appWidth: real)
      requires Valid()
      modifies this`width
      ensures Valid()
      ensures var w := DraggedWidth(initialWidth, initialX, clientX, appWidth);
              width == if isResizing && w.Some? then w.value else old(width)
    {
      if !isResizing {
        return;
      }
      var deltaX := clientX - initialX;
      var newWidth := initialWidth + deltaX;
      if newWidth > 0.0 && newWidth < appWidth * MaxWidthRatio {
        width := newWidth;
      }
    }

    /** Release on the window: a drag ends; with no drag under way nothing changes. */
    method MouseUp()
      requires Valid()
      modifies this`isResizing, this`listening
      ensures Valid()
      ensures !isResizing
    {
      if !isResizing {
        return;
      }
      isResizing := false;
      listening := false;
    }

    /** Move over the panel: the cursor shows whether the mouse is in the handle. */
    method HoverMove(clientX: real, right: real)
      modifies this`cursor
      ensures cursor == CursorAt(clientX, right)
    {
      cursor := if clientX > right - ResizeThreshold then ColResize else DefaultCursor;
    }

    /** Leaving the panel resets the cursor, unless a drag is under way. */
    method MouseLeave()
      modifies this`cursor
      ensures cursor == if isResizing then old(cursor) else DefaultCursor
    {
      if !isResizing {
        cursor := DefaultCursor;
      }
    }
  }
}
