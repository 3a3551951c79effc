/**
 * The 360-degree product viewer: dragging with the mouse or a finger steps through the
 * frames, one frame for every move of more than 10 pixels, and zoom buttons scale the view.
 */
module Image360Viewer {

  import Cyclic
  import Zoom

  /** The smallest horizontal move, in pixels, that changes the frame. */
  const DragThreshold: real := 10.0

  function Abs(x: real): real
  {
    if x < 0.0 then -x else x
  }

  class Viewer {
    const count: nat
    var currentIndex: nat
    var isDragging: bool
    var startX: real
    var scale: real

    ghost predicate Valid()
      reads this
    {
      currentIndex < count && Zoom.OnGrid(scale)
    }

    constructor(count: nat)
      requires count > 0
      ensures this.count == count
      ensures currentIndex == 0 && !isDragging && startX == 0.0 && scale == 1.0
      ensures Valid()
    {
      this.count := count;
      currentIndex := 0;
      isDragging := false;
      startX := 0.0;
      scale := 1.0;
      new;
      Zoom.ResetOnGrid();
    }

    /** `handleMouseDown` and `handleTouchStart`: start a drag at the cursor's x. */
    method Press(x: real)
      requires Valid()
      modifies this
      ensures isDragging && startX == x
      ensures currentIndex == old(currentIndex) && scale == old(scale)
      ensures Valid()
    {
      isDragging := true;
      startX := x;
    }

    /**
     * `handleMouseMove` and `handleTouchMove`. While dragging, a move of more than 10 pixels
     * to the right shows the previous frame and one to the left the next, and the move
     * becomes the new reference point; smaller moves, and moves without a drag, change nothing.
     */
    method Drag(x: real)
      requires Valid()
      modifies this
      ensures isDragging == old(isDragging) && scale == old(scale)
      ensures (!old(isDragging) || Abs(x - old(startX)) <= DragThreshold) ==>
                currentIndex == old(currentIndex) && startX == old(startX)
      ensures old(isDragging) && Abs(x - old(startX)) > DragThreshold ==>
                startX == x &&
                currentIndex == (if x > old(startX) then Cyclic.Prev(old(currentIndex), count)
                                 else Cyclic.Next(old(currentIndex), count))
      ensures Valid()
    {
      if !isDragging {
        return;
      }
      var deltaX := x - startX;
      if Abs(deltaX) > DragThreshold {
        var direction := if deltaX > 0.0 then -1 else 1;
        var newIndex := (currentIndex + direction + count) % count;
        if direction == 1 {
          assert newIndex == Cyclic.Next(currentIndex, count) by {
            Cyclic.ModUnique(currentIndex + 1 + count, if currentIndex + 1 == count then 2 else 1,
                             if currentIndex + 1 == count then 0 else currentIndex + 1, count);
          }
        }
        currentIndex := newIndex;
        startX := x;
      }
    }

    /** `handleMouseUp`, `handleTouchEnd` and the container's `mouseleave` listener: end the drag. */
    method Release()
      requires Valid()
      modifies this
      ensures !isDragging
      ensures currentIndex == old(currentIndex) && startX == old(startX) && scale == old(scale)
      ensures Valid()
    {
      isDragging := false;
    }

    /** `handleZoomIn`. */
    method ZoomIn()
      requires Valid()
      modifies this
      ensures scale == Zoom.ZoomIn(old(scale))
      ensures currentIndex == old(currentIndex) && isDragging == old(isDragging) && startX == old(startX)
      ensures Valid()
    {
      Zoom.ZoomStaysOnGrid(scale);
      scale := if scale + 0.25 < 3.0 then scale + 0.25 else 3.0;
    }

    /** `handleZoomOut`. */
    method ZoomOut()
      requires Valid()
      modifies this
      ensures scale == Zoom.ZoomOut(old(scale))
      ensures currentIndex == old(currentIndex) && isDragging == old(isDragging) && startX == old(startX)
      ensures Valid()
    {
      Zoom.ZoomStaysOnGrid(scale);
      scale := if 0.5 < scale - 0.25 then scale - 0.25 else 0.5;
    }

    /** `handleReset`: only the scale returns to 1; the frame stays. */
    method ResetZoom()
      requires Valid()
      modifies this
      ensures scale == 1.0
      ensures currentIndex == old(currentIndex) && isDragging == old(isDragging) && startX == old(startX)
      ensures Valid()
    {
      Zoom.ResetOnGrid();
      scale := 1.0;
    }
  }
}
