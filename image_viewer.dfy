/** The zoomable, rotatable image viewer with its full-screen dialog. */
module ImageViewer {

  import Zoom

  /**
   * `(prev + 90) % 360`. The rotation starts at 0 and only ever passes through this
   * function, so it is never negative and JavaScript's truncating `%` agrees with Dafny's.
   */
  function Rotate(rotation: nat): (r: nat)
    ensures 0 <= r < 360
  {
    (rotation + 90) % 360
  }

  predicate QuarterTurn(rotation: int)
  {
    rotation in {0, 90, 180, 270}
  }

  /** From a quarter turn the button reaches the next one, clockwise. */
  lemma RotateQuarterTurns(rotation: int)
    requires QuarterTurn(rotation)
    ensures QuarterTurn(Rotate(rotation))
    ensures Rotate(rotation) == if rotation == 270 then 0 else rotation + 90
  {
  }

  /** Four presses of the rotate button are a full turn. */
  lemma FourRotationsAreIdentity(rotation: int)
    requires QuarterTurn(rotation)
    ensures Rotate(Rotate(Rotate(Rotate(rotation)))) == rotation
  {
    RotateQuarterTurns(rotation);
    RotateQuarterTurns(Rotate(rotation));
    RotateQuarterTurns(Rotate(Rotate(rotation)));
  }

  class Viewer {
    /** Whether the `onClick` prop was given. */
    const hasOnClick: bool
    var isOpen: bool
    var scale: real
    var rotation: int

    ghost predicate Valid()
      reads this
    {
      Zoom.OnGrid(scale) && QuarterTurn(rotation)
    }

    constructor(hasOnClick: bool)
      ensures this.hasOnClick == hasOnClick
      ensures !isOpen && scale == 1.0 && rotation == 0
      ensures Valid()
    {
      this.hasOnClick := hasOnClick;
      isOpen := false;
      scale := 1.0;
      rotation := 0;
      new;
      Zoom.ResetOnGrid();
    }

    /** `handleZoomIn`. */
    method ZoomIn()
      requires Valid()
      modifies this
      ensures scale == Zoom.ZoomIn(old(scale)) && rotation == old(rotation) && isOpen == old(isOpen)
      ensures Valid()
    {
      Zoom.ZoomStaysOnGrid(scale);
      scale := if scale + 0.25 < 3.0 then scale + 0.25 else 3.0;
    }

    /** `handleZoomOut`. */
    method ZoomOut()
      requires Valid()
      modifies this
      ensures scale == Zoom.ZoomOut(old(scale)) && rotation == old(rotation) && isOpen == old(isOpen)
      ensures Valid()
    {
      Zoom.ZoomStaysOnGrid(scale);
      scale := if 0.5 < scale - 0.25 then scale - 0.25 else 0.5;
    }

    /** `handleRotate`: a quarter turn clockwise. */
    method RotateClockwise()
      requires Valid()
      modifies this
      ensures rotation == Rotate(old(rotation)) && scale == old(scale) && isOpen == old(isOpen)
      ensures Valid()
    {
      RotateQuarterTurns(rotation);
      rotation := (rotation + 90) % 360;
    }

    /** `handleReset`: back to scale 1 and no rotation. */
    method Reset()
      requires Valid()
      modifies this
      ensures scale == 1.0 && rotation == 0 && isOpen == old(isOpen)
      ensures Valid()
    {
      Zoom.ResetOnGrid();
      scale := 1.0;
      rotation := 0;
    }

    /** `handleImageClick`: delegates to `onClick` when given (reported by the result), else opens the dialog. */
    method ImageClick() returns (calledOnClick: bool)
      requires Valid()
      modifies this
      ensures calledOnClick == hasOnClick
      ensures hasOnClick ==> isOpen == old(isOpen)
      ensures !hasOnClick ==> isOpen
      ensures scale == old(scale) && rotation == old(rotation)
      ensures Valid()
    {
      if hasOnClick {
        calledOnClick := true;
      } else {
        calledOnClick := false;
        isOpen := true;
      }
    }

    /** The dialog's `onOpenChange`. */
    method SetOpen(open: bool)
      requires Valid()
      modifies this
      ensures isOpen == open && scale == old(scale) && rotation == old(rotation)
      ensures Valid()
    {
      isOpen := open;
    }
  }
}
