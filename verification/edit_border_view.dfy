/**
 * The corner-drag editor of the example app (EditBorderView.swift): four corner points,
 * four draggable handles, the offset of the touch from the grabbed handle, clamping of a
 * dragged point to the view, and the flag that says the frame was moved.
 */
module EditBorder {
  import opened Wrappers
  import opened Geometry

  /** The four corners handed to the editor. */
  datatype CornerPoints = CornerPoints(topLeft: Point, topRight: Point, bottomRight: Point, bottomLeft: Point)

  /** The margin a clamped point keeps from the view's edges. */
  const LineOffsetWidth := 2.0

  /** CGRectContainsPoint for bounds of the given size at the origin. */
  predicate ContainsPoint(width: real, height: real, p: Point) {
    0.0 <= p.x < width && 0.0 <= p.y < height
  }

  /**
   * Where `pointMoved` puts a dragged point p. A point inside the bounds is kept. Outside,
   * x is pulled into [2, width - 2]; y is raised to 2 when below it but lowered to
   * height - 2 only when it exceeds height, so a y in (height - 2, height] is kept.
   */
  function ClampToBounds(p: Point, width: real, height: real): (q: Point)
    ensures ContainsPoint(width, height, p) ==> q == p
    ensures !ContainsPoint(width, height, p) ==>
      && (p.x < LineOffsetWidth ==> q.x == LineOffsetWidth)
      && (LineOffsetWidth <= p.x <= width - LineOffsetWidth ==> q.x == p.x)
      && (LineOffsetWidth <= p.x && width - LineOffsetWidth < p.x ==> q.x == width - LineOffsetWidth)
      && (p.y < LineOffsetWidth ==> q.y == LineOffsetWidth)
      && (LineOffsetWidth <= p.y <= height ==> q.y == p.y)
      && (LineOffsetWidth <= p.y && height < p.y ==> q.y == height - LineOffsetWidth)
    ensures !ContainsPoint(width, height, p) && width >= 2.0 * LineOffsetWidth ==>
      LineOffsetWidth <= q.x <= width - LineOffsetWidth
    ensures !ContainsPoint(width, height, p) && height >= 2.0 * LineOffsetWidth ==>
      LineOffsetWidth <= q.y <= height
    ensures width >= 2.0 * LineOffsetWidth && height >= 2.0 * LineOffsetWidth ==>
      0.0 <= q.x <= width && 0.0 <= q.y <= height
  {
    if ContainsPoint(width, height, p) then p
    else
      var x :=
        if p.x < LineOffsetWidth then LineOffsetWidth
        else if p.x > width - LineOffsetWidth then width - LineOffsetWidth
        else p.x;
      var y :=
        if p.y < LineOffsetWidth then LineOffsetWidth
        else if p.y > height then height - LineOffsetWidth
        else p.y;
      Point(x, y)
  }

  /** On a view at least 4 units wide and high, clamping a clamped point changes nothing. */
  lemma ClampIsIdempotent(p: Point, width: real, height: real)
    requires width >= 2.0 * LineOffsetWidth && height >= 2.0 * LineOffsetWidth
    ensures ClampToBounds(ClampToBounds(p, width, height), width, height) == ClampToBounds(p, width, height)
  {
  }

  /** The asymmetric y-clamp can leave a dragged point on the bottom edge, outside the bounds. */
  lemma ClampCanLeavePointOnBottomEdge(width: real, height: real)
    requires width >= 2.0 * LineOffsetWidth && height >= 2.0 * LineOffsetWidth
    ensures ClampToBounds(Point(-1.0, height), width, height) == Point(LineOffsetWidth, height)
    ensures !ContainsPoint(width, height, ClampToBounds(Point(-1.0, height), width, height))
  {
  }

  /**
   * Grabbing a handle that lies in the view and dragging it without moving the finger
   * leaves it where it was: the offset recorded on touch-down cancels the touch.
   */
  lemma GrabWithoutMovingKeepsHandle(touch: Point, center: Point, width: real, height: real)
    requires ContainsPoint(width, height, center)
    ensures ClampToBounds(Sub(touch, Sub(touch, center)), width, height) == center
  {
  }

  /** A draggable corner button: its tag and its center. */
  class Handle {
    const tag: int
    var center: Point

    constructor (tag: int)
      ensures this.tag == tag && center == Origin
    {
      this.tag := tag;
      center := Origin;
    }
  }

  class EditBorderView {
    /** The size of the view's bounds, whose origin is (0, 0). */
    const width: real
    const height: real

    var cornerPoints: Option<CornerPoints>
    var frameMoved: bool
    var pointA: Point
    var pointB: Point
    var pointC: Point
    var pointD: Point
    var touchOffset: Point

    const topLeftButton: Handle
    const topRightButton: Handle
    const bottomRightButton: Handle
    const bottomLeftButton: Handle

    /** The buttons carry the tags of the corner layout: a = 1, b = 2, c = 3, d = 4. */
    ghost predicate Valid()
      reads this
    {
      && bottomLeftButton.tag == 1
      && bottomRightButton.tag == 2
      && topRightButton.tag == 3
      && topLeftButton.tag == 4
    }

    /** The corners as the editor holds them: A bottom-left, B bottom-right, C top-right, D top-left. */
    function Corners(): CornerPoints
      reads this
    {
      CornerPoints(topLeft := pointD, topRight := pointC, bottomRight := pointB, bottomLeft := pointA)
    }

    /** Every handle sits on its point. */
    predicate HandlesAligned()
      reads this, topLeftButton, topRightButton, bottomRightButton, bottomLeftButton
    {
      && topLeftButton.center == pointD
      && topRightButton.center == pointC
      && bottomLeftButton.center == pointA
      && bottomRightButton.center == pointB
    }

    /** `init(frame:)`: no corners yet, every point and handle at the origin. */
    constructor (width: real, height: real)
      ensures Valid() && HandlesAligned()
      ensures this.width == width && this.height == height
      ensures cornerPoints == None && !frameMoved && touchOffset == Origin
      ensures Corners() == CornerPoints(Origin, Origin, Origin, Origin)
      ensures fresh(topLeftButton) && fresh(topRightButton) && fresh(bottomRightButton) && fresh(bottomLeftButton)
    {
      this.width := width;
      this.height := height;
      cornerPoints := None;
      frameMoved := false;
      pointA, pointB, pointC, pointD := Origin, Origin, Origin, Origin;
      touchOffset := Origin;
      topLeftButton := new Handle(4);
      topRightButton := new Handle(3);
      bottomRightButton := new Handle(2);
      bottomLeftButton := new Handle(1);
      new;
      AlignButtons();
    }

    /** `alignPoints`: copy the assigned corners into A..D; without corners nothing changes. */
    method AlignPoints()
      modifies this`pointA, this`pointB, this`pointC, this`pointD
      ensures cornerPoints.Some? ==>
        && pointA == cornerPoints.value.bottomLeft
        && pointB == cornerPoints.value.bottomRight
        && pointC == cornerPoints.value.topRight
        && pointD == cornerPoints.value.topLeft
      ensures cornerPoints.None? ==>
        pointA == old(pointA) && pointB == old(pointB) && pointC == old(pointC) && pointD == old(pointD)
      ensures Corners() == if cornerPoints.Some? then cornerPoints.value else old(Corners())
    {
      if cornerPoints.Some? {
        var feature := cornerPoints.value;
        pointA := feature.bottomLeft;
        pointB := feature.bottomRight;
        pointC := feature.topRight;
        pointD := feature.topLeft;
      }
    }

    /** `alignButtons` (centers only): each handle is put on its point. */
    method AlignButtons()
      requires Valid()
      modifies topLeftButton`center, topRightButton`center, bottomLeftButton`center, bottomRightButton`center
      ensures HandlesAligned()
    {
      topLeftButton.center := pointD;
      topRightButton.center := pointC;
      bottomLeftButton.center := pointA;
      bottomRightButton.center := pointB;
    }

    /** `needsRedraw` (the flag and the handles; drawing is not modelled). */
    method NeedsRedraw()
      requires Valid()
      modifies this`frameMoved, topLeftButton`center, topRightButton`center, bottomLeftButton`center, bottomRightButton`center
      ensures frameMoved && HandlesAligned()
    {
      frameMoved := true;
      AlignButtons();
    }

    /** Assigning `cornerPoints`: its didSet realigns the points and handles and marks the frame as moved. */
    method SetCornerPoints(corners: Option<CornerPoints>)
      requires Valid()
      modifies this, topLeftButton, topRightButton, bottomLeftButton, bottomRightButton
      ensures cornerPoints == corners
      ensures Corners() == if corners.Some? then corners.value else old(Corners())
      ensures frameMoved && HandlesAligned()
      ensures touchOffset == old(touchOffset)
    {
      cornerPoints := corners;
      AlignPoints();
      NeedsRedraw();
    }

    /** `resetFrame`: realign the points and handles to `cornerPoints` and clear the moved flag. */
    method ResetFrame()
      requires Valid()
      modifies this`pointA, this`pointB, this`pointC, this`pointD, this`frameMoved
      modifies topLeftButton`center, topRightButton`center, bottomLeftButton`center, bottomRightButton`center
      ensures Corners() == if cornerPoints.Some? then cornerPoints.value else old(Corners())
      ensures !frameMoved && HandlesAligned()
    {
      AlignPoints();
      frameMoved := false;
      AlignButtons();
    }

    /** `pointMoveEnter`: remember where in the grabbed handle the touch went down. */
    method PointMoveEnter(sender: Handle, touch: Point)
      modifies this`touchOffset
      ensures touchOffset == Sub(touch, sender.center)
    {
      touchOffset := Point(touch.x - sender.center.x, touch.y - sender.center.y);
    }

    /** `pointMoveExit`: forget the offset. */
    method PointMoveExit()
      modifies this`touchOffset
      ensures touchOffset == Origin
    {
      touchOffset := Origin;
    }

    /**
     * `pointMoved`: the handle follows the touch less the offset, clamped to the view; the
     * point its tag names (1 A, 2 B, 3 C, 4 D, any other none) follows it, and the frame
     * counts as moved even when nothing changed position.
     */
    method PointMoved(sender: Handle, touch: Point)
      modifies this`frameMoved, this`pointA, this`pointB, this`pointC, this`pointD, sender`center
      ensures var p := ClampToBounds(Sub(touch, old(touchOffset)), width, height);
        && sender.center == p
        && pointA == (if sender.tag == 1 then p else old(pointA))
        && pointB == (if sender.tag == 2 then p else old(pointB))
        && pointC == (if sender.tag == 3 then p else old(pointC))
        && pointD == (if sender.tag == 4 then p else old(pointD))
      ensures frameMoved
      ensures old(touchOffset) == Origin && ContainsPoint(width, height, touch) ==> sender.center == touch
      ensures Valid() && old(HandlesAligned())
           && sender in {topLeftButton, topRightButton, bottomRightButton, bottomLeftButton}
          ==> HandlesAligned()
    {
      var point := Point(touch.x - touchOffset.x, touch.y - touchOffset.y);
      if !ContainsPoint(width, height, point) {
        var lineOffsetWidth := LineOffsetWidth;
        if point.x < lineOffsetWidth || point.x > width - lineOffsetWidth {
          if point.x < lineOffsetWidth {
            point := point.(x := lineOffsetWidth);
          } else if point.x > width - lineOffsetWidth {
            point := point.(x := width - lineOffsetWidth);
          }
        }
        if point.y < lineOffsetWidth || point.y > height - lineOffsetWidth {
          if point.y < lineOffsetWidth {
            point := point.(y := lineOffsetWidth);
          } else if point.y > height {
            point := point.(y := height - lineOffsetWidth);
          }
        }
      }
      frameMoved := true;
      sender.center := point;
      if sender.tag == 1 {
        pointA := point;
      } else if sender.tag == 2 {
        pointB := point;
      } else if sender.tag == 3 {
        pointC := point;
      } else if sender.tag == 4 {
        pointD := point;
      }
    }
  }
}
