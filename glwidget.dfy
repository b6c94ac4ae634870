/** The camera and scene state of the GL widget, with its setters and event
    handlers as methods that update the fields in place. */
module Widget {
  import opened CArith
  import opened Defaults
  import Angles
  import Grid
  import Zoom

  /** The Qt::LeftButton and Qt::RightButton bits of QMouseEvent::buttons(). */
  const LeftButton: bv32 := 0x1
  const RightButton: bv32 := 0x2

  /** A pointer movement of `d` pixels scaled by a sensitivity: an int times a
      double in the source. */
  function Scaled(d: int, factor: real): real {
    d as real * factor
  }

  class GLWidget {
    var position: Vec3
    var rotation: Vec3
    /** mLastPosition, the pointer position of the last press or move. */
    var lastX: int
    var lastY: int
    var zoomingIn: bool
    var zoomingOut: bool
    /** Ticks left in the current smooth zoom. */
    var zoomAmount: int
    var numCubes: int
    var cubeSize: real
    /** The sensitivities MOVE_MOUSE_FACTOR and ROTATE_MOUSE_FACTOR and the wheel
        conversions DELTA_2_DEGREES and DEGREES_2_STEPS, fixed at construction. */
    const moveMouseFactor: real
    const rotateMouseFactor: real
    const delta2Degrees: real
    const degrees2Steps: real

    /** The depth stays in its accepted range, the rotations in the normalised
        range, the zoom count within its bound, and the cube size is the
        reciprocal of the cube count once one has been set. */
    ghost predicate Valid()
      reads this
    {
      && InZRange(position.z)
      && 0.0 <= rotation.x <= Angles.MaxAngle
      && 0.0 <= rotation.y <= Angles.MaxAngle
      && rotation.z == 0.0
      && Zoom.AmountBounded(ZoomView())
      && (numCubes != 0 ==> cubeSize == 1.0 / numCubes as real)
    }

    /** The fields the smooth zoom reads and writes. */
    function ZoomView(): Zoom.ZoomState
      reads this
    {
      Zoom.ZoomState(zoomingIn, zoomingOut, zoomAmount, position.z)
    }

    constructor (moveMouseFactor: real, rotateMouseFactor: real,
                 delta2Degrees: real, degrees2Steps: real)
      ensures Valid()
      ensures position == Vec3(0.0, 0.0, DefaultZPos)
      ensures rotation == Vec3(DefaultXRot, DefaultYRot, 0.0)
      ensures !zoomingIn && !zoomingOut && zoomAmount == 0
      ensures numCubes == 0 && cubeSize == 0.0
      ensures lastX == 0 && lastY == 0
      ensures this.moveMouseFactor == moveMouseFactor
      ensures this.rotateMouseFactor == rotateMouseFactor
      ensures this.delta2Degrees == delta2Degrees
      ensures this.degrees2Steps == degrees2Steps
    {
      position := Vec3(0.0, 0.0, DefaultZPos);
      rotation := Vec3(DefaultXRot, DefaultYRot, 0.0);
      zoomingIn := false;
      zoomingOut := false;
      zoomAmount := 0;
      numCubes := 0;
      cubeSize := 0.0;
      lastX, lastY := 0, 0;
      this.moveMouseFactor := moveMouseFactor;
      this.rotateMouseFactor := rotateMouseFactor;
      this.delta2Degrees := delta2Degrees;
      this.degrees2Steps := degrees2Steps;
    }

    /** Stores the normalised angle as the x rotation; nothing else changes. */
    method SetXRotation(angle: real)
      requires Valid()
      modifies this`rotation
      ensures Valid()
      ensures Angles.IsNormalized(angle, rotation.x)
      ensures rotation.y == old(rotation.y) && rotation.z == old(rotation.z)
    {
      var a := Angles.NormalizeAngle(angle);
      if a != rotation.x {
        rotation := rotation.(x := a);
      }
    }

    /** Stores the normalised angle as the y rotation; nothing else changes. */
    method SetYRotation(angle: real)
      requires Valid()
      modifies this`rotation
      ensures Valid()
      ensures Angles.IsNormalized(angle, rotation.y)
      ensures rotation.x == old(rotation.x) && rotation.z == old(rotation.z)
    {
      var a := Angles.NormalizeAngle(angle);
      if a != rotation.y {
        rotation := rotation.(y := a);
      }
    }

    method SetXPosition(xPos: real)
      requires Valid()
      modifies this`position
      ensures Valid()
      ensures position == old(position).(x := xPos)
    {
      if xPos != position.x {
        position := position.(x := xPos);
      }
    }

    method SetYPosition(yPos: real)
      requires Valid()
      modifies this`position
      ensures Valid()
      ensures position == old(position).(y := yPos)
    {
      if yPos != position.y {
        position := position.(y := yPos);
      }
    }

    /** Moves the camera to depth zPos only if that lies in [-10, -5);
        any other value leaves the position as it was. */
    method SetZPosition(zPos: real)
      modifies this`position
      ensures position == old(position).(z := Zoom.SetZ(old(position.z), zPos))
      ensures InZRange(zPos) ==> position.z == zPos
      ensures !InZRange(zPos) ==> position == old(position)
      ensures old(Valid()) ==> Valid()
    {
      if zPos != position.z {
        if zPos >= DefaultZPos && zPos < DefaultZPos / 2.0 {
          position := position.(z := zPos);
        }
      }
    }

    method SetNumCubes(n: int)
      requires Valid()
      requires n != 0
      modifies this`numCubes, this`cubeSize
      ensures Valid()
      ensures numCubes == n && cubeSize == 1.0 / n as real
    {
      numCubes := n;
      cubeSize := 1.0 / n as real;
    }

    /** The zoom block at the top of paintGL: one tick of the smooth zoom. */
    method UpdateZoom()
      requires Valid()
      modifies this`position, this`zoomingIn, this`zoomingOut, this`zoomAmount
      ensures Valid()
      ensures ZoomView() == Zoom.Tick(old(ZoomView()))
      ensures position.x == old(position.x) && position.y == old(position.y)
    {
      if zoomingIn {
        zoomAmount := zoomAmount - 1;
        SetZPosition(position.z + Zoom.Step);
        if zoomAmount <= 0 {
          zoomingIn := false;
        }
      } else if zoomingOut {
        zoomAmount := zoomAmount - 1;
        SetZPosition(position.z - Zoom.Step);
        if zoomAmount <= 0 {
          zoomingOut := false;
        }
      }
    }

    /** Visits every cell of the grid in (i, j, k) order, asking `draw` to draw
        the cube of the t-th cell at its position, and reports whether every
        draw succeeded. A failed draw does not stop the traversal.
        `draw(t, p)` stands for the t-th drawDisplayListCube call, at p. */
    method DrawScene(draw: (nat, Vec3) -> bool) returns (result: bool, visited: seq<Grid.Cell>)
      ensures visited == Grid.Cells(numCubes)
      ensures result <==> Grid.AllDrawn(visited, draw, cubeSize)
    {
      result, visited := DrawBlock(draw, cubeSize, Grid.Lower(numCubes), Grid.Upper(numCubes));
    }

    /** paintGL without its GL calls: one zoom tick, then the scene is drawn
        with the updated state. */
    method PaintGL(draw: (nat, Vec3) -> bool) returns (visited: seq<Grid.Cell>)
      requires Valid()
      modifies this`position, this`zoomingIn, this`zoomingOut, this`zoomAmount
      ensures Valid()
      ensures ZoomView() == Zoom.Tick(old(ZoomView()))
      ensures position.x == old(position.x) && position.y == old(position.y)
      ensures visited == Grid.Cells(numCubes)
    {
      UpdateZoom();
      var _, cells := DrawScene(draw);
      visited := cells;
    }

    method MousePressEvent(x: int, y: int)
      modifies this`lastX, this`lastY
      ensures lastX == x && lastY == y
    {
      lastX, lastY := x, y;
    }

    /** Dragging with the left button rotates (vertical motion about x,
        horizontal about y); otherwise dragging with the right button pans
        (horizontal to x, vertical to -y); other buttons move nothing. The
        pointer position is always remembered. */
    method MouseMoveEvent(x: int, y: int, buttons: bv32)
      requires Valid()
      modifies this`rotation, this`position, this`lastX, this`lastY
      ensures Valid()
      ensures lastX == x && lastY == y
      ensures buttons & LeftButton != 0 ==>
        && Angles.IsNormalized(old(rotation.x) + Scaled(y - old(lastY), moveMouseFactor), rotation.x)
        && Angles.IsNormalized(old(rotation.y) + Scaled(x - old(lastX), moveMouseFactor), rotation.y)
        && rotation.z == old(rotation.z)
        && position == old(position)
      ensures buttons & LeftButton == 0 && buttons & RightButton != 0 ==>
        && position == old(position).(x := old(position.x) + Scaled(x - old(lastX), rotateMouseFactor),
                                      y := old(position.y) + Scaled(-(y - old(lastY)), rotateMouseFactor))
        && rotation == old(rotation)
      ensures buttons & LeftButton == 0 && buttons & RightButton == 0 ==>
        position == old(position) && rotation == old(rotation)
    {
      var dx := x - lastX;
      var dy := y - lastY;
      if buttons & LeftButton != 0 {
        SetXRotation(rotation.x + Scaled(dy, moveMouseFactor));
        SetYRotation(rotation.y + Scaled(dx, moveMouseFactor));
      } else if buttons & RightButton != 0 {
        SetXPosition(position.x + Scaled(dx, rotateMouseFactor));
        SetYPosition(position.y + Scaled(-dy, rotateMouseFactor));
      }
      lastX, lastY := x, y;
    }

    /** wheelEvent: converts the wheel delta to steps and starts a smooth zoom
        of SmoothFactor ticks per step, in when the steps are positive and out
        otherwise. The opposite flag is left as it was. */
    method WheelEvent(delta: int)
      requires Valid()
      modifies this`zoomingIn, this`zoomingOut, this`zoomAmount
      ensures Valid()
      ensures ZoomView() == Zoom.Wheel(old(ZoomView()), Zoom.WheelSteps(delta, delta2Degrees, degrees2Steps))
    {
      var numDegrees := TruncateToInt(delta as real * delta2Degrees);
      var numSteps := TruncateToInt(numDegrees as real * degrees2Steps);
      assert numSteps == Zoom.WheelSteps(delta, delta2Degrees, degrees2Steps);
      if numSteps > 0 {
        zoomingIn := true;
      } else {
        zoomingOut := true;
      }
      zoomAmount := Abs(numSteps * Zoom.SmoothFactor);
    }
  }

  /** The outer loop of drawScene: the planes i = lo, ..., hi, each index
      running over [lo, hi], drawn with cube size `size`. */
  method DrawBlock(draw: (nat, Vec3) -> bool, size: real, lo: int, hi: int)
    returns (result: bool, visited: seq<Grid.Cell>)
    ensures visited == Grid.BlockCells(lo, hi, hi + 1)
    ensures result <==> Grid.AllDrawn(visited, draw, size)
  {
    result := true;
    visited := [];
    var i := lo;
    while i <= hi
      invariant lo <= i && (i <= hi + 1 || i == lo)
      invariant visited == Grid.BlockCells(lo, hi, i)
      invariant result <==> Grid.AllDrawn(visited, draw, size)
    {
      ghost var block := visited;
      result, visited := DrawPlane(draw, size, i, lo, hi, result, visited);
      Grid.BlockStep(visited, block, lo, hi, i);
      i := i + 1;
    }
  }

  /** The middle loop of drawScene: the rows j = lo, ..., hi of plane i, drawn
      after the `visited0` cells with cube size `size`. */
  method DrawPlane(draw: (nat, Vec3) -> bool, size: real, i: int, lo: int, hi: int,
                   result0: bool, visited0: seq<Grid.Cell>)
    returns (result: bool, visited: seq<Grid.Cell>)
    requires lo <= hi + 1
    requires result0 <==> Grid.AllDrawn(visited0, draw, size)
    ensures visited == visited0 + Grid.PlaneCells(i, lo, hi, hi + 1)
    ensures result <==> Grid.AllDrawn(visited, draw, size)
  {
    result, visited := result0, visited0;
    var j := lo;
    while j <= hi
      invariant lo <= j <= hi + 1
      invariant visited == visited0 + Grid.PlaneCells(i, lo, hi, j)
      invariant result <==> Grid.AllDrawn(visited, draw, size)
    {
      result, visited := DrawRow(draw, size, i, j, lo, hi, result, visited);
      Grid.PlaneStep(visited, visited0, i, lo, hi, j);
      j := j + 1;
    }
  }

  /** The innermost loop of drawScene: the cubes (i, j, lo) to (i, j, hi), drawn
      after the `visited0` cells with cube size `size`, with the result
      accumulated by `&=`. */
  method DrawRow(draw: (nat, Vec3) -> bool, size: real, i: int, j: int, lo: int, hi: int,
                 result0: bool, visited0: seq<Grid.Cell>)
    returns (result: bool, visited: seq<Grid.Cell>)
    requires lo <= hi + 1
    requires result0 <==> Grid.AllDrawn(visited0, draw, size)
    ensures visited == visited0 + Grid.RowCells(i, j, lo, hi + 1)
    ensures result <==> Grid.AllDrawn(visited, draw, size)
  {
    result, visited := result0, visited0;
    var k := lo;
    while k <= hi
      invariant lo <= k <= hi + 1
      invariant visited == visited0 + Grid.RowCells(i, j, lo, k)
      invariant result <==> Grid.AllDrawn(visited, draw, size)
    {
      var ok := draw(|visited|, Grid.Position(Grid.Cell(i, j, k), size));
      Grid.RowStep(visited, visited0, i, j, lo, k, draw, size);
      result := result && ok;
      visited := visited + [Grid.Cell(i, j, k)];
      k := k + 1;
    }
  }
}
