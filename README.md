# QtGLTest camera and scene model

A Dafny model of `GLWidget`, the render surface of a small Qt demo. The demo
draws a grid of coloured cubes and lets the user rotate and pan the camera by
dragging, and zoom with the wheel. The model keeps the widget's camera and
scene state and drops the OpenGL and Qt calls that surround it:

- the rotation and position setters, including the depth range check in
  `setZPosition` (depths in [-10, -5) are accepted, anything else is refused);
- `normalizeAngle`, the two loops that bring a rotation into [0, 360 * 16];
- the smooth zoom: `wheelEvent` sets a direction flag and a tick count, and the
  top of `paintGL` spends one tick per repaint;
- the mouse handlers, which turn pointer motion into rotation or panning;
- `setNumCubes` and the triple loop of `drawScene`, which visits every grid
  cell and ANDs together the result of each cube's draw call;
- the integer arithmetic of `updateViewport`, which picks the centred square.

## Layout

- `carith.dfy` (module `CArith`): the C++ arithmetic the widget relies on,
  written out: int division truncating toward zero, double-to-int truncation,
  `abs`, `qMin`.
- `defaults.dfy` (module `Defaults`): the camera constants of
  `src/controls/glwidget.h` and the vector type `Vec3`.
- `angles.dfy` (module `Angles`): `normalizeAngle` as a method with its two
  loops, and what its result is.
- `viewport.dfy` (module `Viewport`): the square viewport as a pure function.
- `grid.dfy` (module `Grid`): the cells `drawScene` visits, in visiting order,
  with their count, their extent and their order.
- `zoom.dfy` (module `Zoom`): the zoom state machine as functions, with lemmas
  about many ticks in a row.
- `glwidget.dfy` (module `Widget`): class `GLWidget`. Its fields are updated
  in place by the setters and event handlers. `Valid()` is the invariant they
  keep. `ZoomView()` is the part of the state the zoom functions describe.

## Design decisions

- Doubles and floats are exact `real`s. `mZoomAmount` is a `float` in the
  source, but it only ever holds whole numbers (0, `|numSteps * 10|`, then
  decrements of 1), so it is an `int` here.
- `MOVE_MOUSE_FACTOR`, `ROTATE_MOUSE_FACTOR`, `DELTA_2_DEGREES` and
  `DEGREES_2_STEPS` are used in `src/controls/glwidget.cpp` but are not defined
  in the files modelled. They are constructor parameters stored as `const`
  fields. As in the code, `MOVE_MOUSE_FACTOR` scales the left-button
  rotation and `ROTATE_MOUSE_FACTOR` scales the right-button panning. Both wheel conversions store into an `int`, and the model
  truncates toward zero at both points.
- `mZoomSmoothFactor` is set to 10.0 in the constructor and never changed.
  Its declaration is not in the header modelled. It is the constant
  `Zoom.SmoothFactor`.
- A mouse event is its position as two ints plus its button mask as a `bv32`.
  The mask uses Qt's bit values: `LeftButton = 0x1`, `RightButton = 0x2`.
- `drawDisplayListCube` is an oracle `draw: (nat, Vec3) -> bool`. `draw(t, p)`
  is the success of the t-th call, which draws at position `p`. Indexing
  by call number allows the GL error state to differ from call to call.
  `DrawScene` returns `visited`, the trace of cells drawn in order, as well as
  the ANDed result.
- Each loop of `drawScene` is a helper method of its own: `Widget.DrawBlock`
  (over i), `Widget.DrawPlane` (over j) and `Widget.DrawRow` (over k).
  `DrawScene` calls `DrawBlock` with the bounds `-mNumCubes/2` and
  `mNumCubes/2` and the cube size. The loops keep the same nesting, the same
  order and the same `&=`.
- `Zoom.Step` is the depth step `1.0 / mZoomSmoothFactor`, written as the
  literal 0.1 that this evaluates to. `Zoom.StepIsReciprocal` ties the two.
- The frame of each method names the fields it may change (``modifies
  this`rotation``), so "no other field changes" is part of each contract.

## Behaviour worth knowing

- `normalizeAngle`'s second loop runs while the angle is `> 360 * 16`, so
  results lie in [0, 5760], ends included, and differ from the input by a
  multiple of 360 (`Angles.NormalizeAngle`).
- `wheelEvent` sets one zoom flag and never clears the other, so both flags
  can be set. Zoom-in then runs first, and zoom-out runs after it with what is
  left of the count. `Zoom.Settles` gives the exact number of ticks in every
  case. From rest, a forward wheel turn never zooms out (`Zoom.WheelZoomsIn`).
- The loops run from `-N/2` to `N/2` in C++ division, so the grid has
  (2·(N/2)+1)^3 cells (`Grid.CellCount`): one cell for N = -1, none for N < -1.
- `result &=` makes every draw call, so every cell is drawn whatever the
  earlier results were (`Widget.GLWidget.DrawScene`).

## Model

| member | source | states |
|---|---|---|
| CArith.CDiv2 | src/controls/glwidget.cpp:177 | C++ `n / 2` truncates toward zero: for n ≥ 0 it gives 0 ≤ 2r ≤ n < 2r+2; for n < 0 it gives 2r−2 < n ≤ 2r ≤ 0 |
| CArith.TruncateToInt | src/controls/glwidget.cpp:379-380 | Storing a double into an int drops the fraction toward zero: the result has the input's sign and lies within 1 of it, on the zero side |
| CArith.Abs | src/controls/glwidget.cpp:388 | `abs(n)` is non-negative and is n or −n |
| CArith.Min | src/controls/glwidget.cpp:48 | `qMin(a, b)` is at most both arguments and equals one of them |
| Angles.NormalizeAngle | src/controls/glwidget.cpp:391-397 | The loops terminate. The result is in [0, 5760], ends included, and differs from the input by a whole number of turns of 360. Inputs already in [0, 5760] come back unchanged. Negative inputs land in [0, 360) and inputs above 5760 land in (5400, 5760] |
| Angles.NormalizedUnique | src/controls/glwidget.cpp:391-397 | These properties leave exactly one possible result, so NormalizeAngle's contract fixes its output |
| Viewport.SquareViewport | src/controls/glwidget.cpp:46-49 | The square's side is min(w, h) and it fits in the window. Both offsets are ≥ 0 and at least one is 0. The square is centred: the far margin equals the near one or is one pixel more. 800×600 gives (100, 0, 600, 600) |
| Grid.CellCount | src/controls/glwidget.cpp:177-181 | `drawScene` visits (2·(N/2)+1)^3 cells for N ≥ 0, for example 1331 for N = 10 and 1 for N = 1. It visits 1 cell for N = −1 and none for N < −1 |
| Grid.CellsAreTheCube | src/controls/glwidget.cpp:177-181 | A cell is visited exactly when each index lies in [−N/2, N/2] (C++ division). The lower bound is the negated upper bound, and for N ≥ 0 the upper bound is N/2 |
| Grid.CellsLexOrder | src/controls/glwidget.cpp:177-186 | Cells are visited in strictly increasing (i, j, k) lexicographic order, k innermost, so no cell is visited twice |
| Grid.CellsWithinUnitCube | src/controls/glwidget.cpp:122-126 | With cube size 1/N (N > 0), every cube's centre (i·size, j·size, k·size) lies in [−1/2, 1/2]^3 |
| Grid.AllDrawnMeaning | src/controls/glwidget.cpp:175-188 | The `result &=` accumulation is true exactly when every draw call in the trace succeeded |
| Grid.AllDrawnAppend | src/controls/glwidget.cpp:183 | Each `&=` step: the result after one more call is the old result AND that call's result |
| Zoom.SetZ | src/controls/glwidget.cpp:93-103 | The proposed depth is taken exactly when it lies in [−10, −5) or equals the current depth. Otherwise the current depth stays. A depth in range stays in range |
| Zoom.Tick | src/controls/glwidget.cpp:136-152 | A tick does nothing when no flag is set. An active tick takes exactly 1 off the count. Zoom-in has precedence over zoom-out, and the other flag is untouched. The active flag clears when the count reaches ≤ 0. The depth moves by exactly 0.1 in the zoom direction when the new depth is in [−10, −5), and otherwise stays where it was. Depth range and count bound are preserved |
| Zoom.Wheel | src/controls/glwidget.cpp:382-388 | Positive steps set zoom-in; zero or negative steps set zoom-out. The opposite flag is left as it was. The count becomes 10·|steps|, and the depth is unchanged |
| Zoom.WheelSteps | src/controls/glwidget.cpp:379-380 | The two truncating conversions from wheel delta to steps. With non-negative factors, positive steps come only from a positive delta and negative steps only from a negative one |
| Zoom.ZoomInPhase | src/controls/glwidget.cpp:137-144 | From count A, zoom-in stays set for exactly max(A, 1) ticks. Each tick takes 1 off the count and leaves zoom-out alone. After n ticks the depth has risen by between 0 and 0.1·n |
| Zoom.ZoomOutPhase | src/controls/glwidget.cpp:145-152 | With zoom-in clear, zoom-out from count A stays set for exactly max(A, 1) ticks, one off the count per tick. After n ticks the depth has fallen by between 0 and 0.1·n |
| Zoom.Settles | src/controls/glwidget.cpp:136-152 | Both flags are clear after n ticks exactly when n ≥ SettleTime(s). From a single flag that is max(A, 1) ticks, and one more when both flags are set |
| Zoom.WheelZoomsIn | src/controls/glwidget.cpp:382-388 | From rest, a wheel turn of k > 0 steps zooms in for exactly 10·k repaints and never zooms out |
| Zoom.WheelZoomsOut | src/controls/glwidget.cpp:382-388 | From rest, a wheel turn of k ≤ 0 steps zooms out for exactly max(10·|k|, 1) repaints and never zooms in |
| Widget.GLWidget.constructor | src/controls/glwidget.cpp:7-38 | Start state: position (0, 0, −10), rotation (0, 0, 0), no zoom and a count of 0. No cubes and a cube size of 0. Last pointer position (0, 0). The invariant holds |
| Widget.GLWidget.SetXRotation | src/controls/glwidget.cpp:59-66 | The x rotation becomes the normalised angle; the y and z rotations and all other fields are unchanged |
| Widget.GLWidget.SetYRotation | src/controls/glwidget.cpp:68-75 | The y rotation becomes the normalised angle; the x and z rotations and all other fields are unchanged |
| Widget.GLWidget.SetXPosition | src/controls/glwidget.cpp:77-83 | The x position always becomes the argument; nothing else changes |
| Widget.GLWidget.SetYPosition | src/controls/glwidget.cpp:85-91 | The y position always becomes the argument; nothing else changes |
| Widget.GLWidget.SetZPosition | src/controls/glwidget.cpp:93-103 | The depth becomes zPos exactly when zPos is in [−10, −5). Any other value leaves the state unchanged, and the invariant is kept |
| Widget.GLWidget.SetNumCubes | src/controls/glwidget.cpp:122-126 | Sets the count to n and the cube size to 1/n; only those two fields change |
| Widget.GLWidget.UpdateZoom | src/controls/glwidget.cpp:136-152 | The zoom fields and depth advance by exactly one `Zoom.Tick`. The x and y positions are unchanged, and the invariant (depth in [−10, −5), count bound) is kept |
| Widget.GLWidget.DrawScene | src/controls/glwidget.cpp:173-189 | Visits exactly `Grid.Cells(numCubes)` in order, drawing the t-th cell at (i·size, j·size, k·size). Returns true exactly when every draw call succeeded. Changes no state |
| Widget.DrawBlock | src/controls/glwidget.cpp:177-186 | The outer loop visits exactly the planes i = lo..hi, in order, each with every row j = lo..hi. The result is true exactly when every draw call succeeded |
| Widget.DrawPlane | src/controls/glwidget.cpp:179-185 | The middle loop appends the rows j = lo..hi of plane i to the trace, each row in full, and ANDs each call's result into the accumulated one |
| Widget.DrawRow | src/controls/glwidget.cpp:181-184 | The innermost loop appends the row (i, j, lo..hi) to the trace and ANDs each call's result into the accumulated one |
| Widget.GLWidget.PaintGL | src/controls/glwidget.cpp:134-171 | One zoom tick, then the whole grid is drawn with the updated state |
| Widget.GLWidget.MousePressEvent | src/controls/glwidget.cpp:350-353 | Remembers the pointer position; nothing else changes |
| Widget.GLWidget.MouseMoveEvent | src/controls/glwidget.cpp:355-372 | dx and dy are measured from the last position. A left-button drag takes precedence: it sets the x rotation to normalise(x rotation + dy·factor) and the y rotation to normalise(y rotation + dx·factor). Otherwise a right-button drag pans: x gains dx·factor and y gains −dy·factor. Other buttons change nothing. The pointer position is always remembered |
| Widget.GLWidget.WheelEvent | src/controls/glwidget.cpp:374-389 | The zoom fields become `Zoom.Wheel` of the old ones, for the steps computed by `Zoom.WheelSteps`, and the invariant is kept |

## Left out

- OpenGL calls are foreign calls and are not modelled. This covers
  `glViewport`, `glFrustum`, the matrix stack, `glTranslated`/`glRotated` in
  `paintGL`, lighting, polygon mode, `glGetError`, and display-list creation,
  calling and deletion (including the destructor). The only trace of them is
  the draw oracle.
- `initializeGL`, `createCubeDisplayList` and `drawCube` are fixed sequences
  of GL calls with no logic of their own.
- `resizeGL` only forwards to `updateViewport`; the frustum bounds
  (`DEFAULT_LEFT` … `DEFAULT_FAR`) only feed `glFrustum`. The clear colour,
  light position, rendering mode and projection type are never read by the
  logic modelled.
- `forceDraw`/`updateGL`, the Qt signals, and the window code in
  `src/forms/formmain.cpp` (timers, FPS label, slider forwarding to
  `setNumCubes`) are event plumbing.
- IEEE floating point is not modelled. The `QVector3D` components are floats,
  `mCubeSize` is a float, and the repeated ±0.1 depth steps round in the
  source; here every value is an exact real. So `Angles.NormalizeAngle`'s
  loops always terminate here, while in `double` arithmetic adding or
  subtracting 360 no longer changes a value of magnitude 2^62 or more, and
  those inputs and ±infinity loop forever. A NaN fails both loop tests and
  comes back unchanged, outside [0, 5760].
- 32-bit int overflow is not modelled (pointer deltas, `numSteps * 10`, the
  loop counters); every int is unbounded.
- Widget.GLWidget.SetNumCubes: requires n ≠ 0. The source computes
  `1.0f / (float)0`, which gives infinity, and the model's reals have no
  infinity.
