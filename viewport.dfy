/** The integer part of updateViewport: the largest centred square that fits
    the window. */
module Viewport {
  import opened CArith

  /** The raster region handed to glViewport: origin and size. */
  datatype Rect = Rect(x: int, y: int, width: int, height: int)

  function SquareViewport(width: int, height: int): (r: Rect)
    ensures r.width == r.height
    ensures r.width <= width && r.width <= height
    ensures r.width == width || r.width == height
    ensures r.x >= 0 && r.y >= 0
    ensures r.x == 0 || r.y == 0
    ensures r.x + r.width <= width && r.y + r.height <= height
    // centred: the margin after the square is the one before it, or one pixel more
    ensures 0 <= width - (r.x + r.width) - r.x <= 1
    ensures 0 <= height - (r.y + r.height) - r.y <= 1
  {
    var side := Min(width, height);
    Rect(CDiv2(width - side), CDiv2(height - side), side, side)
  }

  lemma SquareViewportExample()
    ensures SquareViewport(800, 600) == Rect(100, 0, 600, 600)
    ensures SquareViewport(600, 800) == Rect(0, 100, 600, 600)
    ensures SquareViewport(801, 600) == Rect(100, 0, 600, 600)
  {
  }
}
