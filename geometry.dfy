/**
 Value types shared by the overlay and the activity: the integer rectangle
 of `android.graphics.Rect`, the floating-point rectangle of
 `android.graphics.RectF` (with `float` modelled as `real`), `Math.ceil`,
 `Math.max`, and the part of `android.graphics.Matrix` the overlay uses
 (scale and translate, composed on the left by the `post*` operations).
 */
module Geometry {

  /** `android.graphics.Rect`: integer edges. */
  datatype Rect = Rect(left: int, top: int, right: int, bottom: int) {
    /** `Rect.width()`: no check that `left <= right`. */
    function Width(): int { right - left }
    /** `Rect.height()`: no check that `top <= bottom`. */
    function Height(): int { bottom - top }
  }

  /** `android.graphics.RectF`: real-valued edges, filled field by field. */
  datatype RectF = RectF(left: real, top: real, right: real, bottom: real)

  /** `Math.ceil`, written through the floor of the negation. */
  function Ceil(x: real): (r: int)
    ensures x <= r as real < x + 1.0
  {
    -((-x).Floor)
  }

  /** `Math.max` on two floats (no NaN). */
  function Max(a: real, b: real): (r: real)
    ensures r >= a && r >= b
    ensures r == a || r == b
  {
    if a >= b then a else b
  }

  /**
   An `android.graphics.Matrix` restricted to scale and translate, which is
   all the overlay ever builds: x maps to `scaleX * x + transX`, y to
   `scaleY * y + transY`.
   */
  datatype Matrix = Matrix(scaleX: real, scaleY: real, transX: real, transY: real) {

    function MapX(x: real): real { scaleX * x + transX }

    function MapY(y: real): real { scaleY * y + transY }

    /** `postTranslate(dx, dy)`: translate after this matrix. */
    function PostTranslate(dx: real, dy: real): (m: Matrix)
      ensures forall x :: m.MapX(x) == MapX(x) + dx
      ensures forall y :: m.MapY(y) == MapY(y) + dy
    {
      Matrix(scaleX, scaleY, transX + dx, transY + dy)
    }

    /** `postScale(sx, sy, px, py)`: scale about the pivot `(px, py)` after this matrix. */
    function PostScale(sx: real, sy: real, px: real, py: real): (m: Matrix)
      ensures forall x :: m.MapX(x) == px + sx * (MapX(x) - px)
      ensures forall y :: m.MapY(y) == py + sy * (MapY(y) - py)
    {
      Matrix(sx * scaleX, sy * scaleY, sx * (transX - px) + px, sy * (transY - py) + py)
    }
  }

  /** `Matrix.reset()`. */
  const Identity: Matrix := Matrix(1.0, 1.0, 0.0, 0.0)

  /** `Matrix.setScale(sx, sy)`: the matrix is replaced by a pure scale. */
  function ScaleMatrix(sx: real, sy: real): (m: Matrix)
    ensures forall x :: m.MapX(x) == sx * x
    ensures forall y :: m.MapY(y) == sy * y
  {
    Matrix(sx, sy, 0.0, 0.0)
  }

  // ---------------------------------------------------------------------
  // Small facts of real arithmetic, each stated on its own variables so that
  // callers can instantiate products the solver would not relate by itself.
  // ---------------------------------------------------------------------

  /** Multiplying by a positive factor keeps `<=` and `<`. */
  lemma {:induction false} MulMonotone(a: real, b: real, c: real)
    requires c > 0.0
    ensures a <= b ==> a * c <= b * c
    ensures a < b ==> a * c < b * c
  {
  }

  /** Equal factors give equal products. */
  lemma {:induction false} MulEqual(a: real, b: real, c: real)
    requires a == b
    ensures a * c == b * c
  {
  }

  /** Multiplication distributes over a difference. */
  lemma {:induction false} MulSubDistrib(a: real, b: real, c: real)
    ensures (a - b) * c == a * c - b * c
  {
  }

  /** Dividing and then multiplying by the same non-zero number gives the number back. */
  lemma {:induction false} DivMulCancel(a: real, b: real)
    requires b != 0.0
    ensures a / b * b == a
  {
  }

  /**
   Flipping horizontally about the vertical line `x == c` sends every point
   to its mirror image: the flipped and the unflipped images of a point sum to `2c`.
   */
  lemma {:induction false} MirrorAboutCentre(m: Matrix, c: real, py: real, x: real, y: real)
    ensures m.PostScale(-1.0, 1.0, c, py).MapX(x) + m.MapX(x) == 2.0 * c
    ensures m.PostScale(-1.0, 1.0, c, py).MapY(y) == m.MapY(y)
  {
  }
}
