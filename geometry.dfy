/** The playfield and the strict axis-aligned bounding-box test of the client. */
module Geometry {

  const CanvasWidth: real := 800.0
  const CanvasHeight: real := 600.0

  datatype Rect = Rect(x: real, y: real, width: real, height: real)

  /** The canvas, as a rectangle. */
  const Playfield: Rect := Rect(0.0, 0.0, CanvasWidth, CanvasHeight)

  /** A point strictly inside a rectangle (its edge excluded). */
  ghost predicate Interior(px: real, py: real, r: Rect) {
    r.x < px < r.x + r.width && r.y < py < r.y + r.height
  }

  /** `inner` lies in `outer`, edges included. */
  ghost predicate Within(inner: Rect, outer: Rect) {
    && outer.x <= inner.x && inner.x + inner.width <= outer.x + outer.width
    && outer.y <= inner.y && inner.y + inner.height <= outer.y + outer.height
  }

  /** `checkCollision`: strict overlap on both axes, so rectangles that only
      share an edge do not collide. */
  function CheckCollision(a: Rect, b: Rect): (hit: bool)
    ensures a.x + a.width == b.x || b.x + b.width == a.x ==> !hit
    ensures a.y + a.height == b.y || b.y + b.height == a.y ==> !hit
  {
    && a.x < b.x + b.width
    && a.x + a.width > b.x
    && a.y < b.y + b.height
    && a.y + a.height > b.y
  }

  function Max(a: real, b: real): real { if a < b then b else a }
  function Min(a: real, b: real): real { if a < b then a else b }

  /** For rectangles of positive size the test holds exactly when some point lies
      strictly inside both of them; in particular it is symmetric. */
  lemma CollisionIsCommonInterior(a: Rect, b: Rect)
    requires a.width > 0.0 && a.height > 0.0 && b.width > 0.0 && b.height > 0.0
    ensures CheckCollision(a, b) <==> exists px, py :: Interior(px, py, a) && Interior(px, py, b)
    ensures CheckCollision(a, b) == CheckCollision(b, a)
  {
    if CheckCollision(a, b) {
      var px := (Max(a.x, b.x) + Min(a.x + a.width, b.x + b.width)) / 2.0;
      var py := (Max(a.y, b.y) + Min(a.y + a.height, b.y + b.height)) / 2.0;
      assert Interior(px, py, a) && Interior(px, py, b);
    }
  }
}
