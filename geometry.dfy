/** Screen- and map-space points and the optional values the viewport uses. */
module Geometry {

  /** An optional value: a drag anchor that may be absent, or a container
      rectangle that may not be measurable yet. */
  datatype Option<+T> = None | Some(value: T)

  /** A 2D point or vector, in pixels. */
  datatype Point = Point(x: real, y: real) {

    function Plus(q: Point): Point {
      Point(x + q.x, y + q.y)
    }

    function Minus(q: Point): Point {
      Point(x - q.x, y - q.y)
    }

    function Times(k: real): Point {
      Point(x * k, y * k)
    }

    function Over(k: real): Point
      requires k != 0.0
    {
      Point(x / k, y / k)
    }
  }

  const Origin: Point := Point(0.0, 0.0)

  /** Dividing by k and multiplying back by k is the identity. */
  lemma OverTimes(p: Point, k: real)
    requires k != 0.0
    ensures p.Over(k).Times(k) == p
  {
    assert p.x / k * k == p.x;
    assert p.y / k * k == p.y;
  }

  /** Multiplying by k and dividing back by k is the identity. */
  lemma TimesOver(p: Point, k: real)
    requires k != 0.0
    ensures p.Times(k).Over(k) == p
  {
    assert p.x * k / k == p.x;
    assert p.y * k / k == p.y;
  }
}
