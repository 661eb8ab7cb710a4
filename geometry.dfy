/**
 * Ripple geometry: where the ripple's centre goes inside the host and how
 * large the circle must be to reach the host's farthest corner.
 * Coordinates are viewport pixels, as `getBoundingClientRect` and
 * `clientX`/`clientY` give them.
 */
module Geometry {

  /** The part of the host's bounding rectangle the ripple reads. */
  datatype Box = Box(top: real, left: real, width: real, height: real)

  /** The pointer position of the triggering event. */
  datatype MinimalEvent = MinimalEvent(clientX: real, clientY: real)

  /** A point in viewport coordinates. */
  datatype Point = Point(x: real, y: real)

  /** Where the ripple's centre sits, relative to the host's top-left corner. */
  datatype Offset = Offset(top: real, left: real)

  /**
   * The two legs whose hypotenuse is the ripple's radius: the pointer's
   * vertical distance to the farther horizontal edge and its horizontal
   * distance to the farther vertical edge.
   */
  datatype Reach = Reach(vertical: real, horizontal: real)

  function Max(a: real, b: real): real {
    if a >= b then a else b
  }

  /**
   * The ripple's offset inside the host (`top`, `left`): added back to the
   * host's own position it lands exactly on the pointer.
   */
  function PointerOffset(e: MinimalEvent, box: Box): (o: Offset)
    ensures box.top + o.top == e.clientY
    ensures box.left + o.left == e.clientX
  {
    Offset(e.clientY - box.top, e.clientX - box.left)
  }

  /** The legs of the ripple's radius (`maxHeight`, `maxWidth`). */
  function RippleReach(e: MinimalEvent, box: Box): (r: Reach)
    ensures box.height >= 0.0 ==> r.vertical >= box.height / 2.0
    ensures box.width >= 0.0 ==> r.horizontal >= box.width / 2.0
  {
    Reach(Max(e.clientY - box.top, box.height - e.clientY + box.top),
          Max(e.clientX - box.left, box.width - e.clientX + box.left))
  }

  /** (diameter / 2)², for a diameter of 2 × hypot(vertical, horizontal). */
  function RadiusSquared(r: Reach): real {
    r.vertical * r.vertical + r.horizontal * r.horizontal
  }

  predicate IsCorner(box: Box, p: Point) {
    && (p.x == box.left || p.x == box.left + box.width)
    && (p.y == box.top || p.y == box.top + box.height)
  }

  function DistanceSquared(e: MinimalEvent, p: Point): real {
    (p.x - e.clientX) * (p.x - e.clientX) + (p.y - e.clientY) * (p.y - e.clientY)
  }

  lemma SquareBound(d: real, m: real)
    requires -m <= d <= m
    ensures d * d <= m * m
  {
    if d >= 0.0 {
      assert d * d <= d * m;
    } else {
      assert d * d <= (-d) * m;
    }
  }

  /** For any box of non-negative size, the ripple at full scale covers every corner. */
  lemma CoversCorners(e: MinimalEvent, box: Box)
    requires box.width >= 0.0 && box.height >= 0.0
    ensures forall p | IsCorner(box, p) :: DistanceSquared(e, p) <= RadiusSquared(RippleReach(e, box))
  {
    var r := RippleReach(e, box);
    forall p | IsCorner(box, p)
      ensures DistanceSquared(e, p) <= RadiusSquared(r)
    {
      SquareBound(p.x - e.clientX, r.horizontal);
      SquareBound(p.y - e.clientY, r.vertical);
    }
  }

  /**
   * The corner farthest from the pointer: the ripple's radius reaches it
   * exactly, so no smaller circle centred on the pointer covers the box.
   */
  function FarthestCorner(e: MinimalEvent, box: Box): (p: Point)
    ensures IsCorner(box, p)
    ensures DistanceSquared(e, p) == RadiusSquared(RippleReach(e, box))
  {
    var x := if e.clientX - box.left >= box.width - e.clientX + box.left then box.left else box.left + box.width;
    var y := if e.clientY - box.top >= box.height - e.clientY + box.top then box.top else box.top + box.height;
    assert (x - e.clientX) * (x - e.clientX) == RippleReach(e, box).horizontal * RippleReach(e, box).horizontal;
    assert (y - e.clientY) * (y - e.clientY) == RippleReach(e, box).vertical * RippleReach(e, box).vertical;
    Point(x, y)
  }
}
