/**
 * The Spray tool: per mouse-move it draws `sprayDensity` random offsets
 * (dx, dy), each coordinate in [-brushSize, brushSize], and paints a 1x1
 * dot at pointer + (dx, dy) only when the offset lies in the disc of
 * radius brushSize (rejection sampling). The random generator is not
 * modelled: the offsets it produced are an input.
 */
module SprayPaint {
  import opened Canvas

  datatype Offset = Offset(dx: int, dy: int)

  /** The rejection test of the spray loop. */
  predicate InDisc(o: Offset, radius: int)
  {
    o.dx * o.dx + o.dy * o.dy <= radius * radius
  }

  /** The dot the spray paints for offset `o` around `at`. */
  function Dot(at: Point, o: Offset, color: Color): Command
  {
    FillEllipse(color, Rect(at.x + o.dx, at.y + o.dy, 1, 1))
  }

  /** A 1x1 dot of `color` whose corner lies within distance `radius` of `at`. */
  predicate DotWithin(c: Command, at: Point, radius: int, color: Color)
  {
    && c.FillEllipse? && c.color == color && c.box.w == 1 && c.box.h == 1
    && -radius <= c.box.x - at.x <= radius && -radius <= c.box.y - at.y <= radius
    && (c.box.x - at.x) * (c.box.x - at.x) + (c.box.y - at.y) * (c.box.y - at.y) <= radius * radius
  }

  /** The number of sampled offsets that pass the rejection test. */
  function Hits(samples: seq<Offset>, radius: int): (n: nat)
    ensures n <= |samples|
  {
    if samples == [] then 0
    else Hits(samples[..|samples| - 1], radius) + (if InDisc(samples[|samples| - 1], radius) then 1 else 0)
  }

  /**
   * The dots one spray event paints for the given samples, in loop
   * order: one per sample in the disc, none for the others.
   */
  function Dots(at: Point, samples: seq<Offset>, radius: int, color: Color): (r: seq<Command>)
    requires radius >= 0
    ensures |r| == Hits(samples, radius) <= |samples|
    ensures forall k :: 0 <= k < |r| ==> DotWithin(r[k], at, radius, color)
  {
    if samples == [] then []
    else
      var last := samples[|samples| - 1];
      var prev := Dots(at, samples[..|samples| - 1], radius, color);
      if InDisc(last, radius) then
        DiscBounds(last.dx, last.dy, radius);
        prev + [Dot(at, last, color)]
      else prev
  }

  /** A point of the disc lies in its bounding square. */
  lemma DiscBounds(dx: int, dy: int, radius: int)
    requires radius >= 0
    requires dx * dx + dy * dy <= radius * radius
    ensures -radius <= dx <= radius && -radius <= dy <= radius
  {
    SquareBounds(dx, dy, radius);
    SquareBounds(dy, dx, radius);
  }

  lemma SquareBounds(a: int, b: int, radius: int)
    requires radius >= 0 && a * a + b * b <= radius * radius
    ensures -radius <= a <= radius
  {
    assert b * b >= 0;
    SquareGrows(a, radius);
    SquareGrows(-a, radius);
    assert (-a) * (-a) == a * a;
  }

  lemma SquareGrows(a: int, r: int)
    requires 0 <= r
    ensures a > r ==> a * a > r * r
  {
    if a > r {
      assert a * a - r * r == (a - r) * (a + r);
    }
  }

  /** Every sample in the disc gets its dot: the count is exact, not just bounded. */
  lemma {:induction false} EveryHitPainted(at: Point, samples: seq<Offset>, radius: int, color: Color)
    requires radius >= 0
    requires forall k :: 0 <= k < |samples| ==> InDisc(samples[k], radius)
    ensures Dots(at, samples, radius, color) == seq(|samples|, k requires 0 <= k < |samples| => Dot(at, samples[k], color))
  {
    if samples != [] {
      EveryHitPainted(at, samples[..|samples| - 1], radius, color);
    }
  }
}
