/**
 * Geometry of the four shapes MiniPaint can place (DrawEllipsePreview,
 * DrawCirclePreview, DrawSquarePreview, DrawTrianglePreview). All of it is
 * C# integer arithmetic on the anchor point and the preview size.
 */
module Shapes {
  import opened Canvas

  datatype ShapeType = None | Ellipse | Circle | Square | Triangle

  /** C#'s `a / 2` on int: the quotient truncated toward zero. */
  function Half(a: int): (r: int)
    ensures a >= 0 ==> 0 <= a - 2 * r <= 1
    ensures a < 0 ==> -1 <= a - 2 * r <= 0
  {
    if a >= 0 then a / 2 else -((-a) / 2)
  }

  /** C#'s Math.Min on int. */
  function Min(a: int, b: int): (r: int)
    ensures r <= a && r <= b && (r == a || r == b)
  {
    if a <= b then a else b
  }

  /** Box of the ellipse: the full w-by-h preview size, centred on the anchor. */
  function EllipseBox(at: Point, w: int, h: int): Rect
  {
    Rect(at.x - Half(w), at.y - Half(h), w, h)
  }

  /** Box of the circle and the square: side min(w, h), centred on the anchor. */
  function SquareBox(at: Point, w: int, h: int): Rect
  {
    var size := Min(w, h);
    Rect(at.x - Half(size), at.y - Half(size), size, size)
  }

  /** Apex above the anchor, then the two base corners, left and right. */
  function TriangleVertices(at: Point, w: int, h: int): seq<Point>
  {
    var size := Min(w, h);
    [Point(at.x, at.y - Half(size)),
     Point(at.x - Half(size), at.y + Half(size)),
     Point(at.x + Half(size), at.y + Half(size))]
  }

  /**
   * The outline a Draw*Preview helper draws for `shape` at `at` with the
   * current colour and pen width; ShapeType.None has no case in the
   * source's switch and draws nothing.
   */
  function Outline(shape: ShapeType, at: Point, w: int, h: int, color: Color, width: int): seq<Command>
  {
    match shape
    case None => []
    case Ellipse => [StrokeEllipse(color, width, EllipseBox(at, w, h))]
    case Circle => [StrokeEllipse(color, width, SquareBox(at, w, h))]
    case Square => [StrokeRectangle(color, width, SquareBox(at, w, h))]
    case Triangle => [StrokePolygon(color, width, TriangleVertices(at, w, h))]
  }

  predicate Contains(box: Rect, p: Point)
  {
    box.x <= p.x <= box.x + box.w && box.y <= p.y <= box.y + box.h
  }

  /**
   * A box that is centred on `at` as nearly as integers allow: `at` is
   * at most half a pixel left of / above the true centre.
   */
  predicate CentredOn(box: Rect, at: Point)
  {
    && 0 <= box.w - 2 * (at.x - box.x) <= 1
    && 0 <= box.h - 2 * (at.y - box.y) <= 1
  }

  /** Every shape is placed around its anchor, with the documented size. */
  lemma ShapesCentredOnAnchor(at: Point, w: int, h: int)
    requires w >= 0 && h >= 0
    ensures CentredOn(EllipseBox(at, w, h), at)
    ensures EllipseBox(at, w, h).w == w && EllipseBox(at, w, h).h == h
    ensures CentredOn(SquareBox(at, w, h), at)
    ensures SquareBox(at, w, h).w == SquareBox(at, w, h).h == Min(w, h)
  {
  }

  /**
   * The triangle is isosceles with its apex up: the apex lies straight
   * above the anchor on the square box's top edge, the base is
   * horizontal, its corners mirror each other about the anchor, and all
   * three vertices lie in the circle/square box.
   */
  lemma {:induction false} TriangleInscribed(at: Point, w: int, h: int)
    requires w >= 0 && h >= 0
    ensures var v := TriangleVertices(at, w, h);
            var box := SquareBox(at, w, h);
            && |v| == 3
            && v[0].x == at.x && v[0].y == box.y
            && v[1].y == v[2].y && v[0].y <= at.y <= v[1].y
            && at.x - v[1].x == v[2].x - at.x >= 0
            && Contains(box, v[0]) && Contains(box, v[1]) && Contains(box, v[2])
  {
    var s := Min(w, h);
    assert 0 <= s - 2 * Half(s) <= 1;
  }

  /** Every shape but None yields exactly one outline, drawn with the given pen. */
  lemma OutlineIsOneStroke(shape: ShapeType, at: Point, w: int, h: int, color: Color, width: int)
    ensures shape == None <==> Outline(shape, at, w, h, color, width) == []
    ensures shape != None ==> |Outline(shape, at, w, h, color, width)| == 1
    ensures shape != None ==>
      var c := Outline(shape, at, w, h, color, width)[0];
      !c.Clear? && !c.Line? && !c.FillEllipse? && c.color == color && c.width == width
  {
  }

  /** With MiniPaint's fixed preview size of 150 by 100. */
  lemma DefaultPreviewGeometry(at: Point)
    ensures EllipseBox(at, 150, 100) == Rect(at.x - 75, at.y - 50, 150, 100)
    ensures SquareBox(at, 150, 100) == Rect(at.x - 50, at.y - 50, 100, 100)
    ensures TriangleVertices(at, 150, 100)
         == [Point(at.x, at.y - 50), Point(at.x - 50, at.y + 50), Point(at.x + 50, at.y + 50)]
  {
  }
}
