module Wrappers {
  datatype Option<T> = None | Some(value: T)
}

/**
 * The values a MiniPaint layer is made of. Every GDI+ call the paint
 * program makes on a layer bitmap is recorded here as a drawing command
 * (which tool primitive, colour, pen width and geometry); a layer is the
 * list of commands drawn onto it, oldest first.
 */
module Canvas {
  import opened Wrappers

  /** System.Drawing.Point; `Origin` is Point.Empty. */
  datatype Point = Point(x: int, y: int)

  const Origin: Point := Point(0, 0)

  /** System.Drawing.Rectangle: top-left corner, width and height. */
  datatype Rect = Rect(x: int, y: int, w: int, h: int)

  /** System.Drawing.Color as alpha, red, green and blue components. */
  datatype Color = Argb(a: int, r: int, g: int, b: int)

  const Black: Color := Argb(255, 0, 0, 0)
  const White: Color := Argb(255, 255, 255, 255)

  /** One recorded GDI+ call on a layer. */
  datatype Command =
    | Line(color: Color, width: int, from: Point, to: Point)            // DrawLine, round caps
    | FillEllipse(color: Color, box: Rect)                                // FillEllipse
    | StrokeEllipse(color: Color, width: int, box: Rect)                  // DrawEllipse
    | StrokeRectangle(color: Color, width: int, box: Rect)                // DrawRectangle
    | StrokePolygon(color: Color, width: int, vertices: seq<Point>)       // DrawPolygon
    | Clear(color: Color)                                                 // Graphics.Clear

  /**
   * What is still visible on a layer: the commands drawn after the last
   * Clear (a Clear paints over every pixel, so nothing before it shows).
   */
  function Painted(cmds: seq<Command>): (r: seq<Command>)
    ensures |r| <= |cmds| && r == cmds[|cmds| - |r|..]
    ensures forall k :: 0 <= k < |r| ==> !r[k].Clear?
    ensures |r| < |cmds| ==> cmds[|cmds| - |r| - 1].Clear?
  {
    if cmds == [] then []
    else if cmds[|cmds| - 1].Clear? then []
    else Painted(cmds[..|cmds| - 1]) + [cmds[|cmds| - 1]]
  }

  /** The colour the last Clear left behind, if the layer was ever cleared. */
  function Background(cmds: seq<Command>): (r: Option<Color>)
    ensures r.None? <==> forall k :: 0 <= k < |cmds| ==> !cmds[k].Clear?
  {
    if cmds == [] then None
    else if cmds[|cmds| - 1].Clear? then Some(cmds[|cmds| - 1].color)
    else Background(cmds[..|cmds| - 1])
  }

  /** Clearing a layer leaves it blank, of the clear colour, whatever was drawn before. */
  lemma ClearBlanksLayer(cmds: seq<Command>, c: Color)
    ensures Painted(cmds + [Clear(c)]) == []
    ensures Background(cmds + [Clear(c)]) == Some(c)
  {
  }

  /** Drawing anything but a Clear adds exactly that command on top of what is visible. */
  lemma {:induction false} DrawAddsOnTop(cmds: seq<Command>, c: Command)
    requires !c.Clear?
    ensures Painted(cmds + [c]) == Painted(cmds) + [c]
    ensures Background(cmds + [c]) == Background(cmds)
  {
    assert (cmds + [c])[..|cmds|] == cmds;
  }

  /**
   * The composite of a stack of layers, bottom (index 0) first: what
   * DrawingPanel_Paint and SaveImage draw, layer by layer, with DrawImage.
   */
  function Flatten(layers: seq<seq<Command>>): (r: seq<Command>)
    ensures |r| == SumLengths(layers)
  {
    if layers == [] then []
    else Flatten(layers[..|layers| - 1]) + layers[|layers| - 1]
  }

  function SumLengths(layers: seq<seq<Command>>): nat
  {
    if layers == [] then 0
    else SumLengths(layers[..|layers| - 1]) + |layers[|layers| - 1]|
  }

  lemma {:induction false} FlattenConcat(a: seq<seq<Command>>, b: seq<seq<Command>>)
    ensures Flatten(a + b) == Flatten(a) + Flatten(b)
    decreases |b|
  {
    if b == [] {
      assert a + b == a;
    } else {
      var b' := b[..|b| - 1];
      assert (a + b)[..|a + b| - 1] == a + b';
      FlattenConcat(a, b');
    }
  }

  /**
   * Layer order: commands appended to layer i appear in the composite
   * after everything on layers 0..i and before everything on the layers
   * above it, which are themselves untouched.
   */
  lemma {:induction false} FlattenAfterDraw(layers: seq<seq<Command>>, i: int, cs: seq<Command>)
    requires 0 <= i < |layers|
    ensures Flatten(layers[i := layers[i] + cs])
         == Flatten(layers[..i + 1]) + cs + Flatten(layers[i + 1..])
  {
    var updated := layers[i := layers[i] + cs];
    assert updated == layers[..i] + [layers[i] + cs] + layers[i + 1..];
    FlattenConcat(layers[..i] + [layers[i] + cs], layers[i + 1..]);
    FlattenConcat(layers[..i], [layers[i] + cs]);
    FlattenConcat(layers[..i], [layers[i]]);
    assert layers[..i + 1] == layers[..i] + [layers[i]];
    assert [layers[i] + cs][..0] == [] && [layers[i]][..0] == [];
  }
}
