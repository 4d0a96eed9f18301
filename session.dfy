/**
 * The MiniPaint paint session: the form's fields and the event handlers
 * that update them. Each handler is a method; each GDI+ call it makes on
 * the active layer appends the matching Command to that layer.
 *
 * Inputs the handlers take from outside the session are parameters: the
 * pointer position, the offsets the random generator produced for a
 * spray event, whether a mouse-down fell within the double-click
 * interval, and what the user confirmed in a dialog.
 */
module Session {
  import opened Canvas
  import opened Shapes
  import opened BrushPaint
  import opened SprayPaint
  import opened Export
  import Wrappers

  datatype ToolType = Pen | Eraser | Spray | Brush

  /** Tool settings changed only through the dialogs. */
  datatype ToolConfig = ToolConfig(
    tool: ToolType, color: Color, brushSize: int, sprayDensity: int, brushPaintMax: int, activeLayer: int)

  /** The shape-preview mode: armed flag, chosen shape, floating anchor. */
  datatype ShapeSession = ShapeSession(active: bool, shape: ShapeType, location: Point)

  /** The freehand gesture in progress. */
  datatype Gesture = Gesture(isDrawing: bool, isDoubleClickDrawing: bool, lastPoint: Point)

  /** What SaveImage hands to the encoder: format, file extension and the merged layers. */
  datatype ExportRequest = ExportRequest(format: ImageFormat, ext: string, image: seq<Command>)

  /**
   * The commands one freehand Draw event appends to the active layer, for
   * the tool in use, from the previous pointer position `from` to the
   * current one `to`.
   */
  function Stroke(tool: ToolType, color: Color, size: int, density: nat, brush: BrushState,
                  from: Point, to: Point, samples: seq<Offset>): (r: seq<Command>)
    requires size >= 0
    requires tool == Spray ==> density <= |samples|
    ensures tool == Pen ==> |r| == 1 && r[0].Line? && r[0].color == color && r[0].width == size
                            && r[0].from == from && r[0].to == to
    ensures tool == Eraser ==> |r| == 1 && r[0].Line? && r[0].color == White && r[0].width == 2 * size
                               && r[0].from == from && r[0].to == to
    ensures tool == Spray ==> |r| <= density && forall k :: 0 <= k < |r| ==> DotWithin(r[k], to, size, color)
    ensures tool == Brush ==> |r| <= 1 && (r != [] <==> CanPaint(brush))
    ensures tool == Brush && r != [] ==> r[0].FillEllipse? && r[0].color == color && r[0].box == DabBox(to, size)
  {
    match tool
    case Pen => [Line(color, size, from, to)]
    case Eraser => [Line(White, size * 2, from, to)]
    case Spray => Dots(to, samples[..density], size, color)
    case Brush => if CanPaint(brush) then [FillEllipse(color, DabBox(to, size))] else []
  }

  class MiniPaint {
    const layerCount: int := 5
    const ellipseWidth: int := 150
    const ellipseHeight: int := 100

    const layers: array<seq<Command>>
    var brushSize: int
    var sprayDensity: int
    var brushPaintMax: int
    var brushPaint: int
    var activeLayer: int
    var brushDepleted: bool
    var isDrawing: bool
    var previewActive: bool
    var isDoubleClickDrawing: bool
    var previewLocation: Point
    var lastPoint: Point
    var currentColor: Color
    var currentTool: ToolType
    var currentShape: ShapeType

    /**
     * The session invariant: five layers and a valid active one, settings
     * within their dialog ranges, 0 <= brushPaint <= brushPaintMax with the
     * depleted flag raised exactly at zero, and the preview mode armed
     * exactly when a shape is chosen.
     */
    ghost predicate Valid()
      reads this
    {
      && layers.Length == layerCount
      && 0 <= activeLayer < layerCount
      && 1 <= brushSize <= 50
      && 1 <= sprayDensity <= 500
      && 1 <= brushPaintMax <= 1000
      && 0 <= brushPaint <= brushPaintMax
      && (brushDepleted <==> brushPaint == 0)
      && (previewActive <==> currentShape != ShapeType.None)
    }

    function Config(): ToolConfig
      reads this
    {
      ToolConfig(currentTool, currentColor, brushSize, sprayDensity, brushPaintMax, activeLayer)
    }

    function Budget(): BrushState
      reads this
    {
      BrushState(brushPaint, brushDepleted)
    }

    function ShapeMode(): ShapeSession
      reads this
    {
      ShapeSession(previewActive, currentShape, previewLocation)
    }

    function Pointer(): Gesture
      reads this
    {
      Gesture(isDrawing, isDoubleClickDrawing, lastPoint)
    }

    constructor ()
      ensures Valid() && fresh(layers)
      ensures forall i :: 0 <= i < layers.Length ==> layers[i] == []
      ensures Config() == ToolConfig(Pen, Black, 3, 10, 100, 0)
      ensures Budget() == Refill(100)
      ensures ShapeMode() == ShapeSession(false, ShapeType.None, Origin)
      ensures Pointer() == Gesture(false, false, Origin)
    {
      layers := new seq<Command>[5](_ => []);
      brushSize := 3;
      sprayDensity := 10;
      brushPaintMax := 100;
      brushPaint := 100;
      activeLayer := 0;
      brushDepleted := false;
      isDrawing := false;
      previewActive := false;
      isDoubleClickDrawing := false;
      previewLocation := Origin;
      lastPoint := Origin;
      currentColor := Black;
      currentTool := Pen;
      currentShape := ShapeType.None;
    }

    /**
     * The outline DrawingPanel_Paint floats over the layers: shown only
     * while a shape is armed and the anchor is not Point.Empty, with the
     * same geometry a click would commit.
     */
    function PreviewOutline(): (r: seq<Command>)
      requires Valid()
      reads this
      ensures |r| <= 1
      ensures r != [] <==> previewActive && previewLocation != Origin
      ensures r != [] ==> r == Outline(currentShape, previewLocation, ellipseWidth, ellipseHeight, currentColor, brushSize)
    {
      if previewActive && currentShape != ShapeType.None && previewLocation != Origin then
        OutlineIsOneStroke(currentShape, previewLocation, ellipseWidth, ellipseHeight, currentColor, brushSize);
        Outline(currentShape, previewLocation, ellipseWidth, ellipseHeight, currentColor, brushSize)
      else []
    }

    /** DrawingPanel_MouseDown: outside preview mode, start a freehand gesture at `p`. */
    method MouseDown(p: Point, withinDoubleClickInterval: bool)
      requires Valid()
      modifies this
      ensures Valid()
      ensures Config() == old(Config()) && Budget() == old(Budget()) && ShapeMode() == old(ShapeMode())
      ensures old(previewActive) ==> Pointer() == old(Pointer())
      ensures !old(previewActive) ==>
        Pointer() == Gesture(true, old(isDoubleClickDrawing) != withinDoubleClickInterval, p)
    {
      if !previewActive {
        if withinDoubleClickInterval {
          isDoubleClickDrawing := !isDoubleClickDrawing;
        }
        isDrawing := true;
        lastPoint := p;
      }
    }

    /**
     * Draw (the first MouseMove handler): outside preview mode and while a
     * gesture is in progress, apply the current tool from lastPoint to `p`
     * on the active layer and move lastPoint to `p`. The result reports
     * whether the "brush ran out of paint" notice is shown.
     */
    method Draw(p: Point, samples: seq<Offset>) returns (depletedNotice: bool)
      requires Valid()
      requires currentTool == Spray ==> sprayDensity <= |samples|
      modifies this, layers
      ensures Valid()
      ensures Config() == old(Config()) && ShapeMode() == old(ShapeMode())
      ensures isDrawing == old(isDrawing) && isDoubleClickDrawing == old(isDoubleClickDrawing)
      ensures brushPaint <= old(brushPaint)
      ensures old(previewActive) || !old(isDrawing) ==>
        && layers[..] == old(layers[..]) && Pointer() == old(Pointer()) && Budget() == old(Budget())
        && !depletedNotice
      ensures !old(previewActive) && old(isDrawing) ==>
        && lastPoint == p
        && layers[..] == old(layers[..])[activeLayer := old(layers[activeLayer])
             + Stroke(currentTool, currentColor, brushSize, sprayDensity, old(Budget()), old(lastPoint), p, samples)]
        && Budget() == (if currentTool == Brush then Dab(old(Budget())) else old(Budget()))
        && depletedNotice == (currentTool == Brush && CanPaint(old(Budget())) && brushDepleted)
    {
      depletedNotice := false;
      if previewActive {
        return;
      }
      if isDrawing {
        match currentTool {
        case Pen =>
          AddToActiveLayer([Line(currentColor, brushSize, lastPoint, p)]);
        case Eraser =>
          AddToActiveLayer([Line(White, brushSize * 2, lastPoint, p)]);
        case Spray =>
          SprayAt(p, samples);
        case Brush =>
          depletedNotice := BrushDab(p);
        }
        lastPoint := p;
      }
    }

    /** One GDI+ drawing call on `canvas = layers[activeLayer]`. */
    method AddToActiveLayer(cmds: seq<Command>)
      requires Valid()
      modifies layers
      ensures layers[..] == old(layers[..])[activeLayer := old(layers[activeLayer]) + cmds]
    {
      layers[activeLayer] := layers[activeLayer] + cmds;
    }

    /**
     * The Spray case of Draw: sprayDensity attempts, each painting a dot
     * at `p` + offset when the offset lies in the disc of radius brushSize.
     */
    method SprayAt(p: Point, samples: seq<Offset>)
      requires Valid()
      requires sprayDensity <= |samples|
      modifies layers
      ensures layers[..] == old(layers[..])[activeLayer :=
        old(layers[activeLayer]) + Dots(p, samples[..sprayDensity], brushSize, currentColor)]
    {
      ghost var before := layers[activeLayer];
      var i := 0;
      assert samples[..0] == [];
      assert before + [] == before;
      while i < sprayDensity
        invariant 0 <= i <= sprayDensity
        invariant layers[..] == old(layers[..])[activeLayer :=
          before + Dots(p, samples[..i], brushSize, currentColor)]
      {
        var o := samples[i];
        ghost var done := Dots(p, samples[..i], brushSize, currentColor);
        assert samples[..i + 1][..i] == samples[..i] && samples[..i + 1][i] == o;
        if o.dx * o.dx + o.dy * o.dy <= brushSize * brushSize {
          AddToActiveLayer([Dot(p, o, currentColor)]);
          assert Dots(p, samples[..i + 1], brushSize, currentColor) == done + [Dot(p, o, currentColor)];
          assert before + done + [Dot(p, o, currentColor)] == before + (done + [Dot(p, o, currentColor)]);
        } else {
          assert Dots(p, samples[..i + 1], brushSize, currentColor) == done;
        }
        i := i + 1;
      }
    }

    /**
     * The Brush case of Draw: unless depleted, fill a circle of radius
     * brushSize at `p` and spend one unit of paint; the notice is shown
     * when that empties the brush.
     */
    method BrushDab(p: Point) returns (depletedNotice: bool)
      requires Valid()
      modifies this, layers
      ensures Valid()
      ensures Config() == old(Config()) && ShapeMode() == old(ShapeMode()) && Pointer() == old(Pointer())
      ensures Budget() == Dab(old(Budget()))
      ensures layers[..] == old(layers[..])[activeLayer := old(layers[activeLayer])
        + if CanPaint(old(Budget())) then [FillEllipse(currentColor, DabBox(p, brushSize))] else []]
      ensures depletedNotice <==> CanPaint(old(Budget())) && brushDepleted
    {
      depletedNotice := false;
      if !brushDepleted && brushPaint > 0 {
        AddToActiveLayer([FillEllipse(currentColor, DabBox(p, brushSize))]);
        brushPaint := brushPaint - 1;
        if brushPaint <= 0 {
          brushDepleted := true;
          depletedNotice := true;
        }
      } else {
        assert old(layers[..]) == layers[..];
        assert old(layers[activeLayer]) + [] == old(layers[activeLayer]);
      }
    }

    /** StopDrawing (MouseUp): end the freehand gesture. */
    method StopDrawing()
      requires Valid()
      modifies this
      ensures Valid()
      ensures Config() == old(Config()) && Budget() == old(Budget()) && ShapeMode() == old(ShapeMode())
      ensures Pointer() == Gesture(false, false, old(lastPoint))
    {
      isDrawing := false;
      isDoubleClickDrawing := false;
    }

    /** DrawingPanel_MouseMove: while a shape is armed, the anchor follows the pointer. */
    method MovePreview(p: Point)
      requires Valid()
      modifies this
      ensures Valid()
      ensures Config() == old(Config()) && Budget() == old(Budget()) && Pointer() == old(Pointer())
      ensures ShapeMode() == if old(previewActive) then old(ShapeMode()).(location := p) else old(ShapeMode())
    {
      if previewActive && currentShape != ShapeType.None {
        previewLocation := p;
      }
    }

    /**
     * A mouse move runs both MouseMove handlers in the order the form
     * registers them: Draw, then DrawingPanel_MouseMove. In preview mode it
     * only moves the anchor; outside it only draws.
     */
    method MouseMove(p: Point, samples: seq<Offset>) returns (depletedNotice: bool)
      requires Valid()
      requires currentTool == Spray ==> sprayDensity <= |samples|
      modifies this, layers
      ensures Valid()
      ensures Config() == old(Config())
      ensures old(previewActive) ==>
        && layers[..] == old(layers[..]) && Budget() == old(Budget()) && Pointer() == old(Pointer())
        && ShapeMode() == old(ShapeMode()).(location := p) && !depletedNotice
      ensures !old(previewActive) ==> ShapeMode() == old(ShapeMode())
      ensures !old(previewActive) && !old(isDrawing) ==>
        layers[..] == old(layers[..]) && Budget() == old(Budget()) && Pointer() == old(Pointer()) && !depletedNotice
      ensures !old(previewActive) && old(isDrawing) ==>
        && Pointer() == old(Pointer()).(lastPoint := p)
        && layers[..] == old(layers[..])[activeLayer := old(layers[activeLayer])
             + Stroke(currentTool, currentColor, brushSize, sprayDensity, old(Budget()), old(lastPoint), p, samples)]
        && Budget() == (if currentTool == Brush then Dab(old(Budget())) else old(Budget()))
        && depletedNotice == (currentTool == Brush && CanPaint(old(Budget())) && brushDepleted)
    {
      depletedNotice := Draw(p, samples);
      MovePreview(p);
    }

    /**
     * DrawingPanel_MouseClick: while a shape is armed, commit its outline
     * at `p` to the active layer and disarm the preview mode.
     */
    method MouseClick(p: Point)
      requires Valid()
      modifies this, layers
      ensures Valid()
      ensures Config() == old(Config()) && Budget() == old(Budget()) && Pointer() == old(Pointer())
      ensures !old(previewActive) ==> layers[..] == old(layers[..]) && ShapeMode() == old(ShapeMode())
      ensures old(previewActive) ==>
        && layers[..] == old(layers[..])[activeLayer := old(layers[activeLayer])
             + Outline(old(currentShape), p, ellipseWidth, ellipseHeight, currentColor, brushSize)]
        && |layers[activeLayer]| == |old(layers[activeLayer])| + 1
        && ShapeMode() == ShapeSession(false, ShapeType.None, Origin)
    {
      if previewActive && currentShape != ShapeType.None {
        OutlineIsOneStroke(currentShape, p, ellipseWidth, ellipseHeight, currentColor, brushSize);
        layers[activeLayer] := layers[activeLayer]
          + Outline(currentShape, p, ellipseWidth, ellipseHeight, currentColor, brushSize);
        previewActive := false;
        currentShape := ShapeType.None;
        previewLocation := Origin;
      }
    }

    /** ChooseColor: a confirmed colour dialog sets the drawing colour. */
    method ChooseColor(confirmed: bool, color: Color)
      requires Valid()
      modifies this
      ensures Valid()
      ensures Config() == if confirmed then old(Config()).(color := color) else old(Config())
      ensures Budget() == old(Budget()) && ShapeMode() == old(ShapeMode()) && Pointer() == old(Pointer())
    {
      if confirmed {
        currentColor := color;
      }
    }

    /** ClearCanvas: paint the active layer, and only it, white. */
    method ClearCanvas()
      requires Valid()
      modifies layers
      ensures layers[..] == old(layers[..])[activeLayer := old(layers[activeLayer]) + [Clear(White)]]
      ensures Painted(layers[activeLayer]) == [] && Background(layers[activeLayer]) == Wrappers.Some(White)
    {
      ClearBlanksLayer(layers[activeLayer], White);
      layers[activeLayer] := layers[activeLayer] + [Clear(White)];
    }

    /**
     * SaveImage without the file system: a confirmed dialog yields the
     * format and extension chosen from the typed token and the layers
     * merged bottom to top; a cancelled one yields nothing.
     */
    method SaveImage(confirmed: bool, token: string) returns (request: Wrappers.Option<ExportRequest>)
      ensures request.Some? <==> confirmed
      ensures confirmed ==> request.value.format == ChooseFormat(token).format
      ensures confirmed ==> request.value.ext == ChooseFormat(token).ext
      ensures confirmed ==> request.value.image == Flatten(layers[..])
    {
      if confirmed {
        var choice := ChooseFormat(token);
        var merged: seq<Command> := [];
        for i := 0 to layers.Length
          invariant merged == Flatten(layers[..i])
        {
          assert layers[..i + 1][..i] == layers[..i];
          merged := merged + layers[i];
        }
        assert layers[..layers.Length] == layers[..];
        request := Wrappers.Some(ExportRequest(choice.format, choice.ext, merged));
      } else {
        request := Wrappers.None;
      }
    }

    /** ChangeSizeBrush: a confirmed size dialog (range 1..50) sets the brush size. */
    method ChangeSizeBrush(confirmed: bool, size: int)
      requires Valid()
      requires confirmed ==> 1 <= size <= 50
      modifies this
      ensures Valid()
      ensures Config() == if confirmed then old(Config()).(brushSize := size) else old(Config())
      ensures Budget() == old(Budget()) && ShapeMode() == old(ShapeMode()) && Pointer() == old(Pointer())
    {
      if confirmed {
        brushSize := size;
      }
    }

    /** ShowLayerSelector: a confirmed layer dialog makes `selected` the active layer. */
    method ShowLayerSelector(confirmed: bool, selected: int)
      requires Valid()
      requires confirmed ==> 0 <= selected < layerCount
      modifies this
      ensures Valid()
      ensures Config() == if confirmed then old(Config()).(activeLayer := selected) else old(Config())
      ensures Budget() == old(Budget()) && ShapeMode() == old(ShapeMode()) && Pointer() == old(Pointer())
    {
      if confirmed {
        activeLayer := selected;
      }
    }

    /**
     * ShowToolSelector: a confirmed tools dialog sets the tool and the
     * spray density (1..500); choosing Brush also sets the capacity
     * (1..1000) and refills the brush. Other tools keep the budget.
     */
    method ShowToolSelector(confirmed: bool, tool: ToolType, density: int, capacity: int)
      requires Valid()
      requires confirmed ==> 1 <= density <= 500 && 1 <= capacity <= 1000
      modifies this
      ensures Valid()
      ensures ShapeMode() == old(ShapeMode()) && Pointer() == old(Pointer())
      ensures !confirmed ==> Config() == old(Config()) && Budget() == old(Budget())
      ensures confirmed && tool == Brush ==>
        Config() == old(Config()).(tool := Brush, sprayDensity := density, brushPaintMax := capacity)
        && Budget() == Refill(capacity)
      ensures confirmed && tool != Brush ==>
        Config() == old(Config()).(tool := tool, sprayDensity := density) && Budget() == old(Budget())
    {
      if confirmed {
        match tool {
        case Pen => currentTool := Pen;
        case Eraser => currentTool := Eraser;
        case Spray => currentTool := Spray;
        case Brush =>
          currentTool := Brush;
          brushPaintMax := capacity;
          brushPaint := brushPaintMax;
          brushDepleted := false;
        }
        sprayDensity := density;
      }
    }

    /**
     * ChooseShape: a confirmed shape dialog chooses the shape and arms the
     * preview mode; the anchor keeps its last value.
     */
    method ChooseShape(confirmed: bool, shape: ShapeType)
      requires Valid()
      requires confirmed ==> shape != ShapeType.None
      modifies this
      ensures Valid()
      ensures Config() == old(Config()) && Budget() == old(Budget()) && Pointer() == old(Pointer())
      ensures ShapeMode() == if confirmed then ShapeSession(true, shape, old(previewLocation)) else old(ShapeMode())
    {
      if confirmed {
        currentShape := shape;
        previewActive := true;
      }
    }
  }

  /**
   * A brush refilled to capacity 3 paints three circles, is depleted by
   * the third (which shows the notice), and a fourth dab leaves the layer
   * as it was.
   */
  method BrushDepletionScenario(p: Point)
  {
    var paint := new MiniPaint();
    paint.ShowToolSelector(true, Brush, 10, 3);
    paint.MouseDown(p, false);
    var notice := paint.MouseMove(p, []);
    assert !notice && paint.brushPaint == 2;
    notice := paint.MouseMove(p, []);
    assert !notice && paint.brushPaint == 1;
    notice := paint.MouseMove(p, []);
    assert notice && paint.brushPaint == 0 && paint.brushDepleted;
    assert |paint.layers[0]| == 3;
    notice := paint.MouseMove(p, []);
    assert !notice && |paint.layers[0]| == 3;
  }

  /**
   * An armed shape is committed by one click; a second click without
   * choosing a shape again draws nothing.
   */
  method ShapeCommitScenario(p: Point, q: Point)
  {
    var paint := new MiniPaint();
    paint.ChooseShape(true, Triangle);
    paint.MouseDown(p, false);
    var notice := paint.MouseMove(p, []);
    assert paint.layers[0] == [] && paint.previewLocation == p;
    paint.MouseClick(p);
    assert |paint.layers[0]| == 1 && !paint.previewActive;
    paint.MouseClick(q);
    assert |paint.layers[0]| == 1;
  }
}
