# MiniPaint paint session, modelled in Dafny

MiniPaint (`teste/Program.cs`) is a WinForms paint program with five
bitmap layers. The user draws with four freehand tools (Pen, Eraser, Spray
and a Brush with a finite paint budget). They can place four shapes
(ellipse, circle, square, triangle) through a preview mode, clear the
active layer, and save the merged layers as PNG or JPEG.

This project models the sequential state machine under the GUI. Every
GDI+ drawing call becomes a recorded `Command` (tool primitive, colour,
pen width and geometry), appended to the command list of the layer it
draws on. A layer is a `seq<Command>`. The five layers are an
`array<seq<Command>>` owned by the session.

- `canvas.dfy`, module `Canvas`: points, rectangles, colours and drawing
  commands. It also holds what a layer still shows after a `Clear`, and
  how layers composite bottom to top.
- `shapes.dfy`, module `Shapes`: the integer geometry of the four shape
  outlines (`Draw*Preview`), with C#'s truncating division.
- `brush.dfy`, module `BrushPaint`: the brush budget (`brushPaint`,
  `brushDepleted`) as a value, with one dab and runs of dabs.
- `spray.dfy`, module `SprayPaint`: the spray's rejection sampling of
  offsets inside the disc of radius `brushSize`.
- `export.dfy`, module `Export`: `Trim`, `ToLower` and the choice of
  encoder and extension in `SaveImage`.
- `session.dfy`, module `Session`: class `MiniPaint` with the form's
  fields, its invariant `Valid()`, and one method per event handler and
  dialog result. Two client methods replay two event sequences against
  the handlers' contracts alone. In the first, a brush of capacity 3 runs
  dry. In the second, a shape is committed by one click and a second
  click draws nothing.

`Valid()` is the session invariant:
- there are five layers and the active layer index is valid;
- the brush size, spray density and brush capacity lie in their dialog
  ranges;
- `0 <= brushPaint <= brushPaintMax`;
- `brushDepleted` holds exactly when `brushPaint == 0`;
- `previewActive` holds exactly when `currentShape != None`.

Every handler preserves it.

Facts of the code that shape the model:
- `DrawingPanel_Paint` builds a dashed pen (`teste/Program.cs:92`) and
  never uses it. Each `Draw*Preview` helper draws with a new solid pen.
  So the floating preview is the same solid outline a click commits
  (`PreviewOutline`).
- `ChooseShape` never resets `previewLocation`. Only a committing click
  resets it to `Point.Empty` (`MiniPaint.ChooseShape`).
- The layer index comes from a five-item drop-down list, so it is always
  0..4. `ShowLayerSelector` requires a valid index from its caller.
- The preview is not drawn while its anchor equals `Point.Empty` (0, 0).
  That point doubles as "no anchor yet".

## Model

| member | source | states |
|---|---|---|
| Canvas.Painted | teste/Program.cs:250-257 | what a layer shows is the suffix of its commands after the last Clear, and that suffix contains no Clear |
| Canvas.Background | teste/Program.cs:250-257 | a layer has a background colour exactly when some Clear was drawn on it |
| Canvas.ClearBlanksLayer | teste/Program.cs:252-255 | clearing a layer white leaves nothing visible and a white background, whatever was drawn before |
| Canvas.DrawAddsOnTop | teste/Program.cs:136-181 | any non-clearing draw call adds exactly that command on top of what the layer shows and keeps its background |
| Canvas.Flatten | teste/Program.cs:85-88 | the composite holds as many commands as all layers together |
| Canvas.FlattenConcat | teste/Program.cs:317-318 | compositing a stack split in two equals compositing each part and joining them in order |
| Canvas.FlattenAfterDraw | teste/Program.cs:87-88 | commands added to layer i appear in the composite after layers 0..i and before the untouched layers above it |
| Shapes.Half | teste/Program.cs:368-369 | C# `/ 2` truncates toward zero: the remainder is 0 or 1 for non-negative operands and 0 or -1 for negative ones |
| Shapes.Min | teste/Program.cs:377 | `Math.Min` returns one of its operands and is at most both |
| Shapes.ShapesCentredOnAnchor | teste/Program.cs:366-393 | the ellipse box is w by h, the circle and square box is min(w,h) square, and each is centred on the anchor to within half a pixel |
| Shapes.TriangleInscribed | teste/Program.cs:395-404 | the triangle's apex lies straight above the anchor on the square box's top edge, its base is horizontal and mirrored about the anchor, and all vertices lie in the box |
| Shapes.OutlineIsOneStroke | teste/Program.cs:211-225 | each shape but None yields exactly one outline in the current colour and pen width, and None yields nothing |
| Shapes.DefaultPreviewGeometry | teste/Program.cs:12-13 | with the fixed 150 by 100 size, the ellipse box is (x-75, y-50, 150, 100), the circle and square box is (x-50, y-50, 100, 100), and the triangle is (x, y-50), (x-50, y+50), (x+50, y+50) |
| BrushPaint.Dab | teste/Program.cs:166-180 | a dab never increases the paint, and it changes the brush state exactly when the brush is not depleted and has paint left |
| BrushPaint.DabBox | teste/Program.cs:171 | the brush circle has radius brushSize and is centred exactly on the pointer: its box is 2*brushSize wide and high, and the pointer lies half a width and half a height from the box's corner |
| BrushPaint.DabSpendsOne | teste/Program.cs:167-178 | a dab that paints spends exactly one unit and raises the depleted flag exactly when the paint reaches 0 or less |
| BrushPaint.DabsNeverIncrease | teste/Program.cs:166-180 | across any number of dabs the remaining paint never increases |
| BrushPaint.DepletedIsStable | teste/Program.cs:167 | a brush that cannot paint stays unchanged through any number of dabs and paints no circle |
| BrushPaint.RefillLastsMaxDabs | teste/Program.cs:477-482 | after a refill to capacity max, n <= max dabs leave max-n units and set the depleted flag exactly when n == max; more dabs leave it empty and depleted |
| BrushPaint.RefillPaintsMinDabs | teste/Program.cs:166-180 | after a refill to capacity max, exactly min(n, max) of n dabs paint a circle |
| SprayPaint.Hits | teste/Program.cs:158-164 | no more offsets pass the disc test than were sampled |
| SprayPaint.Dots | teste/Program.cs:157-165 | one spray event paints one dot per sampled offset in the disc, so at most as many dots as samples; every dot is a 1x1 dot of the current colour within distance brushSize of the pointer |
| SprayPaint.DiscBounds | teste/Program.cs:160-162 | an offset that passes the disc test lies within [-brushSize, brushSize] on both axes |
| SprayPaint.EveryHitPainted | teste/Program.cs:158-164 | when every sample lies in the disc, each gets its dot, in sampling order |
| Export.SkipWhite | teste/Program.cs:294 | Trim's forward scan stops at the first character that is not white space, having passed only white space |
| Export.BackWhite | teste/Program.cs:294 | Trim's backward scan stops after the last character that is not white space, having passed only white space |
| Export.Trim | teste/Program.cs:294 | the result is an infix of the token, everything removed around it is white space, it neither starts nor ends with white space, and it is empty exactly when the token is all white space |
| Export.TrimSkipsPrefix | teste/Program.cs:294 | white space put in front of a token does not change its trimmed form |
| Export.TrimSkipsSuffix | teste/Program.cs:294 | white space put after a token does not change its trimmed form |
| Export.TrimIgnoresPadding | teste/Program.cs:294 | white space on both sides of a token does not change its trimmed form |
| Export.ToLower | teste/Program.cs:294 | keeps the token's length; no upper-case ASCII letter is left; each upper-case ASCII letter becomes the lower-case letter at the same alphabet position; every other character is kept |
| Export.JpegExactlyForSpellings | teste/Program.cs:294-301 | JPEG with extension "jpg" is chosen if and only if the token is "jpg" or "jpeg", in some letter case, with only white space around it; every other token gets PNG with extension "png" |
| Export.ChoiceExamples | teste/Program.cs:277 | the dialog's default "png" selects PNG, "jpg" and "jpeg" select JPEG with extension jpg, and an unknown token such as "gif" falls back to PNG |
| Export.ExtensionReselectsFormat | teste/Program.cs:296-310 | typing the written file's extension back as a token selects the same format and extension |
| Export.PaddingIsIgnored | teste/Program.cs:294 | white space around the token never changes the choice |
| Export.TrimCommutesWithLower | teste/Program.cs:294 | trimming and lower-casing can be done in either order |
| Export.CaseIsIgnored | teste/Program.cs:294-297 | tokens equal up to letter case select the same format |
| Export.JpegSpellings | teste/Program.cs:294-301 | "jpg" or "jpeg" in any letter case, with any surrounding white space, selects JPEG with extension jpg |
| Session.Stroke | teste/Program.cs:139-181 | Pen draws one line from lastPoint to the pointer in the current colour at brushSize; Eraser draws one white line at 2*brushSize; Spray draws at most sprayDensity dots, all in the disc of radius brushSize around the pointer; Brush fills one brush circle exactly when it is not depleted and has paint |
| Session.MiniPaint.constructor | teste/Program.cs:11-30 | the session starts with five empty layers, Pen, Black, size 3, density 10, a full budget of 100, layer 0 active, no shape, and no gesture in progress |
| Session.MiniPaint.PreviewOutline | teste/Program.cs:90-108 | Paint floats at most one outline: exactly when a shape is armed and the anchor is not Point.Empty, and with the geometry a click at the anchor would commit |
| Session.MiniPaint.MouseDown | teste/Program.cs:113-128 | in preview mode nothing changes; otherwise a gesture starts at the pointer and the double-click flag toggles exactly when the press fell within the interval |
| Session.MiniPaint.Draw | teste/Program.cs:130-185 | in preview mode, or with no gesture, no layer, budget or pointer field changes; otherwise the active layer, and only it, gains the tool's Stroke, the budget takes one Dab only for Brush, lastPoint becomes the pointer, and the notice shows exactly when this dab emptied the brush |
| Session.MiniPaint.AddToActiveLayer | teste/Program.cs:136-137 | a drawing call appends to the active layer and to no other |
| Session.MiniPaint.SprayAt | teste/Program.cs:157-165 | the spray loop appends exactly the Dots of the first sprayDensity samples to the active layer |
| Session.MiniPaint.BrushDab | teste/Program.cs:166-180 | the brush budget takes one Dab; the circle is added to the active layer exactly when the brush could paint; the notice shows exactly when this dab depleted it |
| Session.MiniPaint.StopDrawing | teste/Program.cs:187-191 | mouse-up ends the gesture and clears the double-click flag, changing nothing else |
| Session.MiniPaint.MovePreview | teste/Program.cs:193-200 | while a shape is armed, the anchor becomes the pointer; nothing else changes |
| Session.MiniPaint.MouseMove | teste/Program.cs:52-53 | in preview mode a move changes no layer, budget or gesture and only moves the anchor; outside preview mode it leaves the shape mode alone and draws the tool's Stroke on the active layer |
| Session.MiniPaint.MouseClick | teste/Program.cs:202-231 | while a shape is armed, a click adds exactly one outline at the pointer to the active layer and disarms the mode (no shape, anchor Point.Empty); otherwise it changes nothing |
| Session.MiniPaint.ChooseColor | teste/Program.cs:242-244 | a confirmed colour dialog changes only the current colour |
| Session.MiniPaint.ClearCanvas | teste/Program.cs:250-257 | only the active layer changes; it is cleared to white and shows nothing |
| Session.MiniPaint.SaveImage | teste/Program.cs:292-320 | a confirmed dialog yields the encoder and extension chosen from the token and the layers merged bottom to top; a cancelled one yields no request |
| Session.MiniPaint.ChangeSizeBrush | teste/Program.cs:339-362 | a confirmed size dialog changes only the brush size, within 1..50 |
| Session.MiniPaint.ShowLayerSelector | teste/Program.cs:430-436 | a confirmed layer dialog changes only the active layer index |
| Session.MiniPaint.ShowToolSelector | teste/Program.cs:470-485 | a confirmed tools dialog sets the tool and the spray density; Brush also sets the capacity and refills the brush, undepleted; the other tools keep capacity, paint and flag; a cancelled dialog changes nothing |
| Session.MiniPaint.ChooseShape | teste/Program.cs:524-542 | a confirmed shape dialog chooses a shape and arms the preview mode, keeping the old anchor; a cancelled one changes nothing |

## Left out

- GDI+ rasterisation and compositing are not modelled. Each call is a
  recorded `Command`. Pixels, anti-aliasing, round line caps and alpha
  are out.
- `Random` is not modelled. The spray takes the offsets it drew as the
  `samples` parameter. The range `rnd.Next` guarantees is not assumed,
  because the disc test alone bounds every painted offset.
- File I/O in `SaveImage` is not modelled. `SaveImage` returns the request
  that would be encoded. The desktop folder, `CreateDirectory`, the
  timestamped file name, `Bitmap.Save` and its error message box are out.
- Dialogs, buttons, message boxes, `Invalidate` and `DoubleBufferedPanel`
  are not modelled. A dialog becomes a `confirmed` flag and the value the
  user picked. The widget ranges of the numeric fields and list boxes
  become preconditions. The brush depletion message box becomes the
  `depletedNotice` result.
- The `canvas` and `graphics` fields are not modelled. Every handler
  re-derives them from `layers[activeLayer]` before drawing, so they add
  no state. The only other use is `canvas.Width`/`Height` in `SaveImage`,
  which sizes the merged bitmap.
- `ChooseColor`'s custom-colour array round trip is not modelled. Only
  the assignment of `currentColor` is kept.
- The double-click clock is not modelled. `DateTime.Now` and
  `lastClickTime` are replaced by the `withinDoubleClickInterval`
  parameter. `isDoubleClickDrawing` is only read to toggle it; no other
  code reads it.
- C# `int` overflow is not modelled. The values involved (pointer
  coordinates, `brushSize * 2` at most 100, the paint counter between 0
  and 1000) stay far from 32-bit limits.
- Export.ToLower: maps only the ASCII letters A-Z. .NET's
  culture-sensitive lower-casing of other characters is out. It does not
  affect the choice, because only ASCII letters lower-case to the letters
  of "jpg" and "jpeg".
