# Shape renderer: a display-list model

This project models the shape-rendering core of a small shape-editing web app.
Each shape has a `type` tag and per-variant parameters: a square, a star, a
bullseye or a cat face. The `ShapeItem` component selects a drawing routine by
the tag. The routine draws the shape on a fresh 100 x 100 canvas.

In the model each routine is a pure function from the shape's parameters to a
**display list**. A display list is the sequence of calls the routine makes on
the canvas's 2D context: style assignments, `beginPath`, `moveTo`, `lineTo`,
`arc`, `ellipse`, `closePath`, `fill`, `stroke`, `fillRect`, `save`,
`translate` and `restore`. Whether the canvas provides a 2D context is a
parameter. Without one, every routine fails with `ContextNotSupported` and
issues no command.

Angles stay symbolic: `PiRatio(i, n)` stands for `i * pi / n`. A star vertex
is the point `Polar(cx, cy, r, angle)` rather than the floating-point pair
that `Math.cos`/`Math.sin` would give.

The display lists are given a meaning by a small interpreter of the 2D
context (module `Paint`). It tracks the state the routines touch: fill and
stroke style, line width, translation, the save stack and the current path.
It records every paint as a `Mark`: what was filled or stroked, in which
colour and width, over which path. The interpreter follows the HTML canvas
rules this code relies on:
- resizing a canvas resets its context to black fill and stroke, width 1 and no transform;
- `restore` with an empty stack does nothing;
- a non-positive line width is ignored.

The properties about paint order and colours are proved against this interpreter.

Modules: `Canvas` (commands, colours, context, errors), `Paint` (interpreter),
`Shapes` (the shape variants), `SquareDraw`, `StarDraw`, `BullseyeDraw`,
`CatDraw` (the four routines) and `ShapeItem` (the dispatcher).

Two behaviours of the routines are worth stating directly:
- The star is stroked first and filled second (`stroke()` then `fill()`, src/shapeitem.tsx:79-80).
- A bullseye with a negative radius still issues its arcs when `rings >= 1` (src/shapeitem.tsx:104-106).
  Rejecting negative radii is the canvas's business, not the routine's.

## Model

| member | source | states |
|---|---|---|
| ShapeItem.Render | src/shapeitem.tsx:15-28 | Every shape is drawn by some routine, never the `null` branch. The result is an error exactly when there is no 2D context. Otherwise it is the display list of the routine for the shape's own variant. |
| ShapeItem.DispatchSelectsOwnRoutine | src/shapeitem.tsx:16-24 | The tag of every shape selects a routine. It is the one written for that shape's variant, and no other routine handles that variant. |
| ShapeItem.DispatchUnknownTag | src/shapeitem.tsx:25-26 | A tag selects nothing (the `default: return null` branch) exactly when it is not one of `square`, `star`, `bullseye`, `cat`. Every tag that selects a routine is the tag of some shape. |
| SquareDraw.Draw | src/shapeitem.tsx:38-41 | Without a 2D context the square fails with no commands. With one it issues its display list. |
| SquareDraw.SquareFillsSurface | src/shapeitem.tsx:42-43 | On a fresh canvas the square paints exactly once. It fills the untranslated rectangle (0, 0, 100, 100) in `hsl(hue, 50%, 50%)`. |
| StarDraw.Draw | src/shapeitem.tsx:54-57 | Without a 2D context the star fails with no commands. With one it issues its display list. |
| StarDraw.VerticesFrom | src/shapeitem.tsx:67-77 | The vertex loop from `i` to `count - 1` issues exactly `count - i` commands. Vertex `i + k` is a `moveTo` exactly when it is vertex 0 and a `lineTo` otherwise. |
| StarDraw.StarPathShape | src/shapeitem.tsx:66-78 | For `points >= 1` the display list has exactly `2 * points` vertex commands, all contiguous. The first is a `moveTo`, the rest are `lineTo`s, and `closePath` follows them. |
| StarDraw.StarVertexSchedule | src/shapeitem.tsx:58-71 | Vertex `i` lies about (50, 50) at angle `i * pi / points`. Its radius is `r2` for even `i` and `r1` for odd `i`. |
| StarDraw.StarStrokeThenFill | src/shapeitem.tsx:60-80 | On a fresh canvas the star paints exactly twice, over the same closed path of `2 * max(points, 0)` vertices. First comes a black stroke of width 2, then a fill in `hsl(hue, 50%, 50%)`. |
| BullseyeDraw.Draw | src/shapeitem.tsx:91-94 | Without a 2D context the bullseye fails with no commands. With one it issues its display list. |
| BullseyeDraw.RingsFrom | src/shapeitem.tsx:104-111 | The ring loop from `i` issues six commands for each of the `rings - i` remaining rings, and none when `i >= rings`. |
| BullseyeDraw.RingRadiusPositive | src/shapeitem.tsx:99-106 | For `radius > 0` and `rings >= 1`, including a single ring, ring 0 has radius `radius`. Every ring the loop draws has a radius between `radius / rings` and `radius`, so it is positive. |
| BullseyeDraw.RingRadiiDecreasing | src/shapeitem.tsx:99-106 | For `radius > 0` and any two rings `i < j` the loop draws, ring `i` has a strictly larger radius than ring `j`, and both are positive. |
| BullseyeDraw.BullseyeRings | src/shapeitem.tsx:95-111 | On a fresh canvas the bullseye paints exactly `2 * max(rings, 0)` times, ring by ring. Each ring is filled, then stroked in black at width 2. Ring `i` is a circle about (50, 50) of radius `radius - i * (radius / rings)`. Its fill is `hsl(hue, ...)` for even `i` and `hsl(hue2, ...)` for odd `i`. |
| CatDraw.Draw | src/shapeitem.tsx:122-125 | Without a 2D context the cat fails with no commands. With one it issues its display list. |
| CatDraw.PupilsShiftTogether | src/shapeitem.tsx:153-184 | Each pupil is a circle of radius 5 at the height of its eye white. It is moved from the eye white's centre by the same `x` for both eyes: -3 for `left`, 0 for `centre`, +3 for `right`. |
| CatDraw.LookMovesOnlyPupils | src/shapeitem.tsx:168-184 | For any two looks the display lists have the same length and agree everywhere except the two pupil arcs. Those two arcs differ when the looks differ. |
| CatDraw.SaveRestoreBracket | src/shapeitem.tsx:129-185 | The display list has exactly one `save`, followed at once by `translate(50, 50)`. It has exactly one `restore`, and that is the last command. |
| CatDraw.TransformRestored | src/shapeitem.tsx:126-185 | On a fresh canvas, after the cat the context keeps the styles set before `save`. It has no translation and an empty save stack. |
| CatDraw.CatLayers | src/shapeitem.tsx:126-185 | On a fresh canvas the cat paints ten layers in order, all translated to (50, 50). (1) head outline in black, width 2. (2) both ears as one path, stroked black. (3) the ears filled with the hue. (4) the head filled with the hue. (5-8) each eye white filled white, then outlined in black at width 1, left then right. (9-10) the two black pupils, shifted by the look. |

## Left out

- The Preact component machinery (`useRef`, `useEffect` and its dependency arrays, the JSX results, `document.createElement`) and the shapes store. These only decide when a redraw happens, not what it draws.
- The canvas element's `class` and `id` attributes and the `toString` of the id. These are presentation only.
- Setting the canvas width and height to 100 is not a command in the display list. Its effect is modelled as the fresh context (`Paint.Blank`) every routine starts from, and as the 100 x 100 surface whose centre is (50, 50).
- `Math.cos`, `Math.sin` and `Math.PI`: angles and star vertices stay symbolic, so floating-point rounding is not modelled.
- IEEE double arithmetic: hues, radii and ring widths are exact reals, and `points` and `rings` are finite integers. So `radius / rings` and `radius - i * ringWidth` (src/shapeitem.tsx:101,106) are exact rather than rounded. For example, with `radius = 1, rings = 3` the model gives ring 2 the radius 1/3, where the app computes 0.33333333333333337. Non-finite values are not modelled either. An infinite `points` or `rings` would keep the loop at :67 or :104 from ending. A `NaN` hue builds an invalid `hsl(NaN, ...)` colour, which the context ignores.
- Rasterisation: HSL-to-RGB conversion, anti-aliasing, occlusion of pixels, and the canvas's own handling of negative radii (an `arc` with a negative radius throws in a browser). These belong to the browser.
- Shapes.ShapeProps: `points` and `rings` are whole numbers. The source's `number` also admits fractions, for which the loops would run `ceil(2 * points)` and `ceil(rings)` times.
- Idempotence of a redraw is not stated as a lemma. Every routine is a function of the shape's parameters and starts from a freshly reset context, so it holds by construction.
