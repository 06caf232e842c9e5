# Pen game: a verified model of its state machine

The pen game is a single React component, `PenGame`. A player picks three
"pen features" from a fixed catalog of twenty. The player then draws on a
500×400 canvas with a freehand pen or with rectangles, circles and lines,
drags placed shapes around, writes a description and submits. Under the
rendering, the component is one state record changed by event handlers,
each of which runs to completion as one update.

This project models that state machine in Dafny:

- `features.dfy` (module `Features`): the feature catalog and the toggle
  that keeps a selection of at most three distinct labels, in insertion
  order.
- `shapes.dfy` (module `Shapes`): the shape record, the hit test that finds
  the topmost shape under the pointer, dragging as a function of the
  pointer path, and the full redraw as a list of canvas commands.
- `game.dfy` (module `Game`): class `PenGame`, whose fields are the
  component's state record, and one method per handler. Each method states
  the whole new state. Its `modifies` clause names exactly the fields the
  handler assigns, so every other field, placed shapes included, is
  guaranteed unchanged.
- `walkthrough.dfy` (module `Walkthrough`): sequences of handler calls
  written only against the handlers' contracts. They cover picking
  features, a freehand stroke that a redraw erases, placing and dragging a
  circle, and going back and forth before submitting. Some of them call
  handlers directly, in a view where the control is not shown or through a
  size handler that no control is bound to.

Modelling choices:

- Pointer coordinates are exact `real`s. Sizes and stroke widths are
  `int`s, as `parseInt` yields them. Colours and tool names are strings.
- A circle is hit when `radius > 0` and the squared distance is below
  `radius * radius`. That is exactly `sqrt(dx² + dy²) < radius`, because a
  distance is never negative.
- The canvas is the field `surface`: the list of drawing commands issued
  since the canvas was last cleared. A redraw replaces it with
  `Redraw(shapes)`, which holds only box and circle outlines. So freehand
  ink drawn before a redraw is gone from the redrawn canvas. A later
  `stroke()` can paint it again (see `Game.PenGame.MouseMove` under
  "## Left out").
- The canvas element and its 2D context are either both available or not.
  The press and move handlers take this as a `ready` flag. When it is
  false, they change nothing. The release handler (src/PenGame.tsx:203-211)
  has no such guard and takes no flag.
- Four handlers require the render condition of their control.
  `Proceed`, `GoBack` and `Submit` change the phase, which is meaningful only
  from that view. `SelectFeature` changes no phase, but its restriction to
  the picker is what keeps exactly three features held while the drawing
  view is shown:
  - `SelectFeature` and `Proceed` require the picker
    (src/PenGame.tsx:280-306); "Proceed" is rendered only with exactly
    three features held (line 298).
  - `GoBack` and `Submit` require the drawing view (lines 309-395).
- Within the picker the toggle is modelled as the handler is written,
  remove branch included, even though line 291 disables the button of a
  selected label (`Features.ButtonEnabled`).
- Every other handler requires only the class invariant and may be called
  in any view. Their controls exist only in the drawing view:
  - the colour input (lines 321-326);
  - the width slider (lines 332-339);
  - the tool buttons (lines 348-356);
  - the canvas (lines 362-370);
  - the textarea (lines 381-387).
  Allowing these calls elsewhere only adds behaviours to the model. Every
  contract still holds for the calls the component can make.

Consequences of the code worth knowing:

- Rectangles and lines are hit only strictly inside their box: the
  comparisons at src/PenGame.tsx:219-220 are strict, so pressing the corner
  where a box was just placed does not grab it (`Shapes.BoxMissesItsAnchor`).
- The handler removes a held label, but line 291 disables the button of a
  selected label, so through the picker only the append branch runs
  (`Features.EnabledButtonAppends`).
- The selection cannot change once the drawing view is shown, since the
  feature buttons are not rendered there; so exactly three features are
  held whenever the drawing view is on screen (`Game.PenGame.Valid`).
- The size handlers at src/PenGame.tsx:108-118 are bound to no control:
  the render (lines 255-401) wires `onChange` only at lines 324, 337 and
  386. So in the component, every shape keeps the initial size (100×100,
  radius 50). The model keeps `SetShapeWidth`, `SetShapeHeight` and
  `SetShapeRadius` as the handlers are written, callable directly.

## Model

| member | source | states |
|---|---|---|
| `Features.ButtonEnabled` | src/PenGame.tsx:291 | the enabling condition of a catalog button: an enabled button's label is not held and the selection is not full (the exact condition on a valid selection is in `Features.EnabledButtonAppends`) |
| `Features.Remove` | src/PenGame.tsx:86 | the filtered selection holds exactly the old labels other than the removed one, and is shorter when that label was held |
| `Features.Toggle` | src/PenGame.tsx:83-90 | the three cases in order: a held label is removed and no other label is lost or gained; otherwise it is appended at the end while fewer than 3 are held; otherwise nothing changes |
| `Features.RemoveAt` | src/PenGame.tsx:86 | in a duplicate-free selection, filtering the label at position i yields the selection with exactly that position cut out |
| `Features.ToggleRemovesInPlace` | src/PenGame.tsx:85-86 | toggling a held label removes it where it stands and keeps the other labels in their relative order |
| `Features.ToggleKeepsValid` | src/PenGame.tsx:83-90 | one toggle keeps the selection at most 3 long and free of duplicates |
| `Features.ToggleAllKeepsValid` | src/PenGame.tsx:83-90 | after any sequence of toggles from a valid selection it is still at most 3 long and duplicate-free; if only catalog labels are toggled, only catalog labels are held |
| `Features.EnabledButtonAppends` | src/PenGame.tsx:291 | a catalog button is enabled exactly when its label is absent and fewer than 3 are held, and pressing an enabled button appends its label, so the remove branch is unreachable from the picker |
| `Features.ToggleUndoesAppend` | src/PenGame.tsx:85-88 | toggling a label that was just appended gives back the previous selection |
| `Features.ToggleUndoesRemoveOfLast` | src/PenGame.tsx:85-88 | removing the last-added label and toggling it again gives back the previous selection |
| `Shapes.Hits` | src/PenGame.tsx:218-228 | the hit condition of one shape: only rectangles, lines and circles can be hit; a hit box has positive width and height, a hit circle a positive radius |
| `Shapes.TopmostHit` | src/PenGame.tsx:214-231 | the result is -1 or a valid index, and a returned index names a shape that contains the point |
| `Shapes.TopmostHitIsLastHit` | src/PenGame.tsx:216-230 | the hit test returns -1 exactly when no shape contains the point; otherwise it returns the largest index whose shape contains it |
| `Shapes.OtherKindsNeverHit` | src/PenGame.tsx:218-228 | in any collection, the hit test never returns a shape of a kind other than rectangle, line and circle; a collection of only such shapes is never hit |
| `Shapes.BoxMissesItsAnchor` | src/PenGame.tsx:219-220 | the box test is strict: a press at the corner of the rectangle or line placed last gets the same answer as before that shape was placed |
| `Shapes.CircleHitsItsCentre` | src/PenGame.tsx:223-226 | a press at the centre of the circle placed last, when its radius is positive, hits that circle |
| `Shapes.MoveTo` | src/PenGame.tsx:193-196 | one drag step keeps the number of shapes and puts shape i's anchor at the new position (the frame is in `Shapes.MoveToMovesOnlyAnchor`) |
| `Shapes.MoveToMovesOnlyAnchor` | src/PenGame.tsx:193-196 | a drag step sets the dragged shape's x and y; its other fields and every other shape are unchanged |
| `Shapes.MoveToTwice` | src/PenGame.tsx:193-198 | of two drag steps on the same shape only the later one determines the result |
| `Shapes.DragKeepsOffset` | src/PenGame.tsx:190-198 | after any non-empty run of moves during one drag, the dragged shape sits at the last pointer position minus the offset captured at the press, and nothing else moved |
| `Shapes.DragBackRestores` | src/PenGame.tsx:144-147 | with the offset taken at press point p, returning the pointer to p after any path restores the shape list exactly, over exact reals |
| `Shapes.Draw` | src/PenGame.tsx:242-251 | one shape paints one command if it is a rectangle, line or circle and none otherwise: a box outline exactly for rectangle and line, a circle outline exactly for a circle |
| `Shapes.Redraw` | src/PenGame.tsx:239-252 | a redraw issues at most one command per shape, and only box and circle outlines; no freehand ink survives it |
| `Shapes.RedrawAppend` | src/PenGame.tsx:161-164 | redrawing after placing a shape paints the earlier picture plus that shape's own outline on top |
| `Shapes.RedrawPaintsDrawable` | src/PenGame.tsx:241-252 | the k-th redraw command paints the k-th rectangle, line or circle in placement order: a box for rectangle and line, an arc for a circle, with the shape's own colour and width |
| `Game.PenGame.constructor` | src/PenGame.tsx:46-65 | initial state: no features, empty description, picker shown, black colour, width 4, freehand tool, sizes 100/100/50, no shapes, no gesture, no drag |
| `Game.PenGame.CanProceed` | src/PenGame.tsx:298-305 | the render condition of "Proceed" (picker shown, exactly 3 features held): whenever it holds, every catalog button is disabled |
| `Game.PenGame.Drawing` | src/PenGame.tsx:309-314 | the render condition of the drawing view (canvas, "Go Back", "Submit"): in a valid state it means exactly 3 features are held and "Proceed" is not rendered |
| `Game.PenGame.SelectFeature` | src/PenGame.tsx:83-90 | callable only on the picker, where the catalog buttons are; the selection becomes the toggle of the old one, the state invariant holds, and no other field changes |
| `Game.PenGame.Proceed` | src/PenGame.tsx:298-305 | callable only with the picker shown and exactly 3 features held; shows the drawing view and changes nothing else |
| `Game.PenGame.GoBack` | src/PenGame.tsx:372-379 | returns to the picker; shapes, description, settings and selection are untouched |
| `Game.PenGame.Submit` | src/PenGame.tsx:92-94 | from the drawing view, shows the thank-you view with no validation of the description or the shapes, and changes nothing else |
| `Game.PenGame.SetDescription` | src/PenGame.tsx:381-387 | stores the text; nothing else changes |
| `Game.PenGame.SetColor` | src/PenGame.tsx:96-98 | sets the stroke colour for later shapes and strokes; placed shapes are unchanged |
| `Game.PenGame.SetBrushSize` | src/PenGame.tsx:100-102 | sets the stroke width for later shapes and strokes; placed shapes are unchanged |
| `Game.PenGame.SelectTool` | src/PenGame.tsx:104-106 | sets the current tool; any gesture or drag in progress is left as it was |
| `Game.PenGame.SetShapeWidth` | src/PenGame.tsx:108-110 | sets the width for later shapes; placed shapes are unchanged |
| `Game.PenGame.SetShapeHeight` | src/PenGame.tsx:112-114 | sets the height for later shapes; placed shapes are unchanged |
| `Game.PenGame.SetShapeRadius` | src/PenGame.tsx:116-118 | sets the radius for later shapes; placed shapes are unchanged |
| `Game.PenGame.GetClickedShape` | src/PenGame.tsx:214-231 | the descending scan with early return computes the topmost hit (-1 when none) |
| `Game.PenGame.RedrawCanvas` | src/PenGame.tsx:234-253 | clearing and painting every shape in order leaves the canvas holding exactly the redraw of the current shapes |
| `Game.PenGame.StartStroke` | src/PenGame.tsx:129-139 | a freehand press starts drawing with the point buffer reset to the press point and opens a path with the current colour and width |
| `Game.PenGame.GrabShape` | src/PenGame.tsx:141-148 | grabbing shape i sets dragging to i and the offset to the press point minus the shape's anchor; the shape list is untouched |
| `Game.PenGame.PlaceShape` | src/PenGame.tsx:149-165 | appends exactly one shape with the current tool as kind, the press point as anchor and the current width, height, radius, colour and stroke width; ends any drag; the canvas shows the redraw |
| `Game.PenGame.MouseDown` | src/PenGame.tsx:121-167 | with no canvas nothing changes; freehand starts a stroke; otherwise the topmost hit shape is grabbed, or on a miss one shape is appended, the earlier ones unchanged; a drag always names a valid shape afterwards |
| `Game.PenGame.MouseMove` | src/PenGame.tsx:170-200 | freehand appends the point only while drawing; otherwise, while dragging shape d, only d's anchor moves, to the pointer minus the stored offset, and the canvas is redrawn; with no drag or no canvas nothing changes |
| `Game.PenGame.MouseUp` | src/PenGame.tsx:203-211 | ends only the current tool's session: freehand clears the drawing flag and keeps any drag; other tools clear the drag and keep the drawing flag |

The class invariant `Game.PenGame.Valid` is required and ensured by every
handler. It says:

- the selection has at most 3 labels and no duplicates;
- exactly 3 labels are held while the drawing view is shown;
- a drag names an existing shape, since shapes are only ever appended;
- a freehand stroke in progress has its starting point recorded;
- the thank-you view is only ever reached from the drawing view.

## Left out

- Rendering: the JSX, the styling and the button layout are not modelled.
  Three render conditions are kept as predicates: `Features.ButtonEnabled`,
  `Game.PenGame.CanProceed` and `Game.PenGame.Drawing`.
- Pixels: the canvas is modelled only as the list of commands issued since
  the last clear. `closePath` at mouse-up paints nothing and is not
  recorded. Freehand segments are recorded without the style they are
  painted in, because that style is whatever the context last had.
- Canvas and context guards: context acquisition in `componentDidMount` and
  `componentDidUpdate` is not modelled. The separate null checks on the
  canvas and on the context are merged into one `ready` flag per press and move
  handler.
- Stale context: the context that goes stale after "Go Back" is not
  modelled. "Proceed" mounts a new, blank canvas, but
  `componentDidUpdate` (src/PenGame.tsx:78) keeps the old context because
  `this.ctx` is already set. Later redraws and strokes then paint the
  detached canvas, and the visible canvas stays blank. The model has one
  `surface` and keeps painting it.
- Coordinates: the translation from `getBoundingClientRect` is DOM
  plumbing. The handlers take canvas coordinates directly.
- Numbers: `parseInt` producing `NaN` is not modelled; the setters take
  integers. Floating-point rounding and `Math.sqrt`/`Math.PI` are not
  modelled: positions are exact reals, and the circle test is squared.
- `Shapes.DragBackRestores`: holds over exact reals only. With doubles, the
  offset subtraction at src/PenGame.tsx:146-147 and the one at lines
  195-196 can round, so a shape dragged back to its press point may land a
  few units in the last place away from where it started.
- `Shapes.Redraw`: a circle with a negative radius makes `ctx.arc`
  (src/PenGame.tsx:249) throw, which ends the `forEach` at that circle. The
  model paints every shape regardless. Only the unbound `SetShapeRadius`
  could produce a negative radius, since the initial radius is 50.
- Asynchrony: React's asynchronous, batched `setState` is not modelled.
  Each handler is one atomic update.
- `Game.PenGame.MouseMove`: the freehand branch records only the new
  segment. In the component, `stroke()` at src/PenGame.tsx:184 repaints the
  whole path open since the last `beginPath`, and neither `clearRect`
  (line 239) nor `strokeRect` (line 246) resets that path. Released outside
  the canvas, a stroke stays open. A move after a redraw then repaints
  ink the redraw erased, in the last shape's style (lines 242-243), or,
  when a circle was drawn last, the arc plus a line from it.
- `Game.PenGame.MouseMove`: the dragged `Shape` object is mutated in place
  on a shallow copy of the array, so the previous state's array sees the
  change too. The model replaces the element in a sequence and does not
  capture that sharing.
