# Collaborative canvas: the client drawing session

A Dafny model of the client-side drawing state of the `notetaking` collaborative
canvas (`notetaking/static/script.js`). A page holds one drawing session: the
history of committed strokes (`drawings`), the stack of undone strokes
(`undoStack`), the stroke being drawn (`currentStroke`), the left/right button
flags, the cursor, and the per-client view (`offsetX`, `offsetY`, `scale`).
Strokes are stored in true coordinates; pointer events and drawn lines are in
screen coordinates, related by `screen = (true + offset) * scale`.

- `transform.dfy`, module `Transform`: the coordinate conversions and the pan and
  wheel formulas, with their inverse and displacement laws.
- `strokes.dfy`, module `Strokes`: segments, strokes, the history/undo-stack pair
  as a value, and undo, redo and commit as functions. Their contracts are stated
  through one invariant: the *timeline* `drawings + reverse(undoStack)`. Undo and
  redo move a cursor along an unchanged timeline, and a state is determined by its
  timeline and the length of its history, which gives the round-trip laws.
- `canvas.dfy`, module `Canvas`: class `Session`, one method per event handler,
  each changing only the fields its frame names and stating its whole new state.
  Every snapshot the page broadcasts to the room is appended to the field `sent`.
- `scenarios.dfy`, module `Scenarios`: client methods that drive a session
  through whole gestures using only the handler contracts.

The model follows the code as written: a remote snapshot leaves the undo stack as it was; mouse-up
commits whenever the stroke in progress is non-empty, whichever button was
released, and does not clear it; the wheel handler neither clamps the scale nor
keeps the point under the cursor fixed (`ZoomKeepsPositiveScaleIff`,
`ZoomMovesCursorPoint`).

## Model

| member | source | states |
|---|---|---|
| Transform.ToScreen | notetaking/static/script.js:21-22 | `toScreenX/Y`: for a non-zero scale the true coordinate is recovered as `screen / scale - offset` (laws: `TrueOfScreen`, `ScreenOfTrue`) |
| Transform.ToTrue | notetaking/static/script.js:23-24 | `toTrueX/Y`: the result is the true point that `toScreen` shows at the given screen coordinate |
| Transform.Panned | notetaking/static/script.js:79-80 | the pan update of one axis leaves the offset unchanged exactly when the cursor did not move (laws: `PanShiftsScreen`, `PanKeepsGrabbedPoint`) |
| Transform.ZoomAmount | notetaking/static/script.js:99 | `scaleAmount` is positive exactly when `deltaY < 0`, negative exactly when `deltaY > 0`, and 1 at `deltaY == -500` |
| Transform.Zoomed | notetaking/static/script.js:100 | from a positive scale the wheel zooms in exactly when `deltaY < 0` and out exactly when `deltaY > 0` (positivity: `ZoomKeepsPositiveScaleIff`) |
| Transform.ZoomedOffset | notetaking/static/script.js:102-109 | the wheel's offset update leaves the offset unchanged exactly when `deltaY == 0` or the pointer is at 0 on that axis (value: `ZoomedOffsetShift`) |
| Transform.TrueOfScreen | notetaking/static/script.js:21-24 | for a non-zero scale, `toTrueX(toScreenX(x)) == x` (one formula serves both axes) |
| Transform.ScreenOfTrue | notetaking/static/script.js:21-24 | for a non-zero scale, `toScreenX(toTrueX(x)) == x` |
| Transform.PanShiftsScreen | notetaking/static/script.js:78-80 | after a panning move every true point's screen coordinate shifts by exactly `cursorX - prevCursorX` |
| Transform.PanKeepsGrabbedPoint | notetaking/static/script.js:78-80 | the true point under the previous cursor is under the current cursor after the pan |
| Transform.ZoomedOffsetShift | notetaking/static/script.js:102-109 | the wheel's offset change is `deltaY * page / 500`, independent of the canvas size |
| Transform.ZoomKeepsPositiveScaleIff | notetaking/static/script.js:99-100 | from a positive scale the new scale is positive iff `deltaY < 500`; `deltaY == 500` makes it zero |
| Transform.ZoomMovesCursorPoint | notetaking/static/script.js:98-109 | a zoom-in at x = 100 from the identity view moves the true point under the cursor from 100 to 150 |
| Strokes.SegmentBetween | notetaking/static/script.js:68-75 | the stored true-space segment, drawn back in the same view, lands exactly on the screen line the move draws |
| Strokes.AfterUndo | notetaking/static/script.js:124-126 | undo keeps the timeline and total length, and shortens a non-empty history by one (empty: no change) |
| Strokes.AfterRedo | notetaking/static/script.js:133-135 | redo keeps the timeline and total length, and lengthens the history by one when the undo stack is non-empty |
| Strokes.AfterCommit | notetaking/static/script.js:91-94 | commit of a non-empty stroke makes the timeline the old history plus that stroke and empties the undo stack; an empty stroke changes nothing |
| Strokes.UndoMovesLastStroke | notetaking/static/script.js:124-126 | undo removes exactly the last stroke and pushes that same stroke on the undo stack, earlier strokes unchanged |
| Strokes.RedoMovesTopStroke | notetaking/static/script.js:133-135 | redo pops exactly the top of the undo stack and appends it to the history |
| Strokes.UndoThenRedo | notetaking/static/script.js:124-139 | undo then redo on a non-empty history restores history and undo stack exactly |
| Strokes.RedoThenUndo | notetaking/static/script.js:124-139 | redo then undo on a non-empty undo stack restores both exactly |
| Strokes.CommitDropsRedoPath | notetaking/static/script.js:88-96 | after undo and a new commit nothing can be redone, and undo offers only the new stroke back |
| Strokes.Undos | notetaking/static/script.js:124-130 | n undos keep the timeline and shorten the history by n (down to empty) |
| Strokes.Redos | notetaking/static/script.js:133-139 | n redos keep the timeline and lengthen the history by n (up to the whole undo stack) |
| Strokes.UndosThenRedos | notetaking/static/script.js:124-139 | n undos followed by n redos, n at most the history length, restore the state exactly |
| Strokes.RedosThenUndos | notetaking/static/script.js:124-139 | n redos followed by n undos, n at most the undo-stack length, restore the state exactly |
| Strokes.Replay | notetaking/static/script.js:142-151 | a run of Ctrl+Z / Ctrl+Y dispatches keeps the total number of strokes in history and undo stack (timeline: `ReplayKeepsTimeline`) |
| Strokes.ReplayKeepsTimeline | notetaking/static/script.js:142-151 | any run of Ctrl+Z / Ctrl+Y keeps the timeline, so the history stays a prefix of it |
| Canvas.Session.constructor | notetaking/static/script.js:9-18 | a new session: empty history, undo stack and stroke, no gesture, offsets 0, scale 1, nothing sent |
| Canvas.Session.OnMouseDown | notetaking/static/script.js:51-63 | the left button sets its flag and resets the stroke, the right button sets its flag, the cursor and previous cursor become the pointer |
| Canvas.Session.OnMouseMove | notetaking/static/script.js:65-86 | appends exactly one segment (previous to current cursor, in the pre-pan view) only while left is down; pans only while right is down; always advances the cursor |
| Canvas.Session.OnMouseUp | notetaking/static/script.js:88-96 | clears both flags; the history becomes `AfterCommit` of the kept stroke in progress; broadcasts the new history only when that stroke is non-empty |
| Canvas.Session.OnMouseWheel | notetaking/static/script.js:98-112 | scale multiplied by `1 - deltaY / 500`, offsets shifted by the wheel formula, nothing clamped |
| Canvas.Session.Undo | notetaking/static/script.js:124-130 | history and undo stack become `AfterUndo` of the old ones; broadcasts only when the history was non-empty |
| Canvas.Session.Redo | notetaking/static/script.js:133-139 | history and undo stack become `AfterRedo` of the old ones; broadcasts only when the undo stack was non-empty |
| Canvas.Session.OnKeyDown | notetaking/static/script.js:142-151 | Ctrl+Z undoes, Ctrl+Y redoes, any other key changes nothing and sends nothing |
| Canvas.Session.ReceiveSnapshot | notetaking/static/script.js:157-176 | an array payload becomes the history, order preserved; any other payload is ignored; the undo stack is never touched |
| Scenarios.DrawOneSegment | notetaking/static/script.js:51-96 | a drag from (0,0) to (1,1) in the identity view gives history `[[{0,0,1,1}]]` and broadcasts exactly that to the room |
| Scenarios.PanAfterStrokeRecommits | notetaking/static/script.js:78-96 | releasing the right button after a pan commits the previous stroke again |
| Scenarios.UndoRedoOneStroke | notetaking/static/script.js:124-151 | from a history of one stroke, Ctrl+Z gives `([], [s])`, Ctrl+Y gives `([s], [])`, one broadcast each |
| Scenarios.SnapshotKeepsUndoStack | notetaking/static/script.js:157-164 | a snapshot replaces the history by exactly the received strokes and keeps the local undo stack |
| Scenarios.SnapshotThenRedoDuplicates | notetaking/static/script.js:124-164 | for any stroke, undo, a snapshot still holding it, and redo leave the history holding it twice, because the snapshot kept the undo stack |

`ReceiveSnapshot` models both remote handlers, the one for the `drawing` event
(lines 157-164) and the one for `new connections established` (lines 170-176),
whose bodies are identical.

## Left out

- Rendering (`redrawCanvas`, `drawLine`, canvas sizing and fill): drawing side effects with no model state.
- The Socket.IO transport (`io.connect`, the `connect` handler sending `join_room`, delivery of emitted messages): network I/O; the page's broadcasts are recorded as `Message` values in `sent`.
- The room-name prompt, the disabled context menu, listener registration, `console.log` and `preventDefault`: browser I/O.
- `notetaking/app.py`, the relay server, is not part of this model.
- Floating point: coordinates are reals, so rounding, `NaN` and infinities are not modelled.
- Canvas.Session.OnMouseMove: requires a non-zero scale while a button is down, because the true-space conversion and the pan divide by it; the code runs on with infinite or `NaN` coordinates once the wheel has made the scale zero (`deltaY == 500`, see `ZoomKeepsPositiveScaleIff`).
- Canvas.Session.OnMouseWheel: requires a non-zero canvas width and height, which the code divides by.
- Canvas.Session.constructor: the cursor variables start `undefined` in the code and at 0 here; the first move with no button down only computes unused values from them, and any button press overwrites them.
- Canvas.Session.ReceiveSnapshot: an array payload is taken to hold strokes of well-formed segments; arrays of other shapes, and what the JSON deep copy does to them, are not modelled.
- The ordering between local broadcasts and remote snapshots across clients (last snapshot wins) is not modelled; each handler is modelled as one atomic step.
