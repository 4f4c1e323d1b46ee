/** The page-level drawing session: history, undo stack, the stroke in progress,
    the two gesture flags, the cursor and the view, updated in place by one method
    per event handler. Rendering is not modelled; each snapshot broadcast to the
    room is recorded in `sent`. */
module Canvas {
  import opened Transform
  import opened Strokes

  /** A history snapshot broadcast to the room. */
  datatype Message = Message(room: string, drawings: seq<Stroke>)

  /** Pointer buttons as numbered by mouse events. */
  const LeftButton: int := 0
  const RightButton: int := 2

  class Session {
    const roomName: string
    var drawings: seq<Stroke>
    var undoStack: seq<Stroke>
    var currentStroke: Stroke
    var leftMouseDown: bool
    var rightMouseDown: bool
    var cursorX: real
    var cursorY: real
    var prevCursorX: real
    var prevCursorY: real
    var offsetX: real
    var offsetY: real
    var scale: real
    var sent: seq<Message>

    /** The history and the undo stack as one value. */
    function History(): Stacks
      reads this
    {
      Stacks(drawings, undoStack)
    }

    /** A fresh session for the room: nothing drawn, identity view, no gesture. */
    constructor (room: string)
      ensures roomName == room
      ensures drawings == [] && undoStack == [] && currentStroke == [] && sent == []
      ensures !leftMouseDown && !rightMouseDown
      ensures offsetX == 0.0 && offsetY == 0.0 && scale == 1.0
      ensures cursorX == 0.0 && cursorY == 0.0 && prevCursorX == 0.0 && prevCursorY == 0.0
    {
      roomName := room;
      drawings, undoStack, currentStroke, sent := [], [], [], [];
      leftMouseDown, rightMouseDown := false, false;
      offsetX, offsetY, scale := 0.0, 0.0, 1.0;
      cursorX, cursorY, prevCursorX, prevCursorY := 0.0, 0.0, 0.0, 0.0;
    }

    /** Button press: the left button starts a new stroke, the right one starts
        panning; any press anchors the cursor at the pointer. */
    method OnMouseDown(button: int, pageX: real, pageY: real)
      modifies this`leftMouseDown, this`rightMouseDown, this`currentStroke
      modifies this`cursorX, this`cursorY, this`prevCursorX, this`prevCursorY
      ensures leftMouseDown == (old(leftMouseDown) || button == LeftButton)
      ensures rightMouseDown == (old(rightMouseDown) || button == RightButton)
      ensures currentStroke == if button == LeftButton then [] else old(currentStroke)
      ensures cursorX == pageX && cursorY == pageY
      ensures prevCursorX == pageX && prevCursorY == pageY
    {
      if button == LeftButton {
        leftMouseDown := true;
        currentStroke := [];
      }
      if button == RightButton {
        rightMouseDown := true;
      }
      cursorX := pageX;
      cursorY := pageY;
      prevCursorX := cursorX;
      prevCursorY := cursorY;
    }

    /** Pointer move: while the left button is down the stroke grows by the segment
        from the previous to the current cursor, both taken to true space in the view
        before any pan; while the right button is down the view pans by the cursor's
        displacement; the cursor always advances. */
    method OnMouseMove(pageX: real, pageY: real)
      requires leftMouseDown || rightMouseDown ==> scale != 0.0
      modifies this`currentStroke, this`offsetX, this`offsetY
      modifies this`cursorX, this`cursorY, this`prevCursorX, this`prevCursorY
      ensures currentStroke == if leftMouseDown
        then old(currentStroke) + [SegmentBetween(old(prevCursorX), old(prevCursorY), pageX, pageY,
                                                  old(offsetX), old(offsetY), scale)]
        else old(currentStroke)
      ensures offsetX == if rightMouseDown then Panned(old(offsetX), scale, old(prevCursorX), pageX) else old(offsetX)
      ensures offsetY == if rightMouseDown then Panned(old(offsetY), scale, old(prevCursorY), pageY) else old(offsetY)
      ensures cursorX == pageX && cursorY == pageY
      ensures prevCursorX == pageX && prevCursorY == pageY
    {
      cursorX := pageX;
      cursorY := pageY;

      if leftMouseDown {
        var scaledX := ToTrue(cursorX, offsetX, scale);
        var scaledY := ToTrue(cursorY, offsetY, scale);
        var prevScaledX := ToTrue(prevCursorX, offsetX, scale);
        var prevScaledY := ToTrue(prevCursorY, offsetY, scale);
        currentStroke := currentStroke + [Segment(prevScaledX, prevScaledY, scaledX, scaledY)];
      }

      if rightMouseDown {
        offsetX := offsetX + (cursorX - prevCursorX) / scale;
        offsetY := offsetY + (cursorY - prevCursorY) / scale;
      }

      prevCursorX := cursorX;
      prevCursorY := cursorY;
    }

    /** Button release, whichever button: both gestures end, and a non-empty stroke
        in progress is committed and the new history broadcast. The stroke in
        progress is kept, so a later release commits it again. */
    method OnMouseUp()
      modifies this`leftMouseDown, this`rightMouseDown, this`drawings, this`undoStack, this`sent
      ensures !leftMouseDown && !rightMouseDown
      ensures History() == AfterCommit(old(History()), currentStroke)
      ensures sent == if currentStroke == [] then old(sent) else old(sent) + [Message(roomName, drawings)]
    {
      leftMouseDown := false;
      rightMouseDown := false;
      if |currentStroke| > 0 {
        drawings := drawings + [currentStroke];
        sent := sent + [Message(roomName, drawings)];
        undoStack := [];
      }
    }

    /** Wheel: the scale is multiplied by 1 - deltaY / 500 and the offsets shifted,
        with no clamp; `clientWidth` and `clientHeight` are the canvas size. */
    method OnMouseWheel(deltaY: real, pageX: real, pageY: real, clientWidth: real, clientHeight: real)
      requires clientWidth != 0.0 && clientHeight != 0.0
      modifies this`scale, this`offsetX, this`offsetY
      ensures scale == Zoomed(old(scale), deltaY)
      ensures offsetX == ZoomedOffset(old(offsetX), deltaY, pageX, clientWidth)
      ensures offsetY == ZoomedOffset(old(offsetY), deltaY, pageY, clientHeight)
    {
      var scaleAmount := -deltaY / WheelSensitivity;
      scale := scale * (1.0 + scaleAmount);

      var distX := pageX / clientWidth;
      var distY := pageY / clientHeight;

      var unitsZoomedX := clientWidth * scaleAmount;
      var unitsZoomedY := clientHeight * scaleAmount;

      offsetX := offsetX - unitsZoomedX * distX;
      offsetY := offsetY - unitsZoomedY * distY;
    }

    /** Undo: moves the last stroke of a non-empty history to the undo stack and
        broadcasts the history; does nothing on an empty history. */
    method Undo()
      modifies this`drawings, this`undoStack, this`sent
      ensures History() == AfterUndo(old(History()))
      ensures sent == if old(drawings) == [] then old(sent) else old(sent) + [Message(roomName, drawings)]
    {
      if |drawings| > 0 {
        var last := drawings[|drawings| - 1];
        drawings := drawings[..|drawings| - 1];
        undoStack := undoStack + [last];
        sent := sent + [Message(roomName, drawings)];
      }
    }

    /** Redo: moves the top of a non-empty undo stack back to the end of the history
        and broadcasts the history; does nothing on an empty undo stack. */
    method Redo()
      modifies this`drawings, this`undoStack, this`sent
      ensures History() == AfterRedo(old(History()))
      ensures sent == if old(undoStack) == [] then old(sent) else old(sent) + [Message(roomName, drawings)]
    {
      if |undoStack| > 0 {
        var top := undoStack[|undoStack| - 1];
        undoStack := undoStack[..|undoStack| - 1];
        drawings := drawings + [top];
        sent := sent + [Message(roomName, drawings)];
      }
    }

    /** Key press: Ctrl+Z undoes, Ctrl+Y redoes, anything else is ignored. */
    method OnKeyDown(ctrlKey: bool, key: string)
      modifies this`drawings, this`undoStack, this`sent
      ensures History() ==
        if ctrlKey && key == "z" then AfterUndo(old(History()))
        else if ctrlKey && key == "y" then AfterRedo(old(History()))
        else old(History())
      ensures sent ==
        if (ctrlKey && key == "z" && old(drawings) != []) || (ctrlKey && key == "y" && old(undoStack) != [])
        then old(sent) + [Message(roomName, drawings)]
        else old(sent)
    {
      if ctrlKey && key == "z" {
        Undo();
      }
      if ctrlKey && key == "y" {
        Redo();
      }
    }

    /** A remote snapshot (sent to the whole room on a change, or to a newcomer on
        joining): an array replaces the history as it is, in order; anything else is
        ignored. The undo stack is kept in either case. */
    method ReceiveSnapshot(payload: Payload)
      modifies this`drawings
      ensures drawings == if payload.StrokeArray? then payload.strokes else old(drawings)
    {
      if payload.StrokeArray? {
        drawings := payload.strokes;
      }
    }
  }
}
