/** Client code driving a session through whole gestures, showing what the handler
    contracts let a caller conclude. */
module Scenarios {
  import opened Strokes
  import opened Canvas

  /** A left-button drag from (0, 0) to (1, 1) in the identity view commits one
      stroke of one segment and broadcasts exactly that history to the room. */
  method DrawOneSegment(room: string) returns (history: seq<Stroke>, outbox: seq<Message>)
    ensures history == [[Segment(0.0, 0.0, 1.0, 1.0)]]
    ensures outbox == [Message(room, history)]
  {
    var session := new Session(room);
    session.OnMouseDown(LeftButton, 0.0, 0.0);
    session.OnMouseMove(1.0, 1.0);
    assert session.currentStroke == [Segment(0.0, 0.0, 1.0, 1.0)];
    session.OnMouseUp();
    history, outbox := session.drawings, session.sent;
  }

  /** After a stroke is drawn, a right-button pan and its release commit the same
      stroke a second time, because the release does not clear the stroke in
      progress. */
  method PanAfterStrokeRecommits() returns (history: seq<Stroke>, offsetX: real)
    ensures |history| == 2 && history[0] == history[1] == [Segment(0.0, 0.0, 1.0, 1.0)]
    ensures offsetX == 5.0
  {
    var session := new Session("room");
    session.OnMouseDown(LeftButton, 0.0, 0.0);
    session.OnMouseMove(1.0, 1.0);
    assert session.currentStroke == [Segment(0.0, 0.0, 1.0, 1.0)];
    session.OnMouseUp();
    session.OnMouseDown(RightButton, 10.0, 10.0);
    session.OnMouseMove(15.0, 10.0);
    session.OnMouseUp();
    history, offsetX := session.drawings, session.offsetX;
  }

  /** With a history of one stroke, Ctrl+Z empties the history onto the undo stack
      and Ctrl+Y puts the stroke back and empties the undo stack; each broadcasts
      the history once. */
  method UndoRedoOneStroke() returns (afterUndo: Stacks, afterRedo: Stacks, broadcasts: nat)
    ensures afterUndo == Stacks([], [[Segment(0.0, 0.0, 1.0, 1.0)]])
    ensures afterRedo == Stacks([[Segment(0.0, 0.0, 1.0, 1.0)]], [])
    ensures broadcasts == 2
  {
    var stroke := [Segment(0.0, 0.0, 1.0, 1.0)];
    var session := new Session("room");
    session.ReceiveSnapshot(StrokeArray([stroke]));
    assert session.History() == Stacks([stroke], []) && session.sent == [];
    UndoMovesLastStroke(session.History());
    session.OnKeyDown(true, "z");
    afterUndo := session.History();
    assert afterUndo == Stacks([], [stroke]) && |session.sent| == 1;
    RedoMovesTopStroke(afterUndo);
    session.OnKeyDown(true, "y");
    afterRedo := session.History();
    broadcasts := |session.sent|;
  }

  /** A remote snapshot replaces the history with exactly the received strokes and
      leaves the undo stack of the local session as it was. */
  method SnapshotKeepsUndoStack() returns (before: Stacks, after: Stacks)
    ensures before == Stacks([], [[Segment(0.0, 0.0, 1.0, 1.0)]])
    ensures after == Stacks([[Segment(2.0, 3.0, 4.0, 5.0)]], [[Segment(0.0, 0.0, 1.0, 1.0)]])
  {
    var session := new Session("room");
    session.OnMouseDown(LeftButton, 0.0, 0.0);
    session.OnMouseMove(1.0, 1.0);
    assert session.currentStroke == [Segment(0.0, 0.0, 1.0, 1.0)];
    session.OnMouseUp();
    assert session.History() == Stacks([[Segment(0.0, 0.0, 1.0, 1.0)]], []);
    session.Undo();
    before := session.History();
    session.ReceiveSnapshot(StrokeArray([[Segment(2.0, 3.0, 4.0, 5.0)]]));
    session.ReceiveSnapshot(NotArray);
    after := session.History();
  }

  /** A remote snapshot keeps the local undo stack, so after undoing a stroke and
      receiving a snapshot that still holds it, redo leaves that stroke in the
      history twice. */
  method SnapshotThenRedoDuplicates(stroke: Stroke) returns (history: seq<Stroke>)
    ensures history == [stroke, stroke]
  {
    var session := new Session("room");
    session.ReceiveSnapshot(StrokeArray([stroke]));
    assert session.History() == Stacks([stroke], []);
    UndoMovesLastStroke(session.History());
    session.Undo();
    assert session.undoStack == [stroke];
    session.ReceiveSnapshot(StrokeArray([stroke]));
    assert session.History() == Stacks([stroke], [stroke]);
    RedoMovesTopStroke(session.History());
    session.Redo();
    history := session.drawings;
  }
}
