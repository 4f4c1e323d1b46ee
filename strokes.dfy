/** The stroke model: segments, strokes, the history of committed strokes and the
    stack of undone ones, with the history operations as functions on values.

    The two sequences together describe one timeline: the history followed by the
    undone strokes, most recently undone first. Undo and redo move a cursor along
    that timeline without changing it; a commit cuts it at the cursor and appends. */
module Strokes {
  import opened Transform

  /** One drawn line between two consecutive pointer samples, in true coordinates. */
  datatype Segment = Segment(x0: real, y0: real, x1: real, y1: real)

  /** The segments of one press-drag-release gesture, in drawing order. */
  type Stroke = seq<Segment>

  /** The committed history and the undo stack (top of stack last). */
  datatype Stacks = Stacks(drawings: seq<Stroke>, undoStack: seq<Stroke>)

  /** What a remote snapshot event carries: an array of strokes, or anything else. */
  datatype Payload = StrokeArray(strokes: seq<Stroke>) | NotArray

  /** The keyboard chords that reach the history. */
  datatype Key = UndoKey | RedoKey

  /** The segment a pointer move from screen point (px, py) to (cx, cy) appends to a
      stroke. Drawn back in the same view, it lands exactly on the screen line that
      the move itself draws. */
  function SegmentBetween(px: real, py: real, cx: real, cy: real,
                          offsetX: real, offsetY: real, scale: real): (r: Segment)
    requires scale != 0.0
    ensures ToScreen(r.x0, offsetX, scale) == px && ToScreen(r.y0, offsetY, scale) == py
    ensures ToScreen(r.x1, offsetX, scale) == cx && ToScreen(r.y1, offsetY, scale) == cy
  {
    ScreenOfTrue(px, offsetX, scale);
    ScreenOfTrue(py, offsetY, scale);
    ScreenOfTrue(cx, offsetX, scale);
    ScreenOfTrue(cy, offsetY, scale);
    Segment(ToTrue(px, offsetX, scale), ToTrue(py, offsetY, scale),
            ToTrue(cx, offsetX, scale), ToTrue(cy, offsetY, scale))
  }

  function Reversed(s: seq<Stroke>): (r: seq<Stroke>)
    ensures |r| == |s|
  {
    if s == [] then [] else [s[|s| - 1]] + Reversed(s[..|s| - 1])
  }

  lemma {:induction false} ReversedInjective(a: seq<Stroke>, b: seq<Stroke>)
    requires Reversed(a) == Reversed(b)
    ensures a == b
  {
    if a != [] {
      var m := |a| - 1;
      assert Reversed(a)[1..] == Reversed(a[..m]);
      assert Reversed(b)[1..] == Reversed(b[..m]);
      ReversedInjective(a[..m], b[..m]);
      assert a == a[..m] + [a[m]];
      assert b == b[..m] + [b[m]];
    }
  }

  /** Every stroke reachable by undo and redo, in redo order after the history. */
  function Timeline(s: Stacks): seq<Stroke>
  {
    s.drawings + Reversed(s.undoStack)
  }

  /** A state is determined by its timeline and the length of its history. */
  lemma TimelineDeterminesStacks(a: Stacks, b: Stacks)
    requires Timeline(a) == Timeline(b)
    requires |a.drawings| == |b.drawings|
    ensures a == b
  {
    var k := |a.drawings|;
    assert a.drawings == Timeline(a)[..k];
    assert b.drawings == Timeline(b)[..k];
    assert Reversed(a.undoStack) == Timeline(a)[k..];
    assert Reversed(b.undoStack) == Timeline(b)[k..];
    ReversedInjective(a.undoStack, b.undoStack);
  }

  /** Undo: with a non-empty history, the cursor moves one stroke back along an
      unchanged timeline; with an empty history nothing changes. */
  function AfterUndo(s: Stacks): (r: Stacks)
    ensures |r.drawings| == if s.drawings == [] then 0 else |s.drawings| - 1
    ensures |r.drawings| + |r.undoStack| == |s.drawings| + |s.undoStack|
    ensures Timeline(r) == Timeline(s)
  {
    if s.drawings == [] then s
    else
      var n := |s.drawings| - 1;
      var top := s.drawings[n];
      assert (s.undoStack + [top])[..|s.undoStack|] == s.undoStack;
      assert s.drawings[..n] + [top] == s.drawings;
      Stacks(s.drawings[..n], s.undoStack + [top])
  }

  /** Redo: with a non-empty undo stack, the cursor moves one stroke forward along
      an unchanged timeline; with an empty undo stack nothing changes. */
  function AfterRedo(s: Stacks): (r: Stacks)
    ensures |r.drawings| == if s.undoStack == [] then |s.drawings| else |s.drawings| + 1
    ensures |r.drawings| + |r.undoStack| == |s.drawings| + |s.undoStack|
    ensures Timeline(r) == Timeline(s)
  {
    if s.undoStack == [] then s
    else
      var m := |s.undoStack| - 1;
      var top := s.undoStack[m];
      assert Reversed(s.undoStack) == [top] + Reversed(s.undoStack[..m]);
      Stacks(s.drawings + [top], s.undoStack[..m])
  }

  /** Commit of the stroke in progress: a non-empty stroke ends the timeline right
      after the current history and leaves nothing to redo; an empty one changes nothing. */
  function AfterCommit(s: Stacks, stroke: Stroke): (r: Stacks)
    ensures stroke == [] ==> r == s
    ensures stroke != [] ==> Timeline(r) == s.drawings + [stroke] && r.undoStack == []
  {
    if stroke == [] then s else Stacks(s.drawings + [stroke], [])
  }

  /** Undo on a non-empty history moves exactly its last stroke to the top of the
      undo stack and keeps every earlier stroke. */
  lemma UndoMovesLastStroke(s: Stacks)
    requires s.drawings != []
    ensures AfterUndo(s).drawings + [s.drawings[|s.drawings| - 1]] == s.drawings
    ensures AfterUndo(s).undoStack == s.undoStack + [s.drawings[|s.drawings| - 1]]
  {
  }

  /** Redo on a non-empty undo stack moves exactly its top stroke to the end of the history. */
  lemma RedoMovesTopStroke(s: Stacks)
    requires s.undoStack != []
    ensures AfterRedo(s).drawings == s.drawings + [s.undoStack[|s.undoStack| - 1]]
    ensures AfterRedo(s).undoStack + [s.undoStack[|s.undoStack| - 1]] == s.undoStack
  {
  }

  /** Undo followed by redo restores a non-empty history and its undo stack exactly. */
  lemma UndoThenRedo(s: Stacks)
    requires s.drawings != []
    ensures AfterRedo(AfterUndo(s)) == s
  {
    TimelineDeterminesStacks(AfterRedo(AfterUndo(s)), s);
  }

  /** Redo followed by undo restores a non-empty undo stack and the history exactly. */
  lemma RedoThenUndo(s: Stacks)
    requires s.undoStack != []
    ensures AfterUndo(AfterRedo(s)) == s
  {
    TimelineDeterminesStacks(AfterUndo(AfterRedo(s)), s);
  }

  /** A commit after an undo loses the undone stroke for good: nothing is left to
      redo, and undoing the new stroke offers only the new stroke back. */
  lemma CommitDropsRedoPath(s: Stacks, stroke: Stroke)
    requires s.drawings != [] && stroke != []
    ensures AfterRedo(AfterCommit(AfterUndo(s), stroke)) == AfterCommit(AfterUndo(s), stroke)
    ensures AfterUndo(AfterCommit(AfterUndo(s), stroke)) == Stacks(AfterUndo(s).drawings, [stroke])
  {
    var u := AfterUndo(s);
    var c := AfterCommit(u, stroke);
    assert c.undoStack == [];
    assert Timeline(c) == c.drawings;
    assert c.drawings == u.drawings + [stroke];
    TimelineDeterminesStacks(AfterUndo(c), Stacks(u.drawings, [stroke]));
  }

  /** `n` undos in a row. */
  function Undos(s: Stacks, n: nat): (r: Stacks)
    ensures Timeline(r) == Timeline(s)
    ensures |r.drawings| == if n <= |s.drawings| then |s.drawings| - n else 0
    decreases n
  {
    if n == 0 then s else Undos(AfterUndo(s), n - 1)
  }

  /** `n` redos in a row. */
  function Redos(s: Stacks, n: nat): (r: Stacks)
    ensures Timeline(r) == Timeline(s)
    ensures |r.drawings| == if n <= |s.undoStack| then |s.drawings| + n else |s.drawings| + |s.undoStack|
    decreases n
  {
    if n == 0 then s else Redos(AfterRedo(s), n - 1)
  }

  /** Undoing `n` strokes and redoing `n` restores the state exactly. */
  lemma {:induction false} UndosThenRedos(s: Stacks, n: nat)
    requires n <= |s.drawings|
    ensures Redos(Undos(s, n), n) == s
  {
    TimelineDeterminesStacks(Redos(Undos(s, n), n), s);
  }

  /** Redoing `n` strokes and undoing `n` restores the state exactly. */
  lemma {:induction false} RedosThenUndos(s: Stacks, n: nat)
    requires n <= |s.undoStack|
    ensures Undos(Redos(s, n), n) == s
  {
    TimelineDeterminesStacks(Undos(Redos(s, n), n), s);
  }

  /** The state after a run of undo and redo chords; no stroke is created or lost. */
  function Replay(s: Stacks, keys: seq<Key>): (r: Stacks)
    ensures |r.drawings| + |r.undoStack| == |s.drawings| + |s.undoStack|
    decreases keys
  {
    if keys == [] then s
    else Replay(if keys[0] == UndoKey then AfterUndo(s) else AfterRedo(s), keys[1..])
  }

  /** No run of undo and redo chords adds, loses or reorders a stroke: the timeline
      survives, so the history is always a prefix of it. */
  lemma {:induction false} ReplayKeepsTimeline(s: Stacks, keys: seq<Key>)
    ensures Timeline(Replay(s, keys)) == Timeline(s)
    ensures Replay(s, keys).drawings <= Timeline(s)
    decreases keys
  {
    if keys != [] {
      ReplayKeepsTimeline(if keys[0] == UndoKey then AfterUndo(s) else AfterRedo(s), keys[1..]);
    }
  }
}
