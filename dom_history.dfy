/**
 * The undo/redo history of the DOM script (whiteboard.js at the top of the
 * static folder). Snapshots are taken AFTER each change, as in the canvas
 * script, but undo and redo work differently: undo needs only one entry; it
 * pushes a snapshot of the board as it is now onto the redo stack and
 * restores the entry it pops. Redo is the mirror image. Committing is
 * Stacks.Commit.
 */
module DomHistory {
  import opened Stacks

  /** undo: nothing when the undo stack is empty; otherwise `current` goes onto the redo stack and the top is popped. */
  function Undo<S>(h: History<S>, current: S): (r: History<S>)
    ensures h.undo == [] ==> r == h
    ensures h.undo != [] ==>
              && r.undo == h.undo[..|h.undo| - 1]
              && r.redo == h.redo + [current]
    ensures |r.undo| + |r.redo| == |h.undo| + |h.redo|
  {
    if h.undo == [] then h
    else History(h.undo[..|h.undo| - 1], h.redo + [current])
  }

  /** What a successful undo puts back on the board: the entry it popped. */
  function Undone<S>(h: History<S>): S
    requires h.undo != []
  {
    Top(h)
  }

  /** redo: nothing when the redo stack is empty; otherwise `current` goes onto the undo stack and the redo top is popped. */
  function Redo<S>(h: History<S>, current: S): (r: History<S>)
    ensures h.redo == [] ==> r == h
    ensures h.redo != [] ==>
              && r.redo == h.redo[..|h.redo| - 1]
              && r.undo == h.undo + [current]
    ensures |r.undo| + |r.redo| == |h.undo| + |h.redo|
  {
    if h.redo == [] then h
    else History(h.undo + [current], h.redo[..|h.redo| - 1])
  }

  /** What a successful redo puts back on the board: the entry it popped. */
  function Redone<S>(h: History<S>): S
    requires h.redo != []
  {
    h.redo[|h.redo| - 1]
  }

  /**
   * An undo immediately followed by a redo puts back what the board showed
   * before the undo, leaves the redo stack as it was, and leaves the undo
   * stack with its top replaced by the snapshot taken at redo time.
   */
  lemma UndoThenRedo<S>(h: History<S>, beforeUndo: S, beforeRedo: S)
    requires h.undo != []
    ensures var h1 := Undo(h, beforeUndo);
            && h1.redo != []
            && Redone(h1) == beforeUndo
            && Redo(h1, beforeRedo).redo == h.redo
            && Redo(h1, beforeRedo).undo == h.undo[..|h.undo| - 1] + [beforeRedo]
  {
  }

  /**
   * A redo immediately followed by an undo puts back what the board showed
   * before the redo.
   */
  lemma RedoThenUndo<S>(h: History<S>, beforeRedo: S, beforeUndo: S)
    requires h.redo != []
    ensures var h1 := Redo(h, beforeRedo);
            && h1.undo != []
            && Undone(h1) == beforeRedo
            && Undo(h1, beforeUndo).undo == h.undo
            && Undo(h1, beforeUndo).redo == h.redo[..|h.redo| - 1] + [beforeUndo]
  {
    assert (h.undo + [beforeRedo])[..|h.undo|] == h.undo;
  }

  /**
   * As written, an undo right after a commit restores the snapshot that the
   * commit has just taken, i.e. the board as it already is.
   */
  lemma UndoAfterCommitRestoresCommitted<S>(h: History<S>, committed: S, current: S)
    ensures Commit(h, committed).undo != []
    ensures Undone(Commit(h, committed)) == committed
    ensures Undo(Commit(h, committed), current).redo == [current]
  {
  }

  /** The history operations of the DOM script, with the snapshot of the board at the time of each. */
  datatype Op<S> = CommitOp(snapshot: S) | UndoOp(current: S) | RedoOp(current: S)

  function Step<S>(h: History<S>, op: Op<S>): History<S>
  {
    match op
    case CommitOp(s) => Commit(h, s)
    case UndoOp(c) => Undo(h, c)
    case RedoOp(c) => Redo(h, c)
  }

  function Run<S>(h: History<S>, ops: seq<Op<S>>): History<S>
    decreases ops
  {
    if ops == [] then h else Run(Step(h, ops[0]), ops[1..])
  }

  /**
   * Redo pushes without evicting, yet whatever the user does the undo stack
   * never holds more than 50 entries: both stacks together stay within 50.
   */
  lemma {:induction false} RunKeepsBounds<S>(h: History<S>, ops: seq<Op<S>>)
    requires Bounded(h)
    ensures Bounded(Run(h, ops))
    ensures |Run(h, ops).undo| <= MaxHistory
    decreases ops
  {
    if ops != [] {
      RunKeepsBounds(Step(h, ops[0]), ops[1..]);
    }
  }
}
