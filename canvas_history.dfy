/**
 * The undo/redo history of the canvas script (js/whiteboard.js): two stacks
 * of serialised element lists. The top of the undo stack is always the
 * snapshot of the board as it is now, so undo needs two entries (the current
 * one and the one to go back to) and moves the top entry to the redo stack;
 * redo moves it back. Committing is Stacks.Commit. Snapshots are generic
 * here: the canvas board stores element lists, and the same rules serve as
 * the corrected undo of the DOM script (see DomHistory).
 */
module CanvasHistory {
  import opened Stacks

  /** undo: only when the undo stack holds more than one entry; the top moves onto the redo stack. */
  function Undo<S>(h: History<S>): (r: History<S>)
    ensures |h.undo| <= 1 ==> r == h
    ensures |h.undo| > 1 ==>
              && r.undo == h.undo[..|h.undo| - 1]
              && r.redo == h.redo + [Top(h)]
              && Top(r) == h.undo[|h.undo| - 2]
    ensures |r.undo| + |r.redo| == |h.undo| + |h.redo|
    ensures |h.undo| >= 1 ==> |r.undo| >= 1
  {
    if |h.undo| > 1 then
      History(h.undo[..|h.undo| - 1], h.redo + [h.undo[|h.undo| - 1]])
    else
      h
  }

  /** redo: only when the redo stack is not empty; its top moves back onto the undo stack. */
  function Redo<S>(h: History<S>): (r: History<S>)
    ensures h.redo == [] ==> r == h
    ensures h.redo != [] ==>
              && r.redo == h.redo[..|h.redo| - 1]
              && r.undo == h.undo + [h.redo[|h.redo| - 1]]
              && Top(r) == h.redo[|h.redo| - 1]
    ensures |r.undo| + |r.redo| == |h.undo| + |h.redo|
    ensures |r.undo| >= |h.undo|
  {
    if h.redo != [] then
      History(h.undo + [h.redo[|h.redo| - 1]], h.redo[..|h.redo| - 1])
    else
      h
  }

  /** Undo followed by redo gives back both stacks exactly. */
  lemma UndoThenRedo<S>(h: History<S>)
    requires |h.undo| > 1
    ensures Redo(Undo(h)) == h
    ensures Top(Redo(Undo(h))) == Top(h)
  {
    assert h.undo[..|h.undo| - 1] + [Top(h)] == h.undo;
  }

  /** Redo followed by undo gives back both stacks exactly, once there is something under the redone entry. */
  lemma RedoThenUndo<S>(h: History<S>)
    requires h.redo != [] && |h.undo| >= 1
    ensures Undo(Redo(h)) == h
  {
    assert h.redo[..|h.redo| - 1] + [h.redo[|h.redo| - 1]] == h.redo;
  }

  /** `n` undos in a row. */
  function UndoN<S>(h: History<S>, n: nat): History<S>
    decreases n
  {
    if n == 0 then h else UndoN(Undo(h), n - 1)
  }

  /** `n` redos in a row. */
  function RedoN<S>(h: History<S>, n: nat): History<S>
  {
    if n == 0 then h else Redo(RedoN(h, n - 1))
  }

  /** Any run of undos, as long as each one takes effect, is exactly reverted by as many redos. */
  lemma {:induction false} UndoNThenRedoN<S>(h: History<S>, n: nat)
    requires n < |h.undo|
    ensures RedoN(UndoN(h, n), n) == h
    decreases n
  {
    if n > 0 {
      var h1 := Undo(h);
      UndoNThenRedoN(h1, n - 1);
      assert RedoN(UndoN(h1, n - 1), n - 1) == h1;
      UndoThenRedo(h);
    }
  }

  /**
   * Right after a commit, undo brings back the snapshot committed before it,
   * and redo then brings back the new one.
   */
  lemma UndoRestoresPreviousCommit<S>(h: History<S>, s: S)
    requires |h.undo| >= 1
    ensures Top(Undo(Commit(h, s))) == Top(h)
    ensures Redo(Undo(Commit(h, s))) == Commit(h, s)
  {
    var c := Commit(h, s);
    assert |c.undo| > 1;
    PushBoundedKeepsNewest(h.undo, s, 0);
    UndoThenRedo(c);
  }

  /** The three history operations a user can trigger. */
  datatype Op<S> = CommitOp(snapshot: S) | UndoOp | RedoOp

  function Step<S>(h: History<S>, op: Op<S>): History<S>
  {
    match op
    case CommitOp(s) => Commit(h, s)
    case UndoOp => Undo(h)
    case RedoOp => Redo(h)
  }

  function Run<S>(h: History<S>, ops: seq<Op<S>>): History<S>
    decreases ops
  {
    if ops == [] then h else Run(Step(h, ops[0]), ops[1..])
  }

  /**
   * Whatever the user does, the two stacks together stay within 50 entries,
   * and once something has been committed the undo stack is never emptied.
   */
  lemma {:induction false} RunKeepsBounds<S>(h: History<S>, ops: seq<Op<S>>)
    requires Bounded(h)
    ensures Bounded(Run(h, ops))
    ensures |h.undo| >= 1 ==> |Run(h, ops).undo| >= 1
    ensures (exists i :: 0 <= i < |ops| && ops[i].CommitOp?) ==> |Run(h, ops).undo| >= 1
    decreases ops
  {
    if ops != [] {
      var h1 := Step(h, ops[0]);
      RunKeepsBounds(h1, ops[1..]);
      if exists i :: 0 <= i < |ops| && ops[i].CommitOp? {
        var i :| 0 <= i < |ops| && ops[i].CommitOp?;
        if i > 0 {
          assert ops[1..][i - 1].CommitOp?;
        }
      }
    }
  }
}
