/**
 * The capped snapshot history shared by both whiteboard scripts: an undo
 * stack and a redo stack. Committing is the same in both scripts: the new
 * snapshot is pushed on top, when the undo stack then holds more than 50
 * entries the oldest one (the bottom) is shifted out, and the redo stack is
 * emptied. The scripts differ in how they undo and redo (modules
 * CanvasHistory and DomHistory).
 */
module Stacks {

  /** CONFIG.MAX_UNDO_HISTORY in one script, the literal 50 in the other. */
  const MaxHistory: nat := 50

  datatype History<S> = History(undo: seq<S>, redo: seq<S>)

  /** Both stacks together never hold more entries than the undo cap. */
  ghost predicate Bounded<S>(h: History<S>) {
    |h.undo| + |h.redo| <= MaxHistory
  }

  /** The newest entry of the undo stack. */
  function Top<S>(h: History<S>): S
    requires |h.undo| > 0
  {
    h.undo[|h.undo| - 1]
  }

  /** `stack.push(s); if (stack.length > 50) stack.shift();` */
  function PushBounded<S>(stack: seq<S>, s: S): (r: seq<S>)
    ensures 0 < |r| && r[|r| - 1] == s
    ensures |stack| < MaxHistory ==> r == stack + [s]
    ensures |stack| >= MaxHistory ==> r == stack[1..] + [s]
    ensures |stack| <= MaxHistory ==> |r| <= MaxHistory
    ensures |r| <= |stack| + 1
  {
    var pushed := stack + [s];
    if |pushed| > MaxHistory then pushed[1..] else pushed
  }

  /**
   * Pushing keeps every entry of the old stack except, at capacity, the
   * oldest: the entries that survive are the newest ones, in their old order.
   */
  lemma {:induction false} PushBoundedKeepsNewest<S>(stack: seq<S>, s: S, k: nat)
    requires k < |stack| && k < MaxHistory - 1
    ensures var r := PushBounded(stack, s);
            r[|r| - 2 - k] == stack[|stack| - 1 - k]
  {
    var r := PushBounded(stack, s);
    if |stack| >= MaxHistory {
      assert r == stack[1..] + [s];
      assert r[|r| - 2 - k] == stack[1..][|stack| - 2 - k];
    } else {
      assert r == stack + [s];
    }
  }

  /** saveToHistory / saveState: push the new snapshot (evicting the oldest past 50) and forget every redo entry. */
  function Commit<S>(h: History<S>, s: S): (r: History<S>)
    ensures r.redo == [] && |r.undo| > 0 && Top(r) == s
    ensures Bounded(h) ==> Bounded(r)
    ensures |h.undo| < MaxHistory ==> r.undo == h.undo + [s]
    ensures |h.undo| >= MaxHistory ==> r.undo == h.undo[1..] + [s]
  {
    History(PushBounded(h.undo, s), [])
  }
}
