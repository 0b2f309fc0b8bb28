/**
 * The global state of the canvas script (js/whiteboard.js) as one object:
 * the element list, the snapshot stacks, the zoom level, the current tool
 * and colour, and the gesture in progress. Each method is one handler of
 * the script and states its effect on the state in terms of the pure
 * modules Stacks, CanvasHistory, View and Elements.
 *
 * A snapshot is the element list itself (the script stores it as JSON
 * text and parses it back; the round trip is the identity here).
 */
module CanvasBoard {
  import opened Wrappers
  import opened Stacks
  import opened Elements
  import CanvasHistory
  import View
  import Shortcuts

  /** Every snapshot in a stack holds only well-formed elements. */
  ghost predicate SnapshotsWellFormed(ss: seq<seq<Element>>) {
    forall i :: 0 <= i < |ss| ==> AllWellFormed(ss[i])
  }

  /** The element a gesture adds, as a list of zero or one elements. */
  function Added(g: Option<Element>): (r: seq<Element>)
    ensures |r| <= 1 && (r == [] <==> g == None)
    ensures g.Some? ==> r == [g.value]
  {
    match g
    case None => []
    case Some(e) => [e]
  }

  class Board {
    var elements: seq<Element>
    var undoStack: seq<seq<Element>>
    var redoStack: seq<seq<Element>>
    var zoomLevel: real
    var currentTool: Shortcuts.Tool
    var currentColor: string
    var isDrawing: bool
    /** startX/startY of the gesture in progress. */
    var start: Point
    var currentPathPoints: seq<Point>

    ghost function History(): History<seq<Element>>
      reads this
    {
      Stacks.History(undoStack, redoStack)
    }

    /** What holds between handlers, except that the element list may be ahead of the last snapshot. */
    ghost predicate Stored()
      reads this
    {
      && Bounded(History())
      && (redoStack != [] ==> undoStack != [])
      && AllWellFormed(elements)
      && SnapshotsWellFormed(undoStack)
      && SnapshotsWellFormed(redoStack)
      && View.InRange(zoomLevel)
    }

    /** Between handlers: as Stored, and the element list is the newest snapshot whenever there is one. */
    ghost predicate Valid()
      reads this
    {
      Stored() && (undoStack != [] ==> elements == Top(History()))
    }

    /** The script's initial globals. */
    constructor()
      ensures Valid()
      ensures elements == [] && undoStack == [] && redoStack == []
      ensures zoomLevel == 1.0 && currentTool == Shortcuts.Select && currentColor == "#000000"
      ensures !isDrawing && currentPathPoints == []
    {
      elements := [];
      undoStack := [];
      redoStack := [];
      zoomLevel := 1.0;
      currentTool := Shortcuts.Select;
      currentColor := "#000000";
      isDrawing := false;
      start := Point(0.0, 0.0);
      currentPathPoints := [];
    }

    /** saveToHistory: the current element list becomes the newest snapshot. */
    method SaveToHistory()
      requires Stored()
      modifies this`undoStack, this`redoStack
      ensures Valid()
      ensures History() == Commit(old(History()), elements)
    {
      undoStack := PushBounded(undoStack, elements);
      redoStack := [];
    }

    /** undo: only when there is a snapshot below the newest one, which then becomes the element list. */
    method Undo()
      requires Valid()
      modifies this`elements, this`undoStack, this`redoStack
      ensures Valid()
      ensures History() == CanvasHistory.Undo(old(History()))
      ensures |old(undoStack)| > 1 ==> elements == old(undoStack)[|old(undoStack)| - 2]
      ensures |old(undoStack)| <= 1 ==> elements == old(elements)
    {
      if |undoStack| > 1 {
        redoStack := redoStack + [undoStack[|undoStack| - 1]];
        undoStack := undoStack[..|undoStack| - 1];
        elements := undoStack[|undoStack| - 1];
      }
    }

    /** redo: moves the newest redo entry back onto the undo stack and shows it. */
    method Redo()
      requires Valid()
      modifies this`elements, this`undoStack, this`redoStack
      ensures Valid()
      ensures History() == CanvasHistory.Redo(old(History()))
      ensures old(redoStack) != [] ==> elements == old(redoStack)[|old(redoStack)| - 1]
      ensures old(redoStack) == [] ==> elements == old(elements)
    {
      if redoStack != [] {
        undoStack := undoStack + [redoStack[|redoStack| - 1]];
        redoStack := redoStack[..|redoStack| - 1];
        elements := undoStack[|undoStack| - 1];
      }
    }

    method SelectTool(tool: Shortcuts.Tool)
      modifies this`currentTool
      ensures currentTool == tool
    {
      currentTool := tool;
    }

    method SelectColor(color: string)
      modifies this`currentColor
      ensures currentColor == color
    {
      currentColor := color;
    }

    /**
     * addText at `at`; `answer` is what the user typed into the prompt
     * ("" when it was cancelled or left empty): a non-empty answer becomes a
     * 16px text element and a snapshot.
     */
    method AddText(at: Point, answer: string)
      requires Valid()
      modifies this`elements, this`undoStack, this`redoStack
      ensures Valid()
      ensures answer != "" ==>
                && elements == old(elements) + [Text(at, answer, currentColor, 16)]
                && History() == Commit(old(History()), elements)
      ensures answer == "" ==> elements == old(elements) && History() == old(History())
    {
      if answer != "" {
        elements := elements + [Text(at, answer, currentColor, 16)];
        AppendWellFormed(old(elements), Text(at, answer, currentColor, 16));
        SaveToHistory();
      }
    }

    /**
     * startDrawing at `p`: every tool starts a gesture; the pen and the
     * highlighter start a new stroke at `p`, the text tool asks for its text
     * at once (`answer`, as in AddText).
     */
    method StartDrawing(p: Point, answer: string)
      requires Valid()
      modifies this`start, this`isDrawing, this`currentPathPoints, this`elements, this`undoStack, this`redoStack
      ensures Valid() && isDrawing && start == p
      ensures IsPathTool(currentTool) ==> currentPathPoints == [p]
      ensures !IsPathTool(currentTool) ==> currentPathPoints == old(currentPathPoints)
      ensures currentTool == Shortcuts.Text && answer != "" ==>
                && elements == old(elements) + [Text(p, answer, currentColor, 16)]
                && History() == Commit(old(History()), elements)
      ensures !(currentTool == Shortcuts.Text && answer != "") ==>
                elements == old(elements) && History() == old(History())
    {
      start := p;
      isDrawing := true;
      if IsPathTool(currentTool) {
        currentPathPoints := [p];
      } else if currentTool == Shortcuts.Text {
        AddText(p, answer);
      }
    }

    /** draw at `p`: during a gesture the pen and the highlighter extend the stroke; other tools only repaint. */
    method Draw(p: Point)
      modifies this`currentPathPoints
      ensures isDrawing && IsPathTool(currentTool) ==> currentPathPoints == old(currentPathPoints) + [p]
      ensures !(isDrawing && IsPathTool(currentTool)) ==> currentPathPoints == old(currentPathPoints)
    {
      if isDrawing && IsPathTool(currentTool) {
        currentPathPoints := currentPathPoints + [p];
      }
    }

    /**
     * stopDrawing at `end` (`radius` is half the distance from the gesture's
     * start): ends the gesture, appends the element it made, if any, and
     * takes a snapshot whether or not anything was appended. The stroke
     * points are cleared only when a stroke was stored.
     */
    method StopDrawing(end: Point, radius: real)
      requires Valid() && IsHalfDistance(radius, start, end)
      modifies this`isDrawing, this`currentPathPoints, this`elements, this`undoStack, this`redoStack
      ensures Valid() && !isDrawing
      ensures !old(isDrawing) ==>
                && elements == old(elements) && History() == old(History())
                && currentPathPoints == old(currentPathPoints)
      ensures old(isDrawing) ==>
                var g := GestureElement(currentTool, start, end, old(currentPathPoints), currentColor, radius);
                && elements == old(elements) + Added(g)
                && History() == Commit(old(History()), elements)
                && currentPathPoints == (if IsPathTool(currentTool) && g.Some? then [] else old(currentPathPoints))
    {
      if !isDrawing {
        return;
      }
      isDrawing := false;
      var g := GestureElement(currentTool, start, end, currentPathPoints, currentColor, radius);
      if g.Some? {
        AppendWellFormed(elements, g.value);
        elements := elements + [g.value];
        if IsPathTool(currentTool) {
          currentPathPoints := [];
        }
      }
      SaveToHistory();
    }

    /** clearCanvas: empties the element list and takes a snapshot of the empty board. */
    method ClearCanvas()
      requires Valid()
      modifies this`elements, this`undoStack, this`redoStack
      ensures Valid()
      ensures elements == [] && History() == Commit(old(History()), [])
    {
      elements := [];
      SaveToHistory();
    }

    /**
     * loadBoard: `saved` is the stored board's element list (None when
     * nothing is stored or it does not parse; a stored board without a list
     * counts as the empty list). A snapshot is taken either way.
     */
    method LoadBoard(saved: Option<seq<Element>>)
      requires Valid() && (saved.Some? ==> AllWellFormed(saved.value))
      modifies this`elements, this`undoStack, this`redoStack
      ensures Valid()
      ensures elements == (if saved.Some? then saved.value else old(elements))
      ensures History() == Commit(old(History()), elements)
    {
      if saved.Some? {
        elements := saved.value;
      }
      SaveToHistory();
    }

    method ZoomIn()
      requires Valid()
      modifies this`zoomLevel
      ensures Valid() && zoomLevel == View.ZoomIn(old(zoomLevel))
    {
      zoomLevel := View.ZoomIn(zoomLevel);
    }

    method ZoomOut()
      requires Valid()
      modifies this`zoomLevel
      ensures Valid() && zoomLevel == View.ZoomOut(old(zoomLevel))
    {
      zoomLevel := View.ZoomOut(zoomLevel);
    }

    method ResetZoom()
      requires Valid()
      modifies this`zoomLevel
      ensures Valid() && zoomLevel == 1.0
    {
      zoomLevel := 1.0;
    }

    /**
     * handleKeyboard: runs the command the keydown maps to (saveBoard
     * writes to storage only and leaves the board as it is).
     */
    method HandleKeyboard(e: Shortcuts.KeyEvent)
      requires Valid()
      modifies this`elements, this`undoStack, this`redoStack, this`zoomLevel, this`currentTool
      ensures Valid()
      ensures Shortcuts.CanvasShortcut(e) == [] || Shortcuts.CanvasShortcut(e) == [Shortcuts.Save] ==> unchanged(this)
      ensures Shortcuts.CanvasShortcut(e) == [Shortcuts.Undo] ==>
                History() == CanvasHistory.Undo(old(History())) &&
                (|old(undoStack)| > 1 ==> elements == old(undoStack)[|old(undoStack)| - 2]) &&
                (|old(undoStack)| <= 1 ==> elements == old(elements)) &&
                zoomLevel == old(zoomLevel) && currentTool == old(currentTool)
      ensures Shortcuts.CanvasShortcut(e) == [Shortcuts.Redo] ==>
                History() == CanvasHistory.Redo(old(History())) &&
                (old(redoStack) != [] ==> elements == old(redoStack)[|old(redoStack)| - 1]) &&
                (old(redoStack) == [] ==> elements == old(elements)) &&
                zoomLevel == old(zoomLevel) && currentTool == old(currentTool)
      ensures forall t :: Shortcuts.CanvasShortcut(e) == [Shortcuts.SelectTool(t)] ==>
                currentTool == t && elements == old(elements) && History() == old(History()) &&
                zoomLevel == old(zoomLevel)
      ensures Shortcuts.CanvasShortcut(e) == [Shortcuts.ClearCanvas] ==>
                elements == [] && History() == Commit(old(History()), []) &&
                zoomLevel == old(zoomLevel) && currentTool == old(currentTool)
      ensures Shortcuts.CanvasShortcut(e) == [Shortcuts.ZoomIn] ==>
                zoomLevel == View.ZoomIn(old(zoomLevel)) &&
                elements == old(elements) && History() == old(History()) && currentTool == old(currentTool)
      ensures Shortcuts.CanvasShortcut(e) == [Shortcuts.ZoomOut] ==>
                zoomLevel == View.ZoomOut(old(zoomLevel)) &&
                elements == old(elements) && History() == old(History()) && currentTool == old(currentTool)
      ensures Shortcuts.CanvasShortcut(e) == [Shortcuts.ResetZoom] ==>
                zoomLevel == 1.0 &&
                elements == old(elements) && History() == old(History()) && currentTool == old(currentTool)
    {
      var cmds := Shortcuts.CanvasShortcut(e);
      if cmds != [] {
        match cmds[0]
        case Undo => Undo();
        case Redo => Redo();
        case SelectTool(t) => SelectTool(t);
        case ClearCanvas => ClearCanvas();
        case ZoomIn => ZoomIn();
        case ZoomOut => ZoomOut();
        case ResetZoom => ResetZoom();
        case _ =>
      }
    }
  }
}
