/**
 * The global state of the DOM script (whiteboard.js at the top of the
 * static folder) as one object.
 *
 * Element nodes are kept in an allocation log `nodes`, indexed by handle;
 * `container` lists the handles of the #canvasElements children in order
 * and `selected` the handles in selectedElements. Replacing the
 * container's markup (undo, redo) allocates fresh nodes, so a selection
 * made before it goes on naming the detached old nodes, as in the browser.
 * Snapshots hold the items the container showed (its innerHTML, parsed).
 */
module DomBoard {
  import opened Wrappers
  import opened Stacks
  import opened DomItems
  import DomHistory
  import View
  import Shortcuts

  /** A saveState entry: the container's content, the board name and Date.now(). */
  datatype Snapshot = Snapshot(html: seq<Item>, boardName: string, timestamp: int)

  ghost predicate SnapshotIdsBelow(ss: seq<Snapshot>, n: nat) {
    forall k :: 0 <= k < |ss| ==> IdsBelow(ss[k].html, n)
  }

  /** The tools for which startDrawing starts a stroke. */
  predicate StrokeTool(t: Shortcuts.Tool) {
    t in {Shortcuts.Pen, Shortcuts.Highlighter, Shortcuts.Line, Shortcuts.Rectangle, Shortcuts.Circle}
  }

  class Board {
    var nodes: seq<Item>
    var container: seq<nat>
    var selected: seq<nat>
    var clipboard: seq<Item>
    var undoStack: seq<Snapshot>
    var redoStack: seq<Snapshot>
    var boardName: string
    var zoomLevel: real
    var panX: real
    var panY: real
    var currentTool: Shortcuts.Tool
    var isDrawing: bool
    /** Stands for generateId: the next id to hand out. */
    var nextId: nat

    ghost predicate Valid()
      reads this
    {
      && Handles(container, |nodes|) && Distinct(container)
      && Handles(selected, |nodes|)
      && Bounded(History())
      && View.InRange(zoomLevel)
      && IdsBelow(nodes, nextId) && IdsBelow(clipboard, nextId)
      && SnapshotIdsBelow(undoStack, nextId) && SnapshotIdsBelow(redoStack, nextId)
    }

    ghost function History(): History<Snapshot>
      reads this
    {
      Stacks.History(undoStack, redoStack)
    }

    /** The items the container shows, in order. */
    function Content(): (r: seq<Item>)
      reads this
      requires Handles(container, |nodes|)
    {
      Render(nodes, container)
    }

    /** The items selectedElements refers to, attached or not. */
    ghost function Selection(): seq<Item>
      reads this
      requires Handles(selected, |nodes|)
    {
      Render(nodes, selected)
    }

    /** The script's initial globals, with an empty container. */
    constructor(name: string)
      ensures Valid() && Content() == [] && selected == [] && clipboard == []
      ensures undoStack == [] && redoStack == [] && boardName == name
      ensures zoomLevel == 1.0 && panX == 0.0 && panY == 0.0
      ensures currentTool == Shortcuts.Select && !isDrawing
    {
      nodes := [];
      container := [];
      selected := [];
      clipboard := [];
      undoStack := [];
      redoStack := [];
      boardName := name;
      zoomLevel := 1.0;
      panX := 0.0;
      panY := 0.0;
      currentTool := Shortcuts.Select;
      isDrawing := false;
      nextId := 0;
    }

    /** saveState at time `now`: the container's content becomes the newest snapshot. */
    method SaveState(now: int)
      requires Valid()
      modifies this`undoStack, this`redoStack
      ensures Valid()
      ensures History() == Commit(old(History()), Snapshot(Content(), boardName, now))
    {
      undoStack := PushBounded(undoStack, Snapshot(Content(), boardName, now));
      redoStack := [];
    }

    /** container.innerHTML = html: the container's children are replaced by fresh nodes showing `html`. */
    method Replace(html: seq<Item>)
      requires Valid() && IdsBelow(html, nextId)
      modifies this`nodes, this`container
      ensures Valid()
      ensures Content() == html
      ensures nodes == old(nodes) + html && container == Range(|old(nodes)|, |html|)
      ensures forall h :: h in selected ==> h !in container
    {
      container := Range(|nodes|, |html|);
      nodes := nodes + html;
    }

    /**
     * undo at time `now`: with an empty stack nothing happens; otherwise a
     * snapshot of the board as it is goes onto the redo stack and the popped
     * snapshot's content is put back. The selection is left naming the
     * replaced nodes.
     */
    method Undo(now: int)
      requires Valid()
      modifies this`nodes, this`container, this`undoStack, this`redoStack
      ensures Valid()
      ensures History() == DomHistory.Undo(old(History()), Snapshot(old(Content()), boardName, now))
      ensures old(undoStack) == [] ==> nodes == old(nodes) && container == old(container)
      ensures old(undoStack) != [] ==>
                && Content() == DomHistory.Undone(old(History())).html
                && nodes == old(nodes) + Content() && container == Range(|old(nodes)|, |Content()|)
                && forall h :: h in selected ==> h !in container
      ensures old(undoStack) != [] && old(Top(History()).html) == old(Content()) ==> Content() == old(Content())
    {
      if undoStack == [] {
        return;
      }
      var current := Snapshot(Content(), boardName, now);
      var previous := undoStack[|undoStack| - 1];
      redoStack := redoStack + [current];
      undoStack := undoStack[..|undoStack| - 1];
      Replace(previous.html);
    }

    /** redo at time `now`: the mirror image of Undo. */
    method Redo(now: int)
      requires Valid()
      modifies this`nodes, this`container, this`undoStack, this`redoStack
      ensures Valid()
      ensures History() == DomHistory.Redo(old(History()), Snapshot(old(Content()), boardName, now))
      ensures old(redoStack) == [] ==> nodes == old(nodes) && container == old(container)
      ensures old(redoStack) != [] ==>
                && Content() == DomHistory.Redone(old(History())).html
                && nodes == old(nodes) + Content() && container == Range(|old(nodes)|, |Content()|)
                && forall h :: h in selected ==> h !in container
    {
      if redoStack == [] {
        return;
      }
      var current := Snapshot(Content(), boardName, now);
      var next := redoStack[|redoStack| - 1];
      undoStack := undoStack + [current];
      redoStack := redoStack[..|redoStack| - 1];
      Replace(next.html);
    }

    /** selectElement: the selection becomes exactly the one node. */
    method SelectElement(h: nat)
      requires Valid() && h < |nodes|
      modifies this`selected
      ensures Valid() && selected == [h]
    {
      selected := [h];
    }

    /** The Escape case of handleKeyboard: the selection is emptied. */
    method ClearSelection()
      requires Valid()
      modifies this`selected
      ensures Valid() && selected == []
    {
      selected := [];
    }

    /** Appends one new node showing `item` and returns its handle. */
    method Append(item: Item) returns (h: nat)
      requires Valid() && item.id < nextId
      modifies this`nodes, this`container
      ensures Valid()
      ensures h == |old(nodes)| && nodes == old(nodes) + [item] && container == old(container) + [h]
      ensures Content() == old(Content()) + [item]
    {
      h := |nodes|;
      AppendFresh(container, |nodes|, 1);
      nodes := nodes + [item];
      container := container + [h];
    }

    /** createStickyNote at `at`: a new note with a fresh id, appended, selected and saved. */
    method CreateStickyNote(at: (real, real), now: int)
      requires Valid()
      modifies this`nodes, this`container, this`selected, this`nextId, this`undoStack, this`redoStack
      ensures Valid()
      ensures Content() == old(Content()) + [Item(old(nextId), StickyNote, at.0, at.1, None)]
      ensures selected == [|old(nodes)|] && nextId == old(nextId) + 1
      ensures History() == Commit(old(History()), Snapshot(Content(), boardName, now))
    {
      nextId := nextId + 1;
      var h := Append(Item(nextId - 1, StickyNote, at.0, at.1, None));
      selected := [h];
      SaveState(now);
    }

    /** createTextElement at `at`: a new text box with a fresh id, appended and saved. */
    method CreateTextElement(at: (real, real), now: int)
      requires Valid()
      modifies this`nodes, this`container, this`nextId, this`undoStack, this`redoStack
      ensures Valid()
      ensures Content() == old(Content()) + [Item(old(nextId), TextBox, at.0, at.1, None)]
      ensures nextId == old(nextId) + 1
      ensures History() == Commit(old(History()), Snapshot(Content(), boardName, now))
    {
      nextId := nextId + 1;
      var h := Append(Item(nextId - 1, TextBox, at.0, at.1, None));
      SaveState(now);
    }

    /**
     * deleteSelected: every selected node leaves the container (a detached
     * one is left as it is), the selection is emptied and the state saved.
     */
    method DeleteSelected(now: int)
      requires Valid()
      modifies this`container, this`selected, this`undoStack, this`redoStack
      ensures Valid()
      ensures container == Without(old(container), old(selected)) && selected == []
      ensures forall h :: h in container <==> h in old(container) && h !in old(selected)
      ensures (forall h :: h in old(selected) ==> h !in old(container)) ==> Content() == old(Content())
      ensures History() == Commit(old(History()), Snapshot(Content(), boardName, now))
    {
      RemoveSelected();
      if forall h :: h in selected ==> h !in old(container) {
        WithoutNothing(old(container), selected);
      }
      selected := [];
      SaveState(now);
    }

    /** The forEach(el => el.remove()) loop: each selected node leaves the container. */
    method RemoveSelected()
      requires Valid()
      modifies this`container
      ensures Valid()
      ensures container == Without(old(container), selected)
    {
      var i := 0;
      assert old(container) == Without(old(container), selected[..0]) by {
        WithoutNothing(old(container), []);
      }
      while i < |selected|
        invariant 0 <= i <= |selected|
        invariant container == Without(old(container), selected[..i])
        modifies this`container
      {
        WithoutStep(old(container), selected[..i], selected[i]);
        assert selected[..i + 1] == selected[..i] + [selected[i]];
        container := Without(container, [selected[i]]);
        i := i + 1;
      }
      assert selected[..i] == selected;
      WithoutDistinct(old(container), selected);
      WithoutHandles(old(container), selected, |nodes|);
    }

    /**
     * Appends, for each item of `items` in order, a copy with the next
     * fresh id moved by `offset` pixels (the loops of duplicateSelected and
     * pasteFromClipboard).
     */
    method AppendClones(items: seq<Item>, offset: int)
      requires Valid()
      modifies this`nodes, this`container, this`nextId
      ensures Valid()
      ensures nextId == old(nextId) + |items|
      ensures nodes == old(nodes) + Clones(items, old(nextId), offset)
      ensures container == old(container) + Range(|old(nodes)|, |items|)
      ensures Content() == old(Content()) + Clones(items, old(nextId), offset)
    {
      var i := 0;
      while i < |items|
        invariant 0 <= i <= |items| && Valid()
        invariant nextId == old(nextId) + i
        invariant nodes == old(nodes) + Clones(items[..i], old(nextId), offset)
        invariant container == old(container) + Range(|old(nodes)|, i)
        invariant Content() == old(Content()) + Clones(items[..i], old(nextId), offset)
      {
        var clone := Shifted(items[i], nextId, offset);
        nextId := nextId + 1;
        var h := Append(clone);
        assert Clones(items[..i + 1], old(nextId), offset) == Clones(items[..i], old(nextId), offset) + [clone];
        i := i + 1;
      }
      assert items[..i] == items;
    }

    /** duplicateSelected: one moved copy (+20px) of every selected item, then a snapshot. */
    method DuplicateSelected(now: int)
      requires Valid()
      modifies this`nodes, this`container, this`nextId, this`undoStack, this`redoStack
      ensures Valid()
      ensures Content() == old(Content()) + Clones(old(Selection()), old(nextId), 20)
      ensures nextId == old(nextId) + |old(selected)| && selected == old(selected)
      ensures History() == Commit(old(History()), Snapshot(Content(), boardName, now))
    {
      var items := Render(nodes, selected);
      AppendClones(items, 20);
      SaveState(now);
    }

    /** copySelected: the clipboard holds the selected items as they are now. */
    method CopySelected()
      requires Valid()
      modifies this`clipboard
      ensures Valid() && clipboard == Selection()
    {
      clipboard := Render(nodes, selected);
    }

    /**
     * pasteFromClipboard: with an empty clipboard nothing changes and no
     * snapshot is taken; otherwise one moved copy (+30px) per item, then a
     * snapshot.
     */
    method PasteFromClipboard(now: int)
      requires Valid()
      modifies this`nodes, this`container, this`nextId, this`undoStack, this`redoStack
      ensures Valid()
      ensures clipboard == [] ==> unchanged(this)
      ensures clipboard != [] ==>
                && nodes == old(nodes) + Clones(clipboard, old(nextId), 30)
                && container == old(container) + Range(|old(nodes)|, |clipboard|)
                && Content() == old(Content()) + Clones(clipboard, old(nextId), 30)
                && nextId == old(nextId) + |clipboard|
                && History() == Commit(old(History()), Snapshot(Content(), boardName, now))
    {
      if clipboard == [] {
        return;
      }
      AppendClones(clipboard, 30);
      SaveState(now);
    }

    /** Sets style.zIndex of every selected node to `z` (the loops of bringToFront and sendToBack). */
    method SetSelectedZIndex(z: int)
      requires Valid()
      modifies this`nodes
      ensures Valid()
      ensures nodes == WithZIndex(old(nodes), selected, z)
    {
      var i := 0;
      while i < |selected|
        invariant 0 <= i <= |selected| && Valid()
        invariant nodes == WithZIndex(old(nodes), selected[..i], z)
      {
        var h := selected[i];
        assert selected[..i + 1] == selected[..i] + [h];
        nodes := nodes[h := nodes[h].(zIndex := Some(z))];
        i := i + 1;
      }
      assert selected[..i] == selected;
    }

    /** bringToFront: zIndex 1000 on every selected item, others untouched, then a snapshot. */
    method BringToFront(now: int)
      requires Valid()
      modifies this`nodes, this`undoStack, this`redoStack
      ensures Valid()
      ensures nodes == WithZIndex(old(nodes), selected, 1000)
      ensures History() == Commit(old(History()), Snapshot(Content(), boardName, now))
    {
      SetSelectedZIndex(1000);
      SaveState(now);
    }

    /** sendToBack: zIndex 1 on every selected item, others untouched, then a snapshot. */
    method SendToBack(now: int)
      requires Valid()
      modifies this`nodes, this`undoStack, this`redoStack
      ensures Valid()
      ensures nodes == WithZIndex(old(nodes), selected, 1)
      ensures History() == Commit(old(History()), Snapshot(Content(), boardName, now))
    {
      SetSelectedZIndex(1);
      SaveState(now);
    }

    method SelectTool(tool: Shortcuts.Tool)
      modifies this`currentTool
      ensures currentTool == tool
    {
      currentTool := tool;
    }

    /** startDrawing: only the stroke tools start a stroke. */
    method StartDrawing()
      modifies this`isDrawing
      ensures isDrawing == (old(isDrawing) || StrokeTool(currentTool))
    {
      if StrokeTool(currentTool) {
        isDrawing := true;
      }
    }

    /**
     * stopDrawing: ends a stroke and saves the state; the stroke itself is
     * on the canvas, not in the container, so the snapshot does not hold it.
     */
    method StopDrawing(now: int)
      requires Valid()
      modifies this`isDrawing, this`undoStack, this`redoStack
      ensures Valid() && !isDrawing
      ensures !old(isDrawing) ==> History() == old(History())
      ensures old(isDrawing) ==> History() == Commit(old(History()), Snapshot(Content(), boardName, now))
    {
      if !isDrawing {
        return;
      }
      isDrawing := false;
      SaveState(now);
    }

    method ZoomIn()
      requires Valid()
      modifies this`zoomLevel
      ensures Valid() && zoomLevel == View.ZoomIn(old(zoomLevel))
    {
      zoomLevel := View.ZoomIn(zoomLevel);
    }

    method ZoomOut()
      requires Valid()
      modifies this`zoomLevel
      ensures Valid() && zoomLevel == View.ZoomOut(old(zoomLevel))
    {
      zoomLevel := View.ZoomOut(zoomLevel);
    }

    /** fitToScreen: zoom 1, no pan. */
    method FitToScreen()
      requires Valid()
      modifies this`zoomLevel, this`panX, this`panY
      ensures Valid() && zoomLevel == 1.0 && panX == 0.0 && panY == 0.0
    {
      zoomLevel := 1.0;
      panX := 0.0;
      panY := 0.0;
    }

    /**
     * The whole effect of one keyboard command at time `now`: what it sets
     * and, field by field, everything it leaves alone. saveBoard, showHelp
     * and the canvas-only commands leave the board as it is.
     */
    twostate predicate Runs(cmd: Shortcuts.Command, now: int)
      reads this
      requires old(Valid()) && Valid()
    {
      match cmd
      case Undo =>
        && History() == DomHistory.Undo(old(History()), Snapshot(old(Content()), boardName, now))
        && (old(undoStack) == [] ==> nodes == old(nodes) && container == old(container))
        && (old(undoStack) != [] ==>
              && Content() == DomHistory.Undone(old(History())).html
              && nodes == old(nodes) + Content() && container == Range(|old(nodes)|, |Content()|))
        && unchanged(this`selected, this`clipboard, this`boardName, this`zoomLevel, this`panX, this`panY)
        && unchanged(this`currentTool, this`isDrawing, this`nextId)
      case Redo =>
        && History() == DomHistory.Redo(old(History()), Snapshot(old(Content()), boardName, now))
        && (old(redoStack) == [] ==> nodes == old(nodes) && container == old(container))
        && (old(redoStack) != [] ==>
              && Content() == DomHistory.Redone(old(History())).html
              && nodes == old(nodes) + Content() && container == Range(|old(nodes)|, |Content()|))
        && unchanged(this`selected, this`clipboard, this`boardName, this`zoomLevel, this`panX, this`panY)
        && unchanged(this`currentTool, this`isDrawing, this`nextId)
      case Copy =>
        && clipboard == old(Selection())
        && unchanged(this`nodes, this`container, this`selected, this`undoStack, this`redoStack, this`boardName)
        && unchanged(this`zoomLevel, this`panX, this`panY, this`currentTool, this`isDrawing, this`nextId)
      case Paste =>
        && (old(clipboard) == [] ==> unchanged(this))
        && (old(clipboard) != [] ==>
              && nodes == old(nodes) + Clones(old(clipboard), old(nextId), 30)
              && container == old(container) + Range(|old(nodes)|, |old(clipboard)|)
              && Content() == old(Content()) + Clones(old(clipboard), old(nextId), 30)
              && nextId == old(nextId) + |old(clipboard)|
              && History() == Commit(old(History()), Snapshot(Content(), boardName, now)))
        && unchanged(this`selected, this`clipboard, this`boardName, this`zoomLevel, this`panX, this`panY)
        && unchanged(this`currentTool, this`isDrawing)
      case SelectTool(t) =>
        && currentTool == t
        && unchanged(this`nodes, this`container, this`selected, this`clipboard, this`undoStack, this`redoStack)
        && unchanged(this`boardName, this`zoomLevel, this`panX, this`panY, this`isDrawing, this`nextId)
      case DeleteSelected =>
        && container == Without(old(container), old(selected)) && selected == []
        && History() == Commit(old(History()), Snapshot(Content(), boardName, now))
        && unchanged(this`nodes, this`clipboard, this`boardName, this`zoomLevel, this`panX, this`panY)
        && unchanged(this`currentTool, this`isDrawing, this`nextId)
      case ClearSelection =>
        && selected == []
        && unchanged(this`nodes, this`container, this`clipboard, this`undoStack, this`redoStack, this`boardName)
        && unchanged(this`zoomLevel, this`panX, this`panY, this`currentTool, this`isDrawing, this`nextId)
      case ZoomIn =>
        && zoomLevel == View.ZoomIn(old(zoomLevel))
        && unchanged(this`nodes, this`container, this`selected, this`clipboard, this`undoStack, this`redoStack)
        && unchanged(this`boardName, this`panX, this`panY, this`currentTool, this`isDrawing, this`nextId)
      case ZoomOut =>
        && zoomLevel == View.ZoomOut(old(zoomLevel))
        && unchanged(this`nodes, this`container, this`selected, this`clipboard, this`undoStack, this`redoStack)
        && unchanged(this`boardName, this`panX, this`panY, this`currentTool, this`isDrawing, this`nextId)
      case FitToScreen =>
        && zoomLevel == 1.0 && panX == 0.0 && panY == 0.0
        && unchanged(this`nodes, this`container, this`selected, this`clipboard, this`undoStack, this`redoStack)
        && unchanged(this`boardName, this`currentTool, this`isDrawing, this`nextId)
      case _ => unchanged(this)
    }

    /** The switch of handleKeyboard: runs one command at time `now`. */
    method RunCommand(cmd: Shortcuts.Command, now: int)
      requires Valid()
      modifies this
      ensures Valid() && Runs(cmd, now)
    {
      if cmd == Shortcuts.Undo || cmd == Shortcuts.Redo {
        RunHistoryCommand(cmd, now);
      } else if cmd == Shortcuts.Paste || cmd == Shortcuts.DeleteSelected {
        RunEditCommand(cmd, now);
      } else if cmd == Shortcuts.Copy || cmd == Shortcuts.ClearSelection {
        RunSelectionCommand(cmd);
      } else {
        RunViewCommand(cmd);
      }
    }

    /** The undo and redo cases. */
    method RunHistoryCommand(cmd: Shortcuts.Command, now: int)
      requires Valid() && (cmd == Shortcuts.Undo || cmd == Shortcuts.Redo)
      modifies this
      ensures Valid() && Runs(cmd, now)
    {
      if cmd == Shortcuts.Undo {
        Undo(now);
      } else {
        Redo(now);
      }
    }

    /** The paste and delete cases, which change the container and commit. */
    method RunEditCommand(cmd: Shortcuts.Command, now: int)
      requires Valid() && (cmd == Shortcuts.Paste || cmd == Shortcuts.DeleteSelected)
      modifies this
      ensures Valid() && Runs(cmd, now)
    {
      if cmd == Shortcuts.Paste {
        PasteFromClipboard(now);
      } else {
        DeleteSelected(now);
      }
    }

    /** The copy and escape cases, which only read or empty the selection. */
    method RunSelectionCommand(cmd: Shortcuts.Command)
      requires Valid() && (cmd == Shortcuts.Copy || cmd == Shortcuts.ClearSelection)
      modifies this
      ensures Valid() && forall now :: Runs(cmd, now)
    {
      if cmd == Shortcuts.Copy {
        CopySelected();
      } else {
        ClearSelection();
      }
    }

    /** The cases that leave the container and the history alone: tools, zoom, save and help. */
    method RunViewCommand(cmd: Shortcuts.Command)
      requires Valid()
      requires cmd !in {Shortcuts.Undo, Shortcuts.Redo, Shortcuts.Copy, Shortcuts.Paste}
      requires cmd !in {Shortcuts.DeleteSelected, Shortcuts.ClearSelection}
      modifies this
      ensures Valid() && forall now :: Runs(cmd, now)
    {
      match cmd
      case SelectTool(t) => SelectTool(t);
      case ZoomIn => ZoomIn();
      case ZoomOut => ZoomOut();
      case FitToScreen => FitToScreen();
      case _ =>
    }

    /**
     * handleKeyboard at time `now`, as written: runs the command the key
     * maps to. Since the Delete case can never match, no key other than
     * undo, redo and paste changes what the container shows.
     */
    method HandleKeyboard(e: Shortcuts.KeyEvent, now: int)
      requires Valid()
      modifies this
      ensures Valid()
      ensures Shortcuts.DomShortcut(e) == None ==> unchanged(this)
      ensures Shortcuts.DomShortcut(e).Some? ==> Runs(Shortcuts.DomShortcut(e).value, now)
      ensures Shortcuts.DomShortcut(e) !in {Some(Shortcuts.Undo), Some(Shortcuts.Redo), Some(Shortcuts.Paste)} ==>
                container == old(container) && Content() == old(Content())
    {
      Shortcuts.DomDeadShortcuts(e);
      var cmd := Shortcuts.DomShortcut(e);
      if cmd.Some? {
        RunCommand(cmd.value, now);
      }
    }

    /**
     * handleKeyboard with the Delete, Escape and F1 cases spelled in lower
     * case: the same switch, reached by the corrected command.
     */
    method HandleKeyboardIntended(e: Shortcuts.KeyEvent, now: int)
      requires Valid()
      modifies this
      ensures Valid()
      ensures Shortcuts.DomShortcutIntended(e) == None ==> unchanged(this)
      ensures Shortcuts.DomShortcutIntended(e).Some? ==> Runs(Shortcuts.DomShortcutIntended(e).value, now)
    {
      var cmd := Shortcuts.DomShortcutIntended(e);
      if cmd.Some? {
        RunCommand(cmd.value, now);
      }
    }
  }
}
