/**
 * Drawing tools and the keyboard shortcuts of both scripts.
 *
 * The canvas script (js/whiteboard.js) looks the lower-cased key up in a
 * fixed letter-to-tool table and, separately, compares the key as typed with
 * "Delete", "Backspace", "+", "=", "-" and "0". The DOM script switches on
 * the lower-cased key, so its cases spelled with capitals ("Delete",
 * "Escape", "F1") can never match; DomShortcutIntended is the dispatcher
 * with those cases spelled in lower case.
 */
module Shortcuts {
  import opened Wrappers

  datatype Tool = Select | Pen | Highlighter | Rectangle | Circle | Arrow | Line | Text | Sticky | Hand {
    /** The tool's name as the scripts spell it (`data-tool` values). */
    function Name(): string {
      match this
      case Select => "select"
      case Pen => "pen"
      case Highlighter => "highlighter"
      case Rectangle => "rectangle"
      case Circle => "circle"
      case Arrow => "arrow"
      case Line => "line"
      case Text => "text"
      case Sticky => "sticky"
      case Hand => "hand"
    }
  }

  /** What a shortcut asks the board to do. */
  datatype Command =
    | Undo | Redo | Save | Copy | Paste
    | SelectTool(tool: Tool)
    | ClearCanvas | DeleteSelected | ClearSelection | ShowHelp
    | ZoomIn | ZoomOut | ResetZoom | FitToScreen

  /** A keydown: `e.key`, Ctrl or Meta held, Shift held, and whether the target is an input or textarea. */
  datatype KeyEvent = KeyEvent(key: string, ctrlOrMeta: bool, shift: bool, inTextField: bool)

  predicate IsUpper(c: char) {
    'A' <= c <= 'Z'
  }

  function LowerChar(c: char): (d: char)
    ensures !IsUpper(d)
    ensures !IsUpper(c) ==> d == c
  {
    if IsUpper(c) then (c as int + 32) as char else c
  }

  /** `toLowerCase()` on the ASCII letters. */
  function ToLower(s: string): (r: string)
    ensures |r| == |s|
    ensures forall i :: 0 <= i < |s| ==> r[i] == LowerChar(s[i])
  {
    seq(|s|, i requires 0 <= i < |s| => LowerChar(s[i]))
  }

  /** A lower-cased key never contains a capital letter. */
  lemma ToLowerHasNoCapital(s: string)
    ensures forall i :: 0 <= i < |ToLower(s)| ==> !IsUpper(ToLower(s)[i])
  {
  }

  /** The canvas script's `toolMap`: a tool for each of the nine table letters, never the hand. */
  function ToolMap(k: string): (r: Option<Tool>)
    ensures r.Some? <==> IsToolLetter(k)
    ensures r != Some(Hand)
  {
    if k == "v" then Some(Select)
    else if k == "p" then Some(Pen)
    else if k == "h" then Some(Highlighter)
    else if k == "r" then Some(Rectangle)
    else if k == "o" then Some(Circle)
    else if k == "a" then Some(Arrow)
    else if k == "l" then Some(Line)
    else if k == "t" then Some(Text)
    else if k == "s" then Some(Sticky)
    else None
  }

  /** Only a one-character key, and none of the zoom and delete keys, lower-cases to a tool letter. */
  lemma ToolKeyIsOneLetter(k: string)
    ensures ToolMap(ToLower(k)).Some? ==> |k| == 1 && k !in {"Delete", "Backspace", "+", "=", "-", "0"}
  {
    var l := ToLower(k);
    if ToolMap(l).Some? {
      assert |l| == 1;
      assert l == [LowerChar(k[0])];
      if k[0] in "+=-0" {
        assert LowerChar(k[0]) == k[0];
      }
    }
  }

  /** The nine letters of the tool table. */
  predicate IsToolLetter(k: string) {
    k in {"v", "p", "h", "r", "o", "a", "l", "t", "s"}
  }

  /** handleKeyboard of the canvas script: the commands one keydown triggers, in order. */
  function CanvasShortcut(e: KeyEvent): (r: seq<Command>)
    ensures e.inTextField ==> r == []
    ensures |r| <= 1
    ensures !e.inTextField && e.ctrlOrMeta ==>
              && (e.key == "z" ==> r == [if e.shift then Redo else Undo])
              && (e.key == "y" ==> r == [Redo])
              && (e.key == "s" ==> r == [Save])
              && (e.key !in {"z", "y", "s"} ==> r == [])
    ensures !e.inTextField && !e.ctrlOrMeta ==>
              && (e.key in {"Delete", "Backspace"} ==> r == [ClearCanvas])
              && (e.key in {"+", "="} ==> r == [ZoomIn])
              && (e.key == "-" ==> r == [ZoomOut])
              && (e.key == "0" ==> r == [ResetZoom])
  {
    if e.inTextField then []
    else if e.ctrlOrMeta then
      if e.key == "z" then [if e.shift then Redo else Undo]
      else if e.key == "y" then [Redo]
      else if e.key == "s" then [Save]
      else []
    else
      ToolKeyIsOneLetter(e.key);
      var byTool := match ToolMap(ToLower(e.key)) case Some(t) => [SelectTool(t)] case None => [];
      var other :=
        if e.key == "Delete" || e.key == "Backspace" then [ClearCanvas]
        else if e.key == "+" || e.key == "=" then [ZoomIn]
        else if e.key == "-" then [ZoomOut]
        else if e.key == "0" then [ResetZoom]
        else [];
      byTool + other
  }

  /** A key selects a tool exactly when, lower-cased, it is one of the nine table letters. */
  lemma CanvasToolKeys(e: KeyEvent, t: Tool)
    requires !e.inTextField && !e.ctrlOrMeta
    ensures CanvasShortcut(e) == [SelectTool(t)] <==> ToolMap(ToLower(e.key)) == Some(t)
    ensures (exists t' :: CanvasShortcut(e) == [SelectTool(t')]) <==> IsToolLetter(ToLower(e.key))
  {
    if ToolMap(ToLower(e.key)).Some? {
      var t' := ToolMap(ToLower(e.key)).value;
      assert CanvasShortcut(e) == [SelectTool(t')];
    } else {
      assert CanvasShortcut(e) == [] || !CanvasShortcut(e)[0].SelectTool?;
    }
  }

  /**
   * handleKeyboard of the DOM script, as written: the switch is on the
   * lower-cased key. Nothing happens in an input field, the history,
   * clipboard and save commands come only with Ctrl/Meta, and only a
   * one-character key selects a tool.
   */
  function DomShortcut(e: KeyEvent): (r: Option<Command>)
    ensures e.inTextField ==> r == None
    ensures r.Some? && r.value in {Undo, Redo, Copy, Paste, Save} <==> r.Some? && e.ctrlOrMeta
    ensures r.Some? && r.value.SelectTool? ==> !e.ctrlOrMeta && |e.key| == 1
    ensures !e.inTextField && e.ctrlOrMeta ==>
              && (e.key == "z" ==> r == Some(Undo))
              && (e.key == "y" ==> r == Some(Redo))
              && (e.key == "c" ==> r == Some(Copy))
              && (e.key == "v" ==> r == Some(Paste))
              && (e.key == "s" ==> r == Some(Save))
              && (e.key !in {"z", "y", "c", "v", "s"} ==> r == None)
    ensures !e.inTextField && !e.ctrlOrMeta ==>
              && (ToLower(e.key) == " " ==> r == Some(SelectTool(Hand)))
              && (ToLower(e.key) in {"+", "="} ==> r == Some(ZoomIn))
              && (ToLower(e.key) == "-" ==> r == Some(ZoomOut))
              && (ToLower(e.key) == "0" ==> r == Some(FitToScreen))
  {
    if e.inTextField then None
    else if e.ctrlOrMeta then
      if e.key == "z" then Some(Undo)
      else if e.key == "y" then Some(Redo)
      else if e.key == "c" then Some(Copy)
      else if e.key == "v" then Some(Paste)
      else if e.key == "s" then Some(Save)
      else None
    else DomPlainKey(ToLower(e.key), "Delete", "Escape", "F1")
  }

  /**
   * The switch over a key without Ctrl/Meta, with the labels of the delete,
   * escape and help cases as parameters.
   */
  function DomPlainKey(k: string, deleteLabel: string, escapeLabel: string, helpLabel: string): Option<Command>
  {
    if k == "v" then Some(SelectTool(Select))
    else if k == "p" then Some(SelectTool(Pen))
    else if k == "h" then Some(SelectTool(Highlighter))
    else if k == "t" then Some(SelectTool(Text))
    else if k == "s" then Some(SelectTool(Sticky))
    else if k == "r" then Some(SelectTool(Rectangle))
    else if k == "o" then Some(SelectTool(Circle))
    else if k == "l" then Some(SelectTool(Line))
    else if k == "a" then Some(SelectTool(Arrow))
    else if k == " " then Some(SelectTool(Hand))
    else if k == deleteLabel then Some(DeleteSelected)
    else if k == escapeLabel then Some(ClearSelection)
    else if k == helpLabel then Some(ShowHelp)
    else if k == "+" || k == "=" then Some(ZoomIn)
    else if k == "-" then Some(ZoomOut)
    else if k == "0" then Some(FitToScreen)
    else None
  }

  /**
   * handleKeyboard of the DOM script with the three capitalised labels
   * written in lower case: outside an input field and without Ctrl/Meta,
   * the keys that lower-case to "delete", "escape" and "f1", and only
   * those, delete the selection, clear it and show the help; every other
   * key does what it does as written.
   */
  function DomShortcutIntended(e: KeyEvent): (r: Option<Command>)
    ensures e.inTextField ==> r == None
    ensures ToLower(e.key) !in {"delete", "escape", "f1"} ==> r == DomShortcut(e)
    ensures !e.inTextField && !e.ctrlOrMeta ==>
              && (r == Some(DeleteSelected) <==> ToLower(e.key) == "delete")
              && (r == Some(ClearSelection) <==> ToLower(e.key) == "escape")
              && (r == Some(ShowHelp) <==> ToLower(e.key) == "f1")
  {
    DomDeadShortcuts(e);
    if e.inTextField || e.ctrlOrMeta then DomShortcut(e)
    else DomPlainKey(ToLower(e.key), "delete", "escape", "f1")
  }

  /**
   * As written, no keydown at all deletes the selection, clears it or shows
   * the help: a lower-cased key cannot equal a label with a capital letter.
   */
  lemma DomDeadShortcuts(e: KeyEvent)
    ensures DomShortcut(e) != Some(DeleteSelected)
    ensures DomShortcut(e) != Some(ClearSelection)
    ensures DomShortcut(e) != Some(ShowHelp)
  {
    if !e.inTextField && !e.ctrlOrMeta {
      var k := ToLower(e.key);
      ToLowerHasNoCapital(e.key);
      assert k != "Delete" by { if |k| > 0 { assert !IsUpper(k[0]); } }
      assert k != "Escape" by { if |k| > 0 { assert !IsUpper(k[0]); } }
      assert k != "F1" by { if |k| > 0 { assert !IsUpper(k[0]); } }
    }
  }

  /** With the labels in lower case, Delete, Escape and F1 do what the script means them to do. */
  lemma DomIntendedShortcuts()
    ensures DomShortcutIntended(KeyEvent("Delete", false, false, false)) == Some(DeleteSelected)
    ensures DomShortcutIntended(KeyEvent("Escape", false, false, false)) == Some(ClearSelection)
    ensures DomShortcutIntended(KeyEvent("F1", false, false, false)) == Some(ShowHelp)
  {
    assert ToLower("Delete") == "delete";
    assert ToLower("Escape") == "escape";
    assert ToLower("F1") == "f1";
  }

  /** Both scripts select the same tool for each of the nine tool letters. */
  lemma ToolLettersAgree(e: KeyEvent)
    requires !e.inTextField && !e.ctrlOrMeta && IsToolLetter(ToLower(e.key))
    ensures DomShortcut(e).Some? && CanvasShortcut(e) == [DomShortcut(e).value]
  {
  }
}
