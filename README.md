# CollaboDraw whiteboard core in Dafny

CollaboDraw is a browser whiteboard. Its logic lives in two scripts:

- `js/whiteboard.js`, the *canvas script*. It keeps a display list of drawn elements (pen and highlighter paths, rectangles, circles, lines, arrows, text) and a capped undo/redo history of element-list snapshots.
- `whiteboard.js` at the top of the static folder, the *DOM script*. It keeps sticky notes and text boxes as child nodes of a container, with a selection, a clipboard, z-order, a capped undo/redo history of the container's content, and a ten-entry auto-save version log.

A Spring controller picks the mode in which the main screen opens.

This project models that core and proves what it does:

- `Stacks`: the commit rule both histories share. Push the snapshot, evict the oldest past 50, clear the redo stack.
- `CanvasHistory`: the canvas script's transfer undo/redo, with its inverse laws.
- `DomHistory`: the DOM script's swap-with-current undo/redo.
- `Elements`: the element datatype and the rule that turns a finished gesture into at most one element.
- `CanvasBoard.Board`: the canvas script's global state as a class whose methods are its handlers.
- `DomItems`: the item datatype and the list operations the DOM script's handlers perform.
- `DomBoard.Board`: the DOM script's global state. Element nodes are kept in an allocation log, so a selection made before an undo goes on naming the detached nodes, as it does in the browser.
- `VersionLog`: the newest-first version log capped at ten.
- `Numerals`, `Timer`, `Colors`: `toString(10)`, `toString(16)`, `padStart`, the `mm:ss` timer text and `rgbToHex`.
- `View`: the zoom clamps.
- `Shortcuts`: both scripts' keyboard dispatch.
- `Controller`: the board-open mode chain and the legacy redirect.

Snapshots are values. The scripts serialise them (JSON text, `innerHTML`) and parse them back; here that round trip is the identity. Coordinates and zoom levels are exact reals, and the numbers `parseInt` reads out of a colour are exact naturals. Ids from `generateId` are a counter, which makes them fresh by construction. Timestamps (`Date.now()`) and the answer typed into `prompt` are parameters.

Where the two scripts differ, each is modelled as written:

- The canvas undo needs two snapshots. The DOM undo needs one.
- The canvas script stores highlighter paths with alpha 0.4. The DOM script only sets 0.5 on the drawing context and stores no strokes.

## Model

| member | source | states |
|---|---|---|
| `Stacks.PushBounded` | src/main/resources/static/js/whiteboard.js:605-608 | the pushed snapshot is the new top; below 50 entries nothing is lost, at 50 or more exactly the oldest entry is shifted out; a stack of at most 50 stays at most 50 |
| `Stacks.PushBoundedKeepsNewest` | src/main/resources/static/js/whiteboard.js:605-608 | the 49 newest old entries survive a push, in their old order, just below the new top |
| `Stacks.Commit` | src/main/resources/static/js/whiteboard.js:603-610 | after a commit the redo stack is empty, the new snapshot is on top, the undo stack is the old one plus the snapshot (oldest evicted past 50), and at most 50 entries are held in all |
| `CanvasHistory.Undo` | src/main/resources/static/js/whiteboard.js:454-461 | nothing changes unless the undo stack holds more than one entry; otherwise its top moves onto the redo stack, the entry below becomes the top, the total size is kept and the undo stack never drops below one entry |
| `CanvasHistory.Redo` | src/main/resources/static/js/whiteboard.js:463-470 | nothing changes on an empty redo stack; otherwise the redo top moves back onto the undo stack; the total size is kept |
| `CanvasHistory.UndoThenRedo` | src/main/resources/static/js/whiteboard.js:454-470 | an undo that acts, followed by a redo, restores both stacks exactly and so the pre-undo elements |
| `CanvasHistory.RedoThenUndo` | src/main/resources/static/js/whiteboard.js:454-470 | a redo followed by an undo restores both stacks exactly |
| `CanvasHistory.UndoNThenRedoN` | src/main/resources/static/js/whiteboard.js:454-470 | n undos followed by n redos restore the history whenever the undo stack holds more than n entries |
| `CanvasHistory.UndoRestoresPreviousCommit` | src/main/resources/static/js/whiteboard.js:454-461 | an undo straight after a commit shows the snapshot committed before it, and a redo brings the new commit back |
| `CanvasHistory.RunKeepsBounds` | src/main/resources/static/js/whiteboard.js:454-470 | over any sequence of commits, undos and redos, at most 50 entries are held in all and, once anything is committed, the undo stack is never empty |
| `DomHistory.Undo` | src/main/resources/static/whiteboard.js:837-858 | nothing changes on an empty undo stack; otherwise the current state goes onto the redo stack and the top is popped; the total size is kept |
| `DomHistory.Redo` | src/main/resources/static/whiteboard.js:860-881 | nothing changes on an empty redo stack; otherwise the current state goes onto the undo stack and the redo top is popped; the total size is kept |
| `DomHistory.UndoThenRedo` | src/main/resources/static/whiteboard.js:837-881 | an undo followed by a redo puts back exactly the pre-undo content and restores the redo stack |
| `DomHistory.RedoThenUndo` | src/main/resources/static/whiteboard.js:837-881 | a redo followed by an undo puts back exactly the pre-redo content and restores the undo stack |
| `DomHistory.UndoAfterCommitRestoresCommitted` | src/main/resources/static/whiteboard.js:821-858 | as written, an undo right after a commit restores the snapshot that commit has just taken |
| `DomHistory.RunKeepsBounds` | src/main/resources/static/whiteboard.js:821-881 | redo pushes without evicting, yet over any sequence of operations the undo stack never exceeds 50 entries |
| `Elements.GestureElement` | src/main/resources/static/js/whiteboard.js:269-325 | a pen or highlighter path is stored exactly when it has more than one point, with the collected points and tool; pen width 2 and no alpha, highlighter width 8 and alpha 0.4; rectangle, line and arrow record the gesture's start and release points; a circle is centred on their midpoint with half their distance as radius; other tools store nothing; whatever is stored is well formed and in the current colour |
| `Elements.AppendWellFormed` | src/main/resources/static/js/whiteboard.js:269-325 | appending a well-formed element keeps every stored path at two points or more |
| `CanvasBoard.Added` | src/main/resources/static/js/whiteboard.js:269-325 | a gesture appends at most one element, and exactly one when it makes one |
| `CanvasBoard.Board.constructor` | src/main/resources/static/js/whiteboard.js:7-21 | the initial globals: no elements, empty stacks, zoom 1, select tool, black |
| `CanvasBoard.Board.SaveToHistory` | src/main/resources/static/js/whiteboard.js:603-610 | the stacks become the commit of the current elements, and the board invariant (bounded stacks, well-formed snapshots, elements equal the top snapshot, zoom in range) holds again |
| `CanvasBoard.Board.Undo` | src/main/resources/static/js/whiteboard.js:454-461 | the stacks follow `CanvasHistory.Undo`; the elements become the snapshot below the old top, or stay when there is none |
| `CanvasBoard.Board.Redo` | src/main/resources/static/js/whiteboard.js:463-470 | the stacks follow `CanvasHistory.Redo`; the elements become the old redo top, or stay when the redo stack is empty |
| `CanvasBoard.Board.SelectTool` | src/main/resources/static/js/whiteboard.js:152-172 | the current tool becomes the chosen one |
| `CanvasBoard.Board.SelectColor` | src/main/resources/static/js/whiteboard.js:175-189 | the current colour becomes the chosen one |
| `CanvasBoard.Board.AddText` | src/main/resources/static/js/whiteboard.js:331-345 | a non-empty answer appends one 16px text element in the current colour and commits; an empty or cancelled one changes nothing |
| `CanvasBoard.Board.StartDrawing` | src/main/resources/static/js/whiteboard.js:194-223 | every tool starts a gesture at the point; pen and highlighter restart the stroke there; the text tool adds its text at once |
| `CanvasBoard.Board.Draw` | src/main/resources/static/js/whiteboard.js:225-255 | during a gesture the pen and highlighter append the point to the stroke; nothing else changes state |
| `CanvasBoard.Board.StopDrawing` | src/main/resources/static/js/whiteboard.js:257-329 | outside a gesture nothing changes; otherwise the gesture ends, the elements grow by exactly what `GestureElement` makes (at most one), one commit follows, and the stroke is cleared only when a stroke was stored |
| `CanvasBoard.Board.ClearCanvas` | src/main/resources/static/js/whiteboard.js:760-765 | the elements are empty and exactly one commit of the empty list is recorded |
| `CanvasBoard.Board.LoadBoard` | src/main/resources/static/js/whiteboard.js:625-642 | a readable stored board replaces the elements; a commit follows whether or not one was read |
| `CanvasBoard.Board.ZoomIn` | src/main/resources/static/js/whiteboard.js:472-477 | the zoom level takes one clamped step in and stays within [0.1, 3] |
| `CanvasBoard.Board.ZoomOut` | src/main/resources/static/js/whiteboard.js:479-484 | the zoom level takes one clamped step out and stays within [0.1, 3] |
| `CanvasBoard.Board.ResetZoom` | src/main/resources/static/js/whiteboard.js:767-772 | the zoom level is 1 |
| `CanvasBoard.Board.HandleKeyboard` | src/main/resources/static/js/whiteboard.js:704-758 | a key runs the command it maps to with exactly that command's effect: undo and redo move the history and show the snapshot they reach (or keep the elements when there is none); a tool key changes only the tool; Delete/Backspace clears and commits; the zoom keys change only the zoom; none of them touches the other fields; an unmapped key or Ctrl+S leaves the board as it is |
| `DomItems.Truncate` | src/main/resources/static/whiteboard.js:616-617 | `parseInt` of a pixel length truncates toward zero: within one pixel of the value, on the side of zero |
| `DomItems.TruncateWhole` | src/main/resources/static/whiteboard.js:616-617 | a whole pixel position reads back unchanged |
| `DomItems.Clones` | src/main/resources/static/whiteboard.js:610-627 | one copy per item in order, with consecutive ids from the next fresh one, the same kind and z-index, moved by the offset from the truncated position |
| `DomItems.ClonesAreFresh` | src/main/resources/static/whiteboard.js:610-680 | no copy shares an id with any earlier item or with another copy |
| `DomItems.ClonesOfClones` | src/main/resources/static/whiteboard.js:610-680 | copying a copy moves it by the sum of the two offsets |
| `DomItems.WithZIndex` | src/main/resources/static/whiteboard.js:685-700 | the chosen nodes get the new z-index and every other node is untouched |
| `DomItems.Without` | src/main/resources/static/whiteboard.js:632-639 | a handle remains exactly when it was there and is not among the removed ones |
| `DomItems.WithoutStep` | src/main/resources/static/whiteboard.js:633-635 | removing the selected nodes one at a time removes them all |
| `DomItems.WithoutNothing` | src/main/resources/static/whiteboard.js:633-635 | removing nodes that are not attached changes nothing |
| `DomItems.WithoutDistinct` | src/main/resources/static/whiteboard.js:633-635 | after removals no node is attached twice |
| `DomBoard.Board.constructor` | src/main/resources/static/whiteboard.js:7-41 | the initial globals: empty container, selection, clipboard and stacks, zoom 1, no pan |
| `DomBoard.Board.SaveState` | src/main/resources/static/whiteboard.js:821-835 | the stacks become the commit of the container's content with the board name and time, and the board invariant (attached and selected handles allocated, no node attached twice, stacks bounded, zoom in range, every id issued) holds |
| `DomBoard.Board.Replace` | src/main/resources/static/whiteboard.js:852 | setting the container's markup shows exactly the given items in fresh nodes, so no selected node is attached any more |
| `DomBoard.Board.Undo` | src/main/resources/static/whiteboard.js:837-858 | the stacks follow `DomHistory.Undo` with the current content; the content becomes the popped snapshot's, shown by fresh nodes; the selection no longer names an attached node; right after a save the content does not change |
| `DomBoard.Board.Redo` | src/main/resources/static/whiteboard.js:860-881 | the stacks follow `DomHistory.Redo` with the current content; the content becomes the popped redo snapshot's, shown by fresh nodes |
| `DomBoard.Board.SelectElement` | src/main/resources/static/whiteboard.js:520-531 | the selection is exactly the one node |
| `DomBoard.Board.ClearSelection` | src/main/resources/static/whiteboard.js:772-775 | the selection is empty |
| `DomBoard.Board.Append` | src/main/resources/static/whiteboard.js:425 | a new node showing the item is attached at the end of the container |
| `DomBoard.Board.CreateStickyNote` | src/main/resources/static/whiteboard.js:405-431 | one new note with a fresh id at the click position is appended and selected, then a commit |
| `DomBoard.Board.CreateTextElement` | src/main/resources/static/whiteboard.js:436-461 | one new text box with a fresh id at the click position is appended, then a commit |
| `DomBoard.Board.DeleteSelected` | src/main/resources/static/whiteboard.js:632-639 | every selected node and only those leave the container, the selection is empty and one commit follows; when no selected node is attached the content is unchanged |
| `DomBoard.Board.AppendClones` | src/main/resources/static/whiteboard.js:611-623 | the container gains exactly the copies of the items, in order, with fresh ids |
| `DomBoard.Board.DuplicateSelected` | src/main/resources/static/whiteboard.js:610-627 | the content gains one copy of every selected item, moved by 20 pixels, with a fresh id; one commit follows |
| `DomBoard.Board.CopySelected` | src/main/resources/static/whiteboard.js:644-650 | the clipboard holds the selected items as they are now |
| `DomBoard.Board.PasteFromClipboard` | src/main/resources/static/whiteboard.js:655-680 | with an empty clipboard nothing changes and nothing is committed; otherwise the content gains one copy per clipboard item, moved by 30 pixels, with a fresh id, and one commit follows |
| `DomBoard.Board.SetSelectedZIndex` | src/main/resources/static/whiteboard.js:686-688 | every selected node gets the z-index and no other node changes |
| `DomBoard.Board.BringToFront` | src/main/resources/static/whiteboard.js:685-690 | selected nodes get z-index 1000, others are untouched, one commit follows |
| `DomBoard.Board.SendToBack` | src/main/resources/static/whiteboard.js:695-700 | selected nodes get z-index 1, others are untouched, one commit follows |
| `DomBoard.Board.SelectTool` | src/main/resources/static/whiteboard.js:222-249 | the current tool becomes the chosen one |
| `DomBoard.Board.StartDrawing` | src/main/resources/static/whiteboard.js:332-348 | only pen, highlighter, line, rectangle and circle start a stroke |
| `DomBoard.Board.StopDrawing` | src/main/resources/static/whiteboard.js:369-382 | ending a stroke commits the container's content (which holds no stroke); outside a stroke nothing is committed |
| `DomBoard.Board.ZoomIn` | src/main/resources/static/whiteboard.js:796-799 | one clamped step in, within [0.1, 3] |
| `DomBoard.Board.ZoomOut` | src/main/resources/static/whiteboard.js:801-804 | one clamped step out, within [0.1, 3] |
| `DomBoard.Board.FitToScreen` | src/main/resources/static/whiteboard.js:806-811 | zoom 1 and pan (0, 0) |
| `DomBoard.Board.RunCommand` | src/main/resources/static/whiteboard.js:710-790 | each command sets exactly its own fields and every other field keeps its value. Ctrl+Z and Ctrl+Y move the history and show the snapshot they reach, or keep the content when there is none. Ctrl+C sets only the clipboard, to the selection. Ctrl+V appends clones of the clipboard, advances the id counter and commits, or does nothing when the clipboard is empty. A tool key sets only the tool. Delete removes the selected nodes and commits. Escape only empties the selection. `+` and `-` set only the zoom level. `0` sets only the zoom and the pan. Save, help and the canvas-only commands change nothing |
| `DomBoard.Board.HandleKeyboard` | src/main/resources/static/whiteboard.js:705-791 | as written: an unmapped key or a key typed in an input field leaves the board as it is; any other key has exactly the effect `RunCommand` states for the command `Shortcuts.DomShortcut` picks; no key other than undo, redo and paste changes what the container shows |
| `DomBoard.Board.HandleKeyboardIntended` | src/main/resources/static/whiteboard.js:705-791 | the same dispatch with the Delete, Escape and F1 labels in lower case: an unmapped key leaves the board as it is; any other key has exactly the effect `RunCommand` states for the command `Shortcuts.DomShortcutIntended` picks |
| `VersionLog.FirstTen` | src/main/resources/static/whiteboard.js:159 | a prefix of the list: all of it when it has ten or fewer entries, exactly its first ten otherwise |
| `VersionLog.Added` | src/main/resources/static/whiteboard.js:1070-1071 | the new version is first, the older ones follow in order, and at most ten are kept |
| `VersionLog.AddedAllNewestFirst` | src/main/resources/static/whiteboard.js:1058-1075 | after a series of saves the log holds the latest ten versions, newest first |
| `VersionLog.VersionStore.GetVersionHistory` | src/main/resources/static/whiteboard.js:157-160 | a prefix of what is stored: all of it when ten or fewer versions are stored, exactly the first ten otherwise |
| `VersionLog.VersionStore.AddToVersionHistory` | src/main/resources/static/whiteboard.js:1058-1075 | the stored log is `Added` of the previous visible log: the new version at index 0, at most ten |
| `Numerals.ToBase` | src/main/resources/static/whiteboard.js:967 | `toString(base)`: non-empty digits of the base, no leading zero, a single digit exactly below the base |
| `Numerals.FromToBase` | src/main/resources/static/whiteboard.js:967 | the digits read back as the number |
| `Numerals.PadStart` | src/main/resources/static/whiteboard.js:902 | `padStart`: at least the width, the string kept at the end, fill characters in front, unchanged when already wide enough |
| `Numerals.PaddedRoundTrip` | src/main/resources/static/whiteboard.js:902 | zero-padded digits still read back as the number |
| `Timer.TimerDisplay` | src/main/resources/static/js/whiteboard.js:570-579 | the text has at least five characters with the colon three places from the end, so the minutes field has at least two characters and the seconds field exactly two |
| `Timer.TimerDisplayFields` | src/main/resources/static/js/whiteboard.js:570-579 | the minutes field has at least two characters; the fields read back as `seconds / 60` and `seconds % 60` and recompose the total |
| `Timer.TimerDisplayInjective` | src/main/resources/static/whiteboard.js:899-904 | two different counts never show the same text |
| `Timer.TimerDisplayDigits` | src/main/resources/static/whiteboard.js:899-904 | every character but the colon is a decimal digit |
| `Timer.TimerDisplayLength` | src/main/resources/static/whiteboard.js:899-904 | the text is exactly `mm:ss` (five characters) exactly below 100 minutes |
| `Colors.DigitRuns` | src/main/resources/static/whiteboard.js:965 | the maximal runs of decimal digits, each non-empty |
| `Colors.RgbToHex` | src/main/resources/static/whiteboard.js:963-968 | a leading `#` is returned unchanged, no digit at all gives `#000000`, the result always starts with `#` |
| `Colors.Component` | src/main/resources/static/whiteboard.js:967 | one converted component is lower-case hex of at least two places; a value below 256 takes exactly two places |
| `Colors.ComponentReadsBack` | src/main/resources/static/whiteboard.js:967 | a converted component read as hex gives back the run's decimal value |
| `Colors.JoinPairsField` | src/main/resources/static/whiteboard.js:967 | joining two-character parts gives twice as many characters, part `k` sitting at places `2k` and `2k+1` |
| `Colors.HashJoinFields` | src/main/resources/static/whiteboard.js:967 | `#` followed by the join has one place plus two per part, places `1+2k` and `2+2k` hold part `k`, and every later character comes from the part its position names |
| `Colors.RgbToHexFields` | src/main/resources/static/whiteboard.js:963-968 | for any value not starting with `#` whose digit runs are all below 256, the result is `#` and then two lower-case hex digits per run, in order, each pair reading back as that run's value |
| `Colors.RgbRuns` | src/main/resources/static/whiteboard.js:965 | the digit runs of `rgb(r, g, b)` are the three decimal components |
| `Colors.RgbToHexOfRgb` | src/main/resources/static/whiteboard.js:963-968 | for components below 256 the result is seven characters and its three hex fields read back as red, green and blue |
| `View.ZoomIn` | src/main/resources/static/whiteboard.js:796-799 | never above 3; a level in [0.1, 3] stays there and does not decrease |
| `View.ZoomOut` | src/main/resources/static/whiteboard.js:801-804 | never below 0.1; a level in [0.1, 3] stays there and does not increase |
| `View.ZoomOutUndoesZoomIn` | src/main/resources/static/js/whiteboard.js:472-484 | over exact reals, a step out undoes a step in that did not hit the ceiling |
| `View.ZoomInUndoesZoomOut` | src/main/resources/static/js/whiteboard.js:472-484 | over exact reals, a step in undoes a step out that did not hit the floor |
| `View.ZoomStepsStayInRange` | src/main/resources/static/js/whiteboard.js:472-484 | any number of steps keeps the level within [0.1, 3] |
| `View.ZoomInReachesCeiling` | src/main/resources/static/js/whiteboard.js:472-477 | over exact reals, from 100% six steps in give 2.985984 and the seventh is clamped to 3 |
| `Shortcuts.ToLower` | src/main/resources/static/js/whiteboard.js:743-744 | `toLowerCase` on ASCII: same length, each character lowered |
| `Shortcuts.ToolMap` | src/main/resources/static/js/whiteboard.js:731-741 | a tool exactly for the nine table letters, and never the hand tool |
| `Shortcuts.CanvasShortcut` | src/main/resources/static/js/whiteboard.js:704-758 | nothing in an input field; at most one command per key. With Ctrl/Meta, the case-sensitive `z` gives undo (redo with Shift), `y` redo, `s` save, and any other key nothing. Without Ctrl/Meta, Delete and Backspace clear the canvas, `+` and `=` zoom in, `-` zooms out and `0` resets the zoom |
| `Shortcuts.CanvasToolKeys` | src/main/resources/static/js/whiteboard.js:731-745 | a key selects a tool exactly when, lower-cased, it is one of the nine letters of the tool table, and then that letter's tool |
| `Shortcuts.DomShortcut` | src/main/resources/static/whiteboard.js:705-791 | as written: nothing in an input field; undo, redo, copy, paste and save exactly when a command comes with Ctrl/Meta, from the case-sensitive `z`, `y`, `c`, `v` and `s`, and nothing for any other Ctrl/Meta key; a tool only for a one-character key without Ctrl/Meta; the lower-cased space selects the hand, `+` and `=` zoom in, `-` zooms out and `0` fits to screen |
| `Shortcuts.DomDeadShortcuts` | src/main/resources/static/whiteboard.js:737-779 | as written, no key deletes the selection, clears it or shows the help |
| `Shortcuts.DomIntendedShortcuts` | src/main/resources/static/whiteboard.js:737-779 | with the labels in lower case, Delete, Escape and F1 reach their cases |
| `Shortcuts.DomShortcutIntended` | src/main/resources/static/whiteboard.js:737-790 | with the labels in lower case: nothing in an input field; a plain key deletes the selection, clears it or shows the help exactly when it lower-cases to `delete`, `escape` or `f1`; every other key does what it does as written |
| `Shortcuts.ToolLettersAgree` | src/main/resources/static/whiteboard.js:737-764 | for each of the nine letters of the canvas script's tool table, both scripts select the same tool |
| `Controller.FirstPresent` | src/main/java/com/example/collabodraw/whiteboard/WhiteboardController.java:22-39 | the index of the first present parameter, with every earlier one absent; none when all are absent |
| `Controller.Whiteboard` | src/main/java/com/example/collabodraw/whiteboard/WhiteboardController.java:13-42 | the view is always `mainscreen` and a mode is always set; with `board` present the attributes are exactly its id and mode `edit`; with no parameter exactly mode `new` |
| `Controller.WhiteboardPicksFirstPresent` | src/main/java/com/example/collabodraw/whiteboard/WhiteboardController.java:22-39 | the first present parameter in the order board, template, shared, copy-shared, duplicate sets its own id attribute and its mode, and nothing else is set |
| `Controller.WhiteboardAttributes` | src/main/java/com/example/collabodraw/whiteboard/WhiteboardController.java:22-39 | exactly one mode attribute from the six modes, plus at most one id attribute |
| `Controller.LowerPriorityIgnored` | src/main/java/com/example/collabodraw/whiteboard/WhiteboardController.java:22-36 | parameters after the first present one make no difference |
| `Controller.WhiteboardLegacy` | src/main/java/com/example/collabodraw/whiteboard/WhiteboardController.java:45-48 | the legacy page redirects to a route that the main handler serves |

## Left out

- Canvas rendering is not modelled: `redrawCanvas`, the shape previews while dragging, and the arrow-head trigonometry. These are floating-point drawing calls against the browser canvas.
- DOM wiring is not modelled: event listeners, inline-handler fixing, tooltips, the traybar and sidebar toggles, notifications, cursor classes, the context menu, the properties panel and the `selected` CSS class.
- Element dragging (`setupElementInteraction`) and `editElement` are not modelled. They follow the mouse and commit the moved position.
- Persistence is not modelled: storage access, JSON and `innerHTML` serialisation, `saveBoard`, `autoSave`, `saveBoardState`, `loadBoardState` and `restoreVersion`. Snapshots and versions are plain values, and the stored list is a field.
- Timers are not modelled: the auto-save interval, timer ticking and the `setTimeout` status resets. Only the `mm:ss` formatting is modelled.
- `generateId`, the clock and `prompt` are not modelled. Ids come from a counter; times and prompt answers are parameters.
- Simulated collaboration is not modelled: `startRealTimeSync`, `updateUserCursors`, `broadcastChange` and the user avatars. These are random positions and logging.
- The share and export dialogs, `showHelp`, `goHome`, `auth.js`, both `sidebar-toggle.js` files, the Java configuration, security and data-access classes, and the mock-data controllers are not part of this model.
- Elements.GestureElement: the circle radius is the caller's, constrained by `4r² = dx² + dy²` with `r ≥ 0`, because `Math.sqrt` on doubles has no exact real counterpart.
- DomItems.Truncate: `parseInt` is modelled on numeric positions. Reading the pixel string back, including an empty or non-numeric one, is not modelled.
- Colors.Component: a digit run is read as an exact natural, not as `parseInt`'s double. So a run above 2^53 (9007199254740992) is not rounded, and one above about 1.8e308 does not become `Infinity`, which in the script would give the text `Infinity` instead of hex digits. The script's callers pass computed CSS colours, whose components are at most 255.
- Colors.ComponentReadsBack: the exact read-back holds for every run here. In the script it holds only up to 2^53, because `parseInt` rounds larger values first.
- Colors.RgbToHex: it inherits Component's exact reading. For a run above 2^53 the script's text differs, for example `"#200000000000000000"` against the model's `"#200000000000010000"` for `rgb(9007199254740993, 0, 0)`.
- Shortcuts.ToLower: only ASCII letters are lowered. Unicode case mapping is not modelled.
- DomBoard.Board.RunCommand: Ctrl+S (`saveBoard`) and F1 (`showHelp`) leave the board state unchanged here, because their effect is on storage and the screen.
- View.ZoomOutUndoesZoomIn: holds for exact reals only. With doubles a step in followed by a step out can be off by one unit in the last place.
- View.ZoomInUndoesZoomOut: holds for exact reals only. With doubles a step out followed by a step in can be off by one unit in the last place.
- View.ZoomInReachesCeiling: states the exact-real levels. With doubles the sixth level is a rounded product, not exactly 2.985984.
- The canvas script's pen strokes drawn in the DOM script are not modelled. They live on the canvas, outside the container the snapshots record.
- Each item's inner markup (note title, text, input colour) is not modelled. An item records only its id, kind, position and z-index.

## Findings

| source | as written | input that shows it | evidently intended | confidence | as-written member | corrected member |
|---|---|---|---|---|---|---|
| src/main/resources/static/whiteboard.js:737-779 | the key is lower-cased before the switch, but three cases are spelled `'Delete'`, `'Escape'` and `'F1'`, so none can ever match | pressing Delete with a note selected: the key becomes `"delete"`, no case matches and nothing is deleted | Delete deletes the selection, Escape clears it, F1 shows the help | not executed | `Shortcuts.DomDeadShortcuts` | `Shortcuts.DomShortcutIntended` |
| src/main/resources/static/whiteboard.js:821-858 | every change ends with `saveState`, so the top of the undo stack is the content already shown, and `undo` restores that popped entry | create a sticky note, then undo: the popped snapshot holds the note, so the note stays | undo returns to the content before the last change, as the canvas script's undo does | not executed | `DomHistory.UndoAfterCommitRestoresCommitted` | `CanvasHistory.UndoRestoresPreviousCommit` |

For the first row, `DomBoard.Board.HandleKeyboard` models the dispatch as written. `DomBoard.Board.HandleKeyboardIntended` is the same dispatch with the corrected labels.

For the second row, `DomBoard.Board.Undo` models the undo as written: its contract shows that right after a save the content does not change. The canvas board (`CanvasBoard.Board.Undo`) uses the corrected discipline.
