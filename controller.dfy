/**
 * WhiteboardController: which board the main screen opens. The optional
 * query parameters board, template, shared, copy-shared and duplicate are
 * looked at in that order; the first one present sets the mode and its own
 * id attribute, and with none present the mode is "new".
 */
module Controller {
  import opened Wrappers

  /** The five optional request parameters (None when absent). */
  datatype Params = Params(board: Option<string>, template: Option<string>, shared: Option<string>,
                           copyShared: Option<string>, duplicate: Option<string>)

  /** What the handler leaves in the Spring model, and the view it names. */
  datatype Page = Page(attributes: map<string, string>, view: string)

  /** The parameters in priority order. */
  function Args(p: Params): (r: seq<Option<string>>)
    ensures |r| == 5
  {
    [p.board, p.template, p.shared, p.copyShared, p.duplicate]
  }

  /** The model attribute that carries each parameter's value, in priority order. */
  const IdNames: seq<string> := ["boardId", "templateId", "sharedBoardId", "copySharedId", "duplicateId"]

  /** The mode each parameter selects, in priority order. */
  const ModeNames: seq<string> := ["edit", "template", "shared", "copy-shared", "duplicate"]

  /** The index of the first present argument, if any. */
  function FirstPresent(args: seq<Option<string>>): (r: Option<nat>)
    ensures r.Some? ==> r.value < |args| && args[r.value].Some?
    ensures r.Some? ==> forall j :: 0 <= j < r.value ==> args[j].None?
    ensures r.None? ==> forall j :: 0 <= j < |args| ==> args[j].None?
    decreases args
  {
    if args == [] then None
    else if args[0].Some? then Some(0)
    else match FirstPresent(args[1..])
      case None => None
      case Some(i) => Some(i + 1)
  }

  /** whiteboard(): the if / else-if chain over the parameters. */
  function Whiteboard(p: Params): (r: Page)
    ensures r.view == "mainscreen"
    ensures "mode" in r.attributes
    ensures p.board.Some? ==> r.attributes == map["boardId" := p.board.value, "mode" := "edit"]
    ensures Args(p) == [None, None, None, None, None] ==> r.attributes == map["mode" := "new"]
  {
    var attributes :=
      if p.board.Some? then map["boardId" := p.board.value, "mode" := "edit"]
      else if p.template.Some? then map["templateId" := p.template.value, "mode" := "template"]
      else if p.shared.Some? then map["sharedBoardId" := p.shared.value, "mode" := "shared"]
      else if p.copyShared.Some? then map["copySharedId" := p.copyShared.value, "mode" := "copy-shared"]
      else if p.duplicate.Some? then map["duplicateId" := p.duplicate.value, "mode" := "duplicate"]
      else map["mode" := "new"];
    Page(attributes, "mainscreen")
  }

  /**
   * The first present parameter alone decides: its id attribute holds its
   * value and the mode is its mode; no other attribute is set.
   */
  lemma WhiteboardPicksFirstPresent(p: Params)
    ensures match FirstPresent(Args(p))
            case Some(i) =>
              Whiteboard(p).attributes == map[IdNames[i] := Args(p)[i].value, "mode" := ModeNames[i]]
            case None =>
              Whiteboard(p).attributes == map["mode" := "new"]
  {
    var a := Args(p);
    assert a[1..][1..][1..][1..][1..] == [];
    if a[0].None? && a[1].None? && a[2].None? && a[3].None? && a[4].Some? {
      assert FirstPresent(a[1..][1..][1..][1..]) == Some(0);
    }
  }

  /** Exactly one mode attribute, and at most one id attribute, named after the chosen parameter. */
  lemma WhiteboardAttributes(p: Params)
    ensures var keys := Whiteboard(p).attributes.Keys;
            keys == {"mode"} || exists i :: 0 <= i < 5 && keys == {"mode", IdNames[i]}
    ensures Whiteboard(p).attributes["mode"] in ModeNames + ["new"]
  {
    WhiteboardPicksFirstPresent(p);
    match FirstPresent(Args(p))
    case Some(i) =>
      assert Whiteboard(p).attributes.Keys == {"mode", IdNames[i]};
    case None =>
  }

  /**
   * Parameters of lower priority than the first present one make no
   * difference, whether present or not.
   */
  lemma LowerPriorityIgnored(p: Params, q: Params, i: nat)
    requires FirstPresent(Args(p)) == Some(i)
    requires Args(p)[..i + 1] == Args(q)[..i + 1]
    ensures Whiteboard(p) == Whiteboard(q)
  {
    assert FirstPresent(Args(q)) == Some(i) by {
      assert forall j :: 0 <= j <= i ==> Args(q)[j] == Args(p)[..i + 1][j];
      FirstPresentIs(Args(q), i);
    }
    WhiteboardPicksFirstPresent(p);
    WhiteboardPicksFirstPresent(q);
    assert Args(q)[i] == Args(p)[..i + 1][i];
  }

  /** FirstPresent finds exactly the first present argument. */
  lemma {:induction false} FirstPresentIs(args: seq<Option<string>>, i: nat)
    requires i < |args| && args[i].Some? && forall j :: 0 <= j < i ==> args[j].None?
    ensures FirstPresent(args) == Some(i)
    decreases args
  {
    if i > 0 {
      FirstPresentIs(args[1..], i - 1);
    }
  }

  /** The paths whiteboard() is mapped to. */
  const WhiteboardRoutes: set<string> := {"/whiteboard", "/mainscreen"}

  const RedirectPrefix: string := "redirect:"

  /** whiteboardLegacy(): the old page's address redirects to one that whiteboard() serves. */
  function WhiteboardLegacy(): (r: string)
    ensures |r| > |RedirectPrefix| && r[..|RedirectPrefix|] == RedirectPrefix
    ensures r[|RedirectPrefix|..] in WhiteboardRoutes
  {
    RedirectPrefix + "/mainscreen"
  }
}
