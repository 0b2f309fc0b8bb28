/**
 * The retained display list of the canvas script (js/whiteboard.js): every
 * committed drawing is a tagged element, and a finished mouse gesture
 * turns into at most one of them (GestureElement).
 */
module Elements {
  import opened Wrappers
  import Shortcuts

  /** A canvas position (a double in the script). */
  datatype Point = Point(x: real, y: real)

  datatype Element =
    | Path(points: seq<Point>, color: string, lineWidth: nat, tool: Shortcuts.Tool, alpha: Option<real>)
    | Rectangle(start: Point, end: Point, color: string)
    | Circle(center: Point, radius: real, color: string)
    | Line(start: Point, end: Point, color: string)
    | Arrow(start: Point, end: Point, color: string)
    | Text(at: Point, text: string, color: string, fontSize: nat)

  /** The store never holds a path of fewer than two points. */
  predicate WellFormed(e: Element) {
    e.Path? ==> |e.points| > 1
  }

  predicate AllWellFormed(es: seq<Element>) {
    forall i :: 0 <= i < |es| ==> WellFormed(es[i])
  }

  lemma AppendWellFormed(es: seq<Element>, e: Element)
    requires AllWellFormed(es) && WellFormed(e)
    ensures AllWellFormed(es + [e])
  {
  }

  /** `r` is half the distance from `a` to `b` (the script takes a square root of doubles). */
  predicate IsHalfDistance(r: real, a: Point, b: Point) {
    r >= 0.0 && 4.0 * r * r == (b.x - a.x) * (b.x - a.x) + (b.y - a.y) * (b.y - a.y)
  }

  predicate IsPathTool(t: Shortcuts.Tool) {
    t == Shortcuts.Pen || t == Shortcuts.Highlighter
  }

  predicate IsSegmentTool(t: Shortcuts.Tool) {
    t == Shortcuts.Rectangle || t == Shortcuts.Line || t == Shortcuts.Arrow
  }

  /**
   * The element the commit branch of stopDrawing appends for a gesture with
   * `tool`, begun at `start` and released at `end`, after the pen or
   * highlighter collected `points`; `radius` is half the start-to-end
   * distance. None when nothing is appended.
   */
  function GestureElement(tool: Shortcuts.Tool, start: Point, end: Point, points: seq<Point>,
                          color: string, radius: real): (r: Option<Element>)
    requires IsHalfDistance(radius, start, end)
    ensures r.Some? ==> WellFormed(r.value) && r.value.color == color
    ensures IsPathTool(tool) ==> (r.Some? <==> |points| > 1)
    ensures IsPathTool(tool) && r.Some? ==>
              r.value.Path? && r.value.points == points && r.value.tool == tool
    ensures tool == Shortcuts.Pen && r.Some? ==> r.value.lineWidth == 2 && r.value.alpha == None
    ensures tool == Shortcuts.Highlighter && r.Some? ==> r.value.lineWidth == 8 && r.value.alpha == Some(0.4)
    ensures IsSegmentTool(tool) ==>
              && r.Some? && (r.value.Rectangle? || r.value.Line? || r.value.Arrow?)
              && r.value.start == start && r.value.end == end
    ensures tool == Shortcuts.Rectangle ==> r.Some? && r.value.Rectangle?
    ensures tool == Shortcuts.Line ==> r.Some? && r.value.Line?
    ensures tool == Shortcuts.Arrow ==> r.Some? && r.value.Arrow?
    ensures tool == Shortcuts.Circle ==>
              && r.Some? && r.value.Circle?
              && 2.0 * r.value.center.x == start.x + end.x
              && 2.0 * r.value.center.y == start.y + end.y
              && IsHalfDistance(r.value.radius, start, end)
    ensures !IsPathTool(tool) && !IsSegmentTool(tool) && tool != Shortcuts.Circle ==> r == None
  {
    match tool
    case Pen =>
      if |points| > 1 then Some(Path(points, color, 2, tool, None)) else None
    case Highlighter =>
      if |points| > 1 then Some(Path(points, color, 8, tool, Some(0.4))) else None
    case Rectangle => Some(Rectangle(start, end, color))
    case Circle => Some(Circle(Point((start.x + end.x) / 2.0, (start.y + end.y) / 2.0), radius, color))
    case Line => Some(Line(start, end, color))
    case Arrow => Some(Arrow(start, end, color))
    case _ => None
  }
}
