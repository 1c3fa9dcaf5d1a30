/** The drawing surface of the body map
    (src/components/screening/InteractiveBodyChart.jsx): a capture session
    that collects points until a double-click, the SVG path it emits, and
    the filter and fill colour of the areas already drawn. */
module BodyChart {
  import opened Js
  import opened Text
  import Seqs
  import PM = PainMapping

  /** A pointer position in SVG user units. */
  datatype Point = Point(x: int, y: int)

  /** getMousePosition: a position only when the SVG element is mounted and
      has a screen transform; `svgPoint` is the pointer already mapped into
      the SVG's coordinates. */
  function GetMousePosition(svgMounted: bool, ctmAvailable: bool, svgPoint: Point): (r: Option<Point>)
    ensures r.Some? <==> svgMounted && ctmAvailable
    ensures r.Some? ==> r.value == svgPoint
  {
    if !svgMounted then None
    else if !ctmAvailable then None
    else Some(svgPoint)
  }

  function Coordinates(p: Point): string {
    IntToString(p.x) + "," + IntToString(p.y)
  }

  /** The command for the point at position i: a move for the first point,
      a line for every later one. */
  function Command(p: Point, i: nat): string {
    (if i == 0 then "M" else "L") + Coordinates(p)
  }

  function Commands(points: seq<Point>): (r: seq<string>)
    ensures |r| == |points|
    ensures forall i :: 0 <= i < |points| ==> r[i] == Command(points[i], i)
  {
    seq(|points|, i requires 0 <= i < |points| => Command(points[i], i))
  }

  /** The pathData string: the commands separated by spaces, closed by " Z". */
  function PathData(points: seq<Point>): (r: string)
    ensures |r| >= 2 && r[|r| - 2..] == " Z"
  {
    Join(Commands(points), " ") + " Z"
  }

  lemma CommandCounts(p: Point, i: nat)
    ensures CountChar(Command(p, i), 'M') == (if i == 0 then 1 else 0)
    ensures CountChar(Command(p, i), 'L') == (if i == 0 then 0 else 1)
  {
    var head := if i == 0 then "M" else "L";
    CoordinateCounts(p);
    CountCharAppend(head, Coordinates(p), 'M');
    CountCharAppend(head, Coordinates(p), 'L');
  }

  /** Coordinates are digits, signs and a comma: no command letter. */
  lemma CoordinateCounts(p: Point)
    ensures CountChar(Coordinates(p), 'M') == 0 && CountChar(Coordinates(p), 'L') == 0
  {
    IntToStringChars(p.x, 'M');
    IntToStringChars(p.y, 'M');
    IntToStringChars(p.x, 'L');
    IntToStringChars(p.y, 'L');
    CountCharAppend(IntToString(p.x), ",", 'M');
    CountCharAppend(IntToString(p.x) + ",", IntToString(p.y), 'M');
    CountCharAppend(IntToString(p.x), ",", 'L');
    CountCharAppend(IntToString(p.x) + ",", IntToString(p.y), 'L');
  }

  /** A list of line commands counts one 'L' per command and no 'M'. */
  lemma {:induction false} LineCommands(parts: seq<string>)
    requires forall i :: 0 <= i < |parts| ==> CountChar(parts[i], 'M') == 0 && CountChar(parts[i], 'L') == 1
    ensures CountInAll(parts, 'M') == 0
    ensures CountInAll(parts, 'L') == |parts|
  {
    if parts != [] {
      LineCommands(parts[1..]);
    }
  }

  /** One command per point: a single move, then |points| - 1 lines,
      starting with the move. */
  lemma PathCommands(points: seq<Point>)
    requires |points| >= 1
    ensures CountChar(PathData(points), 'M') == 1
    ensures CountChar(PathData(points), 'L') == |points| - 1
    ensures PathData(points)[0] == 'M'
  {
    var cs := Commands(points);
    forall i | 0 <= i < |points|
      ensures CountChar(cs[i], 'M') == (if i == 0 then 1 else 0)
      ensures CountChar(cs[i], 'L') == (if i == 0 then 0 else 1)
    {
      CommandCounts(points[i], i);
    }
    assert cs[0][0] == 'M';
    JoinedCommands(cs);
  }

  /** Joining a move followed by line commands, and closing the path. */
  lemma JoinedCommands(cs: seq<string>)
    requires |cs| >= 1 && |cs[0]| >= 1 && cs[0][0] == 'M'
    requires CountChar(cs[0], 'M') == 1 && CountChar(cs[0], 'L') == 0
    requires forall i :: 1 <= i < |cs| ==> CountChar(cs[i], 'M') == 0 && CountChar(cs[i], 'L') == 1
    ensures CountChar(Join(cs, " ") + " Z", 'M') == 1
    ensures CountChar(Join(cs, " ") + " Z", 'L') == |cs| - 1
    ensures (Join(cs, " ") + " Z")[0] == 'M'
  {
    CountJoin(cs, " ", 'M');
    CountJoin(cs, " ", 'L');
    CountCharAppend(Join(cs, " "), " Z", 'M');
    CountCharAppend(Join(cs, " "), " Z", 'L');
    LineCommands(cs[1..]);
    JoinStartsWith(cs, " ");
  }

  /** The id of an area drawn at time `now` (milliseconds). */
  function AreaId(now: nat): string {
    "area-" + NatToString(now)
  }

  /** Areas drawn at different times get different ids. */
  lemma AreaIdInjective(a: nat, b: nat)
    requires AreaId(a) == AreaId(b)
    ensures a == b
  {
    var prefix := "area-";
    assert AreaId(a)[|prefix|..] == NatToString(a);
    assert AreaId(b)[|prefix|..] == NatToString(b);
  }

  /** The capture session: while drawing, the points placed so far. */
  class DrawingSession {
    var isDrawing: bool
    var points: seq<Point>

    ghost predicate Valid()
      reads this
    {
      (!isDrawing ==> points == []) && (isDrawing ==> |points| >= 1)
    }

    constructor ()
      ensures Valid() && !isDrawing && points == []
    {
      isDrawing := false;
      points := [];
    }

    /** handleMouseDown: no position, no change; idle, a session with that
        one point; drawing, the point goes at the end. */
    method HandleMouseDown(pos: Option<Point>)
      requires Valid()
      modifies this
      ensures Valid()
      ensures pos.None? ==> isDrawing == old(isDrawing) && points == old(points)
      ensures pos.Some? && !old(isDrawing) ==> isDrawing && points == [pos.value]
      ensures pos.Some? && old(isDrawing) ==> isDrawing && points == old(points) + [pos.value]
    {
      if pos.None? {
        return;
      }
      if !isDrawing {
        isDrawing := true;
        points := [pos.value];
      } else {
        points := points + [pos.value];
      }
    }

    /** handleFinishDrawing: with three or more points one area is emitted,
        carrying the view and the current sensation; either way the session
        goes back to idle. `now` stands for `Date.now()`. */
    method HandleFinishDrawing(now: nat, view: string, sensation: PM.Sensation)
      returns (drawn: Option<PM.Area>)
      modifies this
      ensures Valid() && !isDrawing && points == []
      ensures |old(points)| < 3 ==> drawn == None
      ensures |old(points)| >= 3 ==> drawn == Some(PM.Area(
        AreaId(now), PathData(old(points)), view,
        sensation.sensationType, sensation.intensity, sensation.color))
    {
      if |points| < 3 {
        isDrawing := false;
        points := [];
        return None;
      }
      var pathData := PathData(points);
      drawn := Some(PM.Area(AreaId(now), pathData, view,
                            sensation.sensationType, sensation.intensity, sensation.color));
      isDrawing := false;
      points := [];
    }

    /** handleDoubleClick: finishes only while drawing. */
    method HandleDoubleClick(now: nat, view: string, sensation: PM.Sensation)
      returns (drawn: Option<PM.Area>)
      requires Valid()
      modifies this
      ensures Valid()
      ensures !old(isDrawing) ==> drawn == None && !isDrawing && points == old(points)
      ensures old(isDrawing) ==> !isDrawing && points == []
      ensures old(isDrawing) && |old(points)| < 3 ==> drawn == None
      ensures old(isDrawing) && |old(points)| >= 3 ==> drawn == Some(PM.Area(
        AreaId(now), PathData(old(points)), view,
        sensation.sensationType, sensation.intensity, sensation.color))
    {
      drawn := None;
      if isDrawing {
        drawn := HandleFinishDrawing(now, view, sensation);
      }
    }

    /** The in-progress outline is shown while drawing with points. */
    predicate ShowsOutline()
      reads this
    {
      isDrawing && |points| > 0
    }
  }

  /** The marked areas drawn on the current view, in list order. */
  function VisibleAreas(areas: seq<PM.Area>, view: string): (r: seq<PM.Area>)
    ensures Seqs.IsSubsequence(r, areas)
    ensures forall i :: 0 <= i < |r| ==> r[i].view == view
    ensures forall i :: 0 <= i < |areas| && areas[i].view == view ==> areas[i] in r
    ensures forall a :: multiset(r)[a] == if a.view == view then multiset(areas)[a] else 0
  {
    var onView := (a: PM.Area) => a.view == view;
    Seqs.FilterCounts(areas, onView);
    Seqs.FilterKeepsPassing(areas, onView);
    Seqs.FilterIsSubsequence(areas, onView);
    Seqs.Filter(areas, onView)
  }

  /** `n.toString(16)` for an integer, with its sign. */
  function ToHex(n: int): string {
    if n < 0 then "-" + ToBase(-n, 16) else ToBase(n, 16)
  }

  /** The alpha suffix of a fill: Math.round(intensity / 10 * 200) in hex,
      padded to two digits; for whole intensities the product is 20 * intensity. */
  function FillAlpha(intensity: int): string {
    PadStart(ToHex(20 * intensity), 2, '0')
  }

  /** The suffix reads back as 20 * intensity in hex and, up to intensity
      12, is exactly two hex digits. */
  lemma FillAlphaValue(intensity: int)
    requires intensity >= 0
    ensures ParseBase(FillAlpha(intensity), 16) == 20 * intensity
    ensures intensity <= 12 ==> |FillAlpha(intensity)| == 2
    ensures forall i :: 0 <= i < |FillAlpha(intensity)| ==> IsDigitIn(FillAlpha(intensity)[i], 16)
  {
    PaddedParses(20 * intensity, 2, 16);
    PaddedDigits(ToBase(20 * intensity, 16), 2, 16);
    if intensity <= 12 && 20 * intensity >= 16 {
      TwoDigits(20 * intensity, 16);
    }
  }

  /** The fill of a drawn area: its colour followed by the alpha suffix. */
  function Fill(area: PM.Area): string {
    area.color + FillAlpha(area.intensity)
  }

  /** The slider ends: intensity 0 is "00", intensity 10 is "c8". */
  lemma FillAlphaEnds()
    ensures FillAlpha(0) == "00"
    ensures FillAlpha(10) == "c8"
  {
    assert ToBase(200, 16) == ToBase(12, 16) + [DIGITS[8]];
  }
}
