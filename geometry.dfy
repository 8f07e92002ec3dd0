/**
 * Target geometry of the two snap operations (snapper.py): the monitor halves
 * used on Windows and the AppleScript `bounds` used on macOS.
 */
module Geometry {
  import opened Options
  import opened MonitorInfo

  /** A window rectangle: position of the top-left corner and size. */
  datatype Rect = Rect(x: int, y: int, width: int, height: int)

  datatype SnapTarget = Top | Bottom

  /** Windows branch of snap_to_top; Python's `//` by 2 is Dafny's `/` by 2. */
  function TopHalf(m: Monitor): (r: Rect)
    ensures r.x == m.x && r.y == m.y && r.width == m.width
    ensures 2 * r.height <= m.height < 2 * r.height + 2
  {
    Rect(m.x, m.y, m.width, m.height / 2)
  }

  /** Windows branch of snap_to_bottom. */
  function BottomHalf(m: Monitor): (r: Rect)
    ensures r.x == m.x && r.width == m.width && r.y == m.y + r.height
    ensures 2 * r.height <= m.height < 2 * r.height + 2
  {
    Rect(m.x, m.y + m.height / 2, m.width, m.height / 2)
  }

  function Plan(m: Monitor, t: SnapTarget): Rect {
    match t
    case Top => TopHalf(m)
    case Bottom => BottomHalf(m)
  }

  /** The rectangle covers pixel row `row`. */
  predicate HasRow(r: Rect, row: int) {
    r.y <= row < r.y + r.height
  }

  /** Both halves keep the monitor's left edge and width and take half its height, rounded down. */
  lemma PlanKeepsColumns(m: Monitor, t: SnapTarget)
    ensures Plan(m, t).x == m.x && Plan(m, t).width == m.width
    ensures 2 * Plan(m, t).height <= m.height < 2 * Plan(m, t).height + 2
    ensures Plan(m, t).y == if t == Top then m.y else m.y + Plan(m, t).height
  {
  }

  /** The bottom half starts where the top half ends, and both are equally tall. */
  lemma HalvesShareEdge(m: Monitor)
    ensures TopHalf(m).y + TopHalf(m).height == BottomHalf(m).y
    ensures TopHalf(m).height == BottomHalf(m).height
  {
  }

  /** Together the halves are as tall as the monitor, or one row shorter when its height is odd. */
  lemma HalvesSpan(m: Monitor)
    ensures TopHalf(m).height + BottomHalf(m).height == if m.height % 2 == 0 then m.height else m.height - 1
  {
  }

  /**
   * On a monitor of non-negative height the halves never overlap, lie inside the
   * monitor, and cover every row of it except the last one of an odd height.
   */
  lemma HalvesTileMonitor(m: Monitor, row: int)
    requires m.height >= 0
    ensures !(HasRow(TopHalf(m), row) && HasRow(BottomHalf(m), row))
    ensures HasRow(TopHalf(m), row) || HasRow(BottomHalf(m), row) <==>
            m.y <= row < m.y + m.height - m.height % 2
    ensures HasRow(TopHalf(m), row) || HasRow(BottomHalf(m), row) ==> m.y <= row < m.y + m.height
  {
  }

  lemma FullHdTop()
    ensures TopHalf(Monitor(0, 0, 1920, 1080, Some(true))) == Rect(0, 0, 1920, 540)
  {
  }

  lemma FullHdBottom()
    ensures BottomHalf(Monitor(0, 0, 1920, 1080, Some(true))) == Rect(0, 540, 1920, 540)
  {
  }

  /** With an odd height both halves are 540 rows and the 1081st row is left uncovered. */
  lemma OddHeightHalves()
    ensures TopHalf(Monitor(0, 0, 1920, 1081, None)) == Rect(0, 0, 1920, 540)
    ensures BottomHalf(Monitor(0, 0, 1920, 1081, None)) == Rect(0, 540, 1920, 540)
  {
  }

  /** AppleScript `bounds`: left, top, right and bottom edges. */
  datatype Bounds = Bounds(left: int, top: int, right: int, bottom: int)

  /** macOS branch of snap_to_top, from the queried resolution. */
  function DarwinTopBounds(width: int, height: int): (b: Bounds)
    ensures b.left == 0 && b.top == 0 && b.right == width
    ensures 2 * b.bottom <= height < 2 * b.bottom + 2
  {
    var half := height / 2;
    Bounds(0, 0, width, half)
  }

  /** macOS branch of snap_to_bottom, from the queried resolution. */
  function DarwinBottomBounds(width: int, height: int): (b: Bounds)
    ensures b.left == 0 && b.right == width && b.bottom == 2 * b.top
    ensures 2 * b.top <= height < 2 * b.top + 2
  {
    var half := height / 2;
    Bounds(0, half, width, half + half)
  }

  function DarwinBounds(t: SnapTarget, width: int, height: int): Bounds {
    match t
    case Top => DarwinTopBounds(width, height)
    case Bottom => DarwinBottomBounds(width, height)
  }

  /** The rectangle whose corners are the given bounds. */
  function BoundsRect(b: Bounds): (r: Rect)
    ensures r.x == b.left && r.y == b.top
    ensures r.x + r.width == b.right && r.y + r.height == b.bottom
  {
    Rect(b.left, b.top, b.right - b.left, b.bottom - b.top)
  }

  /** The bounds of a rectangle: its left, top, right and bottom edges. */
  function RectBounds(r: Rect): Bounds {
    Bounds(r.x, r.y, r.x + r.width, r.y + r.height)
  }

  /** Reading bounds as a rectangle loses nothing. */
  lemma BoundsRoundTrip(b: Bounds)
    ensures RectBounds(BoundsRect(b)) == b
  {
  }

  /** Writing a rectangle as bounds loses nothing. */
  lemma RectRoundTrip(r: Rect)
    ensures BoundsRect(RectBounds(r)) == r
  {
  }

  /**
   * The macOS bounds describe the same half as the Windows computation on a
   * monitor at the origin with the queried resolution.
   */
  lemma DarwinBoundsMatchPlanAtOrigin(t: SnapTarget, width: int, height: int, flag: Option<bool>)
    ensures BoundsRect(DarwinBounds(t, width, height)) == Plan(Monitor(0, 0, width, height, flag), t)
  {
  }
}
