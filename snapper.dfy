/**
 * The window snapper (snapper.py): locating the active window, the two snap
 * operations, and the calls they issue to the platform.
 */
module Snapper {
  import opened Options
  import opened MonitorInfo
  import opened Geometry
  import opened PyText

  // ----- locating the active window -----

  /** What the macOS front-window script reports: application and window names. */
  datatype FrontWindow = FrontWindow(app: string, window: string)

  /**
   * The macOS branch of get_active_window, given the return code and standard
   * output of the AppleScript query. A reply that does not split into exactly
   * two pieces raises on unpacking, which the code maps to None.
   */
  function ParseFrontWindow(code: int, out: string): (r: Option<FrontWindow>)
    ensures code != 0 ==> r.None?
    ensures r.Some? ==> Join([r.value.app, r.value.window]) == Strip(StrSpaces, out)
    ensures r.Some? ==> NoSep(r.value.app) && NoSep(r.value.window)
  {
    if code != 0 then None
    else
      var parts := Split(Strip(StrSpaces, out));
      if |parts| == 2 then
        assert parts == [parts[0], parts[1]];
        SplitPiecesHaveNoSep(Strip(StrSpaces, out));
        assert NoSep(parts[0]) && NoSep(parts[1]);
        Some(FrontWindow(parts[0], parts[1]))
      else None
  }

  /**
   * A reply "app, title", with any whitespace around it, is read back as that
   * pair when neither name contains ", ".
   */
  lemma FrontWindowRoundTrip(app: string, title: string, pre: string, post: string)
    requires NoSep(app) && NoSep(title) && Trimmed(StrSpaces, app + Sep + title)
    requires AllSpace(StrSpaces, pre) && AllSpace(StrSpaces, post)
    ensures ParseFrontWindow(0, pre + (app + Sep + title) + post) == Some(FrontWindow(app, title))
  {
    StripPadded(StrSpaces, pre, app + Sep + title, post);
    SplitAfterPart(app, title);
    SplitNoSep(title);
  }

  /** A window title containing ", " yields more than two pieces, so no window. */
  lemma TitleWithSeparatorIsRejected(app: string, title: string, pre: string, post: string)
    requires NoSep(app) && !NoSep(title) && Trimmed(StrSpaces, app + Sep + title)
    requires AllSpace(StrSpaces, pre) && AllSpace(StrSpaces, post)
    ensures ParseFrontWindow(0, pre + (app + Sep + title) + post) == None
  {
    StripPadded(StrSpaces, pre, app + Sep + title, post);
    SplitAfterPart(app, title);
    SplitSingleIffNoSep(title);
  }

  /**
   * A window without a title: the reply "app, " loses its trailing blank to
   * `strip()`, leaves one piece, and yields no window.
   */
  lemma EmptyTitleIsRejected(app: string)
    requires app != [] && NoSep(app) && Trimmed(StrSpaces, app)
    ensures ParseFrontWindow(0, app + Sep + "\n") == None
  {
    var line := app + [','];
    assert app + Sep + "\n" == [] + line + " \n";
    StripPadded(StrSpaces, [], line, " \n");
    assert NoSep(line) by {
      forall i | 0 <= i < |line| ensures !SepAt(line, i) {
        if i + 1 < |app| { assert !SepAt(app, i); }
      }
    }
    SplitNoSep(line);
  }

  /** A window handle: a native window object, or an application/window name pair. */
  datatype Handle = Native(window: Window) | Scripted(app: string, title: string)

  /**
   * The answers the operating system gives during one snap: the native active
   * window (None when there is none or the query raised), the return code and
   * raw standard output of the macOS front-window script, and the outputs of
   * the two resolution queries as `subprocess.getoutput` returns them, that is
   * with one trailing newline already removed.
   */
  datatype OsAnswers = OsAnswers(
    activeWindow: Option<Window>,
    frontCode: int, frontOut: string,
    widthOut: string, heightOut: string)

  /** get_active_window. */
  function ActiveWindow(p: Platform, os: OsAnswers): (r: Option<Handle>)
    ensures p == Linux ==> r.None?
    ensures p == Windows ==> (r.Some? <==> os.activeWindow.Some?)
    ensures p == Windows && r.Some? ==> r.value == Native(os.activeWindow.value)
    ensures p == Darwin ==> (r.Some? <==> ParseFrontWindow(os.frontCode, os.frontOut).Some?)
    ensures p == Darwin && r.Some? ==>
              && r.value.Scripted?
              && r.value.app == ParseFrontWindow(os.frontCode, os.frontOut).value.app
              && r.value.title == ParseFrontWindow(os.frontCode, os.frontOut).value.window
  {
    match p
    case Windows =>
      (match os.activeWindow
       case Some(w) => Some(Native(w))
       case None => None)
    case Darwin =>
      (match ParseFrontWindow(os.frontCode, os.frontOut)
       case Some(f) => Some(Scripted(f.app, f.window))
       case None => None)
    case Linux => None
  }

  /** The screen resolution reported by the two queries, if both outputs parse as integers. */
  function Resolution(os: OsAnswers): Option<(int, int)> {
    match (ParseInt(os.widthOut), ParseInt(os.heightOut))
    case (Some(w), Some(h)) => Some((w, h))
    case _ => None
  }

  /** Resolution queries that print two decimal numbers are read back as those numbers. */
  lemma ResolutionRoundTrip(os: OsAnswers, width: int, height: int)
    requires os.widthOut == DecimalString(width) && os.heightOut == DecimalString(height)
    ensures Resolution(os) == Some((width, height))
  {
    ParseIntDecimal(width);
    ParseIntDecimal(height);
  }

  // ----- the calls a snap issues -----

  /** A call made to the platform during a snap, in the order made. */
  datatype Call =
    | LocateActiveWindow
    | QueryScreenWidth
    | QueryScreenHeight
    | MoveTo(x: int, y: int)
    | ResizeTo(width: int, height: int)
    | SetBounds(app: string, bounds: Bounds)

  /** The call changes a window's geometry. */
  predicate Mutates(c: Call) {
    c.MoveTo? || c.ResizeTo? || c.SetBounds?
  }

  /** moveTo, then resizeTo unless the move raised. */
  function NativeCalls(w: Window, r: Rect): seq<Call> {
    [MoveTo(r.x, r.y)] + (if w.moveFails then [] else [ResizeTo(r.width, r.height)])
  }

  /** The two resolution queries, then the bounds script if both outputs parsed. */
  function ScriptedCalls(app: string, t: SnapTarget, res: Option<(int, int)>): seq<Call> {
    [QueryScreenWidth, QueryScreenHeight] +
    match res
    case None => []
    case Some((width, height)) => [SetBounds(app, DarwinBounds(t, width, height))]
  }

  /**
   * The calls that follow the window lookup, given the handle it produced, the
   * cached monitor and the parsed resolution. The branch taken follows the
   * handle's kind, which ActiveWindow ties to the platform.
   */
  function ApplyCalls(m: Option<Monitor>, t: SnapTarget, h: Option<Handle>, res: Option<(int, int)>): seq<Call> {
    if h.None? || m.None? then []
    else
      match h.value
      case Native(w) => NativeCalls(w, Plan(m.value, t))
      case Scripted(app, _) => ScriptedCalls(app, t, res)
  }

  /** The calls one snap issues: the window lookup (not on Linux), then the rest. */
  function SnapCalls(p: Platform, m: Option<Monitor>, t: SnapTarget, h: Option<Handle>, res: Option<(int, int)>): seq<Call> {
    (if p == Linux then [] else [LocateActiveWindow]) + ApplyCalls(m, t, h, res)
  }

  /** The value a snap returns. */
  function SnapResult(m: Option<Monitor>, h: Option<Handle>): bool {
    h.Some? && m.Some? &&
    match h.value
    case Native(w) => !w.moveFails && !w.resizeFails
    case Scripted(_, _) => true
  }

  /**
   * Without an active window or a cached monitor a snap fails and changes
   * nothing; the window is still looked up first, on every platform but Linux.
   */
  lemma ShortCircuit(p: Platform, m: Option<Monitor>, t: SnapTarget, h: Option<Handle>, res: Option<(int, int)>)
    requires h.None? || m.None?
    ensures !SnapResult(m, h)
    ensures SnapCalls(p, m, t, h, res) == if p == Linux then [] else [LocateActiveWindow]
    ensures forall i :: 0 <= i < |SnapCalls(p, m, t, h, res)| ==> !Mutates(SnapCalls(p, m, t, h, res)[i])
  {
  }

  /** On Linux no window is ever found, so no snap succeeds or calls anything. */
  lemma LinuxNeverSnaps(m: Option<Monitor>, t: SnapTarget, os: OsAnswers)
    ensures !SnapResult(m, ActiveWindow(Linux, os))
    ensures SnapCalls(Linux, m, t, ActiveWindow(Linux, os), Resolution(os)) == []
  {
  }

  /**
   * On Windows, with a window and a monitor, the window is moved to the planned
   * corner first; the resize to the planned size follows only if the move did
   * not raise, and the snap succeeds only if neither raised.
   */
  lemma NativeSnapOrder(m: Monitor, t: SnapTarget, w: Window, res: Option<(int, int)>)
    ensures var calls := SnapCalls(Windows, Some(m), t, Some(Native(w)), res);
            && |calls| >= 2 && calls[0] == LocateActiveWindow
            && calls[1] == MoveTo(Plan(m, t).x, Plan(m, t).y)
            && (w.moveFails ==> |calls| == 2)
            && (!w.moveFails ==> |calls| == 3 && calls[2] == ResizeTo(Plan(m, t).width, Plan(m, t).height))
    ensures SnapResult(Some(m), Some(Native(w))) <==> !w.moveFails && !w.resizeFails
  {
  }

  /** No resize is issued except directly after a move. */
  lemma ResizeFollowsMove(p: Platform, m: Option<Monitor>, t: SnapTarget, h: Option<Handle>, res: Option<(int, int)>, i: int)
    requires 0 <= i < |SnapCalls(p, m, t, h, res)| && SnapCalls(p, m, t, h, res)[i].ResizeTo?
    ensures i > 0 && SnapCalls(p, m, t, h, res)[i - 1].MoveTo?
  {
  }

  /**
   * On macOS, once a window and a monitor are found, the snap reports success
   * whether or not the resolution parsed; the bounds script is issued only when
   * it did, with the bounds computed from that resolution.
   */
  lemma DarwinSwallowsFailures(m: Monitor, t: SnapTarget, app: string, title: string, res: Option<(int, int)>)
    ensures SnapResult(Some(m), Some(Scripted(app, title)))
    ensures var calls := SnapCalls(Darwin, Some(m), t, Some(Scripted(app, title)), res);
            && calls[..3] == [LocateActiveWindow, QueryScreenWidth, QueryScreenHeight]
            && (res.None? ==> |calls| == 3)
            && (res.Some? ==>
                  |calls| == 4 && calls[3] == SetBounds(app, DarwinBounds(t, res.value.0, res.value.1)))
  {
  }

  /** On macOS the cached monitor's geometry plays no part in the calls issued. */
  lemma DarwinIgnoresMonitorGeometry(m1: Monitor, m2: Monitor, t: SnapTarget, app: string, title: string, res: Option<(int, int)>)
    ensures SnapCalls(Darwin, Some(m1), t, Some(Scripted(app, title)), res)
            == SnapCalls(Darwin, Some(m2), t, Some(Scripted(app, title)), res)
  {
  }

  /** The front-window reply of the macOS scenario below names Safari's window "Apple". */
  lemma SafariReply(os: OsAnswers)
    requires os.frontCode == 0 && os.frontOut == "Safari, Apple\n"
    ensures ActiveWindow(Darwin, os) == Some(Scripted("Safari", "Apple"))
  {
    var app, title := "Safari", "Apple";
    assert NoSep(app) && NoSep(title) by {
      forall i | 0 <= i < |app| ensures !SepAt(app, i) { }
      forall i | 0 <= i < |title| ensures !SepAt(title, i) { }
    }
    assert "Safari, Apple\n" == [] + (app + Sep + title) + "\n";
    FrontWindowRoundTrip(app, title, [], "\n");
  }

  /** The resolution queries of the macOS scenario below. */
  lemma FullHdResolution(os: OsAnswers)
    requires os.widthOut == "1920" && os.heightOut == "1080"
    ensures Resolution(os) == Some((1920, 1080))
  {
    assert DecimalString(1920) == "1920" && DecimalString(1080) == "1080";
    ResolutionRoundTrip(os, 1920, 1080);
  }

  /**
   * A top snap on macOS for the answers of SafariReply and FullHdResolution:
   * Safari's front window gets the bounds {0, 0, 1920, 540}.
   */
  lemma DarwinTopScenario(m: Monitor)
    ensures SnapResult(Some(m), Some(Scripted("Safari", "Apple")))
    ensures SnapCalls(Darwin, Some(m), Top, Some(Scripted("Safari", "Apple")), Some((1920, 1080)))
            == [LocateActiveWindow, QueryScreenWidth, QueryScreenHeight, SetBounds("Safari", Bounds(0, 0, 1920, 540))]
  {
  }

  // ----- the platform objects -----

  /**
   * A native window. A move or resize either takes effect or raises; which one
   * is fixed per window by `moveFails` and `resizeFails`.
   */
  class Window {
    var x: int
    var y: int
    var width: int
    var height: int
    const moveFails: bool
    const resizeFails: bool

    constructor (x: int, y: int, width: int, height: int, moveFails: bool, resizeFails: bool)
      ensures this.x == x && this.y == y && this.width == width && this.height == height
      ensures this.moveFails == moveFails && this.resizeFails == resizeFails
    {
      this.x, this.y, this.width, this.height := x, y, width, height;
      this.moveFails, this.resizeFails := moveFails, resizeFails;
    }

    function Placement(): Rect
      reads this
    {
      Rect(x, y, width, height)
    }

    /** moveTo: on success the top-left corner is (newX, newY); the size never changes. */
    method MoveTo(newX: int, newY: int) returns (ok: bool)
      modifies this`x, this`y
      ensures ok == !moveFails
      ensures ok ==> x == newX && y == newY
      ensures !ok ==> x == old(x) && y == old(y)
    {
      ok := !moveFails;
      if ok {
        x, y := newX, newY;
      }
    }

    /** resizeTo: on success the size is newWidth by newHeight; the position never changes. */
    method ResizeTo(newWidth: int, newHeight: int) returns (ok: bool)
      modifies this`width, this`height
      ensures ok == !resizeFails
      ensures ok ==> width == newWidth && height == newHeight
      ensures !ok ==> width == old(width) && height == old(height)
    {
      ok := !resizeFails;
      if ok {
        width, height := newWidth, newHeight;
      }
    }
  }

  /** The native window the answers offer, which a snap may touch. */
  function WindowsOf(os: OsAnswers): set<Window> {
    if os.activeWindow.Some? then {os.activeWindow.value} else {}
  }

  /** The native window a handle refers to, if any. */
  function HandleWindows(h: Option<Handle>): set<Window> {
    if h.Some? && h.value.Native? then {h.value.window} else {}
  }

  /** The only window a handle can refer to is the one the answers offer. */
  lemma HandleWithinAnswers(p: Platform, os: OsAnswers)
    ensures HandleWindows(ActiveWindow(p, os)) <= WindowsOf(os)
    ensures ActiveWindow(p, os).Some? && ActiveWindow(p, os).value.Native?
            <==> p == Windows && os.activeWindow.Some?
  {
  }

  /**
   * WindowSnapper: the platform is fixed, the monitor is looked up once at
   * construction, and `trace` records every call made to the platform.
   */
  class WindowSnapper {
    const platform: Platform
    var monitor: Option<Monitor>
    var trace: seq<Call>

    constructor (platform: Platform, screens: Enumeration)
      ensures this.platform == platform
      ensures monitor == GetPrimaryMonitor(GetScreenInfo(screens))
      ensures trace == []
    {
      this.platform := platform;
      monitor := GetPrimaryMonitor(GetScreenInfo(screens));
      trace := [];
    }

    /**
     * A native window after a snap: moved and resized, only moved (no
     * rollback), or as it was.
     */
    twostate predicate NativeEffect(w: Window, r: Rect)
      reads w
    {
      if w.moveFails then w.Placement() == old(w.Placement())
      else if w.resizeFails then w.Placement() == Rect(r.x, r.y, old(w.width), old(w.height))
      else w.Placement() == r
    }

    /**
     * The effect of one snap: the result and the calls issued are those of the
     * specification functions for the handle get_active_window produced, the
     * monitor is untouched, and the native window is changed only on Windows
     * once both checks passed.
     */
    twostate predicate Snapped(t: SnapTarget, os: OsAnswers, ok: bool)
      reads this, WindowsOf(os)
    {
      var h := ActiveWindow(platform, os);
      && monitor == old(monitor)
      && ok == SnapResult(monitor, h)
      && trace == old(trace) + SnapCalls(platform, monitor, t, h, Resolution(os))
      && (os.activeWindow.Some? ==>
            if platform == Windows && monitor.Some? then NativeEffect(os.activeWindow.value, Plan(monitor.value, t))
            else os.activeWindow.value.Placement() == old(os.activeWindow.value.Placement()))
    }

    /** The move-then-resize sequence of the Windows branch. */
    method ApplyNative(w: Window, r: Rect) returns (ok: bool)
      modifies this`trace, w
      ensures ok == (!w.moveFails && !w.resizeFails)
      ensures trace == old(trace) + NativeCalls(w, r)
      ensures NativeEffect(w, r)
    {
      trace := trace + [MoveTo(r.x, r.y)];
      var moved := w.MoveTo(r.x, r.y);
      if !moved {
        return false;
      }
      trace := trace + [ResizeTo(r.width, r.height)];
      ok := w.ResizeTo(r.width, r.height);
    }

    /** The macOS branch: a resolution that does not parse is swallowed. */
    method ApplyScripted(app: string, t: SnapTarget, res: Option<(int, int)>) returns (ok: bool)
      modifies this`trace
      ensures ok
      ensures trace == old(trace) + ScriptedCalls(app, t, res)
    {
      trace := trace + [QueryScreenWidth, QueryScreenHeight];
      if res.Some? {
        var (width, height) := res.value;
        trace := trace + [SetBounds(app, DarwinBounds(t, width, height))];
      }
      ok := true;
    }

    /**
     * A snap once the window lookup has produced `h` and the resolution queries
     * `res`: the lookup is logged, then the checks and the platform branch run.
     */
    method SnapLocated(t: SnapTarget, h: Option<Handle>, res: Option<(int, int)>) returns (ok: bool)
      modifies this`trace, HandleWindows(h)
      ensures ok == SnapResult(monitor, h)
      ensures trace == old(trace) + SnapCalls(platform, monitor, t, h, res)
      ensures h.Some? && h.value.Native? && monitor.Some? ==> NativeEffect(h.value.window, Plan(monitor.value, t))
      ensures h.Some? && h.value.Native? && monitor.None? ==> h.value.window.Placement() == old(h.value.window.Placement())
    {
      if platform != Linux {
        trace := trace + [LocateActiveWindow];
      }
      if h.None? || monitor.None? {
        return false;
      }
      match h.value
      case Native(w) =>
        ok := ApplyNative(w, Plan(monitor.value, t));
      case Scripted(app, _) =>
        ok := ApplyScripted(app, t, res);
    }

    /** The shape shared by snap_to_top and snap_to_bottom. */
    method Snap(t: SnapTarget, os: OsAnswers) returns (ok: bool)
      modifies this`trace, WindowsOf(os)
      ensures Snapped(t, os, ok)
    {
      HandleWithinAnswers(platform, os);
      ok := SnapLocated(t, ActiveWindow(platform, os), Resolution(os));
    }

    /** snap_to_top */
    method SnapToTop(os: OsAnswers) returns (ok: bool)
      modifies this`trace, WindowsOf(os)
      ensures Snapped(Top, os, ok)
    {
      ok := Snap(Top, os);
    }

    /** snap_to_bottom */
    method SnapToBottom(os: OsAnswers) returns (ok: bool)
      modifies this`trace, WindowsOf(os)
      ensures Snapped(Bottom, os, ok)
    {
      ok := Snap(Bottom, os);
    }

    /**
     * Two top snaps against the same answers: the cached monitor is the same for
     * both, so they return the same result and issue the same calls, and a
     * window that accepts both calls ends up on the top half.
     */
    method SnapToTopTwice(os: OsAnswers) returns (first: bool, second: bool)
      modifies this`trace, WindowsOf(os)
      ensures first == second && monitor == old(monitor)
      ensures var calls := SnapCalls(platform, monitor, Top, ActiveWindow(platform, os), Resolution(os));
              trace == old(trace) + calls + calls
      ensures platform == Windows && monitor.Some? && os.activeWindow.Some?
              && !os.activeWindow.value.moveFails && !os.activeWindow.value.resizeFails
              ==> os.activeWindow.value.Placement() == TopHalf(monitor.value)
    {
      first := SnapToTop(os);
      second := SnapToTop(os);
    }
  }
}
