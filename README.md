# SnapStack window snapper, in Dafny

SnapStack moves the focused window to the top or the bottom half of the screen.
This project models the core of that program:

- `utils/monitor_info.py` picks the primary monitor out of the display list and
  names the supported platforms.
- `snapper.py` holds `WindowSnapper`. Its constructor caches the primary monitor.
  `get_active_window` finds the focused window through a different branch for
  each platform. `snap_to_top` and `snap_to_bottom` move and resize that window,
  on Windows through the window object and on macOS through an AppleScript
  `bounds` command.

Files:

- `options.dfy`: the `Option` type.
- `monitor_info.dfy` (module `MonitorInfo`): monitors, the display list,
  primary-monitor selection, platform names and `is_supported_platform`.
- `geometry.dfy` (module `Geometry`): the halves computed on Windows and the
  `bounds` computed on macOS, with their tiling properties.
- `py_text.dfy` (module `PyText`): the Python string behaviour the snapper
  relies on. This is `str.strip()`, which removes the `str.isspace()`
  whitespace set, `str.split(", ")`, and `int(...)` on decimal text. `int(...)`
  skips a smaller whitespace set: the separator characters U+001C to U+001F
  satisfy `isspace()`, but they make `int(...)` raise.
- `snapper.dfy` (module `Snapper`): the macOS front-window reply, the active
  window lookup, the calls one snap makes to the platform, a `Window` class for
  native windows, and the `WindowSnapper` class.

How the environment is modelled:

- The operating system's answers for one snap are a value, `OsAnswers`. It holds:
  - the native active window;
  - the return code and raw standard output of the front-window AppleScript;
  - the outputs of the two `system_profiler` resolution queries, as
    `subprocess.getoutput` returns them, with one trailing newline removed.
- The display list is an `Enumeration`, either a list or a failure.
- Which native operations raise is fixed per `Window`, by `moveFails` and `resizeFails`.
- `WindowSnapper.trace` records every call made to the platform, in order.
- The detected platform is a `Platform` value given to the constructor.
  `SelectPlatform` models the module-level dispatch on `platform.system()`.

`WindowSnapper.Snapped` is the postcondition shared by both snaps. It says the
following:

- the result is `SnapResult`;
- the calls appended to the trace are `SnapCalls`;
- the cached monitor is unchanged;
- the native window receives `NativeEffect` on Windows once a monitor is known,
  and is untouched otherwise.

The lemmas about `SnapCalls` and `SnapResult` state what the snaps promise:
- the early return when no window or monitor is found;
- the move-then-resize order on Windows;
- that failures are swallowed on macOS;
- that nothing happens on Linux.

Behaviour of the code that the lemmas make explicit:

- The snaps return a bare boolean, with no reason for a failure.
- On macOS a snap reports success once a window and a monitor are found. This
  holds even when the resolution output does not parse and no `bounds` command
  is sent (`DarwinSwallowsFailures`).
- An odd monitor height is split by floor division. Both halves get the same
  height, and the last row is covered by neither (`OddHeightHalves`,
  `HalvesTileMonitor`).
- On macOS the cached monitor's geometry plays no part. The bounds come from
  the resolution query, anchored at the origin (`DarwinIgnoresMonitorGeometry`).
- A window whose title contains ", " is never found on macOS, because the reply
  then splits into more than two pieces (`TitleWithSeparatorIsRejected`).

## Model

| member | source | states |
|---|---|---|
| MonitorInfo.GetScreenInfo | utils/monitor_info.py:16-21 | Definition: the enumerated monitors, or the empty list when enumeration raised |
| MonitorInfo.EnumerationFailureGivesNoMonitor | utils/monitor_info.py:16-21 | When enumeration raises, get_screen_info yields no monitors, and get_primary_monitor yields None |
| MonitorInfo.PrimaryIndex | utils/monitor_info.py:33-35 | The loop's early return: the index of the first monitor flagged primary, with no flagged monitor before it; None exactly when no monitor is flagged |
| MonitorInfo.GetPrimaryMonitor | utils/monitor_info.py:23-42 | The first flagged monitor wins. With none flagged, the first monitor is returned. The result is None exactly when the list is empty, and it is always a member of the list |
| MonitorInfo.FlaggedHead | utils/monitor_info.py:33-35 | The first flagged monitor found by the loop is the head of the list of flagged monitors, and the loop finds none exactly when that list is empty |
| MonitorInfo.PrimaryMatchesReference | utils/monitor_info.py:30-42 | On every list, the selection equals an independent reference definition: the head of "flagged monitors, then all monitors" |
| MonitorInfo.SelectPlatform | snapper.py:11-26 | The platform named by the detected system name, and only that one; None (the exit branch) for any other name |
| MonitorInfo.IsSupportedPlatform | utils/monitor_info.py:53-61 | A name is supported exactly when the module-level dispatch accepts it |
| MonitorInfo.SupportedPlatformsAreExactlyThree | utils/monitor_info.py:61 | The supported names are exactly "Windows", "Darwin" and "Linux" |
| Geometry.TopHalf | snapper.py:79-82 | The top half keeps the monitor's corner and width, and its height is half the monitor height rounded down |
| Geometry.BottomHalf | snapper.py:121-124 | The bottom half keeps the monitor's left edge and width and starts one half-height below the monitor's top. Its height is half the monitor height, rounded down |
| Geometry.Plan | snapper.py:78-126 | Definition: the top half for `snap_to_top` (lines 78-84) and the bottom half for `snap_to_bottom` (lines 120-126); its properties are in PlanKeepsColumns |
| Geometry.PlanKeepsColumns | snapper.py:79-82 | Both halves keep the monitor's left edge and width. Their height is half the monitor height, rounded down (lines 82 and 124). The top half starts at the monitor's top and the bottom half one half-height lower (line 122) |
| Geometry.HalvesShareEdge | snapper.py:120-124 | The bottom half starts exactly where the top half ends, and both halves have the same height |
| Geometry.HalvesSpan | snapper.py:120-124 | Together the halves are as tall as the monitor when its height is even, and one row shorter when it is odd |
| Geometry.HalvesTileMonitor | snapper.py:120-124 | For a non-negative height, the halves never share a row. They cover exactly the monitor's rows, except the last row of an odd height, and everything they cover lies inside the monitor |
| Geometry.FullHdTop | snapper.py:79-82 | A 1920x1080 monitor at the origin gives the top rectangle (0, 0, 1920, 540) |
| Geometry.FullHdBottom | snapper.py:121-124 | A 1920x1080 monitor at the origin gives the bottom rectangle (0, 540, 1920, 540) |
| Geometry.OddHeightHalves | snapper.py:122-124 | A height of 1081 gives two halves of 540 rows each |
| Geometry.DarwinTopBounds | snapper.py:91-100 | The top bounds start at the origin, span the queried width, and end at half the queried height rounded down |
| Geometry.DarwinBottomBounds | snapper.py:133-142 | The bottom bounds span the queried width. They start at half the queried height rounded down and are as tall again |
| Geometry.DarwinBounds | snapper.py:91-142 | Definition: the top bounds for `snap_to_top` (lines 91-100) and the bottom bounds for `snap_to_bottom` (lines 133-142); related to the Windows halves by DarwinBoundsMatchPlanAtOrigin |
| Geometry.BoundsRect | snapper.py:100 | Reads AppleScript's {left, top, right, bottom} as a rectangle with its corner at (left, top), ending at the right and bottom edges |
| Geometry.BoundsRoundTrip | snapper.py:100 | Reading bounds as a rectangle and writing it back as bounds gives the same bounds |
| Geometry.RectRoundTrip | snapper.py:100 | Writing a rectangle as bounds and reading it back gives the same rectangle |
| Geometry.DarwinBoundsMatchPlanAtOrigin | snapper.py:92-100 | The macOS bounds for top (lines 92-100) and bottom (lines 134-142) describe the same rectangle as the Windows computation on a monitor at the origin with the queried resolution |
| PyText.TrimLeft | snapper.py:60 | Removing leading whitespace: the result is no longer and does not start with whitespace. It is unchanged when there is nothing to remove, and empty for an all-whitespace text |
| PyText.TrimRight | snapper.py:60 | The same for trailing whitespace; the first character is kept |
| PyText.Strip | snapper.py:60 | Stripping, with the `isspace()` set for `str.strip()` and the smaller set `int(...)` skips, leaves a text with no whitespace of that set at either end. The result is no longer than the input, idempotent on trimmed text, and empty for all-whitespace text |
| PyText.StripPadded | snapper.py:60 | Stripping any whitespace from around a trimmed, non-empty text gives back exactly that text |
| PyText.SepIndexFirst | snapper.py:60 | The separator search skips no separator |
| PyText.SepIndexFinds | snapper.py:60 | The separator search stops at the first separator at or after its start |
| PyText.Split | snapper.py:60 | `split(", ")` always yields at least one piece, and joining the pieces with ", " gives back the input |
| PyText.SplitPiecesHaveNoSep | snapper.py:60 | No piece of a split contains ", " |
| PyText.SplitNoSep | snapper.py:60 | A text without ", " splits into itself alone |
| PyText.SplitAfterPart | snapper.py:60 | Everything before the first separator becomes the first piece, and the rest is split on its own |
| PyText.SplitJoin | snapper.py:60 | Splitting undoes joining, for pieces without the separator |
| PyText.SplitSingleIffNoSep | snapper.py:60 | A text splits into one piece if and only if it contains no ", " |
| PyText.ParseLiteral | snapper.py:92-93 | A stripped literal is accepted only when it ends in a digit |
| PyText.ParseInt | snapper.py:92-93 | `int(...)` accepts a text only when the text, stripped of the whitespace `int` skips, is non-empty and ends in a digit |
| PyText.DigitsRoundTrip | snapper.py:92-93 | The decimal digits of a natural number are non-empty, all digits, and evaluate back to the number |
| PyText.DecimalStringParses | snapper.py:92-93 | The decimal form of any integer is trimmed and is read back as that integer |
| PyText.ParseIntRoundTrip | snapper.py:92-93 | `int(str(n)) == n`, whatever whitespace surrounds the digits |
| PyText.ParseIntDecimal | snapper.py:92-93 | `int(str(n)) == n` for every integer |
| PyText.FileSeparatorStopsInt | snapper.py:92-93 | A leading U+001C is removed by `str.strip()`, but it makes `int(...)` raise |
| PyText.TwoLinesDoNotParse | snapper.py:87-93 | Two resolution lines, as printed with two displays, make `int(...)` raise |
| PyText.EmptyOutputDoesNotParse | snapper.py:87-93 | Empty query output makes `int(...)` raise |
| Snapper.ParseFrontWindow | snapper.py:58-62 | A non-zero return code gives no window. A window that is found has application and window names that contain no ", " and that, joined by ", ", are exactly the stripped reply. With SplitJoin this makes the pair the only one the reply can give |
| Snapper.FrontWindowRoundTrip | snapper.py:58-61 | The reply "app, title" with any surrounding whitespace is read back as exactly that pair, when neither name contains ", " |
| Snapper.TitleWithSeparatorIsRejected | snapper.py:58-65 | A window title containing ", ", with any surrounding whitespace, splits into more than two pieces. The unpacking raises and no window is found |
| Snapper.EmptyTitleIsRejected | snapper.py:58-65 | The reply "app, " for an untitled window is stripped to one piece, so no window is found |
| Snapper.SafariReply | snapper.py:58-61 | On macOS, the reply "Safari, Apple" with return code 0 locates Safari's window "Apple" |
| Snapper.ActiveWindow | snapper.py:42-68 | Linux never finds a window. On Windows the native active window is returned exactly when there is one. On macOS a scripted handle is returned exactly when the reply parses, carrying the reply's application and window names |
| Snapper.Resolution | snapper.py:87-93 | Definition: the width and height read by `int(...)` from the two query outputs, or None when either raises; its properties are in ResolutionRoundTrip and TwoLinesDoNotParse |
| Snapper.ResolutionRoundTrip | snapper.py:87-93 | Query outputs that are two decimal numbers, as `getoutput` returns them, are read back as those numbers |
| Snapper.FullHdResolution | snapper.py:87-93 | Outputs "1920" and "1080" give the resolution 1920 by 1080 |
| Snapper.NativeCalls | snapper.py:83-84 | Definition: `moveTo` to the rectangle's corner, then `resizeTo` to its size unless the move raised; its properties are in NativeSnapOrder |
| Snapper.ScriptedCalls | snapper.py:87-103 | Definition: the width and height queries, then the bounds command when both outputs parse; its properties are in DarwinSwallowsFailures |
| Snapper.ApplyCalls | snapper.py:73-103 | Definition: no call without a window or a monitor. Otherwise the native calls for the planned half, or the scripted calls, according to the handle's kind |
| Snapper.SnapCalls | snapper.py:72-103 | Definition: the window lookup (not on Linux, which asks nothing), then ApplyCalls; its properties are in ShortCircuit, NativeSnapOrder, ResizeFollowsMove and DarwinSwallowsFailures |
| Snapper.SnapResult | snapper.py:73-110 | Definition: False without a window or a monitor; on Windows True exactly when neither native call raised; on macOS True |
| Snapper.ShortCircuit | snapper.py:72-75 | Without a window or a monitor, a snap returns False. It issues no call except the window lookup (none on Linux) and changes no window |
| Snapper.LinuxNeverSnaps | snapper.py:66-75 | On Linux every snap returns False and calls nothing |
| Snapper.NativeSnapOrder | snapper.py:78-84 | On Windows the lookup is followed by `moveTo` to the planned corner. `resizeTo` to the planned size follows only if the move did not raise. The snap returns True exactly when neither raised (lines 107-110) |
| Snapper.ResizeFollowsMove | snapper.py:83-84 | No resize is ever issued except directly after a move |
| Snapper.DarwinSwallowsFailures | snapper.py:85-107 | On macOS, once a window and a monitor are found, the snap returns True. It always queries width and height, and it sends the bounds command only when both parse, with bounds computed from them |
| Snapper.DarwinIgnoresMonitorGeometry | snapper.py:85-103 | On macOS the calls issued do not depend on the cached monitor's geometry |
| Snapper.DarwinTopScenario | snapper.py:85-107 | Safari's window on a 1920 by 1080 display is sent the bounds {0, 0, 1920, 540}, and the snap returns True |
| Snapper.HandleWithinAnswers | snapper.py:42-47 | A located handle refers to no native window except the one the system offered. It is native exactly on Windows with an active window |
| Snapper.Window.constructor | snapper.py:44 | A native window with the given position and size, and a fixed answer to whether each of its calls raises |
| Snapper.Window.MoveTo | snapper.py:83 | `moveTo` either raises and leaves the window where it was, or places its top-left corner at the given point. It never changes the size |
| Snapper.Window.ResizeTo | snapper.py:84 | `resizeTo` either raises and leaves the size as it was, or sets the given size. It never moves the window |
| Snapper.WindowSnapper.constructor | snapper.py:31-33 | The snapper caches the primary monitor of the display list and starts with an empty call trace |
| Snapper.WindowSnapper.NativeEffect | snapper.py:83-84 | Definition: a window whose move raised stays where it was; one whose resize raised is moved but keeps its size, with no rollback; otherwise it takes the planned rectangle |
| Snapper.WindowSnapper.Snapped | snapper.py:70-152 | Definition of one snap's effect: the result is SnapResult and the trace grows by SnapCalls, for the handle get_active_window produces. The monitor is untouched. The native window receives NativeEffect on Windows once a monitor is known, and is unchanged otherwise |
| Snapper.WindowSnapper.ApplyNative | snapper.py:78-84 | Logs and performs the move, then the resize unless the move raised. Returns whether both succeeded. A failed resize leaves the window moved but not resized, with no rollback |
| Snapper.WindowSnapper.ApplyScripted | snapper.py:86-105 | Logs both resolution queries, then the bounds command if the resolution parsed, and returns True |
| Snapper.WindowSnapper.SnapLocated | snapper.py:72-110 | Given the located handle, returns `SnapResult` and appends exactly `SnapCalls` to the trace. The native window gets the planned placement only when a monitor is known |
| Snapper.WindowSnapper.Snap | snapper.py:70-110 | One snap: `Snapped` for the handle `get_active_window` produces from the system's answers |
| Snapper.WindowSnapper.SnapToTop | snapper.py:70-110 | `snap_to_top` satisfies `Snapped` for the top half |
| Snapper.WindowSnapper.SnapToBottom | snapper.py:112-152 | `snap_to_bottom` satisfies `Snapped` for the bottom half |
| Snapper.WindowSnapper.SnapToTopTwice | snapper.py:70-110 | Two top snaps against the same answers log the same calls twice. For a window whose calls raise the same way each time, they also return the same result. With a native window whose calls do not raise, the window ends on the monitor's top half |

## Left out

- Process execution is not modelled. The `osascript` and `system_profiler`
  runs and `subprocess.getoutput` are replaced by their outputs, given as
  `OsAnswers`.
- pygetwindow and pywinauto are modelled only through the `Window` class and
  the given active window. The window system behind them is not modelled.
- `screeninfo.get_monitors` is replaced by the `Enumeration` value.
- The return code and effect of the bounds `osascript` run are not modelled.
  The code ignores both.
- `print` diagnostics and the `sys.exit(1)` of an unsupported platform are not
  modelled. The exit is the `None` of `SelectPlatform`.
- Time does not pass between the calls of one snap, so focus changing
  mid-snap is not modelled. Each snap reads one fixed set of answers.
- PyText.ParseInt: does not accept the underscores between digits or the
  non-ASCII decimal digits that Python's `int` also accepts. No resolution
  output contains either. Non-ASCII whitespace is skipped directly; `int`
  first maps it to a space, with the same effect.
- Unicode normalisation is not modelled. Whitespace is taken character by
  character.
- get_system_platform is passed in as a platform name. `platform.system()` is
  not modelled.
- The user interface, the tray icon and the entry point of `main.py` are not
  modelled.
- A native call that raises on one attempt and succeeds on the next is not
  modelled. Whether a window's calls raise is fixed per window.
- An exception raised inside the Windows branch is modelled as the raising call
  leaving the window unchanged. What happens to the window on a partially
  completed native call is not known.
