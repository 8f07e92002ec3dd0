/**
 * Monitor enumeration, primary-monitor selection and platform names
 * (utils/monitor_info.py).
 */
module MonitorInfo {
  import opened Options

  /**
   * One enumerated display. `isPrimary` is None when the monitor object has no
   * `is_primary` attribute (or it is None), otherwise the flag's value.
   */
  datatype Monitor = Monitor(x: int, y: int, width: int, height: int, isPrimary: Option<bool>)

  /** The outcome of asking the display library for the monitor list. */
  datatype Enumeration = Listed(monitors: seq<Monitor>) | EnumerationFailed

  /** `hasattr(monitor, 'is_primary') and monitor.is_primary` */
  predicate FlaggedPrimary(m: Monitor) {
    m.isPrimary == Some(true)
  }

  /** No monitor before index `i` is flagged primary. */
  predicate NoneFlaggedBefore(ms: seq<Monitor>, i: int)
    requires 0 <= i <= |ms|
  {
    forall j :: 0 <= j < i ==> !FlaggedPrimary(ms[j])
  }

  /** get_screen_info: the monitor list, or [] when enumeration raised. */
  function GetScreenInfo(e: Enumeration): seq<Monitor> {
    match e
    case Listed(ms) => ms
    case EnumerationFailed => []
  }

  /** Index of the first flagged monitor: the early return of the `for` loop. */
  function PrimaryIndex(ms: seq<Monitor>): (r: Option<nat>)
    ensures r.Some? ==> r.value < |ms| && FlaggedPrimary(ms[r.value]) && NoneFlaggedBefore(ms, r.value)
    ensures r.None? ==> NoneFlaggedBefore(ms, |ms|)
  {
    if ms == [] then None
    else if FlaggedPrimary(ms[0]) then Some(0)
    else match PrimaryIndex(ms[1..])
      case None => None
      case Some(k) => Some(k + 1)
  }

  /** get_primary_monitor, given the list that get_screen_info returned. */
  function GetPrimaryMonitor(ms: seq<Monitor>): (r: Option<Monitor>)
    ensures forall i :: 0 <= i < |ms| && FlaggedPrimary(ms[i]) && NoneFlaggedBefore(ms, i) ==> r == Some(ms[i])
    ensures NoneFlaggedBefore(ms, |ms|) && ms != [] ==> r == Some(ms[0])
    ensures r.None? <==> ms == []
    ensures r.Some? ==> r.value in ms
    ensures r.Some? && !FlaggedPrimary(r.value) ==> r.value == ms[0] && NoneFlaggedBefore(ms, |ms|)
  {
    match PrimaryIndex(ms)
    case Some(k) => Some(ms[k])
    case None => if ms != [] then Some(ms[0]) else None
  }

  /** The flagged monitors, in enumeration order. */
  function Flagged(ms: seq<Monitor>): seq<Monitor> {
    if ms == [] then []
    else (if FlaggedPrimary(ms[0]) then [ms[0]] else []) + Flagged(ms[1..])
  }

  /** Reference selection: the head of "flagged monitors, then all monitors". */
  function ReferencePrimary(ms: seq<Monitor>): Option<Monitor> {
    var candidates := Flagged(ms) + ms;
    if candidates == [] then None else Some(candidates[0])
  }

  lemma {:induction false} FlaggedHead(ms: seq<Monitor>)
    ensures PrimaryIndex(ms).None? ==> Flagged(ms) == []
    ensures PrimaryIndex(ms).Some? ==> Flagged(ms) != [] && Flagged(ms)[0] == ms[PrimaryIndex(ms).value]
  {
    if ms != [] && !FlaggedPrimary(ms[0]) {
      FlaggedHead(ms[1..]);
    }
  }

  /** The first-match search agrees with the reference selection on every list. */
  lemma PrimaryMatchesReference(ms: seq<Monitor>)
    ensures GetPrimaryMonitor(ms) == ReferencePrimary(ms)
  {
    FlaggedHead(ms);
  }

  /** A failed enumeration leaves the snapper without a monitor. */
  lemma EnumerationFailureGivesNoMonitor()
    ensures GetPrimaryMonitor(GetScreenInfo(EnumerationFailed)) == None
  {
  }

  /** The platforms the program knows; anything else ends the process at import. */
  datatype Platform = Windows | Darwin | Linux

  /** The name platform.system() reports for each platform. */
  function PlatformName(p: Platform): string {
    match p
    case Windows => "Windows"
    case Darwin => "Darwin"
    case Linux => "Linux"
  }

  /**
   * The module-level dispatch of snapper.py on the detected system name:
   * None is the `sys.exit(1)` branch.
   */
  function SelectPlatform(name: string): (r: Option<Platform>)
    ensures r.Some? ==> PlatformName(r.value) == name
    ensures forall p :: PlatformName(p) == name ==> r == Some(p)
  {
    if name == "Windows" then Some(Windows)
    else if name == "Darwin" then Some(Darwin)
    else if name == "Linux" then Some(Linux)
    else None
  }

  /** is_supported_platform, for the name the system reports. */
  function IsSupportedPlatform(name: string): (r: bool)
    ensures r <==> SelectPlatform(name).Some?
  {
    name in ["Windows", "Darwin", "Linux"]
  }

  lemma SupportedPlatformsAreExactlyThree(name: string)
    ensures IsSupportedPlatform(name) <==> name == "Windows" || name == "Darwin" || name == "Linux"
  {
  }
}
