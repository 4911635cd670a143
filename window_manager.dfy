/**
 * The main-window rules of the window manager
 * (src/main/managers/windowManager.ts): the `will-resize` constraint in
 * search and plugin mode, the auto-back-to-search delay table and what
 * happens when the window hides, the per-display remembered position and
 * the centring used without one, and the guards before re-activating the
 * application that was in front. The window itself is its bounds; what is
 * sent to the renderer or asked of the plugin manager is an event log.
 */
module MainWindowManager {
  import opened Wrappers

  datatype Bounds = Bounds(x: int, y: int, width: int, height: int)

  /** The work area of a display, with its id. */
  datatype Display = Display(id: int, x: int, y: int, width: int, height: int)

  /** What the clipboard manager reports as the application in front. */
  datatype ActiveWindow = ActiveWindow(appName: string, bundleId: string, processId: int, timestamp: int)

  /** What the window manager asks of others. */
  datatype Event = HidePluginView | SendBackToSearch

  const MinWidth: int := 700
  const MaxWidth: int := 1200
  const MinPluginHeight: int := 200

  function ClampWidth(width: int): (r: int)
    ensures MinWidth <= r <= MaxWidth
    ensures MinWidth <= width <= MaxWidth ==> r == width
    ensures width < MinWidth ==> r == MinWidth
    ensures width > MaxWidth ==> r == MaxWidth
  {
    if width < MinWidth then MinWidth else if width > MaxWidth then MaxWidth else width
  }

  /** The outcome of one `will-resize`: the bounds forced instead (if any) and the width to save (if any). */
  datatype ResizeDecision = ResizeDecision(replacement: Option<Bounds>, saveWidth: Option<int>)

  /**
   * The `will-resize` handler. In search mode only the width may change; in
   * plugin mode the height may grow from 200 upward; in both the width stays
   * within [700, 1200] and a forced resize keeps the current top edge.
   */
  function WillResize(pluginMode: bool, current: Bounds, requested: Bounds): (d: ResizeDecision)
    ensures d.replacement.Some? ==>
              var b := d.replacement.value;
              b.x == requested.x && b.y == current.y && b.width == ClampWidth(requested.width)
    ensures !pluginMode ==>
              (d.replacement.Some? <==> requested.height != current.height || ClampWidth(requested.width) != requested.width)
    ensures !pluginMode && d.replacement.Some? ==> d.replacement.value.height == current.height
    ensures pluginMode ==>
              (d.replacement.Some? <==>
                 ClampWidth(requested.width) != requested.width || requested.height < MinPluginHeight || requested.y != current.y)
    ensures pluginMode && d.replacement.Some? ==>
              d.replacement.value.height == (if requested.height < MinPluginHeight then MinPluginHeight else requested.height)
    ensures d.saveWidth.Some? <==> ClampWidth(requested.width) != current.width
    ensures d.saveWidth.Some? ==> d.saveWidth.value == ClampWidth(requested.width)
  {
    var width := ClampWidth(requested.width);
    var save := if width != current.width then Some(width) else None;
    if !pluginMode then
      if requested.height != current.height || width != requested.width then
        ResizeDecision(Some(Bounds(requested.x, current.y, width, current.height)), save)
      else
        ResizeDecision(None, save)
    else
      var height := if requested.height < MinPluginHeight then MinPluginHeight else requested.height;
      if width != requested.width || height != requested.height || requested.y != current.y then
        ResizeDecision(Some(Bounds(requested.x, current.y, width, height)), save)
      else
        ResizeDecision(None, save)
  }

  /** The bounds the window ends up with: the forced ones, or the requested ones when the resize is let through. */
  function Resized(pluginMode: bool, current: Bounds, requested: Bounds): Bounds {
    var d := WillResize(pluginMode, current, requested);
    if d.replacement.Some? then d.replacement.value else requested
  }

  /** Whatever is requested, the window's width stays in range, its height is pinned in search mode and at least 200 in plugin mode. */
  lemma ResizeKeepsConstraints(pluginMode: bool, current: Bounds, requested: Bounds)
    ensures var b := Resized(pluginMode, current, requested);
            MinWidth <= b.width <= MaxWidth
            && (!pluginMode ==> b.height == current.height)
            && (pluginMode ==> b.height >= MinPluginHeight && b.y == current.y)
  {
  }

  /** Asking again for the bounds the window ended up with is let through unchanged. */
  lemma ResizeSettles(pluginMode: bool, current: Bounds, requested: Bounds)
    ensures WillResize(pluginMode, current, Resized(pluginMode, current, requested)).replacement.None?
  {
    var b := Resized(pluginMode, current, requested);
    assert MinWidth <= b.width <= MaxWidth;
  }

  /** `getAutoBackToSearchDelay`: milliseconds, or −1 for 'never' and anything unrecognised. */
  function AutoBackToSearchDelay(config: string): (ms: int)
    ensures ms >= -1
  {
    match config
    case "immediately" => 0
    case "30s" => 30 * 1000
    case "1m" => 60 * 1000
    case "3m" => 3 * 60 * 1000
    case "5m" => 5 * 60 * 1000
    case "10m" => 10 * 60 * 1000
    case _ => -1
  }

  const DelayConfigs: seq<string> := ["immediately", "30s", "1m", "3m", "5m", "10m"]

  /** Exactly the six listed settings have a delay; their delays are whole seconds and strictly increase in the listed order. */
  lemma DelayTable(config: string)
    ensures AutoBackToSearchDelay(config) >= 0 <==> config in DelayConfigs
    ensures AutoBackToSearchDelay(config) >= 0 ==> AutoBackToSearchDelay(config) % 1000 == 0
    ensures forall i, j :: 0 <= i < j < |DelayConfigs| ==>
              AutoBackToSearchDelay(DelayConfigs[i]) < AutoBackToSearchDelay(DelayConfigs[j])
  {
  }

  /** What hiding the window does about returning to the search page. */
  datatype TimerAction = NoTimer | BackNow | StartTimer(delay: int)

  /** The decision in `startAutoBackToSearchTimer`. */
  function TimerDecision(config: string): (a: TimerAction)
    ensures a == NoTimer <==> config == "never"
    ensures a == BackNow <==> config == "immediately"
    ensures a.StartTimer? ==> a.delay != 0 && a.delay == AutoBackToSearchDelay(config)
  {
    if config == "never" then NoTimer
    else
      var delay := AutoBackToSearchDelay(config);
      if delay == 0 then BackNow else StartTimer(delay)
  }

  /** Only the literal 'never' suppresses the timer: an unrecognised setting starts one with delay −1. */
  lemma UnknownConfigStartsTimer(config: string)
    requires config != "never" && config !in DelayConfigs
    ensures TimerDecision(config) == StartTimer(-1)
  {
    DelayTable(config);
  }

  /** Launchers whose windows are never re-activated. */
  const IgnoredApps: seq<string> := ["uTools", "Alfred", "Raycast", "Wox", "Listary"]

  /** The centred position on a display for a window of that width, sized for the default height. */
  function Centred(display: Display, windowWidth: int, defaultHeight: int): (int, int) {
    (display.x + (display.width - windowWidth) / 2, display.y + (display.height - defaultHeight) / 2)
  }

  /** Centring leaves margins on both sides that differ by at most one pixel, the right one being the wider. */
  lemma CentredMargins(display: Display, windowWidth: int, defaultHeight: int)
    ensures var (x, y) := Centred(display, windowWidth, defaultHeight);
            var left := x - display.x;
            var right := display.x + display.width - (x + windowWidth);
            0 <= right - left <= 1
            && var top := y - display.y;
               var bottom := display.y + display.height - (y + defaultHeight);
               0 <= bottom - top <= 1
  {
  }

  class WindowManager {
    /** The main window's bounds, when there is one. */
    var mainWindow: Option<Bounds>
    var isPluginMode: bool
    var windowPositionsByDisplay: map<int, (int, int)>
    var autoBackToSearchConfig: string
    /** The pending auto-back-to-search timer's delay. */
    var autoBackToSearchTimer: Option<int>
    var previousActiveWindow: Option<ActiveWindow>
    var events: seq<Event>

    constructor()
      ensures mainWindow.None? && !isPluginMode && windowPositionsByDisplay == map[]
      ensures autoBackToSearchConfig == "never" && autoBackToSearchTimer.None? && previousActiveWindow.None? && events == []
    {
      mainWindow := None;
      isPluginMode := false;
      windowPositionsByDisplay := map[];
      autoBackToSearchConfig := "never";
      autoBackToSearchTimer := None;
      previousActiveWindow := None;
      events := [];
    }

    /** `setSearchMode`: only the width may be resized. */
    method SetSearchMode()
      modifies this`isPluginMode
      ensures !isPluginMode
    {
      isPluginMode := false;
    }

    /** `setPluginMode`: width and height may be resized. */
    method SetPluginMode()
      modifies this`isPluginMode
      ensures isPluginMode
    {
      isPluginMode := true;
    }

    /** `notifyBackToSearch` */
    method NotifyBackToSearch()
      modifies this`isPluginMode, this`events
      ensures !isPluginMode
      ensures events == old(events) + (if mainWindow.Some? then [SendBackToSearch] else [])
    {
      SetSearchMode();
      if mainWindow.Some? {
        events := events + [SendBackToSearch];
      }
    }

    /** `backToSearch`: with a window, hide the plugin view and go back to search mode. */
    method BackToSearch()
      modifies this`isPluginMode, this`events
      ensures mainWindow.None? ==> isPluginMode == old(isPluginMode) && events == old(events)
      ensures mainWindow.Some? ==> !isPluginMode && events == old(events) + [HidePluginView, SendBackToSearch]
    {
      if mainWindow.None? {
        return;
      }
      events := events + [HidePluginView];
      NotifyBackToSearch();
    }

    /** `updateAutoBackToSearch` */
    method UpdateAutoBackToSearch(config: string)
      modifies this`autoBackToSearchConfig
      ensures autoBackToSearchConfig == config
    {
      autoBackToSearchConfig := config;
    }

    /** `startAutoBackToSearchTimer`: cancel the pending timer, then act on the setting. */
    method StartAutoBackToSearchTimer()
      modifies this`autoBackToSearchTimer, this`isPluginMode, this`events
      ensures match TimerDecision(autoBackToSearchConfig)
              case NoTimer => autoBackToSearchTimer.None? && events == old(events) && isPluginMode == old(isPluginMode)
              case BackNow =>
                autoBackToSearchTimer.None?
                && (mainWindow.Some? ==> !isPluginMode && events == old(events) + [HidePluginView, SendBackToSearch])
                && (mainWindow.None? ==> events == old(events) && isPluginMode == old(isPluginMode))
              case StartTimer(delay) =>
                autoBackToSearchTimer == Some(delay) && events == old(events) && isPluginMode == old(isPluginMode)
    {
      autoBackToSearchTimer := None;
      if autoBackToSearchConfig == "never" {
        return;
      }
      var delay := AutoBackToSearchDelay(autoBackToSearchConfig);
      if delay == 0 {
        BackToSearch();
        return;
      }
      autoBackToSearchTimer := Some(delay);
    }

    /** The timer firing: back to search, no timer pending. */
    method AutoBackToSearchFired()
      modifies this`autoBackToSearchTimer, this`isPluginMode, this`events
      ensures autoBackToSearchTimer.None?
      ensures mainWindow.Some? ==> !isPluginMode && events == old(events) + [HidePluginView, SendBackToSearch]
      ensures mainWindow.None? ==> events == old(events) && isPluginMode == old(isPluginMode)
    {
      BackToSearch();
      autoBackToSearchTimer := None;
    }

    /** `cancelAutoBackToSearchTimer` */
    method CancelAutoBackToSearchTimer()
      modifies this`autoBackToSearchTimer
      ensures autoBackToSearchTimer.None?
    {
      autoBackToSearchTimer := None;
    }

    /** `saveWindowPosition`: remember (in memory) where the window was on that display. */
    method SaveWindowPosition(displayId: int, x: int, y: int)
      modifies this`windowPositionsByDisplay
      ensures windowPositionsByDisplay == old(windowPositionsByDisplay)[displayId := (x, y)]
    {
      windowPositionsByDisplay := windowPositionsByDisplay[displayId := (x, y)];
    }

    /** Where the window goes on a display: the position remembered for it, else centred. */
    function TargetPosition(display: Display, windowWidth: int, defaultHeight: int): (p: (int, int))
      reads this
      ensures display.id in windowPositionsByDisplay ==> p == windowPositionsByDisplay[display.id]
      ensures display.id !in windowPositionsByDisplay ==> p == Centred(display, windowWidth, defaultHeight)
    {
      if display.id in windowPositionsByDisplay then windowPositionsByDisplay[display.id]
      else Centred(display, windowWidth, defaultHeight)
    }

    /** `moveWindowToCursor` onto the display under the cursor; the size is untouched. */
    method MoveWindowToCursor(display: Display, defaultHeight: int)
      modifies this`mainWindow
      ensures old(mainWindow).None? ==> mainWindow.None?
      ensures old(mainWindow).Some? ==>
                var (x, y) := old(TargetPosition(display, mainWindow.value.width, defaultHeight));
                mainWindow == Some(old(mainWindow.value).(x := x, y := y))
    {
      if mainWindow.None? {
        return;
      }
      var (x, y) := TargetPosition(display, mainWindow.value.width, defaultHeight);
      mainWindow := Some(mainWindow.value.(x := x, y := y));
    }

    /**
     * `restorePreviousWindow`: false when nothing was recorded or it is one of
     * the ignored launchers; otherwise whether activating it succeeded (a
     * throwing activation counts as failure).
     */
    method RestorePreviousWindow(activate: ActiveWindow -> bool) returns (restored: bool)
      ensures previousActiveWindow.None? ==> !restored
      ensures previousActiveWindow.Some? && previousActiveWindow.value.appName in IgnoredApps ==> !restored
      ensures restored <==>
                previousActiveWindow.Some? && previousActiveWindow.value.appName !in IgnoredApps
                && activate(previousActiveWindow.value)
    {
      if previousActiveWindow.None? {
        return false;
      }
      if previousActiveWindow.value.appName in IgnoredApps {
        return false;
      }
      restored := activate(previousActiveWindow.value);
    }
  }
}
