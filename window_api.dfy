/**
 * The host's window API (src/main/api/renderer/window.ts): resizing the
 * main window to a clamped height, reading and setting its position,
 * clamping its opacity, and remembering where it was moved to once the
 * move has settled.
 */
module WindowApi {
  import opened Wrappers
  import MainWindowManager

  const MinHeight: int := 59
  const MaxHeight: int := 600
  const MinOpacity: real := 0.3
  const MaxOpacity: real := 1.0

  /** `Math.max(59, Math.min(height, 600))` */
  function ClampHeight(height: int): (r: int)
    ensures MinHeight <= r <= MaxHeight
    ensures MinHeight <= height <= MaxHeight ==> r == height
  {
    if height > MaxHeight then MaxHeight else if height < MinHeight then MinHeight else height
  }

  /** The clamped height is the allowed height nearest to the one asked for. */
  lemma ClampHeightNearest(height: int, other: int)
    requires MinHeight <= other <= MaxHeight
    ensures var r := ClampHeight(height);
            (if r >= height then r - height else height - r) <= (if other >= height then other - height else height - other)
  {
  }

  /** `Math.max(0.3, Math.min(1, opacity))` */
  function ClampOpacity(opacity: real): (r: real)
    ensures MinOpacity <= r <= MaxOpacity
    ensures MinOpacity <= opacity <= MaxOpacity ==> r == opacity
  {
    if opacity > MaxOpacity then MaxOpacity else if opacity < MinOpacity then MinOpacity else opacity
  }

  /** The clamped opacity is the allowed opacity nearest to the one asked for. */
  lemma ClampOpacityNearest(opacity: real, other: real)
    requires MinOpacity <= other <= MaxOpacity
    ensures var r := ClampOpacity(opacity);
            (if r >= opacity then r - opacity else opacity - r) <= (if other >= opacity then other - opacity else opacity - other)
  {
  }

  /** The main window as this API sees it. */
  class MainWindow {
    var x: int
    var y: int
    var width: int
    var height: int
    var opacity: real

    constructor(x: int, y: int, width: int, height: int)
      ensures this.x == x && this.y == y && this.width == width && this.height == height && opacity == 1.0
    {
      this.x := x;
      this.y := y;
      this.width := width;
      this.height := height;
      opacity := 1.0;
    }
  }

  class WindowAPI {
    var mainWindow: MainWindow?

    constructor()
      ensures mainWindow == null
    {
      mainWindow := null;
    }

    /** `init` */
    method Init(window: MainWindow)
      modifies this
      ensures mainWindow == window
    {
      mainWindow := window;
    }

    /** `resizeWindow`: the height is clamped to [59, 600] and the width kept. */
    method ResizeWindow(height: int)
      modifies mainWindow
      ensures mainWindow != null ==>
                mainWindow.height == ClampHeight(height) && mainWindow.width == old(mainWindow.width)
                && mainWindow.x == old(mainWindow.x) && mainWindow.y == old(mainWindow.y)
                && mainWindow.opacity == old(mainWindow.opacity)
    {
      if mainWindow != null {
        mainWindow.height := ClampHeight(height);
      }
    }

    /** `getWindowPosition`: the window's position, or (0, 0) without a window. */
    method GetWindowPosition() returns (x: int, y: int)
      ensures mainWindow == null ==> x == 0 && y == 0
      ensures mainWindow != null ==> x == mainWindow.x && y == mainWindow.y
    {
      if mainWindow != null {
        return mainWindow.x, mainWindow.y;
      }
      return 0, 0;
    }

    /** `setWindowPosition` */
    method SetWindowPosition(x: int, y: int)
      modifies mainWindow
      ensures mainWindow != null ==>
                mainWindow.x == x && mainWindow.y == y
                && mainWindow.width == old(mainWindow.width) && mainWindow.height == old(mainWindow.height)
                && mainWindow.opacity == old(mainWindow.opacity)
    {
      if mainWindow != null {
        mainWindow.x := x;
        mainWindow.y := y;
      }
    }

    /** `setWindowOpacity`: clamped to [0.3, 1]. */
    method SetWindowOpacity(opacity: real)
      modifies mainWindow
      ensures mainWindow != null ==>
                mainWindow.opacity == ClampOpacity(opacity)
                && mainWindow.x == old(mainWindow.x) && mainWindow.y == old(mainWindow.y)
                && mainWindow.width == old(mainWindow.width) && mainWindow.height == old(mainWindow.height)
    {
      if mainWindow != null {
        mainWindow.opacity := ClampOpacity(opacity);
      }
    }

    /**
     * The settled `move` handler: the window's position is remembered for
     * the display it is on, when there is a window and a display.
     */
    method MoveSettled(manager: MainWindowManager.WindowManager, displayId: Option<int>)
      modifies manager`windowPositionsByDisplay
      ensures mainWindow != null && displayId.Some? ==>
                manager.windowPositionsByDisplay
                == old(manager.windowPositionsByDisplay)[displayId.value := (mainWindow.x, mainWindow.y)]
      ensures mainWindow == null || displayId.None? ==>
                manager.windowPositionsByDisplay == old(manager.windowPositionsByDisplay)
    {
      if mainWindow != null && displayId.Some? {
        manager.SaveWindowPosition(displayId.value, mainWindow.x, mainWindow.y);
      }
    }
  }
}
