/**
 * The registry of windows that plugins open with `createBrowserWindow`
 * (src/main/core/pluginWindowManager.ts): a window map in insertion order,
 * a map of pending asynchronous method results and the counter that names
 * them. Windows are identified by the id of their webContents; the uuid a
 * new window gets and the outcome of a reflective method call are
 * parameters.
 */
module PluginWindowManager {
  import opened Wrappers
  import opened Lists
  import Text

  /** One entry of `windowInfoMap`, keyed by `id`. */
  datatype WindowInfo = WindowInfo(id: string, webContents: int, parent: int, pluginPath: string, pluginName: string)

  /** What the registry sends out. */
  datatype WindowEvent =
    | CloseWindow(webContents: int)
    | WindowLoaded(parent: int, channel: string, windowId: string)
    | OpenWindow(webContents: int, url: string, preload: Option<string>)

  /** What invoking the member at the end of a path did. */
  datatype CallOutcome =
    | NoContext
    | NotAFunction
    | ReturnedValue(value: string)
    | ReturnedPromise(promise: int)

  /** `{type:'value', data}` (None for null) or `{type:'promise', taskId}`. */
  datatype CallReply = ValueReply(data: Option<string>) | PromiseReply(taskId: string)

  /** POSIX `path.isAbsolute`. */
  predicate IsAbsolute(p: string) {
    |p| > 0 && p[0] == '/'
  }

  function PathJoin(dir: string, seg: string): string {
    dir + "/" + seg
  }

  /**
   * The URL a plugin window loads: an http(s) or file:/// URL as given, any
   * other string as a file under the plugin directory.
   */
  function ResolveUrl(pluginPath: string, url: string): (r: string)
    ensures Text.StartsWith(r, "http") || Text.StartsWith(r, "file:///")
    ensures Text.StartsWith(url, "http") || Text.StartsWith(url, "file:///") ==> r == url
    ensures !(Text.StartsWith(url, "http") || Text.StartsWith(url, "file:///")) ==>
              r == "file:///" + pluginPath + "/" + url
  {
    if Text.StartsWith(url, "http") || Text.StartsWith(url, "file:///") then url
    else "file:///" + PathJoin(pluginPath, url)
  }

  /** Resolving an already resolved URL changes nothing. */
  lemma ResolveUrlIdempotent(pluginPath: string, url: string)
    ensures ResolveUrl(pluginPath, ResolveUrl(pluginPath, url)) == ResolveUrl(pluginPath, url)
  {
    var r := ResolveUrl(pluginPath, url);
    if !(Text.StartsWith(url, "http") || Text.StartsWith(url, "file:///")) {
      assert "file:///" <= r by {
        assert r == "file:///" + (pluginPath + "/" + url);
      }
    }
  }

  /** The preload script: a relative path is taken under the plugin directory. */
  function ResolvePreload(pluginPath: string, preload: Option<string>): (r: Option<string>)
    ensures preload.None? || preload.value == "" || IsAbsolute(preload.value) ==> r == preload
    ensures preload.Some? && preload.value != "" && !IsAbsolute(preload.value) ==>
              r == Some(pluginPath + "/" + preload.value)
  {
    if preload.Some? && preload.value != "" && !IsAbsolute(preload.value) then Some(PathJoin(pluginPath, preload.value))
    else preload
  }

  /** Under an absolute plugin directory, a resolved preload is absolute, so resolving again changes nothing. */
  lemma ResolvePreloadIdempotent(pluginPath: string, preload: Option<string>)
    requires IsAbsolute(pluginPath)
    ensures ResolvePreload(pluginPath, preload).Some? && ResolvePreload(pluginPath, preload).value != "" ==>
              IsAbsolute(ResolvePreload(pluginPath, preload).value)
    ensures ResolvePreload(pluginPath, ResolvePreload(pluginPath, preload)) == ResolvePreload(pluginPath, preload)
  {
    if preload.Some? && preload.value != "" && !IsAbsolute(preload.value) {
      assert (pluginPath + "/" + preload.value)[0] == pluginPath[0];
    }
  }

  /** `task_<n>` */
  function TaskId(n: nat): (r: string)
    ensures Text.StartsWith(r, "task_")
  {
    "task_" + Text.NatToString(n)
  }

  /** Different counter values name different tasks. */
  lemma TaskIdInjective(m: nat, n: nat)
    requires m != n
    ensures TaskId(m) != TaskId(n)
  {
    if TaskId(m) == TaskId(n) {
      var a := Text.NatToString(m);
      var b := Text.NatToString(n);
      assert a == TaskId(m)[5..];
      assert b == TaskId(n)[5..];
      Text.NatToStringInjective(m, n);
    }
  }

  /** `windowInfoMap.get(windowId)` as the entry's position. */
  function IndexOfId(ws: seq<WindowInfo>, windowId: string): Option<nat> {
    FirstIndex(ws, (w: WindowInfo) => w.id == windowId)
  }

  /** A live window whose webContents has the given id. */
  predicate LiveWith(w: WindowInfo, destroyed: set<int>, webContentsId: int) {
    w.webContents !in destroyed && w.webContents == webContentsId
  }

  /** The close requests that closing every live window of `ws` with the given path sends, in map order. */
  function ClosesFor(ws: seq<WindowInfo>, destroyed: set<int>, pluginPath: Option<string>): (r: seq<WindowEvent>)
    ensures forall e :: e in r ==> e.CloseWindow?
    decreases |ws|
  {
    if |ws| == 0 then []
    else
      var last := ws[|ws| - 1];
      ClosesFor(ws[..|ws| - 1], destroyed, pluginPath)
      + (if (pluginPath.None? || last.pluginPath == pluginPath.value) && last.webContents !in destroyed
         then [CloseWindow(last.webContents)] else [])
  }

  /** Exactly the live windows of the plugin are asked to close. */
  lemma {:induction false} ClosesForExactly(ws: seq<WindowInfo>, destroyed: set<int>, pluginPath: Option<string>, wc: int)
    ensures CloseWindow(wc) in ClosesFor(ws, destroyed, pluginPath) <==>
              wc !in destroyed && exists i :: 0 <= i < |ws| && ws[i].webContents == wc
                                              && (pluginPath.None? || ws[i].pluginPath == pluginPath.value)
    decreases |ws|
  {
    if |ws| > 0 {
      var init := ws[..|ws| - 1];
      ClosesForExactly(init, destroyed, pluginPath, wc);
      if wc !in destroyed && exists i :: 0 <= i < |ws| && ws[i].webContents == wc
                                         && (pluginPath.None? || ws[i].pluginPath == pluginPath.value) {
        var i :| 0 <= i < |ws| && ws[i].webContents == wc && (pluginPath.None? || ws[i].pluginPath == pluginPath.value);
        if i < |ws| - 1 {
          assert init[i] == ws[i];
        }
      }
      forall i | 0 <= i < |init| ensures init[i] == ws[i] { }
    }
  }

  lemma ClosesForAppend(ws: seq<WindowInfo>, w: WindowInfo, destroyed: set<int>, pluginPath: Option<string>)
    ensures ClosesFor(ws + [w], destroyed, pluginPath) == ClosesFor(ws, destroyed, pluginPath)
            + (if (pluginPath.None? || w.pluginPath == pluginPath.value) && w.webContents !in destroyed
               then [CloseWindow(w.webContents)] else [])
  {
    assert (ws + [w])[..|ws|] == ws;
  }

  class PluginWindowManager {
    var windows: seq<WindowInfo>
    var tasks: map<string, int>
    var taskCounter: nat
    /** webContents ids that are destroyed. */
    var destroyed: set<int>
    var events: seq<WindowEvent>

    ghost predicate Valid()
      reads this
    {
      (forall i, j :: 0 <= i < j < |windows| ==> windows[i].id != windows[j].id)
      && (forall t :: t in tasks ==> exists n :: 0 <= n < taskCounter && t == TaskId(n))
    }

    constructor()
      ensures Valid() && windows == [] && tasks == map[] && taskCounter == 0 && destroyed == {} && events == []
    {
      windows := [];
      tasks := map[];
      taskCounter := 0;
      destroyed := {};
      events := [];
    }

    /**
     * `createWindow`: registers the new window under `freshId` with its
     * plugin and the sender that asked for it, and opens it on the resolved
     * URL with the resolved preload.
     */
    method CreateWindow(pluginPath: string, pluginName: string, url: string, preload: Option<string>,
                        sender: int, freshId: string, freshWebContents: int)
      returns (windowId: string)
      modifies this
      requires Valid()
      requires forall w :: w in windows ==> w.id != freshId
      ensures Valid()
      ensures windowId == freshId
      ensures windows == old(windows) + [WindowInfo(freshId, freshWebContents, sender, pluginPath, pluginName)]
      ensures events == old(events) + [OpenWindow(freshWebContents, ResolveUrl(pluginPath, url), ResolvePreload(pluginPath, preload))]
      ensures tasks == old(tasks) && taskCounter == old(taskCounter) && destroyed == old(destroyed)
    {
      var resolvedPreload := ResolvePreload(pluginPath, preload);
      windows := windows + [WindowInfo(freshId, freshWebContents, sender, pluginPath, pluginName)];
      var loadUrl := ResolveUrl(pluginPath, url);
      events := events + [OpenWindow(freshWebContents, loadUrl, resolvedPreload)];
      windowId := freshId;
    }

    /** The `did-finish-load` listener: the sender hears about the load only with a callback id, while it lives. */
    method OnWindowLoaded(windowId: string, callbackId: string, sender: int)
      modifies this
      ensures callbackId != "" && sender !in destroyed ==>
                events == old(events) + [WindowLoaded(sender, "browser-window-loaded-" + callbackId, windowId)]
      ensures callbackId == "" || sender in destroyed ==> events == old(events)
      ensures windows == old(windows) && tasks == old(tasks) && taskCounter == old(taskCounter) && destroyed == old(destroyed)
    {
      if callbackId != "" && sender !in destroyed {
        events := events + [WindowLoaded(sender, "browser-window-loaded-" + callbackId, windowId)];
      }
    }

    /** The window's 'closed' listener: its webContents is gone and its entry leaves the map. */
    method OnClosed(windowId: string, webContents: int)
      modifies this
      requires Valid()
      ensures Valid()
      ensures IndexOfId(old(windows), windowId).None? ==> windows == old(windows)
      ensures IndexOfId(old(windows), windowId).Some? ==> windows == RemoveAt(old(windows), IndexOfId(old(windows), windowId).value)
      ensures forall w :: w in windows ==> w.id != windowId
      ensures destroyed == old(destroyed) + {webContents}
      ensures tasks == old(tasks) && taskCounter == old(taskCounter) && events == old(events)
    {
      var i := IndexOfId(windows, windowId);
      if i.Some? {
        var rest := RemoveAt(windows, i.value);
        forall k | 0 <= k < |rest| ensures rest[k].id != windowId {
          if k >= i.value {
            assert rest[k] == windows[k + 1];
          }
        }
        windows := rest;
      }
      destroyed := destroyed + {webContents};
    }

    /**
     * `closeByPlugin(pluginPath)`: asks every live window of that plugin to
     * close, in map order; entries stay until their 'closed' event.
     */
    method CloseByPlugin(pluginPath: string)
      modifies this
      requires Valid()
      ensures Valid()
      ensures events == old(events) + ClosesFor(windows, destroyed, Some(pluginPath))
      ensures windows == old(windows) && tasks == old(tasks) && taskCounter == old(taskCounter) && destroyed == old(destroyed)
    {
      var i := 0;
      while i < |windows|
        invariant 0 <= i <= |windows|
        invariant windows == old(windows) && tasks == old(tasks) && taskCounter == old(taskCounter) && destroyed == old(destroyed)
        invariant events == old(events) + ClosesFor(windows[..i], destroyed, Some(pluginPath))
      {
        var w := windows[i];
        assert windows[..i + 1] == windows[..i] + [w];
        ClosesForAppend(windows[..i], w, destroyed, Some(pluginPath));
        if w.pluginPath == pluginPath && w.webContents !in destroyed {
          events := events + [CloseWindow(w.webContents)];
        }
        i := i + 1;
      }
      assert windows[..i] == windows;
    }

    /** `closeAll`: asks every live window to close and empties the map. */
    method CloseAll()
      modifies this
      requires Valid()
      ensures Valid()
      ensures events == old(events) + ClosesFor(old(windows), destroyed, None)
      ensures windows == [] && tasks == old(tasks) && taskCounter == old(taskCounter) && destroyed == old(destroyed)
    {
      var i := 0;
      while i < |windows|
        invariant 0 <= i <= |windows|
        invariant windows == old(windows) && tasks == old(tasks) && taskCounter == old(taskCounter) && destroyed == old(destroyed)
        invariant events == old(events) + ClosesFor(windows[..i], destroyed, None)
      {
        var w := windows[i];
        assert windows[..i + 1] == windows[..i] + [w];
        ClosesForAppend(windows[..i], w, destroyed, None);
        if w.webContents !in destroyed {
          events := events + [CloseWindow(w.webContents)];
        }
        i := i + 1;
      }
      assert windows[..i] == windows;
      windows := [];
    }

    /** `getPluginPathByWebContentsId`: the path of the first live window with that webContents. */
    method GetPluginPathByWebContentsId(webContentsId: int) returns (r: Option<string>)
      ensures r.None? <==> forall j :: 0 <= j < |windows| ==> !LiveWith(windows[j], destroyed, webContentsId)
      ensures r.Some? ==> exists i :: 0 <= i < |windows| && LiveWith(windows[i], destroyed, webContentsId)
                                      && r.value == windows[i].pluginPath
                                      && forall j :: 0 <= j < i ==> !LiveWith(windows[j], destroyed, webContentsId)
    {
      var i := 0;
      while i < |windows|
        invariant 0 <= i <= |windows|
        invariant forall j :: 0 <= j < i ==> !LiveWith(windows[j], destroyed, webContentsId)
      {
        if LiveWith(windows[i], destroyed, webContentsId) {
          return Some(windows[i].pluginPath);
        }
        i := i + 1;
      }
      return None;
    }

    /** `getPluginNameByWebContentsId`: the name of the first live window with that webContents. */
    method GetPluginNameByWebContentsId(webContentsId: int) returns (r: Option<string>)
      ensures r.None? <==> forall j :: 0 <= j < |windows| ==> !LiveWith(windows[j], destroyed, webContentsId)
      ensures r.Some? ==> exists i :: 0 <= i < |windows| && LiveWith(windows[i], destroyed, webContentsId)
                                      && r.value == windows[i].pluginName
                                      && forall j :: 0 <= j < i ==> !LiveWith(windows[j], destroyed, webContentsId)
    {
      var i := 0;
      while i < |windows|
        invariant 0 <= i <= |windows|
        invariant forall j :: 0 <= j < i ==> !LiveWith(windows[j], destroyed, webContentsId)
      {
        if LiveWith(windows[i], destroyed, webContentsId) {
          return Some(windows[i].pluginName);
        }
        i := i + 1;
      }
      return None;
    }

    /**
     * `callMethodSync(windowId, path, args)`: null for an unknown window, an
     * empty or blank method name, a missing context or a non-function member;
     * a promise result is parked under the next task id.
     */
    method CallMethodSync(windowId: string, path: seq<string>, outcome: CallOutcome) returns (r: CallReply)
      modifies this
      requires Valid()
      ensures Valid()
      ensures windows == old(windows) && destroyed == old(destroyed) && events == old(events)
      ensures (forall w :: w in windows ==> w.id != windowId) || |path| == 0 || path[|path| - 1] == ""
              || outcome.NoContext? || outcome.NotAFunction? ==>
                r == ValueReply(None) && tasks == old(tasks) && taskCounter == old(taskCounter)
      ensures (exists w :: w in windows && w.id == windowId) && |path| > 0 && path[|path| - 1] != "" ==>
                (outcome.ReturnedValue? ==> r == ValueReply(Some(outcome.value)) && tasks == old(tasks) && taskCounter == old(taskCounter))
                && (outcome.ReturnedPromise? ==>
                      r == PromiseReply(TaskId(old(taskCounter)))
                      && TaskId(old(taskCounter)) !in old(tasks)
                      && tasks == old(tasks)[TaskId(old(taskCounter)) := outcome.promise]
                      && taskCounter == old(taskCounter) + 1)
    {
      var i := IndexOfId(windows, windowId);
      if i.None? {
        return ValueReply(None);
      }
      if |path| == 0 || path[|path| - 1] == "" {
        return ValueReply(None);
      }
      match outcome
      case NoContext =>
        return ValueReply(None);
      case NotAFunction =>
        return ValueReply(None);
      case ReturnedValue(v) =>
        return ValueReply(Some(v));
      case ReturnedPromise(p) =>
        var taskId := TaskId(taskCounter);
        FreshTaskId();
        taskCounter := taskCounter + 1;
        tasks := tasks[taskId := p];
        return PromiseReply(taskId);
    }

    /** The id the counter names next is not taken. */
    lemma FreshTaskId()
      requires Valid()
      ensures TaskId(taskCounter) !in tasks
    {
      forall t | t in tasks ensures t != TaskId(taskCounter) {
        var n :| 0 <= n < taskCounter && t == TaskId(n);
        TaskIdInjective(n, taskCounter);
      }
    }

    /** The cleanup timer 60 seconds after a task settled. */
    method ExpireTask(taskId: string)
      modifies this
      requires Valid()
      ensures Valid()
      ensures tasks == old(tasks) - {taskId} && taskCounter == old(taskCounter)
      ensures windows == old(windows) && destroyed == old(destroyed) && events == old(events)
    {
      tasks := tasks - {taskId};
    }

    /**
     * `waitForTask(taskId)` once the promise has settled: an unknown id is an
     * error naming it; a known one yields its promise and is removed.
     */
    method WaitForTask(taskId: string) returns (r: Result<int, string>)
      modifies this
      requires Valid()
      ensures Valid()
      ensures taskId !in old(tasks) ==> r == Failure("Task " + taskId + " not found") && tasks == old(tasks)
      ensures taskId in old(tasks) ==> r == Success(old(tasks)[taskId]) && tasks == old(tasks) - {taskId}
      ensures taskId !in tasks && taskCounter == old(taskCounter)
      ensures windows == old(windows) && destroyed == old(destroyed) && events == old(events)
    {
      if taskId !in tasks {
        return Failure("Task " + taskId + " not found");
      }
      r := Success(tasks[taskId]);
      tasks := tasks - {taskId};
    }
  }
}
