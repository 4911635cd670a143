/**
 * The main window's plugin surface cache (src/main/managers/pluginManager.ts).
 *
 * A plugin shown in the main window lives in a view; hiding keeps the view
 * cached in `pluginViews` for reuse, killing removes it. Views and windows
 * are opaque ids; what the manager sends to the windows, views and the
 * window sizer is appended to `events`. Whatever the manager awaits (the
 * `plugins` and `outKillPlugin` settings, plugin.json, the mode probe, the
 * detached window) arrives as a parameter of the method that consumes it.
 */
module PluginManager {
  import opened Wrappers
  import opened Lists
  import InternalPlugins

  /** Height of the search bar above the plugin view. */
  const MainContentHeight: int := 59
  /** Default main window height. */
  const WindowHeight: int := 600
  /** Default view height, `600 - 59`. */
  const DefaultViewHeight: int := 541

  /** One cached plugin view (`PluginViewInfo`). */
  datatype ViewInfo = ViewInfo(
    path: string,
    name: string,
    view: int,
    height: Option<int>,
    subInputPlaceholder: Option<string>,
    subInputValue: Option<string>,
    subInputVisible: Option<bool>,
    logo: string,
    isDevelopment: bool)

  /** What the manager sends out. */
  datatype Event =
    | PluginOut(view: int, isKill: bool)
    | PluginOpened(path: string, placeholder: string, subInputVisible: bool)
    | PluginLoaded(path: string)
    | PluginClosed
    | BackToSearch
    | FocusMain
    | FocusView(view: int)
    | ShowView(view: int)
    | RemoveView(view: int)
    | ResizeWindow(height: int)
    | ViewHeight(view: int, height: int)
    | CloseView(view: int)
    | CloseWindowsOf(path: string)
    | PluginEnter(view: int)
    | CallHeadless(path: string, featureCode: string)
    | PluginDetach(view: int)
    | OpenDetached(path: string, width: int, height: int, placeholder: string, subInputVisible: bool)

  /** The fields of plugin.json the manager reads; an absent string field is "". */
  datatype PluginConfig = PluginConfig(name: string, main: string, logo: string, developmentMain: string)

  /** The entry of the `plugins` setting for the launched path, if any. */
  datatype DbPluginInfo = DbPluginInfo(main: string, isDevelopment: bool)

  /** What `getPluginInfoByWebContents` returns. */
  datatype PluginInfo = PluginInfo(name: string, path: string, isInternal: bool)

  /** A window of the detached-window manager, which is not part of this model. */
  datatype DetachedWindow = DetachedWindow(view: int, pluginName: string, pluginPath: string)

  /** A stored detached size as `Number()` read it: None stands for a non-finite value. */
  datatype RawSize = RawSize(width: Option<int>, height: Option<int>)

  datatype Size = Size(width: int, height: int)

  function IndexOfPath(views: seq<ViewInfo>, path: string): Option<nat> {
    FirstIndex(views, (v: ViewInfo) => v.path == path)
  }

  function IndexOfView(views: seq<ViewInfo>, view: int): Option<nat> {
    FirstIndex(views, (v: ViewInfo) => v.view == view)
  }

  predicate DistinctPaths(views: seq<ViewInfo>) {
    forall i, j :: 0 <= i < j < |views| ==> views[i].path != views[j].path
  }

  predicate DistinctViews(views: seq<ViewInfo>) {
    forall i, j :: 0 <= i < j < |views| ==> views[i].view != views[j].view
  }

  /**
   * Removing an entry keeps paths distinct and leaves no entry for the removed
   * path, so a second kill of the same path finds nothing.
   */
  lemma RemovePathGone(views: seq<ViewInfo>, i: nat)
    requires i < |views| && DistinctPaths(views) && DistinctViews(views)
    ensures DistinctPaths(RemoveAt(views, i)) && DistinctViews(RemoveAt(views, i))
    ensures IndexOfPath(RemoveAt(views, i), views[i].path).None?
  {
    var r := RemoveAt(views, i);
    forall j | 0 <= j < |r| ensures r[j].path != views[i].path {
      if j >= i {
        assert r[j] == views[j + 1];
      }
    }
  }

  /** `cached.height || 600 - 59`: an absent or zero height gives the default. */
  function CachedOrDefault(height: Option<int>): (h: int)
    ensures height.Some? && height.value != 0 ==> h == height.value
    ensures height.None? || height.value == 0 ==> h == DefaultViewHeight
  {
    if height.Some? && height.value != 0 then height.value else DefaultViewHeight
  }

  /** The sub-input placeholder announced for a reused view: `cached.subInputPlaceholder || '搜索'`. */
  function ShownPlaceholder(placeholder: Option<string>): (r: string)
    ensures r != ""
    ensures placeholder.Some? && placeholder.value != "" ==> r == placeholder.value
    ensures placeholder.None? || placeholder.value == "" ==> r == "搜索"
  {
    if placeholder.Some? && placeholder.value != "" then placeholder.value else "搜索"
  }

  /** Updating a cached height moves no entry: both searches answer as before. */
  lemma HeightKeepsIndices(views: seq<ViewInfo>, i: nat, h: Option<int>, path: string, view: int)
    requires i < |views|
    ensures IndexOfPath(views[i := views[i].(height := h)], path) == IndexOfPath(views, path)
    ensures IndexOfView(views[i := views[i].(height := h)], view) == IndexOfView(views, view)
  {
    var u := views[i := views[i].(height := h)];
    assert forall j :: 0 <= j < |u| ==> u[j].path == views[j].path && u[j].view == views[j].view;
  }

  /** The height `processPluginMode` restores for a UI plugin: the cached one when positive. */
  function ModeTargetHeight(height: Option<int>): (h: int)
    ensures h > 0
    ensures height.Some? && height.value > 0 ==> h == height.value
    ensures height.None? || height.value <= 0 ==> h == DefaultViewHeight
  {
    var target := CachedOrDefault(height);
    if target <= 0 then DefaultViewHeight else target
  }

  /**
   * `getStoredDetachedSize`: a finite stored size is clamped below to 400 wide
   * and `300 - titlebarHeight` high; a missing or non-finite one gives null.
   */
  function StoredDetachedSize(sizes: Option<map<string, RawSize>>, name: string, titlebarHeight: int): (r: Option<Size>)
    ensures r.Some? <==> sizes.Some? && name in sizes.value && sizes.value[name].width.Some? && sizes.value[name].height.Some?
    ensures r.Some? ==> r.value.width >= 400 && r.value.height >= 300 - titlebarHeight
    ensures r.Some? ==> (r.value.width == 400 || r.value.width == sizes.value[name].width.value)
                        && (sizes.value[name].width.value >= 400 ==> r.value.width == sizes.value[name].width.value)
    ensures r.Some? ==> (sizes.value[name].height.value >= 300 - titlebarHeight ==> r.value.height == sizes.value[name].height.value)
  {
    if sizes.Some? && name in sizes.value then
      var raw := sizes.value[name];
      if raw.width.None? || raw.height.None? then None
      else
        Some(Size(if raw.width.value < 400 then 400 else raw.width.value,
                  if raw.height.value < 300 - titlebarHeight then 300 - titlebarHeight else raw.height.value))
    else None
  }

  const NoRunningPlugin: string := "没有正在运行的插件"
  const PluginInfoNotFound: string := "插件信息未找到"
  const DetachedWindowFailed: string := "创建独立窗口失败"

  class PluginManager {
    var hasMainWindow: bool
    var pluginView: Option<int>
    var currentPluginPath: Option<string>
    var pluginViews: seq<ViewInfo>
    var lastPluginEscTime: Option<int>
    /** Views whose webContents has been closed. */
    var destroyed: set<int>
    var events: seq<Event>

    ghost predicate Valid()
      reads this
    {
      DistinctPaths(pluginViews) && DistinctViews(pluginViews)
      && (pluginView.Some? <==> currentPluginPath.Some?)
      && (currentPluginPath.Some? ==> hasMainWindow)
    }

    constructor()
      ensures Valid() && !hasMainWindow && pluginView.None? && currentPluginPath.None?
      ensures pluginViews == [] && lastPluginEscTime.None? && destroyed == {} && events == []
    {
      hasMainWindow := false;
      pluginView := None;
      currentPluginPath := None;
      pluginViews := [];
      lastPluginEscTime := None;
      destroyed := {};
      events := [];
    }

    /** `init(mainWindow)` */
    method Init()
      modifies this
      requires Valid()
      ensures Valid() && hasMainWindow
      ensures pluginViews == old(pluginViews) && pluginView == old(pluginView) && currentPluginPath == old(currentPluginPath)
      ensures events == old(events) && destroyed == old(destroyed) && lastPluginEscTime == old(lastPluginEscTime)
    {
      hasMainWindow := true;
    }

    /**
     * `setExpendHeight(height, updateCache)`: asks for a window of
     * `height + 59`, sizes the view, and records the height in the cache
     * entry of the current view only when `updateCache`.
     */
    method SetExpendHeight(height: int, updateCache: bool)
      modifies this`events, this`pluginViews
      requires Valid()
      ensures Valid()
      ensures pluginView == old(pluginView) && currentPluginPath == old(currentPluginPath)
      ensures hasMainWindow == old(hasMainWindow) && destroyed == old(destroyed) && lastPluginEscTime == old(lastPluginEscTime)
      ensures !hasMainWindow || pluginView.None? ==> events == old(events) && pluginViews == old(pluginViews)
      ensures hasMainWindow && pluginView.Some? ==>
                events == old(events) + [ResizeWindow(height + MainContentHeight), ViewHeight(pluginView.value, height)]
      ensures hasMainWindow && pluginView.Some? && updateCache && IndexOfView(old(pluginViews), pluginView.value).Some? ==>
                var i := IndexOfView(old(pluginViews), pluginView.value).value;
                pluginViews == old(pluginViews)[i := old(pluginViews)[i].(height := Some(height))]
      ensures !(hasMainWindow && pluginView.Some? && updateCache && IndexOfView(old(pluginViews), pluginView.value).Some?) ==>
                pluginViews == old(pluginViews)
    {
      if !hasMainWindow || pluginView.None? {
        return;
      }
      events := events + [ResizeWindow(height + MainContentHeight), ViewHeight(pluginView.value, height)];
      if updateCache {
        var i := IndexOfView(pluginViews, pluginView.value);
        if i.Some? {
          pluginViews := pluginViews[i.value := pluginViews[i.value].(height := Some(height))];
        }
      }
    }

    /**
     * `hidePluginView`: detaches the current view but keeps it cached. Returns
     * the (name, path) whose `outKillPlugin` check runs after the delay.
     */
    method HidePluginView() returns (pendingKill: Option<(string, string)>)
      modifies this`events, this`pluginView, this`currentPluginPath
      requires Valid()
      ensures Valid()
      ensures pluginViews == old(pluginViews) && destroyed == old(destroyed)
      ensures hasMainWindow == old(hasMainWindow) && lastPluginEscTime == old(lastPluginEscTime)
      ensures old(pluginView).None? || !hasMainWindow ==>
                pluginView == old(pluginView) && currentPluginPath == old(currentPluginPath) && events == old(events) && pendingKill.None?
      ensures old(pluginView).Some? && hasMainWindow ==>
                var v := old(pluginView).value;
                pluginView.None? && currentPluginPath.None?
                && events == old(events) + (if v in destroyed then [] else [PluginOut(v, false)]) + [RemoveView(v), PluginClosed]
      ensures pendingKill.Some? <==>
                old(pluginView).Some? && hasMainWindow && old(currentPluginPath).Some? && old(currentPluginPath).value != ""
                && IndexOfPath(pluginViews, old(currentPluginPath).value).Some?
                && pluginViews[IndexOfPath(pluginViews, old(currentPluginPath).value).value].name != ""
      ensures pendingKill.Some? ==>
                pendingKill.value == (pluginViews[IndexOfPath(pluginViews, old(currentPluginPath).value).value].name, old(currentPluginPath).value)
    {
      pendingKill := None;
      if pluginView.Some? && hasMainWindow {
        var v := pluginView.value;
        var currentPath := currentPluginPath;
        if v !in destroyed {
          events := events + [PluginOut(v, false)];
        }
        var name: Option<string> := None;
        if currentPath.Some? {
          var i := IndexOfPath(pluginViews, currentPath.value);
          if i.Some? {
            name := Some(pluginViews[i.value].name);
          }
        }
        events := events + [RemoveView(v)];
        pluginView := None;
        currentPluginPath := None;
        events := events + [PluginClosed];
        if name.Some? && name.value != "" && currentPath.Some? && currentPath.value != "" {
          pendingKill := Some((name.value, currentPath.value));
        }
      }
    }

    /** `killPlugin(path)`: false and no change when the path is not cached. */
    method KillPlugin(path: string) returns (killed: bool)
      modifies this`events, this`destroyed, this`pluginView, this`currentPluginPath, this`pluginViews
      requires Valid()
      ensures Valid()
      ensures hasMainWindow == old(hasMainWindow) && lastPluginEscTime == old(lastPluginEscTime)
      ensures killed <==> IndexOfPath(old(pluginViews), path).Some?
      ensures !killed ==> pluginViews == old(pluginViews) && pluginView == old(pluginView)
                          && currentPluginPath == old(currentPluginPath) && events == old(events) && destroyed == old(destroyed)
      ensures killed ==>
                var i := IndexOfPath(old(pluginViews), path).value;
                var v := old(pluginViews)[i].view;
                pluginViews == RemoveAt(old(pluginViews), i)
                && IndexOfPath(pluginViews, path).None?
                && destroyed == old(destroyed) + {v}
                && (old(currentPluginPath) == Some(path) ==> pluginView.None? && currentPluginPath.None?)
                && (old(currentPluginPath) != Some(path) ==> pluginView == old(pluginView) && currentPluginPath == old(currentPluginPath))
                && events == old(events)
                             + (if v in old(destroyed) then [] else [PluginOut(v, true)])
                             + (if old(currentPluginPath) == Some(path) then [RemoveView(v)] else [])
                             + (if v in old(destroyed) then [] else [CloseView(v)])
                             + [CloseWindowsOf(path)]
    {
      var i := IndexOfPath(pluginViews, path);
      if i.None? {
        return false;
      }
      var v := pluginViews[i.value].view;
      var live := v !in destroyed;
      var shown := currentPluginPath == Some(path) && hasMainWindow;
      events := events
                + (if live then [PluginOut(v, true)] else [])
                + (if shown then [RemoveView(v)] else [])
                + (if live then [CloseView(v)] else [])
                + [CloseWindowsOf(path)];
      if shown {
        pluginView := None;
        currentPluginPath := None;
      }
      if live {
        destroyed := destroyed + {v};
      }
      RemovePathGone(pluginViews, i.value);
      pluginViews := RemoveAt(pluginViews, i.value);
      killed := true;
    }

    /**
     * `checkAndKillPlugin(name, path)`, run once the delay after hiding has
     * passed: kills iff the `outKillPlugin` setting is a list holding `name`.
     */
    method CheckAndKillPlugin(name: string, path: string, outKillPlugin: Option<seq<string>>) returns (killed: bool)
      modifies this
      requires Valid()
      ensures Valid()
      ensures killed <==> outKillPlugin.Some? && name in outKillPlugin.value && IndexOfPath(old(pluginViews), path).Some?
      ensures !(outKillPlugin.Some? && name in outKillPlugin.value) ==> pluginViews == old(pluginViews) && events == old(events)
      ensures killed ==> IndexOfPath(pluginViews, path).None?
    {
      killed := false;
      if outKillPlugin.Some? && name in outKillPlugin.value {
        killed := KillPlugin(path);
      }
    }

    /** `killAllPlugins`: every cached view is told it is killed and closed; the cache empties. */
    method KillAllPlugins()
      modifies this
      requires Valid()
      ensures Valid()
      ensures pluginViews == [] && pluginView.None? && currentPluginPath.None?
      ensures events == old(events) + KillAllEvents(old(pluginViews), old(destroyed))
                        + (if hasMainWindow && old(pluginView).Some? then [RemoveView(old(pluginView).value)] else [])
      ensures destroyed == old(destroyed) + ViewsOf(old(pluginViews))
    {
      CloseEntries(pluginViews);
      if hasMainWindow && pluginView.Some? {
        events := events + [RemoveView(pluginView.value)];
      }
      pluginViews := [];
      pluginView := None;
      currentPluginPath := None;
    }

    /** The loop of `killAllPlugins` over the cached entries, in cache order. */
    method CloseEntries(views: seq<ViewInfo>)
      modifies this`events, this`destroyed
      requires DistinctViews(views)
      ensures events == old(events) + KillAllEvents(views, old(destroyed))
      ensures destroyed == old(destroyed) + ViewsOf(views)
    {
      var i := 0;
      while i < |views|
        invariant 0 <= i <= |views|
        invariant events == old(events) + KillAllEvents(views[..i], old(destroyed))
        invariant destroyed == old(destroyed) + ViewsOf(views[..i])
      {
        CloseStep(views, i, old(destroyed));
        CloseEntry(views[i]);
        i := i + 1;
      }
      assert views[..i] == views;
    }

    /** One entry of `killAllPlugins`: notify and close its view unless already closed, then its windows. */
    method CloseEntry(entry: ViewInfo)
      modifies this`events, this`destroyed
      ensures events == old(events) + (if entry.view in old(destroyed) then [] else [PluginOut(entry.view, true), CloseView(entry.view)])
                        + [CloseWindowsOf(entry.path)]
      ensures destroyed == old(destroyed) + {entry.view}
    {
      if entry.view !in destroyed {
        events := events + [PluginOut(entry.view, true), CloseView(entry.view)];
        destroyed := destroyed + {entry.view};
      }
      events := events + [CloseWindowsOf(entry.path)];
    }

    /** `killCurrentPlugin` (Cmd/Ctrl+Q): kills the current plugin and returns to search. */
    method KillCurrentPlugin() returns (killed: bool)
      modifies this
      requires Valid()
      ensures Valid()
      ensures old(currentPluginPath).None? || old(currentPluginPath).value == "" ==>
                !killed && pluginViews == old(pluginViews) && events == old(events) && currentPluginPath == old(currentPluginPath)
      ensures |events| >= |old(events)|
      ensures old(currentPluginPath).Some? && old(currentPluginPath).value != "" ==>
                (killed <==> IndexOfPath(old(pluginViews), old(currentPluginPath).value).Some?)
      ensures killed ==> currentPluginPath.None? && pluginView.None?
                         && IndexOfPath(pluginViews, old(currentPluginPath).value).None?
                         && |events| >= 2 && events[|events| - 2..] == [BackToSearch, FocusMain]
    {
      killed := false;
      if currentPluginPath.None? || currentPluginPath.value == "" {
        return;
      }
      var path := currentPluginPath.value;
      killed := KillPlugin(path);
      if killed && hasMainWindow {
        events := events + [BackToSearch, FocusMain];
      }
    }

    /**
     * The `render-process-gone` handler of the view created for `path`: the
     * entry leaves the cache, and when it was current the manager hides it
     * and goes back to search. The kill notice goes to whatever view is
     * current at that moment.
     */
    method OnRenderProcessGone(path: string)
      modifies this`events, this`pluginViews, this`pluginView, this`currentPluginPath
      requires Valid()
      ensures Valid()
      ensures IndexOfPath(pluginViews, path).None?
      ensures IndexOfPath(old(pluginViews), path).None? ==> pluginViews == old(pluginViews)
      ensures IndexOfPath(old(pluginViews), path).Some? ==>
                pluginViews == RemoveAt(old(pluginViews), IndexOfPath(old(pluginViews), path).value)
      ensures old(currentPluginPath) == Some(path) ==> currentPluginPath.None? && pluginView.None? && BackToSearch in events
      ensures old(currentPluginPath) != Some(path) ==> currentPluginPath == old(currentPluginPath) && pluginView == old(pluginView)
      ensures old(pluginView).Some? && old(pluginView).value !in old(destroyed) ==>
                |events| > |old(events)| && events[|old(events)|] == PluginOut(old(pluginView).value, true)
      ensures |events| > 0 && events[|events| - 1] == CloseWindowsOf(path)
    {
      if pluginView.Some? && pluginView.value !in destroyed {
        events := events + [PluginOut(pluginView.value, true)];
      }
      var i := IndexOfPath(pluginViews, path);
      if i.Some? {
        RemovePathGone(pluginViews, i.value);
        pluginViews := RemoveAt(pluginViews, i.value);
      }
      if currentPluginPath == Some(path) {
        var _ := HidePluginView();
        events := events + [BackToSearch];
        currentPluginPath := None;
      }
      events := events + [CloseWindowsOf(path)];
    }

    /**
     * `createPluginView(path, featureCode)`. `dbInfo` is the `plugins` entry
     * for the path; `config` is plugin.json, None when it cannot be read;
     * `freshView` is the view a new WebContentsView gets. A cached path is
     * reused without a new entry; otherwise a new entry is appended.
     */
    method CreatePluginView(pluginPath: string, dbInfo: Option<DbPluginInfo>, config: Option<PluginConfig>, freshView: int)
      returns (pendingKill: Option<(string, string)>)
      modifies this`events, this`pluginViews, this`pluginView, this`currentPluginPath
      requires Valid()
      requires forall v :: v in pluginViews ==> v.view != freshView
      ensures Valid()
      ensures !old(hasMainWindow) ==> pluginViews == old(pluginViews) && events == old(events) && pluginView == old(pluginView)
                                      && currentPluginPath == old(currentPluginPath)
      ensures old(hasMainWindow) && IndexOfPath(old(pluginViews), pluginPath).Some? ==>
                var c := old(pluginViews)[IndexOfPath(old(pluginViews), pluginPath).value];
                pluginViews == old(pluginViews) && currentPluginPath == Some(pluginPath) && pluginView == Some(c.view)
      ensures old(hasMainWindow) && IndexOfPath(old(pluginViews), pluginPath).None? && config.Some? ==>
                pluginViews == old(pluginViews) + [NewEntry(pluginPath, config.value, dbInfo, freshView)]
                && currentPluginPath == Some(pluginPath) && pluginView == Some(freshView)
      ensures old(hasMainWindow) && IndexOfPath(old(pluginViews), pluginPath).None? && config.None? ==>
                pluginViews == old(pluginViews) && currentPluginPath.None? && pluginView.None?
    {
      pendingKill := None;
      if !hasMainWindow {
        return;
      }
      if currentPluginPath.Some? {
        pendingKill := HidePluginView();
      }
      var cachedIndex := IndexOfPath(pluginViews, pluginPath);
      if cachedIndex.Some? {
        ShowCachedView(cachedIndex.value, dbInfo, config);
        return;
      }
      if config.None? {
        return;
      }
      OpenNewView(pluginPath, config.value, dbInfo, freshView);
    }

    /**
     * The cached branch of `createPluginView`: the entry's view is shown again,
     * sized from its cached height (0 for a plugin whose `plugins` entry has no
     * `main`), and announced as opened and loaded when plugin.json is readable.
     * The mode decision that follows is `ProcessPluginMode`, run when the
     * probe answers.
     */
    method ShowCachedView(i: nat, dbInfo: Option<DbPluginInfo>, config: Option<PluginConfig>)
      modifies this`events, this`pluginViews, this`pluginView, this`currentPluginPath
      requires Valid() && hasMainWindow && i < |pluginViews|
      ensures Valid()
      ensures currentPluginPath == Some(old(pluginViews)[i].path) && pluginView == Some(old(pluginViews)[i].view)
      ensures pluginViews == old(pluginViews)
      ensures var cached := old(pluginViews)[i];
              var h := if dbInfo.None? || dbInfo.value.main == "" then 0 else CachedOrDefault(cached.height);
              events == old(events) + [ShowView(cached.view), FocusView(cached.view),
                                       ResizeWindow(h + MainContentHeight), ViewHeight(cached.view, h)]
                        + (if config.Some?
                           then [PluginOpened(cached.path, ShownPlaceholder(cached.subInputPlaceholder), cached.subInputVisible.UnwrapOr(false)),
                                 PluginLoaded(cached.path)]
                           else [])
    {
      var cached := pluginViews[i];
      pluginView := Some(cached.view);
      events := events + [ShowView(cached.view), FocusView(cached.view)];
      var headless := dbInfo.None? || dbInfo.value.main == "";
      currentPluginPath := Some(cached.path);
      if headless {
        SetExpendHeight(0, false);
      } else {
        SetExpendHeight(CachedOrDefault(cached.height), false);
      }
      if config.Some? {
        events := events + [PluginOpened(cached.path, ShownPlaceholder(cached.subInputPlaceholder), cached.subInputVisible.UnwrapOr(false)),
                            PluginLoaded(cached.path)];
      }
    }

    /** The uncached branch of `createPluginView`: a new entry for a new view, shown at height 0. */
    method OpenNewView(pluginPath: string, config: PluginConfig, dbInfo: Option<DbPluginInfo>, freshView: int)
      modifies this`events, this`pluginViews, this`pluginView, this`currentPluginPath
      requires Valid() && hasMainWindow && IndexOfPath(pluginViews, pluginPath).None?
      requires forall v :: v in pluginViews ==> v.view != freshView
      ensures Valid()
      ensures pluginViews == old(pluginViews) + [NewEntry(pluginPath, config, dbInfo, freshView)]
      ensures currentPluginPath == Some(pluginPath) && pluginView == Some(freshView)
      ensures events == old(events) + [ShowView(freshView), ViewHeight(freshView, 0), ResizeWindow(MainContentHeight),
                                       PluginOpened(pluginPath, "搜索", false)]
    {
      var entry := NewEntry(pluginPath, config, dbInfo, freshView);
      pluginView := Some(freshView);
      events := events + [ShowView(freshView), ViewHeight(freshView, 0), ResizeWindow(MainContentHeight)];
      pluginViews := pluginViews + [entry];
      currentPluginPath := Some(pluginPath);
      events := events + [PluginOpened(pluginPath, "搜索", false)];
    }

    /**
     * The `did-finish-load` handler of a new view. `processPluginMode` sends
     * the mode probe and awaits it, so the handler first announces the load
     * and restores the view to 541 for a plugin with a `main`
     * (`initialViewHeight`); the mode decision runs when the probe answers,
     * here right after the handler.
     */
    method OnDidFinishLoad(pluginPath: string, featureCode: string, view: int, uiPlugin: bool, mode: Option<string>)
      modifies this`events, this`pluginViews
      requires Valid()
      ensures Valid()
      ensures |events| > |old(events)| && events[|old(events)|] == PluginLoaded(pluginPath)
      ensures uiPlugin && old(pluginView).Some? ==>
                |events| >= |old(events)| + 3
                && events[|old(events)| + 1..|old(events)| + 3]
                   == [ResizeWindow(DefaultViewHeight + MainContentHeight), ViewHeight(old(pluginView).value, DefaultViewHeight)]
      ensures old(pluginView) != Some(view) ==>
                events == old(events) + [PluginLoaded(pluginPath)]
                          + (if uiPlugin && old(pluginView).Some?
                             then [ResizeWindow(DefaultViewHeight + MainContentHeight), ViewHeight(old(pluginView).value, DefaultViewHeight)]
                             else [])
      ensures old(pluginView) == Some(view) && mode == Some("none") ==>
                |events| >= 3
                && events[|events| - 3..] == [ResizeWindow(MainContentHeight), ViewHeight(view, 0), CallHeadless(pluginPath, featureCode)]
      ensures old(pluginView) == Some(view) && mode != Some("none") && uiPlugin
              && IndexOfView(old(pluginViews), view).Some? && IndexOfPath(old(pluginViews), pluginPath) == IndexOfView(old(pluginViews), view) ==>
                |events| >= 4
                && events[|events| - 4..] == [ResizeWindow(DefaultViewHeight + MainContentHeight), ViewHeight(view, DefaultViewHeight),
                                             FocusView(view), PluginEnter(view)]
                && pluginViews == old(pluginViews)[IndexOfView(old(pluginViews), view).value :=
                                                   old(pluginViews)[IndexOfView(old(pluginViews), view).value].(height := Some(DefaultViewHeight))]
    {
      events := events + [PluginLoaded(pluginPath)];
      if uiPlugin {
        SetExpendHeight(DefaultViewHeight, true);
        if pluginView.Some? && IndexOfView(old(pluginViews), pluginView.value).Some? {
          HeightKeepsIndices(old(pluginViews), IndexOfView(old(pluginViews), pluginView.value).value, Some(DefaultViewHeight), pluginPath, view);
        }
      }
      ProcessPluginMode(pluginPath, featureCode, view, mode);
    }

    /**
     * `processPluginMode`, once the mode probe has answered (`mode` None when
     * it timed out): nothing when the view is no longer current; mode 'none'
     * collapses the view without touching the cache and calls the headless
     * entry; any other mode restores a positive height, records it in the
     * current view's cache entry, focuses the view and sends it the enter
     * event.
     */
    method ProcessPluginMode(pluginPath: string, featureCode: string, view: int, mode: Option<string>)
      modifies this`events, this`pluginViews
      requires Valid()
      ensures Valid()
      ensures old(pluginView) != Some(view) ==> events == old(events) && pluginViews == old(pluginViews)
      ensures old(pluginView) == Some(view) && mode == Some("none") ==>
                pluginViews == old(pluginViews)
                && events == old(events) + [ResizeWindow(MainContentHeight), ViewHeight(view, 0), CallHeadless(pluginPath, featureCode)]
      ensures old(pluginView) == Some(view) && mode != Some("none") ==>
                var h := ModeTargetHeight(if IndexOfPath(old(pluginViews), pluginPath).Some?
                                          then old(pluginViews)[IndexOfPath(old(pluginViews), pluginPath).value].height else None);
                events == old(events) + [ResizeWindow(h + MainContentHeight), ViewHeight(view, h), FocusView(view), PluginEnter(view)]
                && pluginViews == (if IndexOfView(old(pluginViews), view).Some?
                                   then old(pluginViews)[IndexOfView(old(pluginViews), view).value :=
                                                         old(pluginViews)[IndexOfView(old(pluginViews), view).value].(height := Some(h))]
                                   else old(pluginViews))
    {
      if pluginView != Some(view) {
        return;
      }
      if mode == Some("none") {
        SetExpendHeight(0, false);
        events := events + [CallHeadless(pluginPath, featureCode)];
      } else {
        var i := IndexOfPath(pluginViews, pluginPath);
        var target := ModeTargetHeight(if i.Some? then pluginViews[i.value].height else None);
        SetExpendHeight(target, true);
        events := events + [FocusView(view), PluginEnter(view)];
      }
    }

    /**
     * `updatePluginViewBounds(width, height)`: only a positive view height
     * `height - 59` is applied and cached.
     */
    method UpdatePluginViewBounds(width: int, height: int)
      modifies this
      requires Valid()
      ensures Valid()
      ensures pluginView == old(pluginView) && currentPluginPath == old(currentPluginPath)
      ensures old(pluginView).None? || height - MainContentHeight <= 0 ==> pluginViews == old(pluginViews) && events == old(events)
      ensures old(pluginView).Some? && height - MainContentHeight > 0 ==>
                events == old(events) + [ViewHeight(pluginView.value, height - MainContentHeight)]
                && (IndexOfView(old(pluginViews), pluginView.value).Some? ==>
                      var i := IndexOfView(old(pluginViews), pluginView.value).value;
                      pluginViews == old(pluginViews)[i := old(pluginViews)[i].(height := Some(height - MainContentHeight))])
    {
      if pluginView.None? {
        return;
      }
      var viewHeight := height - MainContentHeight;
      if viewHeight > 0 {
        events := events + [ViewHeight(pluginView.value, viewHeight)];
        var i := IndexOfView(pluginViews, pluginView.value);
        if i.Some? {
          pluginViews := pluginViews[i.value := pluginViews[i.value].(height := Some(viewHeight))];
        }
      }
    }

    /** `handlePluginEsc`: records the time, hides the plugin and goes back to search. */
    method HandlePluginEsc(now: int) returns (pendingKill: Option<(string, string)>)
      modifies this
      requires Valid()
      ensures Valid()
      ensures lastPluginEscTime == Some(now) && pluginViews == old(pluginViews)
      ensures hasMainWindow ==> currentPluginPath.None? && pluginView.None? && |events| >= 2 && events[|events| - 2..] == [BackToSearch, FocusMain]
    {
      lastPluginEscTime := Some(now);
      pendingKill := HidePluginView();
      if hasMainWindow {
        events := events + [BackToSearch, FocusMain];
      }
    }

    /** `shouldSuppressMainHide(withinMs)`: an ESC at most `withinMs` ago suppresses the hide. */
    function ShouldSuppressMainHide(now: int, withinMs: int): (r: bool)
      reads this
      ensures r <==> lastPluginEscTime.Some? && now - lastPluginEscTime.value <= withinMs
    {
      lastPluginEscTime.Some? && now - lastPluginEscTime.value <= withinMs
    }

    /** The end of a successful detach: the view leaves the main window and its cache entry goes. */
    method CloseDetachedView(i: nat)
      modifies this`events, this`pluginViews, this`pluginView, this`currentPluginPath
      requires Valid() && i < |pluginViews| && pluginView.Some?
      ensures Valid()
      ensures pluginViews == RemoveAt(old(pluginViews), i) && IndexOfPath(pluginViews, old(pluginViews)[i].path).None?
      ensures pluginView.None? && currentPluginPath.None?
      ensures events == old(events) + [RemoveView(old(pluginView).value), PluginClosed, BackToSearch]
    {
      events := events + [RemoveView(pluginView.value)];
      RemovePathGone(pluginViews, i);
      pluginViews := RemoveAt(pluginViews, i);
      events := events + [PluginClosed, BackToSearch];
      pluginView := None;
      currentPluginPath := None;
    }

    /**
     * `detachCurrentPlugin`. `config` is plugin.json (a read error carries its
     * message), `sizes` the `detachedWindowSizes` setting, `windowCreated`
     * whether the detached window could be made.
     */
    method DetachCurrentPlugin(config: Result<PluginConfig, string>, sizes: Option<map<string, RawSize>>,
                               titlebarHeight: int, windowCreated: bool)
      returns (r: Result<(), string>, viewHeight: Option<int>)
      modifies this`events, this`pluginViews, this`pluginView, this`currentPluginPath
      requires Valid()
      ensures Valid()
      ensures !old(hasMainWindow) || old(pluginView).None? || old(currentPluginPath).None? || old(currentPluginPath).value == "" ==>
                r == Failure(NoRunningPlugin) && pluginViews == old(pluginViews) && events == old(events)
      ensures r.Success? ==>
                old(currentPluginPath).Some? && IndexOfPath(old(pluginViews), old(currentPluginPath).value).Some?
                && pluginViews == RemoveAt(old(pluginViews), IndexOfPath(old(pluginViews), old(currentPluginPath).value).value)
                && pluginView.None? && currentPluginPath.None?
                && |events| >= 2 && events[|events| - 2..] == [PluginClosed, BackToSearch]
      ensures r.Success? ==>
                config.Success? &&
                var cached := old(pluginViews)[IndexOfPath(old(pluginViews), old(currentPluginPath).value).value];
                var stored := StoredDetachedSize(sizes, config.value.name, titlebarHeight);
                viewHeight == Some(if stored.Some? then stored.value.height
                                   else if cached.height.Some? then cached.height.value
                                   else WindowHeight - titlebarHeight)
      ensures r.Failure? ==> pluginViews == old(pluginViews) && pluginView == old(pluginView) && currentPluginPath == old(currentPluginPath)
      ensures old(hasMainWindow) && old(pluginView).Some? && old(currentPluginPath).Some? && old(currentPluginPath).value != ""
                && IndexOfPath(old(pluginViews), old(currentPluginPath).value).None? ==>
                r == Failure(PluginInfoNotFound) && events == old(events)
      ensures config.Failure? && old(hasMainWindow) && old(pluginView).Some? && old(currentPluginPath).Some?
              && old(currentPluginPath).value != "" && IndexOfPath(old(pluginViews), old(currentPluginPath).value).Some? ==>
                r == Failure(config.error) && events == old(events)
      ensures r == Failure(DetachedWindowFailed) && config.Success? ==>
                !windowCreated
      ensures config.Success? && old(hasMainWindow) && old(pluginView).Some? && old(currentPluginPath).Some?
              && old(currentPluginPath).value != "" && IndexOfPath(old(pluginViews), old(currentPluginPath).value).Some? ==>
                r == (if windowCreated then Success(()) else Failure(DetachedWindowFailed))
    {
      viewHeight := None;
      if !hasMainWindow || pluginView.None? || currentPluginPath.None? || currentPluginPath.value == "" {
        return Failure(NoRunningPlugin), None;
      }
      var path := currentPluginPath.value;
      var i := IndexOfPath(pluginViews, path);
      if i.None? {
        return Failure(PluginInfoNotFound), None;
      }
      var cached := pluginViews[i.value];
      if config.Failure? {
        return Failure(config.error), None;
      }
      var stored := StoredDetachedSize(sizes, config.value.name, titlebarHeight);
      var width := if stored.Some? then stored.value.width else 800;
      var height := if stored.Some? then stored.value.height
                    else if cached.height.Some? then cached.height.value
                    else WindowHeight - titlebarHeight;
      if cached.view !in destroyed {
        events := events + [PluginDetach(cached.view)];
      }
      var placeholder := if cached.subInputPlaceholder.Some? && cached.subInputPlaceholder.value != ""
                         then cached.subInputPlaceholder.value else "搜索...";
      events := events + [OpenDetached(path, width, height, placeholder, cached.subInputVisible.UnwrapOr(true))];
      if !windowCreated {
        return Failure(DetachedWindowFailed), None;
      }
      CloseDetachedView(i.value);
      return Success(()), Some(height);
    }

    /**
     * `getPluginInfoByWebContents`: the cached views of the main window are
     * searched first, then the detached windows; `isInternal` follows the
     * built-in list.
     */
    function GetPluginInfoByWebContents(webContents: int, detached: seq<DetachedWindow>): (r: Option<PluginInfo>)
      reads this
      ensures r.Some? ==> r.value.isInternal == InternalPlugins.IsInternalPlugin(r.value.name)
      ensures IndexOfView(pluginViews, webContents).Some? ==>
                var v := pluginViews[IndexOfView(pluginViews, webContents).value];
                r == Some(PluginInfo(v.name, v.path, InternalPlugins.IsInternalPlugin(v.name)))
      ensures IndexOfView(pluginViews, webContents).None? ==>
                (r.Some? <==> exists i :: 0 <= i < |detached| && detached[i].view == webContents)
    {
      match IndexOfView(pluginViews, webContents)
      case Some(i) =>
        var v := pluginViews[i];
        Some(PluginInfo(v.name, v.path, InternalPlugins.IsInternalPlugin(v.name)))
      case None =>
        match FirstIndex(detached, (w: DetachedWindow) => w.view == webContents)
        case Some(j) =>
          var w := detached[j];
          Some(PluginInfo(w.pluginName, w.pluginPath, InternalPlugins.IsInternalPlugin(w.pluginName)))
        case None => None
    }

    /**
     * `isPluginDev(webContentsId)`: a cached view answers for itself; a
     * plugin window (whose plugin path the window registry reports) answers
     * with the development flag of its plugin's cached view.
     */
    function IsPluginDev(webContentsId: int, windowPluginPath: Option<string>): (r: bool)
      reads this
      ensures IndexOfView(pluginViews, webContentsId).Some? ==>
                r == pluginViews[IndexOfView(pluginViews, webContentsId).value].isDevelopment
      ensures IndexOfView(pluginViews, webContentsId).None? ==>
                (r <==> windowPluginPath.Some? && windowPluginPath.value != ""
                        && IndexOfPath(pluginViews, windowPluginPath.value).Some?
                        && pluginViews[IndexOfPath(pluginViews, windowPluginPath.value).value].isDevelopment)
    {
      match IndexOfView(pluginViews, webContentsId)
      case Some(i) => pluginViews[i].isDevelopment
      case None =>
        if windowPluginPath.Some? && windowPluginPath.value != "" then
          match IndexOfPath(pluginViews, windowPluginPath.value)
          case Some(j) => pluginViews[j].isDevelopment
          case None => false
        else false
    }
  }

  /** The cache entry a new view gets. */
  function NewEntry(pluginPath: string, config: PluginConfig, dbInfo: Option<DbPluginInfo>, view: int): ViewInfo {
    ViewInfo(pluginPath, config.name, view, None, Some("搜索"), None, Some(false), config.logo,
             dbInfo.Some? && dbInfo.value.isDevelopment)
  }

  /** The messages `killAllPlugins` sends, view by view. */
  function KillAllEvents(views: seq<ViewInfo>, destroyed: set<int>): seq<Event>
    decreases |views|
  {
    if |views| == 0 then []
    else
      var last := views[|views| - 1];
      KillAllEvents(views[..|views| - 1], destroyed)
      + (if last.view in destroyed then [] else [PluginOut(last.view, true), CloseView(last.view)])
      + [CloseWindowsOf(last.path)]
  }

  /** The views of a sequence of cache entries. */
  function ViewsOf(views: seq<ViewInfo>): set<int> {
    set j | 0 <= j < |views| :: views[j].view
  }

  lemma ViewNotEarlier(views: seq<ViewInfo>, i: nat)
    requires DistinctViews(views) && i < |views|
    ensures views[i].view !in ViewsOf(views[..i])
  {
    var pre := views[..i];
    forall j | 0 <= j < |pre| ensures pre[j].view != views[i].view {
      assert pre[j] == views[j];
    }
  }

  /** One more entry of `killAllPlugins`: its view was not closed by the entries before it. */
  lemma CloseStep(views: seq<ViewInfo>, i: nat, destroyed: set<int>)
    requires DistinctViews(views) && i < |views|
    ensures views[i].view in destroyed + ViewsOf(views[..i]) <==> views[i].view in destroyed
    ensures destroyed + ViewsOf(views[..i]) + {views[i].view} == destroyed + ViewsOf(views[..i + 1])
    ensures KillAllEvents(views[..i + 1], destroyed)
            == KillAllEvents(views[..i], destroyed)
               + (if views[i].view in destroyed then [] else [PluginOut(views[i].view, true), CloseView(views[i].view)])
               + [CloseWindowsOf(views[i].path)]
  {
    assert views[..i + 1] == views[..i] + [views[i]];
    KillAllEventsAppend(views[..i], views[i], destroyed);
    ViewNotEarlier(views, i);
    assert views[..i + 1][..i] == views[..i];
  }

  lemma KillAllEventsAppend(views: seq<ViewInfo>, v: ViewInfo, destroyed: set<int>)
    ensures KillAllEvents(views + [v], destroyed) == KillAllEvents(views, destroyed)
            + (if v.view in destroyed then [] else [PluginOut(v.view, true), CloseView(v.view)]) + [CloseWindowsOf(v.path)]
  {
    assert (views + [v])[..|views|] == views;
  }

  /** Every cached plugin gets exactly one window-closing request from `killAllPlugins`. */
  lemma {:induction false} KillAllClosesEveryPlugin(views: seq<ViewInfo>, destroyed: set<int>, k: nat)
    requires k < |views|
    ensures CloseWindowsOf(views[k].path) in KillAllEvents(views, destroyed)
    decreases |views|
  {
    var init := views[..|views| - 1];
    if k < |views| - 1 {
      assert init[k] == views[k];
      KillAllClosesEveryPlugin(init, destroyed, k);
    }
  }
}
