/**
 * The handlers the API manager keeps for itself (src/main/api/index.ts):
 * resolving a global shortcut's `<plugin>/<command>` target to a launch,
 * and the replies of `open-plugin-devtools` and `detach-plugin`.
 */
module ApiIndex {
  import opened Wrappers
  import Text
  import opened Catalogue
  import Redirect

  /** The `ipc-launch` options of a shortcut launch (`param` is `{ code }`). */
  datatype ShortcutLaunch = ShortcutLaunch(path: string, featureCode: string, name: string, paramCode: string)

  /**
   * The launch a shortcut target resolves to: the named plugin's first
   * feature, static then dynamic, that carries the cmd.
   */
  function ShortcutTarget(target: string, stored: Option<seq<Plugin>>, dynamicFeatures: string -> seq<Feature>): Option<ShortcutLaunch> {
    var parts := Text.Split(target, '/');
    if |parts| != 2 || stored.None? then None
    else
      match Redirect.FindPlugin(stored.value, parts[0])
      case None => None
      case Some(p) =>
        var all := p.features.UnwrapOr([]) + dynamicFeatures(p.name);
        match Redirect.FirstLabelled(all, parts[1])
        case None => None
        case Some(k) => Some(ShortcutLaunch(p.path, all[k].code, parts[1], all[k].code))
  }

  /** A registered `<plugin>/<cmd>` shortcut launches exactly when the plugin is listed and one of its features carries the cmd. */
  lemma ShortcutLaunchesIff(pluginName: string, cmdName: string, stored: seq<Plugin>, dynamicFeatures: string -> seq<Feature>)
    requires '/' !in pluginName && '/' !in cmdName
    ensures var r := ShortcutTarget(pluginName + "/" + cmdName, Some(stored), dynamicFeatures);
            var plugin := Redirect.FindPlugin(stored, pluginName);
            r.Some? <==> plugin.Some?
                         && exists f :: f in plugin.value.features.UnwrapOr([]) + dynamicFeatures(plugin.value.name)
                                        && Redirect.HasLabel(f, cmdName)
    ensures var r := ShortcutTarget(pluginName + "/" + cmdName, Some(stored), dynamicFeatures);
            r.Some? ==> r.value.path == Redirect.FindPlugin(stored, pluginName).value.path && r.value.name == cmdName
  {
    ShortcutTargetParts(pluginName, cmdName);
  }

  /**
   * `handleGlobalShortcut`: None when the target is not exactly two
   * '/'-separated parts, the plugin list is missing, no plugin has that
   * name, or none of its features (static then dynamic) has a cmd with that
   * label.
   */
  method HandleGlobalShortcut(target: string, stored: Option<seq<Plugin>>, dynamicFeatures: string -> seq<Feature>)
    returns (r: Option<ShortcutLaunch>)
    ensures |Text.Split(target, '/')| != 2 ==> r.None?
    ensures stored.None? ==> r.None?
    ensures r.Some? ==>
              var parts := Text.Split(target, '/');
              var plugin := Redirect.FindPlugin(stored.value, parts[0]);
              |parts| == 2 && plugin.Some?
              && r.value.path == plugin.value.path && r.value.name == parts[1]
              && r.value.paramCode == r.value.featureCode
              && var all := plugin.value.features.UnwrapOr([]) + dynamicFeatures(plugin.value.name);
                 exists k :: 0 <= k < |all| && Redirect.HasLabel(all[k], parts[1]) && r.value.featureCode == all[k].code
                             && forall j :: 0 <= j < k ==> !Redirect.HasLabel(all[j], parts[1])
    ensures (|Text.Split(target, '/')| == 2 && stored.Some?
             && Redirect.FindPlugin(stored.value, Text.Split(target, '/')[0]).None?) ==> r.None?
    ensures r == ShortcutTarget(target, stored, dynamicFeatures)
  {
    var parts := Text.Split(target, '/');
    if |parts| != 2 || stored.None? {
      return None;
    }
    var pluginName, cmdName := parts[0], parts[1];
    var plugin := Redirect.FindPlugin(stored.value, pluginName);
    if plugin.None? {
      return None;
    }
    var p := plugin.value;
    var all := (if p.features.Some? then p.features.value else []) + dynamicFeatures(p.name);
    var k := Redirect.FindFeature(all, cmdName);
    if k.None? {
      return None;
    }
    Redirect.FirstLabelledIs(all, cmdName, k.value);
    var code := all[k.value].code;
    assert all == p.features.UnwrapOr([]) + dynamicFeatures(p.name);
    assert Redirect.HasLabel(all[k.value], cmdName) && code == all[k.value].code;
    r := Some(ShortcutLaunch(p.path, code, cmdName, code));
  }

  /** A shortcut registered for `<plugin>/<cmd>` splits back into that plugin and that command. */
  lemma ShortcutTargetParts(pluginName: string, cmdName: string)
    requires '/' !in pluginName && '/' !in cmdName
    ensures Text.Split(pluginName + "/" + cmdName, '/') == [pluginName, cmdName]
  {
    Text.SplitPair(pluginName, '/', cmdName);
  }

  const NoActivePlugin: string := "没有活动的插件"
  const Unavailable: string := "功能不可用"

  /** `open-plugin-devtools`: None is `{success: true}`. */
  function OpenPluginDevTools(hasManager: bool, devToolsOpened: bool): (error: Option<string>)
    ensures error.None? <==> hasManager && devToolsOpened
    ensures hasManager && !devToolsOpened ==> error == Some(NoActivePlugin)
    ensures !hasManager ==> error == Some(Unavailable)
  {
    if !hasManager then Some(Unavailable) else if devToolsOpened then None else Some(NoActivePlugin)
  }

  /** `detach-plugin`: the manager's own reply, or '功能不可用' without a manager. */
  function DetachPlugin<R>(hasManager: bool, managerReply: Result<R, string>): (r: Result<R, string>)
    ensures hasManager ==> r == managerReply
    ensures !hasManager ==> r == Failure(Unavailable)
  {
    if hasManager then managerReply else Failure(Unavailable)
  }
}
