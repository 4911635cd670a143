/**
 * `ztools.redirect` (src/main/api/plugin/redirect.ts): a plugin asks to jump
 * to another plugin's command, either naming both the plugin and the
 * command label or only the label. The outcome is a launch, a jump to the
 * search page listing the candidates, or a notification.
 */
module Redirect {
  import opened Wrappers
  import Text
  import Lists
  import opened Catalogue

  /** The `label` argument: `[pluginName, cmdName]` or a bare command label. */
  datatype Label = PluginAndCmd(pluginName: string, cmdName: string) | CmdOnly(cmdName: string)

  /**
   * The `payload` argument: a falsy value, a (non-empty) string, an object
   * or array with this many own keys, or another truthy value.
   */
  datatype Payload = Falsy | Str(text: string) | Obj(keyCount: nat) | OtherTruthy

  /** `ipc-launch` options. */
  datatype LaunchOptions = LaunchOptions(path: string, featureCode: string, name: string, param: Payload)

  /** What the asynchronous part ends in. */
  datatype Outcome = Notify(body: string) | Launch(options: LaunchOptions) | RedirectSearch(cmdName: string, payload: Payload)

  /** A candidate collected for a bare label. */
  datatype Match = Match(plugin: Plugin, feature: Feature, cmdName: string)

  /** `typeof cmd === 'string' ? cmd : cmd.label`; an object without a label has none. */
  function CmdLabel(cmd: Cmd): Option<string> {
    match cmd
    case TextCmd(text) => Some(text)
    case ObjectCmd(_, name, _, _, _, _, _, _, _) => if name == "" then None else Some(name)
  }

  /** The empty-payload test: falsy, a blank string, or an object without keys. */
  predicate IsPayloadEmpty(payload: Payload) {
    match payload
    case Falsy => true
    case Str(text) => Text.IsBlank(text)
    case Obj(n) => n == 0
    case OtherTruthy => false
  }

  /** `plugin.features = [...(plugin.features || []), ...dynamicFeatures]` */
  function Merged(p: Plugin, dynamicFeatures: string -> seq<Feature>): Plugin {
    p.(features := Some(p.features.UnwrapOr([]) + dynamicFeatures(p.name)))
  }

  function MergedAll(plugins: seq<Plugin>, dynamicFeatures: string -> seq<Feature>): (r: seq<Plugin>)
    ensures |r| == |plugins| && forall i :: 0 <= i < |r| ==> r[i] == Merged(plugins[i], dynamicFeatures)
  {
    seq(|plugins|, i requires 0 <= i < |plugins| => Merged(plugins[i], dynamicFeatures))
  }

  /** The options `launchPlugin` sends. */
  function LaunchOf(p: Plugin, f: Feature, cmdName: string, payload: Payload): (r: LaunchOptions)
    ensures r.path == p.path && r.featureCode == f.code && r.name == cmdName && r.param == payload
  {
    LaunchOptions(p.path, f.code, cmdName, payload)
  }

  // ---------------------------------------------------------------------
  // [plugin, cmd]: the first feature, in order, with a cmd of that label

  predicate HasLabel(f: Feature, cmdName: string) {
    f.cmds.Some? && exists c :: c in f.cmds.value && CmdLabel(c) == Some(cmdName)
  }

  /** The inner loop: whether some cmd carries the label. */
  method FindLabel(cmds: seq<Cmd>, cmdName: string) returns (found: bool)
    ensures found <==> exists c :: c in cmds && CmdLabel(c) == Some(cmdName)
  {
    found := false;
    var i := 0;
    while i < |cmds|
      invariant 0 <= i <= |cmds|
      invariant forall j :: 0 <= j < i ==> CmdLabel(cmds[j]) != Some(cmdName)
    {
      if CmdLabel(cmds[i]) == Some(cmdName) {
        return true;
      }
      i := i + 1;
    }
  }

  /** The outer loop over the plugin's features, stopping at the first hit. */
  method FindFeature(features: seq<Feature>, cmdName: string) returns (found: Option<nat>)
    ensures found.Some? ==> found.value < |features| && HasLabel(features[found.value], cmdName)
    ensures found.Some? ==> forall j :: 0 <= j < found.value ==> !HasLabel(features[j], cmdName)
    ensures found.None? ==> forall j :: 0 <= j < |features| ==> !HasLabel(features[j], cmdName)
  {
    var i := 0;
    while i < |features|
      invariant 0 <= i <= |features|
      invariant forall j :: 0 <= j < i ==> !HasLabel(features[j], cmdName)
    {
      var f := features[i];
      if f.cmds.Some? {
        var hit := FindLabel(f.cmds.value, cmdName);
        if hit {
          return Some(i);
        }
      }
      i := i + 1;
    }
    return None;
  }

  /** `plugins.find(p => p.name === name)` */
  function FindPlugin(plugins: seq<Plugin>, name: string): (r: Option<Plugin>)
    ensures r.Some? ==> r.value in plugins && r.value.name == name
    ensures r.None? ==> forall i :: 0 <= i < |plugins| ==> plugins[i].name != name
    ensures r.Some? ==> r.value == plugins[Lists.FirstIndex(plugins, (p: Plugin) => p.name == name).value]
  {
    match Lists.FirstIndex(plugins, (p: Plugin) => p.name == name)
    case None => None
    case Some(i) => Some(plugins[i])
  }

  /** `未找到插件或指令: <plugin> - <cmd>` */
  function NotFound(pluginName: string, cmdName: string): string {
    "未找到插件或指令: " + pluginName + " - " + cmdName
  }

  /** Where the first feature carrying the label sits, if any feature does. */
  function FirstLabelled(features: seq<Feature>, cmdName: string): (r: Option<nat>)
    ensures r.Some? ==> r.value < |features| && HasLabel(features[r.value], cmdName)
    ensures r.None? <==> forall f :: f in features ==> !HasLabel(f, cmdName)
  {
    Lists.FirstIndex(features, (f: Feature) => HasLabel(f, cmdName))
  }

  /** The loop's answer is the first labelled feature. */
  lemma FirstLabelledIs(features: seq<Feature>, cmdName: string, k: nat)
    requires k < |features| && HasLabel(features[k], cmdName)
    requires forall j :: 0 <= j < k ==> !HasLabel(features[j], cmdName)
    ensures FirstLabelled(features, cmdName) == Some(k)
  {
    assert features[k] in features;
  }

  /**
   * What the `[plugin, cmd]` branch ends in: the not-found notice when no
   * plugin has the name or none of its features carries the cmd, otherwise
   * a launch of the first such feature.
   */
  function PluginTarget(plugins: seq<Plugin>, pluginName: string, cmdName: string, payload: Payload): Outcome {
    match FindPlugin(plugins, pluginName)
    case None => Notify(NotFound(pluginName, cmdName))
    case Some(p) =>
      match FirstLabelled(p.features.UnwrapOr([]), cmdName)
      case None => Notify(NotFound(pluginName, cmdName))
      case Some(k) => Launch(LaunchOf(p, p.features.UnwrapOr([])[k], cmdName, payload))
  }

  /** A plugin of that name with a feature carrying the cmd is launched; nothing else is. */
  lemma PluginTargetLaunches(plugins: seq<Plugin>, pluginName: string, cmdName: string, payload: Payload)
    ensures PluginTarget(plugins, pluginName, cmdName, payload).Launch? <==>
              FindPlugin(plugins, pluginName).Some?
              && exists f :: f in FindPlugin(plugins, pluginName).value.features.UnwrapOr([]) && HasLabel(f, cmdName)
    ensures PluginTarget(plugins, pluginName, cmdName, payload).Launch? ==>
              PluginTarget(plugins, pluginName, cmdName, payload).options.param == payload
  {
  }

  /** The `[plugin, cmd]` branch over the merged list. */
  method RedirectToPlugin(plugins: seq<Plugin>, pluginName: string, cmdName: string, payload: Payload) returns (r: Outcome)
    ensures r.Launch? || r == Notify(NotFound(pluginName, cmdName))
    ensures r.Launch? ==>
              exists p, f :: p in plugins && p.name == pluginName && p.features.Some? && f in p.features.value
                             && HasLabel(f, cmdName) && r.options == LaunchOf(p, f, cmdName, payload)
    ensures r.Launch? ==> FindPlugin(plugins, pluginName).Some? && r.options.path == FindPlugin(plugins, pluginName).value.path
    ensures r.Launch? ==>
              var features := FindPlugin(plugins, pluginName).value.features.UnwrapOr([]);
              exists k :: 0 <= k < |features| && r.options.featureCode == features[k].code && HasLabel(features[k], cmdName)
                          && forall j :: 0 <= j < k ==> !HasLabel(features[j], cmdName)
    ensures FindPlugin(plugins, pluginName).None? ==> r == Notify(NotFound(pluginName, cmdName))
    ensures (FindPlugin(plugins, pluginName).Some?
             && forall f :: f in FindPlugin(plugins, pluginName).value.features.UnwrapOr([]) ==> !HasLabel(f, cmdName))
            ==> r == Notify(NotFound(pluginName, cmdName))
    ensures r == PluginTarget(plugins, pluginName, cmdName, payload)
  {
    var target := FindPlugin(plugins, pluginName);
    if target.None? {
      return Notify(NotFound(pluginName, cmdName));
    }
    var p := target.value;
    var features := if p.features.Some? then p.features.value else [];
    var k := FindFeature(features, cmdName);
    if k.None? {
      return Notify(NotFound(pluginName, cmdName));
    }
    FirstLabelledIs(features, cmdName, k.value);
    var f := features[k.value];
    assert p.features.Some? && f in p.features.value;
    assert features == p.features.UnwrapOr([]);
    assert features[k.value].code == f.code;
    r := Launch(LaunchOf(p, f, cmdName, payload));
  }

  // ---------------------------------------------------------------------
  // A bare label: every cmd with that label, of the kind the payload calls for

  /** A cmd is collected when it has the label, and is text exactly when the payload is empty. */
  predicate Selected(c: Cmd, cmdName: string, empty: bool) {
    CmdLabel(c) == Some(cmdName) && (c.TextCmd? <==> empty)
  }

  function CmdMatches(p: Plugin, f: Feature, cmds: seq<Cmd>, cmdName: string, empty: bool): seq<Match>
    decreases |cmds|
  {
    if |cmds| == 0 then []
    else CmdMatches(p, f, cmds[..|cmds| - 1], cmdName, empty)
         + (if Selected(cmds[|cmds| - 1], cmdName, empty) then [Match(p, f, cmdName)] else [])
  }

  function FeatureMatches(p: Plugin, features: seq<Feature>, cmdName: string, empty: bool): seq<Match>
    decreases |features|
  {
    if |features| == 0 then []
    else
      var f := features[|features| - 1];
      FeatureMatches(p, features[..|features| - 1], cmdName, empty)
      + (if f.cmds.Some? then CmdMatches(p, f, f.cmds.value, cmdName, empty) else [])
  }

  /** The candidates, in plugin, feature and cmd order. */
  function AllMatches(plugins: seq<Plugin>, cmdName: string, empty: bool): seq<Match>
    decreases |plugins|
  {
    if |plugins| == 0 then []
    else
      var p := plugins[|plugins| - 1];
      AllMatches(plugins[..|plugins| - 1], cmdName, empty) + FeatureMatches(p, p.features.UnwrapOr([]), cmdName, empty)
  }

  method CollectCmds(p: Plugin, f: Feature, cmds: seq<Cmd>, cmdName: string, empty: bool) returns (found: seq<Match>)
    ensures found == CmdMatches(p, f, cmds, cmdName, empty)
  {
    found := [];
    for i := 0 to |cmds|
      invariant found == CmdMatches(p, f, cmds[..i], cmdName, empty)
    {
      assert cmds[..i + 1][..i] == cmds[..i];
      if Selected(cmds[i], cmdName, empty) {
        found := found + [Match(p, f, cmdName)];
      }
    }
    assert cmds[..|cmds|] == cmds;
  }

  method CollectFeatures(p: Plugin, features: seq<Feature>, cmdName: string, empty: bool) returns (found: seq<Match>)
    ensures found == FeatureMatches(p, features, cmdName, empty)
  {
    found := [];
    for i := 0 to |features|
      invariant found == FeatureMatches(p, features[..i], cmdName, empty)
    {
      assert features[..i + 1][..i] == features[..i];
      var f := features[i];
      if f.cmds.Some? {
        var more := CollectCmds(p, f, f.cmds.value, cmdName, empty);
        found := found + more;
      }
    }
    assert features[..|features|] == features;
  }

  /** The nested loops of the bare-label branch. */
  method CollectMatches(plugins: seq<Plugin>, cmdName: string, empty: bool) returns (matches: seq<Match>)
    ensures matches == AllMatches(plugins, cmdName, empty)
  {
    matches := [];
    for i := 0 to |plugins|
      invariant matches == AllMatches(plugins[..i], cmdName, empty)
    {
      assert plugins[..i + 1][..i] == plugins[..i];
      var p := plugins[i];
      var more := CollectFeatures(p, if p.features.Some? then p.features.value else [], cmdName, empty);
      matches := matches + more;
    }
    assert plugins[..|plugins|] == plugins;
  }

  lemma {:induction false} CmdMatchesExact(p: Plugin, f: Feature, cmds: seq<Cmd>, cmdName: string, empty: bool, m: Match)
    ensures m in CmdMatches(p, f, cmds, cmdName, empty) <==>
              m == Match(p, f, cmdName) && exists c :: c in cmds && Selected(c, cmdName, empty)
    decreases |cmds|
  {
    if |cmds| > 0 {
      var init := cmds[..|cmds| - 1];
      CmdMatchesExact(p, f, init, cmdName, empty, m);
      assert cmds == init + [cmds[|cmds| - 1]];
      if exists c :: c in cmds && Selected(c, cmdName, empty) {
        var c :| c in cmds && Selected(c, cmdName, empty);
        if c != cmds[|cmds| - 1] {
          assert c in init;
        }
      }
    }
  }

  lemma {:induction false} FeatureMatchesExact(p: Plugin, features: seq<Feature>, cmdName: string, empty: bool, m: Match)
    ensures m in FeatureMatches(p, features, cmdName, empty) <==>
              m.plugin == p && m.cmdName == cmdName && m.feature in features && m.feature.cmds.Some?
              && exists c :: c in m.feature.cmds.value && Selected(c, cmdName, empty)
    decreases |features|
  {
    if |features| > 0 {
      var init := features[..|features| - 1];
      var f := features[|features| - 1];
      FeatureMatchesExact(p, init, cmdName, empty, m);
      assert features == init + [f];
      if f.cmds.Some? {
        CmdMatchesExact(p, f, f.cmds.value, cmdName, empty, m);
      }
    }
  }

  /**
   * A candidate is exactly a plugin of the list, one of its features, and a
   * cmd of that feature with the label and of the kind the payload calls for.
   */
  lemma {:induction false} AllMatchesExact(plugins: seq<Plugin>, cmdName: string, empty: bool, m: Match)
    ensures m in AllMatches(plugins, cmdName, empty) <==>
              m.plugin in plugins && m.cmdName == cmdName && m.feature in m.plugin.features.UnwrapOr([])
              && m.feature.cmds.Some? && exists c :: c in m.feature.cmds.value && Selected(c, cmdName, empty)
    decreases |plugins|
  {
    if |plugins| > 0 {
      var init := plugins[..|plugins| - 1];
      var p := plugins[|plugins| - 1];
      AllMatchesExact(init, cmdName, empty, m);
      assert plugins == init + [p];
      FeatureMatchesExact(p, p.features.UnwrapOr([]), cmdName, empty, m);
    }
  }

  /** `未找到指令: <cmd>` */
  function NoCmd(cmdName: string): string {
    "未找到指令: " + cmdName
  }

  /** No candidate notifies, one launches, several open the search page. */
  function Choose(matches: seq<Match>, cmdName: string, payload: Payload): (r: Outcome)
    ensures |matches| == 0 <==> r == Notify(NoCmd(cmdName))
    ensures |matches| == 1 <==> r.Launch?
    ensures |matches| == 1 ==> r.options == LaunchOf(matches[0].plugin, matches[0].feature, matches[0].cmdName, payload)
    ensures |matches| >= 2 <==> r == RedirectSearch(cmdName, payload)
  {
    if |matches| == 0 then Notify(NoCmd(cmdName))
    else if |matches| == 1 then Launch(LaunchOf(matches[0].plugin, matches[0].feature, matches[0].cmdName, payload))
    else RedirectSearch(cmdName, payload)
  }

  const NoPluginList: string := "未找到插件列表"

  /**
   * `processRedirect`. `stored` is the `plugins` setting (None when absent
   * or not an array); `dynamicFeatures` gives each plugin's dynamic features.
   */
  method ProcessRedirect(stored: Option<seq<Plugin>>, dynamicFeatures: string -> seq<Feature>,
                         target: Label, payload: Payload) returns (r: Outcome)
    ensures stored.None? ==> r == Notify(NoPluginList)
    ensures stored.Some? && target.CmdOnly? ==>
              r == Choose(AllMatches(MergedAll(stored.value, dynamicFeatures), target.cmdName, IsPayloadEmpty(payload)),
                          target.cmdName, payload)
    ensures stored.Some? && target.PluginAndCmd? ==>
              (r.Launch? || r == Notify(NotFound(target.pluginName, target.cmdName)))
    ensures stored.Some? && target.PluginAndCmd? && r.Launch? ==>
              exists p, f :: p in MergedAll(stored.value, dynamicFeatures) && p.name == target.pluginName
                             && p.features.Some? && f in p.features.value && HasLabel(f, target.cmdName)
                             && r.options == LaunchOf(p, f, target.cmdName, payload)
    ensures stored.Some? && target.PluginAndCmd? ==>
              r == PluginTarget(MergedAll(stored.value, dynamicFeatures), target.pluginName, target.cmdName, payload)
    ensures r.Launch? ==> r.options.param == payload
  {
    if stored.None? {
      return Notify(NoPluginList);
    }
    var plugins := MergedAll(stored.value, dynamicFeatures);
    match target
    case PluginAndCmd(pluginName, cmdName) =>
      r := RedirectToPlugin(plugins, pluginName, cmdName, payload);
    case CmdOnly(cmdName) =>
      var matches := CollectMatches(plugins, cmdName, IsPayloadEmpty(payload));
      r := Choose(matches, cmdName, payload);
  }

  /**
   * `handleRedirect`: the asynchronous part is started and not awaited, so
   * the synchronous reply is true whatever it ends in.
   */
  method HandleRedirect(stored: Option<seq<Plugin>>, dynamicFeatures: string -> seq<Feature>,
                        target: Label, payload: Payload) returns (accepted: bool, outcome: Outcome)
    ensures accepted
    ensures stored.None? ==> outcome == Notify(NoPluginList)
    ensures stored.Some? && target.CmdOnly? ==>
              outcome == Choose(AllMatches(MergedAll(stored.value, dynamicFeatures), target.cmdName, IsPayloadEmpty(payload)),
                                target.cmdName, payload)
    ensures stored.Some? && target.PluginAndCmd? ==>
              outcome == PluginTarget(MergedAll(stored.value, dynamicFeatures), target.pluginName, target.cmdName, payload)
  {
    outcome := ProcessRedirect(stored, dynamicFeatures, target, payload);
    accepted := true;
  }
}
