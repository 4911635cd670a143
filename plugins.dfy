/**
 * The plugin list behind the settings pages (src/main/api/renderer/plugins.ts):
 * manifest checks on install, the stored `plugins` list that install pushes
 * onto, delete splices and reload rewrites, the dynamic-feature merge of
 * `getPlugins`, the kill replies, the plugin data view and the market list
 * download. File system, dialogs, archives and the network are inputs.
 */
module Plugins {
  import opened Wrappers
  import Text
  import Lists
  import InternalPlugins
  import Database
  import Versions
  import opened Catalogue

  // ---------------------------------------------------------------------
  // Manifests

  /** The `features` field of a parsed plugin.json: falsy, truthy but not an array, or an array. */
  datatype FeaturesField = Missing | NotArray | Listed(list: seq<Feature>)

  /** A parsed plugin.json; a string field is "" when absent or falsy. */
  datatype Manifest = Manifest(name: string, version: string, description: string, logo: string,
                               main: string, developmentMain: string, features: FeaturesField)

  /** Reading plugin.json: no file, text that does not parse (with the parser's message), or a manifest. */
  datatype ManifestFile = NoFile | Unparsable(message: string) | Parsed(manifest: Manifest)

  const NoManifestFile: string := "plugin.json 文件不存在"
  const MalformedManifest: string := "plugin.json 格式错误"
  const NoName: string := "plugin.json 缺少 name 字段"
  const DirectoryExists: string := "插件目录已存在"
  const AlreadyInstalled: string := "插件已存在"
  const NoFeatures: string := "features 必须是非空数组"
  const IncompleteFeature: string := "feature 缺少必填字段 (code, cmds)"
  const NotManifestFile: string := "请选择 plugin.json 文件"

  /** `缺少必填字段: <field>` */
  function MissingField(field: string): string {
    "缺少必填字段: " + field
  }

  /** `existingPlugins.some(p => p.name === name)` */
  predicate NameTaken(installed: seq<Plugin>, name: string) {
    exists p :: p in installed && p.name == name
  }

  /** Every feature has a truthy code and an array of cmds. */
  predicate FeaturesComplete(features: seq<Feature>) {
    forall f :: f in features ==> f.code != "" && f.cmds.Some?
  }

  /**
   * The manifest checks shared by the ZIP install and the development
   * import, in their order; `dirExists` is whether the target directory is
   * already there (the development import has no such check and passes
   * false). Answers the manifest's features when every check passes.
   */
  function ValidateManifest(m: Manifest, dirExists: bool, installed: seq<Plugin>): (r: Result<seq<Feature>, string>)
    ensures r.Success? <==> m.name != "" && !dirExists && !NameTaken(installed, m.name) && m.version != ""
                            && m.features.Listed? && |m.features.list| > 0 && FeaturesComplete(m.features.list)
    ensures r.Success? ==> r.value == m.features.list
    ensures m.name == "" ==> r == Failure(NoName)
    ensures m.name != "" && dirExists ==> r == Failure(DirectoryExists)
    ensures m.name != "" && !dirExists && NameTaken(installed, m.name) ==> r == Failure(AlreadyInstalled)
    ensures r.Failure? ==> r.error in {NoName, DirectoryExists, AlreadyInstalled, MissingField("version"),
                                       MissingField("features"), NoFeatures, IncompleteFeature}
  {
    if m.name == "" then Failure(NoName)
    else if dirExists then Failure(DirectoryExists)
    else if NameTaken(installed, m.name) then Failure(AlreadyInstalled)
    else if m.version == "" then Failure(MissingField("version"))
    else if m.features.Missing? then Failure(MissingField("features"))
    else if m.features.NotArray? || |m.features.list| == 0 then Failure(NoFeatures)
    else if !FeaturesComplete(m.features.list) then Failure(IncompleteFeature)
    else Success(m.features.list)
  }

  /** `'file:///' + path.join(pluginPath, logo)` for a truthy logo, "" otherwise. */
  function LogoUrl(pluginPath: string, logo: string): (r: string)
    ensures r == "" <==> logo == ""
    ensures logo != "" ==> Text.StartsWith(r, "file:///") && Text.EndsWith(r, logo)
  {
    if logo == "" then ""
    else
      assert "file:///" + InternalPlugins.PathJoin(pluginPath, logo) == ("file:///" + pluginPath + "/") + logo;
      "file:///" + InternalPlugins.PathJoin(pluginPath, logo)
  }

  /** The record a successful install stores. */
  function Installed(m: Manifest, features: seq<Feature>, pluginPath: string, main: string, isDevelopment: bool): Plugin {
    Plugin(m.name, pluginPath, LogoUrl(pluginPath, m.logo), m.version, m.description, main, Some(features), isDevelopment)
  }

  /**
   * `_installPluginFromZip` after extraction: the manifest file is read,
   * checked, and the plugin is filed under `<pluginDir>/<name>`.
   */
  function ZipInstall(file: ManifestFile, pluginDir: string, dirExists: bool, installed: seq<Plugin>): (r: Result<Plugin, string>)
    ensures file.NoFile? ==> r == Failure(NoManifestFile)
    ensures file.Unparsable? ==> r == Failure(MalformedManifest)
    ensures file.Parsed? ==> (r.Success? <==> ValidateManifest(file.manifest, dirExists, installed).Success?)
    ensures r.Success? ==> file.Parsed? && r.value.name == file.manifest.name && !NameTaken(installed, r.value.name)
    ensures r.Success? ==> r.value.path == InternalPlugins.PathJoin(pluginDir, file.manifest.name) && !r.value.isDevelopment
    ensures r.Success? ==> r.value.features.Some? && |r.value.features.value| > 0 && FeaturesComplete(r.value.features.value)
  {
    match file
    case NoFile => Failure(NoManifestFile)
    case Unparsable(_) => Failure(MalformedManifest)
    case Parsed(m) =>
      match ValidateManifest(m, dirExists, installed)
      case Failure(e) => Failure(e)
      case Success(features) =>
        var pluginPath := InternalPlugins.PathJoin(pluginDir, m.name);
        Success(Installed(m, features, pluginPath, m.main, false))
  }

  /**
   * `importDevPlugin` after the file dialog: the chosen file must be named
   * plugin.json; the plugin lives in its directory and runs
   * `development.main`.
   */
  function DevImport(baseName: string, dir: string, file: ManifestFile, installed: seq<Plugin>): (r: Result<Plugin, string>)
    ensures baseName != "plugin.json" ==> r == Failure(NotManifestFile)
    ensures baseName == "plugin.json" && file.Parsed? ==> (r.Success? <==> ValidateManifest(file.manifest, false, installed).Success?)
    ensures r.Success? ==> file.Parsed? && r.value.name == file.manifest.name && !NameTaken(installed, r.value.name)
    ensures r.Success? ==> r.value.path == dir && r.value.isDevelopment && r.value.main == file.manifest.developmentMain
  {
    if baseName != "plugin.json" then Failure(NotManifestFile)
    else
      match file
      case NoFile => Failure(NoManifestFile)
      case Unparsable(_) => Failure(MalformedManifest)
      case Parsed(m) =>
        match ValidateManifest(m, false, installed)
        case Failure(e) => Failure(e)
        case Success(features) => Success(Installed(m, features, dir, m.developmentMain, true))
  }

  /** Plugin names in the stored list are pairwise distinct. */
  predicate UniqueNames(plugins: seq<Plugin>) {
    forall i, j :: 0 <= i < j < |plugins| ==> plugins[i].name != plugins[j].name
  }

  /**
   * An install keeps the stored names distinct, and the same manifest is
   * refused the second time: as an existing directory for a ZIP, as an
   * installed name otherwise.
   */
  lemma InstallKeepsNamesUnique(m: Manifest, dirExists: bool, installed: seq<Plugin>, p: Plugin)
    requires UniqueNames(installed)
    requires ValidateManifest(m, dirExists, installed).Success? && p.name == m.name
    ensures UniqueNames(installed + [p])
    ensures ValidateManifest(m, false, installed + [p]) == Failure(AlreadyInstalled)
    ensures ValidateManifest(m, true, installed + [p]) == Failure(DirectoryExists)
  {
    var s := installed + [p];
    forall i, j | 0 <= i < j < |s| ensures s[i].name != s[j].name {
      if j == |installed| {
        assert s[i] in installed;
      }
    }
    assert p in s;
  }

  // ---------------------------------------------------------------------
  // The stored list: delete and reload

  const NoList: string := "插件列表不存在"
  const NoSuchPlugin: string := "插件不存在"
  const InternalNotRemovable: string := "内置插件不能卸载"

  function HasPath(path: string): Plugin -> bool {
    (p: Plugin) => p.path == path
  }

  function OtherPath(path: string): Plugin -> bool {
    (p: Plugin) => p.path != path
  }

  /**
   * `deletePlugin`: the list without the entry at `path`, and whether its
   * directory goes too (kept for development plugins).
   */
  function Delete(plugins: Option<seq<Plugin>>, path: string): (r: Result<(seq<Plugin>, bool), string>)
    ensures plugins.None? ==> r == Failure(NoList)
    ensures plugins.Some? && Lists.FirstIndex(plugins.value, HasPath(path)).None? ==> r == Failure(NoSuchPlugin)
    ensures r.Success? ==> plugins.Some? && |r.value.0| == |plugins.value| - 1
    ensures r.Success? ==> exists i :: 0 <= i < |plugins.value| && plugins.value[i].path == path
                                       && !InternalPlugins.IsInternalPlugin(plugins.value[i].name)
                                       && r.value.0 == Lists.RemoveAt(plugins.value, i)
                                       && r.value.1 == !plugins.value[i].isDevelopment
    ensures r == Failure(InternalNotRemovable) ==> exists p :: p in plugins.value && p.path == path && p.name == "setting"
  {
    match plugins
    case None => Failure(NoList)
    case Some(list) =>
      match Lists.FirstIndex(list, HasPath(path))
      case None => Failure(NoSuchPlugin)
      case Some(i) =>
        if InternalPlugins.IsInternalPlugin(list[i].name) then Failure(InternalNotRemovable)
        else Success((Lists.RemoveAt(list, i), !list[i].isDevelopment))
  }

  /** Paths in the stored list are pairwise distinct. */
  predicate UniquePaths(plugins: seq<Plugin>) {
    forall i, j :: 0 <= i < j < |plugins| ==> plugins[i].path != plugins[j].path
  }

  /**
   * With distinct paths, a delete removes exactly the plugin at that path:
   * the result is the list filtered by path, so nothing else moves or goes.
   */
  lemma DeleteRemovesExactly(plugins: seq<Plugin>, path: string)
    requires UniquePaths(plugins)
    requires Delete(Some(plugins), path).Success?
    ensures Delete(Some(plugins), path).value.0 == Lists.Filter(plugins, OtherPath(path))
    ensures forall p :: p in Delete(Some(plugins), path).value.0 <==> p in plugins && p.path != path
  {
    var k := Lists.FirstIndex(plugins, HasPath(path)).value;
    forall j | 0 <= j < |plugins| && HasPath(path)(plugins[j]) ensures j == k {
      assert plugins[k].path == path;
    }
    Lists.RemoveOnlyMatch(plugins, HasPath(path), OtherPath(path));
  }

  /** A built-in plugin is never removed. */
  lemma InternalNeverDeleted(plugins: seq<Plugin>, path: string)
    requires exists p :: p in plugins && p.path == path
    requires UniquePaths(plugins)
    requires forall p :: p in plugins && p.path == path ==> p.name == "setting"
    ensures Delete(Some(plugins), path) == Failure(InternalNotRemovable)
  {
    var k := Lists.FirstIndex(plugins, HasPath(path)).value;
    assert plugins[k] in plugins;
  }

  /** The features a reload stores: the manifest's when truthy (even a non-array), else the old ones. */
  function ReloadedFeatures(old_: Option<seq<Feature>>, f: FeaturesField): Option<seq<Feature>> {
    match f
    case Missing => old_
    case NotArray => None
    case Listed(list) => Some(list)
  }

  /** `'new' || 'old'` for a string field. */
  function Or(new_: string, old_: string): (r: string)
    ensures r == (if new_ != "" then new_ else old_)
  {
    if new_ != "" then new_ else old_
  }

  /** The `reloadPlugin` merge: truthy manifest fields replace the stored ones, the rest stay. */
  function Reloaded(p: Plugin, m: Manifest): (r: Plugin) {
    p.(name := Or(m.name, p.name),
       version := Or(m.version, p.version),
       description := Or(m.description, p.description),
       logo := if m.logo != "" then LogoUrl(p.path, m.logo) else p.logo,
       features := ReloadedFeatures(p.features, m.features),
       main := Or(m.main, p.main))
  }

  /** Field by field: a truthy manifest value wins, a falsy one keeps the stored value; path and mode never change. */
  lemma ReloadFieldwise(p: Plugin, m: Manifest)
    ensures Reloaded(p, m).path == p.path && Reloaded(p, m).isDevelopment == p.isDevelopment
    ensures Reloaded(p, m).name == (if m.name != "" then m.name else p.name)
    ensures Reloaded(p, m).version == (if m.version != "" then m.version else p.version)
    ensures Reloaded(p, m).description == (if m.description != "" then m.description else p.description)
    ensures Reloaded(p, m).main == (if m.main != "" then m.main else p.main)
    ensures m.logo == "" ==> Reloaded(p, m).logo == p.logo
    ensures m.logo != "" ==> Text.StartsWith(Reloaded(p, m).logo, "file:///") && Text.EndsWith(Reloaded(p, m).logo, m.logo)
    ensures m.features.Missing? ==> Reloaded(p, m).features == p.features
    ensures m.features.Listed? ==> Reloaded(p, m).features == Some(m.features.list)
  {
  }

  /** Reloading twice from the same manifest is reloading once; an empty manifest changes nothing. */
  lemma ReloadIdempotent(p: Plugin, m: Manifest)
    ensures Reloaded(Reloaded(p, m), m) == Reloaded(p, m)
    ensures Reloaded(p, Manifest("", "", "", "", "", "", Missing)) == p
  {
  }

  /**
   * `reloadPlugin` after reading the list: the entry at `path` is replaced
   * by the merge; a manifest that does not parse fails with the parser's
   * message.
   */
  function Reload(plugins: Option<seq<Plugin>>, path: string, file: ManifestFile): (r: Result<seq<Plugin>, string>)
    ensures plugins.None? ==> r == Failure(NoList)
    ensures plugins.Some? && Lists.FirstIndex(plugins.value, HasPath(path)).None? ==> r == Failure(NoSuchPlugin)
    ensures r.Success? ==> plugins.Some? && file.Parsed? && |r.value| == |plugins.value|
    ensures r.Success? ==> exists i :: 0 <= i < |plugins.value| && plugins.value[i].path == path
                                       && r.value == plugins.value[i := Reloaded(plugins.value[i], file.manifest)]
  {
    match plugins
    case None => Failure(NoList)
    case Some(list) =>
      match Lists.FirstIndex(list, HasPath(path))
      case None => Failure(NoSuchPlugin)
      case Some(i) =>
        match file
        case NoFile => Failure(NoManifestFile)
        case Unparsable(message) => Failure(message)
        case Parsed(m) => Success(list[i := Reloaded(list[i], m)])
  }

  /**
   * The handlers that edit the stored `plugins` list. `plugins` is the
   * stored value, None when it is absent or not an array.
   */
  class PluginList {
    var plugins: Option<seq<Plugin>>

    constructor(stored: Option<seq<Plugin>>)
      ensures plugins == stored
    {
      plugins := stored;
    }

    /** `_installPluginFromZip`: a successful install is pushed at the end of the list. */
    method InstallFromZip(file: ManifestFile, pluginDir: string, dirExists: bool) returns (r: Result<Plugin, string>)
      modifies this
      ensures r == ZipInstall(file, pluginDir, dirExists, old(plugins).UnwrapOr([]))
      ensures r.Success? ==> plugins == Some(old(plugins).UnwrapOr([]) + [r.value])
      ensures r.Failure? ==> plugins == old(plugins)
    {
      var list := if plugins.Some? then plugins.value else [];
      r := ZipInstall(file, pluginDir, dirExists, list);
      if r.Success? {
        plugins := Some(list + [r.value]);
      }
    }

    /** `importDevPlugin`: the same, for a plugin left in place. */
    method ImportDevPlugin(baseName: string, dir: string, file: ManifestFile) returns (r: Result<Plugin, string>)
      modifies this
      ensures r == DevImport(baseName, dir, file, old(plugins).UnwrapOr([]))
      ensures r.Success? ==> plugins == Some(old(plugins).UnwrapOr([]) + [r.value])
      ensures r.Failure? ==> plugins == old(plugins)
    {
      var list := if plugins.Some? then plugins.value else [];
      r := DevImport(baseName, dir, file, list);
      if r.Success? {
        plugins := Some(list + [r.value]);
      }
    }

    /** `deletePlugin`: splices the entry out; answers the error, and whether the directory is removed. */
    method DeletePlugin(path: string) returns (error: Option<string>, removeDirectory: bool)
      modifies this
      ensures Delete(old(plugins), path).Failure? ==>
                plugins == old(plugins) && error == Some(Delete(old(plugins), path).error) && !removeDirectory
      ensures Delete(old(plugins), path).Success? ==>
                plugins == Some(Delete(old(plugins), path).value.0) && error.None?
                && removeDirectory == Delete(old(plugins), path).value.1
    {
      if plugins.None? {
        return Some(NoList), false;
      }
      var list := plugins.value;
      var i := 0;
      while i < |list| && list[i].path != path
        invariant 0 <= i <= |list|
        invariant forall j :: 0 <= j < i ==> list[j].path != path
      {
        i := i + 1;
      }
      if i == |list| {
        assert Lists.FirstIndex(list, HasPath(path)).None?;
        return Some(NoSuchPlugin), false;
      }
      assert Lists.FirstIndex(list, HasPath(path)) == Some(i) by {
        var k := Lists.FirstIndex(list, HasPath(path));
        assert k.Some? && k.value <= i;
      }
      if InternalPlugins.IsInternalPlugin(list[i].name) {
        return Some(InternalNotRemovable), false;
      }
      removeDirectory := !list[i].isDevelopment;
      plugins := Some(list[..i] + list[i + 1..]);
      error := None;
    }

    /** `reloadPlugin`: rewrites the entry in place. */
    method ReloadPlugin(path: string, file: ManifestFile) returns (error: Option<string>)
      modifies this
      ensures Reload(old(plugins), path, file).Failure? ==>
                plugins == old(plugins) && error == Some(Reload(old(plugins), path, file).error)
      ensures Reload(old(plugins), path, file).Success? ==>
                plugins == Some(Reload(old(plugins), path, file).value) && error.None?
    {
      var r := Reload(plugins, path, file);
      if r.Failure? {
        return Some(r.error);
      }
      plugins := Some(r.value);
      error := None;
    }
  }

  // ---------------------------------------------------------------------
  // getPlugins: dynamic features and icon paths

  /** Icons of features: a truthy icon is resolved against the plugin path. */
  function NormalizedIcons(features: seq<Feature>, pluginPath: string, normalize: (string, string) -> string): (r: seq<Feature>)
    ensures |r| == |features|
    ensures forall i :: 0 <= i < |r| ==> r[i] == (if features[i].icon != "" then features[i].(icon := normalize(features[i].icon, pluginPath)) else features[i])
  {
    seq(|features|, i requires 0 <= i < |features| =>
      if features[i].icon != "" then features[i].(icon := normalize(features[i].icon, pluginPath)) else features[i])
  }

  /** One plugin as `getPlugins` hands it out: static features, then dynamic ones, icons resolved. */
  function WithDynamic(p: Plugin, dynamic: seq<Feature>, normalize: (string, string) -> string): Plugin {
    p.(features := Some(NormalizedIcons(p.features.UnwrapOr([]) + dynamic, p.path, normalize)))
  }

  /** The static features stay first and in order; the dynamic ones follow; nothing but `features` changes. */
  lemma StaticFeaturesFirst(p: Plugin, dynamic: seq<Feature>, normalize: (string, string) -> string)
    ensures WithDynamic(p, dynamic, normalize).(features := p.features) == p
    ensures WithDynamic(p, dynamic, normalize).features.value
            == NormalizedIcons(p.features.UnwrapOr([]), p.path, normalize) + NormalizedIcons(dynamic, p.path, normalize)
  {
    var s := p.features.UnwrapOr([]);
    assert NormalizedIcons(s + dynamic, p.path, normalize)
           == NormalizedIcons(s, p.path, normalize) + NormalizedIcons(dynamic, p.path, normalize);
  }

  /**
   * `getPlugins`: every stored plugin gets its dynamic features (looked up by
   * name) appended in place.
   */
  method GetPlugins(stored: Option<seq<Plugin>>, dynamicFeatures: string -> seq<Feature>,
                    normalize: (string, string) -> string) returns (r: seq<Plugin>)
    ensures |r| == |stored.UnwrapOr([])|
    ensures forall i :: 0 <= i < |r| ==>
              r[i] == WithDynamic(stored.value[i], dynamicFeatures(stored.value[i].name), normalize)
  {
    r := if stored.Some? then stored.value else [];
    for i := 0 to |r|
      invariant |r| == |stored.UnwrapOr([])|
      invariant forall j :: 0 <= j < i ==> r[j] == WithDynamic(stored.value[j], dynamicFeatures(stored.value[j].name), normalize)
      invariant forall j :: i <= j < |r| ==> r[j] == stored.value[j]
    {
      r := r[i := WithDynamic(r[i], dynamicFeatures(r[i].name), normalize)];
    }
  }

  // ---------------------------------------------------------------------
  // Kill replies

  const NotRunning: string := "插件未运行"
  const Unavailable: string := "功能不可用"

  /** `killPlugin`: None is `{success: true}`, Some(e) is `{success: false, error: e}`. */
  function KillPlugin(hasManager: bool, killed: bool): (error: Option<string>)
    ensures error.None? <==> hasManager && killed
    ensures hasManager && !killed ==> error == Some(NotRunning)
    ensures !hasManager ==> error == Some(Unavailable)
  {
    if hasManager then (if killed then None else Some(NotRunning)) else Some(Unavailable)
  }

  /** `killPluginAndReturn`: the same reply, and the search page comes back exactly when the kill worked. */
  function KillPluginAndReturn(hasManager: bool, killed: bool): (r: (Option<string>, bool))
    ensures r.0 == KillPlugin(hasManager, killed)
    ensures r.1 <==> r.0.None?
  {
    if hasManager then (if killed then (None, true) else (Some(NotRunning), false)) else (Some(Unavailable), false)
  }

  // ---------------------------------------------------------------------
  // getPluginDbData

  /** A document as the engine's `allDocs(prefix)` returns it; "" for a missing field. */
  datatype StoredDoc = StoredDoc(id: string, data: Database.Value, rev: string, updatedAt: string, legacyUpdatedAt: string)

  /** One entry of the data view. */
  datatype DataEntry = DataEntry(id: string, data: Database.Value, rev: string, updatedAt: string)

  /** `substring(n)`: empty when `n` is past the end. */
  function DropChars(s: string, n: nat): (r: string)
    ensures n <= |s| ==> s == s[..n] + r
  {
    if n <= |s| then s[n..] else ""
  }

  /** `getPluginDbData`: the documents with their `PLUGIN/<name>/` prefix removed. */
  function PluginDbData(name: string, docs: seq<StoredDoc>): (r: seq<DataEntry>)
    ensures |r| == |docs|
    ensures forall i :: 0 <= i < |r| && Text.StartsWith(docs[i].id, Database.PluginPrefix(name)) ==>
              Database.PluginPrefix(name) + r[i].id == docs[i].id
    ensures forall i :: 0 <= i < |r| ==> r[i].data == docs[i].data && r[i].rev == docs[i].rev
  {
    var prefix := Database.PluginPrefix(name);
    seq(|docs|, i requires 0 <= i < |docs| =>
      DataEntry(DropChars(docs[i].id, |prefix|), docs[i].data, docs[i].rev, Or(docs[i].updatedAt, docs[i].legacyUpdatedAt)))
  }

  /** A key the plugin stored under its prefix comes back as the key it used. */
  lemma DbDataRecoversKeys(name: string, key: string, d: StoredDoc)
    requires d.id == Database.PluginPrefix(name) + key
    ensures PluginDbData(name, [d])[0].id == key
  {
    assert d.id[|Database.PluginPrefix(name)|..] == key;
  }

  // ---------------------------------------------------------------------
  // The market list

  const MarketPrefix: string := "plugins_"
  const EmptyListing: string := "插件市场文件列表为空"
  const NoListFile: string := "未找到有效的插件列表文件"
  const MarketHost: string := "https://ilt.lanzouu.com/"

  /** The catch block: any failure falls back to the cached list when there is one. */
  function Fallback(cachedData: string, error: string): (r: Result<string, string>)
    ensures r.Success? <==> cachedData != ""
  {
    if cachedData != "" then Success(cachedData) else Failure(error)
  }

  /**
   * `fetchPluginMarket`: picks the newest `plugins_<version>.txt`, serves the
   * cache when it holds that version, else downloads it and caches it.
   * `download(url)` is the fetched and parsed list or the error it threw;
   * `saved` is the (version, list) pair written back to the cache.
   */
  method FetchPluginMarket(files: Option<seq<Versions.ListedFile>>, cachedVersion: string, cachedData: string,
                           download: string -> Result<string, string>)
    returns (r: Result<string, string>, saved: Option<(string, string)>)
    ensures cachedData != "" ==> r.Success?
    ensures files.None? || files.value == [] ==> r == Fallback(cachedData, EmptyListing) && saved.None?
    ensures files.Some? && files.value != [] && Versions.AllAtMost(Versions.FileNames(files.value), MarketPrefix, |files.value|, "0.0.0") ==>
              r == Fallback(cachedData, NoListFile) && saved.None?
    ensures saved.Some? ==> r == Success(saved.value.1) && files.Some?
    ensures saved.Some? ==>
              exists i :: 0 <= i < |files.value|
                && Versions.VersionInName(files.value[i].nameAll, MarketPrefix) == Some(saved.value.0)
                && Versions.AllAtMost(Versions.FileNames(files.value), MarketPrefix, |files.value|, saved.value.0)
                && Versions.AllBelow(Versions.FileNames(files.value), MarketPrefix, i, saved.value.0)
                && download(MarketHost + files.value[i].id) == Success(saved.value.1)
    ensures files.Some? && !Versions.AllAtMost(Versions.FileNames(files.value), MarketPrefix, |files.value|, "0.0.0") ==>
              exists i: nat, v :: Versions.IsLatest(Versions.FileNames(files.value), MarketPrefix, i, v)
    ensures forall i: nat, v :: files.Some? && Versions.IsLatest(Versions.FileNames(files.value), MarketPrefix, i, v) ==>
              if cachedVersion == v && cachedData != "" then r == Success(cachedData) && saved.None?
              else if download(MarketHost + files.value[i].id).Success? then
                r == download(MarketHost + files.value[i].id) && saved == Some((v, r.value))
              else r == Fallback(cachedData, download(MarketHost + files.value[i].id).error) && saved.None?
  {
    if files.None? || files.value == [] {
      return Fallback(cachedData, EmptyListing), None;
    }
    var names := Versions.FileNames(files.value);
    var latest, latestVersion := Versions.LatestFile(names, MarketPrefix);
    if latest.None? {
      return Fallback(cachedData, NoListFile), None;
    }
    forall i: nat, v | Versions.IsLatest(names, MarketPrefix, i, v)
      ensures i == latest.value && v == latestVersion
    {
      Versions.LatestUnique(names, MarketPrefix, i, v, latest.value, latestVersion);
    }
    if cachedVersion == latestVersion && cachedData != "" {
      return Success(cachedData), None;
    }
    var file := files.value[latest.value];
    var fetched := download(MarketHost + file.id);
    if fetched.Failure? {
      return Fallback(cachedData, fetched.error), None;
    }
    r := Success(fetched.value);
    saved := Some((latestVersion, fetched.value));
  }
}
