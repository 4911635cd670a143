/**
 * The renderer's command store (src/renderer/src/stores/commandDataStore.ts):
 * the table of special display overrides, the parts of search that are not
 * fuzzy matching, the paste searches, the recent and pinned views, the
 * history clean-up on load and on save, and the catalogue `loadCommands`
 * builds.
 *
 * Fuse's ranking and pinyin are not modelled: the fuzzy results are a
 * parameter. A regular expression is an uninterpreted `test(pattern, input)`
 * that answers None when the pattern does not compile.
 */
module CommandData {
  import opened Wrappers
  import opened Lists
  import Text
  import opened Catalogue

  // ---------------------------------------------------------------------
  // Special display overrides

  const ArrowBackwardIcon: string := "arrow-backward.png"
  const BaiduLogoIcon: string := "baidu-logo.png"
  const SettingsFillIcon: string := "settings-fill.png"

  /** The fields an override sets; None leaves the command's own value. */
  datatype SpecialConfig = SpecialConfig(name: Option<string>, icon: Option<string>, kind: Option<string>,
                                         cmdType: Option<string>, needsIconFilter: bool)

  /** `specialCommands`, in declaration order (the order `Object.entries` walks). */
  const SpecialCommands: seq<(string, SpecialConfig)> := [
    ("special:last-match", SpecialConfig(Some("上次匹配"), Some(ArrowBackwardIcon), Some("builtin"), Some("text"), true)),
    ("prefix:baidu-search:", SpecialConfig(Some("百度搜索"), Some(BaiduLogoIcon), Some("builtin"), None, false)),
    ("subType:system-setting", SpecialConfig(None, Some(SettingsFillIcon), None, None, true))]

  /** A command as the renderer shows it, with the icon-filter flag an override may set. */
  datatype Displayed = Displayed(command: Command, needsIconFilter: bool)

  /** `specialCommands[key]`. */
  function ConfigFor(key: string): Option<SpecialConfig> {
    match FirstIndex(SpecialCommands, (e: (string, SpecialConfig)) => e.0 == key)
    case Some(i) => Some(SpecialCommands[i].1)
    case None => None
  }

  /** The first `prefix:` entry whose prefix starts the path. */
  function PrefixConfig(path: string): Option<SpecialConfig> {
    match FirstIndex(SpecialCommands, (e: (string, SpecialConfig)) =>
                       Text.StartsWith(e.0, "prefix:") && Text.StartsWith(path, e.0[7..]))
    case Some(i) => Some(SpecialCommands[i].1)
    case None => None
  }

  /** The table has three distinct keys. */
  lemma ConfigForTable(key: string)
    ensures ConfigFor(key) == if key == "special:last-match" then Some(SpecialCommands[0].1)
                              else if key == "prefix:baidu-search:" then Some(SpecialCommands[1].1)
                              else if key == "subType:system-setting" then Some(SpecialCommands[2].1)
                              else None
  {
    var k := FirstIndex(SpecialCommands, (e: (string, SpecialConfig)) => e.0 == key);
    assert SpecialCommands[0].0[0] == 's' && SpecialCommands[1].0[0] == 'p' && SpecialCommands[2].0[1] == 'u';
  }

  /** Only the Baidu entry is a prefix entry. */
  lemma PrefixConfigTable(path: string)
    ensures PrefixConfig(path) == if Text.StartsWith(path, "baidu-search:") then Some(SpecialCommands[1].1) else None
  {
    assert SpecialCommands[1].0[7..] == "baidu-search:";
    assert !Text.StartsWith(SpecialCommands[0].0, "prefix:") by { assert SpecialCommands[0].0[0] != 'p'; }
    assert !Text.StartsWith(SpecialCommands[2].0, "prefix:") by { assert SpecialCommands[2].0[0] != 'p'; }
    assert Text.StartsWith(SpecialCommands[1].0, "prefix:");
  }

  /** `{...command, ...config}`. */
  function Override(c: Command, cfg: SpecialConfig): Displayed {
    Displayed(c.(name := cfg.name.UnwrapOr(c.name),
                 icon := if cfg.icon.Some? then cfg.icon else c.icon,
                 kind := cfg.kind.UnwrapOr(c.kind),
                 cmdType := cfg.cmdType.UnwrapOr(c.cmdType)),
              cfg.needsIconFilter)
  }

  /** The `subType:` entry of a command's sub-type. */
  lemma SubTypeEntry(subType: string)
    ensures ConfigFor("subType:" + subType) == if subType == "system-setting" then Some(SpecialCommands[2].1) else None
  {
    var key := "subType:" + subType;
    ConfigForTable(key);
    assert key[0] == 's' && key[1] == 'u' && key[8..] == subType;
    assert "subType:system-setting"[8..] == "system-setting";
  }

  /** A Baidu search path has no exact entry. */
  lemma BaiduPathHasNoEntry(path: string)
    ensures Text.StartsWith(path, "baidu-search:") ==> ConfigFor(path).None?
  {
    ConfigForTable(path);
    if Text.StartsWith(path, "baidu-search:") {
      assert path[0] == 'b';
    }
  }

  /**
   * The entry `applySpecialConfig` picks: an exact path entry, else the first
   * matching `prefix:` entry, else the `subType:` entry.
   */
  function SpecialConfigOf(path: string, subType: string): (r: Option<SpecialConfig>)
    ensures path == "special:last-match" ==> r == Some(SpecialCommands[0].1)
    ensures path != "special:last-match" && Text.StartsWith(path, "baidu-search:") ==> r == Some(SpecialCommands[1].1)
    ensures ConfigFor(path).None? && !Text.StartsWith(path, "baidu-search:") ==>
              r == (if subType == "system-setting" then Some(SpecialCommands[2].1) else None)
  {
    ConfigForTable(path);
    PrefixConfigTable(path);
    SubTypeEntry(subType);
    BaiduPathHasNoEntry(path);
    if ConfigFor(path).Some? then ConfigFor(path)
    else if PrefixConfig(path).Some? then PrefixConfig(path)
    else if subType != "" && ConfigFor("subType:" + subType).Some? then ConfigFor("subType:" + subType)
    else None
  }

  /**
   * `applySpecialConfig`: the command with its entry's fields laid over it;
   * with no entry it is shown as it is. For the table above: the last-match
   * entry always shows as the built-in "上次匹配", a `baidu-search:` path as
   * "百度搜索", and a system setting gets the settings icon.
   */
  function ApplySpecialConfig(c: Command): (r: Displayed)
    ensures r.command.path == c.path && r.command.subType == c.subType && r.command.featureCode == c.featureCode
    ensures c.path == "special:last-match" ==>
              r == Displayed(c.(name := "上次匹配", icon := Some(ArrowBackwardIcon), kind := "builtin", cmdType := "text"), true)
    ensures c.path != "special:last-match" && Text.StartsWith(c.path, "baidu-search:") ==>
              r == Displayed(c.(name := "百度搜索", icon := Some(BaiduLogoIcon), kind := "builtin"), false)
    ensures ConfigFor(c.path).None? && !Text.StartsWith(c.path, "baidu-search:") && c.subType == "system-setting" ==>
              r == Displayed(c.(icon := Some(SettingsFillIcon)), true)
    ensures ConfigFor(c.path).None? && !Text.StartsWith(c.path, "baidu-search:") && c.subType != "system-setting" ==>
              r == Displayed(c, false)
  {
    match SpecialConfigOf(c.path, c.subType)
    case Some(cfg) => Override(c, cfg)
    case None => Displayed(c, false)
  }

  /** Applying the overrides to what they produced changes nothing more. */
  lemma ApplySpecialConfigIdempotent(c: Command)
    ensures ApplySpecialConfig(ApplySpecialConfig(c).command) == ApplySpecialConfig(c)
  {
    var d := ApplySpecialConfig(c).command;
    assert d.path == c.path && d.subType == c.subType;
  }

  /** A list shown through the overrides, element by element. */
  function Shown(s: seq<Command>): (r: seq<Displayed>)
    ensures |r| == |s| && forall i :: 0 <= i < |s| ==> r[i] == ApplySpecialConfig(s[i])
  {
    seq(|s|, i requires 0 <= i < |s| => ApplySpecialConfig(s[i]))
  }

  /** What a shown list holds: exactly the overridden forms of its commands. */
  lemma ShownMembers(s: seq<Command>)
    ensures forall d :: d in Shown(s) <==> exists c :: c in s && d == ApplySpecialConfig(c)
  {
    var r := Shown(s);
    forall d | d in r ensures exists c :: c in s && d == ApplySpecialConfig(c) {
      var i :| 0 <= i < |r| && r[i] == d;
      assert s[i] in s;
    }
    forall c | c in s ensures ApplySpecialConfig(c) in r {
      var i :| 0 <= i < |s| && s[i] == c;
      assert r[i] == ApplySpecialConfig(c);
    }
  }

  /** A list shown as it is, with no override and no pin mark. */
  function Plain(s: seq<Command>): (r: seq<Displayed>)
    ensures |r| == |s| && forall i :: 0 <= i < |s| ==> r[i] == Displayed(s[i], false)
  {
    seq(|s|, i requires 0 <= i < |s| => Displayed(s[i], false))
  }

  /** The loop of `search` over the match commands: those the query is accepted by, in order. */
  method KeepAccepted(cmds: seq<Command>, accepts: Command -> bool) returns (found: seq<Command>)
    ensures found == Filter(cmds, accepts)
  {
    found := [];
    for i := 0 to |cmds|
      invariant found == Filter(cmds[..i], accepts)
    {
      FilterAppend(cmds[..i], cmds[i], accepts);
      assert cmds[..i + 1] == cmds[..i] + [cmds[i]];
      if accepts(cmds[i]) {
        found := found + [cmds[i]];
      }
    }
    assert cmds[..|cmds|] == cmds;
  }

  // ---------------------------------------------------------------------
  // Patterns

  predicate IsFlag(c: char) {
    c == 'g' || c == 'i' || c == 'm' || c == 'u' || c == 'y'
  }

  /** The length of the run of flag letters that ends the string. */
  function FlagRun(s: string): (n: nat)
    ensures n <= |s|
    ensures forall j :: |s| - n <= j < |s| ==> IsFlag(s[j])
    ensures n < |s| ==> !IsFlag(s[|s| - n - 1])
    decreases |s|
  {
    if |s| == 0 || !IsFlag(s[|s| - 1]) then 0 else FlagRun(s[..|s| - 1]) + 1
  }

  /**
   * `.replace(/^\/|\/[gimuy]*$/g, '')`: drops a leading slash and a closing
   * slash followed only by flag letters.
   */
  function StripDelimiters(p: string): string {
    var body := if |p| > 0 && p[0] == '/' then p[1..] else p;
    var n := |body| - FlagRun(body);
    if n > 0 && body[n - 1] == '/' then body[..n - 1] else body
  }

  lemma {:induction false} FlagRunAfterSlash(p: string, flags: string)
    requires forall j :: 0 <= j < |flags| ==> IsFlag(flags[j])
    ensures FlagRun(p + "/" + flags) == |flags|
    decreases |flags|
  {
    var s := p + "/" + flags;
    if |flags| > 0 {
      assert s[..|s| - 1] == p + "/" + flags[..|flags| - 1];
      FlagRunAfterSlash(p, flags[..|flags| - 1]);
    } else {
      assert s[|s| - 1] == '/';
    }
  }

  /** A pattern written as a literal `/body/flags` compiles from its body. */
  lemma StripDelimited(body: string, flags: string)
    requires forall j :: 0 <= j < |flags| ==> IsFlag(flags[j])
    ensures StripDelimiters("/" + body + "/" + flags) == body
  {
    var p := "/" + body + "/" + flags;
    assert p[1..] == body + "/" + flags;
    FlagRunAfterSlash(body, flags);
    assert (body + "/" + flags)[..|body|] == body;
  }

  /** A pattern without slashes is used as it is. */
  lemma StripPlain(p: string)
    requires forall j :: 0 <= j < |p| ==> p[j] != '/'
    ensures StripDelimiters(p) == p
  {
  }

  // ---------------------------------------------------------------------
  // Matching

  /** The count or length bounds of a match command (`minLength ?? 1`, `maxLength ?? 10000`). */
  predicate WithinBounds(n: int, m: Cmd)
    requires m.ObjectCmd?
  {
    m.minLength.UnwrapOr(1) <= n <= m.maxLength.UnwrapOr(10000)
  }

  function MatchKind(c: Command): string {
    if c.matchCmd.Some? && c.matchCmd.value.ObjectCmd? then c.matchCmd.value.kind else ""
  }

  /**
   * Whether `search` lists a match command for the query: a `regex` command
   * not longer than the query whose pattern matches it; an `over` command
   * within its bounds whose exclude pattern (if any) does not match.
   */
  predicate SearchAccepts(query: string, c: Command, test: (string, string) -> Option<bool>) {
    c.matchCmd.Some? && c.matchCmd.value.ObjectCmd? &&
    var m := c.matchCmd.value;
    if m.kind == "regex" then
      !(m.minLength.Some? && |query| < m.minLength.value) && test(StripDelimiters(m.pattern), query) == Some(true)
    else if m.kind == "over" then
      WithinBounds(|query|, m) && !(m.exclude != "" && test(StripDelimiters(m.exclude), query) == Some(true))
    else false
  }

  /** Over commands whose length bounds contain `n`. */
  predicate OverFits(n: int, c: Command) {
    MatchKind(c) == "over" && WithinBounds(n, c.matchCmd.value)
  }

  /** A pasted file or folder. */
  datatype PastedFile = PastedFile(path: string, name: string, isDirectory: bool)

  /** `name.split('.').pop().toLowerCase()`: the last dot-separated segment, lower-cased. */
  function Extension(name: string): (e: string)
    ensures '.' !in e
  {
    var parts := Text.Split(name, '.');
    var last := parts[|parts| - 1];
    var r := Text.Lower(last);
    assert forall j :: 0 <= j < |r| ==> r[j] != '.' by {
      forall j | 0 <= j < |r| ensures r[j] != '.' {
        assert last[j] != '.' by { assert last[j] in last; }
      }
    }
    r
  }

  function LowerAll(exts: seq<string>): (r: seq<string>)
    ensures |r| == |exts| && forall i :: 0 <= i < |exts| ==> r[i] == Text.Lower(exts[i])
  {
    seq(|exts|, i requires 0 <= i < |exts| => Text.Lower(exts[i]))
  }

  /** One file against a `files` command: its type, its extension (files only), its name pattern (an invalid one rejects). */
  predicate FilePasses(m: Cmd, f: PastedFile, test: (string, string) -> Option<bool>)
    requires m.ObjectCmd?
  {
    (m.fileType == "file" ==> !f.isDirectory)
    && (m.fileType == "directory" ==> f.isDirectory)
    && (m.extensions.Some? && !f.isDirectory ==> Extension(f.name) != "" && Extension(f.name) in LowerAll(m.extensions.value))
    && (m.pattern != "" ==> test(StripDelimiters(m.pattern), f.name) == Some(true))
  }

  /** A `files` command accepts a paste: the count is within bounds and every file passes. */
  predicate FilesAccepts(files: seq<PastedFile>, c: Command, test: (string, string) -> Option<bool>) {
    MatchKind(c) == "files" && WithinBounds(|files|, c.matchCmd.value)
    && forall i :: 0 <= i < |files| ==> FilePasses(c.matchCmd.value, files[i], test)
  }

  /** A command that takes a paste also takes any part of it whose size is within its bounds. */
  lemma FilesAcceptPart(files: seq<PastedFile>, part: seq<PastedFile>, c: Command, test: (string, string) -> Option<bool>)
    requires FilesAccepts(files, c, test)
    requires forall f :: f in part ==> f in files
    requires WithinBounds(|part|, c.matchCmd.value)
    ensures FilesAccepts(part, c, test)
  {
    forall i | 0 <= i < |part| ensures FilePasses(c.matchCmd.value, part[i], test) {
      assert part[i] in files;
      var k :| 0 <= k < |files| && files[k] == part[i];
    }
  }

  /**
   * The paste-text search and the typed search agree on an `over` command
   * without an exclude pattern: both list it exactly when the text's length
   * is within its bounds.
   */
  lemma OverSearchesAgree(text: string, c: Command, test: (string, string) -> Option<bool>)
    requires MatchKind(c) == "over" && c.matchCmd.value.exclude == ""
    ensures SearchAccepts(text, c, test) <==> OverFits(|text|, c)
  {
  }

  /** The lookup `getRecentCommands` and `getPinnedCommands` make: the same name, type, subtype and feature code. */
  predicate SameCommand(c: Command, item: Command) {
    c.name == item.name && c.kind == item.kind && c.subType == item.subType && c.featureCode == item.featureCode
  }

  /** A stored entry replaced by the current command it names, if there is one. */
  function Synced(commands: seq<Command>, item: Command): (r: Command)
    ensures SameCommand(r, item)
    ensures r == item || r in commands
  {
    match FirstIndex(commands, (c: Command) => SameCommand(c, item))
    case Some(k) => commands[k]
    case None => item
  }

  /** `list.slice(0, limit)` when the limit is truthy, else the whole list. */
  function SliceLength(n: nat, limit: int): (k: nat)
    ensures k <= n
    ensures limit == 0 ==> k == n
    ensures limit > 0 ==> k == if limit < n then limit else n
    ensures limit < 0 ==> k == if n + limit > 0 then n + limit else 0
  {
    if limit == 0 then n
    else if limit > 0 then (if limit < n then limit else n)
    else if n + limit > 0 then n + limit else 0
  }

  /** An entry the load keeps: anything but a plugin that is no longer installed. */
  predicate StillInstalled(item: Command, installed: set<string>) {
    item.kind != "plugin" || item.path in installed
  }

  predicate IsSystemSetting(item: Command) {
    item.kind == "direct" && item.subType == "system-setting"
  }

  /** Entries whose icon is set by the overrides and is never stored. */
  predicate IconFromOverrides(item: Command) {
    IsSystemSetting(item) || Text.StartsWith(item.path, "special:")
  }

  predicate HasIcon(item: Command) {
    item.icon.Some? && item.icon.value != ""
  }

  /** The per-entry clean-up of `loadHistoryData`: the old system-setting type, then a stale icon. */
  function Migrated(item: Command): (r: Command)
    ensures r.kind != "system-setting"
    ensures IconFromOverrides(r) ==> !HasIcon(r)
    ensures r.path == item.path && r.name == item.name && r.featureCode == item.featureCode
  {
    var m := if item.kind == "system-setting" then item.(kind := "direct", subType := "system-setting") else item;
    if IconFromOverrides(m) && HasIcon(m) then m.(icon := None) else m
  }

  /** Whether the clean-up changed an entry, which makes the load save the history back. */
  predicate MigrationChanges(item: Command) {
    item.kind == "system-setting" || (IconFromOverrides(Migrated(item)) && HasIcon(item))
  }

  function MigrateAll(s: seq<Command>): (r: seq<Command>)
    ensures |r| == |s| && forall i :: 0 <= i < |s| ==> r[i] == Migrated(s[i])
  {
    seq(|s|, i requires 0 <= i < |s| => Migrated(s[i]))
  }

  /**
   * `loadHistoryData` once the stored document and the installed plugins are
   * read: a document that is not a list loads as empty; otherwise plugins no
   * longer installed are dropped and the rest migrated. The flag says
   * whether the cleaned list must be saved.
   */
  function LoadedHistory(data: Option<seq<Command>>, installed: set<string>): (r: (seq<Command>, bool))
    ensures data.None? ==> r == ([], false)
    ensures forall e :: e in r.0 ==> StillInstalled(e, installed) && e.kind != "system-setting" && (IconFromOverrides(e) ==> !HasIcon(e))
    ensures data.Some? ==> |r.0| <= |data.value|
    ensures data.Some? ==> (r.1 <==> exists e :: e in data.value && StillInstalled(e, installed) && MigrationChanges(e))
  {
    match data
    case None => ([], false)
    case Some(items) =>
      var kept := Filter(items, (e: Command) => StillInstalled(e, installed));
      var r := MigrateAll(kept);
      assert forall e :: e in r ==> StillInstalled(e, installed) by {
        forall e | e in r ensures StillInstalled(e, installed) {
          var i :| 0 <= i < |r| && r[i] == e;
          assert kept[i] in kept;
        }
      }
      (r, exists e :: e in kept && MigrationChanges(e))
  }

  /** The fields `saveHistory` writes: no icon for entries whose icon comes from the overrides, and no match data. */
  function Saved(item: Command): (r: Command)
    ensures IconFromOverrides(item) ==> r.icon.None?
    ensures !IconFromOverrides(item) ==> r.icon == item.icon
    ensures r.matchCmd.None? && r.cmdType == ""
    ensures r.name == item.name && r.path == item.path && r.kind == item.kind && r.subType == item.subType
    ensures r.featureCode == item.featureCode && r.lastUsed == item.lastUsed && r.useCount == item.useCount
  {
    Command(item.name, item.path, if IconFromOverrides(item) then None else item.icon, item.kind, item.subType,
            item.featureCode, item.pluginExplain, "", None, item.lastUsed, item.useCount)
  }

  function SaveAll(s: seq<Command>): (r: seq<Command>)
    ensures |r| == |s| && forall i :: 0 <= i < |s| ==> r[i] == Saved(s[i])
  {
    seq(|s|, i requires 0 <= i < |s| => Saved(s[i]))
  }

  /** Saving is stable: a saved list saves to itself, and loading it back finds nothing to migrate. */
  lemma SaveStable(s: seq<Command>, installed: set<string>)
    requires forall e :: e in s ==> e.kind != "system-setting"
    ensures SaveAll(SaveAll(s)) == SaveAll(s)
    ensures !LoadedHistory(Some(SaveAll(s)), installed).1
  {
    var saved := SaveAll(s);
    forall e | e in saved ensures !MigrationChanges(e) {
      var i :| 0 <= i < |saved| && saved[i] == e;
    }
  }

  // ---------------------------------------------------------------------
  // The catalogue of `loadCommands`

  /** A match command: an object whose `type` is one of the five match types. */
  predicate IsMatchCmd(c: Cmd) {
    c.ObjectCmd? && c.kind in {"regex", "over", "img", "files", "window"}
  }

  datatype Catalog = Catalog(commands: seq<Command>, regexCommands: seq<Command>)

  function Join(a: Catalog, b: Catalog): Catalog {
    Catalog(a.commands + b.commands, a.regexCommands + b.regexCommands)
  }

  function AppItem(a: App): Command {
    Command(a.name, a.path, Some(a.icon), "direct", "app", None, "", "", None, 0, 0)
  }

  function SettingItem(s: Setting): Command {
    Command(s.name, s.uri, Some(SettingsFillIcon), "direct", "system-setting", None, "", "", None, 0, 0)
  }

  /** The feature a plugin without a `main` opens by default: the first with a plain-text command. */
  function DefaultFeature(fs: seq<Feature>): (r: Option<string>)
    ensures r.Some? ==> exists i :: 0 <= i < |fs| && fs[i].code == r.value && fs[i].cmds.Some?
                                   && exists c :: c in fs[i].cmds.value && c.TextCmd?
    decreases |fs|
  {
    if |fs| == 0 then None
    else if fs[0].cmds.Some? && exists c :: c in fs[0].cmds.value && c.TextCmd? then Some(fs[0].code)
    else
      var r := DefaultFeature(fs[1..]);
      if r.Some? then
        var i :| 0 <= i < |fs[1..]| && fs[1..][i].code == r.value && fs[1..][i].cmds.Some?
                 && exists c :: c in fs[1..][i].cmds.value && c.TextCmd?;
        assert fs[i + 1] == fs[1..][i];
        r
      else r
  }

  /** The entry for the plugin itself. */
  function PluginItem(p: Plugin): Command
    requires p.features.Some?
  {
    Command(p.name, p.path, Some(p.logo), "plugin", "", if p.main == "" then DefaultFeature(p.features.value) else None,
            "", "", None, 0, 0)
  }

  /** The entry one `cmds` element becomes; a non-match object is listed under its label. */
  function CmdEntry(p: Plugin, f: Feature, c: Cmd): (e: Command)
    ensures e.kind == "plugin" && e.path == p.path && e.featureCode == Some(f.code)
    ensures IsMatchCmd(c) <==> e.matchCmd.Some?
    ensures IsMatchCmd(c) ==> e.matchCmd == Some(c) && e.cmdType == c.kind && e.name == c.name
    ensures !IsMatchCmd(c) ==> e.cmdType == "text" && e.name == (if c.TextCmd? then c.text else c.name)
  {
    var icon := Some(if f.icon != "" then f.icon else p.logo);
    if IsMatchCmd(c) then Command(c.name, p.path, icon, "plugin", "", Some(f.code), f.explain, c.kind, Some(c), 0, 0)
    else Command(if c.TextCmd? then c.text else c.name, p.path, icon, "plugin", "", Some(f.code), f.explain, "text", None, 0, 0)
  }

  predicate PlainPluginEntry(e: Command) {
    e.kind == "plugin" && e.matchCmd.None?
  }

  predicate MatchEntry(e: Command) {
    e.kind == "plugin" && e.matchCmd.Some? && IsMatchCmd(e.matchCmd.value) && e.cmdType == e.matchCmd.value.kind
  }

  function CmdsCatalog(p: Plugin, f: Feature, cmds: seq<Cmd>): (c: Catalog)
    ensures forall e :: e in c.commands ==> PlainPluginEntry(e)
    ensures forall e :: e in c.regexCommands ==> MatchEntry(e)
    ensures |c.commands| + |c.regexCommands| == |cmds|
    decreases |cmds|
  {
    if |cmds| == 0 then Catalog([], [])
    else
      var prev := CmdsCatalog(p, f, cmds[..|cmds| - 1]);
      var last := cmds[|cmds| - 1];
      if IsMatchCmd(last) then prev.(regexCommands := prev.regexCommands + [CmdEntry(p, f, last)])
      else prev.(commands := prev.commands + [CmdEntry(p, f, last)])
  }

  function FeaturesCatalog(p: Plugin, fs: seq<Feature>): (c: Catalog)
    ensures forall e :: e in c.commands ==> PlainPluginEntry(e)
    ensures forall e :: e in c.regexCommands ==> MatchEntry(e)
    decreases |fs|
  {
    if |fs| == 0 then Catalog([], [])
    else
      var last := fs[|fs| - 1];
      Join(FeaturesCatalog(p, fs[..|fs| - 1]), if last.cmds.Some? then CmdsCatalog(p, last, last.cmds.value) else Catalog([], []))
  }

  /** A plugin with a non-empty feature list contributes its own entry and then its features' commands. */
  function PluginCatalog(p: Plugin): (c: Catalog)
    ensures forall e :: e in c.commands ==> PlainPluginEntry(e)
    ensures forall e :: e in c.regexCommands ==> MatchEntry(e)
    ensures p.features.None? || |p.features.value| == 0 <==> c == Catalog([], [])
  {
    if p.features.Some? && |p.features.value| > 0 then
      Join(Catalog([PluginItem(p)], []), FeaturesCatalog(p, p.features.value))
    else Catalog([], [])
  }

  function PluginsCatalog(ps: seq<Plugin>): (c: Catalog)
    ensures forall e :: e in c.commands ==> PlainPluginEntry(e)
    ensures forall e :: e in c.regexCommands ==> MatchEntry(e)
    decreases |ps|
  {
    if |ps| == 0 then Catalog([], []) else Join(PluginsCatalog(ps[..|ps| - 1]), PluginCatalog(ps[|ps| - 1]))
  }

  function AppItems(apps: seq<App>): (r: seq<Command>)
    ensures |r| == |apps| && forall i :: 0 <= i < |apps| ==> r[i] == AppItem(apps[i])
  {
    seq(|apps|, i requires 0 <= i < |apps| => AppItem(apps[i]))
  }

  function SettingItems(settings: seq<Setting>): (r: seq<Command>)
    ensures |r| == |settings| && forall i :: 0 <= i < |settings| ==> r[i] == SettingItem(settings[i])
  {
    seq(|settings|, i requires 0 <= i < |settings| => SettingItem(settings[i]))
  }

  /**
   * The store's state: the loaded history and pinned list, the command
   * lists search works on, whether the fuzzy index exists, and the flag that
   * makes the store ignore the change notice its own reorder causes.
   */
  class CommandDataStore {
    var history: seq<Command>
    var pinnedCommands: seq<Command>
    var commands: seq<Command>
    var regexCommands: seq<Command>
    var fuseReady: bool
    var isLocalPinnedUpdate: bool

    constructor()
      ensures history == [] && pinnedCommands == [] && commands == [] && regexCommands == []
      ensures !fuseReady && !isLocalPinnedUpdate
    {
      history := [];
      pinnedCommands := [];
      commands := [];
      regexCommands := [];
      fuseReady := false;
      isLocalPinnedUpdate := false;
    }

    /**
     * `loadCommands`: applications, then every plugin's entries, then (on
     * Windows) the system settings; match commands go to `regexCommands`.
     * The fuzzy index is rebuilt.
     */
    method LoadCommands(apps: seq<App>, plugins: seq<Plugin>, isWindows: bool, settings: seq<Setting>)
      modifies this
      ensures commands == AppItems(apps) + PluginsCatalog(plugins).commands + (if isWindows then SettingItems(settings) else [])
      ensures regexCommands == PluginsCatalog(plugins).regexCommands
      ensures fuseReady
      ensures history == old(history) && pinnedCommands == old(pinnedCommands) && isLocalPinnedUpdate == old(isLocalPinnedUpdate)
    {
      var pluginItems: seq<Command> := [];
      var regexItems: seq<Command> := [];
      for i := 0 to |plugins|
        invariant pluginItems == PluginsCatalog(plugins[..i]).commands
        invariant regexItems == PluginsCatalog(plugins[..i]).regexCommands
        invariant history == old(history) && pinnedCommands == old(pinnedCommands)
        invariant isLocalPinnedUpdate == old(isLocalPinnedUpdate)
      {
        assert plugins[..i + 1][..i] == plugins[..i];
        var pc := ExpandPlugin(plugins[i]);
        pluginItems := pluginItems + pc.commands;
        regexItems := regexItems + pc.regexCommands;
      }
      assert plugins[..|plugins|] == plugins;
      var settingItems := if isWindows then SettingItems(settings) else [];
      commands := AppItems(apps) + pluginItems + settingItems;
      regexCommands := regexItems;
      fuseReady := true;
    }

    /**
     * The non-fuzzy part of `search`. `fuzzy` is what Fuse returns for the
     * query, already ranked. An empty query (or no index yet) lists only
     * the applications of the list searched; a search within an explicit
     * list never reports match commands.
     */
    method Search(query: string, commandList: Option<seq<Command>>, fuzzy: seq<Command>,
                  test: (string, string) -> Option<bool>)
      returns (bestMatches: seq<Displayed>, regexMatches: seq<Displayed>)
      ensures var target := if commandList.Some? then commandList.value else commands;
              query == "" || !fuseReady ==>
                bestMatches == Plain(Filter(target, IsApp))
      ensures query == "" || !fuseReady || commandList.Some? ==> regexMatches == []
      ensures query != "" && fuseReady ==> bestMatches == Shown(fuzzy)
      ensures query != "" && fuseReady && commandList.None? ==>
                regexMatches == Shown(Filter(regexCommands, (c: Command) => SearchAccepts(query, c, test)))
    {
      var target := if commandList.Some? then commandList.value else commands;
      if query == "" || !fuseReady {
        return Plain(Filter(target, IsApp)), [];
      }
      var found := KeepAccepted(regexCommands, (c: Command) => SearchAccepts(query, c, test));
      bestMatches := Shown(fuzzy);
      regexMatches := if commandList.Some? then [] else Shown(found);
    }

    /** `searchImageCommands`: every `img` command. */
    function SearchImageCommands(): (r: seq<Displayed>)
      reads this
      ensures forall d :: d in r <==> exists c :: c in regexCommands && MatchKind(c) == "img" && d == ApplySpecialConfig(c)
    {
      var imgs := Filter(regexCommands, (c: Command) => MatchKind(c) == "img");
      ShownMembers(imgs);
      Shown(imgs)
    }

    /** `searchTextCommands(text)`: nothing for empty text, else the `over` commands whose bounds contain its length. */
    function SearchTextCommands(text: string): (r: seq<Displayed>)
      reads this
      ensures text == "" ==> r == []
      ensures text != "" ==> forall d :: d in r <==> exists c :: c in regexCommands && OverFits(|text|, c) && d == ApplySpecialConfig(c)
    {
      if text == "" then []
      else
        var fits := Filter(regexCommands, (c: Command) => OverFits(|text|, c));
        ShownMembers(fits);
        Shown(fits)
    }

    /** `searchFileCommands(files)`: nothing for no files, else the `files` commands that accept all of them. */
    function SearchFileCommands(files: seq<PastedFile>, test: (string, string) -> Option<bool>): (r: seq<Displayed>)
      reads this
      ensures |files| == 0 ==> r == []
      ensures |files| > 0 ==> forall d :: d in r <==> exists c :: c in regexCommands && FilesAccepts(files, c, test) && d == ApplySpecialConfig(c)
    {
      if |files| == 0 then []
      else
        var ok := Filter(regexCommands, (c: Command) => FilesAccepts(files, c, test));
        ShownMembers(ok);
        Shown(ok)
    }

    /** `isPinned(path, featureCode)` on the loaded pinned list. */
    function IsPinnedHere(path: string, featureCode: Option<string>): (b: bool)
      reads this
      ensures b <==> exists i :: 0 <= i < |pinnedCommands| && Names(pinnedCommands[i], path, featureCode)
    {
      var b := IsPinned(pinnedCommands, path, featureCode);
      assert b ==> exists i :: 0 <= i < |pinnedCommands| && Names(pinnedCommands[i], path, featureCode) by {
        if b {
          var e :| e in pinnedCommands && Names(e, path, featureCode);
          var i :| 0 <= i < |pinnedCommands| && pinnedCommands[i] == e;
        }
      }
      b
    }

    /** `getRecentCommands(limit)`: the history in order, each entry synced and shown, cut to the limit. */
    function GetRecentCommands(limit: int): (r: seq<Displayed>)
      reads this
      ensures |r| == SliceLength(|history|, limit)
      ensures forall i :: 0 <= i < |r| ==> r[i] == ApplySpecialConfig(Synced(commands, history[i]))
    {
      var h := history;
      var cs := commands;
      var synced := seq(|h|, i requires 0 <= i < |h| => ApplySpecialConfig(Synced(cs, h[i])));
      synced[..SliceLength(|history|, limit)]
    }

    /** `getPinnedCommands`: the pinned list in order, each entry synced. */
    function GetPinnedCommands(): (r: seq<Command>)
      reads this
      ensures |r| == |pinnedCommands|
      ensures forall i :: 0 <= i < |r| ==> r[i] == Synced(commands, pinnedCommands[i])
    {
      var pinned := pinnedCommands;
      var cs := commands;
      seq(|pinned|, i requires 0 <= i < |pinned| => Synced(cs, pinned[i]))
    }

    /** `loadHistoryData`; answers whether the cleaned list has to be saved. */
    method LoadHistoryData(data: Option<seq<Command>>, installed: set<string>) returns (needsSave: bool)
      modifies this
      ensures (history, needsSave) == LoadedHistory(data, installed)
      ensures pinnedCommands == old(pinnedCommands) && commands == old(commands) && regexCommands == old(regexCommands)
      ensures fuseReady == old(fuseReady) && isLocalPinnedUpdate == old(isLocalPinnedUpdate)
    {
      var loaded := LoadedHistory(data, installed);
      history := loaded.0;
      needsSave := loaded.1;
    }

    /** `loadPinnedData`: a stored list without the plugins no longer installed; anything else loads as empty. */
    method LoadPinnedData(data: Option<seq<Command>>, installed: set<string>)
      modifies this
      ensures data.None? ==> pinnedCommands == []
      ensures data.Some? ==> pinnedCommands == Filter(data.value, (e: Command) => StillInstalled(e, installed))
      ensures history == old(history) && commands == old(commands) && regexCommands == old(regexCommands)
      ensures fuseReady == old(fuseReady) && isLocalPinnedUpdate == old(isLocalPinnedUpdate)
    {
      pinnedCommands := if data.Some? then Filter(data.value, (e: Command) => StillInstalled(e, installed)) else [];
    }

    /** `updatePinnedOrder`: takes the new order at once and marks the coming change notice as its own. */
    method UpdatePinnedOrder(newOrder: seq<Command>)
      modifies this
      ensures pinnedCommands == newOrder && isLocalPinnedUpdate
      ensures history == old(history) && commands == old(commands) && regexCommands == old(regexCommands)
      ensures fuseReady == old(fuseReady)
    {
      pinnedCommands := newOrder;
      isLocalPinnedUpdate := true;
    }

    /**
     * The `pinned-changed` listener: the notice the store's own reorder
     * causes is swallowed once; any other reloads the pinned list.
     */
    method OnPinnedChanged(data: Option<seq<Command>>, installed: set<string>)
      modifies this
      ensures old(isLocalPinnedUpdate) ==> pinnedCommands == old(pinnedCommands)
      ensures !old(isLocalPinnedUpdate) && data.None? ==> pinnedCommands == []
      ensures !old(isLocalPinnedUpdate) && data.Some? ==> pinnedCommands == Filter(data.value, (e: Command) => StillInstalled(e, installed))
      ensures !isLocalPinnedUpdate
      ensures history == old(history) && commands == old(commands) && regexCommands == old(regexCommands)
      ensures fuseReady == old(fuseReady)
    {
      if isLocalPinnedUpdate {
        isLocalPinnedUpdate := false;
        return;
      }
      LoadPinnedData(data, installed);
    }
  }

  predicate IsApp(c: Command) {
    c.kind == "direct" && c.subType == "app"
  }

  /** The loop of `loadCommands` over one plugin's features. */
  method ExpandPlugin(p: Plugin) returns (c: Catalog)
    ensures c == PluginCatalog(p)
  {
    if p.features.None? || |p.features.value| == 0 {
      return Catalog([], []);
    }
    var fs := p.features.value;
    c := Catalog([PluginItem(p)], []);
    for i := 0 to |fs|
      invariant c == Join(Catalog([PluginItem(p)], []), FeaturesCatalog(p, fs[..i]))
    {
      assert fs[..i + 1][..i] == fs[..i];
      var fc := Catalog([], []);
      if fs[i].cmds.Some? {
        fc := ExpandCmds(p, fs[i], fs[i].cmds.value);
      }
      c := Join(c, fc);
    }
    assert fs[..|fs|] == fs;
  }

  /** The loop over one feature's `cmds`. */
  method ExpandCmds(p: Plugin, f: Feature, cmds: seq<Cmd>) returns (fc: Catalog)
    ensures fc == CmdsCatalog(p, f, cmds)
  {
    fc := Catalog([], []);
    for j := 0 to |cmds|
      invariant fc == CmdsCatalog(p, f, cmds[..j])
    {
      assert cmds[..j + 1][..j] == cmds[..j];
      if IsMatchCmd(cmds[j]) {
        fc := fc.(regexCommands := fc.regexCommands + [CmdEntry(p, f, cmds[j])]);
      } else {
        fc := fc.(commands := fc.commands + [CmdEntry(p, f, cmds[j])]);
      }
    }
    assert cmds[..|cmds|] == cmds;
  }
}
