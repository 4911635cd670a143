/**
 * The main-process command API (src/main/api/renderer/commands.ts): the
 * launch history kept under `command-history`, the pinned list under
 * `pinned-commands`, the default feature of a plugin, the history decision
 * a plugin launch takes, and the catalogue `getCommands` assembles.
 *
 * The stored lists are values here: each operation takes the list it reads
 * and returns the list it writes back. The clock, the plugin's manifest and
 * the application lookups are parameters.
 */
module Commands {
  import opened Wrappers
  import opened Lists
  import Text
  import opened Catalogue

  /** At most this many history entries are kept. */
  const HistoryLimit: nat := 27
  const LastMatchPath: string := "special:last-match"

  // ---------------------------------------------------------------------
  // History

  /**
   * The rule `addToHistory` uses to find an existing entry: when both the
   * entry and the launch are plugins, path and feature code; otherwise path.
   */
  predicate SameForHistory(item: Command, path: string, kind: string, featureCode: Option<string>) {
    if item.kind == "plugin" && kind == "plugin" then item.path == path && item.featureCode == featureCode
    else item.path == path
  }

  function LastUsed(e: Command): int {
    e.lastUsed
  }

  /** `history.sort((a, b) => b.lastUsed - a.lastUsed)`: most recent first, ties in their old order. */
  function SortByRecency(s: seq<Command>): (r: seq<Command>)
    ensures SortedDescBy(r, LastUsed)
    ensures multiset(r) == multiset(s)
  {
    SortDescBy(s, LastUsed)
  }

  /** Where `addToHistory` finds the launched command, if it is already there. */
  function HistoryIndex(history: seq<Command>, info: Command, kind: string): Option<nat> {
    FirstIndex(history, (e: Command) => SameForHistory(e, info.path, kind, info.featureCode))
  }

  /** The entry a launch leaves behind: the old one refreshed, or a new one used once. */
  function Touched(history: seq<Command>, info: Command, kind: string, now: int): (t: Command)
    ensures t.lastUsed == now
    ensures HistoryIndex(history, info, kind).None? ==> t == info.(lastUsed := now, useCount := 1)
    ensures HistoryIndex(history, info, kind).Some? ==>
              var old_ := history[HistoryIndex(history, info, kind).value];
              t == old_.(lastUsed := now, useCount := old_.useCount + 1, name := info.name, icon := info.icon)
  {
    match HistoryIndex(history, info, kind)
    case Some(i) => history[i].(lastUsed := now, useCount := history[i].useCount + 1, name := info.name, icon := info.icon)
    case None => info.(lastUsed := now, useCount := 1)
  }

  /** The history after the update in place and before the sort. */
  function Recorded(history: seq<Command>, info: Command, kind: string, now: int): (r: seq<Command>)
    ensures HistoryIndex(history, info, kind).Some? ==>
              r == history[HistoryIndex(history, info, kind).value := Touched(history, info, kind, now)]
    ensures HistoryIndex(history, info, kind).None? ==> r == history + [Touched(history, info, kind, now)]
  {
    match HistoryIndex(history, info, kind)
    case Some(i) => history[i := Touched(history, info, kind, now)]
    case None => history + [Touched(history, info, kind, now)]
  }

  /** The search loop of `addToHistory` and the update it leads to: refresh the entry found, or push a new one. */
  method RecordLaunch(history: seq<Command>, e: Command, kind: string, now: int) returns (h: seq<Command>)
    ensures h == Recorded(history, e, kind, now)
  {
    var i := 0;
    while i < |history| && !SameForHistory(history[i], e.path, kind, e.featureCode)
      invariant 0 <= i <= |history|
      invariant forall j :: 0 <= j < i ==> !SameForHistory(history[j], e.path, kind, e.featureCode)
    {
      i := i + 1;
    }
    if i < |history| {
      assert HistoryIndex(history, e, kind) == Some(i);
      h := history[i := history[i].(lastUsed := now, useCount := history[i].useCount + 1, name := e.name, icon := e.icon)];
    } else {
      assert HistoryIndex(history, e, kind).None?;
      h := history + [e.(lastUsed := now, useCount := 1)];
    }
  }

  /**
   * The history `addToHistory` saves once the command's record `info` is
   * known: refresh or append, sort by recency, keep the first 27. The entry
   * is looked up by the record's path and feature code, which at every call
   * site are the ones the launch passed.
   */
  function UpdatedHistory(history: seq<Command>, info: Command, kind: string, now: int): (r: seq<Command>)
    ensures SortedDescBy(r, LastUsed)
    ensures |r| <= HistoryLimit
    ensures |r| == if |Recorded(history, info, kind, now)| < HistoryLimit then |Recorded(history, info, kind, now)| else HistoryLimit
    ensures multiset(r) <= multiset(Recorded(history, info, kind, now))
  {
    var sorted := SortByRecency(Recorded(history, info, kind, now));
    var r := if |sorted| > HistoryLimit then sorted[..HistoryLimit] else sorted;
    assert sorted == r + sorted[|r|..];
    r
  }

  /** An update never grows the history past one new entry, and a known command adds none. */
  lemma RecordedSize(history: seq<Command>, info: Command, kind: string, now: int)
    ensures HistoryIndex(history, info, kind).Some? <==> |Recorded(history, info, kind, now)| == |history|
    ensures HistoryIndex(history, info, kind).None? <==> |Recorded(history, info, kind, now)| == |history| + 1
  {
  }

  /** With a clock ahead of every stored entry, the command just launched heads the history. */
  lemma JustUsedFirst(history: seq<Command>, info: Command, kind: string, now: int)
    requires forall e :: e in history ==> e.lastUsed < now
    ensures |UpdatedHistory(history, info, kind, now)| > 0
    ensures UpdatedHistory(history, info, kind, now)[0] == Touched(history, info, kind, now)
  {
    var rec := Recorded(history, info, kind, now);
    var t := Touched(history, info, kind, now);
    RecordedOthersOlder(history, info, kind, now);
    NewestHeadsSorted(rec, t);
  }

  /** An entry newer than all others comes first once sorted by recency. */
  lemma NewestHeadsSorted(s: seq<Command>, t: Command)
    requires t in s
    requires forall y :: y in s ==> y == t || y.lastUsed < t.lastUsed
    ensures |SortByRecency(s)| > 0 && SortByRecency(s)[0] == t
  {
    var sorted := SortByRecency(s);
    assert t in multiset(sorted);
    forall y | y in sorted ensures y == t || LastUsed(y) < LastUsed(t) {
      assert y in multiset(s);
    }
    MaxFirst(sorted, t, LastUsed);
  }

  /** Apart from the entry just touched, the updated history holds only stored entries. */
  lemma RecordedOthersOlder(history: seq<Command>, info: Command, kind: string, now: int)
    requires forall e :: e in history ==> e.lastUsed < now
    ensures Touched(history, info, kind, now) in Recorded(history, info, kind, now)
    ensures forall y :: y in Recorded(history, info, kind, now) ==> y == Touched(history, info, kind, now) || y.lastUsed < now
  {
    var rec := Recorded(history, info, kind, now);
    var t := Touched(history, info, kind, now);
    forall y | y in rec ensures y == t || y.lastUsed < now {
      var k :| 0 <= k < |rec| && rec[k] == y;
      if HistoryIndex(history, info, kind).Some? {
        if k != HistoryIndex(history, info, kind).value {
          assert y == history[k];
        }
      } else if k < |history| {
        assert y == history[k];
      }
    }
    if HistoryIndex(history, info, kind).Some? {
      assert rec[HistoryIndex(history, info, kind).value] == t;
    } else {
      assert rec[|history|] == t;
    }
  }

  /**
   * `removeFromHistory(path, featureCode)`, and `unpinApp` on the pinned
   * list: drops exactly the entries the pair names, keeping the rest in order.
   */
  function RemoveNamed(entries: seq<Command>, path: string, featureCode: Option<string>): (r: seq<Command>)
    ensures forall e :: e in r <==> e in entries && !Names(e, path, featureCode)
    ensures |r| <= |entries|
  {
    Filter(entries, (e: Command) => !Names(e, path, featureCode))
  }

  /** Removing twice removes nothing more. */
  lemma RemoveNamedIdempotent(entries: seq<Command>, path: string, featureCode: Option<string>)
    ensures RemoveNamed(RemoveNamed(entries, path, featureCode), path, featureCode) == RemoveNamed(entries, path, featureCode)
  {
    FilterIdempotent(entries, (e: Command) => !Names(e, path, featureCode));
  }

  // ---------------------------------------------------------------------
  // Pinned list

  /** The fields a pinned entry keeps (`name`, `path`, `icon`, `type`, `featureCode`, `pluginExplain`). */
  function Clean(app: Command): (c: Command)
    ensures c.name == app.name && c.path == app.path && c.icon == app.icon && c.kind == app.kind
    ensures c.featureCode == app.featureCode && c.pluginExplain == app.pluginExplain
    ensures c.subType == "" && c.cmdType == "" && c.matchCmd.None? && c.lastUsed == 0 && c.useCount == 0
  {
    Command(app.name, app.path, app.icon, app.kind, "", app.featureCode, app.pluginExplain, "", None, 0, 0)
  }

  /** `pinApp(app)`: appends the cleaned entry unless the list already names the app. */
  function PinApp(pinned: seq<Command>, app: Command): (r: seq<Command>)
    ensures IsPinned(pinned, app.path, app.featureCode) ==> r == pinned
    ensures !IsPinned(pinned, app.path, app.featureCode) ==> r == pinned + [Clean(app)]
  {
    if IsPinned(pinned, app.path, app.featureCode) then pinned else pinned + [Clean(app)]
  }

  /** After pinning, the app is pinned, and pinning it again changes nothing. */
  lemma PinIdempotent(pinned: seq<Command>, app: Command)
    ensures IsPinned(PinApp(pinned, app), app.path, app.featureCode)
    ensures PinApp(PinApp(pinned, app), app) == PinApp(pinned, app)
  {
    if !IsPinned(pinned, app.path, app.featureCode) {
      assert Clean(app) in PinApp(pinned, app);
      assert Names(Clean(app), app.path, app.featureCode);
    }
  }

  /** Unpinning what was just pinned leaves it unpinned. */
  lemma UnpinAfterPin(pinned: seq<Command>, app: Command)
    ensures !IsPinned(RemoveNamed(PinApp(pinned, app), app.path, app.featureCode), app.path, app.featureCode)
  {
  }

  /** `updatePinnedOrder(newOrder)`: the new order, each entry cleaned. */
  function UpdatePinnedOrder(newOrder: seq<Command>): (r: seq<Command>)
    ensures |r| == |newOrder|
    ensures forall i :: 0 <= i < |r| ==> r[i] == Clean(newOrder[i])
  {
    seq(|newOrder|, i requires 0 <= i < |newOrder| => Clean(newOrder[i]))
  }

  /** Reordering keeps the same commands pinned. */
  lemma ReorderKeepsPins(newOrder: seq<Command>, path: string, featureCode: Option<string>)
    ensures IsPinned(UpdatePinnedOrder(newOrder), path, featureCode) <==> IsPinned(newOrder, path, featureCode)
  {
    var r := UpdatePinnedOrder(newOrder);
    if IsPinned(newOrder, path, featureCode) {
      var e :| e in newOrder && Names(e, path, featureCode);
      var i :| 0 <= i < |newOrder| && newOrder[i] == e;
      assert r[i] in r && Names(r[i], path, featureCode);
    }
    if IsPinned(r, path, featureCode) {
      var e :| e in r && Names(e, path, featureCode);
      var i :| 0 <= i < |r| && r[i] == e;
      assert newOrder[i] in newOrder && Names(newOrder[i], path, featureCode);
    }
  }

  // ---------------------------------------------------------------------
  // Default feature

  const NoFeatures: string := "该插件没有配置任何功能"
  const AllFeaturesMatchOnly: string := "该插件所有功能都需要通过指令触发，无法直接打开"
  const ManifestUnreadable: string := "读取插件配置失败"

  /** A command that opens the plugin without input: a string, or an object without a `type`. */
  predicate IsPlainCmd(c: Cmd) {
    c.TextCmd? || c.kind == ""
  }

  /** A feature the launcher may open directly: no commands at all, or a plain one. */
  predicate Openable(f: Feature) {
    f.cmds.None? || |f.cmds.value| == 0 || exists c :: c in f.cmds.value && IsPlainCmd(c)
  }

  /**
   * `getDefaultFeatureCode`: `manifest` is the parsed plugin.json's features
   * (None when it cannot be read; Some(None) when it has no feature list).
   */
  method GetDefaultFeatureCode(manifest: Option<Option<seq<Feature>>>) returns (r: Result<string, string>)
    ensures manifest.None? ==> r == Failure(ManifestUnreadable)
    ensures manifest == Some(None) || manifest == Some(Some([])) ==> r == Failure(NoFeatures)
    ensures manifest.Some? && manifest.value.Some? && |manifest.value.value| > 0 ==>
              var fs := manifest.value.value;
              (r.Success? <==> exists i :: 0 <= i < |fs| && Openable(fs[i]))
              && (r.Success? ==> exists i :: 0 <= i < |fs| && Openable(fs[i]) && r.value == fs[i].code
                                             && forall j :: 0 <= j < i ==> !Openable(fs[j]))
              && (r.Failure? ==> r.error == AllFeaturesMatchOnly)
  {
    if manifest.None? {
      return Failure(ManifestUnreadable);
    }
    if manifest.value.None? || |manifest.value.value| == 0 {
      return Failure(NoFeatures);
    }
    var fs := manifest.value.value;
    var i := 0;
    while i < |fs|
      invariant 0 <= i <= |fs|
      invariant forall j :: 0 <= j < i ==> !Openable(fs[j])
    {
      var f := fs[i];
      if f.cmds.None? || |f.cmds.value| == 0 {
        return Success(f.code);
      }
      if exists c :: c in f.cmds.value && IsPlainCmd(c) {
        return Success(f.code);
      }
      i := i + 1;
    }
    return Failure(AllFeaturesMatchOnly);
  }

  // ---------------------------------------------------------------------
  // Launch

  /** The match command types whose launch is remembered as "last match". */
  const MatchCmdTypes: set<string> := {"img", "over", "files", "regex"}

  datatype HistoryRecord = RecordLastMatch | RecordCommand(featureCode: string)

  /** What a plugin launch decides: the `code` put into the launch parameter and what history records. */
  datatype LaunchPlan = LaunchPlan(code: string, record: HistoryRecord)

  /**
   * The plugin branch of `launch`: a missing feature code is replaced by the
   * default feature (whose failure is returned); a match command launched
   * with a payload is remembered as the last match instead of the plugin.
   */
  function PlanPluginLaunch(featureCode: string, defaultCode: Result<string, string>, cmdType: string, hasParam: bool)
    : (r: Result<LaunchPlan, string>)
    ensures featureCode != "" ==> r.Success? && r.value.code == featureCode
    ensures featureCode == "" ==> (r.Success? <==> defaultCode.Success?)
    ensures featureCode == "" && r.Success? ==> r.value.code == defaultCode.value
    ensures featureCode == "" && r.Failure? ==> r.error == defaultCode.error
    ensures r.Success? ==> (r.value.record == RecordLastMatch <==> cmdType in MatchCmdTypes && hasParam)
    ensures r.Success? && r.value.record.RecordCommand? ==> r.value.record.featureCode == r.value.code
  {
    var code := if featureCode != "" then Success(featureCode) else defaultCode;
    match code
    case Failure(e) => Failure(e)
    case Success(c) => Success(LaunchPlan(c, if cmdType in MatchCmdTypes && hasParam then RecordLastMatch else RecordCommand(c)))
  }

  /**
   * The record `addToHistory` builds for a `special:` path; any other path
   * uses the record looked up from the installed plugins or applications,
   * and nothing is recorded when that lookup found none.
   */
  function ResolveInfo(path: string, cmdName: string, cmdType: string, lookedUp: Option<Command>): (r: Option<Command>)
    ensures Text.StartsWith(path, "special:") ==>
              r.Some? && r.value.path == path && r.value.kind == "builtin"
              && r.value.name == (if cmdName != "" then cmdName else path)
              && r.value.cmdType == (if cmdType != "" then cmdType else "text")
    ensures !Text.StartsWith(path, "special:") ==> r == lookedUp
  {
    if Text.StartsWith(path, "special:") then
      Some(Command(if cmdName != "" then cmdName else path, path, None, "builtin", "", None, "",
                   if cmdType != "" then cmdType else "text", None, 0, 0))
    else lookedUp
  }

  /** The history `addToHistory` leaves: unchanged when no record was found. */
  function HistoryAfter(history: seq<Command>, path: string, kind: string, cmdName: string, cmdType: string,
                        lookedUp: Option<Command>, now: int): seq<Command>
  {
    match ResolveInfo(path, cmdName, cmdType, lookedUp)
    case None => history
    case Some(info) => UpdatedHistory(history, info, kind, now)
  }

  /** The history a plugin launch leaves, given its plan. */
  function LaunchHistory(history: seq<Command>, path: string, plan: LaunchPlan, cmdName: string, cmdType: string,
                         lookedUp: Option<Command>, now: int): seq<Command>
  {
    match plan.record
    case RecordLastMatch => HistoryAfter(RemoveNamed(history, LastMatchPath, None), LastMatchPath, "plugin", "上次匹配", "text", None, now)
    case RecordCommand(_) => HistoryAfter(history, path, "plugin", cmdName, cmdType, lookedUp, now)
  }

  /**
   * After a match launch, the "last match" entry heads the history (given a
   * clock ahead of the stored entries) and is the only entry with its path.
   */
  lemma LastMatchLaunch(history: seq<Command>, path: string, code: string, cmdName: string, cmdType: string,
                        lookedUp: Option<Command>, now: int)
    requires forall e :: e in history ==> e.lastUsed < now
    ensures var h := LaunchHistory(history, path, LaunchPlan(code, RecordLastMatch), cmdName, cmdType, lookedUp, now);
            |h| > 0 && h[0].path == LastMatchPath && h[0].kind == "builtin"
            && forall k :: 0 < k < |h| ==> h[k].path != LastMatchPath
  {
    var info := ResolveInfo(LastMatchPath, "上次匹配", "text", None).value;
    var cleared := RemoveNamed(history, LastMatchPath, None);
    assert HistoryIndex(cleared, info, "plugin").None?;
    JustUsedFirst(cleared, info, "plugin", now);
    var t := Touched(cleared, info, "plugin", now);
    var rec := Recorded(cleared, info, "plugin", now);
    var sorted := SortByRecency(rec);
    var h := UpdatedHistory(cleared, info, "plugin", now);
    assert h == sorted[..|h|];
    assert t !in cleared;
    assert multiset(rec)[t] == multiset(cleared)[t] + 1 == 1;
    OnlyAtFront(sorted);
    forall k | 0 < k < |h| ensures h[k].path != LastMatchPath {
      assert h[k] == sorted[k] != t;
      assert h[k] in multiset(rec);
      assert h[k] in cleared;
    }
  }

  /** The launch parameter a launch leaves for the plugin: the caller's `param` (or `{}`) and its `code`. */
  datatype LaunchParam = LaunchParam(payload: Option<string>, code: Option<string>)

  /**
   * The state `AppsAPI` keeps across launches: `launchParam`,
   * `lastMatchState` (its search query) and the `command-history` document
   * it reads and writes back.
   */
  class AppsApi {
    var launchParam: Option<LaunchParam>
    var lastMatchQuery: Option<string>
    var history: seq<Command>

    constructor(storedHistory: seq<Command>)
      ensures launchParam.None? && lastMatchQuery.None? && history == storedHistory
    {
      launchParam := None;
      lastMatchQuery := None;
      history := storedHistory;
    }

    /** `addToHistory`: find the entry, refresh it in place or push a new one, sort, cut to 27. */
    method AddToHistory(path: string, kind: string, cmdName: string, cmdType: string, lookedUp: Option<Command>, now: int)
      modifies this
      ensures history == HistoryAfter(old(history), path, kind, cmdName, cmdType, lookedUp, now)
      ensures launchParam == old(launchParam) && lastMatchQuery == old(lastMatchQuery)
    {
      var info := ResolveInfo(path, cmdName, cmdType, lookedUp);
      if info.None? {
        return;
      }
      var h := RecordLaunch(history, info.value, kind, now);
      h := SortByRecency(h);
      if |h| > HistoryLimit {
        h := h[..HistoryLimit];
      }
      history := h;
    }

    /**
     * `launch` of a plugin: resolve the feature code, hand it to the plugin
     * in the launch parameter, and record the launch (a match command with a
     * payload as the last match). Returns the error of a failed default lookup.
     */
    method LaunchPlugin(path: string, featureCode: string, defaultCode: Result<string, string>, cmdType: string,
                        param: Option<string>, searchQuery: string, cmdName: string, lookedUp: Option<Command>, now: int)
      returns (error: Option<string>)
      modifies this
      ensures launchParam.Some? && launchParam.value.payload == param
      ensures var plan := PlanPluginLaunch(featureCode, defaultCode, cmdType, param.Some?);
              (plan.Failure? ==> error == Some(plan.error) && launchParam.value.code.None?
                                 && history == old(history) && lastMatchQuery == old(lastMatchQuery))
              && (plan.Success? ==> error.None? && launchParam.value.code == Some(plan.value.code)
                                    && history == LaunchHistory(old(history), path, plan.value, cmdName, cmdType, lookedUp, now))
              && (plan.Success? && plan.value.record == RecordLastMatch ==> lastMatchQuery == Some(searchQuery))
              && (plan.Success? && plan.value.record.RecordCommand? ==> lastMatchQuery == old(lastMatchQuery))
    {
      launchParam := Some(LaunchParam(param, None));
      var code := featureCode;
      if featureCode == "" {
        match defaultCode
        case Failure(e) =>
          return Some(e);
        case Success(c) =>
          code := c;
      }
      launchParam := Some(LaunchParam(param, Some(code)));
      if cmdType in MatchCmdTypes && param.Some? {
        lastMatchQuery := Some(searchQuery);
        history := RemoveNamed(history, LastMatchPath, None);
        AddToHistory(LastMatchPath, "plugin", "上次匹配", "text", None, now);
      } else {
        AddToHistory(path, "plugin", cmdName, cmdType, lookedUp, now);
      }
      return None;
    }

    /** `launch` of an application or a system setting: no feature code, recorded as an app. */
    method LaunchDirect(path: string, param: Option<string>, cmdName: string, lookedUp: Option<Command>, now: int)
      modifies this
      ensures launchParam == Some(LaunchParam(param, None))
      ensures lastMatchQuery == old(lastMatchQuery)
      ensures history == HistoryAfter(old(history), path, "app", cmdName, "text", lookedUp, now)
    {
      launchParam := Some(LaunchParam(param, None));
      AddToHistory(path, "app", cmdName, "text", lookedUp, now);
    }
  }

  // ---------------------------------------------------------------------
  // The catalogue of `getCommands`

  datatype Catalog = Catalog(commands: seq<Command>, regexCommands: seq<Command>)

  function AppCommand(a: App): Command {
    Command(a.name, a.path, Some(a.icon), "direct", "app", None, "", "", None, 0, 0)
  }

  function SettingCommand(s: Setting): Command {
    Command(s.name, s.uri, None, "direct", "system-setting", None, "", "", None, 0, 0)
  }

  /** The item a `cmds` entry contributes: a text command, or a match command with its `type` and pattern. */
  function CmdItem(p: Plugin, f: Feature, c: Cmd): (e: Command)
    ensures e.kind == "plugin" && e.path == p.path && e.featureCode == Some(f.code)
    ensures e.icon == Some(if f.icon != "" then f.icon else p.logo)
    ensures c.TextCmd? ==> e.name == c.text && e.cmdType == "text" && e.matchCmd.None?
    ensures c.ObjectCmd? ==>
              e.name == (if c.name != "" then c.name else f.explain)
              && e.cmdType == c.kind && e.matchCmd.Some? && e.matchCmd.value.ObjectCmd? && e.matchCmd.value.kind == c.kind
              && e.matchCmd.value.pattern == (if c.pattern != "" then c.pattern else c.regex)
  {
    var icon := Some(if f.icon != "" then f.icon else p.logo);
    match c
    case TextCmd(text) => Command(text, p.path, icon, "plugin", "", Some(f.code), f.explain, "text", None, 0, 0)
    case ObjectCmd(kind, name, pattern, regex, _, _, _, _, _) =>
      Command(if name != "" then name else f.explain, p.path, icon, "plugin", "", Some(f.code), f.explain, kind,
              Some(ObjectCmd(kind, "", if pattern != "" then pattern else regex, "", None, None, "", "", None)), 0, 0)
  }

  predicate TextShaped(e: Command) {
    e.kind == "plugin" && e.cmdType == "text" && e.matchCmd.None?
  }

  predicate MatchShaped(e: Command) {
    e.kind == "plugin" && e.matchCmd.Some? && e.matchCmd.value.ObjectCmd? && e.cmdType == e.matchCmd.value.kind
  }

  function Join(a: Catalog, b: Catalog): Catalog {
    Catalog(a.commands + b.commands, a.regexCommands + b.regexCommands)
  }

  /** A text command lands among the commands, a match command among the match commands. */
  function CmdsCatalog(p: Plugin, f: Feature, cmds: seq<Cmd>): (c: Catalog)
    ensures forall e :: e in c.commands ==> TextShaped(e)
    ensures forall e :: e in c.regexCommands ==> MatchShaped(e)
    ensures |c.commands| + |c.regexCommands| == |cmds|
    decreases |cmds|
  {
    if |cmds| == 0 then Catalog([], [])
    else
      var prev := CmdsCatalog(p, f, cmds[..|cmds| - 1]);
      var last := cmds[|cmds| - 1];
      if last.TextCmd? then prev.(commands := prev.commands + [CmdItem(p, f, last)])
      else prev.(regexCommands := prev.regexCommands + [CmdItem(p, f, last)])
  }

  function FeaturesCatalog(p: Plugin, fs: seq<Feature>): (c: Catalog)
    ensures forall e :: e in c.commands ==> TextShaped(e)
    ensures forall e :: e in c.regexCommands ==> MatchShaped(e)
    decreases |fs|
  {
    if |fs| == 0 then Catalog([], [])
    else
      var last := fs[|fs| - 1];
      Join(FeaturesCatalog(p, fs[..|fs| - 1]), if last.cmds.Some? then CmdsCatalog(p, last, last.cmds.value) else Catalog([], []))
  }

  function PluginsCatalog(ps: seq<Plugin>): (c: Catalog)
    ensures forall e :: e in c.commands ==> TextShaped(e)
    ensures forall e :: e in c.regexCommands ==> MatchShaped(e)
    decreases |ps|
  {
    if |ps| == 0 then Catalog([], [])
    else
      var last := ps[|ps| - 1];
      Join(PluginsCatalog(ps[..|ps| - 1]), if last.features.Some? then FeaturesCatalog(last, last.features.value) else Catalog([], []))
  }

  /**
   * `getCommands`: applications, then system settings, then every text
   * command of every plugin in order; match commands go to `regexCommands`.
   */
  method GetCommands(apps: seq<App>, settings: seq<Setting>, plugins: seq<Plugin>) returns (c: Catalog)
    ensures c.commands == seq(|apps|, i requires 0 <= i < |apps| => AppCommand(apps[i]))
                          + seq(|settings|, i requires 0 <= i < |settings| => SettingCommand(settings[i]))
                          + PluginsCatalog(plugins).commands
    ensures c.regexCommands == PluginsCatalog(plugins).regexCommands
  {
    var commands: seq<Command> := [];
    for i := 0 to |apps|
      invariant commands == seq(i, k requires 0 <= k < i => AppCommand(apps[k]))
    {
      commands := commands + [AppCommand(apps[i])];
    }
    var base := commands;
    for i := 0 to |settings|
      invariant commands == base + seq(i, k requires 0 <= k < i => SettingCommand(settings[k]))
    {
      commands := commands + [SettingCommand(settings[i])];
    }
    var regexCommands: seq<Command> := [];
    var prefix := commands;
    for i := 0 to |plugins|
      invariant commands == prefix + PluginsCatalog(plugins[..i]).commands
      invariant regexCommands == PluginsCatalog(plugins[..i]).regexCommands
    {
      assert plugins[..i + 1][..i] == plugins[..i];
      var p := plugins[i];
      if p.features.Some? {
        var fc := AddFeatures(p, p.features.value);
        commands := commands + fc.commands;
        regexCommands := regexCommands + fc.regexCommands;
      }
    }
    assert plugins[..|plugins|] == plugins;
    c := Catalog(commands, regexCommands);
  }

  /** The loop over one plugin's features. */
  method AddFeatures(p: Plugin, fs: seq<Feature>) returns (c: Catalog)
    ensures c == FeaturesCatalog(p, fs)
  {
    c := Catalog([], []);
    for i := 0 to |fs|
      invariant c == FeaturesCatalog(p, fs[..i])
    {
      assert fs[..i + 1][..i] == fs[..i];
      var f := fs[i];
      var fc := Catalog([], []);
      if f.cmds.Some? {
        fc := AddCmds(p, f, f.cmds.value);
      }
      c := Join(c, fc);
    }
    assert fs[..|fs|] == fs;
  }

  /** The loop over one feature's commands: text commands to the list, match commands to the match list. */
  method AddCmds(p: Plugin, f: Feature, cmds: seq<Cmd>) returns (fc: Catalog)
    ensures fc == CmdsCatalog(p, f, cmds)
  {
    fc := Catalog([], []);
    for j := 0 to |cmds|
      invariant fc == CmdsCatalog(p, f, cmds[..j])
    {
      CmdsStep(p, f, cmds, j);
      var cmd := cmds[j];
      if cmd.TextCmd? {
        fc := fc.(commands := fc.commands + [CmdItem(p, f, cmd)]);
      } else {
        fc := fc.(regexCommands := fc.regexCommands + [CmdItem(p, f, cmd)]);
      }
    }
    assert cmds[..|cmds|] == cmds;
  }

  /** One more command extends the catalogue by its item, on the list its kind picks. */
  lemma CmdsStep(p: Plugin, f: Feature, cmds: seq<Cmd>, j: nat)
    requires j < |cmds|
    ensures var prev := CmdsCatalog(p, f, cmds[..j]);
            CmdsCatalog(p, f, cmds[..j + 1])
            == if cmds[j].TextCmd? then prev.(commands := prev.commands + [CmdItem(p, f, cmds[j])])
               else prev.(regexCommands := prev.regexCommands + [CmdItem(p, f, cmds[j])])
  {
    assert cmds[..j + 1][..j] == cmds[..j];
  }
}
