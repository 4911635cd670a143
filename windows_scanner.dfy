/**
 * The Windows application scanner
 * (src/main/core/commandScanner/windowsScanner.ts): a recursive walk over
 * the Start-menu folders that turns `.lnk` shortcuts into applications,
 * skips development and documentation folders, uninstallers, help files and
 * documents, and drops applications whose paths differ only in case.
 *
 * The file system is an input: a folder tree whose unreadable folders list
 * nothing, each shortcut's target as `readShortcutLink` reports it (None
 * when it throws), and which paths exist.
 */
module WindowsScanner {
  import opened Wrappers
  import Text
  import InternalPlugins
  import Catalogue

  type App = Catalogue.App

  /** One directory entry: a folder, a regular file, or anything else (skipped). */
  datatype Entry =
    | Directory(name: string, readable: bool, children: seq<Entry>)
    | RegularFile(name: string, target: Option<string>)
    | OtherEntry(name: string)

  /** A Start-menu root and what `readdir` lists in it. */
  datatype MenuDir = MenuDir(path: string, readable: bool, entries: seq<Entry>)

  /** `SKIP_FOLDERS` */
  const SkipFolders: seq<string> :=
    ["sdk", "doc", "docs", "samples", "sample", "examples", "example", "demos", "demo", "documentation"]

  /** `SKIP_EXTENSIONS` */
  const SkipExtensions: seq<string> :=
    [".url", ".html", ".htm", ".pdf", ".txt", ".chm", ".doc", ".docx", ".xls", ".xlsx", ".ppt", ".pptx", ".md", ".msc"]

  /** The alternatives of `SKIP_NAME_PATTERN`, matched case-insensitively anywhere in the name. */
  const SkipNameKeywords: seq<string> :=
    ["website", "网站", "帮助", "help", "readme", "read me", "文档", "manual", "license", "documentation",
     "uninstall", "unin", "卸载"]

  // ---------------------------------------------------------------------
  // Filters

  predicate SkippedName(name: string) {
    exists k :: 0 <= k < |SkipNameKeywords| && Text.Contains(Text.Lower(name), SkipNameKeywords[k])
  }

  predicate SkippedTarget(target: string) {
    exists k :: 0 <= k < |SkipExtensions| && Text.EndsWith(Text.Lower(target), SkipExtensions[k])
  }

  /** `shouldSkipShortcut(name, targetPath)`, with "" for an absent target. */
  predicate ShouldSkipShortcut(name: string, target: string) {
    SkippedName(name) || (target != "" && SkippedTarget(target))
  }

  /** Skipping ignores case: lower-casing the name and the target changes nothing. */
  lemma ShouldSkipIgnoresCase(name: string, target: string)
    ensures ShouldSkipShortcut(name, target) == ShouldSkipShortcut(Text.Lower(name), Text.Lower(target))
  {
    Text.LowerIdempotent(name);
    Text.LowerIdempotent(target);
  }

  /** An uninstaller is skipped whatever its target. */
  lemma UninstallerSkipped(target: string)
    ensures ShouldSkipShortcut("Uninstall App", target)
  {
    var lowered := Text.Lower("Uninstall App");
    assert lowered[..4] == "unin";
    Text.ContainsAt(lowered, "unin", 0);
    assert SkipNameKeywords[11] == "unin";
  }

  /** A shortcut to a text document is skipped, in upper case too. */
  lemma DocumentTargetSkipped()
    ensures ShouldSkipShortcut("Tool", "C:\\Tool\\README.TXT")
  {
    var lowered := Text.Lower("C:\\Tool\\README.TXT");
    assert lowered[|lowered| - 4..] == ".txt";
    assert SkipExtensions[4] == ".txt";
  }

  /** A path ending in '.lnk' never has a skipped extension. */
  lemma LnkNotSkippedTarget(path: string)
    requires Text.EndsWith(path, ".lnk")
    ensures !SkippedTarget(path)
  {
    var lowered := Text.Lower(path);
    assert lowered[|lowered| - 1] == 'k';
    forall k | 0 <= k < |SkipExtensions|
      ensures !Text.EndsWith(lowered, SkipExtensions[k])
    {
      var ext := SkipExtensions[k];
      if |ext| <= |lowered| {
        assert lowered[|lowered| - |ext|..][|ext| - 1] != ext[|ext| - 1];
      }
    }
  }

  // ---------------------------------------------------------------------
  // Icon files

  const UnsafeFileChars: string := "<>:\"/\\|?*"

  /** `appName.replace(/[<>:"/\\|?*]/g, '_')` */
  function SafeFileName(name: string): (r: string)
    ensures |r| == |name|
    ensures forall i :: 0 <= i < |r| ==> r[i] !in UnsafeFileChars
    ensures forall i :: 0 <= i < |r| && name[i] !in UnsafeFileChars ==> r[i] == name[i]
  {
    seq(|name|, i requires 0 <= i < |name| => if name[i] in UnsafeFileChars then '_' else name[i])
  }

  /** A safe name is its own safe name. */
  lemma SafeFileNameIdempotent(name: string)
    ensures SafeFileName(SafeFileName(name)) == SafeFileName(name)
  {
  }

  /** `extractIcon`'s result: `<iconDir>/<safe name>.png`, whether or not extraction succeeds. */
  function IconFile(iconDir: string, appName: string): string {
    InternalPlugins.PathJoin(iconDir, SafeFileName(appName) + ".png")
  }

  /** The icon file sits directly in the icon folder: no application name adds a path segment. */
  lemma IconFileInIconDir(iconDir: string, appName: string)
    ensures var parts := Text.Split(IconFile(iconDir, appName), '/');
            parts[|parts| - 1] == SafeFileName(appName) + ".png"
  {
    var seg := SafeFileName(appName) + ".png";
    assert '/' !in seg by {
      forall i | 0 <= i < |seg| ensures seg[i] != '/' {
        if i < |appName| {
          assert seg[i] == SafeFileName(appName)[i];
          assert '/' == UnsafeFileChars[4];
        }
      }
    }
    InternalPlugins.SplitLastSegment(iconDir, seg);
    assert IconFile(iconDir, appName) == iconDir + ("/" + seg);
  }

  // ---------------------------------------------------------------------
  // The walk

  /** `path.basename(name, '.lnk')` for an entry name ending in '.lnk'. */
  function LnkBaseName(name: string): (r: string)
    requires Text.EndsWith(name, ".lnk")
    ensures name == r + ".lnk"
  {
    name[..|name| - 4]
  }

  /** The path an application is launched by: the trimmed target when it exists, else the shortcut itself. */
  function AppPath(fullPath: string, targetPath: string, isPresent: string -> bool): (r: string)
    ensures r == targetPath || r == fullPath
    ensures r == targetPath && r != fullPath ==> targetPath != "" && isPresent(targetPath)
    ensures targetPath != "" && isPresent(targetPath) ==> r == targetPath
  {
    if targetPath != "" && isPresent(targetPath) then targetPath else fullPath
  }

  /** The trimmed target of a readable shortcut, "" otherwise. */
  function TargetPath(target: Option<string>): string {
    match target
    case None => ""
    case Some(t) => Text.Trim(t)
  }

  /** What one `.lnk` file in `dirPath` contributes: its application, or nothing when it is filtered out. */
  function ShortcutApp(iconDir: string, dirPath: string, name: string, target: Option<string>,
                       isPresent: string -> bool): (r: seq<App>)
    requires Text.EndsWith(name, ".lnk")
    ensures |r| <= 1
    ensures |r| == 1 ==>
              && r[0].name == LnkBaseName(name)
              && !ShouldSkipShortcut(LnkBaseName(name), TargetPath(target))
              && r[0].path == AppPath(InternalPlugins.PathJoin(dirPath, name), TargetPath(target), isPresent)
  {
    var appName := LnkBaseName(name);
    if ShouldSkipShortcut(appName, "") then []
    else
      var targetPath := TargetPath(target);
      var fullPath := InternalPlugins.PathJoin(dirPath, name);
      if ShouldSkipShortcut(appName, targetPath) then []
      else [Catalogue.App(appName, AppPath(fullPath, targetPath, isPresent), IconFile(iconDir, appName))]
  }

  /** What one entry of `dirPath` contributes. */
  function ScanEntry(iconDir: string, dirPath: string, entry: Entry, isPresent: string -> bool): seq<App>
    decreases entry
  {
    match entry
    case Directory(name, readable, children) =>
      if Text.Lower(name) in SkipFolders || !readable then []
      else ScanEntries(iconDir, InternalPlugins.PathJoin(dirPath, name), children, isPresent)
    case RegularFile(name, target) =>
      if Text.EndsWith(name, ".lnk") then ShortcutApp(iconDir, dirPath, name, target, isPresent) else []
    case OtherEntry(_) => []
  }

  /** What `scanDirectory` appends for a folder listing, in listing order. */
  function ScanEntries(iconDir: string, dirPath: string, entries: seq<Entry>, isPresent: string -> bool): seq<App>
    decreases entries
  {
    if |entries| == 0 then []
    else ScanEntries(iconDir, dirPath, entries[..|entries| - 1], isPresent)
         + ScanEntry(iconDir, dirPath, entries[|entries| - 1], isPresent)
  }

  /** A skipped folder contributes nothing, whatever it holds. */
  lemma SkippedFolderContributesNothing(iconDir: string, dirPath: string, name: string, children: seq<Entry>,
                                        isPresent: string -> bool)
    requires Text.Lower(name) in SkipFolders
    ensures ScanEntry(iconDir, dirPath, Directory(name, true, children), isPresent) == []
  {
  }

  /** What every scanned application satisfies: an unfiltered name, an unfiltered path, its icon file. */
  predicate Admitted(iconDir: string, a: App) {
    !SkippedName(a.name) && !SkippedTarget(a.path) && a.icon == IconFile(iconDir, a.name)
  }

  lemma ShortcutAppAdmitted(iconDir: string, dirPath: string, name: string, target: Option<string>,
                            isPresent: string -> bool)
    requires Text.EndsWith(name, ".lnk")
    ensures forall a :: a in ShortcutApp(iconDir, dirPath, name, target, isPresent) ==> Admitted(iconDir, a)
  {
    var r := ShortcutApp(iconDir, dirPath, name, target, isPresent);
    if |r| == 1 {
      var fullPath := InternalPlugins.PathJoin(dirPath, name);
      if r[0].path == fullPath {
        assert Text.EndsWith(fullPath, ".lnk") by {
          assert fullPath[|fullPath| - 4..] == name[|name| - 4..];
        }
        LnkNotSkippedTarget(fullPath);
      }
    }
  }

  /** No scanned application has a filtered name or a filtered extension, and each has its icon file. */
  lemma {:induction false} ScanEntryAdmitted(iconDir: string, dirPath: string, entry: Entry, isPresent: string -> bool)
    ensures forall a :: a in ScanEntry(iconDir, dirPath, entry, isPresent) ==> Admitted(iconDir, a)
    decreases entry
  {
    match entry
    case Directory(name, readable, children) =>
      if Text.Lower(name) !in SkipFolders && readable {
        ScanEntriesAdmitted(iconDir, InternalPlugins.PathJoin(dirPath, name), children, isPresent);
      }
    case RegularFile(name, target) =>
      if Text.EndsWith(name, ".lnk") {
        ShortcutAppAdmitted(iconDir, dirPath, name, target, isPresent);
      }
    case OtherEntry(_) =>
  }

  lemma {:induction false} ScanEntriesAdmitted(iconDir: string, dirPath: string, entries: seq<Entry>,
                                                isPresent: string -> bool)
    ensures forall a :: a in ScanEntries(iconDir, dirPath, entries, isPresent) ==> Admitted(iconDir, a)
    decreases entries
  {
    if |entries| > 0 {
      ScanEntriesAdmitted(iconDir, dirPath, entries[..|entries| - 1], isPresent);
      ScanEntryAdmitted(iconDir, dirPath, entries[|entries| - 1], isPresent);
    }
  }

  /** `scanDirectory`: appends to `apps` what the listing contributes; an unreadable folder adds nothing. */
  method ScanDirectory(iconDir: string, dirPath: string, readable: bool, entries: seq<Entry>,
                       isPresent: string -> bool, apps: seq<App>)
    returns (result: seq<App>)
    ensures readable ==> result == apps + ScanEntries(iconDir, dirPath, entries, isPresent)
    ensures !readable ==> result == apps
    decreases entries
  {
    result := apps;
    if !readable {
      return;
    }
    var i := 0;
    while i < |entries|
      invariant 0 <= i <= |entries|
      invariant result == apps + ScanEntries(iconDir, dirPath, entries[..i], isPresent)
    {
      assert entries[..i + 1][..i] == entries[..i];
      match entries[i] {
        case Directory(name, readableChild, children) =>
          if Text.Lower(name) !in SkipFolders {
            result := ScanDirectory(iconDir, InternalPlugins.PathJoin(dirPath, name), readableChild, children,
                                    isPresent, result);
          }
        case RegularFile(name, target) =>
          if Text.EndsWith(name, ".lnk") {
            result := result + ShortcutApp(iconDir, dirPath, name, target, isPresent);
          }
        case OtherEntry(_) =>
      }
      i := i + 1;
    }
    assert entries[..i] == entries;
  }

  // ---------------------------------------------------------------------
  // Dedupe

  function LowerPath(a: App): string {
    Text.Lower(a.path)
  }

  /** `x` is the first application of `apps` with its key. */
  predicate FirstOfItsKey(apps: seq<App>, key: App -> string, x: App) {
    exists i :: 0 <= i < |apps| && apps[i] == x && forall j :: 0 <= j < i ==> key(apps[j]) != key(x)
  }

  /** Some application of `s` has key `k` (`Map.has`). */
  predicate HasKey(s: seq<App>, key: App -> string, k: string) {
    exists i :: 0 <= i < |s| && key(s[i]) == k
  }

  predicate DistinctKeys(s: seq<App>, key: App -> string) {
    forall i, j :: 0 <= i < j < |s| ==> key(s[i]) != key(s[j])
  }

  /** A `Map` keyed by `key`, filled in order without overwriting, read back in insertion order. */
  function Dedupe(apps: seq<App>, key: App -> string): (r: seq<App>)
    ensures |r| <= |apps|
    decreases |apps|
  {
    if |apps| == 0 then []
    else
      var d := Dedupe(apps[..|apps| - 1], key);
      var last := apps[|apps| - 1];
      if HasKey(d, key, key(last)) then d else d + [last]
  }

  /** The kept applications have pairwise-distinct keys, and every key of the input is kept. */
  lemma {:induction false} DedupeDistinct(apps: seq<App>, key: App -> string)
    ensures DistinctKeys(Dedupe(apps, key), key)
    ensures forall i :: 0 <= i < |apps| ==> HasKey(Dedupe(apps, key), key, key(apps[i]))
    decreases |apps|
  {
    if |apps| > 0 {
      var prefix := apps[..|apps| - 1];
      var last := apps[|apps| - 1];
      var d := Dedupe(prefix, key);
      DedupeDistinct(prefix, key);
      if !HasKey(d, key, key(last)) {
        var r := d + [last];
        forall i | 0 <= i < |apps| ensures HasKey(r, key, key(apps[i])) {
          if i < |apps| - 1 {
            assert apps[i] == prefix[i];
            assert HasKey(d, key, key(prefix[i]));
            var j :| 0 <= j < |d| && key(d[j]) == key(apps[i]);
            assert key(r[j]) == key(apps[i]);
          } else {
            assert key(r[|d|]) == key(apps[i]);
          }
        }
      } else {
        forall i | 0 <= i < |apps| - 1 ensures HasKey(d, key, key(apps[i])) {
          assert apps[i] == prefix[i];
        }
      }
    }
  }

  lemma HasKeyAppend(s: seq<App>, key: App -> string, a: App, k: string)
    ensures HasKey(s + [a], key, k) <==> HasKey(s, key, k) || key(a) == k
  {
    if HasKey(s, key, k) {
      var i :| 0 <= i < |s| && key(s[i]) == k;
      assert (s + [a])[i] == s[i];
    }
    if key(a) == k {
      assert (s + [a])[|s|] == a;
    }
    if HasKey(s + [a], key, k) && key(a) != k {
      var i :| 0 <= i < |s + [a]| && key((s + [a])[i]) == k;
      assert (s + [a])[i] == s[i];
    }
  }

  /** Each application kept is the first of the input with its key. */
  lemma {:induction false} DedupeKeepsFirst(apps: seq<App>, key: App -> string)
    ensures forall k :: 0 <= k < |Dedupe(apps, key)| ==> FirstOfItsKey(apps, key, Dedupe(apps, key)[k])
    decreases |apps|
  {
    if |apps| > 0 {
      var prefix := apps[..|apps| - 1];
      var last := apps[|apps| - 1];
      var d := Dedupe(prefix, key);
      DedupeKeepsFirst(prefix, key);
      DedupeDistinct(prefix, key);
      forall k | 0 <= k < |d| ensures FirstOfItsKey(prefix + [last], key, d[k]) {
        FirstStaysFirst(prefix, last, key, d[k]);
      }
      if !HasKey(d, key, key(last)) {
        NewKeyIsFirst(prefix, last, key, d);
      }
      assert apps == prefix + [last];
    }
  }

  lemma FirstStaysFirst(prefix: seq<App>, last: App, key: App -> string, x: App)
    requires FirstOfItsKey(prefix, key, x)
    ensures FirstOfItsKey(prefix + [last], key, x)
  {
    var i :| 0 <= i < |prefix| && prefix[i] == x && forall j :: 0 <= j < i ==> key(prefix[j]) != key(x);
    assert (prefix + [last])[i] == x;
    assert forall j :: 0 <= j < i ==> (prefix + [last])[j] == prefix[j];
  }

  lemma NewKeyIsFirst(prefix: seq<App>, last: App, key: App -> string, d: seq<App>)
    requires forall i :: 0 <= i < |prefix| ==> HasKey(d, key, key(prefix[i]))
    requires !HasKey(d, key, key(last))
    ensures FirstOfItsKey(prefix + [last], key, last)
  {
    var apps := prefix + [last];
    assert apps[|prefix|] == last;
    forall j | 0 <= j < |prefix| ensures key(apps[j]) != key(last) {
      assert apps[j] == prefix[j];
      assert HasKey(d, key, key(prefix[j]));
    }
  }

  /** The dedupe loop of `scanApplications`, with `out` the Map's values in insertion order. */
  method DedupeApps(apps: seq<App>) returns (out: seq<App>)
    ensures out == Dedupe(apps, LowerPath)
    ensures DistinctKeys(out, LowerPath)
  {
    var unique: map<string, App> := map[];
    out := [];
    var i := 0;
    while i < |apps|
      invariant 0 <= i <= |apps|
      invariant out == Dedupe(apps[..i], LowerPath)
      invariant forall k :: k in unique <==> HasKey(out, LowerPath, k)
    {
      assert apps[..i + 1][..i] == apps[..i];
      var lowerPath := LowerPath(apps[i]);
      if lowerPath !in unique {
        forall k ensures HasKey(out + [apps[i]], LowerPath, k) <==> HasKey(out, LowerPath, k) || lowerPath == k {
          HasKeyAppend(out, LowerPath, apps[i], k);
        }
        unique := unique[lowerPath := apps[i]];
        out := out + [apps[i]];
      }
      i := i + 1;
    }
    assert apps[..i] == apps;
    DedupeDistinct(apps, LowerPath);
  }

  // ---------------------------------------------------------------------
  // The scan

  /** Every Start-menu root's contribution, in order. */
  function ScanMenus(iconDir: string, menus: seq<MenuDir>, isPresent: string -> bool): seq<App>
    decreases |menus|
  {
    if |menus| == 0 then []
    else
      var m := menus[|menus| - 1];
      ScanMenus(iconDir, menus[..|menus| - 1], isPresent)
      + (if m.readable then ScanEntries(iconDir, m.path, m.entries, isPresent) else [])
  }

  lemma {:induction false} ScanMenusAdmitted(iconDir: string, menus: seq<MenuDir>, isPresent: string -> bool)
    ensures forall a :: a in ScanMenus(iconDir, menus, isPresent) ==> Admitted(iconDir, a)
    decreases |menus|
  {
    if |menus| > 0 {
      var m := menus[|menus| - 1];
      ScanMenusAdmitted(iconDir, menus[..|menus| - 1], isPresent);
      ScanEntriesAdmitted(iconDir, m.path, m.entries, isPresent);
    }
  }

  /** `path.join(os.tmpdir(), 'ProcessIcon')` */
  function IconDir(tmpDir: string): string {
    InternalPlugins.PathJoin(tmpDir, "ProcessIcon")
  }

  /** `scanApplications`: every Start-menu root scanned in order, then deduplicated by lower-cased path. */
  method ScanApplications(tmpDir: string, menus: seq<MenuDir>, isPresent: string -> bool) returns (r: seq<App>)
    ensures r == Dedupe(ScanMenus(IconDir(tmpDir), menus, isPresent), LowerPath)
  {
    var iconDir := IconDir(tmpDir);
    var apps: seq<App> := [];
    var i := 0;
    while i < |menus|
      invariant 0 <= i <= |menus|
      invariant apps == ScanMenus(iconDir, menus[..i], isPresent)
    {
      assert menus[..i + 1][..i] == menus[..i];
      apps := ScanDirectory(iconDir, menus[i].path, menus[i].readable, menus[i].entries, isPresent, apps);
      i := i + 1;
    }
    assert menus[..i] == menus;
    r := DedupeApps(apps);
  }

  /**
   * The scanner's result: pairwise-distinct lower-cased paths, each the first
   * of its path in walk order, none filtered, each with its icon file.
   */
  lemma ScanResult(tmpDir: string, menus: seq<MenuDir>, isPresent: string -> bool)
    ensures var all := ScanMenus(IconDir(tmpDir), menus, isPresent);
            var r := Dedupe(all, LowerPath);
            DistinctKeys(r, LowerPath)
            && (forall k :: 0 <= k < |r| ==> FirstOfItsKey(all, LowerPath, r[k]) && Admitted(IconDir(tmpDir), r[k]))
  {
    var all := ScanMenus(IconDir(tmpDir), menus, isPresent);
    ScanMenusAdmitted(IconDir(tmpDir), menus, isPresent);
    DedupeDistinct(all, LowerPath);
    DedupeKeepsFirst(all, LowerPath);
  }
}
