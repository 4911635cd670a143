/**
 * The user's own launch entries (src/main/api/renderer/localShortcuts.ts):
 * files, folders and applications added by path or through a file dialog,
 * kept as one list in the host store under 'local-shortcuts'.
 *
 * The file system, the dialog, the plist reader, pinyin, `path.basename`,
 * `encodeURIComponent`, the clock and the random id are inputs: what `stat`
 * said, what the dialog returned, the bundle's `CFBundleIconFile`, which
 * candidate files exist, the derived names and the new id.
 */
module LocalShortcuts {
  import opened Wrappers
  import Text
  import Lists
  import InternalPlugins

  datatype ShortcutType = File | Folder | App

  /** One `LocalShortcut` record. */
  datatype LocalShortcut = LocalShortcut(
    id: string,
    name: string,
    path: string,
    kind: ShortcutType,
    icon: Option<string>,
    keywords: seq<string>,
    pinyin: string,
    pinyinAbbr: string,
    addedAt: int)

  /** The `{ success, error? }` reply of every handler. */
  datatype Reply = Ok | Err(error: string)

  const NoMainWindow: string := "主窗口未初始化"
  const Cancelled: string := "用户取消选择"
  const AlreadyExists: string := "该项目已存在"
  const NotFound: string := "未找到该项目"

  // ---------------------------------------------------------------------
  // Type classification

  /** A directory ending in '.app' on macOS is an application bundle. */
  predicate IsMacApp(platform: string, path: string, isDirectory: bool) {
    isDirectory && platform == "darwin" && Text.EndsWith(path, ".app")
  }

  /** A file ending in '.exe' or '.lnk' on Windows is an application. */
  predicate IsWindowsApp(platform: string, path: string, isDirectory: bool) {
    !isDirectory && platform == "win32" && (Text.EndsWith(path, ".exe") || Text.EndsWith(path, ".lnk"))
  }

  /** The type of a selected path, from whether `stat` calls it a directory. */
  function Classify(platform: string, path: string, isDirectory: bool): (r: ShortcutType)
    ensures r == App <==> IsMacApp(platform, path, isDirectory) || IsWindowsApp(platform, path, isDirectory)
    ensures r == Folder <==> isDirectory && !IsMacApp(platform, path, isDirectory)
    ensures r == File <==> !isDirectory && !IsWindowsApp(platform, path, isDirectory)
  {
    if isDirectory then
      if platform == "darwin" && Text.EndsWith(path, ".app") then App else Folder
    else
      if platform == "win32" && (Text.EndsWith(path, ".exe") || Text.EndsWith(path, ".lnk")) then App else File
  }

  /** Off macOS and Windows nothing is an application: directories are folders and the rest files. */
  lemma ClassifyElsewhere(platform: string, path: string, isDirectory: bool)
    requires platform != "darwin" && platform != "win32"
    ensures Classify(platform, path, isDirectory) == (if isDirectory then Folder else File)
  {
  }

  // ---------------------------------------------------------------------
  // Icons

  const IconScheme: string := "ztools-icon://"

  const GenericAppIcon: string :=
    "/System/Library/CoreServices/CoreTypes.bundle/Contents/Resources/GenericApplicationIcon.icns"

  /**
   * The icon stored with a new entry: an application gets `ztools-icon://`
   * and the encoded icon file (the bundle's icon on macOS, the selected path
   * elsewhere); files and folders get the system's file icon, or none when
   * it cannot be read.
   */
  function ChooseIcon(kind: ShortcutType, platform: string, selectedPath: string, macIconFile: string,
                      fileIcon: Option<string>, encode: string -> string): (r: Option<string>)
    ensures kind == App ==> r.Some? && Text.StartsWith(r.value, IconScheme)
    ensures kind != App ==> r == fileIcon
  {
    if kind == App then
      var target := if platform == "darwin" then macIconFile else selectedPath;
      Some(IconScheme + encode(target))
    else
      fileIcon
  }

  /** The file an icon URL names: its decoded remainder after the scheme. */
  function IconTarget(icon: string, decode: string -> string): Option<string> {
    if Text.StartsWith(icon, IconScheme) then Some(decode(icon[|IconScheme|..])) else None
  }

  /**
   * Decoding an application's icon URL gives back the bundle's icon file on
   * macOS and the selected path elsewhere.
   */
  lemma AppIconNamesItsFile(platform: string, selectedPath: string, macIconFile: string, fileIcon: Option<string>,
                            encode: string -> string, decode: string -> string)
    requires forall x :: decode(encode(x)) == x
    ensures var r := ChooseIcon(App, platform, selectedPath, macIconFile, fileIcon, encode);
            r.Some? && IconTarget(r.value, decode) == Some(if platform == "darwin" then macIconFile else selectedPath)
  {
    var target := if platform == "darwin" then macIconFile else selectedPath;
    assert (IconScheme + encode(target))[|IconScheme|..] == encode(target);
  }

  /** `<app>/Contents/Resources/<CFBundleIconFile>` */
  function IconBase(appPath: string, iconFileName: string): string {
    InternalPlugins.PathJoin(InternalPlugins.PathJoin(InternalPlugins.PathJoin(appPath, "Contents"), "Resources"), iconFileName)
  }

  /** The files tried for a bundle icon, in order. */
  function IconCandidates(base: string): (r: seq<string>)
    ensures |r| == 4 && r[0] == base
    ensures forall i :: 1 <= i < 4 ==> Text.StartsWith(r[i], base) && |r[i]| > |base|
  {
    [base, base + ".icns", base + ".tiff", base + ".png"]
  }

  /** The icon `getMacAppIconFile` settles on: the first existing candidate, else the generic icon. */
  function MacIconChoice(appPath: string, bundleIconFile: Option<string>, isPresent: string -> bool): string {
    if bundleIconFile.None? || bundleIconFile.value == "" then GenericAppIcon
    else
      var candidates := IconCandidates(IconBase(appPath, bundleIconFile.value));
      match Lists.FirstIndex(candidates, isPresent)
      case Some(i) => candidates[i]
      case None => GenericAppIcon
  }

  /**
   * The chosen icon is an existing candidate with no existing candidate
   * before it, or the generic icon when the bundle names none or none exists.
   */
  lemma MacIconIsFirstPresent(appPath: string, name: string, isPresent: string -> bool)
    requires name != ""
    ensures var candidates := IconCandidates(IconBase(appPath, name));
            var r := MacIconChoice(appPath, Some(name), isPresent);
            (r == GenericAppIcon && forall i :: 0 <= i < 4 ==> !isPresent(candidates[i]))
            || (exists i :: 0 <= i < 4 && r == candidates[i] && isPresent(r)
                  && forall j :: 0 <= j < i ==> !isPresent(candidates[j]))
  {
  }

  /**
   * `getMacAppIconFile`: without a readable `CFBundleIconFile` the generic
   * icon; otherwise the first of base, base.icns, base.tiff and base.png that
   * exists, else the generic icon.
   */
  method MacAppIconFile(appPath: string, bundleIconFile: Option<string>, isPresent: string -> bool)
    returns (icon: string)
    ensures icon == MacIconChoice(appPath, bundleIconFile, isPresent)
  {
    if bundleIconFile.None? || bundleIconFile.value == "" {
      return GenericAppIcon;
    }
    var candidates := IconCandidates(IconBase(appPath, bundleIconFile.value));
    var i := 0;
    while i < |candidates|
      invariant 0 <= i <= |candidates|
      invariant forall j :: 0 <= j < i ==> !isPresent(candidates[j])
    {
      if isPresent(candidates[i]) {
        return candidates[i];
      }
      i := i + 1;
    }
    return GenericAppIcon;
  }

  // ---------------------------------------------------------------------
  // The list edits

  predicate HasPath(list: seq<LocalShortcut>, path: string) {
    exists k :: 0 <= k < |list| && list[k].path == path
  }

  predicate DistinctPaths(list: seq<LocalShortcut>) {
    forall i, j :: 0 <= i < j < |list| ==> list[i].path != list[j].path
  }

  /** The add path: an entry whose path is already listed is refused, otherwise appended. */
  function AddToList(list: seq<LocalShortcut>, item: LocalShortcut): (r: Result<seq<LocalShortcut>, string>)
    ensures r.Failure? <==> HasPath(list, item.path)
    ensures r.Failure? ==> r.error == AlreadyExists
    ensures r.Success? ==> |r.value| == |list| + 1 && r.value[..|list|] == list && r.value[|list|] == item
  {
    if exists k :: 0 <= k < |list| && list[k].path == item.path then Failure(AlreadyExists)
    else Success(list + [item])
  }

  /** Adding keeps the paths of the list pairwise distinct. */
  lemma AddKeepsPathsDistinct(list: seq<LocalShortcut>, item: LocalShortcut)
    requires DistinctPaths(list)
    ensures AddToList(list, item).Success? ==> DistinctPaths(AddToList(list, item).value)
  {
  }

  /** Adding the same path twice: the second add is refused. */
  lemma AddTwiceRefused(list: seq<LocalShortcut>, item: LocalShortcut, again: LocalShortcut)
    requires AddToList(list, item).Success? && again.path == item.path
    ensures AddToList(AddToList(list, item).value, again) == Failure(AlreadyExists)
  {
    var l := AddToList(list, item).value;
    assert l[|list|].path == again.path;
  }

  /** The filter test of a delete: the entry's id is not the one removed. */
  function OtherId(id: string): LocalShortcut -> bool {
    (s: LocalShortcut) => s.id != id
  }

  /** `deleteShortcut`: every entry with the id goes; nothing to remove is an error. */
  function DeleteFromList(list: seq<LocalShortcut>, id: string): (r: Result<seq<LocalShortcut>, string>)
    ensures r.Failure? <==> forall k :: 0 <= k < |list| ==> list[k].id != id
    ensures r.Failure? ==> r.error == NotFound
    ensures r.Success? ==> |r.value| < |list| && forall s :: s in r.value <==> s in list && s.id != id
  {
    var filtered := Lists.Filter(list, OtherId(id));
    Lists.FilterKeepsLength(list, OtherId(id));
    if |filtered| == |list| then Failure(NotFound) else Success(filtered)
  }

  /** Deleting an entry just added under a fresh id gives back the list it was added to. */
  lemma AddThenDelete(list: seq<LocalShortcut>, item: LocalShortcut)
    requires AddToList(list, item).Success?
    requires forall k :: 0 <= k < |list| ==> list[k].id != item.id
    ensures DeleteFromList(AddToList(list, item).value, item.id) == Success(list)
  {
    var keep := OtherId(item.id);
    assert AddToList(list, item).value == list + [item];
    Lists.FilterAppend(list, item, keep);
    Lists.FilterAll(list, keep);
    assert !keep(item);
    assert Lists.Filter(list + [item], keep) == list;
  }

  /** After a delete no entry has the id, so deleting it again fails. */
  lemma DeleteTwiceFails(list: seq<LocalShortcut>, id: string)
    requires DeleteFromList(list, id).Success?
    ensures DeleteFromList(DeleteFromList(list, id).value, id) == Failure(NotFound)
  {
    var l := DeleteFromList(list, id).value;
    forall k | 0 <= k < |l| ensures l[k].id != id {
      assert l[k] in l;
    }
  }

  /** `getAllShortcuts`: the stored list, or [] when nothing is stored or the read failed. */
  function AllShortcuts(stored: Option<seq<LocalShortcut>>): (r: seq<LocalShortcut>)
    ensures stored.None? ==> r == []
    ensures stored.Some? ==> r == stored.value
  {
    stored.UnwrapOr([])
  }

  /** `shell.openPath`: an empty string means it opened, anything else is the error. */
  function OpenReply(openPathResult: string): (r: Reply)
    ensures r == Ok <==> openPathResult == ""
    ensures r.Err? ==> r.error == openPathResult
  {
    if openPathResult != "" then Err(openPathResult) else Ok
  }

  /** The record the add path builds for a selected path. */
  function NewShortcut(id: string, fileName: string, selectedPath: string, kind: ShortcutType, icon: Option<string>,
                       pinyin: string, pinyinAbbr: string, now: int): LocalShortcut {
    LocalShortcut(id, fileName, selectedPath, kind, icon, [fileName], pinyin, pinyinAbbr, now)
  }

  /**
   * What one add stores and replies, given what `stat` reported (the path is
   * a directory, or the error it threw), the item it built, the list read
   * before and the error `dbPut` threw, if any.
   */
  function AddOutcome(list: seq<LocalShortcut>, item: LocalShortcut, putError: Option<string>): Result<seq<LocalShortcut>, string> {
    match AddToList(list, item)
    case Failure(e) => Failure(e)
    case Success(l) => if putError.Some? then Failure(putError.value) else Success(l)
  }

  // ---------------------------------------------------------------------
  // The API object

  /** `LocalShortcutsAPI`, with the stored list as the value `dbGet('local-shortcuts')` returns. */
  class LocalShortcutsAPI {
    var hasMainWindow: bool
    var stored: Option<seq<LocalShortcut>>

    constructor(stored: Option<seq<LocalShortcut>>)
      ensures !hasMainWindow && this.stored == stored
    {
      hasMainWindow := false;
      this.stored := stored;
    }

    /** `init` */
    method Init()
      modifies this`hasMainWindow
      ensures hasMainWindow
    {
      hasMainWindow := true;
    }

    /** `getAllShortcuts` */
    method GetAllShortcuts() returns (r: seq<LocalShortcut>)
      ensures r == AllShortcuts(stored)
      ensures stored.None? ==> r == []
    {
      match stored
      case None => r := [];
      case Some(l) => r := l;
    }

    /**
     * `addShortcutByPath`: a failed `stat` is reported; otherwise the entry is
     * typed, given its icon and appended unless its path is already listed.
     * On macOS an application's icon file is looked up in its bundle.
     */
    method AddShortcutByPath(selectedPath: string, stat: Result<bool, string>, platform: string,
                             bundleIconFile: Option<string>, isPresent: string -> bool, fileIcon: Option<string>,
                             encode: string -> string, fileName: string, id: string, pinyin: string, pinyinAbbr: string,
                             now: int, putError: Option<string>)
      returns (reply: Reply)
      modifies this`stored
      ensures stat.Failure? ==> reply == Err(stat.error) && stored == old(stored)
      ensures stat.Success? ==>
                var kind := Classify(platform, selectedPath, stat.value);
                var icon := ChooseIcon(kind, platform, selectedPath, MacIconChoice(selectedPath, bundleIconFile, isPresent),
                                       fileIcon, encode);
                var item := NewShortcut(id, fileName, selectedPath, kind, icon, pinyin, pinyinAbbr, now);
                match AddOutcome(AllShortcuts(old(stored)), item, putError)
                case Failure(e) => reply == Err(e) && stored == old(stored)
                case Success(l) => reply == Ok && stored == Some(l)
    {
      if stat.Failure? {
        return Err(stat.error);
      }
      var kind := Classify(platform, selectedPath, stat.value);
      var macIconFile := "";
      if kind == App && platform == "darwin" {
        macIconFile := MacAppIconFile(selectedPath, bundleIconFile, isPresent);
      }
      var icon := ChooseIcon(kind, platform, selectedPath, macIconFile, fileIcon, encode);
      assert icon == ChooseIcon(kind, platform, selectedPath, MacIconChoice(selectedPath, bundleIconFile, isPresent),
                                fileIcon, encode);
      var item := NewShortcut(id, fileName, selectedPath, kind, icon, pinyin, pinyinAbbr, now);
      var list := GetAllShortcuts();
      var added := AddToList(list, item);
      if added.Failure? {
        return Err(added.error);
      }
      if putError.Some? {
        return Err(putError.value);
      }
      stored := Some(added.value);
      reply := Ok;
    }

    /**
     * `addShortcut`: without a main window, or when the dialog is cancelled
     * or returns no path, nothing is added; otherwise the first selected path
     * is added as `addShortcutByPath` adds it.
     */
    method AddShortcut(selected: Option<seq<string>>, stat: Result<bool, string>, platform: string,
                       bundleIconFile: Option<string>, isPresent: string -> bool, fileIcon: Option<string>,
                       encode: string -> string, fileName: string, id: string, pinyin: string, pinyinAbbr: string,
                       now: int, putError: Option<string>)
      returns (reply: Reply)
      modifies this`stored
      ensures !hasMainWindow ==> reply == Err(NoMainWindow) && stored == old(stored)
      ensures hasMainWindow && (selected.None? || |selected.value| == 0) ==> reply == Err(Cancelled) && stored == old(stored)
      ensures hasMainWindow && selected.Some? && |selected.value| > 0 && stat.Failure? ==>
                reply == Err(stat.error) && stored == old(stored)
      ensures reply == Ok ==>
                hasMainWindow && selected.Some? && |selected.value| > 0 && stat.Success?
                && stored.Some? && |stored.value| == |AllShortcuts(old(stored))| + 1
                && stored.value[|stored.value| - 1].path == selected.value[0]
                && !HasPath(AllShortcuts(old(stored)), selected.value[0])
      ensures hasMainWindow && selected.Some? && |selected.value| > 0 && stat.Success? ==>
                var path := selected.value[0];
                var kind := Classify(platform, path, stat.value);
                var icon := ChooseIcon(kind, platform, path, MacIconChoice(path, bundleIconFile, isPresent), fileIcon, encode);
                var item := NewShortcut(id, fileName, path, kind, icon, pinyin, pinyinAbbr, now);
                match AddOutcome(AllShortcuts(old(stored)), item, putError)
                case Failure(e) => reply == Err(e) && stored == old(stored)
                case Success(l) => reply == Ok && stored == Some(l)
    {
      if !hasMainWindow {
        return Err(NoMainWindow);
      }
      if selected.None? || |selected.value| == 0 {
        return Err(Cancelled);
      }
      reply := AddShortcutByPath(selected.value[0], stat, platform, bundleIconFile, isPresent, fileIcon, encode,
                                 fileName, id, pinyin, pinyinAbbr, now, putError);
    }

    /** `deleteShortcut` */
    method DeleteShortcut(id: string, putError: Option<string>) returns (reply: Reply)
      modifies this`stored
      ensures match DeleteFromList(AllShortcuts(old(stored)), id)
              case Failure(e) => reply == Err(e) && stored == old(stored)
              case Success(l) =>
                if putError.Some? then reply == Err(putError.value) && stored == old(stored)
                else reply == Ok && stored == Some(l)
      ensures reply == Ok ==> forall s :: s in stored.value ==> s.id != id
    {
      var list := GetAllShortcuts();
      var filtered := DeleteFromList(list, id);
      if filtered.Failure? {
        return Err(filtered.error);
      }
      if putError.Some? {
        return Err(putError.value);
      }
      stored := Some(filtered.value);
      reply := Ok;
    }
  }
}
