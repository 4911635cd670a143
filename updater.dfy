/**
 * The self-updater front end (src/main/api/updater.ts): finding the newest
 * `ztools_update_<version>.txt` in the release folder, deciding whether it
 * is an update, checking the update record, choosing the package for this
 * platform and building the command line of the external updater. The
 * folder listing, downloads, the archive and process spawning are inputs.
 */
module Updater {
  import opened Wrappers
  import Versions
  import InternalPlugins

  /** The update record (`ztools_update_*.txt` parsed as JSON); "" for an absent field. */
  datatype UpdateInfo = UpdateInfo(version: string, downloadUrl: string, downloadUrlWin64: string, downloadUrlMacArm: string)

  /** What `checkUpdate` resolves to. */
  datatype CheckReply =
    | NoUpdateFile
    | UpToDate(latestVersion: string, currentVersion: string)
    | UpdateAvailable(currentVersion: string, latestVersion: string, info: UpdateInfo)
    | CheckFailed(error: string)

  const UpdatePrefix: string := "ztools_update_"
  const EmptyListing: string := "更新文件列表为空"
  const MalformedInfo: string := "更新信息格式错误"
  const CheckFailedDefault: string := "检查更新失败"
  const FileHost: string := "https://ilt.lanzouu.com/"

  /** A record is usable when it names a version and at least one download address. */
  predicate ValidInfo(info: UpdateInfo) {
    info.version != "" && (info.downloadUrl != "" || info.downloadUrlWin64 != "" || info.downloadUrlMacArm != "")
  }

  /** `error.message || '检查更新失败'` */
  function ErrorMessage(message: string): (r: string)
    ensures r != ""
  {
    if message != "" then message else CheckFailedDefault
  }

  /**
   * What `checkUpdate` answers for a newer latest version once its record has
   * been downloaded: the update when the record is usable, else the error.
   */
  function FetchedReply(currentVersion: string, latestVersion: string, fetched: Result<UpdateInfo, string>): (r: CheckReply)
    ensures r.UpdateAvailable? <==> fetched.Success? && ValidInfo(fetched.value)
    ensures r.UpdateAvailable? ==> r == UpdateAvailable(currentVersion, latestVersion, fetched.value)
    ensures fetched.Failure? ==> r == CheckFailed(ErrorMessage(fetched.error))
    ensures fetched.Success? && !ValidInfo(fetched.value) ==> r == CheckFailed(MalformedInfo)
  {
    match fetched
    case Failure(e) => CheckFailed(ErrorMessage(e))
    case Success(info) => if ValidInfo(info) then UpdateAvailable(currentVersion, latestVersion, info) else CheckFailed(MalformedInfo)
  }

  /**
   * `checkUpdate`. `fetch(url)` is the update record downloaded from a file
   * page and parsed, or the error that was thrown on the way.
   */
  method CheckUpdate(files: Option<seq<Versions.ListedFile>>, currentVersion: string,
                     fetch: string -> Result<UpdateInfo, string>) returns (r: CheckReply)
    ensures files.None? || files.value == [] ==> r == CheckFailed(EmptyListing)
    ensures (files.Some? && files.value != []
             && Versions.AllAtMost(Versions.FileNames(files.value), UpdatePrefix, |files.value|, "0.0.0")) ==> r == NoUpdateFile
    ensures r.UpdateAvailable? ==> Versions.VersionOrder(r.latestVersion, currentVersion) > 0 && ValidInfo(r.info)
                                   && r.currentVersion == currentVersion
    ensures r.UpToDate? ==> Versions.VersionOrder(r.latestVersion, currentVersion) <= 0 && r.currentVersion == currentVersion
    ensures r.UpdateAvailable? || r.UpToDate? ==>
              files.Some? && Versions.AllAtMost(Versions.FileNames(files.value), UpdatePrefix, |files.value|, r.latestVersion)
              && exists i :: 0 <= i < |files.value|
                   && Versions.VersionInName(files.value[i].nameAll, UpdatePrefix) == Some(r.latestVersion)
                   && Versions.AllBelow(Versions.FileNames(files.value), UpdatePrefix, i, r.latestVersion)
    ensures r.UpdateAvailable? ==>
              exists i :: 0 <= i < |files.value| && fetch(FileHost + files.value[i].id) == Success(r.info)
    ensures r.CheckFailed? ==> r.error != ""
    ensures files.Some? && !Versions.AllAtMost(Versions.FileNames(files.value), UpdatePrefix, |files.value|, "0.0.0") ==>
              exists i: nat, v :: Versions.IsLatest(Versions.FileNames(files.value), UpdatePrefix, i, v)
    ensures forall i: nat, v :: files.Some? && Versions.IsLatest(Versions.FileNames(files.value), UpdatePrefix, i, v) ==>
              && (Versions.VersionOrder(v, currentVersion) <= 0 ==> r == UpToDate(v, currentVersion))
              && (Versions.VersionOrder(v, currentVersion) > 0 ==>
                    r == FetchedReply(currentVersion, v, fetch(FileHost + files.value[i].id)))
  {
    if files.None? || files.value == [] {
      return CheckFailed(EmptyListing);
    }
    var names := Versions.FileNames(files.value);
    var latest, latestVersion := Versions.LatestFile(names, UpdatePrefix);
    if latest.None? {
      return NoUpdateFile;
    }
    forall i: nat, v | Versions.IsLatest(names, UpdatePrefix, i, v)
      ensures i == latest.value && v == latestVersion
    {
      Versions.LatestUnique(names, UpdatePrefix, i, v, latest.value, latestVersion);
    }
    var c := Versions.CompareVersions(latestVersion, currentVersion);
    if c <= 0 {
      return UpToDate(latestVersion, currentVersion);
    }
    var fetched := fetch(FileHost + files.value[latest.value].id);
    r := FetchedReply(currentVersion, latestVersion, fetched);
  }

  /** `未找到适配当前系统(<platform>-<arch>)的下载地址` */
  function NoPackageFor(platform: string, arch: string): string {
    "未找到适配当前系统(" + platform + "-" + arch + ")的下载地址"
  }

  /**
   * The package `startUpdate` downloads: the Windows build on Windows, the
   * Apple-silicon build on an arm64 Mac, when the record has them; the
   * generic address otherwise.
   */
  function DownloadUrl(info: UpdateInfo, platform: string, arch: string): (r: Result<string, string>)
    ensures r.Success? ==> r.value != "" && r.value in {info.downloadUrl, info.downloadUrlWin64, info.downloadUrlMacArm}
    ensures platform == "win32" && info.downloadUrlWin64 != "" ==> r == Success(info.downloadUrlWin64)
    ensures platform == "darwin" && arch == "arm64" && info.downloadUrlMacArm != "" ==> r == Success(info.downloadUrlMacArm)
    ensures r.Success? && r.value != info.downloadUrl ==>
              (platform == "win32" && r.value == info.downloadUrlWin64)
              || (platform == "darwin" && arch == "arm64" && r.value == info.downloadUrlMacArm)
    ensures r.Failure? ==> r.error == NoPackageFor(platform, arch)
  {
    var url :=
      if platform == "win32" && info.downloadUrlWin64 != "" then info.downloadUrlWin64
      else if platform == "darwin" && arch == "arm64" && info.downloadUrlMacArm != "" then info.downloadUrlMacArm
      else info.downloadUrl;
    if url == "" then Failure(NoPackageFor(platform, arch)) else Success(url)
  }

  /** A record with a generic address always yields a package, whatever the platform. */
  lemma GenericUrlAlwaysServes(info: UpdateInfo, platform: string, arch: string)
    requires info.downloadUrl != ""
    ensures DownloadUrl(info, platform, arch).Success?
  {
  }

  /** A record that passes the check can still have no package for this machine: a Windows-only record on Linux. */
  lemma ValidInfoWithoutPackage()
    ensures ValidInfo(UpdateInfo("2.0.0", "", "w.zip", ""))
    ensures DownloadUrl(UpdateInfo("2.0.0", "", "w.zip", ""), "linux", "x64").Failure?
  {
  }

  /** The updater's command line: the asar pair and the app, then the unpacked pair when there is one. */
  function UpdaterArgs(asarSrc: string, asarDst: string, appPath: string, unpackedSrc: string, unpackedDst: string): (args: seq<string>)
    ensures |args| == if unpackedSrc != "" then 10 else 6
  {
    ["--asar-src", asarSrc, "--asar-dst", asarDst, "--app", appPath]
    + (if unpackedSrc != "" then ["--unpacked-src", unpackedSrc, "--unpacked-dst", unpackedDst] else [])
  }

  /** The value that follows the first occurrence of `flag` at a flag position of `args`. */
  function FlagValue(args: seq<string>, flag: string): Option<string>
    decreases |args|
  {
    if |args| < 2 then None
    else if args[0] == flag then Some(args[1])
    else FlagValue(args[2..], flag)
  }

  /** The updater reads back exactly the paths it was given. */
  lemma UpdaterArgsRoundTrip(asarSrc: string, asarDst: string, appPath: string, unpackedSrc: string, unpackedDst: string)
    requires unpackedSrc != ""
    ensures var args := UpdaterArgs(asarSrc, asarDst, appPath, unpackedSrc, unpackedDst);
            FlagValue(args, "--asar-src") == Some(asarSrc) && FlagValue(args, "--asar-dst") == Some(asarDst)
            && FlagValue(args, "--app") == Some(appPath) && FlagValue(args, "--unpacked-src") == Some(unpackedSrc)
            && FlagValue(args, "--unpacked-dst") == Some(unpackedDst)
  {
    var args := UpdaterArgs(asarSrc, asarDst, appPath, unpackedSrc, unpackedDst);
    var a1 := args[2..];
    var a2 := a1[2..];
    var a3 := a2[2..];
    var a4 := a3[2..];
    assert a2 == ["--app", appPath, "--unpacked-src", unpackedSrc, "--unpacked-dst", unpackedDst];
    assert a3 == ["--unpacked-src", unpackedSrc, "--unpacked-dst", unpackedDst];
    assert a4 == ["--unpacked-dst", unpackedDst];
    assert FlagValue(args, "--app") == FlagValue(a1, "--app") == FlagValue(a2, "--app");
    assert FlagValue(args, "--unpacked-src") == FlagValue(a1, "--unpacked-src") == FlagValue(a2, "--unpacked-src")
           == FlagValue(a3, "--unpacked-src");
    assert FlagValue(args, "--unpacked-dst") == FlagValue(a1, "--unpacked-dst") == FlagValue(a2, "--unpacked-dst")
           == FlagValue(a3, "--unpacked-dst") == FlagValue(a4, "--unpacked-dst");
  }

  /** Where the updater and the installed bundle live. */
  datatype Install = Install(updaterPath: string, asarDst: string, unpackedDst: string)

  /**
   * The locations `startUpdate` works out from the executable path
   * (`dirname` is `path.dirname`); other platforms get none.
   */
  function InstallLayout(platform: string, execPath: string, isPackaged: bool, appRoot: string,
                         dirname: string -> string): (r: Install)
    ensures platform == "darwin" ==>
              var resources := InternalPlugins.PathJoin(dirname(dirname(execPath)), "Resources");
              r.asarDst == InternalPlugins.PathJoin(resources, "app.asar")
              && r.unpackedDst == InternalPlugins.PathJoin(resources, "app.asar.unpacked")
    ensures platform == "win32" ==>
              var resources := InternalPlugins.PathJoin(dirname(execPath), "resources");
              r.updaterPath == InternalPlugins.PathJoin(dirname(execPath), "ztools-updater.exe")
              && r.asarDst == InternalPlugins.PathJoin(resources, "app.asar")
              && r.unpackedDst == InternalPlugins.PathJoin(resources, "app.asar.unpacked")
    ensures platform != "darwin" && platform != "win32" ==> r == Install("", "", "")
  {
    if platform == "darwin" then
      var resources := InternalPlugins.PathJoin(dirname(dirname(execPath)), "Resources");
      var updater := if !isPackaged then InternalPlugins.PathJoin(appRoot, "src/updater/mac-arm64/ztools-updater")
                     else InternalPlugins.PathJoin(dirname(execPath), "ztools-updater");
      Install(updater, InternalPlugins.PathJoin(resources, "app.asar"), InternalPlugins.PathJoin(resources, "app.asar.unpacked"))
    else if platform == "win32" then
      var resources := InternalPlugins.PathJoin(dirname(execPath), "resources");
      Install(InternalPlugins.PathJoin(dirname(execPath), "ztools-updater.exe"),
              InternalPlugins.PathJoin(resources, "app.asar"), InternalPlugins.PathJoin(resources, "app.asar.unpacked"))
    else Install("", "", "")
  }

  /** `找不到升级程序: <path>` */
  function UpdaterMissing(path: string): string {
    "找不到升级程序: " + path
  }

  /**
   * `startUpdate` from the record to the process it spawns: the updater's
   * path and arguments, or the error. `extractPath` is the folder the
   * downloaded package was unpacked into; `present` tells which paths exist.
   */
  function StartUpdate(info: UpdateInfo, platform: string, arch: string, execPath: string, isPackaged: bool,
                       appRoot: string, extractPath: string, dirname: string -> string,
                       present: string -> bool): (r: Result<(string, seq<string>), string>)
    ensures DownloadUrl(info, platform, arch).Failure? ==> r == Failure(NoPackageFor(platform, arch))
    ensures r.Success? ==> present(r.value.0) && |r.value.1| == 10
    ensures r.Success? ==> r.value.1[..6] == ["--asar-src", InternalPlugins.PathJoin(extractPath, "app.asar"),
                                             "--asar-dst", InstallLayout(platform, execPath, isPackaged, appRoot, dirname).asarDst,
                                             "--app", execPath]
    ensures r.Success? ==> r.value.1[6..] == ["--unpacked-src", InternalPlugins.PathJoin(extractPath, "app.asar.unpacked"),
                                             "--unpacked-dst", InstallLayout(platform, execPath, isPackaged, appRoot, dirname).unpackedDst]
    ensures platform != "darwin" && platform != "win32" && !present("") && DownloadUrl(info, platform, arch).Success? ==>
              r == Failure(UpdaterMissing(""))
  {
    match DownloadUrl(info, platform, arch)
    case Failure(e) => Failure(e)
    case Success(_) =>
      var layout := InstallLayout(platform, execPath, isPackaged, appRoot, dirname);
      if !present(layout.updaterPath) then Failure(UpdaterMissing(layout.updaterPath))
      else
        var asarSrc := InternalPlugins.PathJoin(extractPath, "app.asar");
        var unpackedSrc := InternalPlugins.PathJoin(extractPath, "app.asar.unpacked");
        Success((layout.updaterPath, UpdaterArgs(asarSrc, layout.asarDst, execPath, unpackedSrc, layout.unpackedDst)))
  }
}
