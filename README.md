# ZTools core, modelled in Dafny

ZTools is an Electron launcher. It has a search box that finds applications,
system settings and plugin commands. Third-party plugins run in their own
views or windows, talk to the host over IPC and keep their data in one shared
document store. This project models the decision logic under the Electron
glue and proves what it promises:

- **Database front end.** Each plugin gets its own namespace `PLUGIN/<name>/`
  in the shared store, and host settings live under `ZTOOLS/<key>`. The model
  covers the id rewriting and stripping of the `db:*` and `db-storage:*`
  handlers, the host's `dbPut`/`dbGet`, per-plugin statistics, key listing,
  and the counting done when a plugin's data is cleared (`database.dfy`).
- **Capability gate.** Only the host and the built-in `setting` plugin may use
  `internal:*` calls; every handler refuses before it does anything
  (`internal_plugins.dfy`, `internal_api.dfy`).
- **Plugin views and windows.** The main window's cache of plugin views
  (reuse, hide, kill, crash, detach, and the height rules) and the registry of
  windows that plugins open, with its pending-task ids
  (`plugin_manager.dfy`, `plugin_window_manager.dfy`).
- **Preload script.** The callback registries a plugin page fills and the
  order they fire in, the headless `call-plugin-method` guard chain,
  `get-plugin-mode`, and the `sendTo` fallback (`preload.dfy`).
- **Commands.**
  - The launch history: update, sort by recency, truncate to 27 entries.
  - Pins, the default feature of a plugin, and the command catalogue.
  - The renderer store's special-display table, the non-fuzzy search paths,
    the paste searches, and the history clean-up.
  - `ztools.redirect` and global-shortcut resolution.
  - Plugin install checks, delete, reload and the market list.
  
  Files: `commands.dfy`, `command_data.dfy`, `redirect.dfy`, `api_index.dfy`,
  `plugins.dfy`, `catalogue.dfy`.
- **Versions.**
  - The dotted version comparison and the newest-file scan.
  - The update decision, package choice and updater command line.
  - The release scripts' development versions.
  - The plugin CLI's name and version validators.
  
  Files: `versions.dfy`, `updater.dfy`, `version_utils.dfy`, `publish.dfy`.
- **Geometry and settings.**
  - Window height and opacity clamps, and the resize constraint.
  - The auto-back-to-search delay, cursor-display placement and centring.
  - The window store's time tables, clear-search rule, and `#rrggbb`
    conversion.
  
  Files: `window_api.dfy`, `window_manager.dfy`, `window_store.dfy`.
- **Classifiers.**
  - Windows Start-menu scanning, with its filters and case-insensitive
    dedupe.
  - The user's local launch entries.
  - Proxy-rule derivation.
  
  Files: `windows_scanner.dfy`, `local_shortcuts.dfy`, `proxy_manager.dfy`.

**How the model is built**

- Pure logic is written as functions with lemmas.
- Objects that the source updates in place are classes whose methods state
  the new state and keep a validity invariant.
- Loops in the source are methods with loop invariants, proved against a
  specification function.
- Some things are parameters of the operation that uses them, rather than
  part of the model:
  - the clock, random ids and the file system;
  - the lmdb engine's verdicts;
  - the outcome of a regular expression written by a plugin author, and
    Fuse and pinyin;
  - the WHATWG URL parser;
  - anything Electron answers.
- Outgoing messages are appended to an event log.
- Shared helpers:
  - `wrappers.dfy`: Option and Result;
  - `text.dfy`: the JavaScript string methods the source relies on;
  - `lists.dfy`: index searches, removal and insertion sort by key.

## Model

| member | source | states |
|---|---|---|
| InternalPlugins.OnlySettingIsInternal | src/main/core/internalPlugins.ts:8-19 | a plugin is internal exactly when its name is 'setting' |
| InternalPlugins.PathJoin | src/main/core/internalPlugins.ts:31-34 | the joined path starts with the directory, ends with the segment and has one separator between them |
| InternalPlugins.InternalPluginPath | src/main/core/internalPlugins.ts:26-36 | the path lies under `<cwd>/internal-plugins/` in development and under `<resourcesPath>/internal-plugins/` when packaged, and ends with `/<name>` |
| InternalPlugins.InternalPathNamesPlugin | src/main/core/internalPlugins.ts:26-36 | the last segment of an internal plugin's path is the plugin's name |
| InternalApi.PermissionDenied | src/main/api/plugin/internal.ts:13-18 | the refusal message is `API "<name>" 仅限内置插件调用`, with the API's name at a fixed place |
| InternalApi.PermissionDeniedNamesApi | src/main/api/plugin/internal.ts:13-18 | the message contains the refused API's name, and different APIs give different messages |
| InternalApi.AllowedOnlyHostOrSetting | src/main/api/plugin/internal.ts:26-36 | the gate passes exactly the host (a sender that is no plugin) and the plugin named 'setting' |
| InternalApi.WindowOnlySenderPassesAsHost | src/main/api/plugin/internal.ts:26-36 | a window a plugin opened, unknown to the plugin manager, passes the gate as the host, while the database files its writes under that plugin's prefix |
| InternalApi.Invoke | src/main/api/plugin/internal.ts:55-311 | a refused call fails with the permission message and changes nothing; an allowed put answers with the host-scoped id and, when accepted, the value reads back; only puts change the store; the five broadcast channels answer `{success: true}` and forward the setting |
| InternalApi.DeniedIsInert | src/main/api/plugin/internal.ts:55-60 | a refused call's outcome does not depend on the engine or the delegate, and is a failure |
| InternalApi.GetPlatform | src/main/api/plugin/internal.ts:313-319 | the platform is returned exactly when the gate allows, and null otherwise |
| VersionUtils.MonthDate | scripts/version-utils.mjs:16-21 | four digits whose first two spell the month and last two the day |
| VersionUtils.DevSuffixUnique | scripts/version-utils.mjs:29 | at most one digit count (2, 3 or 4) fits the development suffix pattern, so the pattern's choice is unambiguous |
| VersionUtils.StripDevSuffix | scripts/version-utils.mjs:29 | the version is unchanged exactly when it does not end in `-d<2–4 digits>.<7 lower-case hex digits>`; otherwise that suffix is cut off |
| VersionUtils.DevVersion | scripts/version-utils.mjs:37-43 | the development version starts with `<base>-d` and ends with `.<hash>` |
| VersionUtils.DevVersionRoundTrip | scripts/version-utils.mjs:24-43 | stripping a development version made from a seven-digit hex hash gives back its base |
| VersionUtils.UnknownHashNotStripped | scripts/version-utils.mjs:5-43 | with the 'unknown' fallback hash the suffix is not recognised, so the development version never strips back |
| VersionUtils.ProcessedVersion | scripts/version-utils.mjs:55-61 | a development build gets the development version of the base, any other build the base version |
| VersionUtils.ProcessedVersionStrips | scripts/version-utils.mjs:24-61 | a development build's version strips back to the base it was cut from |
| VersionUtils.DownloadUrl | scripts/version-utils.mjs:64-70 | the URL lies under the releases download path and ends in `/dev` for development builds and `/v<version>` otherwise |
| VersionUtils.Link | scripts/version-utils.mjs:77-86 | a link line contains the artifact's download URL |
| VersionUtils.MarkdownLinksEveryArtifact | scripts/version-utils.mjs:73-89 | the Markdown links each of the six release artifacts under the download URL |
| Publish.NameTailPositions | ztools-plugin-cli/src/publish.ts:22-24 | the tail of the name pattern accepts exactly the strings that end in a letter or digit and otherwise hold only letters, digits and dashes |
| Publish.NameMatcherAgrees | ztools-plugin-cli/src/publish.ts:22-24 | the left-to-right matcher of `^[a-z][a-z0-9-]*[a-z0-9]$` and the position-by-position reading accept the same names |
| Publish.ValidNameIsSegment | ztools-plugin-cli/src/publish.ts:22-24 | an accepted name has no separator, is not `.` or `..`, has no upper case, and joins onto a directory as one segment |
| Publish.NameExamples | ztools-plugin-cli/src/publish.ts:79-85 | the error message's examples are accepted; a single letter, a leading digit or dash, a trailing dash and an upper-case letter are refused |
| Publish.DottedTripleAccepted | ztools-plugin-cli/src/publish.ts:30-32 | any three digit runs joined by dots are accepted and split back into those runs |
| Publish.AcceptedIsDottedTriple | ztools-plugin-cli/src/publish.ts:30-32 | every accepted version is exactly its three parts joined by dots |
| Publish.AcceptedVersionComponents | ztools-plugin-cli/src/publish.ts:30-32 | an accepted version's parts are three digit runs, so version comparison reads them as numbers |
| Publish.VersionExamplesAccepted | ztools-plugin-cli/src/publish.ts:87-94 | the error message's examples 1.0.0, 1.2.3 and 2.10.5 are accepted |
| Publish.TwoPartsRejected | ztools-plugin-cli/src/publish.ts:30-32 | "1.0" is refused |
| Publish.FourPartsRejected | ztools-plugin-cli/src/publish.ts:30-32 | "1.0.0.0" is refused |
| Publish.EmptyPartRejected | ztools-plugin-cli/src/publish.ts:30-32 | "1..0" is refused |
| Publish.PrefixRejected | ztools-plugin-cli/src/publish.ts:30-32 | "v1.0.0" is refused |
| Publish.CanonicalDigits | ztools-plugin-cli/src/publish.ts:26-32 | a digit run without a leading zero is the decimal rendering of its own value |
| Publish.SemVerCanonical | ztools-plugin-cli/src/publish.ts:26-32 | a core version (no leading zeros) is exactly the rendering of its three numbers, so two that compare equal are the same string |
| Publish.SemVerCoreNarrows | ztools-plugin-cli/src/publish.ts:26-32 | the corrected check accepts a subset of what the pattern accepts, and differs from it only on a part with a leading zero |
| Publish.LeadingZeroAccepted | ztools-plugin-cli/src/publish.ts:30-32 | the pattern as written accepts "01.2.3", which is no core version and compares equal to "1.2.3" |
| Publish.Located | ztools-plugin-cli/src/publish.ts:39-54 | the first of `./plugin.json` and `./public/plugin.json` that exists, and none exactly when neither exists |
| Publish.ValidatePluginProject | ztools-plugin-cli/src/publish.ts:37-107 | success exactly when plugin.json is found and read, has name, title and version, a name of the accepted format and a version the pattern accepts (leading zeros included, see Findings), and the directory is a git repository with commits; otherwise the first failing check's own error, in the source's order |
| Publish.ValidatePluginProjectCorrected | ztools-plugin-cli/src/publish.ts:37-107 | the same checks in the same order with the corrected version check: success exactly when the version is also a core version without leading zeros, and such a version is refused with the version error |
| Publish.CorrectedRejectsLeadingZeros | ztools-plugin-cli/src/publish.ts:87-93 | the corrected demands are stricter, and reject a plugin.json the pattern accepts only for a leading zero in one of the version's numbers |
| Redirect.MergedAll | src/main/api/plugin/redirect.ts:41-45 | every plugin, in order, gets its stored features followed by its dynamic features |
| Redirect.LaunchOf | src/main/api/plugin/redirect.ts:146-158 | the `ipc-launch` options carry the plugin's path, the feature's code, the cmd name and the payload as the parameter |
| Redirect.FindLabel | src/main/api/plugin/redirect.ts:60-67 | true exactly when some cmd, text or object, carries the label |
| Redirect.FindFeature | src/main/api/plugin/redirect.ts:58-70 | the index of the first feature holding a cmd with the label, or none when no feature does |
| Redirect.FindPlugin | src/main/api/plugin/redirect.ts:54 | the first plugin with that name, or none when no plugin has it |
| Redirect.FirstLabelled | src/main/api/plugin/redirect.ts:58-70 | the index of a feature carrying a cmd with the label, and none exactly when no feature carries it |
| Redirect.FirstLabelledIs | src/main/api/plugin/redirect.ts:58-70 | a feature with the label preceded by none is the one the search finds |
| Redirect.PluginTargetLaunches | src/main/api/plugin/redirect.ts:51-79 | a `[plugin, cmd]` label launches exactly when the plugin is listed and one of its features carries the cmd, and the launch carries the payload |
| Redirect.RedirectToPlugin | src/main/api/plugin/redirect.ts:51-79 | the answer is exactly the `[plugin, cmd]` target: the first feature of the named plugin carrying the cmd is launched with the plugin's path and the payload; a missing plugin or cmd gives the not-found notice naming both |
| Redirect.CollectCmds | src/main/api/plugin/redirect.ts:94-118 | the loop collects exactly the reference definition's matches of one feature |
| Redirect.CollectFeatures | src/main/api/plugin/redirect.ts:92-120 | the loop collects exactly the reference definition's matches of one plugin |
| Redirect.CollectMatches | src/main/api/plugin/redirect.ts:91-121 | the nested loops collect exactly the reference definition's matches, in plugin, feature and cmd order |
| Redirect.CmdMatchesExact | src/main/api/plugin/redirect.ts:94-118 | a match of one feature is exactly a cmd of it with the label, text when the payload is empty and an object otherwise |
| Redirect.FeatureMatchesExact | src/main/api/plugin/redirect.ts:92-120 | a match of one plugin is exactly one of its features and such a cmd |
| Redirect.AllMatchesExact | src/main/api/plugin/redirect.ts:82-121 | a candidate is exactly a listed plugin, one of its features and a cmd with the label of the kind the payload calls for |
| Redirect.Choose | src/main/api/plugin/redirect.ts:123-137 | no candidate notifies `未找到指令`, exactly one launches it, two or more open the search page with the cmd name and payload |
| Redirect.ProcessRedirect | src/main/api/plugin/redirect.ts:33-144 | no stored plugin list notifies `未找到插件列表`; a bare label chooses among the merged list's candidates; a `[plugin, cmd]` label gives exactly the `[plugin, cmd]` target over the merged list, so it launches whenever that plugin has the cmd; a launch always passes the payload on |
| Redirect.HandleRedirect | src/main/api/plugin/redirect.ts:17-31 | the synchronous reply is true whatever the redirect ends in; the outcome is that of processing the redirect, the `[plugin, cmd]` target over the merged list for a two-part label |
| Versions.Components | src/main/api/updater.ts:256-257 | one number per dot-separated part |
| Versions.CompareParts | src/main/api/updater.ts:259-265 | the result is -1, 0 or 1 |
| Versions.CompareVersions | src/main/api/updater.ts:255-266 | the loop over the longer component list returns the sign of the first differing component, a missing one reading as 0 |
| Versions.CompareComponents | src/main/api/updater.ts:255-266 | the loop over the component lists returns the sign of the first differing component, a missing component reading as 0 |
| Versions.CompareSelf | src/main/api/updater.ts:255-266 | every component list compares equal to itself |
| Versions.CompareAntisymmetric | src/main/api/updater.ts:255-266 | swapping the arguments negates the result |
| Versions.CompareAtMostTransitive | src/main/api/updater.ts:255-266 | "at most" is transitive, and strict as soon as one step is strict |
| Versions.TrailingZero | src/main/api/updater.ts:259-261 | a trailing zero component changes nothing |
| Versions.VersionOrderLaws | src/main/api/updater.ts:255-266 | a version compares equal to itself, and swapping the versions negates the result |
| Versions.ShortFormEqual | src/main/api/updater.ts:255-266 | '1.0' and '1.0.0' compare equal |
| Versions.DigitRun | src/main/api/updater.ts:40 | the leading digits, stopping at the first non-digit |
| Versions.VersionRunBeforeTxt | src/main/api/updater.ts:40 | a dotted version followed by `.txt` is captured whole |
| Versions.NamedFileYieldsVersion | src/main/api/updater.ts:37-45 | a file named `<prefix><version>.txt` yields exactly that version |
| Versions.LatestFile | src/main/api/updater.ts:38-51 | the chosen file carries the greatest version of the listing, above '0.0.0', and is the first to carry it, so it is the latest file; none exactly when no file carries a version above '0.0.0' |
| Versions.ScanStep | src/main/api/updater.ts:46-49 | a strictly newer version is strictly above every version seen so far |
| Versions.LatestUnique | src/main/api/updater.ts:38-51 | at most one file of a listing is the latest one: two candidates have the same index and version |
| Versions.FileNames | src/main/api/updater.ts:42-43 | the names of the listed files, in order; the market list reads its folder listing the same way |
| Updater.ErrorMessage | src/main/api/updater.ts:103-106 | the reported error is never empty |
| Updater.FetchedReply | src/main/api/updater.ts:66-105 | the update is offered exactly when the record was fetched and names a version and a download address, and carries that record; a failed fetch reports its message, a malformed record the format error |
| Updater.CheckUpdate | src/main/api/updater.ts:28-107 | an empty or missing listing fails; without a version above '0.0.0' there is no update file, otherwise there is a latest file; with the latest file's version at most the running one the answer is up to date with that version; above it, the record fetched from that same file's page gives the update when it has a version and a download address, else the fetch error or the malformed-record error |
| Updater.DownloadUrl | src/main/api/updater.ts:115-129 | the Windows package on Windows and the Apple-silicon package on an arm64 Mac when the record has them, the generic address otherwise, and the platform error when none is set |
| Updater.GenericUrlAlwaysServes | src/main/api/updater.ts:115-129 | a record with a generic address always yields a package |
| Updater.ValidInfoWithoutPackage | src/main/api/updater.ts:83-87 | a record that passes the format check can still have no package for this machine (a Windows-only record on Linux) |
| Updater.UpdaterArgs | src/main/api/updater.ts:227-232 | six arguments, or ten with the unpacked pair |
| Updater.UpdaterArgsRoundTrip | src/main/api/updater.ts:227-232 | reading each flag's value back from the arguments gives exactly the paths passed in |
| Updater.InstallLayout | src/main/api/updater.ts:184-217 | on macOS the bundle is replaced under `Contents/Resources`, on Windows under `resources` beside the executable, with the updater beside it; other platforms get no paths |
| Updater.StartUpdate | src/main/api/updater.ts:112-253 | without a package for the machine the platform error; on success the updater exists and gets the extracted asar and unpacked pair with the platform's destinations and the executable |
| ApiIndex.HandleGlobalShortcut | src/main/api/index.ts:182-251 | the answer is exactly the shortcut target: a launch of the named plugin's first static-then-dynamic feature carrying the cmd, with that feature's code, and nothing otherwise |
| ApiIndex.ShortcutTargetParts | src/main/api/index.ts:184-190 | a target `<plugin>/<cmd>` without further slashes splits back into that plugin and that cmd |
| ApiIndex.OpenPluginDevTools | src/main/api/index.ts:94-112 | success exactly when there is a manager and it opened the tools; '没有活动的插件' without an active plugin, '功能不可用' without a manager |
| ApiIndex.DetachPlugin | src/main/api/index.ts:115-129 | the plugin manager's own reply, or '功能不可用' without a manager |
| Database.PluginPrefix | src/main/api/shared/database.ts:26 | `PLUGIN/<name>/`: the root, the name, a closing slash |
| Database.GetPluginPrefix | src/main/api/shared/database.ts:22-36 | a prefix exactly when the sender is a plugin view or a plugin's own window with a non-empty name; the view's plugin wins |
| Database.Unscope | src/main/api/shared/database.ts:47-49 | the caller's prefix is removed from an id that starts with it; other ids and host calls are unchanged |
| Database.UnscopeScope | src/main/api/shared/database.ts:40-64 | stripping undoes prefixing for every caller and every id |
| Database.ScopeInjective | src/main/api/shared/database.ts:42-44 | distinct ids of one caller never share a stored id |
| Database.PrefixesIncomparable | src/main/api/shared/database.ts:26-32 | the prefixes of two distinct plugin names do not start one another |
| Database.NamespacesDisjoint | src/main/api/shared/database.ts:40-45 | an id written by one plugin never lies in another plugin's namespace |
| Database.HostOutsidePlugins | src/main/api/shared/database.ts:368-370 | host ids `ZTOOLS/...` never lie in a plugin namespace |
| Database.HandlePut | src/main/api/shared/database.ts:40-51 | the reply carries the caller's own id; an accepted put stores the document under the prefixed id with the new revision, a refused one changes nothing |
| Database.HandleGet | src/main/api/shared/database.ts:53-64 | a document exactly when the prefixed id is stored, with its fields |
| Database.PutThenGet | src/main/api/shared/database.ts:40-64 | a plugin reads back what it wrote, under the id it wrote it with |
| Database.PutIsolation | src/main/api/shared/database.ts:40-51 | a write by one plugin leaves every id of another plugin's namespace as it was |
| Database.HandleRemove | src/main/api/shared/database.ts:66-82 | an id or a document is removed under the prefixed id; success exactly when the engine accepts and the id is stored; the reply carries the caller's id |
| Database.RewriteAllDocsKey | src/main/api/shared/database.ts:103-114 | a plugin's array of keys, single key, or missing key is rewritten to the prefixed keys, prefixed key, or its whole namespace |
| Database.ScopeIdsInPlace | src/main/api/shared/database.ts:85-90 | every document of the array gets the caller's prefix in place, and nothing else changes |
| Database.UnscopeResultsInPlace | src/main/api/shared/database.ts:93-99 | every result id loses the caller's prefix in place |
| Database.UnscopeDocsInPlace | src/main/api/shared/database.ts:116-123 | every returned document id loses the caller's prefix in place |
| Database.HandleBulkDocs | src/main/api/shared/database.ts:84-101 | the documents are prefixed in place; an array reply is stripped element by element and anything else is passed through |
| Database.AttachmentRequestId | src/main/api/shared/database.ts:127-158 | attachment calls address the prefixed id, which strips back to the caller's id |
| Database.StorageDoc | src/main/api/shared/database.ts:282-295 | `set-item` writes `{_id, data}` under the prefixed key, keeping the stored revision |
| Database.StorageSetItem | src/main/api/shared/database.ts:282-303 | a thrown error is returned as `{error}` with nothing changed; otherwise undefined exactly when the engine accepts, and the value then reads back |
| Database.StorageGetItem | src/main/api/shared/database.ts:305-316 | the stored `data`, or null when the key is absent or the engine throws |
| Database.StorageRemoveItem | src/main/api/shared/database.ts:318-329 | undefined exactly when the engine accepts and the key is stored, after which it reads back as null |
| Database.DbPut | src/main/api/shared/database.ts:368-389 | the host write goes to `ZTOOLS/<key>` with the stored revision, an engine error is rethrown, and an accepted write reads back |
| Database.DbGet | src/main/api/shared/database.ts:391-405 | a value only when the engine does not throw and `ZTOOLS/<key>` is stored |
| Database.DbPutThenGet | src/main/api/shared/database.ts:368-405 | what the host puts, it gets back |
| Database.DbPutCarriesRevision | src/main/api/shared/database.ts:378-382 | a host write carries the revision stored before it |
| Database.ParsePluginName | src/main/api/shared/database.ts:425 | a captured name is non-empty, has no '/', and its prefix starts the id |
| Database.ParseRecoversName | src/main/api/shared/database.ts:425-427 | the pattern recovers the name of every id in a plugin's namespace |
| Database.ParseMetadataName | src/main/api/shared/database.ts:437 | a captured name's metadata prefix starts the key |
| Database.Tally | src/main/api/shared/database.ts:422-444 | per name, the count of keys the pattern attributes to it, and only names with a positive count |
| Database.PluginDataStats | src/main/api/shared/database.ts:410-464 | for every plugin with data, its document and attachment counts; a name without data is absent |
| Database.LogoOf | src/main/api/shared/database.ts:446-456 | a non-empty logo of a listed plugin of that name, and none when no plugin has that name |
| Database.PluginDocKeys | src/main/api/shared/database.ts:469-494 | a document key exactly for each stored document of the plugin, an attachment key exactly for each of its metadata keys, prefix removed |
| Database.GetPluginDoc | src/main/api/shared/database.ts:499-532 | the document when stored, else the attachment's metadata under the document id, else '文档不存在' |
| Database.RemoveAttachmentKeys | src/main/api/shared/database.ts:568-574 | exactly the given keys are removed, the rest is kept, and the count is their number |
| Database.RemoveDocuments | src/main/api/shared/database.ts:544-550 | every listed document the engine does not refuse is removed and counted; attachments are untouched |
| Database.ClearPluginData | src/main/api/shared/database.ts:537-581 | the plugin's documents (except refused ones), blobs and metadata are removed, everything else is kept unchanged, and the count is removed documents plus blobs |
| Database.BlobAndMetadataKeysDisjoint | src/main/api/shared/database.ts:553-566 | no key is both a blob key and a metadata key, so metadata removals are never counted |
| PluginWindowManager.ResolveUrl | src/main/core/pluginWindowManager.ts:86-90 | the loaded URL always starts with `http` or `file:///`; such a URL is kept, anything else becomes `file:///<pluginPath>/<url>` |
| PluginWindowManager.ResolveUrlIdempotent | src/main/core/pluginWindowManager.ts:86-90 | resolving a resolved URL again changes nothing |
| PluginWindowManager.ResolvePreload | src/main/core/pluginWindowManager.ts:43-46 | a missing, empty or absolute preload is kept; a relative one is joined onto the plugin directory |
| PluginWindowManager.ResolvePreloadIdempotent | src/main/core/pluginWindowManager.ts:43-46 | under an absolute plugin directory the resolved preload is absolute and resolving again changes nothing |
| PluginWindowManager.TaskId | src/main/core/pluginWindowManager.ts:200 | task ids start with `task_` |
| PluginWindowManager.TaskIdInjective | src/main/core/pluginWindowManager.ts:200 | different counter values give different task ids |
| PluginWindowManager.ClosesFor | src/main/core/pluginWindowManager.ts:310-329 | the close requests for a filter are close requests only |
| PluginWindowManager.ClosesForExactly | src/main/core/pluginWindowManager.ts:314-326 | a webContents is asked to close exactly when it is live and belongs to a registered window of the plugin (or of any plugin, for closeAll) |
| PluginWindowManager.ClosesForAppend | src/main/core/pluginWindowManager.ts:321-326 | one more window adds its own close request, if any, after the earlier ones |
| PluginWindowManager.PluginWindowManager.constructor | src/main/core/pluginWindowManager.ts:19-21 | no windows, no tasks, counter 0 |
| PluginWindowManager.PluginWindowManager.CreateWindow | src/main/core/pluginWindowManager.ts:32-110 | the fresh id is returned and appended with its plugin path, name and parent; the window opens on the resolved URL with the resolved preload; ids stay distinct |
| PluginWindowManager.PluginWindowManager.OnWindowLoaded | src/main/core/pluginWindowManager.ts:95-102 | the parent is told `browser-window-loaded-<callbackId>` only with a callback id and while it lives |
| PluginWindowManager.PluginWindowManager.OnClosed | src/main/core/pluginWindowManager.ts:105-107 | the closed window's entry, and only it, leaves the map |
| PluginWindowManager.PluginWindowManager.CloseByPlugin | src/main/core/pluginWindowManager.ts:310-329 | the plugin's live windows are asked to close in map order, and the map is unchanged |
| PluginWindowManager.PluginWindowManager.CloseAll | src/main/core/pluginWindowManager.ts:346-353 | every live window is asked to close and the map is emptied |
| PluginWindowManager.PluginWindowManager.GetPluginPathByWebContentsId | src/main/core/pluginWindowManager.ts:286-293 | the path of the first live window with that webContents id, null exactly when there is none |
| PluginWindowManager.PluginWindowManager.GetPluginNameByWebContentsId | src/main/core/pluginWindowManager.ts:298-305 | the name of the first live window with that webContents id, null exactly when there is none |
| PluginWindowManager.PluginWindowManager.CallMethodSync | src/main/core/pluginWindowManager.ts:171-215 | null for an unknown window, an empty method name, a missing context or a non-function; a value as returned; a promise parked under the next, unused `task_<n>` with the counter advanced |
| PluginWindowManager.PluginWindowManager.FreshTaskId | src/main/core/pluginWindowManager.ts:200-201 | the id the counter names next is not taken |
| PluginWindowManager.PluginWindowManager.ExpireTask | src/main/core/pluginWindowManager.ts:204-208 | the settled task is dropped and nothing else changes |
| PluginWindowManager.PluginWindowManager.WaitForTask | src/main/core/pluginWindowManager.ts:220-233 | an unknown id fails with `Task <id> not found`; a known one yields its promise and is removed |
| PluginManager.RemovePathGone | src/main/managers/pluginManager.ts:433-441 | removing a cache entry keeps paths and views distinct and leaves no entry for that path, so a repeated kill finds nothing |
| PluginManager.CachedOrDefault | src/main/managers/pluginManager.ts:78 | a cached non-zero height is used, otherwise 600 - 59 |
| PluginManager.ShownPlaceholder | src/main/managers/pluginManager.ts:96 | the announced placeholder is the cached one when non-empty, else '搜索' |
| PluginManager.HeightKeepsIndices | src/main/managers/pluginManager.ts:574-579 | recording a height moves no entry: the searches by path and by view answer as before |
| PluginManager.ModeTargetHeight | src/main/managers/pluginManager.ts:677-681 | the height a UI plugin is restored to is always positive: the cached height when positive, else 541 |
| PluginManager.StoredDetachedSize | src/main/managers/pluginManager.ts:786-810 | a size exactly when the plugin has a stored size with finite width and height; width at least 400 and height at least 300 minus the title bar, each as stored when already that large |
| PluginManager.PluginManager.constructor | src/main/managers/pluginManager.ts:29-34 | no main window, no current view or path, an empty cache, no ESC time |
| PluginManager.PluginManager.Init | src/main/managers/pluginManager.ts:36-38 | the main window is set and nothing else changes |
| PluginManager.PluginManager.SetExpendHeight | src/main/managers/pluginManager.ts:549-581 | with a main window and a current view, the window is asked for height + 59 and the view sized; the cache entry of the current view takes the height only when asked to update |
| PluginManager.PluginManager.HidePluginView | src/main/managers/pluginManager.ts:322-352 | the current view is detached and closed to the renderer, current view and path are cleared, and the cache keeps the entry; a kill check is scheduled exactly when the cached entry has a name |
| PluginManager.PluginManager.CheckAndKillPlugin | src/main/managers/pluginManager.ts:355-369 | the plugin is killed exactly when the outKillPlugin setting lists its name and it is still cached; otherwise nothing changes |
| PluginManager.PluginManager.KillPlugin | src/main/managers/pluginManager.ts:410-449 | true exactly when the path was cached; then that entry alone is removed, its view destroyed and the current plugin cleared if it was current; false changes nothing |
| PluginManager.PluginManager.KillAllPlugins | src/main/managers/pluginManager.ts:452-477 | every cached view is told it is killed and closed, in cache order; the cache, current view and path are emptied |
| PluginManager.PluginManager.CloseEntries | src/main/managers/pluginManager.ts:453-470 | the messages are those of each entry in cache order, and each entry's view is destroyed |
| PluginManager.PluginManager.CloseEntry | src/main/managers/pluginManager.ts:454-469 | a live view is sent plugin-out (killed) and closed; a destroyed one is not |
| PluginManager.PluginManager.KillCurrentPlugin | src/main/managers/pluginManager.ts:483-501 | nothing without a current plugin; otherwise killed exactly when it is cached, and then current is cleared and the window goes back to search and takes focus |
| PluginManager.PluginManager.OnRenderProcessGone | src/main/managers/pluginManager.ts:204-234 | the crashed path leaves the cache; if it was current, current is cleared and back-to-search sent; the current view, if live, gets the kill notice first and the plugin's windows are closed last |
| PluginManager.PluginManager.CreatePluginView | src/main/managers/pluginManager.ts:41-313 | a cached path is reused without a new entry and becomes current; an uncached path with a readable plugin.json gets one new entry and becomes current; an unreadable one changes nothing |
| PluginManager.PluginManager.ShowCachedView | src/main/managers/pluginManager.ts:62-114 | a cached entry becomes current again without any change to the cache; its view is shown and focused, sized 0 for a plugin without `main` and its cached height or 541 otherwise, and with a readable plugin.json announced as opened, with its placeholder or '搜索' and its visibility or false, and as loaded |
| PluginManager.PluginManager.OpenNewView | src/main/managers/pluginManager.ts:236-283 | an uncached path gets exactly one new entry at the end of the cache with the default sub-input settings and becomes current; the view is sized 0 before the window shrinks to the search bar, and the plugin is announced as opened |
| PluginManager.PluginManager.OnDidFinishLoad | src/main/managers/pluginManager.ts:290-306 | the load is announced first and a plugin with `main` restored to 541; the mode decision comes after, so a 'none' answer ends at height 0 with the headless call, and any other answer ends at the restored height with the enter event |
| PluginManager.PluginManager.ProcessPluginMode | src/main/managers/pluginManager.ts:659-690 | nothing when the view is no longer current; mode 'none' collapses the view to height 0 and calls the headless entry without touching the cache; any other mode restores a positive height, records it in the current view's entry alone, focuses the view and sends it the enter event |
| PluginManager.PluginManager.UpdatePluginViewBounds | src/main/managers/pluginManager.ts:614-634 | only a positive view height (height - 59) is applied and cached for the current view |
| PluginManager.PluginManager.HandlePluginEsc | src/main/managers/pluginManager.ts:742-752 | the ESC time is recorded, the plugin hidden, and the window goes back to search and takes focus |
| PluginManager.PluginManager.ShouldSuppressMainHide | src/main/managers/pluginManager.ts:756-763 | true exactly when an ESC was recorded at most withinMs ago |
| PluginManager.PluginManager.DetachCurrentPlugin | src/main/managers/pluginManager.ts:962-1053 | fails without a current plugin or cache entry, or when plugin.json or the window fails, changing nothing; with all of them present it succeeds exactly when the window is created; on success the entry leaves the cache, current view and path are cleared, and the view height is the stored size, else the cached height, else the default |
| PluginManager.PluginManager.CloseDetachedView | src/main/managers/pluginManager.ts:1029-1043 | after a detach the entry leaves the cache and cannot be found again, the current view and path are cleared, and the renderer is told the plugin closed and to go back to search |
| PluginManager.PluginManager.GetPluginInfoByWebContents | src/main/managers/pluginManager.ts:1061-1090 | cached views are searched before detached windows; null exactly when neither holds the webContents; isInternal follows the built-in list |
| PluginManager.PluginManager.IsPluginDev | src/main/managers/pluginManager.ts:765-783 | a cached view answers with its own development flag; a plugin window answers with its plugin's cached view's flag; anything else is false |
| PluginManager.ViewNotEarlier | src/main/managers/pluginManager.ts:453-470 | with distinct views, an entry's view is not among the earlier entries' views |
| PluginManager.KillAllEventsAppend | src/main/managers/pluginManager.ts:453-470 | one more entry appends its own messages after the earlier ones |
| PluginManager.KillAllClosesEveryPlugin | src/main/managers/pluginManager.ts:452-477 | every cached plugin's windows are asked to close |
| Commands.SortByRecency | src/main/api/renderer/commands.ts:493 | the history is ordered by lastUsed, most recent first, and is a permutation of its input |
| Commands.Touched | src/main/api/renderer/commands.ts:475-488 | the launched entry carries the launch time; a new one is used once, a found one has its count raised by one with name and icon refreshed |
| Commands.Recorded | src/main/api/renderer/commands.ts:469-489 | a found entry is replaced in place and nothing else moves; otherwise the new entry is appended |
| Commands.UpdatedHistory | src/main/api/renderer/commands.ts:469-498 | the saved history is sorted by recency, holds at most 27 entries, is cut to exactly that many when longer, and holds only recorded entries |
| Commands.RecordedSize | src/main/api/renderer/commands.ts:469-489 | the history keeps its length exactly when the command was already there, and grows by one exactly when it was not |
| Commands.JustUsedFirst | src/main/api/renderer/commands.ts:469-498 | with a clock ahead of the stored entries, the command just launched heads the saved history |
| Commands.RecordedOthersOlder | src/main/api/renderer/commands.ts:469-489 | apart from the entry just touched, every recorded entry is older than the launch |
| Commands.RemoveNamed | src/main/api/renderer/commands.ts:581-592 | an entry survives exactly when it is not named by the path (and feature code, for a plugin entry given one); survivors keep their order |
| Commands.RemoveNamedIdempotent | src/main/api/renderer/commands.ts:581-592 | removing twice removes nothing more |
| Commands.Clean | src/main/api/renderer/commands.ts:676-687 | a pinned entry keeps name, path, icon, type, feature code and explanation, and nothing else |
| Commands.PinApp | src/main/api/renderer/commands.ts:607-641 | an app already pinned leaves the list unchanged; otherwise its cleaned entry is appended |
| Commands.PinIdempotent | src/main/api/renderer/commands.ts:607-641 | after pinning the app is pinned, and pinning it again changes nothing |
| Commands.UnpinAfterPin | src/main/api/renderer/commands.ts:650-664 | unpinning what was just pinned leaves it unpinned |
| Commands.UpdatePinnedOrder | src/main/api/renderer/commands.ts:676-697 | the stored list is the new order, entry by entry cleaned |
| Commands.ReorderKeepsPins | src/main/api/renderer/commands.ts:676-697 | reordering keeps exactly the same commands pinned |
| Commands.GetDefaultFeatureCode | src/main/api/renderer/commands.ts:528-578 | an unreadable manifest and a manifest without features each fail with their own message; otherwise success exactly when some feature opens directly, and it is the first such feature, else the match-only message |
| Commands.PlanPluginLaunch | src/main/api/renderer/commands.ts:234-281 | a given feature code is used as the launch code; without one, the default feature's code or its error; a match command with a payload is recorded as the last match, anything else under its code |
| Commands.ResolveInfo | src/main/api/renderer/commands.ts:372-380 | a `special:` path gets a builtin record named by the command name or the path, with the command type or 'text'; any other path uses the looked-up record |
| Commands.LastMatchLaunch | src/main/api/renderer/commands.ts:262-274 | after a match launch the last-match entry heads the history and is the only entry with that path |
| Commands.AppsApi.constructor | src/main/api/renderer/commands.ts:34-38 | no launch parameter, no last match, the stored history |
| Commands.AppsApi.AddToHistory | src/main/api/renderer/commands.ts:357-511 | the history becomes the updated history, or stays when no record is found; nothing else changes |
| Commands.RecordLaunch | src/main/api/renderer/commands.ts:469-490 | the search for the launched entry and its update give the recorded history: the first matching entry refreshed in place, or a new entry used once appended |
| Commands.AppsApi.LaunchPlugin | src/main/api/renderer/commands.ts:220-281 | the launch parameter carries the payload and, on success, the code; a failed default lookup returns its error and records nothing; a match launch saves the query and records the last match |
| Commands.AppsApi.LaunchDirect | src/main/api/renderer/commands.ts:220-230 | the launch parameter holds the payload without a code, and the launch is recorded as an app |
| Commands.CmdItem | src/main/api/renderer/commands.ts:791-818 | a string command becomes a text command of its feature; an object command becomes a match command whose pattern is match, else regex, else empty; the icon is the feature's, else the plugin's logo |
| Commands.CmdsCatalog | src/main/api/renderer/commands.ts:789-819 | each command lands in exactly one list, text commands among the commands and match commands among the match commands |
| Commands.FeaturesCatalog | src/main/api/renderer/commands.ts:785-820 | a plugin's features contribute only text commands to the commands and only match commands to the match commands |
| Commands.PluginsCatalog | src/main/api/renderer/commands.ts:779-821 | every plugin's commands are sorted the same way |
| Commands.GetCommands | src/main/api/renderer/commands.ts:747-828 | applications, then system settings, then the plugins' text commands, in order; the match commands are the plugins' match commands |
| Commands.AddFeatures | src/main/api/renderer/commands.ts:785-820 | the loops over one plugin's features build exactly its catalogue |
| Commands.AddCmds | src/main/api/renderer/commands.ts:791-820 | the loop over one feature's commands puts text commands on the command list and match commands on the match list, in order |
| CommandData.ConfigForTable | src/renderer/src/stores/commandDataStore.ts:101-118 | exactly three keys have an entry: the last-match path, the Baidu prefix and the system-setting sub-type |
| CommandData.PrefixConfigTable | src/renderer/src/stores/commandDataStore.ts:132-140 | a path gets a prefix entry exactly when it starts with `baidu-search:` |
| CommandData.SubTypeEntry | src/renderer/src/stores/commandDataStore.ts:143-149 | only the `system-setting` sub-type has an entry |
| CommandData.SpecialConfigOf | src/renderer/src/stores/commandDataStore.ts:126-153 | the exact path entry wins, then the Baidu prefix entry, then the sub-type entry; otherwise none |
| CommandData.ApplySpecialConfig | src/renderer/src/stores/commandDataStore.ts:126-153 | path, sub-type and feature code are kept; the last-match entry shows as the built-in '上次匹配', a Baidu path as '百度搜索', a system setting gets the settings icon, anything else is shown as it is |
| CommandData.ApplySpecialConfigIdempotent | src/renderer/src/stores/commandDataStore.ts:126-153 | applying the overrides to their own result changes nothing more |
| CommandData.FlagRun | src/renderer/src/stores/commandDataStore.ts:594 | the run counted is exactly the maximal trailing run of flag letters |
| CommandData.FlagRunAfterSlash | src/renderer/src/stores/commandDataStore.ts:594 | after a slash, the trailing run is exactly the flags |
| CommandData.StripDelimited | src/renderer/src/stores/commandDataStore.ts:594 | a literal `/body/flags` compiles from its body |
| CommandData.StripPlain | src/renderer/src/stores/commandDataStore.ts:594 | a pattern without slashes is used as it is |
| CommandData.Extension | src/renderer/src/stores/commandDataStore.ts:743 | the extension is the last dot-separated segment and holds no dot |
| CommandData.FilesAcceptPart | src/renderer/src/stores/commandDataStore.ts:700-780 | a `files` command that takes a paste takes any part of it within its count bounds |
| CommandData.OverSearchesAgree | src/renderer/src/stores/commandDataStore.ts:604-631 | for an `over` command without exclude pattern, the typed search lists it exactly when the length is within bounds, as the paste-text search does |
| CommandData.Synced | src/renderer/src/stores/commandDataStore.ts:848-859 | a stored entry is replaced by a current command with the same name, type, sub-type and feature code, or kept |
| CommandData.Migrated | src/renderer/src/stores/commandDataStore.ts:237-257 | no entry keeps the old system-setting type, an entry whose icon comes from the overrides loses its stored icon, and path, name and feature code are kept |
| CommandData.LoadedHistory | src/renderer/src/stores/commandDataStore.ts:216-273 | a non-list loads as empty; every kept entry is installed and migrated; the list never grows; it is saved back exactly when some kept entry changed |
| CommandData.Saved | src/renderer/src/stores/commandDataStore.ts:812-837 | the saved entry keeps name, path, type, sub-type, feature code and usage; its icon only when the overrides do not set it; no match data |
| CommandData.SaveStable | src/renderer/src/stores/commandDataStore.ts:216-273 | saving a saved list changes nothing, and loading it back finds nothing to migrate |
| CommandData.DefaultFeature | src/renderer/src/stores/commandDataStore.ts:345-358 | the default feature has a plain-text command, and no earlier feature has one |
| CommandData.CmdEntry | src/renderer/src/stores/commandDataStore.ts:380-430 | a match-typed object becomes a match command carrying it under its label; anything else a text command under its string, or its label for an object (see Left out) |
| CommandData.CmdsCatalog | src/renderer/src/stores/commandDataStore.ts:380-431 | every command lands in exactly one list, according to whether it is a match command |
| CommandData.FeaturesCatalog | src/renderer/src/stores/commandDataStore.ts:375-433 | a plugin's features contribute plain entries to the commands and match entries to the match commands |
| CommandData.PluginCatalog | src/renderer/src/stores/commandDataStore.ts:343-434 | a plugin contributes nothing exactly when it has no features |
| CommandData.PluginsCatalog | src/renderer/src/stores/commandDataStore.ts:342-435 | every plugin's entries are sorted the same way |
| CommandData.CommandDataStore.constructor | src/renderer/src/stores/commandDataStore.ts:155-167 | empty history, pins and command lists, no fuzzy index, no pending local update |
| CommandData.CommandDataStore.LoadCommands | src/renderer/src/stores/commandDataStore.ts:319-488 | applications, then plugin entries, then (on Windows) system settings; match commands apart; the index is rebuilt |
| CommandData.CommandDataStore.Search | src/renderer/src/stores/commandDataStore.ts:537-646 | an empty query or missing index lists only applications and no match commands; otherwise the fuzzy results through the overrides, and the match commands the query passes only for the global list |
| CommandData.KeepAccepted | src/renderer/src/stores/commandDataStore.ts:583-633 | the loop over the match commands keeps exactly those the query passes, in their order |
| CommandData.CommandDataStore.SearchImageCommands | src/renderer/src/stores/commandDataStore.ts:649-658 | exactly the `img` commands, shown through the overrides |
| CommandData.CommandDataStore.SearchTextCommands | src/renderer/src/stores/commandDataStore.ts:661-688 | nothing for empty text, otherwise exactly the `over` commands whose bounds contain its length |
| CommandData.CommandDataStore.SearchFileCommands | src/renderer/src/stores/commandDataStore.ts:691-793 | nothing for no files, otherwise exactly the `files` commands that accept every file |
| CommandData.CommandDataStore.IsPinnedHere | src/renderer/src/stores/commandDataStore.ts:904-912 | true exactly when some pinned entry is named by the path (and feature code, for a plugin entry given one) |
| CommandData.CommandDataStore.GetRecentCommands | src/renderer/src/stores/commandDataStore.ts:846-869 | the history in order, each entry synced and shown, cut to the limit |
| CommandData.CommandDataStore.GetPinnedCommands | src/renderer/src/stores/commandDataStore.ts:929-944 | the pinned list in order, each entry synced |
| CommandData.CommandDataStore.LoadHistoryData | src/renderer/src/stores/commandDataStore.ts:216-280 | the history becomes the loaded history and the save flag follows it; nothing else changes |
| CommandData.CommandDataStore.LoadPinnedData | src/renderer/src/stores/commandDataStore.ts:283-310 | a stored list loses uninstalled plugins; anything else loads as empty |
| CommandData.CommandDataStore.UpdatePinnedOrder | src/renderer/src/stores/commandDataStore.ts:947-964 | the new order is taken at once and the coming change notice is marked as local |
| CommandData.CommandDataStore.OnPinnedChanged | src/renderer/src/stores/commandDataStore.ts:192-201 | the local notice is swallowed once; any other reloads the pinned list |
| CommandData.ExpandPlugin | src/renderer/src/stores/commandDataStore.ts:343-434 | the loop over one plugin builds exactly its catalogue |
| CommandData.ExpandCmds | src/renderer/src/stores/commandDataStore.ts:380-431 | the loop over one feature's commands builds exactly its catalogue |
| Plugins.ValidateManifest | src/main/api/renderer/plugins.ts:149-191 | success exactly when name, a free directory, an unused name, version and a non-empty list of complete features are all present; the first failing check names the error, in the source's order |
| Plugins.LogoUrl | src/main/api/renderer/plugins.ts:201 | no logo gives "", a logo gives a `file:///` URL ending with it |
| Plugins.ZipInstall | src/main/api/renderer/plugins.ts:119-243 | a missing or malformed plugin.json fails with its message; otherwise success exactly when the manifest checks pass, giving a non-development plugin under `<pluginDir>/<name>` with an unused name and complete features |
| Plugins.DevImport | src/main/api/renderer/plugins.ts:258-362 | a file not named plugin.json is refused; otherwise the manifest checks without the directory check decide, and the plugin lives in the chosen directory and runs `development.main` |
| Plugins.InstallKeepsNamesUnique | src/main/api/renderer/plugins.ts:166-170 | an install keeps the stored names distinct, and the same manifest is refused a second time |
| Plugins.Delete | src/main/api/renderer/plugins.ts:370-408 | a missing list or an unknown path fails with its message; a built-in plugin is refused; otherwise exactly its entry is spliced out, and its directory goes unless it is a development plugin |
| Plugins.DeleteRemovesExactly | src/main/api/renderer/plugins.ts:377-393 | with distinct paths, a delete keeps exactly the plugins at other paths, in order |
| Plugins.InternalNeverDeleted | src/main/api/renderer/plugins.ts:384-390 | the built-in 'setting' plugin is never removed |
| Plugins.Or | src/main/api/renderer/plugins.ts:443-450 | a truthy new value wins, otherwise the old one |
| Plugins.ReloadFieldwise | src/main/api/renderer/plugins.ts:441-451 | name, version, description, logo, features and main take the manifest's value when truthy and keep the stored one otherwise; every other field is kept |
| Plugins.ReloadIdempotent | src/main/api/renderer/plugins.ts:441-451 | reloading twice from one manifest is reloading once, and an empty manifest changes nothing |
| Plugins.Reload | src/main/api/renderer/plugins.ts:416-456 | a missing list, an unknown path, a missing or unparsable plugin.json fail with their messages; otherwise only the entry at the path is replaced by the merge |
| Plugins.PluginList.constructor | src/main/api/renderer/plugins.ts:210-211 | the stored list as read |
| Plugins.PluginList.InstallFromZip | src/main/api/renderer/plugins.ts:119-243 | a successful install is pushed at the end of the stored list; a failed one changes nothing |
| Plugins.PluginList.ImportDevPlugin | src/main/api/renderer/plugins.ts:258-362 | a successful import is pushed at the end of the stored list; a failed one changes nothing |
| Plugins.PluginList.DeletePlugin | src/main/api/renderer/plugins.ts:370-413 | a failed delete returns its error and changes nothing; a successful one stores the shortened list and says whether the directory goes |
| Plugins.PluginList.ReloadPlugin | src/main/api/renderer/plugins.ts:416-461 | a failed reload returns its error and changes nothing; a successful one stores the rewritten list |
| Plugins.NormalizedIcons | src/main/api/renderer/plugins.ts:81-87 | each feature with an icon has it resolved against the plugin path; the others are unchanged |
| Plugins.StaticFeaturesFirst | src/main/api/renderer/plugins.ts:76-78 | the static features stay first and in order, the dynamic ones follow, and nothing but the features changes |
| Plugins.GetPlugins | src/main/api/renderer/plugins.ts:70-95 | one entry per stored plugin, in order, each with its dynamic features appended |
| Plugins.KillPlugin | src/main/api/renderer/plugins.ts:472-488 | success exactly when the manager exists and killed the plugin; otherwise '插件未运行' or, without a manager, '功能不可用' |
| Plugins.KillPluginAndReturn | src/main/api/renderer/plugins.ts:491-509 | the same reply as killPlugin, and back-to-search is sent exactly on success |
| Plugins.DropChars | src/main/api/renderer/plugins.ts:704 | dropping n characters leaves the suffix after the first n |
| Plugins.PluginDbData | src/main/api/renderer/plugins.ts:690-710 | one entry per document, its id without the plugin's prefix, its data and revision as stored |
| Plugins.DbDataRecoversKeys | src/main/api/renderer/plugins.ts:696-704 | a key the plugin stored under its prefix comes back as the key it used |
| Plugins.Fallback | src/main/api/renderer/plugins.ts:587-598 | a failure is served from the cache exactly when there is cached data |
| Plugins.FetchPluginMarket | src/main/api/renderer/plugins.ts:512-600 | cached data always yields success; an empty listing or one without a list file falls back; once the latest list file is known, a cache holding its version and data is served and nothing saved, otherwise the list downloaded from that file's page is answered and saved with that version, and a failed download falls back |
| MainWindowManager.ClampWidth | src/main/managers/windowManager.ts:166-177 | the width is kept within [700, 1200], unchanged inside it and pinned to the nearer bound outside |
| MainWindowManager.WillResize | src/main/managers/windowManager.ts:160-226 | in search mode a resize is replaced exactly when it changes the height or needs clamping, keeping the height; in plugin mode exactly when it needs clamping (height at least 200) or moves the top edge, keeping the top; a width is saved exactly when the clamped width differs from the current one |
| MainWindowManager.ResizeKeepsConstraints | src/main/managers/windowManager.ts:160-226 | whatever is requested, the width ends in range, the height is pinned in search mode and at least 200 with the top kept in plugin mode |
| MainWindowManager.ResizeSettles | src/main/managers/windowManager.ts:160-226 | requesting the bounds the window ended up with is let through |
| MainWindowManager.AutoBackToSearchDelay | src/main/managers/windowManager.ts:674-694 | the delay is -1 or more |
| MainWindowManager.DelayTable | src/main/managers/windowManager.ts:674-694 | exactly the six listed settings have a delay, in whole seconds, strictly increasing in the listed order |
| MainWindowManager.TimerDecision | src/main/managers/windowManager.ts:619-645 | no timer exactly for 'never', back at once exactly for 'immediately', otherwise a timer with the table's non-zero delay |
| MainWindowManager.UnknownConfigStartsTimer | src/main/managers/windowManager.ts:627-637 | only the literal 'never' suppresses the timer: an unrecognised setting starts one with delay -1 |
| MainWindowManager.CentredMargins | src/main/managers/windowManager.ts:563-566 | centring leaves the right margin equal to the left one or one pixel wider, and likewise bottom against top |
| MainWindowManager.WindowManager.constructor | src/main/managers/windowManager.ts:34-51 | no window, search mode, no remembered positions, setting 'never', no timer, nothing recorded |
| MainWindowManager.WindowManager.SetSearchMode | src/main/managers/windowManager.ts:56-59 | search mode, nothing else changes |
| MainWindowManager.WindowManager.SetPluginMode | src/main/managers/windowManager.ts:64-67 | plugin mode, nothing else changes |
| MainWindowManager.WindowManager.NotifyBackToSearch | src/main/managers/windowManager.ts:73-76 | search mode, and back-to-search is sent when there is a window |
| MainWindowManager.WindowManager.BackToSearch | src/main/managers/windowManager.ts:662-669 | with a window the plugin view is hidden and search mode restored; without one nothing happens |
| MainWindowManager.WindowManager.UpdateAutoBackToSearch | src/main/managers/windowManager.ts:697-700 | the setting is stored, nothing else changes |
| MainWindowManager.WindowManager.StartAutoBackToSearchTimer | src/main/managers/windowManager.ts:619-645 | the pending timer is cancelled; then nothing, back to search at once, or a timer with the setting's delay |
| MainWindowManager.WindowManager.AutoBackToSearchFired | src/main/managers/windowManager.ts:639-642 | the timer firing goes back to search and leaves no timer pending |
| MainWindowManager.WindowManager.CancelAutoBackToSearchTimer | src/main/managers/windowManager.ts:651-657 | no timer is pending afterwards, nothing else changes |
| MainWindowManager.WindowManager.SaveWindowPosition | src/main/managers/windowManager.ts:541-543 | the display's position is remembered, the others are kept |
| MainWindowManager.WindowManager.TargetPosition | src/main/managers/windowManager.ts:554-567 | the remembered position of the display, else the centred one |
| MainWindowManager.WindowManager.MoveWindowToCursor | src/main/managers/windowManager.ts:549-570 | with a window it moves to the target position on the display under the cursor, size unchanged |
| MainWindowManager.WindowManager.RestorePreviousWindow | src/main/managers/windowManager.ts:717-746 | false with nothing recorded or for an ignored launcher; otherwise true exactly when activation succeeds |
| WindowStore.AutoPasteTimeLimit | src/renderer/src/stores/windowStore.ts:347-360 | the auto-paste limit is never negative |
| WindowStore.AutoPasteTable | src/renderer/src/stores/windowStore.ts:347-360 | a positive limit comes exactly from one of '1s', '3s', '5s' and '10s', each allowing as many seconds as it names; 'off' gives 0 |
| WindowStore.AutoClearTimeLimit | src/renderer/src/stores/windowStore.ts:363-382 | the auto-clear limit is −1 or more |
| WindowStore.AutoClearTable | src/renderer/src/stores/windowStore.ts:363-382 | −1 comes from 'never' and from nothing else; '1m' to '10m' each wait as many minutes as they name |
| WindowStore.ClearAfter | src/renderer/src/stores/windowStore.ts:396-406 | limit −1 never clears, limit 0 always clears, a positive limit clears exactly when the hidden time reached it |
| WindowStore.ClearSettings | src/renderer/src/stores/windowStore.ts:363-406 | 'never' keeps the search; 'immediately' and every unrecognised setting clear it whatever the elapsed time |
| WindowStore.ClearMonotone | src/renderer/src/stores/windowStore.ts:388-406 | a search cleared after some hidden time is also cleared after any longer one |
| WindowStore.HexValue | src/renderer/src/stores/windowStore.ts:250-255 | one hex digit reads as a value below 16 |
| WindowStore.HexChar | src/renderer/src/stores/windowStore.ts:343 | a value below 16 is written as a lower-case hex digit that reads back as that value |
| WindowStore.PairValue | src/renderer/src/stores/windowStore.ts:250-255 | two hex digits read as a value below 256 |
| WindowStore.HexToRgb | src/renderer/src/stores/windowStore.ts:249-257 | a colour parses exactly when it is six hex digits with or without a leading '#', and every component is below 256 |
| WindowStore.HexString | src/renderer/src/stores/windowStore.ts:343 | `toString(16)` writes at least one digit |
| WindowStore.PadStart2 | src/renderer/src/stores/windowStore.ts:343 | padding gives length 2 to shorter strings and leaves longer ones as long as they were |
| WindowStore.TwoDigits | src/renderer/src/stores/windowStore.ts:342-344 | a component below 256 is written as its two lower-case hex digits, high digit first |
| WindowStore.RgbRoundTrip | src/renderer/src/stores/windowStore.ts:249-344 | writing three components below 256 as a colour and parsing it gives the same three components back |
| WindowStore.DigitCanonical | src/renderer/src/stores/windowStore.ts:249-344 | reading one hex digit and writing it back gives its lower-case form |
| WindowStore.PairCanonical | src/renderer/src/stores/windowStore.ts:249-344 | reading a pair of hex digits and writing it back gives its lower-case form |
| WindowStore.HexCanonical | src/renderer/src/stores/windowStore.ts:249-344 | parsing a colour and writing it back gives the lower-case six digits after a single '#' |
| WindowStore.Store.constructor | src/renderer/src/stores/windowStore.ts:39-56 | a new store shows the default placeholder and avatar, no plugin, not loading, sub-input '搜索' hidden, paste 'off', clear 'immediately', show time now |
| WindowStore.Store.UpdatePlaceholder | src/renderer/src/stores/windowStore.ts:88-90 | the placeholder becomes the value, or the default when the value is empty, so it is never empty |
| WindowStore.Store.UpdateAvatar | src/renderer/src/stores/windowStore.ts:93-95 | the avatar becomes the value, or the bundled default when the value is empty |
| WindowStore.Store.UpdateCurrentPlugin | src/renderer/src/stores/windowStore.ts:98-125 | the current plugin is replaced; without a plugin loading stops and the sub-input is untouched; with one, loading starts and the sub-input takes the plugin's placeholder (or '搜索') and visibility (or hidden) |
| WindowStore.Store.UpdateSubInputPlaceholder | src/renderer/src/stores/windowStore.ts:128-139 | the sub-input placeholder changes only while a plugin is current, to the value or '搜索' when it is empty |
| WindowStore.Store.UpdateAutoPaste | src/renderer/src/stores/windowStore.ts:152-154 | the auto-paste setting becomes the value |
| WindowStore.Store.UpdateAutoClear | src/renderer/src/stores/windowStore.ts:157-159 | the auto-clear setting becomes the value |
| WindowStore.Store.ShouldClearSearch | src/renderer/src/stores/windowStore.ts:388-407 | the show time always becomes now; the answer is the clear rule applied to the setting's limit and the time since the previous show |
| WindowStore.Store.LoadSettings | src/renderer/src/stores/windowStore.ts:432-450 | without stored settings nothing changes; otherwise each non-empty stored placeholder, paste and clear setting is taken, and the avatar only when it is not the bundled default |
| LocalShortcuts.Classify | src/main/api/renderer/localShortcuts.ts:239-256 | a path is an application exactly when it is a '.app' directory on macOS or an '.exe'/'.lnk' file on Windows; other directories are folders and other paths files |
| LocalShortcuts.ClassifyElsewhere | src/main/api/renderer/localShortcuts.ts:239-256 | off macOS and Windows a directory is always a folder and anything else a file |
| LocalShortcuts.ChooseIcon | src/main/api/renderer/localShortcuts.ts:259-277 | an application always gets a `ztools-icon://` icon; files and folders get the system file icon, or none |
| LocalShortcuts.AppIconNamesItsFile | src/main/api/renderer/localShortcuts.ts:261-269 | decoding an application's icon URL gives back the bundle's icon file on macOS and the selected path elsewhere |
| LocalShortcuts.IconCandidates | src/main/api/renderer/localShortcuts.ts:45-50 | four candidates are tried: the base name itself first, then three longer names that start with it |
| LocalShortcuts.MacIconIsFirstPresent | src/main/api/renderer/localShortcuts.ts:29-68 | the chosen bundle icon is an existing candidate with no existing candidate before it, or the generic icon when none exists |
| LocalShortcuts.MacAppIconFile | src/main/api/renderer/localShortcuts.ts:29-68 | the icon found is the one the first-existing-candidate rule picks, the generic icon without a `CFBundleIconFile` |
| LocalShortcuts.AddToList | src/main/api/renderer/localShortcuts.ts:307-315 | an add fails with '该项目已存在' exactly when the path is already listed; otherwise the list grows by the new entry at its end and is otherwise unchanged |
| LocalShortcuts.AddKeepsPathsDistinct | src/main/api/renderer/localShortcuts.ts:307-315 | a list whose paths are distinct keeps them distinct after an add |
| LocalShortcuts.AddTwiceRefused | src/main/api/renderer/localShortcuts.ts:307-315 | adding a second entry with a path just added is refused |
| LocalShortcuts.DeleteFromList | src/main/api/renderer/localShortcuts.ts:333-341 | a delete fails with '未找到该项目' exactly when no entry has the id; otherwise the result is shorter and holds exactly the entries with another id |
| LocalShortcuts.AddThenDelete | src/main/api/renderer/localShortcuts.ts:307-341 | deleting an entry just added under a fresh id gives back the list before the add |
| LocalShortcuts.DeleteTwiceFails | src/main/api/renderer/localShortcuts.ts:333-341 | deleting the same id a second time fails |
| LocalShortcuts.AllShortcuts | src/main/api/renderer/localShortcuts.ts:97-105 | the stored list, or the empty list when nothing is stored |
| LocalShortcuts.OpenReply | src/main/api/renderer/localShortcuts.ts:359-376 | opening succeeds exactly when `shell.openPath` reports the empty string, and fails with what it reported otherwise |
| LocalShortcuts.LocalShortcutsAPI.constructor | src/main/api/renderer/localShortcuts.ts:74-75 | a new API has no main window |
| LocalShortcuts.LocalShortcutsAPI.Init | src/main/api/renderer/localShortcuts.ts:77-80 | after `init` the main window is known |
| LocalShortcuts.LocalShortcutsAPI.GetAllShortcuts | src/main/api/renderer/localShortcuts.ts:97-105 | returns the stored list, empty when nothing is stored |
| LocalShortcuts.LocalShortcutsAPI.AddShortcutByPath | src/main/api/renderer/localShortcuts.ts:233-330 | a failed `stat` is reported and stores nothing; otherwise the entry is classified, given its icon and appended unless its path is listed, and a failed write reports its error and stores nothing |
| LocalShortcuts.LocalShortcutsAPI.AddShortcut | src/main/api/renderer/localShortcuts.ts:110-228 | without a main window, or when the dialog is cancelled or empty, nothing is stored; with a selection and a successful `stat`, the first selected path is added exactly as by path: appended unless listed, or the add or write error with nothing stored |
| LocalShortcuts.LocalShortcutsAPI.DeleteShortcut | src/main/api/renderer/localShortcuts.ts:333-355 | the list becomes the delete's result unless no entry had the id or the write failed, each reported; after a successful delete no entry has the id |
| WindowsScanner.ShouldSkipIgnoresCase | src/main/core/commandScanner/windowsScanner.ts:62-74 | the skip test gives the same answer for a name and target as for their lower-case forms |
| WindowsScanner.UninstallerSkipped | src/main/core/commandScanner/windowsScanner.ts:56-66 | a shortcut named 'Uninstall App' is skipped whatever its target |
| WindowsScanner.DocumentTargetSkipped | src/main/core/commandScanner/windowsScanner.ts:38-71 | a shortcut whose target ends in '.TXT' is skipped although the listed extension is lower-case |
| WindowsScanner.LnkNotSkippedTarget | src/main/core/commandScanner/windowsScanner.ts:38-53 | no path ending in '.lnk' has a skipped extension |
| WindowsScanner.SafeFileName | src/main/core/commandScanner/windowsScanner.ts:88 | the safe name has the name's length, none of the characters `<>:"/\|?*`, and every other character of the name in place |
| WindowsScanner.SafeFileNameIdempotent | src/main/core/commandScanner/windowsScanner.ts:88 | making a safe name safe again changes nothing |
| WindowsScanner.IconFileInIconDir | src/main/core/commandScanner/windowsScanner.ts:88-89 | the icon path's last segment is the safe name plus '.png', so no application name adds a folder |
| WindowsScanner.LnkBaseName | src/main/core/commandScanner/windowsScanner.ts:141 | the application name plus '.lnk' is the entry's name |
| WindowsScanner.AppPath | src/main/core/commandScanner/windowsScanner.ts:155-168 | the launch path is the target when it is non-empty and exists, and the shortcut itself otherwise |
| WindowsScanner.ShortcutApp | src/main/core/commandScanner/windowsScanner.ts:140-189 | a shortcut contributes at most one application, named after the file without '.lnk', not skipped, launched by the target-or-shortcut path |
| WindowsScanner.SkippedFolderContributesNothing | src/main/core/commandScanner/windowsScanner.ts:125-128 | a folder whose lower-cased name is in the skip list contributes nothing, whatever it holds |
| WindowsScanner.ShortcutAppAdmitted | src/main/core/commandScanner/windowsScanner.ts:140-189 | an application a shortcut contributes has no skipped name, no skipped path extension and the icon file of its name |
| WindowsScanner.ScanEntryAdmitted | src/main/core/commandScanner/windowsScanner.ts:116-194 | every application found under one entry, at any depth, is admitted by the filters and has its icon file |
| WindowsScanner.ScanEntriesAdmitted | src/main/core/commandScanner/windowsScanner.ts:116-194 | every application found in a folder listing is admitted by the filters and has its icon file |
| WindowsScanner.ScanDirectory | src/main/core/commandScanner/windowsScanner.ts:116-197 | a readable folder appends its listing's applications in order to those collected; an unreadable one appends nothing |
| WindowsScanner.Dedupe | src/main/core/commandScanner/windowsScanner.ts:216-224 | deduplication never lengthens the list |
| WindowsScanner.DedupeDistinct | src/main/core/commandScanner/windowsScanner.ts:216-224 | the kept applications have pairwise-distinct keys, and every key of the input is still present |
| WindowsScanner.DedupeKeepsFirst | src/main/core/commandScanner/windowsScanner.ts:216-224 | each kept application is the first of the input with its key |
| WindowsScanner.DedupeApps | src/main/core/commandScanner/windowsScanner.ts:216-224 | the loop keeps the same applications as the deduplication function, and their lower-cased paths are distinct |
| WindowsScanner.ScanMenusAdmitted | src/main/core/commandScanner/windowsScanner.ts:208-213 | every application found under any Start-menu root is admitted by the filters |
| WindowsScanner.ScanApplications | src/main/core/commandScanner/windowsScanner.ts:199-235 | the result is every root scanned in order, deduplicated by lower-cased path |
| WindowsScanner.ScanResult | src/main/core/commandScanner/windowsScanner.ts:199-235 | the scanner returns applications with distinct lower-cased paths, each the first of its path in walk order, none filtered, each with its icon file |
| ProxyManager.RemoveFirst | src/main/managers/proxyManager.ts:116 | removing ':' leaves a protocol without one unchanged and shortens one that has it by exactly one character |
| ProxyManager.SchemeOfProtocol | src/main/managers/proxyManager.ts:116 | a scheme without ':' is given back from its protocol form `scheme:` |
| ProxyManager.PortOrDefault | src/main/managers/proxyManager.ts:118 | an explicit port is kept; without one the port is 443 for https and 80 for every other scheme |
| ProxyManager.ProxyRules | src/main/managers/proxyManager.ts:111-134 | an empty URL gives empty rules, and a URL that does not parse is used as the rules unchanged |
| ProxyManager.ProxyRulesEmptyIff | src/main/managers/proxyManager.ts:111-134 | the rules are empty exactly when the URL is |
| ProxyManager.SocksRule | src/main/managers/proxyManager.ts:121-123 | a socks4 or socks5 URL becomes `scheme://host:port`, with 80 for a missing port |
| ProxyManager.HttpRule | src/main/managers/proxyManager.ts:118-126 | an http or https URL becomes `host:port`, with 443 (https) or 80 (http) for a missing port |
| ProxyManager.OtherSchemeUnchanged | src/main/managers/proxyManager.ts:129-130 | a URL of any other scheme is used as the rules unchanged |
| ProxyManager.SessionProxy | src/main/managers/proxyManager.ts:43-69 | a disabled setting, or one with no rules or empty rules, clears the session's proxy; otherwise the session gets the rules and the local bypass list |
| ProxyManager.AppliedIffEnabledWithUrl | src/main/managers/proxyManager.ts:23-69 | once a setting is stored, the session gets a proxy exactly when it is enabled with a non-empty URL |
| ProxyManager.Session.constructor | src/main/managers/proxyManager.ts:46-49 | a new session has no proxy and no bypass rules |
| ProxyManager.ProxyManager.constructor | src/main/managers/proxyManager.ts:17 | the manager starts disabled with an empty URL and no rules |
| ProxyManager.ProxyManager.SetProxyConfig | src/main/managers/proxyManager.ts:23-29 | the stored setting becomes the flag, the URL and the rules derived from the URL |
| ProxyManager.ProxyManager.GetProxyConfig | src/main/managers/proxyManager.ts:34-36 | returns the stored setting |
| ProxyManager.ProxyManager.ApplyProxyToSession | src/main/managers/proxyManager.ts:43-75 | the session's proxy becomes what the stored setting calls for |
| Preload.PlatformsExclusive | resources/preload.js:28-31 | at most one of the macOS, Windows and Linux tests holds for any OS type |
| Preload.DispatchCalls | resources/preload.js:499-537 | dispatch calls the registered functions in registration order with the event's payload, and stops exactly at the first registered value that is not a function |
| Preload.DispatchCallsAll | resources/preload.js:499-537 | a registry holding only functions has every one of them called |
| Preload.DispatchAppend | resources/preload.js:46-49 | a function registered last is called last, after all those registered before it |
| Preload.DispatchPrefix | resources/preload.js:499-537 | dispatch makes the calls of the functions before the first non-function, and no others |
| Preload.DispatchStep | resources/preload.js:499-537 | one more function after an all-function prefix adds exactly its own call |
| Preload.CallPluginMethod | resources/preload.js:540-595 | the reply succeeds exactly when exports exist, the feature exists with mode 'none' and an `enter` function, and `enter` returned; each failed guard gives its own message, and a throw from `enter` gives its message |
| Preload.GuardsBeforeEnter | resources/preload.js:540-582 | when a guard fails, the reply does not depend on what `enter` would have done |
| Preload.PluginMode | resources/preload.js:609-614 | the mode is the feature's own when exports and the feature exist, and undefined otherwise |
| Preload.RunnableReportsNone | resources/preload.js:540-614 | a feature that `call-plugin-method` runs reports mode 'none' to `get-plugin-mode` |
| Preload.ForwardedSendTo | resources/preload.js:5-9 | the polyfilled `sendTo` sends on 'ipc-send-to' the target id, then the channel, then the arguments unchanged |
| Preload.PluginPreload.constructor | resources/preload.js:5-21 | at start every registry and both logs are empty, and the polyfill is installed exactly when Electron has no `sendTo` |
| Preload.PluginPreload.GuardedDispatchComplete | resources/preload.js:51-63 | for the events whose registrars accept functions only, every registered callback is called |
| Preload.PluginPreload.OnPluginEnter | resources/preload.js:46-49 | whatever is passed is registered for plugin-enter, at the end |
| Preload.PluginPreload.OnClipboardChange | resources/preload.js:174-176 | whatever is passed is registered for clipboard changes, at the end |
| Preload.PluginPreload.OnUpdateWindowMaterial | resources/preload.js:468-470 | whatever is passed is registered for window-material updates, at the end |
| Preload.PluginPreload.OnPluginOut | resources/preload.js:51-56 | a function is registered for plugin-out at the end; anything else is ignored |
| Preload.PluginPreload.OnPluginDetach | resources/preload.js:58-63 | a function is registered for plugin-detach at the end; anything else is ignored |
| Preload.PluginPreload.OnMainPush | resources/preload.js:66-71 | a function is registered for main-push at the end; anything else is ignored |
| Preload.PluginPreload.OnHotkeyRecorded | resources/preload.js:398-402 | a function is registered for recorded hotkeys at the end; anything else is ignored |
| Preload.PluginPreload.SetSubInput | resources/preload.js:86-94 | a function `onChange` is registered for sub-input changes, and the placeholder and focus flag are sent to the host in either case |
| Preload.PluginPreload.Broadcast | resources/preload.js:499-537 | an event appends to the call log exactly the calls dispatch makes for its registry |
| Preload.PluginPreload.HandleCallPluginMethod | resources/preload.js:540-595 | exactly one reply is sent, on `plugin-method-result-<callId>`, carrying the `call-plugin-method` outcome |
| Preload.PluginPreload.HandleGetPluginMode | resources/preload.js:609-614 | exactly one reply is sent, on `plugin-mode-result-<callId>`, carrying the feature's mode |
| Preload.PluginPreload.SendTo | resources/preload.js:5-9 | with the polyfill the message is forwarded through the host; otherwise Electron's own `sendTo` is used |
| WindowApi.ClampHeight | src/main/api/renderer/window.ts:54-55 | the height lies in [59, 600] and is unchanged when already in range |
| WindowApi.ClampHeightNearest | src/main/api/renderer/window.ts:54-55 | no allowed height is nearer to the requested one than the clamped height |
| WindowApi.ClampOpacity | src/main/api/renderer/window.ts:81 | the opacity lies in [0.3, 1] and is unchanged when already in range |
| WindowApi.ClampOpacityNearest | src/main/api/renderer/window.ts:81 | no allowed opacity is nearer to the requested one than the clamped opacity |
| WindowApi.WindowAPI.Init | src/main/api/renderer/window.ts:10-14 | the API holds the given main window |
| WindowApi.WindowAPI.ResizeWindow | src/main/api/renderer/window.ts:50-63 | with a window, its height becomes the clamped height; width, position and opacity are kept; without one nothing happens |
| WindowApi.WindowAPI.GetWindowPosition | src/main/api/renderer/window.ts:65-71 | the window's position, or (0, 0) when there is no window |
| WindowApi.WindowAPI.SetWindowPosition | src/main/api/renderer/window.ts:73-77 | with a window, it moves to (x, y) and keeps its size and opacity |
| WindowApi.WindowAPI.SetWindowOpacity | src/main/api/renderer/window.ts:79-85 | with a window, its opacity becomes the clamped value and nothing else changes |
| WindowApi.WindowAPI.MoveSettled | src/main/api/renderer/window.ts:30-44 | once a move settles, the position is saved for the current display; with no window or no display the saved positions are unchanged |

## Left out

**Throughout**
- Electron objects are opaque ids. This covers views, windows, sessions,
  webContents, `loadURL`, `insertCSS`, `setBounds`, focus, notifications and
  `webContents.send`. What the code sends or asks of them is an event log or
  a state field.
- Timers and debounces are left out; only the decision taken when they fire
  is modelled. This covers the 200 ms kill-on-hide delay, the 1 s mode probe,
  the 30 s headless-call timeout, the auto-back-to-search timer, and the
  width-save and move debounces.
- `await` points are not interleaved. The part of an operation before its
  first `await` is one method; where the code goes on in the same handler
  while an `await` is pending, the awaited rest is a separate method run
  afterwards. `processPluginMode` awaits the mode probe, so
  `OnDidFinishLoad` runs it after the handler's own steps, and the mode
  decision of a reused view is `ProcessPluginMode` called on its own. The
  race between two concurrent launches of `createPluginView` is not
  modelled.
- Console logging and `try`/`catch` around logging are left out.
- `toLowerCase` and the `i` regular-expression flag are ASCII-only here.
  Unicode case folding is not modelled.
- JavaScript numbers are integers, except opacity, which is a real.
  NaN, fractional pixels and floating-point rounding are not modelled.

**src/main/api/shared/database.ts**
- The lmdb engine (`syncApi`, `lmdbInstance`) is not part of this model.
  - Its revision-conflict verdict and the revision it assigns are inputs.
  - The promise channel (`promiseApi`) uses the same functions as the
    synchronous one.
- `bulkDocs` error entries and engine exceptions are replies the engine
  chooses. They are passed through unchanged.

**src/main/api/plugin/internal.ts**
- The delegates behind each `internal:*` handler live in other files. Their
  replies are parameters; only the gate and the two database calls are
  modelled.

**src/main/core/internalPlugins.ts**
- InternalPlugins.PathJoin: `path.resolve`/`path.join` normalisation (`..`,
  repeated separators, platform separators) is not modelled. Segments are
  joined with '/'.

**src/main/managers/pluginManager.ts**
- These methods are Electron glue: `sendPluginMessage`,
  `getRunningPlugins`, the sub-input setters, `callHeadlessPluginMethod`, the
  window creation inside `createPluginInDetachedWindow`,
  `openPluginDevTools` and `sendInputEvent`.
- The cached view's webContents listeners (`before-input-event`, devtools
  shortcuts) are not modelled.

**src/main/core/pluginWindowManager.ts**
- `sendToParent`, `executeMethod`, `getPropertyByPath`, `getPropertyInfo`
  and `isBrowserWindow` are not modelled. They walk live Electron objects by
  reflection.
- The outcome of a reflective call is an input of `callMethodSync`.

**resources/preload.js**
- The remaining `window.ztools` APIs are not modelled: clipboard, db,
  dialogs, screen, shell, and the invoke wrappers. They forward to the host
  with no logic of their own.
- What a registered callback does is not modelled. A plugin's exports are
  abstract: each feature is its mode and whether `args.enter` is a function.
  A feature that is present but falsy counts as absent.
- What `enter(action)` returns or throws is an input. The re-throw after the
  error reply is not modelled.
- The Escape key listener is not modelled. It only sends
  'plugin-esc-pressed'.
- Preload.PluginPreload.SetSubInput records the `invoke` it makes. The value
  that the `invoke` returns is not modelled.

**src/main/api/renderer/commands.ts**
- Application scanning, icon extraction and caching, and the persistence of
  `lastMatchState` are I/O. Their results are inputs.
- The auto-detach branch of `launch` is not modelled. It calls into the
  detached-window manager, which is not part of this model.

**src/renderer/src/stores/commandDataStore.ts**
- Fuse's fuzzy ranking, `calculateMatchScore` and pinyin are not modelled.
  The fuzzy results are a parameter of search.
- Regular expressions written by plugin authors are an uninterpreted test,
  with None for a pattern that does not compile.
- `nextTick` and Vue reactivity are not modelled.
- CommandData.CmdEntry: an object cmd whose type is not a match type is
  listed under its label. The code names it by the object itself and takes
  the pinyin of that object; a command name here is a string, so that
  non-string name is not modelled.

**src/main/api/renderer/plugins.ts**
- These are file, archive, dialog and network I/O, and are not modelled:
  - the `importPlugin` dialog;
  - `installPluginFromMarket`;
  - `getPluginReadme`;
  - the download retry loop;
  - the lanzou link helpers;
  - zip extraction.
- What they yield is an input.

**src/main/api/plugin/redirect.ts, src/main/api/index.ts**
- The notification text and the emitted events are recorded. Showing
  notifications is not modelled.

**src/main/api/updater.ts**
- Folder listing, downloads, unpacking, spawning the updater and quitting
  the app are not modelled. Their results are inputs.

**scripts/version-utils.mjs**
- `getGitCommitHash`, the current date, the environment and package.json
  are inputs.

**ztools-plugin-cli/src/publish.ts**
- `publish()` itself (git, GitHub authentication, fork and pull request) is
  network and process I/O.
- JSON parsing and file existence are inputs.

**src/main/api/renderer/window.ts**
- Show, hide and focus handling are not modelled.
- `getCurrentDisplayId` is a parameter.

**src/main/managers/windowManager.ts**
- The following are not modelled:
  - the tray, global shortcuts and window materials;
  - `showWindow` and `toggleWindow`;
  - the debounced width save.
- `getDisplayAtCursor` is an input, and `WINDOW_DEFAULT_HEIGHT` is a
  parameter.
- `activateApp` throwing counts as failure to restore.

**src/renderer/src/stores/windowStore.ts**
- The rgb↔hsl conversion and brightness adjustment are floating point.
  Theme and primary-colour CSS variables are DOM edits.
- The settings fields that `loadSettings` reads beyond the search box are
  not modelled.
- WindowStore.HexString: `toString(16)` is modelled for non-negative
  integers only. Negative and fractional components are not modelled.

**src/main/api/renderer/localShortcuts.ts**
- The 'apps-changed' message to the renderer is not modelled.
- These are inputs: `stat`, the dialog's selection, pinyin,
  `path.basename`, the time-and-random id, `encodeURIComponent`,
  `getFileIcon`, and the plist reader. The dialog's file filters are not
  modelled.
- LocalShortcuts.LocalShortcutsAPI.AddShortcutByPath: the reply of `dbPut`
  is not checked, as in the source. Only a thrown write error is modelled.

**src/main/core/commandScanner/windowsScanner.ts**
- Icon extraction with `extract-file-icon` and writing the icon file are
  not modelled. `ensureIconDir` and the timing log are also left out.
- `getWindowsStartMenuPaths` is an input.
- WindowsScanner.ShouldSkipIgnoresCase: the keywords are matched
  case-insensitively for ASCII letters only, as everywhere here.

**src/main/managers/proxyManager.ts**
- The WHATWG URL parser is an input.
- `applyProxyToDefaultSession` is not modelled beyond the call of
  `applyProxyToSession` it makes. Its cache clearing and `resolveProxy`
  diagnostics are left out.

## Findings

| source | as written | input that shows it | evidently intended | confidence | as-written member | corrected member |
|---|---|---|---|---|---|---|
| ztools-plugin-cli/src/publish.ts:30-32 | `validateVersion` accepts any three dot-separated digit runs, leading zeros included | "01.2.3" is accepted | the Semantic Versioning 2.0.0 core version (item 2), whose numbers carry no leading zeros | not executed | Publish.LeadingZeroAccepted | Publish.SemVerCanonical |
