/**
 * The `internal:*` IPC surface reserved for built-in plugins
 * (src/main/api/plugin/internal.ts). Every handler asks the gate first and
 * refuses before delegating; the delegates themselves live elsewhere, so
 * apart from the two database calls their replies are parameters.
 */
module InternalApi {
  import opened Wrappers
  import Text
  import InternalPlugins
  import Database
  import PM = PluginManager

  /** `PermissionDeniedError(apiName).message`. */
  function PermissionDenied(apiName: string): (m: string)
    ensures Text.StartsWith(m, "API \"") && |m| > 5 + |apiName| && m[5..5 + |apiName|] == apiName
    ensures m[5 + |apiName|..] == "\" 仅限内置插件调用"
  {
    "API \"" + apiName + "\" 仅限内置插件调用"
  }

  /** The message names the refused API, and different APIs give different messages. */
  lemma PermissionDeniedNamesApi(a: string, b: string)
    ensures Text.Contains(PermissionDenied(a), a)
    ensures a != b ==> PermissionDenied(a) != PermissionDenied(b)
  {
    Text.ContainsAt(PermissionDenied(a), a, 5);
    if a != b && |a| == |b| {
      assert PermissionDenied(a)[5..5 + |a|] != PermissionDenied(b)[5..5 + |b|];
    }
  }

  /**
   * `requireInternalPlugin`: a sender that does not resolve to a plugin is
   * the host and passes; a plugin passes iff it is a built-in one.
   */
  function RequireInternalPlugin(info: Option<PM.PluginInfo>): bool {
    info.None? || info.value.isInternal
  }

  /** The gate as the handlers see it: the sender resolved through the plugin manager. */
  function Allowed(pm: PM.PluginManager, sender: int, detached: seq<PM.DetachedWindow>): bool
    reads pm
  {
    RequireInternalPlugin(pm.GetPluginInfoByWebContents(sender, detached))
  }

  /**
   * Only the host and the plugin named 'setting' get through: a main-window
   * view or detached window of any other plugin is refused.
   */
  lemma AllowedOnlyHostOrSetting(pm: PM.PluginManager, sender: int, detached: seq<PM.DetachedWindow>)
    ensures Allowed(pm, sender, detached) <==>
              pm.GetPluginInfoByWebContents(sender, detached).None?
              || pm.GetPluginInfoByWebContents(sender, detached).value.name == "setting"
  {
    var info := pm.GetPluginInfoByWebContents(sender, detached);
    if info.Some? {
      InternalPlugins.OnlySettingIsInternal(info.value.name);
    }
  }

  /**
   * A sender that only the plugin-window registry links to a plugin (a
   * window the plugin opened) is not seen by the gate and is let through as
   * the host, while the database front end files its documents under that
   * plugin's prefix.
   */
  lemma WindowOnlySenderPassesAsHost(pm: PM.PluginManager, sender: int, detached: seq<PM.DetachedWindow>, windowPlugin: string)
    requires PM.IndexOfView(pm.pluginViews, sender).None?
    requires forall i :: 0 <= i < |detached| ==> detached[i].view != sender
    requires windowPlugin != "" && windowPlugin != "setting"
    ensures Allowed(pm, sender, detached)
    ensures Database.GetPluginPrefix(None, Some(windowPlugin)) == Some(Database.PluginPrefix(windowPlugin))
  {
  }

  /** The channels registered with `ipcMain.handle`, in registration order. */
  const InvokeChannels: seq<string> := [
    "internal:db-put", "internal:db-get", "internal:launch", "internal:get-commands", "internal:get-plugins",
    "internal:import-plugin", "internal:import-dev-plugin", "internal:delete-plugin", "internal:reload-plugin",
    "internal:get-running-plugins", "internal:kill-plugin", "internal:fetch-plugin-market",
    "internal:install-plugin-from-market", "internal:get-plugin-readme", "internal:get-plugin-doc-keys",
    "internal:get-plugin-doc", "internal:get-plugin-data-stats", "internal:clear-plugin-data",
    "internal:register-global-shortcut", "internal:unregister-global-shortcut", "internal:start-hotkey-recording",
    "internal:update-shortcut", "internal:set-window-opacity", "internal:select-avatar", "internal:set-theme",
    "internal:set-tray-icon-visible", "internal:set-launch-at-login", "internal:get-launch-at-login",
    "internal:update-placeholder", "internal:update-avatar", "internal:update-auto-paste",
    "internal:update-auto-clear", "internal:update-primary-color", "internal:updater-check-update",
    "internal:updater-start-update", "internal:reveal-in-finder"]

  /** The handlers that only forward a setting to the main renderer and answer `{success: true}`. */
  const BroadcastChannels: set<string> := {
    "internal:update-placeholder", "internal:update-avatar", "internal:update-auto-paste",
    "internal:update-auto-clear", "internal:update-primary-color"}

  /** An invocation: the two database calls are modelled, every other channel forwards to its delegate. */
  datatype Call =
    | DbPutCall(key: string, value: Database.Value)
    | DbGetCall(key: string)
    | Forward(channel: string)

  function ChannelOf(call: Call): string {
    match call
    case DbPutCall(_, _) => "internal:db-put"
    case DbGetCall(_) => "internal:db-get"
    case Forward(channel) => channel
    }

  /** What a handler resolves to. */
  datatype Reply =
    | PutReply(result: Database.WriteResult)
    | GetReply(data: Option<Database.Value>)
    | Acknowledged
    | Delegated(reply: string)

  /** What the renderer is sent by a broadcast handler. */
  datatype Outcome = Outcome(store: Database.Store, reply: Result<Reply, string>, broadcast: Option<string>)

  /**
   * One `internal:*` invocation. `engine` carries the engine's verdict for a
   * put (accepted, new revision, thrown error), `delegateReply` what the
   * forwarded delegate resolves to.
   */
  function Invoke(allowed: bool, call: Call, s: Database.Store, accepted: bool, newRev: string,
                  thrown: Option<string>, delegateReply: string): (r: Outcome)
    ensures !allowed ==> r == Outcome(s, Failure(PermissionDenied(ChannelOf(call))), None)
    ensures allowed && call.DbPutCall? && thrown.None? ==>
              r.reply == Success(PutReply(Database.WriteResult(Database.HostRoot + call.key, accepted, if accepted then Some(newRev) else None)))
    ensures allowed && call.DbPutCall? && thrown.None? && accepted ==>
              Database.DbGet(r.store, call.key, None) == Some(call.value)
    ensures allowed && call.DbPutCall? && thrown.Some? ==> r.store == s && r.reply == Failure(thrown.value)
    ensures allowed && !call.DbPutCall? ==> r.store == s
    ensures allowed && call.Forward? && call.channel in BroadcastChannels ==>
              r.reply == Success(Acknowledged) && r.broadcast == Some(call.channel[9..])
    ensures r.broadcast.Some? ==> allowed
  {
    if !allowed then Outcome(s, Failure(PermissionDenied(ChannelOf(call))), None)
    else
      match call
      case DbPutCall(key, value) =>
        (match Database.DbPut(s, key, value, accepted, newRev, thrown)
         case Failure(e) => Outcome(s, Failure(e), None)
         case Success(res) =>
           Database.DbPutThenGet(s, key, value, newRev);
           Outcome(res.0, Success(PutReply(res.1)), None))
      case DbGetCall(key) => Outcome(s, Success(GetReply(Database.DbGet(s, key, thrown))), None)
      case Forward(channel) =>
        if channel in BroadcastChannels then Outcome(s, Success(Acknowledged), Some(channel[9..]))
        else Outcome(s, Success(Delegated(delegateReply)), None)
  }

  /** A refused call changes nothing, whatever the engine or the delegate would have done. */
  lemma DeniedIsInert(call: Call, s: Database.Store, accepted: bool, newRev: string, thrown: Option<string>,
                      delegateReply: string, otherReply: string)
    ensures Invoke(false, call, s, accepted, newRev, thrown, delegateReply)
            == Invoke(false, call, s, !accepted, newRev + "'", None, otherReply)
    ensures Invoke(false, call, s, accepted, newRev, thrown, delegateReply).reply.Failure?
  {
  }

  /** `internal:get-platform` (a synchronous message): null when refused, the platform otherwise. */
  function GetPlatform(allowed: bool, platform: string): (r: Option<string>)
    ensures r.Some? <==> allowed
    ensures r.Some? ==> r.value == platform
  {
    if allowed then Some(platform) else None
  }
}
