/**
 * The plugin preload script (resources/preload.js): the callbacks a plugin
 * registers and the order they are called in when the host broadcasts an
 * event, the reply to a headless `call-plugin-method` request, the reply to
 * `get-plugin-mode`, the platform tests, and the `sendTo` fallback.
 *
 * Plugin values are abstract: a registered callback is a function (named by
 * an id) or some other value, a feature exported by the plugin is its `mode`
 * and whether `args.enter` is a function, and what `enter` returns or throws
 * is an input. Messages sent to the host are appended to a log.
 */
module Preload {
  import opened Wrappers

  /** A value handed to a registrar: a function, or anything else. */
  datatype Callback = Function(id: nat) | NotFunction

  /** One call of a registered function with the event's payload (None for no argument). */
  datatype Invocation = Invocation(callback: nat, payload: Option<string>)

  /** A feature of `window.exports`. */
  datatype Feature = Feature(mode: Option<string>, hasEnterFunction: bool)

  /** The `{ success, result | error }` reply of `call-plugin-method`. */
  datatype MethodReply = Succeeded(result: string) | Failed(error: string)

  /** What a message carries. */
  datatype Payload = Args(args: seq<string>) | MethodResult(reply: MethodReply) | ModeResult(mode: Option<string>)

  /** A message to the host: `ipcRenderer.send(channel, ...)`, or the native `sendTo`. */
  datatype Outgoing = Send(channel: string, payload: Payload) | NativeSendTo(webContentsId: string, channel: string, args: seq<string>)

  /** The host events whose payload is handed to the registered callbacks. */
  datatype Event =
    | PluginEnter | PluginOut | PluginDetach | ClipboardChange | SubInputChange | MainPush | HotkeyRecorded
    | WindowMaterial

  // ---------------------------------------------------------------------
  // Platform tests

  predicate IsMacOs(osType: string) { osType == "Darwin" }
  predicate IsWindows(osType: string) { osType == "Windows_NT" }
  predicate IsLinux(osType: string) { osType == "Linux" }

  /** At most one platform test holds. */
  lemma PlatformsExclusive(osType: string)
    ensures !(IsMacOs(osType) && IsWindows(osType))
    ensures !(IsMacOs(osType) && IsLinux(osType))
    ensures !(IsWindows(osType) && IsLinux(osType))
  {
  }

  // ---------------------------------------------------------------------
  // Dispatch

  /**
   * `callbacks.forEach((cb) => cb(payload))`: the functions are called in
   * registration order; a registered value that is not a function throws, so
   * nothing after it is called.
   */
  function DispatchCalls(callbacks: seq<Callback>, payload: Option<string>): (r: seq<Invocation>)
    ensures |r| <= |callbacks|
    ensures forall i :: 0 <= i < |r| ==> callbacks[i].Function? && r[i] == Invocation(callbacks[i].id, payload)
    ensures |r| < |callbacks| ==> callbacks[|r|].NotFunction?
    decreases |callbacks|
  {
    if |callbacks| == 0 || callbacks[0].NotFunction? then []
    else [Invocation(callbacks[0].id, payload)] + DispatchCalls(callbacks[1..], payload)
  }

  predicate OnlyFunctions(callbacks: seq<Callback>) {
    forall i :: 0 <= i < |callbacks| ==> callbacks[i].Function?
  }

  /** A registry holding only functions calls every one of them, in order. */
  lemma DispatchCallsAll(callbacks: seq<Callback>, payload: Option<string>)
    requires OnlyFunctions(callbacks)
    ensures |DispatchCalls(callbacks, payload)| == |callbacks|
  {
  }

  /** Callbacks registered later are called after those registered earlier. */
  lemma {:induction false} DispatchAppend(callbacks: seq<Callback>, f: nat, payload: Option<string>)
    requires OnlyFunctions(callbacks)
    ensures DispatchCalls(callbacks + [Function(f)], payload)
            == DispatchCalls(callbacks, payload) + [Invocation(f, payload)]
    decreases |callbacks|
  {
    if |callbacks| == 0 {
      assert callbacks + [Function(f)] == [Function(f)];
    } else {
      assert (callbacks + [Function(f)])[1..] == callbacks[1..] + [Function(f)];
      DispatchAppend(callbacks[1..], f, payload);
    }
  }

  // ---------------------------------------------------------------------
  // call-plugin-method and get-plugin-mode

  const NoExports: string := "window.exports is not defined"
  const NoEnterFunction: string := "Feature does not have a valid enter function"

  /** A mode as a template literal renders it. */
  function ModeText(mode: Option<string>): string {
    match mode
    case None => "undefined"
    case Some(m) => m
  }

  /**
   * The reply to `call-plugin-method`, checked in order: `window.exports`
   * exists, the feature exists, its mode is 'none', it has an `enter`
   * function; then what `enter(action)` returned or the message it threw.
   */
  function CallPluginMethod(exports: Option<map<string, Feature>>, featureCode: string,
                            enterOutcome: Result<string, string>): (r: MethodReply)
    ensures r.Succeeded? <==>
              exports.Some? && featureCode in exports.value && exports.value[featureCode].mode == Some("none")
              && exports.value[featureCode].hasEnterFunction && enterOutcome.Success?
    ensures exports.None? ==> r == Failed(NoExports)
    ensures exports.Some? && featureCode !in exports.value ==> r == Failed("Feature \"" + featureCode + "\" not found")
    ensures exports.Some? && featureCode in exports.value && exports.value[featureCode].mode != Some("none") ==>
              r == Failed("Mode \"" + ModeText(exports.value[featureCode].mode) + "\" is not supported")
    ensures (exports.Some? && featureCode in exports.value && exports.value[featureCode].mode == Some("none")
             && !exports.value[featureCode].hasEnterFunction) ==> r == Failed(NoEnterFunction)
    ensures r.Succeeded? ==> r.result == enterOutcome.value
    ensures (r.Failed? && exports.Some? && featureCode in exports.value && exports.value[featureCode].mode == Some("none")
             && exports.value[featureCode].hasEnterFunction) ==> enterOutcome == Failure(r.error)
  {
    if exports.None? then Failed(NoExports)
    else if featureCode !in exports.value then Failed("Feature \"" + featureCode + "\" not found")
    else
      var feature := exports.value[featureCode];
      if feature.mode != Some("none") then Failed("Mode \"" + ModeText(feature.mode) + "\" is not supported")
      else if !feature.hasEnterFunction then Failed(NoEnterFunction)
      else
        match enterOutcome
        case Success(v) => Succeeded(v)
        case Failure(e) => Failed(e)
  }

  /** The reply does not depend on what `enter` would do when a guard fails first. */
  lemma GuardsBeforeEnter(exports: Option<map<string, Feature>>, featureCode: string,
                          a: Result<string, string>, b: Result<string, string>)
    requires !(exports.Some? && featureCode in exports.value && exports.value[featureCode].mode == Some("none")
               && exports.value[featureCode].hasEnterFunction)
    ensures CallPluginMethod(exports, featureCode, a) == CallPluginMethod(exports, featureCode, b)
  {
  }

  /** `get-plugin-mode`: the feature's mode, or undefined without exports or without that feature. */
  function PluginMode(exports: Option<map<string, Feature>>, featureCode: string): (r: Option<string>)
    ensures exports.None? || featureCode !in exports.value ==> r.None?
    ensures exports.Some? && featureCode in exports.value ==> r == exports.value[featureCode].mode
  {
    if exports.Some? && featureCode in exports.value then exports.value[featureCode].mode else None
  }

  /** A feature that `call-plugin-method` can run reports mode 'none' to `get-plugin-mode`. */
  lemma RunnableReportsNone(exports: Option<map<string, Feature>>, featureCode: string, enterOutcome: Result<string, string>)
    requires CallPluginMethod(exports, featureCode, enterOutcome).Succeeded?
    ensures PluginMode(exports, featureCode) == Some("none")
  {
  }

  function MethodResultChannel(callId: string): string {
    "plugin-method-result-" + callId
  }

  function ModeResultChannel(callId: string): string {
    "plugin-mode-result-" + callId
  }

  /** The polyfilled `sendTo(id, channel, ...args)`: forwarded through the host on 'ipc-send-to'. */
  function ForwardedSendTo(webContentsId: string, channel: string, args: seq<string>): (m: Outgoing)
    ensures m.Send? && m.channel == "ipc-send-to" && m.payload.Args?
    ensures |m.payload.args| == |args| + 2
    ensures m.payload.args[0] == webContentsId && m.payload.args[1] == channel && m.payload.args[2..] == args
  {
    Send("ipc-send-to", Args([webContentsId, channel] + args))
  }

  // ---------------------------------------------------------------------
  // The script's state

  /** The preload script's module-level state in one plugin page. */
  class PluginPreload {
    const osType: string
    const sendToPolyfilled: bool
    var enterCallbacks: seq<Callback>
    var clipboardChangeCallbacks: seq<Callback>
    var subInputChangeCallbacks: seq<Callback>
    var pluginOutCallbacks: seq<Callback>
    var pluginDetachCallbacks: seq<Callback>
    var mainPushCallbacks: seq<Callback>
    var hotkeyRecordedCallbacks: seq<Callback>
    var windowMaterialChangeCallbacks: seq<Callback>
    /** The calls made to registered functions, in order. */
    var invoked: seq<Invocation>
    /** The messages sent to the host, in order. */
    var sent: seq<Outgoing>

    /** The registries whose registrars accept functions only hold only functions. */
    predicate Valid()
      reads this
    {
      OnlyFunctions(subInputChangeCallbacks) && OnlyFunctions(pluginOutCallbacks)
      && OnlyFunctions(pluginDetachCallbacks) && OnlyFunctions(mainPushCallbacks)
      && OnlyFunctions(hotkeyRecordedCallbacks)
    }

    /** Script start: the polyfill is installed only when `ipcRenderer.sendTo` is missing. */
    constructor(osType: string, hasNativeSendTo: bool)
      ensures Valid()
      ensures this.osType == osType && sendToPolyfilled == !hasNativeSendTo
      ensures enterCallbacks == [] && clipboardChangeCallbacks == [] && subInputChangeCallbacks == []
      ensures pluginOutCallbacks == [] && pluginDetachCallbacks == [] && mainPushCallbacks == []
      ensures hotkeyRecordedCallbacks == [] && windowMaterialChangeCallbacks == []
      ensures invoked == [] && sent == []
    {
      this.osType := osType;
      sendToPolyfilled := !hasNativeSendTo;
      enterCallbacks := [];
      clipboardChangeCallbacks := [];
      subInputChangeCallbacks := [];
      pluginOutCallbacks := [];
      pluginDetachCallbacks := [];
      mainPushCallbacks := [];
      hotkeyRecordedCallbacks := [];
      windowMaterialChangeCallbacks := [];
      invoked := [];
      sent := [];
    }

    /** The registry an event is dispatched to. */
    function Registry(e: Event): seq<Callback>
      reads this
    {
      match e
      case PluginEnter => enterCallbacks
      case PluginOut => pluginOutCallbacks
      case PluginDetach => pluginDetachCallbacks
      case ClipboardChange => clipboardChangeCallbacks
      case SubInputChange => subInputChangeCallbacks
      case MainPush => mainPushCallbacks
      case HotkeyRecorded => hotkeyRecordedCallbacks
      case WindowMaterial => windowMaterialChangeCallbacks
    }

    /** A guarded event's dispatch never stops early: every registered function is called. */
    lemma GuardedDispatchComplete(e: Event, payload: Option<string>)
      requires Valid()
      requires e in {PluginOut, PluginDetach, SubInputChange, MainPush, HotkeyRecorded}
      ensures |DispatchCalls(Registry(e), payload)| == |Registry(e)|
    {
      DispatchCallsAll(Registry(e), payload);
    }

    /** `onPluginEnter` and `onPluginReady`: whatever is passed is registered. */
    method OnPluginEnter(cb: Callback)
      modifies this`enterCallbacks
      ensures enterCallbacks == old(enterCallbacks) + [cb]
    {
      enterCallbacks := enterCallbacks + [cb];
    }

    /** `clipboard.onChange`: whatever is passed is registered. */
    method OnClipboardChange(cb: Callback)
      modifies this`clipboardChangeCallbacks
      ensures clipboardChangeCallbacks == old(clipboardChangeCallbacks) + [cb]
    {
      clipboardChangeCallbacks := clipboardChangeCallbacks + [cb];
    }

    /** `onUpdateWindowMaterial`: whatever is passed is registered. */
    method OnUpdateWindowMaterial(cb: Callback)
      modifies this`windowMaterialChangeCallbacks
      ensures windowMaterialChangeCallbacks == old(windowMaterialChangeCallbacks) + [cb]
    {
      windowMaterialChangeCallbacks := windowMaterialChangeCallbacks + [cb];
    }

    /** `onPluginOut`: functions only. */
    method OnPluginOut(cb: Callback)
      requires Valid()
      modifies this`pluginOutCallbacks
      ensures Valid()
      ensures pluginOutCallbacks == old(pluginOutCallbacks) + (if cb.Function? then [cb] else [])
    {
      if cb.Function? {
        pluginOutCallbacks := pluginOutCallbacks + [cb];
      }
    }

    /** `onPluginDetach`: functions only. */
    method OnPluginDetach(cb: Callback)
      requires Valid()
      modifies this`pluginDetachCallbacks
      ensures Valid()
      ensures pluginDetachCallbacks == old(pluginDetachCallbacks) + (if cb.Function? then [cb] else [])
    {
      if cb.Function? {
        pluginDetachCallbacks := pluginDetachCallbacks + [cb];
      }
    }

    /** `onMainPush`: functions only. */
    method OnMainPush(cb: Callback)
      requires Valid()
      modifies this`mainPushCallbacks
      ensures Valid()
      ensures mainPushCallbacks == old(mainPushCallbacks) + (if cb.Function? then [cb] else [])
    {
      if cb.Function? {
        mainPushCallbacks := mainPushCallbacks + [cb];
      }
    }

    /** `onHotkeyRecorded`: functions only. */
    method OnHotkeyRecorded(cb: Callback)
      requires Valid()
      modifies this`hotkeyRecordedCallbacks
      ensures Valid()
      ensures hotkeyRecordedCallbacks == old(hotkeyRecordedCallbacks) + (if cb.Function? then [cb] else [])
    {
      if cb.Function? {
        hotkeyRecordedCallbacks := hotkeyRecordedCallbacks + [cb];
      }
    }

    /** `setSubInput`: registers `onChange` when it is a function, then asks the host for the sub-input. */
    method SetSubInput(onChange: Callback, placeholder: string, isFocus: bool)
      requires Valid()
      modifies this`subInputChangeCallbacks, this`sent
      ensures Valid()
      ensures subInputChangeCallbacks == old(subInputChangeCallbacks) + (if onChange.Function? then [onChange] else [])
      ensures sent == old(sent) + [Send("set-sub-input", Args([placeholder, if isFocus then "true" else "false"]))]
    {
      if onChange.Function? {
        subInputChangeCallbacks := subInputChangeCallbacks + [onChange];
      }
      sent := sent + [Send("set-sub-input", Args([placeholder, if isFocus then "true" else "false"]))];
    }

    /** The `ipcRenderer.on` handler of an event: each registered callback is called with the payload, in order. */
    method Broadcast(e: Event, payload: Option<string>)
      modifies this`invoked
      ensures invoked == old(invoked) + DispatchCalls(Registry(e), payload)
    {
      var callbacks := Registry(e);
      var i := 0;
      while i < |callbacks| && callbacks[i].Function?
        invariant 0 <= i <= |callbacks|
        invariant OnlyFunctions(callbacks[..i])
        invariant invoked == old(invoked) + DispatchCalls(callbacks[..i], payload)
      {
        DispatchStep(callbacks, i, payload);
        invoked := invoked + [Invocation(callbacks[i].id, payload)];
        i := i + 1;
      }
      DispatchPrefix(callbacks, i, payload);
    }

    /** The `call-plugin-method` handler: exactly one reply, on the request's own channel. */
    method HandleCallPluginMethod(exports: Option<map<string, Feature>>, featureCode: string, callId: string,
                                  enterOutcome: Result<string, string>)
      modifies this`sent
      ensures sent == old(sent) + [Send(MethodResultChannel(callId),
                                        MethodResult(CallPluginMethod(exports, featureCode, enterOutcome)))]
    {
      var reply := CallPluginMethod(exports, featureCode, enterOutcome);
      sent := sent + [Send(MethodResultChannel(callId), MethodResult(reply))];
    }

    /** The `get-plugin-mode` handler. */
    method HandleGetPluginMode(exports: Option<map<string, Feature>>, featureCode: string, callId: string)
      modifies this`sent
      ensures sent == old(sent) + [Send(ModeResultChannel(callId), ModeResult(PluginMode(exports, featureCode)))]
    {
      sent := sent + [Send(ModeResultChannel(callId), ModeResult(PluginMode(exports, featureCode)))];
    }

    /** `ipcRenderer.sendTo`: forwarded through the host when polyfilled, otherwise Electron's own. */
    method SendTo(webContentsId: string, channel: string, args: seq<string>)
      modifies this`sent
      ensures sendToPolyfilled ==> sent == old(sent) + [ForwardedSendTo(webContentsId, channel, args)]
      ensures !sendToPolyfilled ==> sent == old(sent) + [NativeSendTo(webContentsId, channel, args)]
    {
      if sendToPolyfilled {
        sent := sent + [ForwardedSendTo(webContentsId, channel, args)];
      } else {
        sent := sent + [NativeSendTo(webContentsId, channel, args)];
      }
    }
  }

  /** Dispatch stops at the first non-function: the calls made are those of the functions before it. */
  lemma {:induction false} DispatchPrefix(callbacks: seq<Callback>, i: nat, payload: Option<string>)
    requires i <= |callbacks|
    requires OnlyFunctions(callbacks[..i])
    requires i == |callbacks| || callbacks[i].NotFunction?
    ensures DispatchCalls(callbacks[..i], payload) == DispatchCalls(callbacks, payload)
    decreases i
  {
    if i == 0 {
      assert callbacks[..0] == [];
    } else {
      assert callbacks[..i][0] == callbacks[0];
      assert callbacks[..i][1..] == callbacks[1..][..i - 1];
      DispatchPrefix(callbacks[1..], i - 1, payload);
    }
  }

  /** One more function at the end of an all-function prefix adds one call. */
  lemma DispatchStep(callbacks: seq<Callback>, i: nat, payload: Option<string>)
    requires i < |callbacks| && callbacks[i].Function?
    requires OnlyFunctions(callbacks[..i])
    ensures OnlyFunctions(callbacks[..i + 1])
    ensures DispatchCalls(callbacks[..i + 1], payload)
            == DispatchCalls(callbacks[..i], payload) + [Invocation(callbacks[i].id, payload)]
  {
    assert callbacks[..i + 1] == callbacks[..i] + [Function(callbacks[i].id)];
    DispatchAppend(callbacks[..i], callbacks[i].id, payload);
  }
}
