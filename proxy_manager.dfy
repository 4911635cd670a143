/**
 * The proxy manager (src/main/managers/proxyManager.ts): the user's proxy
 * setting, the Chromium `proxyRules` string derived from its URL, and what
 * is handed to a session's `setProxy`.
 *
 * The WHATWG URL parser is an input: `parse` gives the protocol (with its
 * trailing ':'), hostname and port of a URL, or None where `new URL` throws.
 */
module ProxyManager {
  import opened Wrappers
  import Text

  /** The parts of a parsed URL this module reads. */
  datatype ParsedUrl = ParsedUrl(protocol: string, hostname: string, port: string)

  /** `ProxyConfig`; `proxyRules` is None until a setting has been stored. */
  datatype ProxyConfig = ProxyConfig(enabled: bool, url: string, proxyRules: Option<string>)

  /** The argument of `session.setProxy`. */
  datatype ProxySetting = ProxySetting(proxyRules: string, proxyBypassRules: string)

  /** `s.replace(c, '')` with a one-character pattern: the first occurrence goes. */
  function RemoveFirst(s: string, c: char): (r: string)
    ensures c !in s ==> r == s
    ensures c in s ==> |r| == |s| - 1
    decreases |s|
  {
    if |s| == 0 then ""
    else if s[0] == c then s[1..]
    else [s[0]] + RemoveFirst(s[1..], c)
  }

  /** A scheme without ':' comes back from its protocol (`scheme + ':'`) unchanged. */
  lemma {:induction false} SchemeOfProtocol(scheme: string)
    requires ':' !in scheme
    ensures RemoveFirst(scheme + ":", ':') == scheme
    decreases |scheme|
  {
    if |scheme| > 0 {
      assert (scheme + ":")[1..] == scheme[1..] + ":";
      SchemeOfProtocol(scheme[1..]);
    }
  }

  /** `proxyUrl.port || (protocol === 'https' ? '443' : '80')` */
  function PortOrDefault(protocol: string, port: string): (r: string)
    ensures port != "" ==> r == port
    ensures port == "" && protocol == "https" ==> r == "443"
    ensures port == "" && protocol != "https" ==> r == "80"
  {
    if port != "" then port else if protocol == "https" then "443" else "80"
  }

  /**
   * `parseProxyRules`: empty for an empty URL; `<scheme>://<host>:<port>` for
   * a SOCKS proxy; `<host>:<port>` for an HTTP or HTTPS proxy; the URL itself
   * for any other scheme or a URL that does not parse.
   */
  function ProxyRules(url: string, parse: string -> Option<ParsedUrl>): (r: string)
    ensures url == "" ==> r == ""
    ensures url != "" && parse(url).None? ==> r == url
  {
    if url == "" then ""
    else
      match parse(url)
      case None => url
      case Some(p) =>
        var protocol := RemoveFirst(p.protocol, ':');
        var port := PortOrDefault(protocol, p.port);
        if protocol == "socks5" || protocol == "socks4" then protocol + "://" + p.hostname + ":" + port
        else if protocol == "http" || protocol == "https" then p.hostname + ":" + port
        else url
  }

  /** The rules are empty exactly when the URL is. */
  lemma ProxyRulesEmptyIff(url: string, parse: string -> Option<ParsedUrl>)
    ensures ProxyRules(url, parse) == "" <==> url == ""
  {
    if url != "" && parse(url).Some? {
      var p := parse(url).value;
      var protocol := RemoveFirst(p.protocol, ':');
      var port := PortOrDefault(protocol, p.port);
      assert |protocol + "://" + p.hostname + ":" + port| > 0;
      assert |p.hostname + ":" + port| > 0;
    }
  }

  /** A SOCKS URL keeps its scheme; a missing port becomes 80 (SOCKS gets no 443). */
  lemma SocksRule(url: string, parse: string -> Option<ParsedUrl>, scheme: string, hostname: string, port: string)
    requires url != "" && parse(url) == Some(ParsedUrl(scheme + ":", hostname, port))
    requires scheme == "socks5" || scheme == "socks4"
    ensures ProxyRules(url, parse) == scheme + "://" + hostname + ":" + (if port == "" then "80" else port)
  {
    SchemeOfProtocol(scheme);
  }

  /** An HTTP or HTTPS URL becomes `host:port`, with 443 and 80 as the default ports. */
  lemma HttpRule(url: string, parse: string -> Option<ParsedUrl>, scheme: string, hostname: string, port: string)
    requires url != "" && parse(url) == Some(ParsedUrl(scheme + ":", hostname, port))
    requires scheme == "http" || scheme == "https"
    ensures ProxyRules(url, parse)
            == hostname + ":" + (if port != "" then port else if scheme == "https" then "443" else "80")
  {
    SchemeOfProtocol(scheme);
  }

  /** Any other scheme leaves the URL as the rules. */
  lemma OtherSchemeUnchanged(url: string, parse: string -> Option<ParsedUrl>, scheme: string, hostname: string, port: string)
    requires url != "" && parse(url) == Some(ParsedUrl(scheme + ":", hostname, port)) && ':' !in scheme
    requires scheme != "socks5" && scheme != "socks4" && scheme != "http" && scheme != "https"
    ensures ProxyRules(url, parse) == url
  {
    SchemeOfProtocol(scheme);
  }

  /** The hosts that never go through the proxy, in Chromium's bypass syntax. */
  const BypassHosts: seq<string> := ["localhost", "127.0.0.1", "::1", "<local>"]

  /** `bypassRules` */
  function BypassRules(): string {
    Text.Join(BypassHosts, ",")
  }

  /** `setProxyConfig`'s stored value. */
  function Configured(enabled: bool, url: string, parse: string -> Option<ParsedUrl>): ProxyConfig {
    ProxyConfig(enabled, url, Some(ProxyRules(url, parse)))
  }

  /** `applyProxyToSession`: cleared when disabled or without rules, otherwise the rules and the bypass list. */
  function SessionProxy(config: ProxyConfig): (r: ProxySetting)
    ensures !config.enabled || config.proxyRules.None? || config.proxyRules.value == "" ==> r == ProxySetting("", "")
    ensures config.enabled && config.proxyRules.Some? && config.proxyRules.value != "" ==>
              r == ProxySetting(config.proxyRules.value, BypassRules())
  {
    if !config.enabled || config.proxyRules.None? || config.proxyRules.value == "" then ProxySetting("", "")
    else ProxySetting(config.proxyRules.value, BypassRules())
  }

  /** Once set, a proxy is applied exactly when it is enabled with a non-empty URL. */
  lemma AppliedIffEnabledWithUrl(enabled: bool, url: string, parse: string -> Option<ParsedUrl>)
    ensures SessionProxy(Configured(enabled, url, parse)).proxyRules != "" <==> enabled && url != ""
  {
    ProxyRulesEmptyIff(url, parse);
  }

  /** The part of an Electron session this module sets. */
  class Session {
    var proxy: ProxySetting

    constructor()
      ensures proxy == ProxySetting("", "")
    {
      proxy := ProxySetting("", "");
    }
  }

  class ProxyManager {
    var currentConfig: ProxyConfig

    constructor()
      ensures currentConfig == ProxyConfig(false, "", None)
    {
      currentConfig := ProxyConfig(false, "", None);
    }

    /** `setProxyConfig` */
    method SetProxyConfig(enabled: bool, url: string, parse: string -> Option<ParsedUrl>)
      modifies this
      ensures currentConfig == Configured(enabled, url, parse)
    {
      currentConfig := ProxyConfig(enabled, url, Some(ProxyRules(url, parse)));
    }

    /** `getProxyConfig`: a copy, which a value type gives for free. */
    method GetProxyConfig() returns (config: ProxyConfig)
      ensures config == currentConfig
    {
      config := currentConfig;
    }

    /** `applyProxyToSession` */
    method ApplyProxyToSession(sess: Session)
      modifies sess
      ensures sess.proxy == SessionProxy(currentConfig)
    {
      if !currentConfig.enabled || currentConfig.proxyRules.None? || currentConfig.proxyRules.value == "" {
        sess.proxy := ProxySetting("", "");
        return;
      }
      sess.proxy := ProxySetting(currentConfig.proxyRules.value, BypassRules());
    }
  }
}
