/** Client configuration: the defaults the constructor applies to the options
    it is given, the version list it negotiates with, and the WebSocket URL it
    dials. */
module Settings {
  import opened Values
  import opened Decimal

  /** The options object passed to the constructor. `None` means the key is
      absent. The `legacy` fields are the old snake_case spellings
      (`use_ssl`, `auto_reconnect`, `auto_reconnect_timer`,
      `maintain_collections`, `ddp_version`), which override the new ones. */
  datatype Options = Options(
    host: Option<string>,
    port: Option<nat>,
    path: Option<string>,
    ssl: Option<bool>,
    useSockJs: Option<bool>,
    autoReconnect: Option<bool>,
    autoReconnectTimer: Option<nat>,
    maintainCollections: Option<bool>,
    url: Option<string>,
    ddpVersion: Option<string>,
    legacyUseSsl: Option<bool>,
    legacyAutoReconnect: Option<bool>,
    legacyAutoReconnectTimer: Option<nat>,
    legacyMaintainCollections: Option<bool>,
    legacyDdpVersion: Option<string>)

  /** The constructor called without options. */
  const NoOptions := Options(None, None, None, None, None, None, None, None, None, None,
                             None, None, None, None, None)

  /** The settings a client holds after construction. */
  datatype Config = Config(
    host: string,
    port: nat,
    path: Option<string>,
    ssl: bool,
    useSockJs: bool,
    autoReconnect: bool,
    autoReconnectTimer: nat,
    maintainCollections: bool,
    url: Option<string>,
    ddpVersion: string,
    supportedDdpVersions: seq<string>)

  const SupportedVersions: seq<string> := ["1", "pre2", "pre1"]
  const DefaultPort: nat := 3000
  const DefaultReconnectDelay: nat := 500

  /** A legacy key, when present, replaces the new one. */
  function Alias<T>(legacy: Option<T>, current: Option<T>): Option<T> {
    if legacy.Some? then legacy else current
  }

  function Configure(opts: Options): (c: Config)
    ensures c.host != "" && c.port != 0
    ensures c.port == 443 ==> c.ssl
    ensures c.supportedDdpVersions == ["1", "pre2", "pre1"]
    ensures opts.legacyUseSsl == Some(true) ==> c.ssl
    ensures c.autoReconnect == Alias(opts.legacyAutoReconnect, opts.autoReconnect).GetOr(true)
    ensures c.maintainCollections == Alias(opts.legacyMaintainCollections, opts.maintainCollections).GetOr(true)
    ensures c.ddpVersion == Alias(opts.legacyDdpVersion, opts.ddpVersion).GetOr("1")
    ensures c.host == if Truthy(opts.host) then opts.host.value else "localhost"
    ensures c.port == if opts.port.Some? && opts.port.value != 0 then opts.port.value else DefaultPort
    ensures c.ssl <==> Alias(opts.legacyUseSsl, opts.ssl) == Some(true) || c.port == 443
    ensures c.autoReconnectTimer == Alias(opts.legacyAutoReconnectTimer, opts.autoReconnectTimer).GetOr(DefaultReconnectDelay)
    ensures c.path == opts.path && c.url == opts.url && c.useSockJs == (opts.useSockJs == Some(true))
  {
    var port := if opts.port.Some? && opts.port.value != 0 then opts.port.value else DefaultPort;
    Config(
      host := if Truthy(opts.host) then opts.host.value else "localhost",
      port := port,
      path := opts.path,
      ssl := Alias(opts.legacyUseSsl, opts.ssl) == Some(true) || port == 443,
      useSockJs := opts.useSockJs == Some(true),
      autoReconnect := Alias(opts.legacyAutoReconnect, opts.autoReconnect).GetOr(true),
      autoReconnectTimer := Alias(opts.legacyAutoReconnectTimer, opts.autoReconnectTimer).GetOr(DefaultReconnectDelay),
      maintainCollections := Alias(opts.legacyMaintainCollections, opts.maintainCollections).GetOr(true),
      url := opts.url,
      ddpVersion := Alias(opts.legacyDdpVersion, opts.ddpVersion).GetOr("1"),
      supportedDdpVersions := SupportedVersions)
  }

  lemma DefaultConfiguration()
    ensures Configure(NoOptions)
         == Config("localhost", 3000, None, false, false, true, 500, true, None, "1", ["1", "pre2", "pre1"])
  {
  }

  /** `Array.prototype.indexOf`: the first position of x in s, or -1. */
  function IndexOf(s: seq<string>, x: string): (r: int)
    ensures -1 <= r < |s|
    ensures r == -1 <==> x !in s
    ensures r >= 0 ==> s[r] == x && x !in s[..r]
  {
    if s == [] then -1
    else if s[0] == x then 0
    else
      var k := IndexOf(s[1..], x);
      assert k >= 0 ==> s[1..][..k] == s[1..k + 1];
      if k == -1 then -1 else k + 1
  }

  lemma NegotiableVersions(v: string)
    ensures IndexOf(SupportedVersions, v) != -1 <==> v == "1" || v == "pre2" || v == "pre1"
  {
  }

  function Scheme(ssl: bool): string {
    if ssl then "wss://" else "ws://"
  }

  /** `protocol + host + ":" + port`. */
  function Origin(c: Config): string {
    Scheme(c.ssl) + c.host + ":" + DecimalString(c.port)
  }

  /** `path || self.path || "websocket"`. */
  function ChosenPath(c: Config, path: Option<string>): (p: string)
    ensures p != ""
  {
    if Truthy(path) then path.value else if Truthy(c.path) then c.path.value else "websocket"
  }

  /** Whether the explicit `url` is used as it is. */
  predicate UsesExplicitUrl(c: Config) {
    Truthy(c.url) && !c.useSockJs
  }

  function BuildWsUrl(c: Config, path: Option<string>): (r: string)
    ensures UsesExplicitUrl(c) ==> r == c.url.value
    ensures r != ""
  {
    if UsesExplicitUrl(c) then c.url.value
    else
      var p := ChosenPath(c, path);
      Origin(c) + (if p[0] == '/' then p else "/" + p)
  }

  /** Without an explicit URL: the origin, then one '/', then the chosen
      path, whose own leading '/' stands in for the added one. */
  lemma BuildWsUrlShape(c: Config, path: Option<string>)
    requires !UsesExplicitUrl(c)
    ensures var r, o, p := BuildWsUrl(c, path), Origin(c), ChosenPath(c, path);
      && |r| > |o| && r[..|o|] == o && r[|o|] == '/'
      && (if p[0] == '/' then r[|o|..] == p else r[|o| + 1..] == p)
  {
  }

  /** With the default path, the URL ends in exactly one "/websocket". */
  lemma DefaultPathUrl(c: Config)
    requires !UsesExplicitUrl(c) && !Truthy(c.path)
    ensures BuildWsUrl(c, None) == Origin(c) + "/websocket"
  {
    assert ChosenPath(c, None) == "websocket";
  }

  /** The URL every configuration without an explicit url or path dials:
      the supplied host (else "localhost"), the supplied port (else 3000),
      and TLS exactly when asked for or on port 443. */
  lemma ConfiguredUrl(opts: Options)
    requires !Truthy(opts.url) && !Truthy(opts.path)
    ensures var host := if Truthy(opts.host) then opts.host.value else "localhost";
      var port := if opts.port.Some? && opts.port.value != 0 then opts.port.value else DefaultPort;
      var tls := Alias(opts.legacyUseSsl, opts.ssl) == Some(true) || port == 443;
      BuildWsUrl(Configure(opts), None) == (if tls then "wss://" else "ws://") + host + ":" + DecimalString(port) + "/websocket"
  {
    DefaultPathUrl(Configure(opts));
  }

  lemma DefaultUrl()
    ensures BuildWsUrl(Configure(NoOptions), None) == "ws://localhost:3000/websocket"
  {
    var c := Configure(NoOptions);
    assert c.host == "localhost" && c.port == 3000 && !c.ssl && c.path == None && c.url == None;
    LocalhostUrl(c);
  }

  lemma HostUrl()
    ensures BuildWsUrl(Configure(NoOptions.(host := Some("myserver.com"))), None)
         == "ws://myserver.com:3000/websocket"
  {
    var c := Configure(NoOptions.(host := Some("myserver.com")));
    assert c.host == "myserver.com" && c.port == 3000 && !c.ssl && c.path == None && c.url == None;
    MyServerUrl(c);
  }

  lemma HostAndPortUrl()
    ensures BuildWsUrl(Configure(NoOptions.(host := Some("myserver.com"), port := Some(42))), None)
         == "ws://myserver.com:42/websocket"
  {
    var c := Configure(NoOptions.(host := Some("myserver.com"), port := Some(42)));
    assert c.host == "myserver.com" && c.port == 42 && !c.ssl && c.path == None && c.url == None;
    MyServerPort42Url(c);
  }

  lemma Port443Url()
    ensures BuildWsUrl(Configure(NoOptions.(host := Some("myserver.com"), port := Some(443))), None)
         == "wss://myserver.com:443/websocket"
  {
    var c := Configure(NoOptions.(host := Some("myserver.com"), port := Some(443)));
    assert c.host == "myserver.com" && c.port == 443 && c.ssl && c.path == None && c.url == None;
    MyServerTlsUrl(c);
  }

  lemma LocalhostUrl(c: Config)
    requires c.host == "localhost" && c.port == 3000 && !c.ssl && c.path == None && c.url == None
    ensures BuildWsUrl(c, None) == "ws://localhost:3000/websocket"
  {
    Decimal3000();
    assert Origin(c) == "ws://localhost:3000";
    assert ChosenPath(c, None) == "websocket";
    assert BuildWsUrl(c, None) == "ws://localhost:3000" + "/websocket";
  }

  lemma MyServerUrl(c: Config)
    requires c.host == "myserver.com" && c.port == 3000 && !c.ssl && c.path == None && c.url == None
    ensures BuildWsUrl(c, None) == "ws://myserver.com:3000/websocket"
  {
    Decimal3000();
    assert Origin(c) == "ws://myserver.com:3000";
    assert ChosenPath(c, None) == "websocket";
    assert BuildWsUrl(c, None) == "ws://myserver.com:3000" + "/websocket";
  }

  lemma MyServerPort42Url(c: Config)
    requires c.host == "myserver.com" && c.port == 42 && !c.ssl && c.path == None && c.url == None
    ensures BuildWsUrl(c, None) == "ws://myserver.com:42/websocket"
  {
    assert DecimalString(42) == "42" by { assert DecimalString(4) == "4"; }
    assert Origin(c) == "ws://myserver.com:42";
    assert ChosenPath(c, None) == "websocket";
    assert BuildWsUrl(c, None) == "ws://myserver.com:42" + "/websocket";
  }

  lemma MyServerTlsUrl(c: Config)
    requires c.host == "myserver.com" && c.port == 443 && c.ssl && c.path == None && c.url == None
    ensures BuildWsUrl(c, None) == "wss://myserver.com:443/websocket"
  {
    assert DecimalString(443) == "443" by {
      assert DecimalString(4) == "4";
      assert DecimalString(44) == "44";
    }
    assert Origin(c) == "wss://myserver.com:443";
    assert ChosenPath(c, None) == "websocket";
    assert BuildWsUrl(c, None) == "wss://myserver.com:443" + "/websocket";
  }

  lemma Decimal3000()
    ensures DecimalString(3000) == "3000"
  {
    assert DecimalString(3) == "3";
    assert DecimalString(30) == DecimalString(3) + "0";
    assert DecimalString(300) == DecimalString(30) + "0";
    assert DecimalString(3000) == DecimalString(300) + "0";
  }
}
