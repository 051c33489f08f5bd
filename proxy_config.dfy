/** The proxy configuration record and the protocol enumeration. */
module Data {
  import opened Numbers

  /** The two protocols the proxy serves; there are no others. */
  datatype ProxyType = HTTP | SOCKS5

  /**
   * Ports, the user's per-protocol enable choice, and the last commanded
   * run state of each protocol.
   */
  datatype ProxyConfig = ProxyConfig(
    httpPort: Int32,
    socks5Port: Int32,
    isHttpEnabled: bool,
    isSocks5Enabled: bool,
    isHttpActive: bool,
    isSocks5Active: bool)

  const DEFAULT_HTTP_PORT: Int32 := 8080
  const DEFAULT_SOCKS5_PORT: Int32 := 1080

  predicate IsEnabled(c: ProxyConfig, t: ProxyType) {
    match t
    case HTTP => c.isHttpEnabled
    case SOCKS5 => c.isSocks5Enabled
  }

  predicate IsActive(c: ProxyConfig, t: ProxyType) {
    match t
    case HTTP => c.isHttpActive
    case SOCKS5 => c.isSocks5Active
  }

  /** No protocol is marked active while it is disabled. */
  predicate ActiveOnlyIfEnabled(c: ProxyConfig) {
    (c.isHttpActive ==> c.isHttpEnabled) && (c.isSocks5Active ==> c.isSocks5Enabled)
  }

  /** Neither protocol is marked active. */
  predicate NoneActive(c: ProxyConfig) {
    !c.isHttpActive && !c.isSocks5Active
  }

  /** The two invariants, read protocol by protocol. */
  lemma InvariantsPerProtocol(c: ProxyConfig)
    ensures ActiveOnlyIfEnabled(c) <==> forall t: ProxyType :: IsActive(c, t) ==> IsEnabled(c, t)
    ensures NoneActive(c) <==> forall t: ProxyType :: !IsActive(c, t)
  {
    assert IsActive(c, HTTP) == c.isHttpActive && IsEnabled(c, HTTP) == c.isHttpEnabled;
    assert IsActive(c, SOCKS5) == c.isSocks5Active && IsEnabled(c, SOCKS5) == c.isSocks5Enabled;
  }

  /** `ProxyConfig()` with every parameter left at its default. */
  function DefaultConfig(): (c: ProxyConfig)
    ensures c.httpPort == 8080 && c.socks5Port == 1080
    ensures IsEnabled(c, HTTP) && IsEnabled(c, SOCKS5)
    ensures NoneActive(c) && ActiveOnlyIfEnabled(c)
  {
    ProxyConfig(DEFAULT_HTTP_PORT, DEFAULT_SOCKS5_PORT, true, true, false, false)
  }

  /** Every `ProxyType` is HTTP or SOCKS5. */
  lemma ProxyTypeCases(t: ProxyType)
    ensures t == HTTP || t == SOCKS5
  {
  }
}
