/**
 * The durable configuration store: a key-value map with typed values, and
 * the `PreferenceManager` object that reads and writes it. Every write takes
 * effect at once (the asynchronous `apply()` is treated as immediate).
 */
module Preferences {
  import opened Numbers
  import opened Data

  /** A stored value, tagged with the type it was written as. */
  datatype Value = IntValue(i: Int32) | BoolValue(b: bool) | StringValue(s: string)

  type Prefs = map<string, Value>

  const SELECTED_HTTP_PORT := "selected_http_port"
  const SELECTED_SOCKS5_PORT := "selected_socks5_port"
  const IS_HTTP_ENABLED := "is_http_enabled"
  const IS_SOCKS5_ENABLED := "is_socks5_enabled"
  const IS_HTTP_ACTIVE := "is_http_active"
  const IS_SOCKS5_ACTIVE := "is_socks5_active"
  const SELECTED_IP_ADDRESS := "selected_ip_address"
  const DEFAULT_IP := ""

  /** The six keys that `saveProxySettings` writes. */
  const PROXY_KEYS: set<string> :=
    {SELECTED_HTTP_PORT, SELECTED_SOCKS5_PORT, IS_HTTP_ENABLED, IS_SOCKS5_ENABLED, IS_HTTP_ACTIVE, IS_SOCKS5_ACTIVE}

  predicate HoldsInt(m: Prefs, key: string) {
    key !in m || m[key].IntValue?
  }

  predicate HoldsBool(m: Prefs, key: string) {
    key !in m || m[key].BoolValue?
  }

  predicate HoldsString(m: Prefs, key: string) {
    key !in m || m[key].StringValue?
  }

  /**
   * Each known key, when present, holds the type its getter asks for (a
   * getter that meets another type throws). Only this store writes these keys,
   * and every write below keeps this true.
   */
  predicate WellTyped(m: Prefs) {
    && HoldsInt(m, SELECTED_HTTP_PORT) && HoldsInt(m, SELECTED_SOCKS5_PORT)
    && HoldsBool(m, IS_HTTP_ENABLED) && HoldsBool(m, IS_SOCKS5_ENABLED)
    && HoldsBool(m, IS_HTTP_ACTIVE) && HoldsBool(m, IS_SOCKS5_ACTIVE)
    && HoldsString(m, SELECTED_IP_ADDRESS)
  }

  /** `getInt(key, default)`. */
  function GetInt(m: Prefs, key: string, default: Int32): (v: Int32)
    requires HoldsInt(m, key)
    ensures key !in m ==> v == default
    ensures key in m ==> m[key] == IntValue(v)
  {
    if key in m then m[key].i else default
  }

  /** `getBoolean(key, default)`. */
  function GetBoolean(m: Prefs, key: string, default: bool): (v: bool)
    requires HoldsBool(m, key)
    ensures key !in m ==> v == default
    ensures key in m ==> m[key] == BoolValue(v)
  {
    if key in m then m[key].b else default
  }

  /** `getString(key, default)`. */
  function GetString(m: Prefs, key: string, default: string): (v: string)
    requires HoldsString(m, key)
    ensures key !in m ==> v == default
    ensures key in m ==> m[key] == StringValue(v)
  {
    if key in m then m[key].s else default
  }

  /** The store after `saveProxySettings(c)`: the six proxy keys hold `c`, every other key is untouched. */
  function PutProxySettings(m: Prefs, c: ProxyConfig): (r: Prefs)
    ensures WellTyped(m) ==> WellTyped(r)
    ensures r.Keys == m.Keys + PROXY_KEYS
    ensures r[SELECTED_HTTP_PORT] == IntValue(c.httpPort) && r[SELECTED_SOCKS5_PORT] == IntValue(c.socks5Port)
    ensures r[IS_HTTP_ENABLED] == BoolValue(c.isHttpEnabled) && r[IS_SOCKS5_ENABLED] == BoolValue(c.isSocks5Enabled)
    ensures r[IS_HTTP_ACTIVE] == BoolValue(c.isHttpActive) && r[IS_SOCKS5_ACTIVE] == BoolValue(c.isSocks5Active)
    ensures forall k :: k in m && k !in PROXY_KEYS ==> k in r && r[k] == m[k]
  {
    m[SELECTED_HTTP_PORT := IntValue(c.httpPort)]
     [SELECTED_SOCKS5_PORT := IntValue(c.socks5Port)]
     [IS_HTTP_ENABLED := BoolValue(c.isHttpEnabled)]
     [IS_SOCKS5_ENABLED := BoolValue(c.isSocks5Enabled)]
     [IS_HTTP_ACTIVE := BoolValue(c.isHttpActive)]
     [IS_SOCKS5_ACTIVE := BoolValue(c.isSocks5Active)]
  }

  /**
   * What `loadProxySettings()` returns: stored ports and enable flags (with
   * their defaults), and both active flags false whatever was stored.
   */
  function ReadProxySettings(m: Prefs): (c: ProxyConfig)
    requires WellTyped(m)
    ensures NoneActive(c) && ActiveOnlyIfEnabled(c)
    ensures SELECTED_HTTP_PORT !in m ==> c.httpPort == 8080
    ensures SELECTED_SOCKS5_PORT !in m ==> c.socks5Port == 1080
    ensures IS_HTTP_ENABLED !in m ==> c.isHttpEnabled
    ensures IS_SOCKS5_ENABLED !in m ==> c.isSocks5Enabled
    ensures SELECTED_HTTP_PORT in m ==> m[SELECTED_HTTP_PORT] == IntValue(c.httpPort)
    ensures SELECTED_SOCKS5_PORT in m ==> m[SELECTED_SOCKS5_PORT] == IntValue(c.socks5Port)
    ensures IS_HTTP_ENABLED in m ==> m[IS_HTTP_ENABLED] == BoolValue(c.isHttpEnabled)
    ensures IS_SOCKS5_ENABLED in m ==> m[IS_SOCKS5_ENABLED] == BoolValue(c.isSocks5Enabled)
  {
    ProxyConfig(
      GetInt(m, SELECTED_HTTP_PORT, DEFAULT_HTTP_PORT),
      GetInt(m, SELECTED_SOCKS5_PORT, DEFAULT_SOCKS5_PORT),
      GetBoolean(m, IS_HTTP_ENABLED, true),
      GetBoolean(m, IS_SOCKS5_ENABLED, true),
      false,
      false)
  }

  /** The store after `saveSelectedIpAddress(ip)`. */
  function PutSelectedIp(m: Prefs, ip: string): (r: Prefs)
    ensures WellTyped(m) ==> WellTyped(r)
    ensures r.Keys == m.Keys + {SELECTED_IP_ADDRESS}
    ensures forall k :: k in m && k != SELECTED_IP_ADDRESS ==> r[k] == m[k]
  {
    m[SELECTED_IP_ADDRESS := StringValue(ip)]
  }

  /** What `getSelectedIpAddress()` returns. */
  function ReadSelectedIp(m: Prefs): (ip: string)
    requires WellTyped(m)
    ensures SELECTED_IP_ADDRESS !in m ==> ip == ""
    ensures SELECTED_IP_ADDRESS in m ==> m[SELECTED_IP_ADDRESS] == StringValue(ip)
  {
    GetString(m, SELECTED_IP_ADDRESS, DEFAULT_IP)
  }

  /** The store after `clearSelectedIpAddress()`. */
  function RemoveSelectedIp(m: Prefs): (r: Prefs)
    ensures WellTyped(m) ==> WellTyped(r)
    ensures r.Keys == m.Keys - {SELECTED_IP_ADDRESS}
    ensures forall k :: k in r ==> r[k] == m[k]
  {
    m - {SELECTED_IP_ADDRESS}
  }

  /** Save then load returns the saved ports and enable flags, with both active flags false. */
  lemma SaveLoadRoundTrip(m: Prefs, c: ProxyConfig)
    requires WellTyped(m)
    ensures ReadProxySettings(PutProxySettings(m, c)) == c.(isHttpActive := false, isSocks5Active := false)
  {
  }

  /** The saved active flags never reach a load: two saves that differ only in them load the same. */
  lemma SavedActiveFlagsUnobservable(m: Prefs, c: ProxyConfig, httpActive: bool, socks5Active: bool)
    requires WellTyped(m)
    ensures ReadProxySettings(PutProxySettings(m, c))
         == ReadProxySettings(PutProxySettings(m, c.(isHttpActive := httpActive, isSocks5Active := socks5Active)))
  {
    SaveLoadRoundTrip(m, c);
    SaveLoadRoundTrip(m, c.(isHttpActive := httpActive, isSocks5Active := socks5Active));
  }

  /** An empty store loads as the default configuration. */
  lemma LoadFromEmptyIsDefault()
    ensures ReadProxySettings(map[]) == DefaultConfig()
  {
  }

  /** Saving an IP then reading it gives back exactly that string. */
  lemma SelectedIpRoundTrip(m: Prefs, ip: string)
    requires WellTyped(m)
    ensures ReadSelectedIp(PutSelectedIp(m, ip)) == ip
  {
  }

  /** After clearing, the selected IP reads as the empty string. */
  lemma ClearedIpReadsEmpty(m: Prefs)
    requires WellTyped(m)
    ensures ReadSelectedIp(RemoveSelectedIp(m)) == ""
  {
  }

  /** Saving proxy settings leaves the selected IP entry as it was. */
  lemma SaveSettingsKeepsSelectedIp(m: Prefs, c: ProxyConfig)
    requires WellTyped(m)
    ensures (SELECTED_IP_ADDRESS in PutProxySettings(m, c)) == (SELECTED_IP_ADDRESS in m)
    ensures ReadSelectedIp(PutProxySettings(m, c)) == ReadSelectedIp(m)
  {
  }

  /** Saving or clearing the selected IP leaves the six proxy entries, and so the loaded config, as they were. */
  lemma SelectedIpWritesKeepSettings(m: Prefs, ip: string)
    requires WellTyped(m)
    ensures forall k :: k in PROXY_KEYS ==>
      (k in PutSelectedIp(m, ip) <==> k in m) && (k in RemoveSelectedIp(m) <==> k in m)
    ensures forall k :: k in PROXY_KEYS && k in m ==> PutSelectedIp(m, ip)[k] == m[k] && RemoveSelectedIp(m)[k] == m[k]
    ensures ReadProxySettings(PutSelectedIp(m, ip)) == ReadProxySettings(m)
    ensures ReadProxySettings(RemoveSelectedIp(m)) == ReadProxySettings(m)
  {
  }

  /** The store object. Its one field is the durable map it wraps. */
  class PreferenceManager {
    var prefs: Prefs

    predicate Valid()
      reads this
    {
      WellTyped(prefs)
    }

    /** Opens the store over what is already on disk. */
    constructor (persisted: Prefs)
      requires WellTyped(persisted)
      ensures Valid() && prefs == persisted
    {
      prefs := persisted;
    }

    method SaveProxySettings(c: ProxyConfig)
      requires Valid()
      modifies this
      ensures Valid()
      ensures prefs == PutProxySettings(old(prefs), c)
    {
      prefs := prefs[SELECTED_HTTP_PORT := IntValue(c.httpPort)];
      prefs := prefs[SELECTED_SOCKS5_PORT := IntValue(c.socks5Port)];
      prefs := prefs[IS_HTTP_ENABLED := BoolValue(c.isHttpEnabled)];
      prefs := prefs[IS_SOCKS5_ENABLED := BoolValue(c.isSocks5Enabled)];
      prefs := prefs[IS_HTTP_ACTIVE := BoolValue(c.isHttpActive)];
      prefs := prefs[IS_SOCKS5_ACTIVE := BoolValue(c.isSocks5Active)];
    }

    method LoadProxySettings() returns (c: ProxyConfig)
      requires Valid()
      ensures c == ReadProxySettings(prefs)
      ensures NoneActive(c)
    {
      var httpPort := GetInt(prefs, SELECTED_HTTP_PORT, DEFAULT_HTTP_PORT);
      var socks5Port := GetInt(prefs, SELECTED_SOCKS5_PORT, DEFAULT_SOCKS5_PORT);
      var isHttpEnabled := GetBoolean(prefs, IS_HTTP_ENABLED, true);
      var isSocks5Enabled := GetBoolean(prefs, IS_SOCKS5_ENABLED, true);
      c := ProxyConfig(httpPort, socks5Port, isHttpEnabled, isSocks5Enabled, false, false);
    }

    method SaveSelectedIpAddress(ip: string)
      requires Valid()
      modifies this
      ensures Valid()
      ensures prefs == PutSelectedIp(old(prefs), ip)
    {
      prefs := prefs[SELECTED_IP_ADDRESS := StringValue(ip)];
    }

    method GetSelectedIpAddress() returns (ip: string)
      requires Valid()
      ensures ip == ReadSelectedIp(prefs)
    {
      ip := GetString(prefs, SELECTED_IP_ADDRESS, DEFAULT_IP);
    }

    method ClearSelectedIpAddress()
      requires Valid()
      modifies this
      ensures Valid()
      ensures prefs == RemoveSelectedIp(old(prefs))
    {
      prefs := prefs - {SELECTED_IP_ADDRESS};
    }
  }
}
