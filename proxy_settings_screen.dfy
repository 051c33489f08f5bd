/**
 * The proxy settings form: two port text fields that accept digits only,
 * two enable check boxes, and a Save action that validates both ports
 * against 1024..65535 before writing a config with both active flags false.
 * Rendering, toasts and the restart dialog's layout are not modelled; the
 * dialog's visibility flag is.
 */
module Settings {
  import opened Wrappers
  import opened Numbers
  import opened Data
  import opened Preferences

  const MIN_PORT := 1024
  const MAX_PORT := 65535

  predicate InPortRange(v: int) {
    MIN_PORT <= v <= MAX_PORT
  }

  /** The text field's change filter: a new value is taken only if every character is a digit. */
  function FilterPortInput(current: string, newValue: string): (r: string)
    ensures AllDigits(newValue) ==> r == newValue
    ensures !AllDigits(newValue) ==> r == current
    ensures AllDigits(current) ==> AllDigits(r)
  {
    if AllDigits(newValue) then newValue else current
  }

  /** A port text that parses as an `Int` inside the allowed range. */
  predicate AcceptablePort(text: string) {
    var n := ToIntOrNull(text);
    n.Some? && InPortRange(n.value)
  }

  /**
   * The config the Save button writes, or None when either port is rejected.
   * A saved config carries the parsed ports and the check box states, and
   * never marks a protocol active.
   */
  function ConfigToSave(httpText: string, socks5Text: string, httpEnabled: bool, socks5Enabled: bool): (r: Option<ProxyConfig>)
    ensures r.Some? <==> AcceptablePort(httpText) && AcceptablePort(socks5Text)
    ensures r.Some? ==> Some(r.value.httpPort) == ToIntOrNull(httpText) && InPortRange(r.value.httpPort)
    ensures r.Some? ==> Some(r.value.socks5Port) == ToIntOrNull(socks5Text) && InPortRange(r.value.socks5Port)
    ensures r.Some? ==> r.value.isHttpEnabled == httpEnabled && r.value.isSocks5Enabled == socks5Enabled
    ensures r.Some? ==> NoneActive(r.value)
  {
    var httpPortNumber := ToIntOrNull(httpText);
    var socks5PortNumber := ToIntOrNull(socks5Text);
    if httpPortNumber.Some? && InPortRange(httpPortNumber.value)
      && socks5PortNumber.Some? && InPortRange(socks5PortNumber.value)
    then Some(ProxyConfig(httpPortNumber.value, socks5PortNumber.value, httpEnabled, socks5Enabled, false, false))
    else None
  }

  /**
   * For text the filter lets through (digits only), a port is accepted exactly
   * when the text is non-empty and its decimal value lies in the range; in
   * particular the empty text passes the filter and is still rejected.
   */
  lemma AcceptableDigitPort(text: string)
    requires AllDigits(text)
    ensures AcceptablePort(text) <==> |text| > 0 && InPortRange(DigitsValue(text))
  {
  }

  /** An empty text in either port field rejects the save, whatever the other field holds. */
  lemma EmptyPortRejected(other: string, httpEnabled: bool, socks5Enabled: bool)
    ensures ConfigToSave("", other, httpEnabled, socks5Enabled) == None
    ensures ConfigToSave(other, "", httpEnabled, socks5Enabled) == None
  {
  }

  /**
   * The form as first shown, from ports in range, saves back exactly the
   * loaded ports and check box states.
   */
  lemma UneditedFormSavesLoadedPorts(httpPort: Int32, socks5Port: Int32, httpEnabled: bool, socks5Enabled: bool)
    requires InPortRange(httpPort) && InPortRange(socks5Port)
    ensures ConfigToSave(IntToString(httpPort), IntToString(socks5Port), httpEnabled, socks5Enabled)
         == Some(ProxyConfig(httpPort, socks5Port, httpEnabled, socks5Enabled, false, false))
  {
    ToIntOrNullOfIntToString(httpPort);
    ToIntOrNullOfIntToString(socks5Port);
  }

  /** What Save writes is what the next load returns. */
  lemma SavedFormLoadsBack(m: Prefs, httpText: string, socks5Text: string, httpEnabled: bool, socks5Enabled: bool)
    requires WellTyped(m)
    requires ConfigToSave(httpText, socks5Text, httpEnabled, socks5Enabled).Some?
    ensures var c := ConfigToSave(httpText, socks5Text, httpEnabled, socks5Enabled).value;
            ReadProxySettings(PutProxySettings(m, c)) == c
  {
    SaveLoadRoundTrip(m, ConfigToSave(httpText, socks5Text, httpEnabled, socks5Enabled).value);
  }

  class ProxySettingsForm {
    const store: PreferenceManager
    /** The two port text fields' contents. */
    var httpPortText: string
    var socks5PortText: string
    var isHttpEnabled: bool
    var isSocks5Enabled: bool
    var showRestartDialog: bool

    /** The form as first shown: the fields hold the loaded config's ports and enable flags. */
    constructor (store: PreferenceManager)
      requires store.Valid()
      ensures this.store == store
      ensures var c := ReadProxySettings(store.prefs);
        && httpPortText == IntToString(c.httpPort) && socks5PortText == IntToString(c.socks5Port)
        && isHttpEnabled == c.isHttpEnabled && isSocks5Enabled == c.isSocks5Enabled
      ensures !showRestartDialog
    {
      this.store := store;
      var savedConfig := store.LoadProxySettings();
      httpPortText := IntToString(savedConfig.httpPort);
      socks5PortText := IntToString(savedConfig.socks5Port);
      isHttpEnabled := savedConfig.isHttpEnabled;
      isSocks5Enabled := savedConfig.isSocks5Enabled;
      showRestartDialog := false;
    }

    method OnHttpPortChange(newValue: string)
      modifies this
      ensures httpPortText == FilterPortInput(old(httpPortText), newValue)
      ensures socks5PortText == old(socks5PortText) && isHttpEnabled == old(isHttpEnabled)
      ensures isSocks5Enabled == old(isSocks5Enabled) && showRestartDialog == old(showRestartDialog)
    {
      if AllDigits(newValue) {
        httpPortText := newValue;
      }
    }

    method OnSocks5PortChange(newValue: string)
      modifies this
      ensures socks5PortText == FilterPortInput(old(socks5PortText), newValue)
      ensures httpPortText == old(httpPortText) && isHttpEnabled == old(isHttpEnabled)
      ensures isSocks5Enabled == old(isSocks5Enabled) && showRestartDialog == old(showRestartDialog)
    {
      if AllDigits(newValue) {
        socks5PortText := newValue;
      }
    }

    method OnHttpEnabledChange(checked: bool)
      modifies this
      ensures isHttpEnabled == checked
      ensures httpPortText == old(httpPortText) && socks5PortText == old(socks5PortText)
      ensures isSocks5Enabled == old(isSocks5Enabled) && showRestartDialog == old(showRestartDialog)
    {
      isHttpEnabled := checked;
    }

    method OnSocks5EnabledChange(checked: bool)
      modifies this
      ensures isSocks5Enabled == checked
      ensures httpPortText == old(httpPortText) && socks5PortText == old(socks5PortText)
      ensures isHttpEnabled == old(isHttpEnabled) && showRestartDialog == old(showRestartDialog)
    {
      isSocks5Enabled := checked;
    }

    /**
     * The Save button. Valid ports: the config is written and the restart
     * dialog is shown. Invalid ports: nothing is written.
     */
    method Save() returns (saved: bool)
      requires store.Valid()
      modifies this, store
      ensures store.Valid()
      ensures var r := ConfigToSave(old(httpPortText), old(socks5PortText), old(isHttpEnabled), old(isSocks5Enabled));
        && saved == r.Some?
        && store.prefs == (if r.Some? then PutProxySettings(old(store.prefs), r.value) else old(store.prefs))
        && (saved ==> ReadProxySettings(store.prefs) == r.value)
      ensures showRestartDialog == (saved || old(showRestartDialog))
      ensures httpPortText == old(httpPortText) && socks5PortText == old(socks5PortText)
      ensures isHttpEnabled == old(isHttpEnabled) && isSocks5Enabled == old(isSocks5Enabled)
    {
      var httpPortNumber := ToIntOrNull(httpPortText);
      var socks5PortNumber := ToIntOrNull(socks5PortText);
      if httpPortNumber.Some? && InPortRange(httpPortNumber.value)
        && socks5PortNumber.Some? && InPortRange(socks5PortNumber.value)
      {
        var config := ProxyConfig(httpPortNumber.value, socks5PortNumber.value,
                                  isHttpEnabled, isSocks5Enabled, false, false);
        store.SaveProxySettings(config);
        SaveLoadRoundTrip(old(store.prefs), config);
        showRestartDialog := true;
        saved := true;
      } else {
        saved := false;
      }
    }
  }
}
