/**
 * The proxy lifecycle controller behind the home screen. It keeps two state
 * cells, the canonical `proxyConfig` and the published `uiState`, replaces
 * them wholesale on every operation, writes through to the preference store
 * and commands the external proxy service. Each operation runs as one
 * sequential step.
 */
module Home {
  import opened Wrappers
  import opened Numbers
  import opened Data
  import opened Preferences
  import opened HomeUi

  /** A command sent to the external proxy service. */
  datatype Command = Start | Stop

  /**
   * The external proxy service. It has no status query; all the controller
   * can know of it is the commands it was sent, recorded here in order.
   */
  class ProxyService {
    ghost var commands: seq<Command>

    constructor ()
      ensures commands == []
    {
      commands := [];
    }

    method StartService()
      modifies this
      ensures commands == old(commands) + [Start]
    {
      commands := commands + [Start];
    }

    method StopService()
      modifies this
      ensures commands == old(commands) + [Stop]
    {
      commands := commands + [Stop];
    }

    /** Sends the given commands in order. */
    method Issue(cmds: seq<Command>)
      modifies this
      ensures commands == old(commands) + cmds
    {
      commands := commands + cmds;
    }
  }

  /**
   * The active flags a start request yields: a protocol becomes active exactly
   * when it is both enabled and requested; nothing else in the config changes.
   */
  function Activated(c: ProxyConfig, startHttp: bool, startSocks5: bool): (r: ProxyConfig)
    ensures ActiveOnlyIfEnabled(r)
    ensures r.isHttpActive ==> startHttp
    ensures r.isSocks5Active ==> startSocks5
    ensures c.isHttpEnabled && startHttp ==> r.isHttpActive
    ensures c.isSocks5Enabled && startSocks5 ==> r.isSocks5Active
    ensures r == c.(isHttpActive := r.isHttpActive, isSocks5Active := r.isSocks5Active)
    ensures forall t: ProxyType :: IsActive(r, t) ==> IsEnabled(r, t)
  {
    var r := c.(isHttpActive := c.isHttpEnabled && startHttp, isSocks5Active := c.isSocks5Enabled && startSocks5);
    InvariantsPerProtocol(r);
    r
  }

  /** The commands the start-up resume check sends for a loaded config. */
  function ResumeCommands(c: ProxyConfig): (cmds: seq<Command>)
    ensures cmds == [] <==> NoneActive(c)
    ensures cmds == [] || cmds == [Start]
  {
    if c.isHttpActive || c.isSocks5Active then [Start] else []
  }

  /** The resume check never fires on what the store loads, whatever the store holds. */
  lemma ResumeNeverFiresAfterLoad(m: Prefs)
    requires WellTyped(m)
    ensures ResumeCommands(ReadProxySettings(m)) == []
  {
  }

  /** Where a start attempt fails, if it does: in the store write, or in the service start command. */
  datatype StartFault = NoFault | StoreFault(message: string) | ServiceFault(message: string)

  const START_FAILURE_PREFIX := "Failed to start proxy services: "

  class HomeViewModel {
    const store: PreferenceManager
    const service: ProxyService
    var proxyConfig: ProxyConfig
    var uiState: HomeUiState

    predicate Valid()
      reads this, store
    {
      store.Valid()
    }

    /** The snapshot shows the config's active flags and ports. */
    predicate InSync()
      reads this
    {
      && uiState.isHttpProxyActive == proxyConfig.isHttpActive
      && uiState.isSocks5ProxyActive == proxyConfig.isSocks5Active
      && uiState.httpPort == proxyConfig.httpPort
      && uiState.socks5Port == proxyConfig.socks5Port
    }

    /**
     * Initialisation: the injected config cell and a default snapshot, then
     * the saved settings are loaded. The monitor and the start-up IP refresh
     * that initialisation launches are `MonitorStatus` and `RefreshAvailableIps`.
     */
    constructor (store: PreferenceManager, service: ProxyService, injected: ProxyConfig, loadFails: bool)
      requires store.Valid()
      modifies service
      ensures Valid() && this.store == store && this.service == service
      ensures service.commands == old(service.commands)
      ensures loadFails ==> proxyConfig == injected && uiState == DefaultUiState()
      ensures !loadFails ==> proxyConfig == ReadProxySettings(store.prefs) && InSync()
      ensures !loadFails ==> uiState.selectedIpAddress == ReadSelectedIp(store.prefs)
      ensures !loadFails ==> uiState == DefaultUiState().(httpPort := proxyConfig.httpPort, socks5Port := proxyConfig.socks5Port,
                                                          selectedIpAddress := ReadSelectedIp(store.prefs))
    {
      this.store := store;
      this.service := service;
      proxyConfig := injected;
      uiState := DefaultUiState();
      new;
      LoadSavedProxySettings(loadFails);
    }

    /**
     * Restores the saved config and selected IP. Since the store always loads
     * both active flags false, the resume check sends no command.
     */
    method LoadSavedProxySettings(loadFails: bool)
      requires Valid()
      modifies this, service
      ensures Valid()
      ensures service.commands == old(service.commands)
      ensures loadFails ==> proxyConfig == old(proxyConfig) && uiState == old(uiState)
      ensures !loadFails ==> proxyConfig == ReadProxySettings(store.prefs)
      ensures !loadFails ==> uiState == old(uiState).(
        httpPort := proxyConfig.httpPort, socks5Port := proxyConfig.socks5Port,
        isHttpProxyActive := false, isSocks5ProxyActive := false,
        selectedIpAddress := ReadSelectedIp(store.prefs))
      ensures !loadFails ==> InSync() && ActiveOnlyIfEnabled(proxyConfig)
    {
      if !loadFails {
        var savedConfig := store.LoadProxySettings();
        var savedIpAddress := store.GetSelectedIpAddress();
        proxyConfig := savedConfig;
        uiState := uiState.(
          httpPort := savedConfig.httpPort, socks5Port := savedConfig.socks5Port,
          isHttpProxyActive := savedConfig.isHttpActive, isSocks5ProxyActive := savedConfig.isSocks5Active,
          selectedIpAddress := savedIpAddress);
        service.Issue(ResumeCommands(savedConfig));
      }
    }

    /** The whole effect of a start request, shared by the three start operations. */
    twostate predicate Started(startHttp: bool, startSocks5: bool, fault: StartFault)
      reads this, store, service
    {
      && proxyConfig == Activated(old(proxyConfig), startHttp, startSocks5)
      && store.prefs == (if fault.StoreFault? then old(store.prefs) else PutProxySettings(old(store.prefs), proxyConfig))
      && service.commands == old(service.commands) + (if fault.NoFault? then [Start] else [])
      && uiState == if fault.NoFault?
         then old(uiState).(isHttpProxyActive := proxyConfig.isHttpActive,
                            isSocks5ProxyActive := proxyConfig.isSocks5Active, errorMessage := None)
         else old(uiState).(isHttpProxyActive := false, isSocks5ProxyActive := false,
                            errorMessage := Some(START_FAILURE_PREFIX + fault.message))
    }

    /**
     * Marks each protocol active iff it is enabled and requested, persists the
     * config, starts the service (even when neither ends up active) and shows
     * the new flags with no error. A failure shows both flags false and an
     * error message; the config cell keeps the new flags, and the store holds
     * them too when only the service start failed.
     */
    method StartProxyService(startHttp: bool, startSocks5: bool, fault: StartFault)
      requires Valid()
      modifies this, store, service
      ensures Valid()
      ensures Started(startHttp, startSocks5, fault)
      ensures ActiveOnlyIfEnabled(proxyConfig)
      ensures fault.NoFault? ==> (old(InSync()) ==> InSync())
      ensures !fault.NoFault? ==> uiState.errorMessage.Some? && !uiState.isHttpProxyActive && !uiState.isSocks5ProxyActive
      ensures uiState == WithLifecycle(old(uiState), LifecycleOf(uiState))
    {
      var httpEnabled := proxyConfig.isHttpEnabled && startHttp;
      var socks5Enabled := proxyConfig.isSocks5Enabled && startSocks5;
      var updatedConfig := proxyConfig.(isHttpActive := httpEnabled, isSocks5Active := socks5Enabled);
      proxyConfig := updatedConfig;
      if fault.StoreFault? {
        uiState := uiState.(isHttpProxyActive := false, isSocks5ProxyActive := false,
                            errorMessage := Some(START_FAILURE_PREFIX + fault.message));
      } else {
        store.SaveProxySettings(updatedConfig);
        if fault.ServiceFault? {
          uiState := uiState.(isHttpProxyActive := false, isSocks5ProxyActive := false,
                              errorMessage := Some(START_FAILURE_PREFIX + fault.message));
        } else {
          service.StartService();
          uiState := uiState.(isHttpProxyActive := httpEnabled, isSocks5ProxyActive := socks5Enabled,
                              errorMessage := None);
        }
      }
    }

    /** Requests HTTP only: SOCKS5 ends up marked inactive. */
    method StartHttpProxy(fault: StartFault)
      requires Valid()
      modifies this, store, service
      ensures Valid()
      ensures Started(true, false, fault)
      ensures uiState == WithLifecycle(old(uiState), LifecycleOf(uiState))
      ensures !proxyConfig.isSocks5Active && !uiState.isSocks5ProxyActive
    {
      StartProxyService(true, false, fault);
    }

    /** Requests SOCKS5 only: HTTP ends up marked inactive. */
    method StartSocks5Proxy(fault: StartFault)
      requires Valid()
      modifies this, store, service
      ensures Valid()
      ensures Started(false, true, fault)
      ensures uiState == WithLifecycle(old(uiState), LifecycleOf(uiState))
      ensures !proxyConfig.isHttpActive && !uiState.isHttpProxyActive
    {
      StartProxyService(false, true, fault);
    }

    /** Requests both: each ends up active exactly when enabled, on success. */
    method StartBothProxies(fault: StartFault)
      requires Valid()
      modifies this, store, service
      ensures Valid()
      ensures Started(true, true, fault)
      ensures uiState == WithLifecycle(old(uiState), LifecycleOf(uiState))
      ensures fault.NoFault? ==> uiState.isHttpProxyActive == old(proxyConfig).isHttpEnabled
      ensures fault.NoFault? ==> uiState.isSocks5ProxyActive == old(proxyConfig).isSocks5Enabled
    {
      StartProxyService(true, true, fault);
    }

    /** Marks HTTP inactive, persists, stops the (whole) service. SOCKS5 flags are untouched. */
    method StopHttpProxy()
      requires Valid()
      modifies this, store, service
      ensures Valid()
      ensures proxyConfig == old(proxyConfig).(isHttpActive := false)
      ensures store.prefs == PutProxySettings(old(store.prefs), proxyConfig)
      ensures service.commands == old(service.commands) + [Stop]
      ensures uiState == old(uiState).(isHttpProxyActive := false)
      ensures uiState == WithLifecycle(old(uiState), LifecycleOf(uiState))
      ensures old(ActiveOnlyIfEnabled(proxyConfig)) ==> ActiveOnlyIfEnabled(proxyConfig)
      ensures old(InSync()) ==> InSync()
    {
      var updatedConfig := proxyConfig.(isHttpActive := false);
      proxyConfig := updatedConfig;
      store.SaveProxySettings(updatedConfig);
      service.StopService();
      uiState := uiState.(isHttpProxyActive := false);
    }

    /** Marks SOCKS5 inactive, persists, stops the (whole) service. HTTP flags are untouched. */
    method StopSocks5Proxy()
      requires Valid()
      modifies this, store, service
      ensures Valid()
      ensures proxyConfig == old(proxyConfig).(isSocks5Active := false)
      ensures store.prefs == PutProxySettings(old(store.prefs), proxyConfig)
      ensures service.commands == old(service.commands) + [Stop]
      ensures uiState == old(uiState).(isSocks5ProxyActive := false)
      ensures uiState == WithLifecycle(old(uiState), LifecycleOf(uiState))
      ensures old(ActiveOnlyIfEnabled(proxyConfig)) ==> ActiveOnlyIfEnabled(proxyConfig)
      ensures old(InSync()) ==> InSync()
    {
      var updatedConfig := proxyConfig.(isSocks5Active := false);
      proxyConfig := updatedConfig;
      store.SaveProxySettings(updatedConfig);
      service.StopService();
      uiState := uiState.(isSocks5ProxyActive := false);
    }

    /** Marks both inactive and stops the service, without writing the store. */
    method StopBothProxies()
      requires Valid()
      modifies this, service
      ensures Valid()
      ensures proxyConfig == old(proxyConfig).(isHttpActive := false, isSocks5Active := false)
      ensures store.prefs == old(store.prefs)
      ensures service.commands == old(service.commands) + [Stop]
      ensures uiState == old(uiState).(isHttpProxyActive := false, isSocks5ProxyActive := false)
      ensures uiState == WithLifecycle(old(uiState), LifecycleOf(uiState))
      ensures NoneActive(proxyConfig) && ActiveOnlyIfEnabled(proxyConfig)
      ensures old(InSync()) ==> InSync()
    {
      proxyConfig := proxyConfig.(isHttpActive := false, isSocks5Active := false);
      service.StopService();
      uiState := uiState.(isHttpProxyActive := false, isSocks5ProxyActive := false);
    }

    /** Changes the HTTP port in both cells; no store write, no service command, no restart. */
    method UpdateHttpPort(port: Int32)
      modifies this
      ensures proxyConfig == old(proxyConfig).(httpPort := port)
      ensures uiState == old(uiState).(httpPort := port)
      ensures uiState == WithLifecycle(old(uiState), LifecycleOf(uiState))
      ensures old(ActiveOnlyIfEnabled(proxyConfig)) ==> ActiveOnlyIfEnabled(proxyConfig)
      ensures old(InSync()) ==> InSync()
    {
      proxyConfig := proxyConfig.(httpPort := port);
      uiState := uiState.(httpPort := port);
    }

    /** Changes the SOCKS5 port in both cells; no store write, no service command, no restart. */
    method UpdateSocks5Port(port: Int32)
      modifies this
      ensures proxyConfig == old(proxyConfig).(socks5Port := port)
      ensures uiState == old(uiState).(socks5Port := port)
      ensures uiState == WithLifecycle(old(uiState), LifecycleOf(uiState))
      ensures old(ActiveOnlyIfEnabled(proxyConfig)) ==> ActiveOnlyIfEnabled(proxyConfig)
      ensures old(InSync()) ==> InSync()
    {
      proxyConfig := proxyConfig.(socks5Port := port);
      uiState := uiState.(socks5Port := port);
    }

    /**
     * Shows `ip` as selected (unvalidated) and persists it; a failing store
     * write is swallowed, leaving the snapshot updated and the store as it was.
     */
    method SelectIpAddress(ip: string, saveFails: bool)
      requires Valid()
      modifies this, store
      ensures Valid()
      ensures proxyConfig == old(proxyConfig)
      ensures uiState == old(uiState).(selectedIpAddress := ip)
      ensures store.prefs == if saveFails then old(store.prefs) else PutSelectedIp(old(store.prefs), ip)
      ensures !saveFails ==> ReadSelectedIp(store.prefs) == ip
    {
      uiState := uiState.(selectedIpAddress := ip);
      if !saveFails {
        store.SaveSelectedIpAddress(ip);
      }
    }

    /**
     * One iteration of the status monitor. `sample` is what the network facts
     * provider answered, or None when querying it threw.
     */
    method CheckStatusOnce(sample: Option<NetworkFacts>)
      modifies this
      ensures proxyConfig == old(proxyConfig)
      ensures uiState == Tick(old(uiState), sample)
      ensures LifecycleOf(uiState) == LifecycleOf(old(uiState))
      ensures old(InSync()) ==> InSync()
    {
      if sample.Some? {
        var isVpnConnected := sample.value.vpnConnected;
        var isHotspotEnabled := sample.value.hotspotEnabled;
        var availableIPs := sample.value.availableIPs;
        var currentSelectedIp := uiState.selectedIpAddress;
        var newSelectedIp := if currentSelectedIp != "" && currentSelectedIp in availableIPs then currentSelectedIp
                             else if |availableIPs| > 0 then availableIPs[0]
                             else "";
        uiState := uiState.(isVpnConnected := isVpnConnected, isHotspotEnabled := isHotspotEnabled,
                            availableIPs := availableIPs, selectedIpAddress := newSelectedIp);
      }
    }

    /** The status monitor run for one iteration per sample. */
    method MonitorStatus(samples: seq<Option<NetworkFacts>>)
      modifies this
      ensures proxyConfig == old(proxyConfig)
      ensures uiState == StatusAfter(old(uiState), samples)
    {
      for i := 0 to |samples|
        invariant proxyConfig == old(proxyConfig)
        invariant uiState == StatusAfter(old(uiState), samples[..i])
      {
        assert samples[..i + 1][..i] == samples[..i];
        CheckStatusOnce(samples[i]);
      }
      assert samples[..|samples|] == samples;
    }

    /**
     * The start-up IP refresh: shows the offered addresses and selects the
     * first (discarding a loaded selection). None: the query threw.
     */
    method RefreshAvailableIps(sample: Option<seq<string>>)
      modifies this
      ensures proxyConfig == old(proxyConfig)
      ensures sample == None ==> uiState == old(uiState)
      ensures sample.Some? ==> uiState == old(uiState).(availableIPs := sample.value,
                                                        selectedIpAddress := FirstOrEmpty(sample.value))
      ensures sample.Some? ==> SelectionValid(uiState)
    {
      if sample.Some? {
        var availableIPs := sample.value;
        var selectedIp := if |availableIPs| > 0 then availableIPs[0] else "";
        uiState := uiState.(availableIPs := availableIPs, selectedIpAddress := selectedIp);
      }
    }
  }

  /** Starting both from a fresh store and then stopping HTTP leaves SOCKS5 marked active. */
  method StartThenStopHttpScenario() {
    var store := new PreferenceManager(map[]);
    var service := new ProxyService();
    var vm := new HomeViewModel(store, service, DefaultConfig(), false);
    assert vm.proxyConfig == DefaultConfig();
    vm.StartBothProxies(NoFault);
    assert vm.uiState.isHttpProxyActive && vm.uiState.isSocks5ProxyActive && vm.uiState.errorMessage == None;
    assert store.prefs[IS_HTTP_ACTIVE] == BoolValue(true) && store.prefs[IS_SOCKS5_ACTIVE] == BoolValue(true);
    vm.StopHttpProxy();
    assert !vm.uiState.isHttpProxyActive && vm.uiState.isSocks5ProxyActive;
    assert service.commands == [Start, Stop];
  }

  /**
   * `stopBothProxies` skips the store write, so a port changed on the home
   * screen is lost on the next load, while `stopHttpProxy` would have saved it.
   */
  method StopBothLeavesPortUnsavedScenario() {
    var store := new PreferenceManager(map[]);
    var service := new ProxyService();
    var vm := new HomeViewModel(store, service, DefaultConfig(), false);
    vm.UpdateHttpPort(9090);
    vm.StopBothProxies();
    assert vm.proxyConfig.httpPort == 9090;
    assert ReadProxySettings(store.prefs).httpPort == 8080;
    vm.StopHttpProxy();
    assert ReadProxySettings(store.prefs).httpPort == 9090;
  }

  /**
   * A per-protocol stop writes the whole config cell, so a port saved by the
   * settings form since the cell was loaded is overwritten with the stale one.
   */
  method StopWritesStalePortScenario() {
    var store := new PreferenceManager(map[]);
    var service := new ProxyService();
    var vm := new HomeViewModel(store, service, DefaultConfig(), false);
    store.SaveProxySettings(DefaultConfig().(socks5Port := 9000));
    assert ReadProxySettings(store.prefs).socks5Port == 9000;
    vm.StopSocks5Proxy();
    assert ReadProxySettings(store.prefs).socks5Port == 1080;
  }
}
