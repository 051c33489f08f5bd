/**
 * The snapshot published to the home screen, and the pure rules the status
 * monitor applies to it: which IP stays selected, and how one sample of
 * network facts is merged into the snapshot.
 */
module HomeUi {
  import opened Wrappers
  import opened Numbers

  datatype HomeUiState = HomeUiState(
    isVpnConnected: bool,
    isHttpProxyActive: bool,
    isSocks5ProxyActive: bool,
    needsVpnPermission: bool,
    httpPort: Int32,
    socks5Port: Int32,
    isHotspotEnabled: bool,
    errorMessage: Option<string>,
    availableIPs: seq<string>,
    selectedIpAddress: string)

  /** `HomeUiState()` with every parameter left at its default. */
  function DefaultUiState(): (s: HomeUiState)
    ensures !s.isVpnConnected && !s.isHotspotEnabled && !s.needsVpnPermission
    ensures !s.isHttpProxyActive && !s.isSocks5ProxyActive
    ensures s.httpPort == 8080 && s.socks5Port == 1080
    ensures s.errorMessage == None && s.availableIPs == [] && s.selectedIpAddress == ""
    ensures SelectionValid(s)
  {
    HomeUiState(false, false, false, false, 8080, 1080, false, None, [], "")
  }

  /** One reading of the network facts provider. */
  datatype NetworkFacts = NetworkFacts(vpnConnected: bool, hotspotEnabled: bool, availableIPs: seq<string>)

  /** The fields of the snapshot that only the lifecycle operations write. */
  datatype LifecycleFields = LifecycleFields(
    httpActive: bool, socks5Active: bool, httpPort: Int32, socks5Port: Int32, errorMessage: Option<string>)

  function LifecycleOf(s: HomeUiState): LifecycleFields {
    LifecycleFields(s.isHttpProxyActive, s.isSocks5ProxyActive, s.httpPort, s.socks5Port, s.errorMessage)
  }

  /** The fields of the snapshot that the status monitor writes. */
  datatype NetworkFields = NetworkFields(
    vpnConnected: bool, hotspotEnabled: bool, availableIPs: seq<string>, selectedIpAddress: string)

  function NetworkOf(s: HomeUiState): NetworkFields {
    NetworkFields(s.isVpnConnected, s.isHotspotEnabled, s.availableIPs, s.selectedIpAddress)
  }

  /** A lifecycle write: replaces the lifecycle fields and nothing else. */
  function WithLifecycle(s: HomeUiState, l: LifecycleFields): (r: HomeUiState)
    ensures LifecycleOf(r) == l
    ensures NetworkOf(r) == NetworkOf(s) && r.needsVpnPermission == s.needsVpnPermission
  {
    s.(isHttpProxyActive := l.httpActive, isSocks5ProxyActive := l.socks5Active,
       httpPort := l.httpPort, socks5Port := l.socks5Port, errorMessage := l.errorMessage)
  }

  /** The selection is empty or one of the offered addresses. */
  predicate SelectionValid(s: HomeUiState) {
    s.selectedIpAddress == "" || s.selectedIpAddress in s.availableIPs
  }

  /**
   * The monitor's selection rule: keep the current address if it is non-empty
   * and still offered, else take the first offered address, else "".
   */
  function SelectIp(current: string, ips: seq<string>): (r: string)
    ensures r == "" || r in ips
    ensures |ips| == 0 ==> r == ""
    ensures current != "" && current in ips ==> r == current
    ensures (current == "" || current !in ips) && |ips| > 0 ==> r == ips[0]
  {
    if current != "" && current in ips then current
    else if |ips| > 0 then ips[0]
    else ""
  }

  /** Applying the rule again to the same list changes nothing. */
  lemma SelectIpIdempotent(current: string, ips: seq<string>)
    ensures SelectIp(SelectIp(current, ips), ips) == SelectIp(current, ips)
  {
  }

  /** The first offered address, or "" (the start-up refresh's rule). */
  function FirstOrEmpty(ips: seq<string>): (r: string)
    ensures r == "" || r in ips
    ensures |ips| > 0 ==> r == ips[0]
  {
    if |ips| > 0 then ips[0] else ""
  }

  /** The start-up rule is the monitor's rule with nothing selected yet. */
  lemma FirstOrEmptyIsSelectionFromNothing(ips: seq<string>)
    ensures FirstOrEmpty(ips) == SelectIp("", ips)
  {
  }

  /**
   * One successful monitor iteration: the new facts replace the network
   * fields, the selection follows `SelectIp`, and every field the lifecycle
   * operations own is left as it was.
   */
  function WithStatus(s: HomeUiState, f: NetworkFacts): (r: HomeUiState)
    ensures LifecycleOf(r) == LifecycleOf(s) && r.needsVpnPermission == s.needsVpnPermission
    ensures r.isVpnConnected == f.vpnConnected && r.isHotspotEnabled == f.hotspotEnabled
    ensures r.availableIPs == f.availableIPs
    ensures r.selectedIpAddress == SelectIp(s.selectedIpAddress, f.availableIPs)
    ensures SelectionValid(r)
  {
    s.(isVpnConnected := f.vpnConnected, isHotspotEnabled := f.hotspotEnabled,
       availableIPs := f.availableIPs, selectedIpAddress := SelectIp(s.selectedIpAddress, f.availableIPs))
  }

  /** Merging the same facts twice is merging them once. */
  lemma WithStatusIdempotent(s: HomeUiState, f: NetworkFacts)
    ensures WithStatus(WithStatus(s, f), f) == WithStatus(s, f)
  {
    SelectIpIdempotent(s.selectedIpAddress, f.availableIPs);
  }

  /**
   * The two writers own disjoint fields, so a lifecycle write and a status
   * merge give the same snapshot in either order.
   */
  lemma StatusCommutesWithLifecycle(s: HomeUiState, f: NetworkFacts, l: LifecycleFields)
    ensures WithStatus(WithLifecycle(s, l), f) == WithLifecycle(WithStatus(s, f), l)
  {
  }

  /**
   * The selected address is written by both the IP selection and the monitor,
   * so those two writes do not commute: a selection the next sample does not
   * offer is replaced when the merge comes second, and kept when it comes first.
   */
  lemma SelectionDoesNotCommuteWithStatus(s: HomeUiState, ip: string, f: NetworkFacts)
    requires ip != "" && ip !in f.availableIPs
    ensures WithStatus(s.(selectedIpAddress := ip), f).selectedIpAddress != ip
    ensures WithStatus(s, f).(selectedIpAddress := ip).selectedIpAddress == ip
    ensures WithStatus(s.(selectedIpAddress := ip), f) != WithStatus(s, f).(selectedIpAddress := ip)
  {
  }

  /** One iteration: a sample that could not be taken (None) leaves the snapshot unchanged. */
  function Tick(s: HomeUiState, sample: Option<NetworkFacts>): (r: HomeUiState)
    ensures sample == None ==> r == s
    ensures sample.Some? ==> r == WithStatus(s, sample.value)
  {
    match sample
    case None => s
    case Some(f) => WithStatus(s, f)
  }

  /** The snapshot after the monitor has run one iteration per sample, in order. */
  function StatusAfter(s: HomeUiState, samples: seq<Option<NetworkFacts>>): HomeUiState
    decreases |samples|
  {
    if samples == [] then s else Tick(StatusAfter(s, samples[..|samples| - 1]), samples[|samples| - 1])
  }

  /** However many iterations run, the lifecycle-owned fields are untouched. */
  lemma {:induction false} StatusAfterKeepsLifecycle(s: HomeUiState, samples: seq<Option<NetworkFacts>>)
    ensures LifecycleOf(StatusAfter(s, samples)) == LifecycleOf(s)
    ensures StatusAfter(s, samples).needsVpnPermission == s.needsVpnPermission
    decreases |samples|
  {
    if samples != [] {
      StatusAfterKeepsLifecycle(s, samples[..|samples| - 1]);
    }
  }

  /** A valid selection stays valid across any run of the monitor. */
  lemma {:induction false} StatusAfterKeepsSelectionValid(s: HomeUiState, samples: seq<Option<NetworkFacts>>)
    requires SelectionValid(s)
    ensures SelectionValid(StatusAfter(s, samples))
    decreases |samples|
  {
    if samples != [] {
      StatusAfterKeepsSelectionValid(s, samples[..|samples| - 1]);
    }
  }

  /** After a run with at least one successful sample, the selection is valid, whatever it was before. */
  lemma {:induction false} StatusAfterSuccessSelectsValid(s: HomeUiState, samples: seq<Option<NetworkFacts>>, k: nat)
    requires k < |samples| && samples[k].Some?
    ensures SelectionValid(StatusAfter(s, samples))
    decreases |samples|
  {
    var n := |samples| - 1;
    if k < n {
      StatusAfterSuccessSelectsValid(s, samples[..n], k);
    }
  }
}
