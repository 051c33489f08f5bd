# GNet proxy control plane in Dafny

This project models the control plane of GNet, an Android app that runs a
local HTTP and SOCKS5 proxy. The control plane decides which protocol is
marked active. It writes its decisions to a key-value preference store,
commands the external proxy service to start or stop, and merges observed
network facts into the snapshot the home screen shows. The module layout
follows the source files:

- `Data` (`proxy_config.dfy`): the `ProxyConfig` record with its defaults, the
  `ProxyType` enumeration, and the invariant "no protocol active while disabled".
- `Preferences` (`preference_manager.dfy`): the store. It is a map from key to
  typed value, with pure functions for each read and write and lemmas relating
  them. The `PreferenceManager` class mutates the map and is specified by those
  functions. `WellTyped` states that each known key holds the type its getter
  expects; every write keeps it.
- `HomeUi` (`home_ui_state.dfy`): the `HomeUiState` snapshot and the status
  monitor's pure rules. These are the IP selection rule, the merge of one
  network sample, and the monitor run over a sequence of samples. The field
  partition between the two writers is `LifecycleOf`/`NetworkOf`.
- `Home` (`home_view_model.dfy`): the `HomeViewModel` class. It holds two state
  cells, `proxyConfig` and `uiState`, plus the store and a `ProxyService`
  whose ghost `commands` log records every start and stop command sent. Each
  public operation is a method whose postcondition gives the whole new state.
- `Settings` (`proxy_settings_screen.dfy`): the settings form. It has a
  digit-only text filter, validation of the range 1024..65535, and a Save
  action that writes a config with both active flags false.
- `Numbers` (`numbers.dfy`): Kotlin's 32-bit `Int`, `Int.toString()` and
  `String.toIntOrNull()` (sign, empty text, overflow), with the round trip
  `ToIntOrNull(IntToString(n)) == Some(n)`.
- `Wrappers` (`wrappers.dfy`): `Option`, for Kotlin's nullable values.

Operations the environment drives are parameters:

- `StartFault` says whether a start attempt fails in the store write or in the
  service start command.
- `loadFails` and `saveFails` make the load and the IP save fail.
- `Option<NetworkFacts>` is one sample from the network facts provider; `None`
  means the query threw.

Consequences of the code that the model proves:

- The start-up resume branch in `loadSavedProxySettings` never fires.
  `loadProxySettings` always returns both active flags false
  (`ResumeNeverFiresAfterLoad`, and the `LoadSavedProxySettings` postcondition
  that the command log is unchanged).
- The persisted active flags never affect a load (`SavedActiveFlagsUnobservable`).
  So `stopBothProxies` skipping the store write makes no difference to the
  active flags. It does make a difference to the ports: a port changed with
  `updateHttpPort` and then followed by `stopBothProxies` is not saved, where
  `stopHttpProxy` would save it (`StopBothLeavesPortUnsavedScenario`). The
  other way round, a per-protocol stop writes the whole config cell back, so a
  port that the settings form saved since the cell was loaded is overwritten
  with the stale one (`StopWritesStalePortScenario`).
- Every start sets the active flag of an unrequested protocol to false. So
  `startHttpProxy` marks SOCKS5 inactive even if it was active (`StartHttpProxy`).
- A `Start` command is sent even when neither protocol ends up active.
- When a start fails, the config cell keeps the new active flags, but the
  snapshot shows both false. If only the service command failed, the store also
  holds the new flags (`PutProxySettings` states what each of the six keys holds).
- The start, stop and port-update operations change only the snapshot's
  lifecycle fields (each ends `uiState == WithLifecycle(old(uiState), …)`), and
  one monitor iteration changes none of them, so those writes and a status merge
  give the same snapshot in either order (`StatusCommutesWithLifecycle`). This
  does not extend to `selectIpAddress`, `loadSavedProxySettings` or the start-up
  refresh: they write `selectedIpAddress`, which the monitor also writes, and a
  selection the next sample does not offer survives or not depending on the
  order (`SelectionDoesNotCommuteWithStatus`).

## Behaviour of note

- The resume branch of `loadSavedProxySettings` never fires, as proved above.
- `stopBothProxies` does not write the store (`StopBothProxies` has no
  `modifies store`), unlike `stopHttpProxy` and `stopSocks5Proxy`.
- A failed start leaves the new active flags in `proxyConfig`; only the
  snapshot shows both false.
- Every successful start sends `Start`, whatever the enable flags.
- Every stop, per protocol or both, sends one whole-service `Stop`.

## Model

| member | source | states |
|---|---|---|
| Data.DefaultConfig | app/src/main/java/com/pira/gnetp/data/ProxyConfig.kt:3-10 | the default config has ports 8080/1080, both protocols enabled, none active, and so keeps the active-only-if-enabled invariant |
| Data.ProxyTypeCases | app/src/main/java/com/pira/gnetp/data/ProxyConfig.kt:12-15 | every protocol is HTTP or SOCKS5 |
| Numbers.IntToString | app/src/main/java/com/pira/gnetp/ui/settings/ProxySettingsScreen.kt:34-35 | `Int.toString()` is non-empty, all digits exactly when the number is not negative, and has no leading zero for a positive number |
| Numbers.ToIntOrNull | app/src/main/java/com/pira/gnetp/ui/settings/ProxySettingsScreen.kt:220-221 | `toIntOrNull` rejects the empty text; on digit-only text it succeeds iff the decimal value fits in an `Int`, and then returns that value |
| Numbers.ToIntOrNullOfIntToString | app/src/main/java/com/pira/gnetp/ui/settings/ProxySettingsScreen.kt:34-35 | parsing what `Int.toString()` printed gives back the same `Int`, negatives included |
| Preferences.GetInt | app/src/main/java/com/pira/gnetp/utils/PreferenceManager.kt:46-47 | an absent key reads as the default; a present one reads as its stored integer |
| Preferences.GetBoolean | app/src/main/java/com/pira/gnetp/utils/PreferenceManager.kt:48-49 | an absent key reads as the default; a present one reads as its stored boolean |
| Preferences.GetString | app/src/main/java/com/pira/gnetp/utils/PreferenceManager.kt:67-69 | an absent key reads as the default; a present one reads as its stored string |
| Preferences.PutProxySettings | app/src/main/java/com/pira/gnetp/utils/PreferenceManager.kt:34-43 | saving adds exactly the six proxy keys, each holding the matching field of the config (both active flags included), leaves every other key unchanged, and keeps the store well-typed |
| Preferences.ReadProxySettings | app/src/main/java/com/pira/gnetp/utils/PreferenceManager.kt:45-59 | a load never marks a protocol active; each port and enable flag is its stored value when present and 8080/1080/true/true when absent |
| Preferences.PutSelectedIp | app/src/main/java/com/pira/gnetp/utils/PreferenceManager.kt:61-65 | saving the IP adds only the IP key and leaves every other entry unchanged |
| Preferences.ReadSelectedIp | app/src/main/java/com/pira/gnetp/utils/PreferenceManager.kt:67-69 | a store holding the IP key reads as its stored string; one without it reads as "" |
| Preferences.RemoveSelectedIp | app/src/main/java/com/pira/gnetp/utils/PreferenceManager.kt:71-75 | clearing removes only the IP key |
| Preferences.SaveLoadRoundTrip | app/src/main/java/com/pira/gnetp/utils/PreferenceManager.kt:34-59 | save then load returns the saved ports and enable flags, with both active flags false |
| Preferences.SavedActiveFlagsUnobservable | app/src/main/java/com/pira/gnetp/utils/PreferenceManager.kt:40-57 | two saves that differ only in the active flags load identically |
| Preferences.LoadFromEmptyIsDefault | app/src/main/java/com/pira/gnetp/utils/PreferenceManager.kt:45-59 | an empty store loads as the default config |
| Preferences.SelectedIpRoundTrip | app/src/main/java/com/pira/gnetp/utils/PreferenceManager.kt:61-69 | saving an IP then reading it returns exactly that string |
| Preferences.ClearedIpReadsEmpty | app/src/main/java/com/pira/gnetp/utils/PreferenceManager.kt:67-75 | after clearing, the IP reads as "" |
| Preferences.SaveSettingsKeepsSelectedIp | app/src/main/java/com/pira/gnetp/utils/PreferenceManager.kt:34-43 | saving proxy settings leaves the IP entry's presence and value unchanged |
| Preferences.SelectedIpWritesKeepSettings | app/src/main/java/com/pira/gnetp/utils/PreferenceManager.kt:61-75 | saving or clearing the IP leaves the six proxy entries and the loaded config unchanged |
| Preferences.PreferenceManager.constructor | app/src/main/java/com/pira/gnetp/utils/PreferenceManager.kt:8-9 | the store opens over the persisted map |
| Preferences.PreferenceManager.SaveProxySettings | app/src/main/java/com/pira/gnetp/utils/PreferenceManager.kt:34-43 | the new map is `PutProxySettings` of the old one, still well-typed |
| Preferences.PreferenceManager.LoadProxySettings | app/src/main/java/com/pira/gnetp/utils/PreferenceManager.kt:45-59 | returns `ReadProxySettings` of the current map, with no protocol active |
| Preferences.PreferenceManager.SaveSelectedIpAddress | app/src/main/java/com/pira/gnetp/utils/PreferenceManager.kt:61-65 | the new map is `PutSelectedIp` of the old one |
| Preferences.PreferenceManager.GetSelectedIpAddress | app/src/main/java/com/pira/gnetp/utils/PreferenceManager.kt:67-69 | returns `ReadSelectedIp` of the current map |
| Preferences.PreferenceManager.ClearSelectedIpAddress | app/src/main/java/com/pira/gnetp/utils/PreferenceManager.kt:71-75 | the new map is `RemoveSelectedIp` of the old one |
| HomeUi.DefaultUiState | app/src/main/java/com/pira/gnetp/ui/home/HomeViewModel.kt:310-321 | the initial snapshot has no VPN, no hotspot, no permission request, nothing active, ports 8080/1080, no error, no addresses, and an empty (hence valid) selection |
| HomeUi.SelectIp | app/src/main/java/com/pira/gnetp/ui/home/HomeViewModel.kt:259-267 | the new selection is "" or an offered address: the current one if it is non-empty and still offered, else the first, else "" |
| HomeUi.SelectIpIdempotent | app/src/main/java/com/pira/gnetp/ui/home/HomeViewModel.kt:259-267 | applying the selection rule twice with the same list equals applying it once |
| HomeUi.FirstOrEmpty | app/src/main/java/com/pira/gnetp/ui/home/HomeViewModel.kt:292 | the start-up selection is the first offered address, or "" |
| HomeUi.FirstOrEmptyIsSelectionFromNothing | app/src/main/java/com/pira/gnetp/ui/home/HomeViewModel.kt:288-296 | the start-up rule is the monitor's rule applied to an empty selection |
| HomeUi.WithStatus | app/src/main/java/com/pira/gnetp/ui/home/HomeViewModel.kt:269-275 | a merge replaces VPN, hotspot and address list, re-selects by `SelectIp`, leaves every lifecycle field unchanged, and yields a valid selection |
| HomeUi.WithStatusIdempotent | app/src/main/java/com/pira/gnetp/ui/home/HomeViewModel.kt:259-275 | merging the same sample twice equals merging it once |
| HomeUi.StatusCommutesWithLifecycle | app/src/main/java/com/pira/gnetp/ui/home/HomeViewModel.kt:269-275 | a status merge and a write of the lifecycle fields commute |
| HomeUi.SelectionDoesNotCommuteWithStatus | app/src/main/java/com/pira/gnetp/ui/home/HomeViewModel.kt:159-173 | for every snapshot, non-empty address and sample that does not offer it, an IP selection and a status merge do not commute: the selection is kept only when the merge comes first |
| HomeUi.Tick | app/src/main/java/com/pira/gnetp/ui/home/HomeViewModel.kt:249-280 | a failed iteration leaves the snapshot unchanged; a successful one is `WithStatus` |
| HomeUi.StatusAfterKeepsLifecycle | app/src/main/java/com/pira/gnetp/ui/home/HomeViewModel.kt:248-284 | any number of monitor iterations leaves the lifecycle fields unchanged |
| HomeUi.StatusAfterKeepsSelectionValid | app/src/main/java/com/pira/gnetp/ui/home/HomeViewModel.kt:248-284 | a valid selection stays valid across any run of the monitor |
| HomeUi.StatusAfterSuccessSelectsValid | app/src/main/java/com/pira/gnetp/ui/home/HomeViewModel.kt:248-284 | once any iteration has succeeded, the selection is valid afterwards |
| Home.Activated | app/src/main/java/com/pira/gnetp/ui/home/HomeViewModel.kt:179-184 | a protocol becomes active iff it is enabled and requested; this keeps the active-only-if-enabled invariant, also read per `ProxyType`; only the active flags change |
| Home.ResumeCommands | app/src/main/java/com/pira/gnetp/ui/home/HomeViewModel.kt:233-237 | the resume check sends one `Start` iff some protocol is active, and nothing otherwise |
| Home.ResumeNeverFiresAfterLoad | app/src/main/java/com/pira/gnetp/ui/home/HomeViewModel.kt:216-237 | on any loaded config the resume check sends nothing |
| Home.ProxyService.StartService | app/src/main/java/com/pira/gnetp/ui/home/HomeViewModel.kt:190-191 | a start appends one `Start` to the command log |
| Home.ProxyService.StopService | app/src/main/java/com/pira/gnetp/ui/home/HomeViewModel.kt:108-109 | a stop appends one `Stop` to the command log |
| Home.ProxyService.Issue | app/src/main/java/com/pira/gnetp/ui/home/HomeViewModel.kt:234-236 | the given commands are appended in order |
| Home.HomeViewModel.constructor | app/src/main/java/com/pira/gnetp/ui/home/HomeViewModel.kt:23-47 | after the load at line 40 the config is the loaded one and the snapshot is the default one with the loaded ports and the saved IP, or else both cells keep their initial values; no command is sent (the monitor and the IP refresh that `init` launches next are separate methods) |
| Home.HomeViewModel.LoadSavedProxySettings | app/src/main/java/com/pira/gnetp/ui/home/HomeViewModel.kt:212-241 | on success the config is the loaded one, the snapshot shows its ports, both flags false and the saved IP; on failure nothing changes; no command is ever sent |
| Home.HomeViewModel.StartProxyService | app/src/main/java/com/pira/gnetp/ui/home/HomeViewModel.kt:175-207 | the config gets `Activated` flags and is persisted unless the store write fails; on success one `Start` is logged and the snapshot shows the config's flags with no error; on failure both snapshot flags are false and an error is set |
| Home.HomeViewModel.StartHttpProxy | app/src/main/java/com/pira/gnetp/ui/home/HomeViewModel.kt:49-63 | a start requesting HTTP only; SOCKS5 ends up inactive in config and snapshot |
| Home.HomeViewModel.StartSocks5Proxy | app/src/main/java/com/pira/gnetp/ui/home/HomeViewModel.kt:65-79 | a start requesting SOCKS5 only; HTTP ends up inactive in config and snapshot |
| Home.HomeViewModel.StartBothProxies | app/src/main/java/com/pira/gnetp/ui/home/HomeViewModel.kt:81-96 | a start requesting both; on success each snapshot flag equals the protocol's enabled flag |
| Home.HomeViewModel.StopHttpProxy | app/src/main/java/com/pira/gnetp/ui/home/HomeViewModel.kt:98-113 | HTTP becomes inactive in config and snapshot, SOCKS5 is untouched, the config is persisted, one `Stop` is logged |
| Home.HomeViewModel.StopSocks5Proxy | app/src/main/java/com/pira/gnetp/ui/home/HomeViewModel.kt:115-130 | SOCKS5 becomes inactive in config and snapshot, HTTP is untouched, the config is persisted, one `Stop` is logged |
| Home.HomeViewModel.StopBothProxies | app/src/main/java/com/pira/gnetp/ui/home/HomeViewModel.kt:132-141 | both become inactive in config and snapshot, one `Stop` is logged, and the store is left as it was |
| Home.HomeViewModel.UpdateHttpPort | app/src/main/java/com/pira/gnetp/ui/home/HomeViewModel.kt:143-149 | only the HTTP port changes, in config and snapshot; no store write, no command |
| Home.HomeViewModel.UpdateSocks5Port | app/src/main/java/com/pira/gnetp/ui/home/HomeViewModel.kt:151-157 | only the SOCKS5 port changes, in config and snapshot; no store write, no command |
| Home.HomeViewModel.SelectIpAddress | app/src/main/java/com/pira/gnetp/ui/home/HomeViewModel.kt:159-173 | the snapshot shows the given IP; unless the save fails, the store then reads back exactly that IP |
| Home.HomeViewModel.CheckStatusOnce | app/src/main/java/com/pira/gnetp/ui/home/HomeViewModel.kt:249-280 | one monitor iteration is `Tick` of the snapshot; the config and the lifecycle fields are untouched |
| Home.HomeViewModel.MonitorStatus | app/src/main/java/com/pira/gnetp/ui/home/HomeViewModel.kt:246-286 | a run over a sequence of samples is `StatusAfter` of the snapshot, and the config is untouched |
| Home.HomeViewModel.RefreshAvailableIps | app/src/main/java/com/pira/gnetp/ui/home/HomeViewModel.kt:288-302 | on success shows the offered addresses and selects the first (or ""); on failure nothing changes |
| Settings.FilterPortInput | app/src/main/java/com/pira/gnetp/ui/settings/ProxySettingsScreen.kt:163-168 | a new field value is taken iff it is all digits, else the old text stays; digit-only text stays digit-only |
| Settings.ConfigToSave | app/src/main/java/com/pira/gnetp/ui/settings/ProxySettingsScreen.kt:220-234 | a config is produced iff both texts parse to ports in 1024..65535; it carries those ports and the check box states, and no protocol is active |
| Settings.AcceptableDigitPort | app/src/main/java/com/pira/gnetp/ui/settings/ProxySettingsScreen.kt:220-224 | digit-only text is accepted iff it is non-empty and its decimal value is in range |
| Settings.EmptyPortRejected | app/src/main/java/com/pira/gnetp/ui/settings/ProxySettingsScreen.kt:220-224 | an empty text in either port field rejects the save, whatever the other field holds |
| Settings.UneditedFormSavesLoadedPorts | app/src/main/java/com/pira/gnetp/ui/settings/ProxySettingsScreen.kt:33-37 | if the loaded ports are in range, the untouched form saves exactly the loaded ports and enable flags |
| Settings.SavedFormLoadsBack | app/src/main/java/com/pira/gnetp/ui/settings/ProxySettingsScreen.kt:226-234 | what Save writes is exactly what the next load returns |
| Settings.ProxySettingsForm.constructor | app/src/main/java/com/pira/gnetp/ui/settings/ProxySettingsScreen.kt:33-40 | the fields start as the loaded config's ports (as text) and enable flags, with the dialog hidden |
| Settings.ProxySettingsForm.OnHttpPortChange | app/src/main/java/com/pira/gnetp/ui/settings/ProxySettingsScreen.kt:161-168 | the HTTP text becomes the filtered value; nothing else changes |
| Settings.ProxySettingsForm.OnSocks5PortChange | app/src/main/java/com/pira/gnetp/ui/settings/ProxySettingsScreen.kt:195-202 | the SOCKS5 text becomes the filtered value; nothing else changes |
| Settings.ProxySettingsForm.OnHttpEnabledChange | app/src/main/java/com/pira/gnetp/ui/settings/ProxySettingsScreen.kt:120-123 | the HTTP check box takes the new state; nothing else changes |
| Settings.ProxySettingsForm.OnSocks5EnabledChange | app/src/main/java/com/pira/gnetp/ui/settings/ProxySettingsScreen.kt:137-140 | the SOCKS5 check box takes the new state; nothing else changes |
| Settings.ProxySettingsForm.Save | app/src/main/java/com/pira/gnetp/ui/settings/ProxySettingsScreen.kt:217-242 | with valid ports the `ConfigToSave` config is written, loads back unchanged, and the restart dialog shows; with invalid ports the store is untouched; the form fields never change |

## Left out

- Rendering (the Compose screens, toasts, dialogs, theming) and navigation. These are presentation only.
- The proxy service itself (`ProxyServerService`, the start and stop Intents). It is reduced to a ghost log of `Start`/`Stop` commands.
- `NetworkUtils` (VPN, hotspot, address enumeration). It is OS-backed and is not part of this model; its answers are parameters.
- Coroutines (`viewModelScope.launch`, `delay(1000)`), the unbounded `while (true)` and its cancellation. Each operation is one atomic step, as it is on the main dispatcher. The monitor loop is run over a finite sequence of samples.
- Concurrent interleavings of writers: no claim about them beyond the commutation lemma and its counterexample for the selected address.
- `PreferenceManager.getInstance` (the double-checked-locking singleton). The store object is passed in explicitly.
- `Logger` calls, `onCleared`, the unused `is_auto_update_enabled` key, and the asynchrony of `SharedPreferences.apply()`. Each write is treated as immediate.
- The outer `try`/`catch` blocks of `startHttpProxy`, `startSocks5Proxy` and `startBothProxies`. `startProxyService` only launches a coroutine that catches its own exceptions, so those handlers cannot run.
- A mistyped store entry, which would make Android's getters throw `ClassCastException`. `WellTyped` excludes it, and only this store writes these keys.
- Exceptions from `stopService`, and from the store writes in `stopHttpProxy` and `stopSocks5Proxy` (HomeViewModel.kt:105-106 and 122-123). The source does not catch them, and the model treats both as never failing.
- The constructor of `HomeViewModel`: the `MutableStateFlow<ProxyConfig>` injected into it is held as a private cell. Other holders of the same flow are not modelled.
- `needsVpnPermission`: no operation writes it, and it is carried unchanged.
- Numbers.ToIntOrNull: only '0'..'9' count as digits. Kotlin's `isDigit` and `toIntOrNull` also accept the other Unicode decimal digits.
- Numbers.AllDigits: the same restriction to '0'..'9', so `FilterPortInput` rejects non-ASCII digits that the app would accept.
