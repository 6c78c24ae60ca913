# Background-location demo: preference store, tracking reconciler and log reporter

This project models the two stateful components of a React Native demo
app that drives a background-geolocation plugin.

- **geolocation.js.** The `ConfigStore` preference store holds:
  - a configured flag;
  - a key/value map merged last-write-wins;
  - a late-bound harvester, with a FIFO queue of callbacks that is drained when the harvester arrives;
  - an append-only list of plugin event subscriptions.

  Around the store sits the tracking reconciler (`toggleTracking`, `reconfigure`, `startTracking`, `stopTracking`, `configure`). It compares the tracking flag the caller wants with the `enabled` flag the plugin reports, then picks a command and decides when to advance the optional flow action.
- **logger.js.** `LogReporter` keeps an append-only log and two independent level filters, one for storage and one for console. It chooses a console sink per level, sending ERROR to a warn-routed sink while "bypass red screen" is on, and it emits a change notification on every report.

Layout:

- `wrappers.dfy` is `Option`.
- `iteration.dfy` (module `Iteration`) is the early exit of `Immutable.List#forEach`. Iteration stops at the first call whose side effect returns `false` or throws. `reply(i)` says how the i-th call into opaque code ends, so a callback or handle that appears twice may end differently each time.
- `preferences.dfy` (module `Preferences`) is the class `ConfigStore<V>`. `V` is the type of the preference values, which the store never interprets.
- `tracking.dfy` (module `Tracking`) holds the reconciler's decisions as pure functions. Each function returns a `Reaction`: the effects it has at once (plugin commands, `gotoNextStep()`, `cb()`) and the callbacks it leaves with the plugin. `OnReply` is the body of each of those callbacks.
- `geolocation.dfy` (module `Geolocation`) is the class `PluginBridge`, the module-level state of geolocation.js: the `Preferences` store plus the plugin connection. It records every command and every call into opaque code in `trace`. It keeps the unanswered plugin callbacks in `awaiting`. `Deliver` is the plugin answering one of them, as a separate sequential step.
- `logging.dfy` (module `Logging`) is the class `LogReporter<X>`. `X` is the type of the extras. `JSON.stringify` is the function the reporter is constructed with, and it is never interpreted.

The plugin, the harvester, callbacks, subscription handles, flow actions and listeners are opaque ids. Calling them (`cb(h)`, `sub.remove()`, `gotoNextStep()`) is recorded in a trace, never executed.

Behaviour as the code has it that a reader might not expect:

- `report` never consults the storage filter, so every report is stored (`Logging.StorageFilterScenario`).
- `removeListeners` does not clear the list, so a second call removes the same handles again (`Geolocation.ListenersScenario`).
- Both drains use `forEach`, which stops at a callee that returns `false` or throws. In `setHarvester`, a callback returning `false` means the callbacks after it are never called: the queue is still emptied. A callback that throws leaves the harvester set and the whole queue in place, so the next `setHarvester` calls those callbacks again (`Preferences.EarlyExitScenario`). In `removeListeners`, a stopping `remove()` leaves the later handles unremoved (`Geolocation.RemoveStopsScenario`).
- In `toggleTracking`, the (wanted false, reported false) case issues nothing and does not advance the flow.
- `noSend` is ignored.
- Every level filter keeps NORSERROR console-enabled, and `getConsoleForLevel` returns `undefined` for it. So `report` at NORSERROR calls `undefined` and throws a TypeError before it stores or emits anything (`Logging.NorsErrorScenario`). None of the wrappers reaches this case.

## Model

| member | source | states |
|---|---|---|
| Preferences.ConfigStore.constructor | geolocation.js:13-19 | a fresh store is not configured, has no harvester, and has an empty preference map, callback queue and subscription list |
| Preferences.Merge | geolocation.js:21-23 | merging gives the union of the keys; every key of the update takes its new value and every other key keeps its old value |
| Preferences.ConfigStore.Update | geolocation.js:21-23 | the preference map becomes the merge of the old map with the update, and nothing else changes |
| Preferences.DatumScenario | geolocation.js:56-62 | after `update({datum_id:"A"})` and then `update({datum_type:"B"})`, `getDatumId` gives "A" and `getDatumType` gives "B" |
| Preferences.ConfigStore.SetConfigured | geolocation.js:37-39 | `isConfigured` returns the last flag set |
| Preferences.ConfigStore.SetEventSubscriptions | geolocation.js:29-31 | the handles are appended in argument order and earlier entries are unchanged |
| Preferences.ConfigStore.SetHarvester | geolocation.js:41-45 | stores the harvester, then calls the queued callbacks with it in enqueue order, up to and including the first one that returns false or throws. Unless one threw, it empties the queue, restoring the invariant that nothing waits once a harvester is set. A throw leaves the queue as it was |
| Iteration.FirstStopFromSpec | geolocation.js:43 | searching from position i, the stop found lies between i and the end, every call between i and it ended normally, and the call at it did not |
| Iteration.FirstStopSpec | geolocation.js:43 | `forEach` stops at the first call that does not end normally: every call before it ended normally |
| Iteration.NothingStops | geolocation.js:43 | when every call ends normally, `forEach` reaches every element and does not throw |
| Preferences.DeliveriesInOrder | geolocation.js:43 | the calls made to the reached callbacks are one per callback, the i-th call going to the i-th callback with the new harvester |
| Preferences.ConfigStore.OnHarvesterReady | geolocation.js:47-54 | with a harvester set, calls the callback once with it and leaves the queue unchanged; otherwise appends the callback to the queue and calls nothing |
| Preferences.DrainOnceScenario | geolocation.js:41-54 | when every callback returns normally: callbacks queued before the first harvester are called once with it; a second harvester calls none of them again; a later callback is called at once with the current harvester |
| Preferences.EarlyExitScenario | geolocation.js:41-45 | when the first call returns false, the second callback is never called and the queue is empty afterwards; when the first call throws, the queue is still `[a, b]`, and the next harvester calls both again and empties it |
| Preferences.RepeatedCallbackScenario | geolocation.js:41-54 | a callback queued twice whose second call returns false is called twice, the callback after it never, and the queue ends empty |
| Preferences.ConfigStore.IsConfigured | geolocation.js:25-27 | returns the stored configured flag |
| Preferences.ConfigStore.GetEventSubscriptions | geolocation.js:33-35 | returns the stored handles, in the order they were added |
| Preferences.Lookup | geolocation.js:57 | a key gives its stored value, or undefined when it was never set |
| Preferences.ConfigStore.GetDatumId | geolocation.js:56-58 | the value stored under `datum_id`, or undefined when none is |
| Preferences.ConfigStore.GetDatumType | geolocation.js:60-62 | the value stored under `datum_type`, or undefined when none is |
| Tracking.ConfigurePlugin | geolocation.js:129-136 | `configure` sends one configure command, leaves configure's callback with the plugin, and does not mark the store configured before the plugin answers |
| Tracking.OnReply | geolocation.js:130-135 | each callback leaves at most one further callback; a callback marks the store configured exactly when it is configure's, and configure's callback then calls `opt_cb` when given and nothing else |
| Geolocation.ConfigureScenario | geolocation.js:129-136 | the store is unconfigured after the command is sent, and configured after configure's callback, which then calls `opt_cb` |
| Tracking.StartTracking | geolocation.js:211-217 | sends exactly one start command, leaves start's callback with the plugin, and advances no flow until that callback |
| Tracking.SettleStart | geolocation.js:212-216 | start's callback advances the flow, if one is given, and sends nothing |
| Tracking.Reconfigure | geolocation.js:220-231 | sends exactly one setConfig command, leaves its callback with the plugin, and advances no flow before that callback |
| Tracking.SettleSetConfig | geolocation.js:221-230 | after setConfig, a reported disabled state sends start, and the flow advances in start's callback; an enabled state advances the flow directly |
| Tracking.StopTracking | geolocation.js:234-241 | sends exactly one stop command and advances the flow right after it, without waiting for stop's callback, which is left with the plugin |
| Tracking.ToggleTracking | geolocation.js:269-270 | `toggleTracking` first sends only getState and leaves the state callback holding the wanted flag and flow, so the decision is made on the freshly reported state |
| Tracking.Decide | geolocation.js:271-286 | (wanted, reported) = (true, false) sends exactly one setConfig; (true, true) sends nothing and advances the flow; (false, true) sends exactly one stop and advances the flow; (false, false) does nothing; exactly one command is sent iff wanted differs from reported |
| Tracking.SettleTurnOn | geolocation.js:274-276 | wanted on, reported off: setConfig is sent, then start if the plugin still reports off, and the flow advances exactly once |
| Tracking.SettleTurnOff | geolocation.js:283-285 | wanted off, reported on: exactly one stop is sent and the flow advances exactly once, with nothing added by stop's callback |
| Tracking.ToggleSettles | geolocation.js:211-288 | when the plugin answers every callback, a toggle sends setConfig (plus start if the plugin still reports disabled), stop, or nothing, as the table says, and advances the flow exactly once, except in the (false, false) case, where it never advances it |
| Geolocation.PluginBridge.constructor | geolocation.js:66 | a fresh connection has sent nothing and awaits nothing |
| Geolocation.PluginBridge.Perform | geolocation.js:129-136 | running a reconciler step appends its effects to the trace and its callbacks to the outstanding ones, and marks the store configured only when the step says so |
| Geolocation.PluginBridge.Deliver | geolocation.js:130-135 | the plugin answering one outstanding callback removes it and runs its body on the reported state |
| Geolocation.PluginBridge.AddListeners | geolocation.js:154-203 | subscribes to location, error, activitychange, providerchange, motionchange and geofence in that order, and appends exactly those six handles in the same order |
| Geolocation.RemovalsInOrder | geolocation.js:207 | the removals made to the reached handles are one per handle, in list order, and send no command |
| Geolocation.PluginBridge.RemoveListeners | geolocation.js:205-208 | calls `remove()` on the stored handles in list order, up to and including the first one that returns false or throws, reports whether one threw, and leaves the list unchanged |
| Geolocation.ListenersScenario | geolocation.js:154-208 | when every `remove()` returns normally: after adding listeners once and removing twice, the list still holds the six handles and each handle was removed twice |
| Geolocation.RemoveStopsScenario | geolocation.js:205-208 | a second `remove()` call that throws ends the removal there: only the first two handles are removed and the exception reaches the caller |
| Geolocation.StopScenario | geolocation.js:234-288 | switching off while the plugin reports tracking on gives getState, stop, then the flow step, and stop's callback adds nothing |
| Logging.LevelsFrom | logger.js:64-98 | setting DEBUG, INFO, WARN or ERROR enables exactly the levels at or above it plus NORSERROR; NORSERROR leaves the set unchanged |
| Logging.LogReporter.constructor | logger.js:35-42 | a fresh logger has every level enabled for storage and console, bypasses the red screen, and has an empty log; NORSERROR is enabled in both filters, the invariant every setter keeps |
| Logging.LogReporter.SetLevel | logger.js:64-80 | the storage filter follows LevelsFrom, the console filter is unchanged, and NORSERROR stays enabled |
| Logging.LogReporter.SetConsoleLevel | logger.js:82-98 | the console filter follows LevelsFrom, the storage filter is unchanged, and NORSERROR stays enabled |
| Logging.LogReporter.IsLevelEnabled | logger.js:123-125 | true exactly for the levels in the storage filter |
| Logging.LogReporter.IsConsoleLevelEnabled | logger.js:127-129 | true exactly for the levels in the console filter |
| Logging.LogReporter.GetConsoleForLevel | logger.js:131-147 | the sink ConsoleFor picks for the current console filter and bypass flag; on a reporter whose filters keep NORSERROR, exactly NORSERROR has no sink |
| Logging.LogReporter.GetLogs | logger.js:165-167 | every entry reported so far, oldest first |
| Logging.ConsoleFor | logger.js:131-147 | a console-disabled level gets the no-op sink; DEBUG, INFO and WARN get their own sink; ERROR gets the warn-routed sink iff bypass is on, and the error sink otherwise; an enabled NORSERROR gets no sink |
| Logging.LogReporter.BypassRSOD | logger.js:60-62 | sets the flag that reroutes ERROR |
| Logging.LogReporter.Report | logger.js:149-163 | the level defaults to INFO. Whatever the storage filter says, it appends exactly one entry (the message, plus a space and the stringified extras when extras are given) after the earlier ones, writes once to the chosen sink, emits exactly one change notification and returns true. At NORSERROR, and only there, there is no sink: it throws and changes nothing |
| Logging.LogReporter.Error | logger.js:100-102 | reports at ERROR, so it never throws: one entry, one notification, and a warn-routed or error sink |
| Logging.LogReporter.Warn | logger.js:104-106 | reports at WARN: one entry, one notification, and the warn sink when enabled |
| Logging.LogReporter.Info | logger.js:108-110 | reports at INFO: one entry, one notification, and the info sink when enabled |
| Logging.LogReporter.Debug | logger.js:112-114 | reports at DEBUG: one entry, one notification, and the debug sink when enabled |
| Logging.LogReporter.Log | logger.js:116-121 | reports at INFO, the same as Info |
| Logging.LogReporter.On | logger.js:52-54 | registers the listener at the end of the listener list and returns a handle to it |
| Logging.LogReporter.Start | logger.js:44-46 | only sets the enabled flag |
| Logging.LogReporter.Shutdown | logger.js:48-50 | only clears the enabled flag |
| Logging.StorageFilterScenario | logger.js:64-163 | with storage at WARN and console at ERROR, a debug and an error message are both stored; only the error is printed, through the warn-routed sink; two notifications are emitted |
| Logging.NorsErrorScenario | logger.js:131-163 | on a fresh logger, reporting at NORSERROR throws and the log stays empty |

## Left out

- The plugin's own behaviour (tracking, persistence, HTTP sync) is not modelled. Commands are only recorded, and the `enabled` flag it reports is a parameter of `Deliver`.
- The configuration payload of `getConfig` is not modelled: configure and setConfig carry no payload, since the core never interprets it.
- `getCurrentLocation`, `log_log`, `beginBackgroundTask`, `finish` (a 20 ms timer), `getLocationDBCount`, `clearLocationDB` and `getState` are not modelled: they are one-line pass-throughs to the plugin.
- The `Logger.debug`/`Logger.warn` calls made by geolocation.js are not modelled. This includes the bodies of the six event handlers, which only build a payload and log it.
- Iteration order of the preference keys is not modelled: Dafny maps are unordered, and nothing in the core reads that order.
- Re-entrant callbacks are not modelled: a harvester callback that calls back into the store while the queue is drained.
- Plugin callbacks that never fire (no timeout exists in the source) and interleavings of callbacks are not modelled beyond the plugin answering outstanding callbacks one at a time, in any order.
- `setHarvester(null)` is not modelled: the harvester is always a handle.
- Preferences.ConfigStore.OnHarvesterReady: does not report a callback that throws. The call is the method's last step, so the store's state is the same either way; only the exception reaching the caller is missing.
- Level arguments outside `LevelType` (arbitrary strings) are not modelled. Levels are the five constructors, and an absent level stands for every falsy `opt_level`.
- The `console == null` branch of `getConsoleForLevel` is not modelled: the console is always present.
- fbemitter is not modelled beyond a count of notifications: it does not call listeners on emit, and the subscription's `remove()` and the context argument of `on` are missing.
- `JSON.stringify` failing (for example on cyclic extras) is not modelled: the stringify function is total.
- The React UI in index.ios.js is not part of this model.
