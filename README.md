# Fastcord startup path and loader identity, in Dafny

This project models how the Fastcord app bundle gets its own code to run
before Discord's root module starts, without losing any React Native bridge
call made in the meantime, and the table of loader capabilities the mod
reads from the native loader it runs under.

- **Loader trap** (`globalProperties.ts`, `app.ts`). The bundle sets
  `window` to the global object. If Metro's `__r` is already defined it
  initialises at once. Otherwise it turns `__r` and `__d` into accessors.
  Assigning `__r` wraps the require function in `patchedRequire`. The first
  `__r(0)` through the wrapper:
  - converts a `Map` module registry into a record;
  - starts the startup sequence;
  - rebinds `__r` to the real require;
  - returns `undefined` without running the root module.

  Every other index passes straight through. `__d` is a cell whose read
  first fills `window.modules` from `__c()`.
- **Bridge relay** (`metroIntegration.ts`). While Fastcord initialises, a
  relay in front of `callFunctionReturnFlushedQueue` queues every call to
  `AppRegistry` or to a module that is not callable yet, and forwards the
  rest. Once initialisation is over, `startDiscord`:
  1. removes the relay;
  2. runs the real root module;
  3. replays the queue in order, skipping calls whose module is still not
     callable.

  A rejection is logged and raises one alert.
- **Registration slot and initialiser** (`appRegistry.ts`, `initializer.ts`).
  A single slot holds the registered app. `initializeFastcord` runs that app
  and turns every failure into one logged error and one alert. It never
  rejects.
- **Loader identity** (`src/lib/api/native/loader.ts`). The queries are pure
  functions over the two identity records captured at load time: Fastcord's
  `__FASTCORD_LOADER__` and Vendetta's `__vendetta_loader`. Fastcord wins
  over Vendetta, and each query has a default when neither is present. The
  polyfill, the identity getters and the devtools getter change the global
  object. They are methods of `LoaderState`, whose `globals` map stands for
  the global object.

Files and modules:

| file | module | what it holds |
|---|---|---|
| `js.dfy` | `Js` | Values crossing the startup path: JavaScript values, bridge calls, require functions, apps, module registries, `Object.fromEntries`. |
| `seqs.dfy` | `Seqs` | Order-preserving selection from a sequence. |
| `bridge.dfy` | `NativeBridge` | The batched bridge as a class, with its relays. |
| `app_registry.dfy` | `AppRegistry` | The registration slot. |
| `globals.dfy` | `Globals` | The global object as a class, its observable event log, and the host's own Metro require. |
| `initializer.dfy` | `Initializer` | `initializeFastcord`. |
| `metro_integration.dfy` | `MetroIntegration` | Registry normalisation, the relay, the replay, `startDiscord`, `onceIndexRequired`. |
| `global_properties.dfy` | `GlobalProperties` | `setupGlobalWindow`, `ensureModulesInitialized`, the `__r`/`__d` accessors. |
| `app_entry.dfy` | `AppEntry` | The top-level statements of `app.ts`. |
| `loader.dfy` | `Loader` | The loader identity queries and the polyfill. |
| `scenarios.dfy` | `Scenarios` | Whole startup runs assembled from the operations above. |

How effects are modelled:
- **Alerts, `console.error`, app invocations, root-module runs and relay
  removal** are appended, in order, to `Host.trace`.
- **Bridge calls** delivered to JavaScript modules are appended to
  `Bridge.delivered`.
- **Each `await`** is a step in a sequence. `onceIndexRequired` installs the
  relay, runs `initializeFastcord()` up to its first `await` (reading the
  slot and calling the app), and leaves a `StartTask` in `Host.pending`,
  which stands for the suspended `startDiscord`. `RunStartTask` later runs
  the rest of it, with its `.catch`. Bridge calls that arrive in between are calls to
  `Bridge.CallFunctionReturnFlushedQueue`.

Behaviours of the code that the model keeps:
- A second `registerApp` silently overwrites the slot (`appRegistry.ts:15`), and `getRegisteredApp` leaves the slot as it is.
- After the trigger, `__r` is the real require, so a second `__r(0)` runs the root module with no error (`globalProperties.ts:59`).
- A held-back call returns `batchedBridge.flushedQueue()` (`metroIntegration.ts:56`).
- The relay is either installed or removed; it has no other states.
- The slot is read inside `__r(0)`: `startDiscord` runs `initializeFastcord()` up to its first `await` before `onceIndexRequired` returns, so the app is called, or the failed lookup is logged and alerted, at the trigger (`metroIntegration.ts:97`, `initializer.ts:15-22`).

## Model

| member | source | states |
|---|---|---|
| Js.FromEntriesHasEntries | packages/fastcord-app/src/modules/metroIntegration.ts:23-26 | `Object.fromEntries` over a Map's entries gives a record with exactly the Map's keys, each with the Map's value. |
| Seqs.Without | packages/fastcord-app/src/modules/metroIntegration.ts:98 | Removing a relay leaves no copy of it and never adds one. |
| Seqs.WithoutAbsent | packages/fastcord-app/src/modules/metroIntegration.ts:98 | Unpatching a relay that is already gone changes nothing. |
| Seqs.WithoutKeepsOthers | packages/fastcord-app/src/modules/metroIntegration.ts:98 | Unpatching one relay leaves every other relay in place. |
| NativeBridge.CallQueue.constructor | packages/fastcord-app/src/modules/metroIntegration.ts:46 | A new call queue is empty. |
| NativeBridge.Bridge.constructor | packages/fastcord-app/@types/global.d.ts:3-8 | A bridge starts with no relay and nothing delivered. |
| NativeBridge.Bridge.FlushedQueue | packages/fastcord-app/@types/global.d.ts:5 | `flushedQueue()` hands over the pending batch and leaves none. |
| NativeBridge.Bridge.CallFunction | packages/fastcord-app/@types/global.d.ts:6 | `__callFunction` delivers exactly the given call, after those already delivered. |
| NativeBridge.Bridge.OriginalCallFunctionReturnFlushedQueue | packages/fastcord-app/@types/global.d.ts:7 | The bridge's own entry point delivers the call, then returns the flushed batch. |
| NativeBridge.Bridge.CallFunctionReturnFlushedQueue | packages/fastcord-app/src/modules/metroIntegration.ts:50-60 | With a relay installed, a call to `AppRegistry` or to an uncallable module goes to the tail of the newest queue, is not delivered, and the caller gets `flushedQueue()`. Any other call is delivered and leaves every queue unchanged. Without a relay, every call is delivered. |
| NativeBridge.Bridge.InstallRelay | packages/fastcord-app/src/modules/metroIntegration.ts:47-61 | Patching adds the new relay on top of the existing ones. |
| NativeBridge.Bridge.RemoveRelay | packages/fastcord-app/src/modules/metroIntegration.ts:98 | Unpatching removes exactly that relay. |
| NativeBridge.Bridge.RegisterCallableModules | packages/fastcord-app/src/modules/metroIntegration.ts:99 | Running the root module makes its modules callable and keeps the others callable. |
| AppRegistry.AppSlot.constructor | packages/fastcord-app/src/modules/appRegistry.ts:8 | The slot starts out empty. |
| AppRegistry.AppSlot.RegisterApp | packages/fastcord-app/src/modules/appRegistry.ts:14-16 | After `registerApp(f)` the slot holds `f`, whatever it held before. |
| AppRegistry.AppSlot.GetRegisteredApp | packages/fastcord-app/src/modules/appRegistry.ts:23-28 | Succeeds exactly when an app is registered, and returns that app. Fails with "App not registered" otherwise. Changes nothing. |
| Globals.Host.constructor | packages/fastcord-app/@types/global.d.ts:2-14 | The global object as the bundle finds it: `window` not set up, `__d` absent, nothing pending or logged. |
| Globals.AlertsAppend | packages/fastcord-app/src/modules/initializer.ts:20-22 | The alerts of two stretches of the log are those of the first, then those of the second. |
| Globals.InvocationsAppend | packages/fastcord-app/src/modules/initializer.ts:16 | The app invocations of two stretches of the log are those of the first, then those of the second. |
| Globals.InvokeMetroRequire | packages/fastcord-app/src/modules/metroIntegration.ts:99 | Calling the real require logs exactly one run with that index. For index 0 it registers the root module's callable modules. It returns the module's exports, or the root module's error. |
| Initializer.InitializeFastcord | packages/fastcord-app/src/modules/initializer.ts:13-24 | The log gains the app's invocation, and on failure one error and one alert. It never rejects. |
| Initializer.BeginInitialization | packages/fastcord-app/src/modules/initializer.ts:14-16 | Up to the first `await`: returns the slot's app after logging its invocation, or logs the "App not registered" error and raises the alert. |
| Initializer.FinishInitialization | packages/fastcord-app/src/modules/initializer.ts:16-23 | When the started app's promise settles: a rejection is logged and alerted once; otherwise nothing is added. |
| Initializer.InitAlertsExactlyOnFailure | packages/fastcord-app/src/modules/initializer.ts:14-23 | Exactly one "initializing Fastcord" alert when no app is registered or the app rejects. None when the app resolves. |
| Initializer.InitInvokesRegisteredAppOnce | packages/fastcord-app/src/modules/initializer.ts:15-16 | A registered app is invoked exactly once. With none registered, no app runs. |
| Initializer.InitLogsBeforeAlerting | packages/fastcord-app/src/modules/initializer.ts:19-22 | On failure the error is logged immediately before the alert, and the alert comes last. |
| MetroIntegration.NormalizeRegistry | packages/fastcord-app/src/modules/metroIntegration.ts:21-28 | A Map registry becomes a record with the same key/value pairs. A record is returned unchanged. |
| MetroIntegration.NormalizeIdempotent | packages/fastcord-app/src/modules/metroIntegration.ts:21-28 | Normalising a second time changes nothing. |
| MetroIntegration.HandleModulesFormat | packages/fastcord-app/src/modules/metroIntegration.ts:21-28 | `window.modules` becomes its normalised form. An undefined registry stays undefined. |
| MetroIntegration.HeldBackGrowsAtTail | packages/fastcord-app/src/modules/metroIntegration.ts:51-57 | Each arriving call adds at most one entry to the held-back calls, at the tail, and leaves earlier entries as they were; `RelayCalls` shows the relay's queue is exactly these calls. |
| MetroIntegration.ForwardedGrowsAtTail | packages/fastcord-app/src/modules/metroIntegration.ts:59 | Each arriving call is forwarded at most once, after those forwarded before it. |
| MetroIntegration.RelayPartitionsCalls | packages/fastcord-app/src/modules/metroIntegration.ts:50-60 | Every call passing the relay is either queued or forwarded (the two halves `RelayCalls` shows the queue and the bridge receive), never both and never neither, as often as it arrives. |
| MetroIntegration.ForwardedCallsAreCallable | packages/fastcord-app/src/modules/metroIntegration.ts:51-59 | Nothing the relay forwards (what `RelayCalls` shows the bridge delivers) targets `AppRegistry` or an uncallable module. Every `AppRegistry` call is queued. |
| MetroIntegration.RelayCalls | packages/fastcord-app/src/modules/metroIntegration.ts:50-60 | Calls passing the relay one after another leave the newest queue holding exactly the held-back calls, appended in arrival order, and the bridge delivering exactly the others, in arrival order. |
| MetroIntegration.ReplayDeliversExactlyCallable | packages/fastcord-app/src/modules/metroIntegration.ts:75-78 | A replay delivers each queued call as often as it was queued when its module is callable, and never otherwise. |
| MetroIntegration.ReplayKeepsQueueOrder | packages/fastcord-app/src/modules/metroIntegration.ts:75-78 | Calls queued earlier are delivered earlier. |
| MetroIntegration.InterceptBridgeCalls | packages/fastcord-app/src/modules/metroIntegration.ts:43-64 | Returns a fresh empty queue with its relay installed on top. |
| MetroIntegration.ProcessBridgeCalls | packages/fastcord-app/src/modules/metroIntegration.ts:71-79 | Delivers exactly the queued calls whose module is callable now, in queue order. The queue is left unchanged. |
| MetroIntegration.StartDiscord | packages/fastcord-app/src/modules/metroIntegration.ts:97-102 | From the resumed `await` on, in order: the started app settles (a rejection is logged and alerted), the relay is removed, `originalRequire(0)` runs exactly once, then the queue is replayed against the modules callable after the root module ran. If the root module throws, nothing is replayed and the error is returned. |
| MetroIntegration.OnceIndexRequired | packages/fastcord-app/src/modules/metroIntegration.ts:110-114 | The relay is installed before `startDiscord` begins. Before returning, the slot is read and the app called, or the failed lookup logged and alerted. One suspended `startDiscord` is added, over the new empty queue and remembering the app it started. |
| MetroIntegration.RunStartTask | packages/fastcord-app/src/modules/metroIntegration.ts:114-119 | The oldest suspended `startDiscord` runs to its end with the app it started at the trigger; the slot is not read again. A rejection adds one logged error and the "starting Discord" alert, and nothing is rethrown. |
| MetroIntegration.SplitRunIsWholeInit | packages/fastcord-app/src/modules/metroIntegration.ts:97-99 | The part run at the trigger and the part run on resuming make up one whole `initializeFastcord()`, followed by the relay's removal and `originalRequire(0)`. |
| MetroIntegration.TailAlerts | packages/fastcord-app/src/modules/metroIntegration.ts:98-119 | After initialisation, the only alert is the "starting Discord" one, and only when the root module throws. |
| MetroIntegration.StartFailureAlertsOnce | packages/fastcord-app/src/modules/metroIntegration.ts:114-119 | Over a whole run from the trigger, a rejecting `startDiscord` raises exactly one "starting Discord" alert, after whatever initialisation alerted. |
| MetroIntegration.QuietStartRaisesNoAlert | packages/fastcord-app/src/modules/metroIntegration.ts:97-119 | Over a whole run from the trigger in which the app resolves and the root module does not throw, no alert is raised. |
| GlobalProperties.TriggerArmedOncePerAssignment | packages/fastcord-app/src/modules/globalProperties.ts:47-61 | A fresh wrapper triggers for index 0 only. After it fires, or before any assignment, nothing triggers. |
| GlobalProperties.SetupGlobalWindow | packages/fastcord-app/src/modules/globalProperties.ts:12-16 | Afterwards `window` is the global object. |
| GlobalProperties.EnsuredModules | packages/fastcord-app/src/modules/globalProperties.ts:21-28 | Never overwrites an existing registry. Changes it only when `Object` is defined, the registry is missing and `__c()` yields a registry, and then to that registry. |
| GlobalProperties.EnsureModulesInitialized | packages/fastcord-app/src/modules/globalProperties.ts:21-28 | `window.modules` becomes the registry `EnsuredModules` describes. |
| GlobalProperties.DefineGlobalProperties | packages/fastcord-app/src/modules/globalProperties.ts:40-47 | `__r` and `__d` become accessors. Before any assignment, `__r` reads as undefined. |
| GlobalProperties.SetRequire | packages/fastcord-app/src/modules/globalProperties.ts:47-65 | Through the accessor, assigning `v` wraps it afresh and so re-arms the trigger. Either way a call through `__r` reaches `v`. |
| GlobalProperties.CallRequire | packages/fastcord-app/src/modules/globalProperties.ts:48-64 | An undefined `__r` throws. An armed index-0 call normalises the registry, starts the startup sequence once (reading the slot and calling the app, or logging and alerting the failed lookup, before returning), rebinds `__r` to `v`, returns undefined and does not run `v(0)`. Every other call returns `v(index)` and changes nothing else. |
| GlobalProperties.SetDefine | packages/fastcord-app/src/modules/globalProperties.ts:73-75 | Through the accessor the value is stored on the global object's `value`. |
| GlobalProperties.GetDefine | packages/fastcord-app/src/modules/globalProperties.ts:69-72 | Through the accessor a read first runs `ensureModulesInitialized`, then returns the last value written. |
| AppEntry.StartFastcordApp | packages/fastcord-app/src/app.ts:16-28 | `window` is set up before either branch. When `__r` is defined, initialisation runs directly and no trap is installed. Otherwise only the traps are installed and no initialisation runs. |
| Loader.VendettaThemeValue | src/lib/api/native/loader.ts:56-63 | The theme is null exactly when there is no stored theme or its id is empty. With installed themes keyed by their ids, a theme it yields has the stored theme's id. |
| Loader.ThemeGetterPrefersInstalled | src/lib/api/native/loader.ts:58-62 | Installing a theme under the stored id makes the getter yield it; with nothing installed it falls back to the stored theme. |
| Loader.PolyfilledThemeGetter | src/lib/api/native/loader.ts:49-65 | The polyfilled getter depends only on Fastcord's stored theme and the installed themes, and is defined exactly when Fastcord reports theme support. |
| Loader.LoaderState.constructor | src/lib/api/native/loader.ts:4-6 | Captures both identities at load time, then runs `getVendettaLoaderIdentity` once, which polyfills. |
| Loader.LoaderState.PolyfillVendettaLoaderIdentity | src/lib/api/native/loader.ts:30-74 | Returns the polyfilled record (null unless Fastcord is present alone) and defines exactly the matching globals. |
| Loader.LoaderState.GetVendettaLoaderIdentity | src/lib/api/native/loader.ts:86-90 | An existing `__vendetta_loader` is returned and nothing is defined. Otherwise the polyfill runs. |
| Loader.LoaderState.GetLoaderIdentity | src/lib/api/native/loader.ts:76-84 | Fastcord's identity when present. Otherwise Vendetta's current record when Vendetta was captured, else null. The globals are unchanged. |
| Loader.LoaderState.GetReactDevToolsProp | src/lib/api/native/loader.ts:161-174 | Null when devtools are not preloaded. For Fastcord it copies the exports to `__pyoncord_rdt` and names that. For Vendetta it names the advertised property. |
| Loader.FastcordTakesPrecedence | src/lib/api/native/loader.ts:95-207 | With Fastcord present, no query depends on Vendetta. The name, version and config path are Fastcord's, and loader config is supported. |
| Loader.NoLoaderDefaults | src/lib/api/native/loader.ts:95-223 | With neither loader: name "Unknown", config path "loader.json", the theme path, version and stored theme null, and every support query false. |
| Loader.VendettaOnlyQueries | src/lib/api/native/loader.ts:95-217 | With only Vendetta, every query answers from Vendetta's record: name, paths, loader config, themes, devtools, the stored theme from the global `themes.prop` names, and syscolors as that feature's property name. |
| Loader.FontSupportedIff | src/lib/api/native/loader.ts:219-223 | Fonts are supported exactly for a Fastcord loader with `fontPatch` 2. |
| Loader.NoDevToolsNoVersion | src/lib/api/native/loader.ts:176-177 | Without preloaded devtools the devtools version is null. |
| Loader.PolyfillOnlyForFastcordAlone | src/lib/api/native/loader.ts:31-38 | A record is published exactly when Fastcord is present and Vendetta is not. It carries Fastcord's name and `loaderConfig` true. Otherwise nothing is defined. |
| Loader.PolyfillAdvertisesSupport | src/lib/api/native/loader.ts:39-71 | `syscolors` and `themes` are advertised, and their getters defined, exactly when supported. `__vendetta_loader` is always defined as the returned record. |
| Loader.PolyfillReadsBack | src/lib/api/native/loader.ts:68-90 | After the polyfill, `__vendetta_loader` reads back as the published record, so the next `getVendettaLoaderIdentity` does not polyfill again. |
| Loader.PolyfillAgreesWithQueries | src/lib/api/native/loader.ts:33-52 | Read as a Vendetta identity, the published record answers name, config, theme and syscolors support as the Fastcord identity does. |
| Scenarios.LastRegistrationWins | packages/fastcord-app/src/modules/appRegistry.ts:14-28 | Registering `f`, then `g`, then reading twice returns `g` both times. |
| Scenarios.EmptySlotFails | packages/fastcord-app/src/modules/appRegistry.ts:23-26 | Reading an empty slot fails with "App not registered". |
| Scenarios.HeldBackCallsReplayInOrder | packages/fastcord-app/src/modules/metroIntegration.ts:43-119 | The run: calls to a module that becomes callable (`a`) and one that never does (`b`) pass the relay as a, b, a during initialisation. All three are queued, the app runs at the trigger, the root module runs exactly once after it, `a` is delivered twice in order, `b` is dropped, and no alert is raised. |
| Scenarios.RegistrationAfterTriggerIsTooLate | packages/fastcord-app/src/modules/initializer.ts:15-22 | With the slot empty at the trigger, the failed lookup is logged and alerted inside `__r(0)`; an app registered afterwards never runs. |
| Scenarios.LateRunInvokesNothing | packages/fastcord-app/src/modules/initializer.ts:15-22 | The events of that run are the lookup error, its alert, the relay's removal and the root module, with no app invocation. |
| Scenarios.ReplaySkipsUncallable | packages/fastcord-app/src/modules/metroIntegration.ts:75-78 | Replaying a, b, a with only `a`'s module callable delivers a, a. |
| Scenarios.BootUntilTrigger | packages/fastcord-app/src/modules/globalProperties.ts:47-61 | Evaluating the bundle before Metro, assigning `__r` and calling `__r(0)` leaves one suspended `startDiscord` with its relay installed and the slot's app started (or the failed lookup logged and alerted), with nothing delivered yet. |
| Scenarios.RegistryNormalisedAtTrigger | packages/fastcord-app/src/modules/globalProperties.ts:50-63 | A Map registry is a record with the same entries once `__r(0)` returns. A second `__r(0)` reaches the real require and leaves the registry alone. |
| Scenarios.PassThroughBeforeAndAfterTrigger | packages/fastcord-app/src/modules/globalProperties.ts:46-63 | Before assignment, calling `__r` throws. After it, a non-zero index returns the real module's exports and starts nothing. |
| Scenarios.DefineCellRoundTrip | packages/fastcord-app/src/modules/globalProperties.ts:67-76 | Writing `__d` and reading it back returns the value written, with `window.modules` filled from `__c()`. |

## Left out

- `spitroast`'s `instead` is not part of this model. Only its use here is modelled: installing puts the relay in front of the entry point, unpatching removes it, and the relay's `orig` reaches the next relay down or the bridge's own method.
- The JavaScript event loop and promises are left out. Each `await` is a sequential step, and a suspended `startDiscord` is a `StartTask` value. The app is called at the trigger and its promise settles when `startDiscord` resumes; what the app's own body does in between, such as bridge calls of its own, is not represented.
- `alert` and `console.error` are host I/O. They appear only as entries in `Host.trace`. The stack trace `initializeFastcord` logs is left out.
- `__callFunction` throwing during a replay is not modelled. The model treats it as delivery.
- ProcessBridgeCalls: a delivered call is assumed not to make further modules callable. `getCallableModule` is asked again for every entry, but `CallFunction` changes only the delivered log, so the whole replay is checked against the modules callable when it starts.
- Bridge.CallFunctionReturnFlushedQueue: a forwarded call reaches the bridge as the same call. The relay forwards with `orig.apply(batchedBridge, [args])`, which passes the argument tuple as one array; the model assumes `orig` accepts it in that form, since `spitroast` is not part of this model.
- `flushedQueue()` is modelled as handing over the pending batch and clearing it. Its native contents are left out.
- Bridge.CallFunctionReturnFlushedQueue: with several relays stacked, only the newest one's queue is touched. Older relays would forward the call because they see the same test, so the chain is collapsed into one step rather than modelled as nested callbacks.
- The app's body, the root module's body and the rest of Metro are left out. Each is a value recording what the startup path depends on: whether the app rejects, and which modules the root module makes callable and whether it throws.
- App values are always truthy. `registerApp` with a falsy argument is not modelled.
- `__c()` returning a truthy non-registry value is not modelled. `ModulesFactory` yields a registry or a falsy value.
- The `instanceof Map` check inside `patchedRequire` (`globalProperties.ts:52-56`) duplicates `handleModulesFormat`, and the model uses `HandleModulesFormat` for both.
- The `.catch` on direct initialisation in `app.ts:22-24` cannot run, because `initializeFastcord` never rejects. It has no counterpart in the model.
- A `__vendetta_loader` or `__reactDevTools` global that is not a record of the expected shape reads as absent.
- `features.loaderConfig` being absent reads as `false`.
- An empty theme `id` is treated as falsy, as in the source. Other falsy values are not modelled.
- The `__vendetta_syscolors` and `__vendetta_theme` getters are stored as named getters and not evaluated. Their values are given by `Loader.GetSysColors` and `Loader.VendettaThemeValue`.
- `themes` from `@lib/addons/themes` is a parameter of `VendettaThemeValue`.
- For a Vendetta loader, `getSysColors` returns the advertised property name, and it is modelled as written.
- The builder, dev server, CLI, `adb` helper, UI components and plugin and theme storage files are outside the startup path and the loader table. They are not part of this model.
