/** The global object (`globalThis`, which is also `window` once the app has
    set it up): the slots the startup path reads and rewrites, the bridge and
    the registration slot it reaches through them, and what the host's own
    Metro require does when the startup path calls it. */
module Globals {
  import opened Js
  import opened NativeBridge
  import opened AppRegistry

  /** A function stored in the `__r` closure variable `_requireFunc`: either
      the `patchedRequire` wrapper around an assigned require, or a require
      itself. */
  datatype RequireFn = PatchedRequire(wrapped: MetroRequire) | Plain(f: MetroRequire)

  /** The `__r` property of the global object: absent, a plain data property,
      or the accessor whose getter and setter share `_requireFunc`. */
  datatype RProperty =
    | RAbsent
    | RData(value: Option<MetroRequire>)
    | RAccessor(requireFunc: Option<RequireFn>)

  /** The `__d` property: absent, a plain data property, or the accessor
      whose getter and setter keep the value on `this`, the global object. */
  datatype DProperty = DAbsent | DData(value: JsValue) | DAccessor

  /** `window.__c`: missing, or a function that yields a registry or a falsy
      value. */
  datatype ModulesFactory = NoFactory | Factory(result: Option<Registry>)

  /** What the host makes observable: alerts, `console.error` lines, the app
      being invoked, the real require being called, a relay being removed. */
  datatype Event =
    | Alert(message: string)
    | ConsoleError(detail: string)
    | AppInvoked(app: App)
    | Required(require: MetroRequire, index: int)
    | RelayRemoved

  /** The messages of the alerts in `events`, in order. */
  function Alerts(events: seq<Event>): seq<string>
  {
    if events == [] then []
    else Alerts(events[..|events| - 1])
         + match events[|events| - 1] case Alert(m) => [m] case _ => []
  }

  /** The apps invoked in `events`, in order. */
  function Invocations(events: seq<Event>): seq<App>
  {
    if events == [] then []
    else Invocations(events[..|events| - 1])
         + match events[|events| - 1] case AppInvoked(a) => [a] case _ => []
  }

  /** The alerts of two stretches of a log are those of each, in order. */
  lemma {:induction false} AlertsAppend(a: seq<Event>, b: seq<Event>)
    ensures Alerts(a + b) == Alerts(a) + Alerts(b)
  {
    if b != [] {
      assert (a + b)[..|a + b| - 1] == a + b[..|b| - 1];
      AlertsAppend(a, b[..|b| - 1]);
    } else {
      assert a + b == a;
    }
  }

  lemma {:induction false} InvocationsAppend(a: seq<Event>, b: seq<Event>)
    ensures Invocations(a + b) == Invocations(a) + Invocations(b)
  {
    if b != [] {
      assert (a + b)[..|a + b| - 1] == a + b[..|b| - 1];
      InvocationsAppend(a, b[..|b| - 1]);
    } else {
      assert a + b == a;
    }
  }

  /** A `startDiscord` call that has begun and is waiting at its first
      `await`: the real require it will run, the queue it will replay, and
      the app `initializeFastcord` started before suspending (`None` when the
      lookup failed). */
  datatype StartTask = StartTask(require: MetroRequire, callQueue: CallQueue, started: Option<App>)

  /** The error the root module throws when it fails. */
  const RootModuleError: string := "root module threw"

  /** The error a call through an undefined `__r` raises. */
  const NotAFunction: string := "TypeError: __r is not a function"

  class Host {
    /** `globalThis.window === globalThis`. */
    var windowIsGlobal: bool
    /** `window.Object !== undefined`. */
    var objectDefined: bool
    var r: RProperty
    var d: DProperty
    /** `globalThis.value`: where the `__d` accessor keeps what is assigned. */
    var value: JsValue
    /** `window.modules`; `None` while it is undefined. */
    var modules: Option<Registry>
    var moduleFactory: ModulesFactory
    /** `startDiscord` calls waiting for their first `await` to resume. */
    var pending: seq<StartTask>
    /** `window.__fbBatchedBridge`. */
    const bridge: Bridge
    /** The `globalApp` slot of the app registry. */
    const slot: AppSlot
    var trace: seq<Event>

    constructor(bridge: Bridge, slot: AppSlot, r: RProperty, modules: Option<Registry>,
                moduleFactory: ModulesFactory, objectDefined: bool)
      ensures this.bridge == bridge && this.slot == slot && this.r == r
      ensures this.modules == modules && this.moduleFactory == moduleFactory
      ensures this.objectDefined == objectDefined
      ensures !windowIsGlobal && d == DAbsent && value == Undefined
      ensures pending == [] && trace == []
    {
      this.bridge := bridge;
      this.slot := slot;
      this.r := r;
      this.modules := modules;
      this.moduleFactory := moduleFactory;
      this.objectDefined := objectDefined;
      windowIsGlobal := false;
      d := DAbsent;
      value := Undefined;
      pending := [];
      trace := [];
    }
  }

  /** What a call `f(index)` to the host's own Metro require completes with:
      the module's exports, or the root module's error. */
  function MetroRequireResult(f: MetroRequire, index: int): Completion
  {
    if index == 0 && f.rootThrows then Threw(RootModuleError) else Returned(ModuleExports(f.id, index))
  }

  /** Calling the host's own Metro require `f(index)`. Running the root
      module registers its callable modules on the bridge. */
  method InvokeMetroRequire(host: Host, f: MetroRequire, index: int) returns (c: Completion)
    modifies host`trace, host.bridge`callable
    ensures host.trace == old(host.trace) + [Required(f, index)]
    ensures host.bridge.callable == old(host.bridge.callable) + (if index == 0 then f.rootCallables else {})
    ensures c == MetroRequireResult(f, index)
  {
    host.trace := host.trace + [Required(f, index)];
    if index == 0 {
      host.bridge.RegisterCallableModules(f.rootCallables);
    }
    c := MetroRequireResult(f, index);
  }
}
