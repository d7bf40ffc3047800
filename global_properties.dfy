/** packages/fastcord-app/src/modules/globalProperties.ts: the accessors the
    app puts on the global object in place of Metro's `__r` (require) and
    `__d` (define), and the lazy filling of `window.modules`. */
module GlobalProperties {
  import opened Js
  import opened Globals
  import opened Initializer
  import opened MetroIntegration

  /** What reading `globalThis.__r` yields; `None` is `undefined`. */
  function RequireValue(r: RProperty): Option<RequireFn>
  {
    match r
    case RAbsent => None
    case RData(v) => if v.Some? then Some(Plain(v.value)) else None
    case RAccessor(f) => f
  }

  /** The require function a call through `__r` ends up in. */
  function RequireTarget(f: RequireFn): MetroRequire
  {
    match f
    case PatchedRequire(v) => v
    case Plain(v) => v
  }

  /** Whether `__r(index)` fires the startup trigger: the index is 0 and
      `__r` currently holds a `patchedRequire` wrapper. */
  predicate Triggers(r: RProperty, index: int)
  {
    index == 0 && RequireValue(r).Some? && RequireValue(r).value.PatchedRequire?
  }

  /** Assigning `__r` through the accessor arms the trigger for index 0
      only; once it has fired, or before anything is assigned, no call
      triggers. */
  lemma TriggerArmedOncePerAssignment(v: MetroRequire, index: int)
    ensures Triggers(RAccessor(Some(PatchedRequire(v))), index) <==> index == 0
    ensures !Triggers(RAccessor(Some(Plain(v))), index)
    ensures !Triggers(RAccessor(None), index)
  {
  }

  method SetupGlobalWindow(host: Host)
    modifies host`windowIsGlobal
    ensures host.windowIsGlobal
  {
    host.windowIsGlobal := true;
  }

  /** The registry `ensureModulesInitialized` leaves behind: `__c()` fills it
      only when `Object` is defined, the registry is missing, and `__c` exists
      and yields something truthy. */
  function EnsuredModules(objectDefined: bool, modules: Option<Registry>, factory: ModulesFactory)
    : (m: Option<Registry>)
    ensures modules.Some? ==> m == modules
    ensures m != modules ==> objectDefined && factory.Factory? && m == factory.result
    ensures objectDefined && modules.None? && factory.Factory? && factory.result.Some? ==>
      m == factory.result
  {
    if objectDefined && modules.None? then
      match factory
      case NoFactory => modules
      case Factory(result) => if result.Some? then result else modules
    else modules
  }

  method EnsureModulesInitialized(host: Host)
    modifies host`modules
    ensures host.modules == EnsuredModules(host.objectDefined, old(host.modules), host.moduleFactory)
  {
    if host.objectDefined && host.modules.None? {
      if host.moduleFactory.Factory? {
        var modules := host.moduleFactory.result;
        if modules.Some? {
          host.modules := modules;
        }
      }
    }
  }

  /** `defineGlobalProperties()`: `__r` and `__d` become accessors; the
      `_requireFunc` they share starts out undefined. */
  method DefineGlobalProperties(host: Host)
    modifies host`r, host`d
    ensures host.r == RAccessor(None) && host.d == DAccessor
    ensures RequireValue(host.r) == None
  {
    host.r := RAccessor(None);
    host.d := DAccessor;
  }

  /** `globalThis.__r = v`. Through the accessor this wraps `v` afresh, which
      arms the trigger again; otherwise it stores `v`. */
  method SetRequire(host: Host, v: MetroRequire)
    modifies host`r
    ensures old(host.r).RAccessor? ==> host.r == RAccessor(Some(PatchedRequire(v)))
    ensures !old(host.r).RAccessor? ==> host.r == RData(Some(v))
    ensures RequireTarget(RequireValue(host.r).value) == v
  {
    if host.r.RAccessor? {
      host.r := RAccessor(Some(PatchedRequire(v)));
    } else {
      host.r := RData(Some(v));
    }
  }

  /** `globalThis.__r(index)`. Through an armed `patchedRequire`, index 0
      normalises the registry, runs `onceIndexRequired(v)` (which already
      reads the slot and calls the app, or logs and alerts the failed
      lookup), rebinds `__r` to `v` itself and returns `undefined` without
      calling `v(0)`; every other call goes straight to the require function
      `__r` leads to. */
  method CallRequire(host: Host, index: int) returns (c: Completion)
    modifies host`r, host`modules, host`pending, host`trace, host.bridge`relays, host.bridge`callable
    ensures RequireValue(old(host.r)).None? ==>
      && c == Threw(NotAFunction)
      && host.r == old(host.r) && host.modules == old(host.modules)
      && host.pending == old(host.pending) && host.trace == old(host.trace)
      && host.bridge.relays == old(host.bridge.relays)
      && host.bridge.callable == old(host.bridge.callable)
    ensures Triggers(old(host.r), index) ==>
      var v := RequireValue(old(host.r)).value.wrapped;
      && c == Returned(Undefined)
      && host.r == RAccessor(Some(Plain(v)))
      && host.modules == NormalizedModules(old(host.modules))
      && host.trace == old(host.trace) + InitStartEffects(host.slot.globalApp)
      && host.bridge.callable == old(host.bridge.callable)
      && |host.pending| == |old(host.pending)| + 1
      && host.pending[..|old(host.pending)|] == old(host.pending)
      && host.pending[|old(host.pending)|].require == v
      && host.pending[|old(host.pending)|].started == host.slot.globalApp
      && fresh(host.pending[|old(host.pending)|].callQueue)
      && host.pending[|old(host.pending)|].callQueue.items == []
      && host.bridge.relays == old(host.bridge.relays) + [host.pending[|old(host.pending)|].callQueue]
    ensures RequireValue(old(host.r)).Some? && !Triggers(old(host.r), index) ==>
      var f := RequireTarget(RequireValue(old(host.r)).value);
      && c == MetroRequireResult(f, index)
      && host.r == old(host.r) && host.modules == old(host.modules)
      && host.pending == old(host.pending)
      && host.bridge.relays == old(host.bridge.relays)
      && host.trace == old(host.trace) + [Required(f, index)]
      && host.bridge.callable == old(host.bridge.callable) + (if index == 0 then f.rootCallables else {})
  {
    var fn := RequireValue(host.r);
    if fn.None? {
      return Threw(NotAFunction);
    }
    match fn.value {
      case PatchedRequire(v) =>
        if index == 0 {
          HandleModulesFormat(host);
          OnceIndexRequired(host, v);
          host.r := RAccessor(Some(Plain(v)));
          return Returned(Undefined);
        }
        c := InvokeMetroRequire(host, v, index);
      case Plain(f) =>
        c := InvokeMetroRequire(host, f, index);
    }
  }

  /** `globalThis.__d = v`. Through the accessor the value lands on the
      global object's `value` property. */
  method SetDefine(host: Host, v: JsValue)
    modifies host`d, host`value
    ensures old(host.d) == DAccessor ==> host.d == DAccessor && host.value == v
    ensures old(host.d) != DAccessor ==> host.d == DData(v) && host.value == old(host.value)
  {
    if host.d == DAccessor {
      host.value := v;
    } else {
      host.d := DData(v);
    }
  }

  /** Reading `globalThis.__d`. Through the accessor this first runs
      `ensureModulesInitialized`, then yields what was last assigned. */
  method GetDefine(host: Host) returns (v: JsValue)
    modifies host`modules
    ensures host.d == DAccessor ==>
      v == host.value
      && host.modules == EnsuredModules(host.objectDefined, old(host.modules), host.moduleFactory)
    ensures host.d != DAccessor ==> host.modules == old(host.modules)
    ensures host.d.DData? ==> v == host.d.value
    ensures host.d.DAbsent? ==> v == Undefined
  {
    match host.d {
      case DAccessor =>
        EnsureModulesInitialized(host);
        v := host.value;
      case DData(x) =>
        v := x;
      case DAbsent =>
        v := Undefined;
    }
  }
}
