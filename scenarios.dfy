/** Whole startup runs put together from the operations of the other
    modules: the app bundle is evaluated before Metro, Metro assigns and
    calls `__r`, the native side sends bridge calls while Fastcord
    initialises, and the waiting `startDiscord` then resumes. */
module Scenarios {
  import opened Js
  import opened Seqs
  import opened NativeBridge
  import opened AppRegistry
  import opened Globals
  import opened Initializer
  import opened MetroIntegration
  import opened GlobalProperties
  import opened AppEntry

  /** Registering twice keeps the second app, and reading the slot twice
      returns it both times. */
  method LastRegistrationWins(f: App, g: App) returns (first: Result<App, string>, second: Result<App, string>)
    ensures first == Success(g) && second == Success(g)
  {
    var slot := new AppSlot();
    slot.RegisterApp(f);
    slot.RegisterApp(g);
    first := slot.GetRegisteredApp();
    second := slot.GetRegisteredApp();
  }

  /** Reading an empty slot fails with "App not registered". */
  method EmptySlotFails() returns (r: Result<App, string>)
    ensures r == Failure(NotRegistered)
  {
    var slot := new AppSlot();
    r := slot.GetRegisteredApp();
  }

  /** Calls to a module the root module will make callable (`a`) and to one
      it never will (`b`) arrive, in the order a, b, a, between the trigger
      and the end of initialisation. All three are held back; the root
      module runs exactly once, after the app; then both calls to `a` are
      delivered in their order and the call to `b` is dropped, without any
      alert. */
  method HeldBackCallsReplayInOrder(app: App, root: MetroRequire, a: Call, b: Call)
    returns (trigger: Completion, queued: seq<Call>, delivered: seq<Call>, trace: seq<Event>)
    requires app.rejection.None? && !root.rootThrows
    requires a.moduleName in root.rootCallables && b.moduleName !in root.rootCallables
    ensures trigger == Returned(Undefined)
    ensures queued == [a, b, a]
    ensures delivered == [a, a]
    ensures trace == [AppInvoked(app), RelayRemoved, Required(root, 0)]
    ensures Alerts(trace) == []
  {
    var host, queue;
    host, queue, trigger := BootUntilTrigger(Some(app), root);
    FilterKeepsAll([a, b, a], c => HeldBack(c, {}));
    FilterDropsAll([a, b, a], c => !HeldBack(c, {}));
    RelayCalls(host.bridge, [a, b, a]);
    queued := queue.items;
    RunStartTask(host);
    assert host.bridge.callable == root.rootCallables;
    ReplaySkipsUncallable(a, b, root.rootCallables);
    delivered := host.bridge.delivered;
    trace := host.trace;
    QuietStartRaisesNoAlert(app, root);
  }

  /** The slot is read when `__r(0)` fires: an app registered after that is
      never run, and the failed lookup is logged and alerted at the trigger,
      before the root module runs. */
  method RegistrationAfterTriggerIsTooLate(app: App, root: MetroRequire)
    returns (atTrigger: seq<Event>, trace: seq<Event>)
    requires !root.rootThrows
    ensures atTrigger == [ConsoleError(NotRegistered), Alert(InitFailedAlert)]
    ensures trace == atTrigger + [RelayRemoved, Required(root, 0)]
    ensures Invocations(trace) == []
  {
    var host, queue, _ := BootUntilTrigger(None, root);
    atTrigger := host.trace;
    host.slot.RegisterApp(app);
    RunStartTask(host);
    trace := host.trace;
    LateRunInvokesNothing(root);
  }

  /** The events of the run above contain no app invocation. */
  lemma LateRunInvokesNothing(root: MetroRequire)
    requires !root.rootThrows
    ensures var trace := InitStartEffects(None) + StartEffects(None, root) + CatchEffects(MetroRequireResult(root, 0));
      trace == [ConsoleError(NotRegistered), Alert(InitFailedAlert), RelayRemoved, Required(root, 0)]
      && Invocations(trace) == []
  {
    var trace := InitStartEffects(None) + StartEffects(None, root) + CatchEffects(MetroRequireResult(root, 0));
    assert trace == InitEffects(None) + [RelayRemoved, Required(root, 0)];
    InitInvokesRegisteredAppOnce(None);
    InvocationsAppend(InitEffects(None), [RelayRemoved, Required(root, 0)]);
    assert [RelayRemoved, Required(root, 0)] == [RelayRemoved] + [Required(root, 0)];
    InvocationsAppend([RelayRemoved], [Required(root, 0)]);
  }

  /** Evaluating the bundle with `app` in the slot, then Metro assigning
      `root` to `__r` and calling `__r(0)`. */
  method BootUntilTrigger(app: Option<App>, root: MetroRequire) returns (host: Host, queue: CallQueue, trigger: Completion)
    ensures fresh(host) && fresh(host.bridge) && fresh(host.slot) && fresh(queue)
    ensures host.slot.globalApp == app
    ensures host.pending == [StartTask(root, queue, app)]
    ensures host.bridge.relays == [queue] && queue.items == []
    ensures host.bridge.callable == {} && host.bridge.delivered == []
    ensures host.trace == InitStartEffects(app)
    ensures trigger == Returned(Undefined)
  {
    var bridge := new Bridge({}, []);
    var slot := new AppSlot();
    if app.Some? {
      slot.RegisterApp(app.value);
    }
    host := new Host(bridge, slot, RAbsent, None, NoFactory, true);
    StartFastcordApp(host);
    SetRequire(host, root);
    trigger := CallRequire(host, 0);
    queue := host.pending[0].callQueue;
  }

  /** The replay half of the run above, on values. */
  lemma ReplaySkipsUncallable(a: Call, b: Call, callable: set<string>)
    requires a.moduleName in callable && b.moduleName !in callable
    ensures ReplayedCalls([a, b, a], callable) == [a, a]
  {
    assert [a, b, a] == [a, b] + [a] && [a, b] == [a] + [b];
    ReplayKeepsQueueOrder([a, b], [a], callable);
    ReplayKeepsQueueOrder([a], [b], callable);
  }

  /** A `Map` registry present when the trigger fires is a record with the
      same entries by the time `__r(0)` returns; a second `__r(0)` reaches
      the real require and leaves the registry as it is. */
  method RegistryNormalisedAtTrigger(entries: MapEntries, root: MetroRequire)
    returns (afterTrigger: Option<Registry>, afterSecond: Option<Registry>, second: Completion)
    ensures afterTrigger.Some? && afterTrigger.value.RecordRegistry?
    ensures SameEntries(entries, afterTrigger.value.fields)
    ensures afterSecond == afterTrigger
    ensures second == MetroRequireResult(root, 0)
  {
    var bridge := new Bridge({}, []);
    var slot := new AppSlot();
    var host := new Host(bridge, slot, RAbsent, Some(MapRegistry(entries)), NoFactory, true);
    StartFastcordApp(host);
    SetRequire(host, root);
    var _ := CallRequire(host, 0);
    afterTrigger := host.modules;
    second := CallRequire(host, 0);
    afterSecond := host.modules;
  }

  /** Until Metro assigns `__r`, calling it fails; a non-zero index after the
      assignment reaches the assigned require directly and starts nothing. */
  method PassThroughBeforeAndAfterTrigger(root: MetroRequire, index: int)
    returns (before: Completion, after: Completion, started: nat)
    requires index != 0
    ensures before == Threw(NotAFunction)
    ensures after == Returned(ModuleExports(root.id, index))
    ensures started == 0
  {
    var bridge := new Bridge({}, []);
    var slot := new AppSlot();
    var host := new Host(bridge, slot, RAbsent, None, NoFactory, true);
    StartFastcordApp(host);
    before := CallRequire(host, index);
    SetRequire(host, root);
    after := CallRequire(host, index);
    started := |host.pending|;
  }

  /** Writing `__d` through the accessor and reading it back yields the
      value written, after the registry has been filled from `__c()`. */
  method DefineCellRoundTrip(v: JsValue, reg: Registry) returns (read: JsValue, modules: Option<Registry>)
    ensures read == v
    ensures modules == Some(reg)
  {
    var bridge := new Bridge({}, []);
    var slot := new AppSlot();
    var host := new Host(bridge, slot, RAbsent, None, Factory(Some(reg)), true);
    StartFastcordApp(host);
    SetDefine(host, v);
    read := GetDefine(host);
    modules := host.modules;
  }
}
