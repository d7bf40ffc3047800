/** packages/fastcord-app/src/modules/metroIntegration.ts: normalising the
    module registry, holding back bridge calls while Fastcord initialises,
    and, once it has, removing the relay, running the root module and
    replaying what was held back. */
module MetroIntegration {
  import opened Js
  import opened Seqs
  import opened NativeBridge
  import opened Globals
  import opened Initializer

  const StartFailedAlert: string :=
    "An error occurred while starting Discord. Check the console for more information."

  /* ---- The registry format ---- */

  /** A `Map` registry becomes a plain record with the same pairs; a record
      is left as it is. */
  function NormalizeRegistry(reg: Registry): (n: Registry)
    ensures n.RecordRegistry?
    ensures reg.RecordRegistry? ==> n == reg
    ensures reg.MapRegistry? ==> SameEntries(reg.entries, n.fields)
  {
    match reg
    case MapRegistry(e) => FromEntriesHasEntries(e); RecordRegistry(FromEntries(e))
    case RecordRegistry(_) => reg
  }

  /** `window.modules` after the check: `undefined instanceof Map` is false,
      so an undefined registry stays undefined. */
  function NormalizedModules(modules: Option<Registry>): Option<Registry>
  {
    match modules
    case None => None
    case Some(reg) => Some(NormalizeRegistry(reg))
  }

  /** Normalising twice is normalising once. */
  lemma NormalizeIdempotent(modules: Option<Registry>)
    ensures NormalizedModules(NormalizedModules(modules)) == NormalizedModules(modules)
  {
  }

  method HandleModulesFormat(host: Host)
    modifies host`modules
    ensures host.modules == NormalizedModules(old(host.modules))
  {
    if host.modules.Some? && host.modules.value.MapRegistry? {
      host.modules := Some(NormalizeRegistry(host.modules.value));
    }
  }

  /* ---- The relay window, as sequences ---- */

  /** The calls, out of `calls` arriving while one relay is installed and the
      callable modules are `callable`, that end up in its queue, in order. */
  function HeldBackCalls(calls: seq<Call>, callable: set<string>): seq<Call>
  {
    Filter(calls, c => HeldBack(c, callable))
  }

  /** The calls, out of the same arrivals, that are forwarded at once. */
  function ForwardedCalls(calls: seq<Call>, callable: set<string>): seq<Call>
  {
    Filter(calls, c => !HeldBack(c, callable))
  }

  /** The queued calls a replay delivers: those whose module is callable at
      replay time, in queue order. */
  function ReplayedCalls(queue: seq<Call>, callable: set<string>): seq<Call>
  {
    Filter(queue, (c: Call) => c.moduleName in callable)
  }

  /** Each arriving call adds at most one entry, at the tail, and leaves the
      entries before it as they were. */
  lemma HeldBackGrowsAtTail(calls: seq<Call>, c: Call, callable: set<string>)
    ensures HeldBackCalls(calls + [c], callable)
         == HeldBackCalls(calls, callable) + (if HeldBack(c, callable) then [c] else [])
  {
    FilterAppend(calls, [c], c => HeldBack(c, callable));
  }

  /** Each arriving call is forwarded at most once, after those forwarded
      before it. */
  lemma ForwardedGrowsAtTail(calls: seq<Call>, c: Call, callable: set<string>)
    ensures ForwardedCalls(calls + [c], callable)
         == ForwardedCalls(calls, callable) + (if HeldBack(c, callable) then [] else [c])
  {
    FilterAppend(calls, [c], c => !HeldBack(c, callable));
  }

  /** Every arriving call is either queued or forwarded, never both and
      never neither, as often as it arrives. */
  lemma RelayPartitionsCalls(calls: seq<Call>, callable: set<string>)
    ensures multiset(HeldBackCalls(calls, callable)) + multiset(ForwardedCalls(calls, callable))
         == multiset(calls)
  {
    forall x
      ensures (multiset(HeldBackCalls(calls, callable)) + multiset(ForwardedCalls(calls, callable)))[x]
           == multiset(calls)[x]
    {
      FilterMultiplicity(calls, c => HeldBack(c, callable), x);
      FilterMultiplicity(calls, c => !HeldBack(c, callable), x);
    }
  }

  /** Nothing forwarded while the relay is installed targets `AppRegistry`
      or a module that was not callable; every `AppRegistry` call is queued. */
  lemma ForwardedCallsAreCallable(calls: seq<Call>, callable: set<string>)
    ensures forall c :: c in ForwardedCalls(calls, callable) ==>
      c.moduleName != AppRegistryModule && c.moduleName in callable
    ensures forall c :: c in calls && c.moduleName == AppRegistryModule ==>
      c in HeldBackCalls(calls, callable)
  {
    forall c | c in calls && c.moduleName == AppRegistryModule
      ensures c in HeldBackCalls(calls, callable)
    {
      FilterMembership(calls, c => HeldBack(c, callable), c);
    }
  }

  /** The native side sending `calls`, one after another, through
      `callFunctionReturnFlushedQueue` while a relay is installed and no
      module becomes callable: the newest relay's queue gains exactly the
      held-back calls and the bridge delivers exactly the forwarded ones,
      each in arrival order. */
  method RelayCalls(bridge: Bridge, calls: seq<Call>)
    requires bridge.relays != []
    modifies bridge`delivered, bridge`outgoing, bridge.OutermostRelay()
    ensures bridge.relays == old(bridge.relays) && bridge.callable == old(bridge.callable)
    ensures bridge.OutermostRelay().items
         == old(bridge.OutermostRelay().items) + HeldBackCalls(calls, bridge.callable)
    ensures bridge.delivered == old(bridge.delivered) + ForwardedCalls(calls, bridge.callable)
  {
    var q := bridge.OutermostRelay();
    var cb := bridge.callable;
    for i := 0 to |calls|
      invariant bridge.relays == old(bridge.relays) && bridge.callable == cb
      invariant bridge.OutermostRelay() == q
      invariant q.items == old(q.items) + HeldBackCalls(calls[..i], cb)
      invariant bridge.delivered == old(bridge.delivered) + ForwardedCalls(calls[..i], cb)
    {
      assert calls[..i + 1] == calls[..i] + [calls[i]];
      HeldBackGrowsAtTail(calls[..i], calls[i], cb);
      ForwardedGrowsAtTail(calls[..i], calls[i], cb);
      var _ := bridge.CallFunctionReturnFlushedQueue(calls[i]);
    }
    assert calls[..|calls|] == calls;
  }

  /** A replay delivers each queued call exactly as often as it was queued
      when its module is callable, and never otherwise. */
  lemma ReplayDeliversExactlyCallable(queue: seq<Call>, callable: set<string>, x: Call)
    ensures multiset(ReplayedCalls(queue, callable))[x]
         == if x.moduleName in callable then multiset(queue)[x] else 0
  {
    FilterMultiplicity(queue, (c: Call) => c.moduleName in callable, x);
  }

  /** A replay keeps queue order: calls queued earlier are delivered earlier. */
  lemma ReplayKeepsQueueOrder(earlier: seq<Call>, later: seq<Call>, callable: set<string>)
    ensures ReplayedCalls(earlier + later, callable)
         == ReplayedCalls(earlier, callable) + ReplayedCalls(later, callable)
  {
    FilterAppend(earlier, later, (c: Call) => c.moduleName in callable);
  }

  /* ---- The startup sequence ---- */

  /** `interceptBridgeCalls(batchedBridge)`: a fresh, empty queue and a relay
      in front of `callFunctionReturnFlushedQueue` that pushes onto it. */
  method InterceptBridgeCalls(bridge: Bridge) returns (callQueue: CallQueue)
    modifies bridge`relays
    ensures fresh(callQueue) && callQueue.items == []
    ensures bridge.relays == old(bridge.relays) + [callQueue]
  {
    callQueue := new CallQueue();
    bridge.InstallRelay(callQueue);
  }

  /** `processBridgeCalls(batchedBridge, callQueue)`: deliver the queued
      calls whose module is callable now, in order, and skip the others.
      The queue itself is left as it is. */
  method ProcessBridgeCalls(bridge: Bridge, callQueue: CallQueue)
    modifies bridge`delivered
    ensures bridge.delivered == old(bridge.delivered) + ReplayedCalls(callQueue.items, bridge.callable)
  {
    var queue := callQueue.items;
    for i := 0 to |queue|
      invariant bridge.delivered == old(bridge.delivered) + ReplayedCalls(queue[..i], bridge.callable)
    {
      assert queue[..i + 1] == queue[..i] + [queue[i]];
      ReplayKeepsQueueOrder(queue[..i], [queue[i]], bridge.callable);
      if bridge.GetCallableModule(queue[i].moduleName) {
        bridge.CallFunction(queue[i]);
      }
    }
    assert queue[..|queue|] == queue;
  }

  /** What `startDiscord` makes observable from its first `await` on, in
      order: the settling of the app it started, removal of the relay, the
      real `require(0)`. */
  function StartEffects(started: Option<App>, originalRequire: MetroRequire): seq<Event>
  {
    InitSettleEffects(started) + [RelayRemoved, Required(originalRequire, 0)]
  }

  /** `startDiscord(originalRequire, callQueue, unpatchHook)` from the moment
      its `await initializeFastcord()` resumes: finish initialisation, remove
      the relay, run the real root module, then replay the queue. What came
      before the `await` ran inside `OnceIndexRequired`, and `started` is the
      app it started. It completes with the error the root module throws, in
      which case nothing is replayed. */
  method StartDiscord(host: Host, originalRequire: MetroRequire, callQueue: CallQueue, started: Option<App>)
    returns (c: Completion)
    modifies host`trace, host.bridge`relays, host.bridge`callable, host.bridge`delivered
    ensures host.trace == old(host.trace) + StartEffects(started, originalRequire)
    ensures host.bridge.relays == Without(old(host.bridge.relays), callQueue)
    ensures host.bridge.callable == old(host.bridge.callable) + originalRequire.rootCallables
    ensures host.bridge.delivered == old(host.bridge.delivered)
      + (if originalRequire.rootThrows then [] else ReplayedCalls(callQueue.items, host.bridge.callable))
    ensures c == if originalRequire.rootThrows then Threw(RootModuleError) else Returned(Undefined)
  {
    FinishInitialization(host, started);
    host.bridge.RemoveRelay(callQueue);
    host.trace := host.trace + [RelayRemoved];
    var root := InvokeMetroRequire(host, originalRequire, 0);
    if root.Threw? {
      return root;
    }
    ProcessBridgeCalls(host.bridge, callQueue);
    c := Returned(Undefined);
  }

  /** `onceIndexRequired(originalRequire)`: install the relay, then call
      `startDiscord`, which runs `initializeFastcord()` up to its first
      `await` (the slot is read and the app called, or the failed lookup
      logged and alerted) and suspends; the rest runs later, as
      `RunStartTask`. */
  method OnceIndexRequired(host: Host, originalRequire: MetroRequire)
    modifies host`pending, host`trace, host.bridge`relays
    ensures host.trace == old(host.trace) + InitStartEffects(host.slot.globalApp)
    ensures |host.pending| == |old(host.pending)| + 1
    ensures host.pending[..|old(host.pending)|] == old(host.pending)
    ensures var task := host.pending[|old(host.pending)|];
      && task.require == originalRequire
      && task.started == host.slot.globalApp
      && fresh(task.callQueue) && task.callQueue.items == []
      && host.bridge.relays == old(host.bridge.relays) + [task.callQueue]
  {
    var callQueue := InterceptBridgeCalls(host.bridge);
    var started := BeginInitialization(host);
    host.pending := host.pending + [StartTask(originalRequire, callQueue, started)];
  }

  /** What the `.catch` on `startDiscord` adds: one logged error and one
      alert when it rejected, nothing otherwise. */
  function CatchEffects(c: Completion): seq<Event>
  {
    match c
    case Threw(e) => [ConsoleError(e), Alert(StartFailedAlert)]
    case Returned(_) => []
  }

  /** The oldest waiting `startDiscord` resumes and runs to its end; if it
      rejects, its `.catch` logs and alerts, and nothing is rethrown. The
      slot is not read again: the app was looked up when the task began. */
  method RunStartTask(host: Host)
    requires host.pending != []
    modifies host`pending, host`trace, host.bridge`relays, host.bridge`callable, host.bridge`delivered
    ensures var task := old(host.pending[0]);
      && host.pending == old(host.pending[1..])
      && host.trace == old(host.trace) + StartEffects(task.started, task.require)
           + CatchEffects(MetroRequireResult(task.require, 0))
      && host.bridge.relays == Without(old(host.bridge.relays), task.callQueue)
      && host.bridge.callable == old(host.bridge.callable) + task.require.rootCallables
      && host.bridge.delivered == old(host.bridge.delivered)
           + (if task.require.rootThrows then [] else ReplayedCalls(task.callQueue.items, host.bridge.callable))
  {
    var task := host.pending[0];
    host.pending := host.pending[1..];
    var outcome := StartDiscord(host, task.require, task.callQueue, task.started);
    if outcome.Threw? {
      host.trace := host.trace + [ConsoleError(outcome.error), Alert(StartFailedAlert)];
    }
  }

  /** The part of a startup run from the trigger to the end of
      `startDiscord`, split at the `await`, is one whole initialisation
      followed by the relay's removal and the real `require(0)`. */
  lemma SplitRunIsWholeInit(app: Option<App>, originalRequire: MetroRequire)
    ensures InitStartEffects(app) + StartEffects(app, originalRequire)
         == InitEffects(app) + [RelayRemoved, Required(originalRequire, 0)]
  {
  }

  /** The alerts of the relay's removal and the real `require(0)`, followed
      by the `.catch`'s events: only the "starting Discord" alert, and only
      when the root module throws. */
  lemma TailAlerts(originalRequire: MetroRequire)
    ensures Alerts([RelayRemoved, Required(originalRequire, 0)] + CatchEffects(MetroRequireResult(originalRequire, 0)))
         == if originalRequire.rootThrows then [StartFailedAlert] else []
  {
    var removed := [RelayRemoved, Required(originalRequire, 0)];
    assert removed == [RelayRemoved] + [Required(originalRequire, 0)];
    AlertsAppend([RelayRemoved], [Required(originalRequire, 0)]);
    var caught := CatchEffects(MetroRequireResult(originalRequire, 0));
    AlertsAppend(removed, caught);
    if originalRequire.rootThrows {
      assert caught == [ConsoleError(RootModuleError)] + [Alert(StartFailedAlert)];
      AlertsAppend([ConsoleError(RootModuleError)], [Alert(StartFailedAlert)]);
    }
  }

  /** Over a whole startup run, from the trigger to the `.catch`: a rejecting
      `startDiscord` raises exactly one alert, the "starting Discord" one,
      after whatever initialisation alerted. */
  lemma StartFailureAlertsOnce(app: Option<App>, originalRequire: MetroRequire)
    requires originalRequire.rootThrows
    ensures Alerts(InitStartEffects(app) + StartEffects(app, originalRequire)
                   + CatchEffects(MetroRequireResult(originalRequire, 0)))
         == Alerts(InitEffects(app)) + [StartFailedAlert]
  {
    SplitRunIsWholeInit(app, originalRequire);
    var tail := [RelayRemoved, Required(originalRequire, 0)] + CatchEffects(MetroRequireResult(originalRequire, 0));
    assert InitStartEffects(app) + StartEffects(app, originalRequire) + CatchEffects(MetroRequireResult(originalRequire, 0))
        == InitEffects(app) + tail;
    AlertsAppend(InitEffects(app), tail);
    TailAlerts(originalRequire);
  }

  /** Over a whole startup run in which the app resolves and the root module
      does not throw, no alert is raised. */
  lemma QuietStartRaisesNoAlert(app: App, originalRequire: MetroRequire)
    requires app.rejection.None? && !originalRequire.rootThrows
    ensures Alerts(InitStartEffects(Some(app)) + StartEffects(Some(app), originalRequire)
                   + CatchEffects(MetroRequireResult(originalRequire, 0))) == []
  {
    SplitRunIsWholeInit(Some(app), originalRequire);
    var tail := [RelayRemoved, Required(originalRequire, 0)] + CatchEffects(MetroRequireResult(originalRequire, 0));
    assert InitStartEffects(Some(app)) + StartEffects(Some(app), originalRequire)
           + CatchEffects(MetroRequireResult(originalRequire, 0))
        == InitEffects(Some(app)) + tail;
    AlertsAppend(InitEffects(Some(app)), tail);
    TailAlerts(originalRequire);
    InitAlertsExactlyOnFailure(Some(app));
  }
}
