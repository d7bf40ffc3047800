/** The React Native batched bridge `window.__fbBatchedBridge`
    (packages/fastcord-app/@types/global.d.ts:3-8) and the relay that the
    startup path installs on its `callFunctionReturnFlushedQueue` entry point
    (packages/fastcord-app/src/modules/metroIntegration.ts:47-61). */
module NativeBridge {
  import opened Js
  import Seqs

  /** The root-registration module, whose calls the relay always holds back. */
  const AppRegistryModule: string := "AppRegistry"

  /** The relay's test: a call is held back when it targets `AppRegistry` or
      a module the bridge cannot call yet. */
  predicate HeldBack(c: Call, callable: set<string>)
  {
    c.moduleName == AppRegistryModule || c.moduleName !in callable
  }

  /** The `callQueue` array one interception pushes held-back calls onto. */
  class CallQueue {
    var items: seq<Call>

    constructor()
      ensures items == []
    {
      items := [];
    }
  }

  class Bridge {
    /** The JavaScript modules `getCallableModule` reports as callable. */
    var callable: set<string>
    /** The relays patched over `callFunctionReturnFlushedQueue`, oldest
        first; each is known by the queue it pushes onto. Empty when the
        entry point is the bridge's own. */
    var relays: seq<CallQueue>
    /** The JS-to-native batch that `flushedQueue` hands over. */
    var outgoing: seq<JsValue>
    /** Every call `__callFunction` has delivered to a JavaScript module. */
    var delivered: seq<Call>

    constructor(callable: set<string>, outgoing: seq<JsValue>)
      ensures this.callable == callable && this.outgoing == outgoing
      ensures relays == [] && delivered == []
    {
      this.callable := callable;
      this.outgoing := outgoing;
      relays := [];
      delivered := [];
    }

    predicate GetCallableModule(name: string)
      reads this
    {
      name in callable
    }

    /** The relay whose callback runs first: the newest one. */
    function OutermostRelay(): CallQueue
      requires relays != []
      reads this
    {
      relays[|relays| - 1]
    }

    /** `flushedQueue()`: hands over the pending batch and starts a new one. */
    method FlushedQueue() returns (batch: seq<JsValue>)
      modifies this`outgoing
      ensures batch == old(outgoing) && outgoing == []
    {
      batch := outgoing;
      outgoing := [];
    }

    /** `__callFunction(moduleName, methodName, args)`. */
    method CallFunction(c: Call)
      modifies this`delivered
      ensures delivered == old(delivered) + [c]
    {
      delivered := delivered + [c];
    }

    /** The bridge's own `callFunctionReturnFlushedQueue`: deliver, then flush. */
    method OriginalCallFunctionReturnFlushedQueue(c: Call) returns (batch: seq<JsValue>)
      modifies this`delivered, this`outgoing
      ensures delivered == old(delivered) + [c]
      ensures batch == old(outgoing) && outgoing == []
    {
      CallFunction(c);
      batch := FlushedQueue();
    }

    /** `callFunctionReturnFlushedQueue` as the native side reaches it. With a
        relay installed, the newest relay's callback runs; a call it holds back
        goes to the tail of its queue and the caller gets `flushedQueue()`;
        any other call it hands to `orig`. `orig` is the next relay down, whose
        test sees the same call and the same callable modules and so also hands
        it on, until the bridge's own entry point delivers it. */
    method CallFunctionReturnFlushedQueue(c: Call) returns (batch: seq<JsValue>)
      modifies this`delivered, this`outgoing
      modifies if relays != [] then {relays[|relays| - 1]} else {}
      ensures batch == old(outgoing) && outgoing == []
      ensures relays == old(relays) && callable == old(callable)
      ensures relays != [] && HeldBack(c, callable) ==>
        OutermostRelay().items == old(OutermostRelay().items) + [c] && delivered == old(delivered)
      ensures !(relays != [] && HeldBack(c, callable)) ==>
        delivered == old(delivered) + [c]
      ensures forall q :: q in relays && !(q == OutermostRelay() && HeldBack(c, callable)) ==>
        q.items == old(q.items)
    {
      if relays != [] && HeldBack(c, callable) {
        var q := relays[|relays| - 1];
        q.items := q.items + [c];
        batch := FlushedQueue();
      } else {
        batch := OriginalCallFunctionReturnFlushedQueue(c);
      }
    }

    /** Installing a relay: its callback now runs before every other. */
    method InstallRelay(q: CallQueue)
      modifies this`relays
      ensures relays == old(relays) + [q]
    {
      relays := relays + [q];
    }

    /** The unpatch function of the relay that pushes onto `q`; removing a
        relay that is already gone changes nothing. */
    method RemoveRelay(q: CallQueue)
      modifies this`relays
      ensures relays == Seqs.Without(old(relays), q)
    {
      relays := Seqs.Without(relays, q);
    }

    /** A module registering itself as callable (the root module does this
        while it runs). */
    method RegisterCallableModules(names: set<string>)
      modifies this`callable
      ensures callable == old(callable) + names
    {
      callable := callable + names;
    }
  }
}
