/** Values that cross the startup path: the shapes declared for the React
    Native globals (packages/fastcord-app/@types/global.d.ts) and the Metro
    module system. Host functions are values here; the only effects of theirs
    the model follows are the ones the startup path depends on. */
module Js {

  datatype Option<+T> = None | Some(value: T)

  datatype Result<+R, +E> = Success(value: R) | Failure(error: E)

  /** A JavaScript value: `undefined`, a string, the exports of a Metro module,
      or anything else the model does not look into. */
  datatype JsValue = Undefined | Str(s: string) | ModuleExports(loader: nat, index: int) | Opaque(tag: nat)

  /** How a call into host code ended: a returned value or a thrown error. */
  datatype Completion = Returned(value: JsValue) | Threw(error: string)

  /** One `[moduleName, methodName, args]` tuple that the native side hands to
      `callFunctionReturnFlushedQueue`. */
  datatype Call = Call(moduleName: string, methodName: string, args: seq<JsValue>)

  /** A Metro require function `(moduleId) => exports`. What running the root
      module (index 0) does to the bridge is part of the value: the callable
      modules it registers, and whether it throws. */
  datatype MetroRequire = MetroRequire(id: nat, rootCallables: set<string>, rootThrows: bool)

  /** An application entry `() => Promise<void>`; `rejection` is the error its
      promise rejects with, if it does. */
  datatype App = App(id: nat, rejection: Option<string>)

  /** The entries of a JavaScript `Map`, in insertion order; a `Map` never
      holds the same key twice. */
  ghost predicate DistinctKeys(e: seq<(string, JsValue)>)
  {
    forall i, j :: 0 <= i < j < |e| ==> e[i].0 != e[j].0
  }

  type MapEntries = e: seq<(string, JsValue)> | DistinctKeys(e) witness []

  /** `window.modules`: Metro's module registry, either a `Map` (newer Metro)
      or a plain record keyed by module id. */
  datatype Registry = MapRegistry(entries: MapEntries) | RecordRegistry(fields: map<string, JsValue>)

  function KeysOf(e: seq<(string, JsValue)>): set<string>
  {
    set i | 0 <= i < |e| :: e[i].0
  }

  /** `Object.fromEntries`: each entry in turn defines its key, so a later
      entry overrides an earlier one with the same key. */
  function FromEntries(e: seq<(string, JsValue)>): map<string, JsValue>
  {
    if e == [] then map[] else FromEntries(e[..|e| - 1])[e[|e| - 1].0 := e[|e| - 1].1]
  }

  /** Converting a `Map` into a record keeps exactly its key/value pairs. */
  lemma {:induction false} FromEntriesHasEntries(e: MapEntries)
    ensures FromEntries(e).Keys == KeysOf(e)
    ensures forall i :: 0 <= i < |e| ==> e[i].0 in FromEntries(e) && FromEntries(e)[e[i].0] == e[i].1
  {
    if e != [] {
      var init: MapEntries := e[..|e| - 1];
      var last := e[|e| - 1];
      FromEntriesHasEntries(init);
      assert KeysOf(e) == KeysOf(init) + {last.0} by {
        forall k | k in KeysOf(e) ensures k in KeysOf(init) + {last.0} {
          var i :| 0 <= i < |e| && e[i].0 == k;
          if i < |e| - 1 { assert init[i] == e[i]; }
        }
        forall k | k in KeysOf(init) ensures k in KeysOf(e) {
          var i :| 0 <= i < |init| && init[i].0 == k;
          assert e[i] == init[i];
        }
      }
      forall i | 0 <= i < |e| - 1
        ensures e[i].0 in FromEntries(e) && FromEntries(e)[e[i].0] == e[i].1
      {
        assert init[i] == e[i];
        assert e[i].0 != last.0;
      }
    }
  }

  /** A record that holds exactly the pairs of `e`. */
  ghost predicate SameEntries(e: MapEntries, fields: map<string, JsValue>)
  {
    && fields.Keys == KeysOf(e)
    && forall i :: 0 <= i < |e| ==> fields[e[i].0] == e[i].1
  }
}
