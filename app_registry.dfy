/** The registration slot of packages/fastcord-app/src/modules/appRegistry.ts:
    one module-level variable, `globalApp`, that `registerApp` overwrites and
    `getRegisteredApp` reads. */
module AppRegistry {
  import opened Js

  /** The message of the error `getRegisteredApp` throws on an empty slot. */
  const NotRegistered: string := "App not registered"

  class AppSlot {
    var globalApp: Option<App>

    /** The slot starts out unassigned. */
    constructor()
      ensures globalApp == None
    {
      globalApp := None;
    }

    /** `registerApp(app)`: the last registration wins; a second one is not
        an error. */
    method RegisterApp(app: App)
      modifies this
      ensures globalApp == Some(app)
    {
      globalApp := Some(app);
    }

    /** `getRegisteredApp()`: the registered app, or the "App not registered"
        error when there is none. A read: the slot keeps its app. */
    method GetRegisteredApp() returns (r: Result<App, string>)
      ensures r.Success? <==> globalApp.Some?
      ensures r.Success? ==> r.value == globalApp.value
      ensures r.Failure? ==> r.error == NotRegistered
    {
      if globalApp.None? {
        return Failure(NotRegistered);
      }
      return Success(globalApp.value);
    }
  }
}
