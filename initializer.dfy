/** `initializeFastcord` (packages/fastcord-app/src/modules/initializer.ts):
    look the app up, run it, and turn any failure of either step into one
    logged error and one alert. The promise it returns never rejects, so the
    model has no failure outcome for it. */
module Initializer {
  import opened Js
  import opened AppRegistry
  import opened Globals

  const InitFailedAlert: string :=
    "An error occurred while initializing Fastcord. Check the console for more information."

  /** Whether initialisation fails: no app is registered, or the app's
      promise rejects. */
  predicate InitFails(app: Option<App>)
  {
    app.None? || app.value.rejection.Some?
  }

  /** What `initializeFastcord()` makes observable before its first `await`,
      given the slot's content: the lookup fails, which is logged and
      alerted at once, or the app is called. */
  function InitStartEffects(app: Option<App>): seq<Event>
  {
    match app
    case None => [ConsoleError(NotRegistered), Alert(InitFailedAlert)]
    case Some(a) => [AppInvoked(a)]
  }

  /** What it makes observable once the app's promise settles, given the app
      it started (`None` when the lookup failed). */
  function InitSettleEffects(started: Option<App>): seq<Event>
  {
    if started.Some? && started.value.rejection.Some?
    then [ConsoleError(started.value.rejection.value), Alert(InitFailedAlert)]
    else []
  }

  /** What one whole `initializeFastcord()` makes observable. */
  function InitEffects(app: Option<App>): seq<Event>
  {
    InitStartEffects(app) + InitSettleEffects(app)
  }

  /** `initializeFastcord()` up to its first `await`: the slot is read here,
      and the app, if any, is called here. Returns the app it started. */
  method BeginInitialization(host: Host) returns (started: Option<App>)
    modifies host`trace
    ensures started == host.slot.globalApp
    ensures host.trace == old(host.trace) + InitStartEffects(host.slot.globalApp)
  {
    var lookup := host.slot.GetRegisteredApp();
    match lookup {
      case Failure(e) =>
        host.trace := host.trace + [ConsoleError(e), Alert(InitFailedAlert)];
        started := None;
      case Success(app) =>
        host.trace := host.trace + [AppInvoked(app)];
        started := Some(app);
    }
  }

  /** The rest of `initializeFastcord()`, once the started app's promise
      settles: a rejection is caught, logged and alerted. */
  method FinishInitialization(host: Host, started: Option<App>)
    modifies host`trace
    ensures host.trace == old(host.trace) + InitSettleEffects(started)
  {
    if started.Some? {
      match started.value.rejection {
        case None =>
        case Some(e) =>
          host.trace := host.trace + [ConsoleError(e), Alert(InitFailedAlert)];
      }
    }
  }

  method InitializeFastcord(host: Host)
    modifies host`trace
    ensures host.trace == old(host.trace) + InitEffects(host.slot.globalApp)
  {
    var started := BeginInitialization(host);
    FinishInitialization(host, started);
  }

  /** Exactly one alert, the initialisation one, when initialisation fails;
      none when it succeeds. */
  lemma InitAlertsExactlyOnFailure(app: Option<App>)
    ensures Alerts(InitEffects(app)) == if InitFails(app) then [InitFailedAlert] else []
  {
    var logged := ConsoleError(if app.None? || app.value.rejection.None? then NotRegistered else app.value.rejection.value);
    assert Alerts([logged]) == [] && Alerts([Alert(InitFailedAlert)]) == [InitFailedAlert];
    AlertsAppend([logged], [Alert(InitFailedAlert)]);
    if app.Some? {
      assert Alerts([AppInvoked(app.value)]) == [];
      AlertsAppend([AppInvoked(app.value)], [logged, Alert(InitFailedAlert)]);
    }
  }

  /** A registered app is invoked exactly once; with none registered, no
      app runs. */
  lemma InitInvokesRegisteredAppOnce(app: Option<App>)
    ensures Invocations(InitEffects(app)) == if app.Some? then [app.value] else []
  {
    var logged := ConsoleError(if app.None? || app.value.rejection.None? then NotRegistered else app.value.rejection.value);
    assert Invocations([logged]) == [] && Invocations([Alert(InitFailedAlert)]) == [];
    InvocationsAppend([logged], [Alert(InitFailedAlert)]);
    if app.Some? {
      assert Invocations([AppInvoked(app.value)]) == [app.value];
      InvocationsAppend([AppInvoked(app.value)], [logged, Alert(InitFailedAlert)]);
    }
  }

  /** On failure the error is logged, and the alert is the last thing that
      happens. */
  lemma InitLogsBeforeAlerting(app: Option<App>)
    requires InitFails(app)
    ensures var effects := InitEffects(app);
      |effects| >= 2 && effects[|effects| - 1] == Alert(InitFailedAlert)
      && effects[|effects| - 2].ConsoleError?
  {
  }
}
