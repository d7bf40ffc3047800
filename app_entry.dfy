/** packages/fastcord-app/src/app.ts: the top-level statements of the app
    bundle. */
module AppEntry {
  import opened Js
  import opened Globals
  import opened Initializer
  import opened GlobalProperties

  /** Set `window` up, then either initialise at once, when `__r` is already
      present and defined, or put the traps in place and wait for Metro. The
      direct branch's `.catch` can never run: `initializeFastcord` does not
      reject. */
  method StartFastcordApp(host: Host)
    modifies host`windowIsGlobal, host`r, host`d, host`trace
    ensures host.windowIsGlobal
    ensures RequireValue(old(host.r)).Some? ==>
      && host.trace == old(host.trace) + InitEffects(host.slot.globalApp)
      && host.r == old(host.r) && host.d == old(host.d)
    ensures RequireValue(old(host.r)).None? ==>
      && host.trace == old(host.trace)
      && host.r == RAccessor(None) && host.d == DAccessor
  {
    SetupGlobalWindow(host);
    if RequireValue(host.r).Some? {
      InitializeFastcord(host);
    } else {
      DefineGlobalProperties(host);
    }
  }
}
