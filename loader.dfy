/** src/lib/api/native/loader.ts: what the mod knows about the native loader
    it runs under. Two identity records are captured from the global object
    when the module is evaluated: Fastcord's `__FASTCORD_LOADER__` and
    Vendetta's `__vendetta_loader`. The queries are conditional expressions
    over the two, Fastcord first; the polyfill publishes a Vendetta-shaped
    record for a Fastcord loader that lacks one. */
module Loader {
  import opened Js

  datatype Theme = Theme(id: string, body: JsValue)

  /** `__FASTCORD_LOADER__`. */
  datatype FastcordId = FastcordId(
    loaderName: string,
    loaderVersion: string,
    hasThemeSupport: bool,
    storedTheme: Option<Theme>,
    isSysColorsSupported: bool,
    sysColors: JsValue,
    fontPatch: int)

  datatype PropRef = PropRef(prop: string)
  datatype DevtoolsRef = DevtoolsRef(prop: string, version: string)

  /** `features` of a Vendetta identity; an absent `loaderConfig` reads as
      false. */
  datatype Features = Features(
    loaderConfig: bool,
    devtools: Option<DevtoolsRef>,
    themes: Option<PropRef>,
    syscolors: Option<PropRef>)

  /** `__vendetta_loader` (`VendettaLoaderIdentity`). */
  datatype VendettaId = VendettaId(name: string, features: Features)

  /** What `getLoaderIdentity` returns when there is an identity. */
  datatype LoaderIdentity = FastcordIdentity(fastcord: FastcordId) | VendettaIdentity(vendetta: VendettaId)

  /** `window.__reactDevTools`. */
  datatype ReactDevTools = ReactDevTools(exports: JsValue, version: string)

  /** A property of the global object that the loader code reads or defines.
      The two getters the polyfill defines are named, not run: their values
      are `GetSysColors` and `VendettaThemeValue`. */
  datatype Global =
    | FastcordRecord(fastcordId: FastcordId)
    | LoaderRecord(vendettaId: VendettaId)
    | ThemeRecord(theme: Theme)
    | DevToolsRecord(devTools: ReactDevTools)
    | SysColorsGetter
    | ThemeGetter
    | PlainValue(value: JsValue)

  type Env = map<string, Global>

  const FastcordLoaderProp: string := "__FASTCORD_LOADER__"
  const VendettaLoaderProp: string := "__vendetta_loader"
  const VendettaSysColorsProp: string := "__vendetta_syscolors"
  const VendettaThemeProp: string := "__vendetta_theme"
  const ReactDevToolsProp: string := "__reactDevTools"
  const PyoncordRdtProp: string := "__pyoncord_rdt"

  /* ---- Reading the global object ---- */

  function FastcordGlobal(env: Env): Option<FastcordId>
  {
    if FastcordLoaderProp in env && env[FastcordLoaderProp].FastcordRecord?
    then Some(env[FastcordLoaderProp].fastcordId) else None
  }

  function VendettaGlobal(env: Env): Option<VendettaId>
  {
    if VendettaLoaderProp in env && env[VendettaLoaderProp].LoaderRecord?
    then Some(env[VendettaLoaderProp].vendettaId) else None
  }

  function ReactDevToolsGlobal(env: Env): Option<ReactDevTools>
  {
    if ReactDevToolsProp in env && env[ReactDevToolsProp].DevToolsRecord?
    then Some(env[ReactDevToolsProp].devTools) else None
  }

  /* ---- The queries, over the two captured identities ---- */

  predicate IsFastcordLoader(fc: Option<FastcordId>) { fc.Some? }

  predicate IsVendettaLoader(vd: Option<VendettaId>) { vd.Some? }

  function GetLoaderName(fc: Option<FastcordId>, vd: Option<VendettaId>): string
  {
    if fc.Some? then fc.value.loaderName
    else if vd.Some? then vd.value.name
    else "Unknown"
  }

  function GetLoaderVersion(fc: Option<FastcordId>, vd: Option<VendettaId>): Option<string>
  {
    if fc.Some? then Some(fc.value.loaderVersion) else None
  }

  predicate IsLoaderConfigSupported(fc: Option<FastcordId>, vd: Option<VendettaId>)
  {
    if fc.Some? then true
    else if vd.Some? then vd.value.features.loaderConfig
    else false
  }

  predicate IsThemeSupported(fc: Option<FastcordId>, vd: Option<VendettaId>)
  {
    if fc.Some? then fc.value.hasThemeSupport
    else if vd.Some? then vd.value.features.themes.Some?
    else false
  }

  /** For Vendetta the theme is whatever the global named by
      `features.themes.prop` holds; an empty or missing name gives null. */
  function GetStoredTheme(fc: Option<FastcordId>, vd: Option<VendettaId>, env: Env): Option<Theme>
  {
    if fc.Some? then fc.value.storedTheme
    else if vd.Some? then
      match vd.value.features.themes
      case None => None
      case Some(ref) =>
        if ref.prop == "" then None
        else if ref.prop in env && env[ref.prop].ThemeRecord? then Some(env[ref.prop].theme)
        else None
    else None
  }

  function GetThemeFilePath(fc: Option<FastcordId>, vd: Option<VendettaId>): Option<string>
  {
    if fc.Some? then Some("pyoncord/current-theme.json")
    else if vd.Some? then Some("vendetta_theme.json")
    else None
  }

  predicate IsReactDevToolsPreloaded(fc: Option<FastcordId>, vd: Option<VendettaId>, env: Env)
  {
    if fc.Some? then ReactDevToolsGlobal(env).Some?
    else if vd.Some? then vd.value.features.devtools.Some?
    else false
  }

  /** An empty Fastcord devtools version reads as null (`version || null`). */
  function GetReactDevToolsVersion(fc: Option<FastcordId>, vd: Option<VendettaId>, env: Env): Option<string>
  {
    if !IsReactDevToolsPreloaded(fc, vd, env) then None
    else if fc.Some? then
      (var version := ReactDevToolsGlobal(env).value.version; if version == "" then None else Some(version))
    else Some(vd.value.features.devtools.value.version)
  }

  predicate IsSysColorsSupported(fc: Option<FastcordId>, vd: Option<VendettaId>)
  {
    if fc.Some? then fc.value.isSysColorsSupported
    else if vd.Some? then vd.value.features.syscolors.Some?
    else false
  }

  /** For Vendetta this yields the property name, as the source does. */
  function GetSysColors(fc: Option<FastcordId>, vd: Option<VendettaId>): Option<JsValue>
  {
    if !IsSysColorsSupported(fc, vd) then None
    else if fc.Some? then Some(fc.value.sysColors)
    else Some(Str(vd.value.features.syscolors.value.prop))
  }

  function GetLoaderConfigPath(fc: Option<FastcordId>, vd: Option<VendettaId>): string
  {
    if fc.Some? then "fastcord/loader.json"
    else if vd.Some? then "vendetta_loader.json"
    else "loader.json"
  }

  predicate IsFontSupported(fc: Option<FastcordId>, vd: Option<VendettaId>)
  {
    if fc.Some? then fc.value.fontPatch == 2 else false
  }

  /* ---- The polyfill ---- */

  /** The Vendetta-shaped record the polyfill publishes, if it publishes one. */
  function PolyfilledIdentity(fc: Option<FastcordId>, vd: Option<VendettaId>): Option<VendettaId>
  {
    if fc.None? || vd.Some? then None
    else Some(VendettaId(fc.value.loaderName, Features(
      loaderConfig := IsLoaderConfigSupported(fc, vd),
      devtools := None,
      themes := if IsThemeSupported(fc, vd) then Some(PropRef(VendettaThemeProp)) else None,
      syscolors := if IsSysColorsSupported(fc, vd) then Some(PropRef(VendettaSysColorsProp)) else None)))
  }

  /** The global properties the polyfill defines. */
  function PolyfillDefinitions(fc: Option<FastcordId>, vd: Option<VendettaId>): Env
  {
    match PolyfilledIdentity(fc, vd)
    case None => map[]
    case Some(loader) =>
      (if IsSysColorsSupported(fc, vd) then map[VendettaSysColorsProp := SysColorsGetter] else map[])
      + (if IsThemeSupported(fc, vd) then map[VendettaThemeProp := ThemeGetter] else map[])
      + map[VendettaLoaderProp := LoaderRecord(loader)]
  }

  /** The value of the `__vendetta_theme` getter, given the installed themes
      keyed by id: null without a stored theme id; otherwise the installed
      theme with that id, or else the stored theme. */
  function VendettaThemeValue(fc: Option<FastcordId>, vd: Option<VendettaId>, env: Env,
                              installed: map<string, Theme>): (t: Option<Theme>)
    ensures var stored := GetStoredTheme(fc, vd, env);
      && (t.None? <==> stored.None? || stored.value.id == "")
      && ((forall k :: k in installed ==> installed[k].id == k) && t.Some? ==> t.value.id == stored.value.id)
  {
    var stored := GetStoredTheme(fc, vd, env);
    if stored.None? || stored.value.id == "" then None
    else if stored.value.id in installed then Some(installed[stored.value.id])
    else stored
  }

  /** Installing a theme under the stored id makes the getter yield it;
      with nothing installed the getter falls back to the stored theme. */
  lemma ThemeGetterPrefersInstalled(fc: Option<FastcordId>, vd: Option<VendettaId>, env: Env,
                                    installed: map<string, Theme>, theme: Theme)
    ensures var stored := GetStoredTheme(fc, vd, env);
      && (stored.Some? && stored.value.id != "" ==>
            VendettaThemeValue(fc, vd, env, installed[stored.value.id := theme]) == Some(theme))
      && (stored.Some? && stored.value.id != "" ==> VendettaThemeValue(fc, vd, env, map[]) == stored)
  {
  }

  /** For the polyfilled getter (Fastcord alone), the theme depends only on
      Fastcord's stored theme and the installed themes, not on the rest of
      the global object; the getter is defined exactly when Fastcord reports
      theme support. */
  lemma PolyfilledThemeGetter(f: FastcordId, env1: Env, env2: Env, installed: map<string, Theme>)
    ensures VendettaThemeValue(Some(f), None, env1, installed) == VendettaThemeValue(Some(f), None, env2, installed)
    ensures f.storedTheme.None? ==> VendettaThemeValue(Some(f), None, env1, installed).None?
    ensures var defs := PolyfillDefinitions(Some(f), None);
      (VendettaThemeProp in defs && defs[VendettaThemeProp] == ThemeGetter) <==> f.hasThemeSupport
  {
  }

  /** The global object as the loader module sees it. */
  class LoaderState {
    const fastcord: Option<FastcordId>
    const vendetta: Option<VendettaId>
    var globals: Env

    /** Evaluating the module: capture both identities, then call
        `getVendettaLoaderIdentity()` once, which polyfills when there is no
        Vendetta record. */
    constructor(env: Env)
      ensures fastcord == FastcordGlobal(env) && vendetta == VendettaGlobal(env)
      ensures globals == env + PolyfillDefinitions(fastcord, vendetta)
    {
      fastcord := FastcordGlobal(env);
      vendetta := VendettaGlobal(env);
      globals := env;
      new;
      var _ := GetVendettaLoaderIdentity();
    }

    method PolyfillVendettaLoaderIdentity() returns (r: Option<VendettaId>)
      modifies this
      ensures r == PolyfilledIdentity(fastcord, vendetta)
      ensures globals == old(globals) + PolyfillDefinitions(fastcord, vendetta)
    {
      if !IsFastcordLoader(fastcord) || IsVendettaLoader(vendetta) {
        return None;
      }
      var features := Features(false, None, None, None);
      if IsLoaderConfigSupported(fastcord, vendetta) {
        features := features.(loaderConfig := true);
      }
      if IsSysColorsSupported(fastcord, vendetta) {
        features := features.(syscolors := Some(PropRef(VendettaSysColorsProp)));
        globals := globals[VendettaSysColorsProp := SysColorsGetter];
      }
      if IsThemeSupported(fastcord, vendetta) {
        features := features.(themes := Some(PropRef(VendettaThemeProp)));
        globals := globals[VendettaThemeProp := ThemeGetter];
      }
      var loader := VendettaId(fastcord.value.loaderName, features);
      globals := globals[VendettaLoaderProp := LoaderRecord(loader)];
      r := Some(loader);
    }

    /** An existing `__vendetta_loader` is returned as it is; only without
        one does the polyfill run. */
    method GetVendettaLoaderIdentity() returns (r: Option<VendettaId>)
      modifies this
      ensures VendettaGlobal(old(globals)).Some? ==>
        r == VendettaGlobal(old(globals)) && globals == old(globals)
      ensures VendettaGlobal(old(globals)).None? ==>
        r == PolyfilledIdentity(fastcord, vendetta)
        && globals == old(globals) + PolyfillDefinitions(fastcord, vendetta)
    {
      r := VendettaGlobal(globals);
      if r.None? {
        r := PolyfillVendettaLoaderIdentity();
      }
    }

    /** Fastcord's identity when present; otherwise Vendetta's, read through
        `getVendettaLoaderIdentity`, whose polyfill does nothing when Vendetta
        is present. */
    method GetLoaderIdentity() returns (r: Option<LoaderIdentity>)
      modifies this
      ensures globals == old(globals)
      ensures fastcord.Some? ==> r == Some(FastcordIdentity(fastcord.value))
      ensures fastcord.None? && vendetta.Some? ==>
        r == if VendettaGlobal(globals).Some? then Some(VendettaIdentity(VendettaGlobal(globals).value)) else None
      ensures fastcord.None? && vendetta.None? ==> r == None
    {
      if IsFastcordLoader(fastcord) {
        return Some(FastcordIdentity(fastcord.value));
      } else if IsVendettaLoader(vendetta) {
        var v := GetVendettaLoaderIdentity();
        return if v.Some? then Some(VendettaIdentity(v.value)) else None;
      }
      return None;
    }

    /** The global that holds the devtools exports: Fastcord's are copied to
        `window.__pyoncord_rdt` first. */
    method GetReactDevToolsProp() returns (r: Option<string>)
      modifies this
      ensures !IsReactDevToolsPreloaded(fastcord, vendetta, old(globals)) ==>
        r == None && globals == old(globals)
      ensures IsReactDevToolsPreloaded(fastcord, vendetta, old(globals)) && fastcord.Some? ==>
        && r == Some(PyoncordRdtProp)
        && globals == old(globals)[PyoncordRdtProp := PlainValue(ReactDevToolsGlobal(old(globals)).value.exports)]
      ensures IsReactDevToolsPreloaded(fastcord, vendetta, old(globals)) && fastcord.None? ==>
        && r == Some(vendetta.value.features.devtools.value.prop)
        && globals == old(globals)
    {
      if !IsReactDevToolsPreloaded(fastcord, vendetta, globals) {
        return None;
      }
      if IsFastcordLoader(fastcord) {
        var devTools := ReactDevToolsGlobal(globals).value;
        globals := globals[PyoncordRdtProp := PlainValue(devTools.exports)];
        return Some(PyoncordRdtProp);
      }
      if IsVendettaLoader(vendetta) {
        return Some(vendetta.value.features.devtools.value.prop);
      }
      return None;
    }
  }

  /* ---- Properties ---- */

  /** With Fastcord present, no query depends on whether Vendetta is. */
  lemma FastcordTakesPrecedence(f: FastcordId, vd: Option<VendettaId>, env: Env)
    ensures GetLoaderName(Some(f), vd) == f.loaderName
    ensures GetLoaderConfigPath(Some(f), vd) == "fastcord/loader.json"
    ensures GetLoaderVersion(Some(f), vd) == Some(f.loaderVersion)
    ensures IsLoaderConfigSupported(Some(f), vd)
    ensures IsThemeSupported(Some(f), vd) == IsThemeSupported(Some(f), None)
    ensures GetStoredTheme(Some(f), vd, env) == GetStoredTheme(Some(f), None, env)
    ensures GetThemeFilePath(Some(f), vd) == GetThemeFilePath(Some(f), None)
    ensures IsReactDevToolsPreloaded(Some(f), vd, env) == IsReactDevToolsPreloaded(Some(f), None, env)
    ensures GetReactDevToolsVersion(Some(f), vd, env) == GetReactDevToolsVersion(Some(f), None, env)
    ensures IsSysColorsSupported(Some(f), vd) == IsSysColorsSupported(Some(f), None)
    ensures GetSysColors(Some(f), vd) == GetSysColors(Some(f), None)
  {
  }

  /** With neither loader present, every query gives its default. */
  lemma NoLoaderDefaults(env: Env)
    ensures GetLoaderName(None, None) == "Unknown"
    ensures GetLoaderConfigPath(None, None) == "loader.json"
    ensures GetThemeFilePath(None, None) == None
    ensures GetLoaderVersion(None, None) == None
    ensures GetStoredTheme(None, None, env) == None
    ensures !IsLoaderConfigSupported(None, None) && !IsThemeSupported(None, None)
    ensures !IsSysColorsSupported(None, None) && !IsReactDevToolsPreloaded(None, None, env)
    ensures !IsFontSupported(None, None)
  {
  }

  /** With only Vendetta present, the queries answer from its record: the
      stored theme is the one held by the global its `themes.prop` names,
      and the system colours are that feature's property name. */
  lemma VendettaOnlyQueries(v: VendettaId, env: Env)
    ensures GetLoaderName(None, Some(v)) == v.name
    ensures GetLoaderConfigPath(None, Some(v)) == "vendetta_loader.json"
    ensures GetThemeFilePath(None, Some(v)) == Some("vendetta_theme.json")
    ensures GetLoaderVersion(None, Some(v)) == None
    ensures IsLoaderConfigSupported(None, Some(v)) == v.features.loaderConfig
    ensures IsThemeSupported(None, Some(v)) <==> v.features.themes.Some?
    ensures IsReactDevToolsPreloaded(None, Some(v), env) <==> v.features.devtools.Some?
    ensures v.features.devtools.Some? ==>
      GetReactDevToolsVersion(None, Some(v), env) == Some(v.features.devtools.value.version)
    ensures !IsFontSupported(None, Some(v))
    ensures GetStoredTheme(None, Some(v), env)
         == if v.features.themes.Some? && v.features.themes.value.prop != ""
               && v.features.themes.value.prop in env && env[v.features.themes.value.prop].ThemeRecord?
            then Some(env[v.features.themes.value.prop].theme) else None
    ensures IsSysColorsSupported(None, Some(v)) <==> v.features.syscolors.Some?
    ensures v.features.syscolors.Some? ==>
      GetSysColors(None, Some(v)) == Some(Str(v.features.syscolors.value.prop))
    ensures v.features.syscolors.None? ==> GetSysColors(None, Some(v)) == None
  {
  }

  /** Font patching is supported exactly for a Fastcord loader at patch
      level 2. */
  lemma FontSupportedIff(fc: Option<FastcordId>, vd: Option<VendettaId>)
    ensures IsFontSupported(fc, vd) <==> fc.Some? && fc.value.fontPatch == 2
  {
  }

  /** Without preloaded devtools there is no devtools version. */
  lemma NoDevToolsNoVersion(fc: Option<FastcordId>, vd: Option<VendettaId>, env: Env)
    requires !IsReactDevToolsPreloaded(fc, vd, env)
    ensures GetReactDevToolsVersion(fc, vd, env) == None
  {
  }

  /** The polyfill publishes a record exactly for a Fastcord loader without a
      Vendetta one; the record carries Fastcord's name and loader-config
      support. */
  lemma PolyfillOnlyForFastcordAlone(fc: Option<FastcordId>, vd: Option<VendettaId>)
    ensures PolyfilledIdentity(fc, vd).Some? <==> fc.Some? && vd.None?
    ensures PolyfilledIdentity(fc, vd).Some? ==>
      PolyfilledIdentity(fc, vd).value.name == fc.value.loaderName
      && PolyfilledIdentity(fc, vd).value.features.loaderConfig
    ensures PolyfilledIdentity(fc, vd).None? ==> PolyfillDefinitions(fc, vd) == map[]
  {
  }

  /** The polyfill advertises `syscolors` and `themes` exactly when they are
      supported, defines the matching getters only then, and always defines
      `__vendetta_loader` as the record it returns. */
  lemma PolyfillAdvertisesSupport(f: FastcordId)
    ensures var loader := PolyfilledIdentity(Some(f), None).value;
      var defs := PolyfillDefinitions(Some(f), None);
      && (loader.features.syscolors.Some? <==> IsSysColorsSupported(Some(f), None))
      && (loader.features.themes.Some? <==> IsThemeSupported(Some(f), None))
      && (VendettaSysColorsProp in defs <==> IsSysColorsSupported(Some(f), None))
      && (VendettaThemeProp in defs <==> IsThemeSupported(Some(f), None))
      && VendettaLoaderProp in defs && defs[VendettaLoaderProp] == LoaderRecord(loader)
  {
  }

  /** Once published, `__vendetta_loader` reads back as the published
      record, so a later `getVendettaLoaderIdentity` returns it and does not
      polyfill again. */
  lemma PolyfillReadsBack(fc: Option<FastcordId>, vd: Option<VendettaId>, env: Env)
    ensures PolyfilledIdentity(fc, vd).Some? ==>
      VendettaGlobal(env + PolyfillDefinitions(fc, vd)) == PolyfilledIdentity(fc, vd)
  {
  }

  /** Read back as a Vendetta identity, the published record answers the
      queries as the Fastcord identity it came from does. */
  lemma PolyfillAgreesWithQueries(f: FastcordId)
    ensures var loader := PolyfilledIdentity(Some(f), None);
      && GetLoaderName(None, loader) == GetLoaderName(Some(f), None)
      && IsLoaderConfigSupported(None, loader) == IsLoaderConfigSupported(Some(f), None)
      && IsThemeSupported(None, loader) == IsThemeSupported(Some(f), None)
      && IsSysColorsSupported(None, loader) == IsSysColorsSupported(Some(f), None)
  {
  }
}
