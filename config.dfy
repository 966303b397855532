/** The bundler configuration the plugin publishes as the host's `config.vite`:
    the plugin's defaults, then the user's `vite` settings, then the two
    forced compile-target lists. */
module Config {
  import opened Wrappers
  import opened Targets

  /** A JSON-compatible value: what an option the model does not name, a
      `define` entry or an env override can hold. */
  datatype Json =
    | JNull
    | JBool(b: bool)
    | JNumber(n: int)
    | JString(s: string)
    | JArray(items: seq<Json>)
    | JObject(fields: map<string, Json>)

  /** The keys of an options object that the model passes through uninterpreted. */
  type Fields = map<string, Json>

  datatype BuildOptions = BuildOptions(target: Target, rest: Fields)
  datatype EsbuildOptions = EsbuildOptions(target: Target, rest: Fields)
  datatype DepsOptions = DepsOptions(esbuildOptions: Option<EsbuildOptions>, rest: Fields)

  /** The bundler's inline configuration; `None` is a key that is not set. */
  datatype InlineConfig = InlineConfig(
    clearScreen: Option<bool>,
    cacheDir: Option<string>,
    root: Option<string>,
    build: Option<BuildOptions>,
    optimizeDeps: Option<DepsOptions>,
    define: Option<Fields>,
    rest: Fields)

  /** `{}` */
  const NoConfig := InlineConfig(None, None, None, None, None, None, map[])

  /** The host project's directories. */
  datatype Paths = Paths(cache: string, root: string)

  /** The key-by-key object spread `{...base, ...top}`. */
  function Pick<T>(base: Option<T>, top: Option<T>): Option<T> {
    if top.Some? then top else base
  }

  function Spread(base: InlineConfig, top: InlineConfig): InlineConfig {
    InlineConfig(
      Pick(base.clearScreen, top.clearScreen),
      Pick(base.cacheDir, top.cacheDir),
      Pick(base.root, top.root),
      Pick(base.build, top.build),
      Pick(base.optimizeDeps, top.optimizeDeps),
      Pick(base.define, top.define),
      base.rest + top.rest)
  }

  /** The layer the plugin puts under the user's settings. */
  function Defaults(paths: Paths, join: (string, string) -> string): InlineConfig {
    NoConfig.(clearScreen := Some(false), cacheDir := Some(join(paths.cache, ".vite")), root := Some(paths.root))
  }

  /** `userConfig.vite`, with a missing one read as `{}` as the spreads do. */
  function UserView(user: Option<InlineConfig>): InlineConfig {
    user.GetOr(NoConfig)
  }

  /** `userConfig.vite?.build?.target`, guarded by the `build` object being there. */
  function UserBuildTarget(user: Option<InlineConfig>): Target {
    var u := UserView(user);
    if u.build.Some? then u.build.value.target else Absent
  }

  /** `userConfig.vite?.optimizeDeps?.esbuildOptions?.target`, guarded the same way. */
  function UserEsbuildTarget(user: Option<InlineConfig>): Target {
    var u := UserView(user);
    if u.optimizeDeps.Some? && u.optimizeDeps.value.esbuildOptions.Some?
    then u.optimizeDeps.value.esbuildOptions.value.target
    else Absent
  }

  function BuildRest(u: InlineConfig): Fields {
    if u.build.Some? then u.build.value.rest else map[]
  }

  function DepsRest(u: InlineConfig): Fields {
    if u.optimizeDeps.Some? then u.optimizeDeps.value.rest else map[]
  }

  function EsbuildRest(u: InlineConfig): Fields {
    if u.optimizeDeps.Some? && u.optimizeDeps.value.esbuildOptions.Some?
    then u.optimizeDeps.value.esbuildOptions.value.rest
    else map[]
  }

  /** The object literal assigned to `config.vite`, given the two target lists
      already built. */
  function Layer(paths: Paths, user: Option<InlineConfig>, join: (string, string) -> string,
                 buildTarget: seq<string>, esbuildTarget: seq<string>): InlineConfig
  {
    var u := UserView(user);
    Spread(Defaults(paths, join), u).(
      build := Some(BuildOptions(Arr(buildTarget), BuildRest(u))),
      optimizeDeps := Some(DepsOptions(Some(EsbuildOptions(Arr(esbuildTarget), EsbuildRest(u))), DepsRest(u))))
  }

  /** The resolved configuration: the user's value wins for every key it sets,
      the plugin's defaults fill `clearScreen`, `cacheDir` and `root`, every
      other build and dependency-optimizer option is kept, and only the two
      `target` keys are replaced by merged lists. */
  function Resolve(paths: Paths, user: Option<InlineConfig>, join: (string, string) -> string): (r: InlineConfig)
    ensures r.clearScreen == Some(UserView(user).clearScreen.GetOr(false))
    ensures r.cacheDir == Some(UserView(user).cacheDir.GetOr(join(paths.cache, ".vite")))
    ensures r.root == Some(UserView(user).root.GetOr(paths.root))
    ensures r.define == UserView(user).define && r.rest == UserView(user).rest
    ensures r.build.Some? && r.build.value.target == Arr(MergeTarget(UserBuildTarget(user)))
    ensures UserView(user).build.Some? ==> r.build.value.rest == UserView(user).build.value.rest
    ensures UserView(user).build.None? ==> r.build.value.rest == map[]
    ensures r.optimizeDeps.Some? && r.optimizeDeps.value.esbuildOptions.Some?
    ensures r.optimizeDeps.value.esbuildOptions.value.target == Arr(MergeTarget(UserEsbuildTarget(user)))
    ensures UserView(user).optimizeDeps.Some? ==> r.optimizeDeps.value.rest == UserView(user).optimizeDeps.value.rest
    ensures UserView(user).optimizeDeps.None? ==> r.optimizeDeps.value.rest == map[]
    ensures UserView(user).optimizeDeps.Some? && UserView(user).optimizeDeps.value.esbuildOptions.Some? ==>
              r.optimizeDeps.value.esbuildOptions.value.rest == UserView(user).optimizeDeps.value.esbuildOptions.value.rest
    ensures !(UserView(user).optimizeDeps.Some? && UserView(user).optimizeDeps.value.esbuildOptions.Some?) ==>
              r.optimizeDeps.value.esbuildOptions.value.rest == map[]
  {
    Layer(paths, user, join, MergeTarget(UserBuildTarget(user)), MergeTarget(UserEsbuildTarget(user)))
  }

  /** With no user settings at all, the configuration is exactly the defaults
      and the two baseline-only target lists. */
  lemma ResolveWithoutUserConfig(paths: Paths, join: (string, string) -> string)
    ensures Resolve(paths, None, join) == Resolve(paths, Some(NoConfig), join)
    ensures Resolve(paths, None, join) == InlineConfig(
              Some(false), Some(join(paths.cache, ".vite")), Some(paths.root),
              Some(BuildOptions(Arr(["es2020"]), map[])),
              Some(DepsOptions(Some(EsbuildOptions(Arr(["es2020"]), map[])), map[])),
              None, map[])
  {
  }

  /** Each of the three defaulted keys the user sets keeps the user's value,
      independently of the other two. */
  lemma ResolveUserOverridesDefaults(paths: Paths, u: InlineConfig, join: (string, string) -> string)
    ensures u.clearScreen.Some? ==> Resolve(paths, Some(u), join).clearScreen == u.clearScreen
    ensures u.cacheDir.Some? ==> Resolve(paths, Some(u), join).cacheDir == u.cacheDir
    ensures u.root.Some? ==> Resolve(paths, Some(u), join).root == u.root
  {
  }

  /** A user configuration that sets `build.target` and
      `optimizeDeps.esbuildOptions.target` to the same value. */
  function TargetConfig(t: Target): InlineConfig {
    NoConfig.(build := Some(BuildOptions(t, map[])),
              optimizeDeps := Some(DepsOptions(Some(EsbuildOptions(t, map[])), map[])))
  }

  /** Both target lists follow the same merge rule. */
  lemma ResolveTargetsAgree(paths: Paths, t: Target, join: (string, string) -> string)
    ensures Resolve(paths, Some(TargetConfig(t)), join).build.value.target
         == Resolve(paths, Some(TargetConfig(t)), join).optimizeDeps.value.esbuildOptions.value.target
         == Arr(MergeTarget(t))
  {
  }

  /** The three target settings the plugin's test projects use. */
  lemma ResolveTestProjects(paths: Paths, join: (string, string) -> string)
    ensures Resolve(paths, Some(TargetConfig(Str("es2020"))), join).build.value.target == Arr(["es2020"])
    ensures Resolve(paths, Some(TargetConfig(Str("es2020"))), join).optimizeDeps.value.esbuildOptions.value.target
         == Arr(["es2020"])
    ensures Resolve(paths, Some(TargetConfig(Str("es2022"))), join).build.value.target == Arr(["es2020", "es2022"])
    ensures Resolve(paths, Some(TargetConfig(Str("es2022"))), join).optimizeDeps.value.esbuildOptions.value.target
         == Arr(["es2020", "es2022"])
    ensures Resolve(paths, Some(TargetConfig(Arr(["chrome58", "edge16"]))), join).build.value.target
         == Arr(["es2020", "chrome58", "edge16"])
    ensures Resolve(paths, Some(TargetConfig(Arr(["chrome58", "edge16"]))), join).optimizeDeps.value.esbuildOptions.value.target
         == Arr(["es2020", "chrome58", "edge16"])
  {
    MergeScalarBaseline("es2020");
    MergeScalarOther("es2022");
  }

  /** Resolving is not idempotent: fed its own output it adds a second
      baseline, because an array target is never deduplicated. The plugin
      therefore always derives `config.vite` from the user's settings. */
  lemma ResolveTwiceDuplicatesBaseline(paths: Paths, join: (string, string) -> string)
    ensures Resolve(paths, Some(Resolve(paths, None, join)), join).build.value.target == Arr(["es2020", "es2020"])
  {
  }
}
