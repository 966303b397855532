# hardhat-vite, modelled in Dafny

hardhat-vite is a Hardhat plugin. It runs the Vite bundler's dev server, production
build and preview server as Hardhat tasks. The plugin has four pieces of its own
logic, and this project models each of them and proves what it promises:

- **Compile-target merge** (`targets.dfy`). `build.target` and
  `optimizeDeps.esbuildOptions.target` always start with the baseline
  `"es2020"`. An array target is appended whole. A single string is appended only
  when it is not `"es2020"` in some letter case. Any other value adds nothing.
  `MergeTarget` is the specification. `CollectTargets` builds the list by pushing,
  as the plugin does.
- **Configuration layering** (`config.dfy`). `config.vite` is built from
  `{clearScreen: false, cacheDir: join(cache, ".vite"), root}`, then the user's
  `vite` settings spread over it, then forced `build` and
  `optimizeDeps.esbuildOptions` objects. Those two keep every user option and
  replace only `target`. `InlineConfig` is a typed record with optional fields.
  Options the model does not name go into `rest` maps.
- **Env overrides** (`overrides.dfy`, `tasks.dfy`). For a build, each entry `k`
  becomes the define key `import.meta.env.k`, mapped to the JSON text of the
  value. These keys are merged over the configured `define`, and the env wins on
  a collision. For a dev server, each entry is written into the server's live env
  map, one key at a time.
- **Task dispatch** (`tasks.dfy`). `vite build` runs the build task. `vite preview`
  runs the build task with the same env, then the preview server. Every other
  command, and no command at all, runs the dev server. A `Host` class holds the
  published `config.vite` and a trace of the calls made to the task runner and to
  the bundler. The task methods are proved to produce the trace that pure
  specification functions describe. Lemmas about those functions state the
  ordering properties.

`path.join` and `JSON.stringify` are parameters (`join`, `stringify`). The
bundler's answers are given as a `Bundler` value: the env a dev server loads by
itself, the server handles, any of which may be missing, and the error a
production build rejects with, if it fails.

The plugin's code behaves as follows:

- Command names are matched case-sensitively. `"Build"` serves.
- Array targets are not deduplicated against the baseline.
- `cacheDir` is `path.join(cache, ".vite")`, not string concatenation.
- The user's settings override `clearScreen`, `cacheDir` and `root`, because the
  defaults come before the spread.

Lower-casing is ASCII only. For the one comparison the plugin makes, this gives
the same answer as JavaScript's full `toLowerCase`: no non-ASCII character
lower-cases to `e`, `s`, `2` or `0`.

## Model

| member | source | states |
|---|---|---|
| `Ascii.ToLower` | src/index.ts:39 | the result has the input's length, and each character is the ASCII lower-case form of the input character at the same position |
| `Targets.MergeTarget` | src/index.ts:33-55 | the merged list is never empty and starts with "es2020"; every later entry is one of the user's own targets |
| `Targets.CollectTargets` | src/index.ts:33-43 | pushing the user's target(s) onto `["es2020"]` produces exactly the merged list |
| `Targets.BaselineIsLowerCase` | src/index.ts:39 | "es2020" is its own lower-case form, so comparing the lower-cased target with it is a case-insensitive comparison |
| `Targets.MergeWithoutUsableTarget` | src/index.ts:33-55 | with no target, no options object, or a target that is neither a string nor an array, the list is exactly `["es2020"]` |
| `Targets.MergeScalarBaseline` | src/index.ts:38-42 | a string equal to "es2020" in any letter case yields exactly `["es2020"]`, with no duplicate |
| `Targets.MergeScalarOther` | src/index.ts:38-42 | any other string `t` yields exactly `["es2020", t]`, with `t` in its original case |
| `Targets.MergeArray` | src/index.ts:35-37 | an array `L` yields `["es2020"] + L`: order kept, nothing removed, length one more than `L` |
| `Targets.MergeKeepsUserTargets` | src/index.ts:33-43 | every user target appears in the list, except a single string equal to the baseline ignoring case |
| `Targets.MergeBaselineCount` | src/index.ts:33-55 | the baseline occurs exactly once for a scalar or missing target; for an array, once more than the array already holds it |
| `Config.Resolve` | src/index.ts:57-78 | the user's `clearScreen`, `cacheDir` and `root` win over the defaults false, `join(cache, ".vite")` and the project root; `define` and unnamed options pass through; every other `build`, `optimizeDeps` and `esbuildOptions` option is kept, and none is added where the user set none; both targets are replaced by their merged lists |
| `Config.ResolveWithoutUserConfig` | src/index.ts:57-78 | with no user settings, the configuration is exactly the three defaults plus the baseline-only target lists; a missing `vite` key and `{}` give the same configuration |
| `Config.ResolveUserOverridesDefaults` | src/index.ts:57-64 | each of `clearScreen`, `cacheDir` and `root` that the user sets keeps the user's value, whichever of the others are set |
| `Config.ResolveTargetsAgree` | src/index.ts:45-55 | the dependency optimizer's target list follows the same rule as the build's |
| `Config.ResolveTestProjects` | test/project.test.ts:46-71 | the test projects' targets `"es2020"`, `"es2022"` and `["chrome58", "edge16"]` resolve, for both the build and the dependency optimizer, to `["es2020"]`, `["es2020", "es2022"]` and `["es2020", "chrome58", "edge16"]` |
| `Config.ResolveTwiceDuplicatesBaseline` | src/index.ts:35-37 | resolving an already resolved configuration gives `["es2020", "es2020"]`, so resolution is not idempotent and must start from the user's settings |
| `Overrides.DefineKeyInverse` | src/index.ts:112 | the env key can be read back from its define key, so distinct env keys never share a define key |
| `Overrides.EnvDefines` | src/index.ts:110-113 | every env key `k` gives the define `import.meta.env.k`, mapped to the JSON text of its value; every define key comes from an env key |
| `Overrides.ImportReplacements` | src/index.ts:110-113 | filling the dictionary one entry at a time produces exactly those substitutions |
| `Overrides.WithDefines` | src/index.ts:115-121 | the define keys are the old keys plus the substitution keys; substitutions win; other defines keep their values; every other option is unchanged |
| `Overrides.BuildConfigDefines` | src/index.ts:109-121 | in the build configuration, each env entry's define holds its JSON text; every configured define not produced from the env keeps its value; nothing but `define` changes |
| `Overrides.BuildConfigWithoutEnv` | src/index.ts:115-121 | with no overrides the build sees the configured defines unchanged; an absent `define` becomes `{}` |
| `Tasks.Route` | src/index.ts:146-165 | the task is build exactly for "build", preview exactly for "preview", and serve for everything else, including no command |
| `Tasks.WaitUntilClosed` | src/index.ts:169-182 | a missing handle rejects at once with "Server not available"; a present one suspends on that handle alone |
| `Tasks.AwaitBoth` | src/index.ts:163 | joining two waits rejects if and only if one of them rejects, with the first rejection; otherwise it waits on the handles of both |
| `Tasks.BuildCommandOnlyBuilds` | src/index.ts:147-149 | `vite build` runs only the build task, and its bundler calls are exactly one build whose defines carry the env |
| `Tasks.PreviewBuildsFirst` | src/index.ts:131-155 | `vite preview` runs the build task with the same env; its bundler calls are exactly that build, then the preview server's start unless the build rejected; no dev server is created |
| `Tasks.FailedBuildStopsPreview` | src/index.ts:131-134 | a rejected build fails `vite build` and `vite preview` with the build's error, and no preview server is started |
| `Tasks.OtherCommandsServe` | src/index.ts:156-164 | any other command, or none, runs only the serve task, and its one bundler call creates a dev server |
| `Tasks.ServeWaitsOnBoth` | src/index.ts:156-182 | serving rejects with "Server not available" if and only if the listener or the socket transport is missing; otherwise it waits on both, listener first |
| `Tasks.DevServer.InjectEnv` | src/index.ts:91-93 | afterwards every override key holds its override value, and every other key of the server's env is unchanged |
| `Tasks.Host.ExtendConfig` | src/index.ts:30-79 | builds both target lists by pushing and assigns `config.vite` the resolved configuration |
| `Tasks.Host.CreateDevServer` | src/index.ts:89 | the bundler's `createServer` is called with `config.vite` and yields a server carrying the bundler's loaded env and handles |
| `Tasks.Host.RunBundler` | src/index.ts:115 | the bundler's `build` is called once with the given configuration, and yields the bundle or rejects with the bundler's error |
| `Tasks.Host.StartPreviewServer` | src/index.ts:134 | the bundler's `preview` is called with `config.vite` |
| `Tasks.Host.ViteServe` | src/index.ts:88-100 | the dev server's env is the loaded env with every override written over it; the calls are create, listen, print URLs |
| `Tasks.Host.ViteBuild` | src/index.ts:109-122 | the build runs once, on `config.vite` with the env's substitutions merged into `define`; its rejection is passed on |
| `Tasks.Host.VitePreview` | src/index.ts:131-139 | the build task runs with the same env and completes before the preview server starts; a rejected build rejects the task and no preview server starts |
| `Tasks.Host.Vite` | src/index.ts:145-166 | the calls and the result are those the routed task prescribes |

## Left out

- The bundler's `createServer`, `listen`, `printUrls`, `build` and `preview` are external. They appear only as recorded calls. Their outputs (the bundle, the servers' handles, the env a dev server loads) are given, not computed.
- Of the bundler's rejections, only a failing `build` is modelled. It is passed on, and it stops `vite:preview` before `preview` is called. A rejecting `createServer`, `listen` or `preview` is not modelled: in the model those calls always succeed.
- The Hardhat task machinery is not modelled: `extendConfig`, `subtask`, `task`, `addOptionalParam` and `types.json`. `hre.run` is a recorded `RunTask` call followed by the plugin's own task. Replacing a subtask, as one test does, is not modelled. An `env` left out by the caller is passed as the empty map, which is the parameter's default.
- Tasks.WaitUntilClosed: only the missing-handle rejection is modelled. A present handle is "awaiting". Settling on the `close` and `error` events is event-emitter and promise behaviour outside the plugin.
- Tasks.AwaitBoth: models `Promise.all` only on waits that have already rejected or are still pending. Rejections that arrive later, in some order, are concurrency and are not modelled.
- `JSON.stringify` and `path.join` are parameters. JSON object key order cannot be recovered from a map, so the serialiser cannot be written here.
- A configuration key set explicitly to `undefined` counts as not set. In JavaScript, such a key in the user's settings overrides the default with `undefined`.
- JavaScript truthiness of non-object `build` or `esbuildOptions` values is not modelled, and target arrays hold only strings. These follow from typing the configuration as a record.
- The `rest` maps are not required to avoid the named keys.
- JSON numbers are integers.
- Tasks.DevServer.InjectEnv: the server's env object is a map, so an override with the own key `"__proto__"` (which `JSON.parse` can produce) is stored like any other key. In JavaScript that assignment goes to the prototype setter instead. It stores no key, and an object value replaces the env's prototype.
- `Object.entries` order is not modelled. The keys are distinct, so the order cannot change the resulting maps.
- The module-augmentation type declarations are typing only. The plugin name and version come from `package.json`, which is not part of this model, so the rejection carries only its message.
