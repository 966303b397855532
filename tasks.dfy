/** The plugin's tasks: `vite:serve`, `vite:build`, `vite:preview` and the
    `vite` command that picks one of them. The bundler itself is outside the
    model: its calls are recorded, in order, in the host's trace, and what it
    hands back (the env it loaded, the server handles) is given as a
    `Bundler` value. */
module Tasks {
  import opened Wrappers
  import opened Targets
  import opened Config
  import opened Overrides

  datatype TaskName = ServeTask | BuildTask | PreviewTask

  /** The `vite` command's switch: "build" and "preview" pick those tasks,
      anything else, including no command, "serve" and "dev", serves. The
      match is case-sensitive. */
  function Route(command: Option<string>): (task: TaskName)
    ensures task == BuildTask <==> command == Some("build")
    ensures task == PreviewTask <==> command == Some("preview")
    ensures task == ServeTask <==> command != Some("build") && command != Some("preview")
  {
    if command == Some("build") then BuildTask
    else if command == Some("preview") then PreviewTask
    else ServeTask
  }

  /** An event-emitting server resource (HTTP listener or socket transport). */
  datatype Handle = Handle(id: nat)

  /** What the bundler hands back: the env a dev server loads by itself, the
      handles its servers expose (a handle may be missing), and the error a
      production build rejects with, if it fails. */
  datatype Bundler = Bundler(loadedEnv: Env, devHttp: Option<Handle>, devWs: Option<Handle>,
                             previewHttp: Option<Handle>, buildError: Option<string>)

  /** A call the plugin makes, to the host's task runner or to the bundler. */
  datatype Event =
    | RunTask(task: TaskName, env: Env)
    | CreateServer(config: InlineConfig)
    | Listen
    | PrintUrls
    | Bundle(config: InlineConfig)
    | StartPreview(config: InlineConfig)

  predicate IsBundlerCall(e: Event) {
    e.CreateServer? || e.Bundle? || e.StartPreview?
  }

  /** The bundle the bundler built from a configuration. */
  datatype BuildOutput = BuildOutput(builtFrom: InlineConfig)

  /** An awaited call that either yields a value or rejects with an error. */
  datatype Outcome<T> = Done(value: T) | Failed(error: string)

  /** The bundler calls of a trace, in order. */
  function BundlerCalls(t: seq<Event>): seq<Event> {
    if t == [] then []
    else (if IsBundlerCall(t[0]) then [t[0]] else []) + BundlerCalls(t[1..])
  }

  lemma {:induction false} BundlerCallsAppend(a: seq<Event>, b: seq<Event>)
    ensures BundlerCalls(a + b) == BundlerCalls(a) + BundlerCalls(b)
  {
    if a == [] {
      assert a + b == b;
    } else {
      assert (a + b)[1..] == a[1..] + b;
      BundlerCallsAppend(a[1..], b);
    }
  }

  /** How the `vite` command ends: with a build's output, suspended until
      every listed handle closes, or rejected. */
  datatype Completion = Built(output: BuildOutput) | Awaiting(handles: seq<Handle>) | Rejected(message: string)

  const ServerNotAvailable: string := "Server not available"

  /** Waiting on a handle that is not there fails at once; otherwise the wait
      is on that handle alone. */
  function WaitUntilClosed(h: Option<Handle>): (c: Completion)
    ensures c.Rejected? <==> h.None?
    ensures c.Rejected? ==> c.message == ServerNotAvailable
    ensures c.Awaiting? ==> c.handles == [h.value]
  {
    match h
    case None => Rejected(ServerNotAvailable)
    case Some(handle) => Awaiting([handle])
  }

  /** `Promise.all` of two waits: it fails with the first failure and
      otherwise waits on every handle of both. */
  function AwaitBoth(a: Completion, b: Completion): (c: Completion)
    requires !a.Built? && !b.Built?
    ensures c.Rejected? <==> a.Rejected? || b.Rejected?
    ensures a.Rejected? ==> c == a
    ensures !a.Rejected? && b.Rejected? ==> c == b
    ensures c.Awaiting? ==> c.handles == a.handles + b.handles
  {
    if a.Rejected? then a
    else if b.Rejected? then b
    else Awaiting(a.handles + b.handles)
  }

  /** The calls of `vite:serve`. */
  function ServeEffects(config: InlineConfig): seq<Event> {
    [CreateServer(config), Listen, PrintUrls]
  }

  /** The calls of `vite:build`. */
  function BuildEffects(config: InlineConfig, env: Env, stringify: Json -> string): seq<Event> {
    [Bundle(BuildConfig(config, env, stringify))]
  }

  /** The calls of `vite:preview`: the build task with the same env, then,
      unless the build rejected, the preview server. */
  function PreviewEffects(config: InlineConfig, env: Env, stringify: Json -> string, bundler: Bundler): seq<Event> {
    [RunTask(BuildTask, env)] + BuildEffects(config, env, stringify) +
      if bundler.buildError.Some? then [] else [StartPreview(config), PrintUrls]
  }

  /** The calls of `vite <command>`. */
  function ViteEffects(command: Option<string>, config: InlineConfig, env: Env,
                       stringify: Json -> string, bundler: Bundler): seq<Event> {
    var task := Route(command);
    [RunTask(task, env)] +
      match task
      case BuildTask => BuildEffects(config, env, stringify)
      case PreviewTask => PreviewEffects(config, env, stringify, bundler)
      case ServeTask => ServeEffects(config)
  }

  /** How `vite <command>` ends. */
  function ViteCompletion(command: Option<string>, config: InlineConfig, env: Env,
                          stringify: Json -> string, bundler: Bundler): Completion
  {
    match Route(command)
    case BuildTask =>
      if bundler.buildError.Some? then Rejected(bundler.buildError.value)
      else Built(BuildOutput(BuildConfig(config, env, stringify)))
    case PreviewTask =>
      if bundler.buildError.Some? then Rejected(bundler.buildError.value)
      else WaitUntilClosed(bundler.previewHttp)
    case ServeTask => AwaitBoth(WaitUntilClosed(bundler.devHttp), WaitUntilClosed(bundler.devWs))
  }

  /** `vite build` runs only the build task, and its one bundler call is a
      build whose defines carry the env. */
  lemma BuildCommandOnlyBuilds(config: InlineConfig, env: Env, stringify: Json -> string, bundler: Bundler)
    ensures var t := ViteEffects(Some("build"), config, env, stringify, bundler);
      && BundlerCalls(t) == [Bundle(BuildConfig(config, env, stringify))]
      && forall i :: 0 <= i < |t| && t[i].RunTask? ==> t[i] == RunTask(BuildTask, env)
  {
    var t := ViteEffects(Some("build"), config, env, stringify, bundler);
    assert t == [RunTask(BuildTask, env)] + [Bundle(BuildConfig(config, env, stringify))];
    BundlerCallsAppend([RunTask(BuildTask, env)], [Bundle(BuildConfig(config, env, stringify))]);
  }

  /** `vite preview` runs the build task with the same env; its bundler calls
      are that build and then, only if the build did not reject, the preview
      server; it never creates a dev server. */
  lemma PreviewBuildsFirst(config: InlineConfig, env: Env, stringify: Json -> string, bundler: Bundler)
    ensures var t := ViteEffects(Some("preview"), config, env, stringify, bundler);
      && RunTask(BuildTask, env) in t
      && BundlerCalls(t) == [Bundle(BuildConfig(config, env, stringify))] +
                            (if bundler.buildError.Some? then [] else [StartPreview(config)])
  {
    var t := ViteEffects(Some("preview"), config, env, stringify, bundler);
    var b := Bundle(BuildConfig(config, env, stringify));
    var tail: seq<Event> := if bundler.buildError.Some? then [] else [StartPreview(config), PrintUrls];
    assert t == [RunTask(PreviewTask, env), RunTask(BuildTask, env), b] + tail;
    PreviewShapeCalls(env, b, config, bundler.buildError.Some?);
  }

  lemma PreviewShapeCalls(env: Env, b: Event, config: InlineConfig, failed: bool)
    requires b.Bundle?
    ensures BundlerCalls([RunTask(PreviewTask, env), RunTask(BuildTask, env), b] +
                         (if failed then [] else [StartPreview(config), PrintUrls]))
         == [b] + (if failed then [] else [StartPreview(config)])
  {
    var head := [RunTask(PreviewTask, env), RunTask(BuildTask, env), b];
    BundlerCallsAppend([RunTask(PreviewTask, env)], [RunTask(BuildTask, env), b]);
    BundlerCallsAppend([RunTask(BuildTask, env)], [b]);
    assert head == [RunTask(PreviewTask, env)] + ([RunTask(BuildTask, env)] + [b]);
    if failed {
      assert head + [] == head;
    } else {
      BundlerCallsAppend(head, [StartPreview(config), PrintUrls]);
      BundlerCallsAppend([StartPreview(config)], [PrintUrls]);
    }
  }

  /** A build that rejects fails `vite build` and `vite preview` with its
      error, and no preview server is started. */
  lemma FailedBuildStopsPreview(config: InlineConfig, env: Env, stringify: Json -> string, bundler: Bundler)
    requires bundler.buildError.Some?
    ensures ViteCompletion(Some("build"), config, env, stringify, bundler) == Rejected(bundler.buildError.value)
    ensures ViteCompletion(Some("preview"), config, env, stringify, bundler) == Rejected(bundler.buildError.value)
    ensures StartPreview(config) !in ViteEffects(Some("preview"), config, env, stringify, bundler)
  {
    PreviewBuildsFirst(config, env, stringify, bundler);
  }

  /** Every command other than "build" and "preview", and no command at all,
      runs the serve task, whose one bundler call creates a dev server. */
  lemma OtherCommandsServe(command: Option<string>, config: InlineConfig, env: Env,
                           stringify: Json -> string, bundler: Bundler)
    requires command != Some("build") && command != Some("preview")
    ensures var t := ViteEffects(command, config, env, stringify, bundler);
      && BundlerCalls(t) == [CreateServer(config)]
      && forall i :: 0 <= i < |t| && t[i].RunTask? ==> t[i] == RunTask(ServeTask, env)
  {
    var t := ViteEffects(command, config, env, stringify, bundler);
    assert t == [RunTask(ServeTask, env)] + [CreateServer(config)] + [Listen, PrintUrls];
    BundlerCallsAppend([RunTask(ServeTask, env)] + [CreateServer(config)], [Listen, PrintUrls]);
    BundlerCallsAppend([RunTask(ServeTask, env)], [CreateServer(config)]);
    BundlerCallsAppend([Listen], [PrintUrls]);
  }

  /** A dev server without a listener or without a socket transport makes
      `vite` fail with "Server not available"; with both it waits on both. */
  lemma ServeWaitsOnBoth(command: Option<string>, config: InlineConfig, env: Env,
                         stringify: Json -> string, bundler: Bundler)
    requires Route(command) == ServeTask
    ensures var c := ViteCompletion(command, config, env, stringify, bundler);
      && (c.Rejected? <==> bundler.devHttp.None? || bundler.devWs.None?)
      && (c.Rejected? ==> c.message == ServerNotAvailable)
      && (c.Awaiting? ==> c.handles == [bundler.devHttp.value, bundler.devWs.value])
  {
  }

  /** A running dev server; its env map is updated in place. */
  class DevServer {
    const config: InlineConfig
    const httpServer: Option<Handle>
    const ws: Option<Handle>
    var env: Env

    constructor (config: InlineConfig, env: Env, httpServer: Option<Handle>, ws: Option<Handle>)
      ensures this.config == config && this.env == env
      ensures this.httpServer == httpServer && this.ws == ws
    {
      this.config := config;
      this.env := env;
      this.httpServer := httpServer;
      this.ws := ws;
    }

    /** Writes every override into the server's env: overrides win, every
        other key keeps its value. */
    method InjectEnv(overrides: Env)
      modifies this`env
      ensures env == old(env) + overrides
      ensures forall k :: k in overrides ==> k in env && env[k] == overrides[k]
      ensures forall k :: k !in overrides ==> (k in env <==> k in old(env)) && (k in env ==> env[k] == old(env)[k])
    {
      var pending := overrides.Keys;
      while pending != {}
        invariant pending <= overrides.Keys
        invariant env == old(env) + (overrides - pending)
        decreases pending
      {
        var k :| k in pending;
        env := env[k := overrides[k]];
        pending := pending - {k};
        assert env == old(env) + (overrides - pending);
      }
      assert overrides - pending == overrides;
    }
  }

  /** A running preview server. */
  datatype PreviewServer = PreviewServer(config: InlineConfig, httpServer: Option<Handle>)

  /** The host runtime as the plugin sees it: its paths, the published
      `config.vite`, and the calls made so far. */
  class Host {
    const paths: Paths
    const join: (string, string) -> string
    const stringify: Json -> string
    const bundler: Bundler
    var vite: InlineConfig
    var trace: seq<Event>

    constructor (paths: Paths, join: (string, string) -> string, stringify: Json -> string, bundler: Bundler)
      ensures this.paths == paths && this.join == join && this.stringify == stringify && this.bundler == bundler
      ensures vite == NoConfig && trace == []
    {
      this.paths := paths;
      this.join := join;
      this.stringify := stringify;
      this.bundler := bundler;
      vite := NoConfig;
      trace := [];
    }

    /** The config-extension hook: builds both target lists and publishes the
        resolved configuration as `config.vite`. */
    method ExtendConfig(user: Option<InlineConfig>)
      modifies this`vite
      ensures vite == Resolve(paths, user, join)
    {
      var buildTarget := CollectTargets(UserBuildTarget(user));
      var esbuildTarget := CollectTargets(UserEsbuildTarget(user));
      vite := Layer(paths, user, join, buildTarget, esbuildTarget);
    }

    /** The bundler's `createServer`. */
    method CreateDevServer() returns (server: DevServer)
      modifies this`trace
      ensures fresh(server)
      ensures server.config == vite && server.env == bundler.loadedEnv
      ensures server.httpServer == bundler.devHttp && server.ws == bundler.devWs
      ensures trace == old(trace) + [CreateServer(vite)]
    {
      server := new DevServer(vite, bundler.loadedEnv, bundler.devHttp, bundler.devWs);
      trace := trace + [CreateServer(vite)];
    }

    /** The bundler's `build`: it yields the bundle, or rejects with the bundler's error. */
    method RunBundler(config: InlineConfig) returns (output: Outcome<BuildOutput>)
      modifies this`trace
      ensures output == if bundler.buildError.Some? then Failed(bundler.buildError.value) else Done(BuildOutput(config))
      ensures trace == old(trace) + [Bundle(config)]
    {
      if bundler.buildError.Some? {
        output := Failed(bundler.buildError.value);
      } else {
        output := Done(BuildOutput(config));
      }
      trace := trace + [Bundle(config)];
    }

    /** The bundler's `preview`. */
    method StartPreviewServer() returns (server: PreviewServer)
      modifies this`trace
      ensures server == PreviewServer(vite, bundler.previewHttp)
      ensures trace == old(trace) + [StartPreview(vite)]
    {
      server := PreviewServer(vite, bundler.previewHttp);
      trace := trace + [StartPreview(vite)];
    }

    /** `vite:serve`: a dev server whose env holds every override. */
    method ViteServe(env: Env) returns (server: DevServer)
      modifies this`trace
      ensures fresh(server)
      ensures server.config == vite && server.env == bundler.loadedEnv + env
      ensures server.httpServer == bundler.devHttp && server.ws == bundler.devWs
      ensures trace == old(trace) + ServeEffects(vite)
    {
      server := CreateDevServer();
      server.InjectEnv(env);
      trace := trace + [Listen];
      trace := trace + [PrintUrls];
    }

    /** `vite:build`: a production build with the overrides as defines. */
    method ViteBuild(env: Env) returns (output: Outcome<BuildOutput>)
      modifies this`trace
      ensures output == if bundler.buildError.Some? then Failed(bundler.buildError.value)
                        else Done(BuildOutput(BuildConfig(vite, env, stringify)))
      ensures trace == old(trace) + BuildEffects(vite, env, stringify)
    {
      var replacements := ImportReplacements(env, stringify);
      output := RunBundler(WithDefines(vite, replacements));
    }

    /** `vite:preview`: the build task with the same env, then a preview
        server; a rejected build rejects the task before the server starts. */
    method VitePreview(env: Env) returns (server: Outcome<PreviewServer>)
      modifies this`trace
      ensures server == if bundler.buildError.Some? then Failed(bundler.buildError.value)
                        else Done(PreviewServer(vite, bundler.previewHttp))
      ensures trace == old(trace) + PreviewEffects(vite, env, stringify, bundler)
    {
      trace := trace + [RunTask(BuildTask, env)];
      var built := ViteBuild(env);
      if built.Failed? {
        server := Failed(built.error);
        return;
      }
      var started := StartPreviewServer();
      server := Done(started);
      trace := trace + [PrintUrls];
    }

    /** `vite [command]`. */
    method Vite(command: Option<string>, env: Env) returns (c: Completion)
      modifies this`trace
      ensures trace == old(trace) + ViteEffects(command, vite, env, stringify, bundler)
      ensures c == ViteCompletion(command, vite, env, stringify, bundler)
    {
      var task := Route(command);
      trace := trace + [RunTask(task, env)];
      match task
      case BuildTask =>
        var output := ViteBuild(env);
        c := if output.Failed? then Rejected(output.error) else Built(output.value);
      case PreviewTask =>
        var server := VitePreview(env);
        c := if server.Failed? then Rejected(server.error) else WaitUntilClosed(server.value.httpServer);
      case ServeTask =>
        var server := ViteServe(env);
        c := AwaitBoth(WaitUntilClosed(server.httpServer), WaitUntilClosed(server.ws));
    }
  }
}
