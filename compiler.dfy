/** `Compiler` and `webpack()` (webpack.js): the compiler owns a `run` and a `done`
    hook, `webpack()` lets every configured plugin tap them, and `run()` broadcasts
    `run`, builds a fresh `Compilation`, and broadcasts `done` from its callback. */
module WebpackCompiler {
  import opened Wrappers
  import opened Hooks
  import opened Loaders
  import opened Plugins
  import opened Config
  import opened WebpackCompilation

  /** `this.hooks = { run, done }`. */
  datatype HookSet = HookSet(run: SyncHook, done: SyncHook)

  /** The hook a plugin's `apply` taps. */
  function HookOf(hooks: HookSet, name: HookName): SyncHook
  {
    match name
    case RunHook => hooks.run
    case DoneHook => hooks.done
  }

  class Compiler {
    const options: Options
    const host: Host
    const hooks: HookSet
    /** The plugins whose `apply` has run against this compiler, in call order. */
    ghost var applied: seq<Plugin>

    ghost predicate Valid()
      reads this
    {
      hooks.run != hooks.done
    }

    /** `new Compiler(webpackOptions)`: keeps the options as given and creates two
        hooks with no taps. */
    constructor (options: Options, host: Host)
      ensures Valid()
      ensures this.options == options && this.host == host
      ensures fresh(hooks.run) && fresh(hooks.done)
      ensures hooks.run.taps == [] && hooks.done.taps == []
      ensures applied == []
    {
      this.options := options;
      this.host := host;
      var run := new SyncHook();
      var done := new SyncHook();
      hooks := HookSet(run, done);
      applied := [];
    }

    /** `compile(callback)`: a new `Compilation` of the same options builds with
        the callback. */
    method Compile(callback: Callback, log: EventLog) returns (outcome: Outcome<Failure>, compilation: Compilation)
      modifies log
      ensures fresh(compilation)
      ensures compilation.options == options && compilation.host == host
      ensures var s := BuildOf(options, host);
        && compilation.fileDependencies == s.fileDependencies
        && compilation.modules == s.modules
        && outcome == (if s.failure.Some? then Fail(s.failure.value) else Pass)
      ensures compilation.chunks == [] && compilation.assets == []
      ensures log.events == old(log.events) + (if outcome.Pass? then Broadcast(callback.hook.taps, []) else [])
    {
      compilation := new Compilation(options, host);
      outcome := compilation.Build(callback, log);
    }

    /** `run(callBack)`: broadcasts `run`, then compiles with `onCompiled`, which
        broadcasts `done`. `callBack` is never invoked. Taps are left as they are. */
    method Run(callBack: Listener, log: EventLog) returns (outcome: Outcome<Failure>, ghost compilation: Compilation)
      requires Valid()
      modifies log
      ensures fresh(compilation) && compilation.options == options
      ensures var s := BuildOf(options, host);
        && compilation.fileDependencies == s.fileDependencies
        && compilation.modules == s.modules
        && outcome == (if s.failure.Some? then Fail(s.failure.value) else Pass)
      ensures log.events == old(log.events)
        + Broadcast(hooks.run.taps, [])
        + (if outcome.Pass? then Broadcast(hooks.done.taps, []) else [])
      ensures RunOrdered(log.events[|old(log.events)|..], hooks.run.taps, hooks.done.taps, outcome.Pass?)
    {
      hooks.run.Call([], log);
      var onCompiled := Broadcasts(hooks.done);
      var c;
      outcome, c := Compile(onCompiled, log);
      compilation := c;
      RunTrace(hooks.run.taps, hooks.done.taps, outcome.Pass?);
    }
  }

  /** `plugin.apply(compiler)`: the plugin taps its listener on its hook. */
  method ApplyPlugin(plugin: Plugin, compiler: Compiler)
    requires compiler.Valid()
    modifies compiler, compiler.hooks.run, compiler.hooks.done
    ensures compiler.Valid()
    ensures compiler.applied == old(compiler.applied) + [plugin]
    ensures var tapped := HookOf(compiler.hooks, plugin.hook);
      tapped.taps == old(tapped.taps) + [Subscription(plugin.name, plugin.listener)]
    ensures var other := HookOf(compiler.hooks, if plugin.hook == RunHook then DoneHook else RunHook);
      other.taps == old(other.taps)
  {
    HookOf(compiler.hooks, plugin.hook).Tap(plugin.name, plugin.listener);
    compiler.applied := compiler.applied + [plugin];
  }

  /** `webpack(webpackOptions)`: creates the compiler and calls `apply` on every
      plugin, once each and in list order, before returning it; with no `plugins`
      the `for...of` throws. */
  method Webpack(options: Options, host: Host) returns (r: Result<Compiler, Failure>)
    ensures r.Ok? <==> options.plugins.Some?
    ensures r.Err? ==> r.error == PluginsNotIterable
    ensures r.Ok? ==>
      var compiler := r.value;
      && fresh(compiler) && fresh(compiler.hooks.run) && fresh(compiler.hooks.done)
      && compiler.Valid()
      && compiler.options == options && compiler.host == host
      && compiler.applied == options.plugins.value
      && compiler.hooks.run.taps == TapsFor(options.plugins.value, RunHook)
      && compiler.hooks.done.taps == TapsFor(options.plugins.value, DoneHook)
  {
    var compiler := new Compiler(options, host);
    if options.plugins.None? {
      return Err(PluginsNotIterable);
    }
    var plugins := options.plugins.value;
    var i := 0;
    while i < |plugins|
      invariant 0 <= i <= |plugins|
      invariant compiler.Valid()
      invariant fresh(compiler.hooks.run) && fresh(compiler.hooks.done)
      invariant compiler.options == options && compiler.host == host
      invariant compiler.applied == plugins[..i]
      invariant compiler.hooks.run.taps == TapsFor(plugins[..i], RunHook)
      invariant compiler.hooks.done.taps == TapsFor(plugins[..i], DoneHook)
    {
      assert plugins[..i + 1][..i] == plugins[..i];
      ApplyPlugin(plugins[i], compiler);
      i := i + 1;
    }
    assert plugins[..i] == plugins;
    return Ok(compiler);
  }

  /** The events of one `run()`: every `run` tap fires, in tap order, strictly
      before any `done` tap, and the `done` taps fire once each, only when the
      build completed. */
  ghost predicate RunOrdered(trace: seq<Event>, runTaps: seq<Subscription>, doneTaps: seq<Subscription>, completed: bool)
  {
    && |trace| == |runTaps| + (if completed then |doneTaps| else 0)
    && (forall i :: 0 <= i < |runTaps| ==> trace[i].name == runTaps[i].name)
    && (forall j :: |runTaps| <= j < |trace| ==> trace[j].name == doneTaps[j - |runTaps|].name)
  }

  /** The `run` broadcast followed, on completion, by the `done` broadcast is
      ordered as `RunOrdered` says. `Compiler.Run` states this of the events it adds. */
  lemma RunTrace(runTaps: seq<Subscription>, doneTaps: seq<Subscription>, completed: bool)
    ensures RunOrdered(Broadcast(runTaps, []) + (if completed then Broadcast(doneTaps, []) else []), runTaps, doneTaps, completed)
  {
  }

  /** The configuration of webpack.config.js: entry "./src/main.js", one `/\.js$/`
      rule using `[loader1, loader2]`, and the two plugins of webpackPlugins.js. */
  function DemoOptions(loader1: Loader, loader2: Loader): Options
  {
    Options(
      Single("./src/main.js"),
      Some(ModuleOptions(Some([Rule(Pattern("\\.js$"), Some([loader1, loader2]))]))),
      Some([WebpackRunPlugin(), WebpackDonePlugin()]))
  }

  /** Running that configuration on a host where the entry file exists logs the run
      plugin's message and then the done plugin's, and builds the one module
      "./" + relative(baseDir, join(baseDir, "./src/main.js")) named "main". */
  method RunDemo(host: Host, loader1: Loader, loader2: Loader) returns (log: EventLog, ghost compilation: Compilation)
    requires host.readFile(EntryPath(host, "./src/main.js")).Some?
    ensures log.events == [
      Fired("WebpackRunPlugin", [], WebpackRunPlugin().listener([])),
      Fired("WebpackDonePlugin", [], WebpackDonePlugin().listener([]))]
    ensures compilation.fileDependencies == [EntryPath(host, "./src/main.js")]
    ensures compilation.modules == [Module(ModuleId(host, EntryPath(host, "./src/main.js")), ["main"], [], "")]
  {
    var options := DemoOptions(loader1, loader2);
    var created := Webpack(options, host);
    var compiler := created.value;
    assert [WebpackRunPlugin(), WebpackDonePlugin()][..1] == [WebpackRunPlugin()];
    log := new EventLog();
    var outcome;
    outcome, compilation := compiler.Run(_ => "", log);
    assert NormalizeEntry(options.entry) == [("main", "./src/main.js")];
    BuiltModulesFollowEntries(options, host);
    IntendedBuildCompletes(options, host);
  }

  /** Each `run()` builds a fresh `Compilation`: two runs of one compiler yield
      two distinct compilations with equal contents, none holding the other's
      modules or files. */
  method RunTwice(compiler: Compiler, log: EventLog) returns (ghost first: Compilation, ghost second: Compilation)
    requires compiler.Valid()
    modifies log
    ensures first != second
    ensures first.modules == second.modules == BuildOf(compiler.options, compiler.host).modules
    ensures first.fileDependencies == second.fileDependencies == BuildOf(compiler.options, compiler.host).fileDependencies
  {
    var outcome;
    outcome, first := compiler.Run(_ => "", log);
    outcome, second := compiler.Run(_ => "", log);
  }
}
