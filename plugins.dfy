/** Plugins as this core uses them (webpackPlugins.js): an object whose `apply(compiler)`
    taps one labelled callback on the compiler's `run` or `done` hook. */
module Plugins {
  import opened Hooks

  /** The two hooks a `Compiler` owns. */
  datatype HookName = RunHook | DoneHook

  /** A plugin whose `apply` registers `listener` under `name` on hook `hook`. */
  datatype Plugin = Plugin(hook: HookName, name: string, listener: Listener)

  /** `WebpackRunPlugin`: taps "WebpackRunPlugin" on `run`; it logs "开始编译". */
  function WebpackRunPlugin(): Plugin
  {
    Plugin(RunHook, "WebpackRunPlugin", _ => "\U{5F00}\U{59CB}\U{7F16}\U{8BD1}")
  }

  /** `WebpackDonePlugin`: taps "WebpackDonePlugin" on `done`; it logs "编译结束". */
  function WebpackDonePlugin(): Plugin
  {
    Plugin(DoneHook, "WebpackDonePlugin", _ => "\U{7F16}\U{8BD1}\U{7ED3}\U{675F}")
  }

  /** The taps that applying `plugins`, in list order, leaves on hook `hook`. */
  function TapsFor(plugins: seq<Plugin>, hook: HookName): (taps: seq<Subscription>)
    ensures |taps| <= |plugins|
  {
    if plugins == [] then []
    else
      var n := |plugins| - 1;
      TapsFor(plugins[..n], hook)
        + (if plugins[n].hook == hook then [Subscription(plugins[n].name, plugins[n].listener)] else [])
  }

  /** Under this plugin type, whose `apply` taps exactly once, the two hooks
      together hold one tap per plugin. (That `apply` runs once per plugin, in
      list order, is stated by `Webpack`'s `applied` clause.) */
  lemma {:induction false} OneTapPerPlugin(plugins: seq<Plugin>)
    ensures |TapsFor(plugins, RunHook)| + |TapsFor(plugins, DoneHook)| == |plugins|
  {
    if plugins != [] {
      OneTapPerPlugin(plugins[..|plugins| - 1]);
    }
  }

  /** Applying `a` and then `b` taps `a`'s listeners before `b`'s. */
  lemma {:induction false} TapsForAppend(a: seq<Plugin>, b: seq<Plugin>, hook: HookName)
    ensures TapsFor(a + b, hook) == TapsFor(a, hook) + TapsFor(b, hook)
    decreases |b|
  {
    if b == [] {
      assert a + b == a;
    } else {
      var n := |b| - 1;
      assert (a + b)[..|a| + n] == a + b[..n];
      TapsForAppend(a, b[..n], hook);
    }
  }

  /** Every tap on `hook` is the name and listener of a listed plugin that targets
      `hook`. (Their relative order is `TapsForAppend`'s.) */
  lemma {:induction false} TapsForSound(plugins: seq<Plugin>, hook: HookName, i: nat)
    requires i < |TapsFor(plugins, hook)|
    ensures exists j ::
              && 0 <= j < |plugins| && plugins[j].hook == hook
              && TapsFor(plugins, hook)[i] == Subscription(plugins[j].name, plugins[j].listener)
  {
    var n := |plugins| - 1;
    if i < |TapsFor(plugins[..n], hook)| {
      TapsForSound(plugins[..n], hook, i);
      var j :| 0 <= j < n && plugins[..n][j].hook == hook
        && TapsFor(plugins[..n], hook)[i] == Subscription(plugins[..n][j].name, plugins[..n][j].listener);
      assert plugins[j] == plugins[..n][j];
    } else {
      assert TapsFor(plugins, hook)[i] == Subscription(plugins[n].name, plugins[n].listener);
    }
  }

  /** Every listed plugin that targets `hook` leaves its tap on `hook`. */
  lemma {:induction false} TapsForComplete(plugins: seq<Plugin>, hook: HookName, j: nat)
    requires j < |plugins| && plugins[j].hook == hook
    ensures Subscription(plugins[j].name, plugins[j].listener) in TapsFor(plugins, hook)
  {
    var n := |plugins| - 1;
    if j < n {
      TapsForComplete(plugins[..n], hook, j);
      assert plugins[..n][j] == plugins[j];
    }
  }
}
