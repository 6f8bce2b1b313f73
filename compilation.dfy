/** `Compilation` (webpackCompilation.js): builds one module record per entry,
    recording each entry's file, then calls its callback. */
module WebpackCompilation {
  import opened Wrappers
  import opened Paths
  import opened Hooks
  import opened Loaders
  import opened Config

  /** What the file takes from its environment: the working directory, the file
      system read, `path.posix.join`, `path.posix.relative` and regular-expression
      matching of a path against a rule's `test`. */
  datatype Host = Host(
    cwd: string,
    readFile: string -> Option<string>,
    join: (string, string) -> string,
    relative: (string, string) -> string,
    matches: (string, Pattern) -> bool)

  /** `baseDir = toUnixPath(process.cwd())`. */
  function BaseDir(host: Host): (dir: string)
    ensures '\\' !in dir
    ensures |dir| == |host.cwd|
  {
    NoBackslashLeft(host.cwd);
    ToUnixPath(host.cwd)
  }

  /** The record `buildMoudle` returns. */
  datatype Module = Module(id: string, names: seq<string>, dependencies: seq<string>, source: string)

  /** Element types of `chunks` and `assets`, which this core never fills. */
  type Chunk
  type Asset

  /** `build`'s entry normalisation: a string entry becomes `{main: entry}`, an
      object is used as it is. */
  function NormalizeEntry(entry: EntryOption): (entries: seq<(string, string)>)
    ensures entry.Single? ==> |entries| == 1 && entries[0].0 == "main" && entries[0].1 == entry.path
    ensures entry.Keyed? ==> entries == entry.entries
  {
    match entry
    case Single(path) => [("main", path)]
    case Keyed(entries) => entries
  }

  /** `path.posix.join(baseDir, entry[entryName])`. */
  function EntryPath(host: Host, path: string): string
  {
    host.join(BaseDir(host), path)
  }

  /** `"./" + path.posix.relative(baseDir, modulePath)`. */
  function ModuleId(host: Host, modulePath: string): (id: string)
    ensures "./" <= id && id[2..] == host.relative(BaseDir(host), modulePath)
  {
    "./" + host.relative(BaseDir(host), modulePath)
  }

  /** `this.options.module.rules || []`. */
  function RulesOf(options: Options): (r: Result<seq<Rule>, Failure>)
    ensures options.moduleOptions.None? ==> r == Err(ModuleOptionsMissing)
    ensures options.moduleOptions.Some? && options.moduleOptions.value.rules.None? ==> r == Ok([])
    ensures options.moduleOptions.Some? && options.moduleOptions.value.rules.Some?
      ==> r == Ok(options.moduleOptions.value.rules.value)
  {
    match options.moduleOptions
    case None => Err(ModuleOptionsMissing)
    case Some(m) => Ok(match m.rules case None => [] case Some(rules) => rules)
  }

  /** What `buildMoudle(name, modulePath)` returns or throws, in the order the
      statements run: the read, then the rule lookup, then loader selection. */
  function ModuleOutcome(options: Options, host: Host, name: string, modulePath: string): (r: Result<Module, Failure>)
    ensures host.readFile(modulePath).None? ==> r == Err(NoSuchFile(modulePath))
    ensures host.readFile(modulePath).Some? && options.moduleOptions.None? ==> r == Err(ModuleOptionsMissing)
    ensures r.Ok? <==>
      && host.readFile(modulePath).Some?
      && RulesOf(options).Ok?
      && SelectedLoaders(RulesOf(options).value, modulePath, host.matches).Ok?
    ensures r.Ok? ==>
      && "./" <= r.value.id
      && r.value.names == [name]
      && r.value.dependencies == []
      && r.value.source == ""
  {
    match host.readFile(modulePath)
    case None => Err(NoSuchFile(modulePath))
    case Some(_) =>
      match RulesOf(options)
      case Err(e) => Err(e)
      case Ok(rules) =>
        match SelectedLoaders(rules, modulePath, host.matches)
        case Err(k) => Err(RuleUseMissing(k))
        case Ok(_) => Ok(Module(ModuleId(host, modulePath), [name], [], ""))
  }

  /** The source `buildMoudle` computes with its loaders and then drops. */
  ghost function TransformedSource(options: Options, host: Host, modulePath: string): Option<string>
  {
    match host.readFile(modulePath)
    case None => None
    case Some(raw) =>
      match RulesOf(options)
      case Err(_) => None
      case Ok(rules) =>
        match SelectedLoaders(rules, modulePath, host.matches)
        case Err(_) => None
        case Ok(loaders) => Some(ReduceRight(loaders, raw))
  }

  /** With no `module.rules`, no loader runs: the computed source is the file's
      contents, unchanged. */
  lemma NoRulesLeavesSourceUnchanged(options: Options, host: Host, modulePath: string)
    requires options.moduleOptions.Some? && options.moduleOptions.value.rules.None?
    ensures TransformedSource(options, host, modulePath) == host.readFile(modulePath)
  {
  }

  /** When the file is read and every matching rule has `use`, the computed source
      is the file's contents passed through the matching rules' loaders nested
      right to left: `l0(l1(...ln-1(raw)))` over the `use` lists in rule order. */
  lemma TransformedSourceIsNested(options: Options, host: Host, modulePath: string)
    requires host.readFile(modulePath).Some?
    requires RulesOf(options).Ok?
    requires SelectedLoaders(RulesOf(options).value, modulePath, host.matches).Ok?
    ensures TransformedSource(options, host, modulePath)
      == Some(Nested(MatchingUses(RulesOf(options).value, modulePath, host.matches), host.readFile(modulePath).value))
  {
    var rules := RulesOf(options).value;
    SelectedLoadersCharacterised(rules, modulePath, host.matches);
    ReduceRightIsNested(SelectedLoaders(rules, modulePath, host.matches).value, host.readFile(modulePath).value);
  }

  /** `buildMoudle` as a function of the entry name and the module path. */
  function Builder(options: Options, host: Host): (string, string) -> Result<Module, Failure>
  {
    (name, modulePath) => ModuleOutcome(options, host, name, modulePath)
  }

  /** The state `build` leaves: the files it recorded, the modules it pushed, and the
      error that stopped it, if one did. */
  datatype BuildState = BuildState(fileDependencies: seq<string>, modules: seq<Module>, failure: Option<Failure>)

  /** `build`'s loop over the normalised entries with module builder `build`: push
      the entry's path, build its module, push the module; a thrown error ends the
      loop with the path already pushed and no module for it. */
  function BuildEntries(entries: seq<(string, string)>, host: Host, build: (string, string) -> Result<Module, Failure>): BuildState
  {
    if entries == [] then BuildState([], [], None)
    else
      var n := |entries| - 1;
      var before := BuildEntries(entries[..n], host, build);
      if before.failure.Some? then before
      else
        var path := EntryPath(host, entries[n].1);
        match build(entries[n].0, path)
        case Err(e) => BuildState(before.fileDependencies + [path], before.modules, Some(e))
        case Ok(m) => BuildState(before.fileDependencies + [path], before.modules + [m], None)
  }

  /** What `build` does for `options`. */
  function BuildOf(options: Options, host: Host): BuildState
  {
    BuildEntries(NormalizeEntry(options.entry), host, Builder(options, host))
  }

  /** One turn of `build`'s loop, on entry `i` of a prefix that has not thrown. */
  lemma BuildEntriesStep(entries: seq<(string, string)>, i: nat, host: Host, build: (string, string) -> Result<Module, Failure>)
    requires i < |entries|
    requires BuildEntries(entries[..i], host, build).failure.None?
    ensures var before, path := BuildEntries(entries[..i], host, build), EntryPath(host, entries[i].1);
      BuildEntries(entries[..i + 1], host, build) ==
        match build(entries[i].0, path)
        case Err(e) => BuildState(before.fileDependencies + [path], before.modules, Some(e))
        case Ok(m) => BuildState(before.fileDependencies + [path], before.modules + [m], None)
  {
    assert entries[..i + 1][..i] == entries[..i];
  }

  /** Once the loop has thrown, later entries change nothing. */
  lemma {:induction false} BuildEntriesFailureSticks(entries: seq<(string, string)>, k: nat, host: Host, build: (string, string) -> Result<Module, Failure>)
    requires k <= |entries|
    requires BuildEntries(entries[..k], host, build).failure.Some?
    ensures BuildEntries(entries, host, build) == BuildEntries(entries[..k], host, build)
    decreases |entries| - k
  {
    if k < |entries| {
      assert entries[..k + 1][..k] == entries[..k];
      BuildEntriesFailureSticks(entries, k + 1, host, build);
    } else {
      assert entries[..k] == entries;
    }
  }

  /** The shape of `build`'s bookkeeping for any module builder: one path per
      entry processed, in entry order, the i-th being `join(baseDir, path_i)`; one
      module per entry that built, the i-th being what entry i built to; and when an
      entry throws, its path is recorded, its module is not, and nothing after it
      is processed. */
  lemma {:induction false} BuildEntriesShape(entries: seq<(string, string)>, host: Host, build: (string, string) -> Result<Module, Failure>)
    ensures var s := BuildEntries(entries, host, build);
      && |s.modules| <= |s.fileDependencies| <= |entries|
      && (s.failure.None? ==> |s.fileDependencies| == |entries| && |s.modules| == |entries|)
      && (s.failure.Some? ==> |s.fileDependencies| == |s.modules| + 1)
      && (forall i :: 0 <= i < |s.fileDependencies| ==> s.fileDependencies[i] == EntryPath(host, entries[i].1))
      && (forall i :: 0 <= i < |s.modules| ==> build(entries[i].0, s.fileDependencies[i]) == Ok(s.modules[i]))
      && (s.failure.Some? ==>
            build(entries[|s.modules|].0, s.fileDependencies[|s.modules|]) == Err(s.failure.value))
  {
    if entries != [] {
      var n := |entries| - 1;
      BuildEntriesShape(entries[..n], host, build);
      assert forall i :: 0 <= i < n ==> entries[..n][i] == entries[i];
    }
  }

  /** `build` completes exactly when every entry's module builds. */
  lemma {:induction false} BuildCompletesIff(entries: seq<(string, string)>, host: Host, build: (string, string) -> Result<Module, Failure>)
    ensures BuildEntries(entries, host, build).failure.None?
      <==> forall i :: 0 <= i < |entries| ==> build(entries[i].0, EntryPath(host, entries[i].1)).Ok?
  {
    if entries != [] {
      var n := |entries| - 1;
      BuildCompletesIff(entries[..n], host, build);
      assert forall i :: 0 <= i < n ==> entries[..n][i] == entries[i];
    }
  }

  /** For `buildMoudle` itself: after a completed build there is one module per
      entry, in entry order; module i is named after entry i, its id is derived
      from the i-th recorded path, and its dependencies and source are empty.
      Entries naming the same path give separate modules: nothing is
      deduplicated. */
  lemma BuiltModulesFollowEntries(options: Options, host: Host)
    ensures var entries, s := NormalizeEntry(options.entry), BuildOf(options, host);
      && |s.modules| <= |s.fileDependencies| <= |entries|
      && (s.failure.None? ==> |s.modules| == |s.fileDependencies| == |entries|)
      && forall i :: 0 <= i < |s.modules| ==>
           && s.fileDependencies[i] == EntryPath(host, entries[i].1)
           && s.modules[i] == Module(ModuleId(host, s.fileDependencies[i]), [entries[i].0], [], "")
  {
    var entries := NormalizeEntry(options.entry);
    BuildEntriesShape(entries, host, Builder(options, host));
  }

  class Compilation {
    const options: Options
    const host: Host
    var modules: seq<Module>
    var chunks: seq<Chunk>
    var assets: seq<Asset>
    var fileDependencies: seq<string>

    /** `new Compilation(webpackOptions)`: empty modules, chunks, assets and files. */
    constructor (options: Options, host: Host)
      ensures this.options == options && this.host == host
      ensures modules == [] && chunks == [] && assets == [] && fileDependencies == []
    {
      this.options := options;
      this.host := host;
      modules := [];
      chunks := [];
      assets := [];
      fileDependencies := [];
    }

    /** `buildMoudle(name, moudulePath)`: reads the file, makes the module record,
        selects the matching rules' loaders and runs them on the source, whose
        result (`transformed`) is not stored in the record. */
    method BuildModule(name: string, modulePath: string) returns (r: Result<Module, Failure>, ghost transformed: Option<string>)
      ensures r == ModuleOutcome(options, host, name, modulePath)
      ensures r.Ok? ==> r.value.names == [name] && r.value.id == ModuleId(host, modulePath) && r.value.source == ""
      ensures transformed == TransformedSource(options, host, modulePath)
    {
      var read := host.readFile(modulePath);
      if read.None? {
        return Err(NoSuchFile(modulePath)), None;
      }
      var sourceCode := read.value;
      var record := Module(ModuleId(host, modulePath), [name], [], "");
      var rulesOrError := RulesOf(options);
      if rulesOrError.Err? {
        return Err(rulesOrError.error), None;
      }
      var rules := rulesOrError.value;
      var loaders: seq<Loader> := [];
      var i := 0;
      while i < |rules|
        invariant 0 <= i <= |rules|
        invariant SelectedLoaders(rules[..i], modulePath, host.matches) == Ok(loaders)
      {
        var rule := rules[i];
        assert rules[..i + 1][..i] == rules[..i];
        if host.matches(modulePath, rule.test) {
          if rule.use.None? {
            SelectedLoadersFailureSticks(rules, i + 1, modulePath, host.matches);
            return Err(RuleUseMissing(i)), None;
          }
          loaders := loaders + rule.use.value;
        }
        i := i + 1;
      }
      assert rules[..i] == rules;
      sourceCode := ReduceRight(loaders, sourceCode);
      return Ok(record), Some(sourceCode);
    }

    /** `build(callback)`: for each normalised entry, in order, records its path in
        `fileDependencies` and pushes its module onto `modules`; then invokes the
        callback once. A thrown error stops the loop and the callback never runs. */
    method Build(callback: Callback, log: EventLog) returns (outcome: Outcome<Failure>)
      modifies this, log
      ensures var s := BuildOf(options, host);
        && fileDependencies == old(fileDependencies) + s.fileDependencies
        && modules == old(modules) + s.modules
        && outcome == (if s.failure.Some? then Fail(s.failure.value) else Pass)
      ensures chunks == old(chunks) && assets == old(assets)
      ensures log.events == old(log.events) + (if outcome.Pass? then Broadcast(callback.hook.taps, []) else [])
    {
      var entries := NormalizeEntry(options.entry);
      ghost var build := Builder(options, host);
      var i := 0;
      while i < |entries|
        invariant 0 <= i <= |entries|
        invariant BuildEntries(entries[..i], host, build).failure.None?
        invariant fileDependencies == old(fileDependencies) + BuildEntries(entries[..i], host, build).fileDependencies
        invariant modules == old(modules) + BuildEntries(entries[..i], host, build).modules
        invariant chunks == old(chunks) && assets == old(assets) && log.events == old(log.events)
      {
        var (entryName, entryPath) := entries[i];
        var entryFilePath := EntryPath(host, entryPath);
        fileDependencies := fileDependencies + [entryFilePath];
        var entryModule;
        ghost var transformed;
        entryModule, transformed := BuildModule(entryName, entryFilePath);
        assert build(entryName, entryFilePath) == entryModule;
        BuildEntriesStep(entries, i, host, build);
        if entryModule.Err? {
          BuildEntriesFailureSticks(entries, i + 1, host, build);
          return Fail(entryModule.error);
        }
        modules := modules + [entryModule.value];
        i := i + 1;
      }
      assert entries[..i] == entries;
      callback.hook.Call([], log);
      outcome := Pass;
    }
  }

  /** The callback `build` receives. The only one this core passes is the compiler's
      `onCompiled`, whose whole body broadcasts the `done` hook with no arguments. */
  datatype Callback = Broadcasts(hook: SyncHook)

  // ---------------------------------------------------------------------------
  // `buildMoudle` as written: line 18 reads `modulePath`, a name declared nowhere
  // (the parameter is `moudulePath`), so every call that gets past the read throws
  // a ReferenceError.

  function ModuleOutcomeAsWritten(options: Options, host: Host, name: string, modulePath: string): (r: Result<Module, Failure>)
    ensures r.Err?
    ensures host.readFile(modulePath).Some? ==> r == Err(UndefinedName("modulePath"))
  {
    match host.readFile(modulePath)
    case None => Err(NoSuchFile(modulePath))
    case Some(_) => Err(UndefinedName("modulePath"))
  }

  function BuilderAsWritten(options: Options, host: Host): (string, string) -> Result<Module, Failure>
  {
    (name, modulePath) => ModuleOutcomeAsWritten(options, host, name, modulePath)
  }

  /** As written, a build with at least one entry never completes: it throws on the
      first entry, before any module is pushed, so the callback, and with it the
      `done` hook, never runs. The intended `buildMoudle` completes the same build
      whenever the first entry's file is readable and the rules are well formed. */
  lemma AsWrittenBuildNeverCompletes(options: Options, host: Host)
    requires |NormalizeEntry(options.entry)| > 0
    ensures var s := BuildEntries(NormalizeEntry(options.entry), host, BuilderAsWritten(options, host));
      && s.failure.Some? && s.modules == []
      && |s.fileDependencies| == 1
  {
    var entries := NormalizeEntry(options.entry);
    var build := BuilderAsWritten(options, host);
    BuildEntriesShape(entries, host, build);
    BuildCompletesIff(entries, host, build);
    var s := BuildEntries(entries, host, build);
    assert !build(entries[0].0, EntryPath(host, entries[0].1)).Ok?;
  }

  /** With the parameter used, a build whose entry files are all readable and whose
      rules are all usable for them completes, with one module per entry. */
  lemma IntendedBuildCompletes(options: Options, host: Host)
    requires RulesOf(options).Ok?
    requires forall i :: 0 <= i < |NormalizeEntry(options.entry)| ==>
      var path := EntryPath(host, NormalizeEntry(options.entry)[i].1);
      host.readFile(path).Some? && SelectedLoaders(RulesOf(options).value, path, host.matches).Ok?
    ensures BuildOf(options, host).failure.None?
    ensures |BuildOf(options, host).modules| == |NormalizeEntry(options.entry)|
  {
    var entries := NormalizeEntry(options.entry);
    BuildCompletesIff(entries, host, Builder(options, host));
    BuildEntriesShape(entries, host, Builder(options, host));
  }
}
