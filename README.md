# A verified model of a toy module bundler

This project models the core of a small, hand-written imitation of webpack: a
`Compiler` that owns two broadcast hooks (`run` and `done`), a `webpack(options)`
factory that lets every configured plugin tap those hooks, and a `Compilation` that
turns the configured entries into module records, choosing for each file the loaders
of the rules whose `test` matches its path and composing them right to left.

The model is written in Dafny and follows the source's own shape:

- `Paths` (`paths.dfy`): `toUnixPath` as a function, with the proofs that no
  backslash survives, that other characters are kept, and that it is idempotent.
- `Hooks` (`hooks.dfy`): tapable's `SyncHook` as the program uses it: a class with a
  mutable, ordered list of `(name, callback)` taps, a `Tap` method and a `Call`
  method. A callback is modelled by what it makes observable. It is a `Listener`
  from the call's arguments to the output it writes. Running it appends one `Fired`
  event to an `EventLog`. `Broadcast` is the trace one `call` produces.
- `Loaders` (`loaders.dfy`): loader selection (the `forEach`/`push` over the rules)
  and composition (`reduceRight`), with a reference definition of each and the
  lemmas that connect them.
- `Plugins` (`plugins.dfy`): a plugin is something whose `apply` taps one named
  listener on `run` or `done`, as the two plugins of `webpackPlugins.js` do.
  `TapsFor` gives the taps a list of plugins leaves on a hook.
- `Config` (`config.dfy`): the options object, and the errors the model's
  operations throw (the throws left out are listed under "Left out").
- `WebpackCompilation` (`compilation.dfy`): the `Compilation` class. Its
  `BuildModule` and `Build` methods carry the source's loops and are proved against
  the functions `ModuleOutcome` and `BuildEntries`.
- `WebpackCompiler` (`compiler.dfy`): the `Compiler` class (`Compile`, `Run`), the
  `Webpack` factory, and two client methods that run the configuration of
  `webpack.config.js` and run one compiler twice.

Everything the source takes from its environment is a field of a `Host` value. That
covers the working directory (`process.cwd()`), `fs.readFileSync` (a partial
function from path to contents), `path.posix.join`, `path.posix.relative` and
regular-expression matching of a path against a rule's `test`. A JavaScript
exception is modelled as a returned failure (`Result` or `Outcome`), and the
operations after the throwing statement do not happen.

The code does less than a full bundler would:

- `run(callBack)` never invokes `callBack`. Only the `done` hook signals
  completion, and only when `build` returns normally.
- `build` does not scan dependencies, recurse, deduplicate, or produce chunks or
  assets. Two entries naming the same file give two module records.
- `buildMoudle` computes the transformed source and drops it: every record's
  source is `""`.
- Module ids are `"./" + relative(baseDir, path)`. Only the working directory goes
  through `toUnixPath`.

## Model

| member | source | states |
|---|---|---|
| `Paths.ToUnixPath` | webpack/webpack-demo/webpackCompilation.js:2-4 | the result has the input's length and each character is the input's, with a backslash turned into `/` |
| `Paths.NoBackslashLeft` | webpack/webpack-demo/webpackCompilation.js:2-4 | no backslash is left; non-backslash characters are unchanged; backslashes become `/` |
| `Paths.ToUnixPathFixedIff` | webpack/webpack-demo/webpackCompilation.js:2-4 | a path is left unchanged if and only if it holds no backslash |
| `Paths.ToUnixPathIdempotent` | webpack/webpack-demo/webpackCompilation.js:2-4 | applying `toUnixPath` twice equals applying it once |
| `WebpackCompilation.BaseDir` | webpack/webpack-demo/webpackCompilation.js:5 | the base directory holds no backslash and is as long as the working directory |
| `Hooks.Broadcast` | webpack/webpack-demo/tapableDemo.js:5-13 | one `call` yields exactly one event per tap, in tap order, every tap receiving the same arguments |
| `Hooks.BroadcastAppend` | webpack/webpack-demo/tapableDemo.js:5-13 | broadcasting to taps `a + b` is broadcasting to `a` and then to `b` |
| `Hooks.SyncHook.constructor` | webpack/webpack-demo/webpack.js:8-9 | a new hook has no taps |
| `Hooks.SyncHook.Tap` | webpack/webpack-demo/tapableDemo.js:5-11 | a tap is appended after the existing ones; duplicate names are kept |
| `Hooks.SyncHook.Call` | webpack/webpack-demo/tapableDemo.js:13 | the log grows by exactly the broadcast of the taps on the given arguments, and nothing else changes |
| `Loaders.ReduceRight` | webpack/webpack-demo/webpackCompilation.js:32-34 | the `reduceRight` fold of the loaders over the source; `Loaders.ReduceRightIsNested` proves it is `l0(l1(...ln-1(src)))` and `Loaders.ReduceRightAppend` that later loaders run first |
| `Loaders.ReduceRightIsNested` | webpack/webpack-demo/webpackCompilation.js:32-34 | `reduceRight` over `[l0, ..., ln-1]` yields `l0(l1(...ln-1(src)))`; with no loaders the source is unchanged |
| `Loaders.ReduceRightAppend` | webpack/webpack-demo/webpackCompilation.js:32-34 | running loaders `a + b` runs `b` first and `a` on its output |
| `Loaders.RightToLeftExample` | webpack/webpack-demo/webpackCompilation.js:32-34 | `[s => s + "A", s => s + "B"]` on `"X"` gives `"XBA"` |
| `Loaders.SelectedLoaders` | webpack/webpack-demo/webpackCompilation.js:25-31 | the `forEach`/`push` accumulation; a reported failure names a rule that matches and has no `use`; `Loaders.SelectedLoadersCharacterised` gives the full if-and-only-if against the reference `MatchingUses` |
| `Loaders.SelectedLoadersCharacterised` | webpack/webpack-demo/webpackCompilation.js:25-31 | selection succeeds if and only if every matching rule has a `use` list; it then yields exactly the matching rules' `use` lists concatenated in declaration order; otherwise it reports the first matching rule without one |
| `Loaders.SelectedLoadersFailureSticks` | webpack/webpack-demo/webpackCompilation.js:27-31 | once a matching rule without `use` has thrown, later rules do not matter |
| `Loaders.LaterRulesRunFirst` | webpack/webpack-demo/webpackCompilation.js:25-34 | the loaders of later matching rules transform the source before those of earlier ones |
| `Plugins.TapsFor` | webpack/webpack-demo/webpack.js:40-42 | the taps applying the plugins leaves on one hook, at most one per plugin; `Plugins.TapsForAppend`, `Plugins.TapsForSound` and `Plugins.TapsForComplete` state their order, origin and completeness |
| `Plugins.OneTapPerPlugin` | webpack/webpack-demo/webpack.js:40-42 | applying the plugins leaves one tap per plugin across the two hooks |
| `Plugins.TapsForAppend` | webpack/webpack-demo/webpack.js:40-42 | applying plugins `a` then `b` puts `a`'s taps before `b`'s on each hook |
| `Plugins.TapsForSound` | webpack/webpack-demo/webpackPlugins.js:1-15 | every tap on a hook comes from a plugin of the list that taps that hook, with its name and callback |
| `Plugins.TapsForComplete` | webpack/webpack-demo/webpack.js:40-42 | every listed plugin that targets a hook leaves its tap on that hook |
| `WebpackCompilation.NormalizeEntry` | webpack/webpack-demo/webpackCompilation.js:41-46 | a string entry becomes the single entry `main` with that path; an object entry is used unchanged, in its enumeration order |
| `WebpackCompilation.EntryPath` | webpack/webpack-demo/webpackCompilation.js:48 | `join(baseDir, path)`; `WebpackCompilation.BuildEntriesShape` states that the i-th recorded file dependency is this path of entry i |
| `WebpackCompilation.RulesOf` | webpack/webpack-demo/webpackCompilation.js:26 | a missing `options.module` throws; a missing `rules` yields the empty list; otherwise the rules are used as given |
| `WebpackCompilation.ModuleId` | webpack/webpack-demo/webpackCompilation.js:18 | the id starts with `"./"`, followed by the path relative to the base directory |
| `WebpackCompilation.ModuleOutcome` | webpack/webpack-demo/webpackCompilation.js:16-38 | a missing file throws before anything else and a missing `options.module` throws next; the record is returned exactly when the file is read and loader selection succeeds; it has an id starting with `"./"`, `names == [name]`, no dependencies and source `""` |
| `WebpackCompilation.TransformedSource` | webpack/webpack-demo/webpackCompilation.js:17-34 | the source `buildMoudle` computes and drops: the file read through the selected loaders; `WebpackCompilation.Compilation.BuildModule` computes exactly this and `WebpackCompilation.NoRulesLeavesSourceUnchanged` covers the no-rules case |
| `WebpackCompilation.NoRulesLeavesSourceUnchanged` | webpack/webpack-demo/webpackCompilation.js:26-34 | with no `module.rules`, no loader runs and the computed source is the file's contents |
| `WebpackCompilation.TransformedSourceIsNested` | webpack/webpack-demo/webpackCompilation.js:17-34 | when the file is read and selection succeeds, the computed source is `l0(l1(...ln-1(contents)))` over the matching rules' `use` lists in rule order |
| `WebpackCompilation.BuildEntries` | webpack/webpack-demo/webpackCompilation.js:47-52 | `build`'s loop as a function; characterised by `WebpackCompilation.BuildEntriesShape`, `WebpackCompilation.BuildCompletesIff` and `WebpackCompilation.BuildEntriesFailureSticks` |
| `WebpackCompilation.BuildEntriesFailureSticks` | webpack/webpack-demo/webpackCompilation.js:47-52 | once an entry has thrown, later entries are not processed |
| `WebpackCompilation.BuildEntriesShape` | webpack/webpack-demo/webpackCompilation.js:47-52 | one path per processed entry, in order, the i-th being `join(baseDir, path_i)`; one module per entry that built; a throwing entry has its path recorded but no module |
| `WebpackCompilation.BuildCompletesIff` | webpack/webpack-demo/webpackCompilation.js:47-53 | the build reaches its callback if and only if every entry's module builds |
| `WebpackCompilation.BuiltModulesFollowEntries` | webpack/webpack-demo/webpackCompilation.js:40-54 | a completed build has as many modules and files as entries; module i is named after entry i, has the id of the i-th path, and has no dependencies and empty source; entries naming the same path give separate modules |
| `WebpackCompilation.Compilation.constructor` | webpack/webpack-demo/webpackCompilation.js:8-14 | the options are stored; modules, chunks, assets and file dependencies start empty |
| `WebpackCompilation.Compilation.BuildModule` | webpack/webpack-demo/webpackCompilation.js:16-38 | returns or throws as `ModuleOutcome` says; the transformed source it computes is the right-to-left composition of the selected loaders and is not stored |
| `WebpackCompilation.Compilation.Build` | webpack/webpack-demo/webpackCompilation.js:40-54 | file dependencies and modules grow by exactly what `BuildEntries` gives, in entry order; chunks and assets are unchanged; the callback runs once, after every entry, and only if none threw |
| `WebpackCompilation.ModuleOutcomeAsWritten` | webpack/webpack-demo/webpackCompilation.js:16-18 | `buildMoudle` as written always throws: a missing file as the read fails, otherwise a ReferenceError for the undeclared `modulePath` |
| `WebpackCompilation.AsWrittenBuildNeverCompletes` | webpack/webpack-demo/webpackCompilation.js:18 | with the undeclared name read as written, a build with any entry throws on its first entry, pushes no module and never reaches its callback |
| `WebpackCompilation.IntendedBuildCompletes` | webpack/webpack-demo/webpackCompilation.js:16-54 | with the parameter used, readable entry files and usable rules, the build completes with one module per entry |
| `WebpackCompiler.Compiler.constructor` | webpack/webpack-demo/webpack.js:5-11 | the options are stored as given; the `run` and `done` hooks are new, distinct and have no taps |
| `WebpackCompiler.Compiler.Compile` | webpack/webpack-demo/webpack.js:13-17 | a fresh compilation of the compiler's options is built with the callback |
| `WebpackCompiler.Compiler.Run` | webpack/webpack-demo/webpack.js:19-31 | the log gets every `run` tap's event, then, only if the build completed, every `done` tap's event once; the events it adds satisfy `RunOrdered`: the first (one per `run` tap) are the `run` taps' and the rest the `done` taps'; the build is a fresh compilation; `callBack` leaves no trace |
| `WebpackCompiler.ApplyPlugin` | webpack/webpack-demo/webpackPlugins.js:2-5 | a plugin's `apply` appends its one tap to its hook and leaves the other hook alone |
| `WebpackCompiler.Webpack` | webpack/webpack-demo/webpack.js:34-46 | every plugin is applied once, in list order, before the compiler is returned; the hooks then hold the plugins' taps in list order; with no `plugins` it throws |
| `WebpackCompiler.RunTrace` | webpack/webpack-demo/webpack.js:19-31 | the `run` broadcast followed, on completion, by the `done` broadcast satisfies `RunOrdered`: every `run` event precedes every `done` event, and the `done` events appear only for a completed build; `Compiler.Run` states it of its log |
| `WebpackCompiler.RunDemo` | webpack/webpack-demo/webpack.config.js:4-21 | running the demo configuration with a readable entry logs the run plugin's event and then the done plugin's, and builds the single module `main` |
| `WebpackCompiler.RunTwice` | webpack/webpack-demo/webpack.js:13-15 | two runs build two distinct compilations with equal contents; neither accumulates the other's modules or files |

## Findings

| source | as written | input that shows it | evidently intended | confidence | as-written member | corrected member |
|---|---|---|---|---|---|---|
| webpack/webpack-demo/webpackCompilation.js:18 | the module id is computed from `modulePath`, a name declared nowhere (the parameter is spelled `moudulePath`), so reading it throws a ReferenceError | entry `"./src/main.js"` whose file exists: the first `buildMoudle` throws, no module is pushed and `done` never fires | compute the id from the parameter `moudulePath` | high; not executed | `WebpackCompilation.AsWrittenBuildNeverCompletes` | `WebpackCompilation.IntendedBuildCompletes` |

The rest of the model uses the intended `buildMoudle` (`WebpackCompilation.ModuleOutcome`).
In the same way, `webpackCompilation.js` uses `fs` and `path` without requiring
them. The model treats both as collaborators supplied by the `Host` (see "Left out").

## Left out

- `Plugins.Plugin`: a plugin's `apply` is modelled as exactly one tap on `run` or `done`, as in the two plugins of `webpackPlugins.js`. A plugin whose `apply` taps both hooks, taps several times or not at all, runs other code, or throws is not modelled. So is an object without `apply` (which makes `plugin.apply` throw), and a plugin that taps a hook this `Compiler` lacks, as the plugins of `build/webpack.config.js` would.
- `WebpackCompilation.AsWrittenBuildNeverCompletes`: `fs` and `path` are assumed to be in scope. As written, `webpackCompilation.js` never requires them, so line 48 (`path.posix.join`) throws a ReferenceError before `fileDependencies.push`, and line 17 would throw before line 18.
- `rules.forEach` on a `module.rules` that is truthy but not an array throws a TypeError. The model's rules are always a list or absent.
- `path.posix.join` on an entry value that is not a string throws. The model's entry paths are always strings.
- Reading files, the working directory, `path.posix.join`, `path.posix.relative` and regular-expression matching are I/O or foreign code. They are fields of `Host`, and nothing is assumed about them.
- Loader implementations (`./webpackLoader`) are not shown. Loaders are opaque total functions, so a loader that throws is not modelled.
- A loader given by name, as in `build/webpack.config.js`, makes `reduceRight` throw because a string is not callable. The model's loaders are always functions.
- A rule with no `test` matches every path in JavaScript (`match(undefined)`). The model gives every rule a pattern.
- A `use` value that is a string rather than a list is not modelled.
- tapable internals are left out: tap options objects, interceptors, and the argument names given to `new SyncHook(...)`.
- `Hooks.SyncHook.Call`: callbacks are total, so the fail-fast stop after a throwing callback is not modelled.
- `console.log` output is modelled only as the string a listener produces, recorded in its event.
- `output` and the other configuration keys are not read by this core and are not modelled.
- `chunks` and `assets` are never filled by this core. Their element types are left abstract.
- An `entry` object is taken in its `for...in` enumeration order as given. JavaScript's ordering of integer-like keys before other keys is not modelled.
- An array `entry`, which `for...in` enumerates by index, is not modelled.
- `WebpackCompiler.Compiler.Compile` returns the compilation it built so that its contract can describe it. The source returns nothing.
- Dependency scanning, recursive module building, cycle handling, deduplication, chunk and asset emission, and error kinds beyond the exceptions listed in `Config.Failure` are not implemented by the code, so they are not modelled.
