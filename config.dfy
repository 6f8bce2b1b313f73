/** The configuration object `webpack(options)` receives (webpack.config.js), as far
    as the compiler and the compilation read it, and the errors they can throw. */
module Config {
  import opened Wrappers
  import opened Loaders
  import opened Plugins

  /** `entry`: a single path, or an object from entry name to path. The object is
      given as its `for...in` enumeration order; an absent entry enumerates nothing
      and is `Keyed([])`. */
  datatype EntryOption = Single(path: string) | Keyed(entries: seq<(string, string)>)

  /** `options.module`; `rules` is `None` when `module.rules` is missing or falsy. */
  datatype ModuleOptions = ModuleOptions(rules: Option<seq<Rule>>)

  /** `moduleOptions` is `None` when `options.module` is missing; `plugins` is `None` when
      `options.plugins` is. `output` is not read by this core. */
  datatype Options = Options(entry: EntryOption, moduleOptions: Option<ModuleOptions>, plugins: Option<seq<Plugin>>)

  /** The errors the model's operations throw; the other throws of the code are
      not modelled. */
  datatype Failure =
    | NoSuchFile(path: string)        // fs.readFileSync on a missing file
    | ModuleOptionsMissing            // reading `.rules` of an undefined `options.module`
    | RuleUseMissing(rule: nat)       // spreading the undefined `use` of matching rule `rule`
    | PluginsNotIterable              // `for...of` over an undefined `plugins`
    | UndefinedName(name: string)     // reading an undeclared variable (ReferenceError)
}
