/** The loader pipeline of `buildMoudle` (webpackCompilation.js): which loaders a
    module path gets, and in which order they transform its source. */
module Loaders {
  import opened Wrappers

  /** A loader is an opaque source-to-source transform. */
  type Loader = string -> string

  /** The text of a rule's `test` regular expression; matching is a collaborator. */
  datatype Pattern = Pattern(source: string)

  /** A `module.rules` element; `use` is `None` when the rule has no `use` list. */
  datatype Rule = Rule(test: Pattern, use: Option<seq<Loader>>)

  // ---------------------------------------------------------------------------
  // Composition: `loaders.reduceRight((source, loader) => loader(source), raw)`

  /** `reduceRight`: the last loader is applied first, then the one before it, ... */
  function ReduceRight(loaders: seq<Loader>, source: string): string
  {
    if loaders == [] then source
    else ReduceRight(loaders[..|loaders| - 1], loaders[|loaders| - 1](source))
  }

  /** The intended meaning, written from the other end: `l0(l1(...ln-1(source)))`. */
  function Nested(loaders: seq<Loader>, source: string): string
  {
    if loaders == [] then source else loaders[0](Nested(loaders[1..], source))
  }

  lemma {:induction false} NestedAppend(a: seq<Loader>, b: seq<Loader>, source: string)
    ensures Nested(a + b, source) == Nested(a, Nested(b, source))
  {
    if a == [] {
      assert a + b == b;
    } else {
      assert (a + b)[1..] == a[1..] + b;
      NestedAppend(a[1..], b, source);
    }
  }

  /** `reduceRight` composes right to left: for `[l0, ..., ln-1]` the result is
      `l0(l1(...ln-1(source)))`, and no loaders leave the source unchanged. */
  lemma {:induction false} ReduceRightIsNested(loaders: seq<Loader>, source: string)
    ensures ReduceRight(loaders, source) == Nested(loaders, source)
  {
    if loaders != [] {
      var n := |loaders| - 1;
      var last := loaders[n];
      ReduceRightIsNested(loaders[..n], last(source));
      NestedAppend(loaders[..n], [last], source);
      assert loaders[..n] + [last] == loaders;
      assert [last][1..] == [];
    }
  }

  /** Running `a + b` is running `b` first and `a` on its output. */
  lemma ReduceRightAppend(a: seq<Loader>, b: seq<Loader>, source: string)
    ensures ReduceRight(a + b, source) == ReduceRight(a, ReduceRight(b, source))
  {
    ReduceRightIsNested(a + b, source);
    ReduceRightIsNested(b, source);
    ReduceRightIsNested(a, ReduceRight(b, source));
    NestedAppend(a, b, source);
  }

  /** The documented example: `[s => s + "A", s => s + "B"]` on `"X"` gives `"XBA"`. */
  lemma RightToLeftExample()
    ensures ReduceRight([(s: string) => s + "A", (s: string) => s + "B"], "X") == "XBA"
  {
  }

  // ---------------------------------------------------------------------------
  // Selection: `rules.forEach(rule => { if (path.match(rule.test)) loaders.push(...rule.use) })`

  /** The loader list `forEach` accumulates over `rules`, or `Err(k)` when rule `k`
      matches but has no `use` list (spreading `undefined` throws a TypeError). */
  function SelectedLoaders(rules: seq<Rule>, path: string, matches: (string, Pattern) -> bool)
    : (r: Result<seq<Loader>, nat>)
    ensures r.Err? ==> r.error < |rules| && matches(path, rules[r.error].test) && rules[r.error].use.None?
  {
    if rules == [] then Ok([])
    else
      var n := |rules| - 1;
      match SelectedLoaders(rules[..n], path, matches)
      case Err(k) => Err(k)
      case Ok(loaders) =>
        if !matches(path, rules[n].test) then Ok(loaders)
        else if rules[n].use.None? then Err(n)
        else Ok(loaders + rules[n].use.value)
  }

  /** A rule does not break selection: it does not match, or it has a `use` list. */
  predicate Usable(rule: Rule, path: string, matches: (string, Pattern) -> bool)
  {
    matches(path, rule.test) ==> rule.use.Some?
  }

  /** What a rule contributes: its `use` list when it matches, nothing otherwise. */
  function Contribution(rule: Rule, path: string, matches: (string, Pattern) -> bool): seq<Loader>
  {
    if matches(path, rule.test) && rule.use.Some? then rule.use.value else []
  }

  /** Reference definition: the concatenation, in declaration order, of the `use`
      lists of exactly the rules whose test matches. */
  function MatchingUses(rules: seq<Rule>, path: string, matches: (string, Pattern) -> bool): seq<Loader>
  {
    if rules == [] then [] else Contribution(rules[0], path, matches) + MatchingUses(rules[1..], path, matches)
  }

  lemma {:induction false} MatchingUsesAppend(a: seq<Rule>, b: seq<Rule>, path: string, matches: (string, Pattern) -> bool)
    ensures MatchingUses(a + b, path, matches) == MatchingUses(a, path, matches) + MatchingUses(b, path, matches)
  {
    if a == [] {
      assert a + b == b;
    } else {
      assert (a + b)[1..] == a[1..] + b;
      MatchingUsesAppend(a[1..], b, path, matches);
    }
  }

  /** Selection succeeds exactly when every rule is usable; it then yields the
      matching rules' `use` lists concatenated in order, and otherwise it reports
      the first matching rule without `use`. */
  lemma {:induction false} SelectedLoadersCharacterised(rules: seq<Rule>, path: string, matches: (string, Pattern) -> bool)
    ensures SelectedLoaders(rules, path, matches).Ok?
      <==> forall i :: 0 <= i < |rules| ==> Usable(rules[i], path, matches)
    ensures SelectedLoaders(rules, path, matches).Ok?
      ==> SelectedLoaders(rules, path, matches).value == MatchingUses(rules, path, matches)
    ensures SelectedLoaders(rules, path, matches).Err? ==>
      var k := SelectedLoaders(rules, path, matches).error;
      k < |rules| && !Usable(rules[k], path, matches) &&
      forall j :: 0 <= j < k ==> Usable(rules[j], path, matches)
  {
    if rules != [] {
      var n := |rules| - 1;
      var prefix := rules[..n];
      assert prefix + [rules[n]] == rules;
      SelectedLoadersCharacterised(prefix, path, matches);
      MatchingUsesAppend(prefix, [rules[n]], path, matches);
      assert MatchingUses([rules[n]], path, matches) == Contribution(rules[n], path, matches) by {
        assert [rules[n]][1..] == [];
      }
      assert forall i :: 0 <= i < n ==> prefix[i] == rules[i];
    }
  }

  /** Once a prefix of the rules has failed, later rules change nothing: `forEach`
      has already thrown. */
  lemma {:induction false} SelectedLoadersFailureSticks(rules: seq<Rule>, k: nat, path: string, matches: (string, Pattern) -> bool)
    requires k <= |rules|
    requires SelectedLoaders(rules[..k], path, matches).Err?
    ensures SelectedLoaders(rules, path, matches) == SelectedLoaders(rules[..k], path, matches)
    decreases |rules| - k
  {
    if k < |rules| {
      assert rules[..k + 1][..k] == rules[..k];
      SelectedLoadersFailureSticks(rules, k + 1, path, matches);
    } else {
      assert rules[..k] == rules;
    }
  }

  /** With usable rules `a + b`, the source goes through the loaders of the rules in
      `b` before those of the rules in `a`: later rules' loaders run first. */
  lemma LaterRulesRunFirst(a: seq<Rule>, b: seq<Rule>, path: string, matches: (string, Pattern) -> bool, source: string)
    requires SelectedLoaders(a + b, path, matches).Ok?
    ensures SelectedLoaders(a, path, matches).Ok? && SelectedLoaders(b, path, matches).Ok?
    ensures ReduceRight(SelectedLoaders(a + b, path, matches).value, source)
         == ReduceRight(SelectedLoaders(a, path, matches).value,
                        ReduceRight(SelectedLoaders(b, path, matches).value, source))
  {
    SelectedLoadersCharacterised(a + b, path, matches);
    assert forall i :: 0 <= i < |a| ==> (a + b)[i] == a[i];
    assert forall i :: 0 <= i < |b| ==> (a + b)[|a| + i] == b[i];
    SelectedLoadersCharacterised(a, path, matches);
    SelectedLoadersCharacterised(b, path, matches);
    MatchingUsesAppend(a, b, path, matches);
    ReduceRightAppend(MatchingUses(a, path, matches), MatchingUses(b, path, matches), source);
  }
}
