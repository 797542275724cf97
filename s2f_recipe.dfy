/**
 * Recipe assembly and cleaning of connectome_tools/apps/s2f_recipe.py.
 *
 * Strategies emit `(pathway_pattern, param_map)` contributions.  The
 * assembler expands a "*" side of a pattern to every mtype and merges the
 * parameter maps into the recipe, later contributions overriding earlier
 * ones parameter by parameter.  The cleaner then classifies the parameter
 * set of every pathway of mtypes x mtypes, drops the incomplete ones and
 * prunes the superseded alternative-2 parameters of the others.
 */
module S2fRecipe {
  import opened Common
  import opened LastWins
  import opened Utils

  const Required: set<string> := {BoutonReductionFactor}
  /** The first choice of the remaining parameters. */
  const Alternative1: set<string> := {PA, PMuA}
  /** The second choice of the remaining parameters. */
  const Alternative2: set<string> := {CvSynsConnection, MeanSynsConnection}

  /** The pair returned by `validate_params`: validity and the missing parameters (`None` when valid). */
  datatype Validation = Validation(isValid: bool, missing: Option<set<string>>)

  /**
   * The completeness rule: every required parameter, plus either all of
   * alternative 1, or none of alternative 1 and all of alternative 2.
   */
  predicate Complete(keys: set<string>)
  {
    Required <= keys && (Alternative1 <= keys || (Alternative1 !! keys && Alternative2 <= keys))
  }

  lemma AlternativesDisjoint()
    ensures Required !! Alternative1 && Required !! Alternative2 && Alternative1 !! Alternative2
  {
    assert BoutonReductionFactor[0] == 'b' && PA[0] == 'p' && PMuA[0] == 'p';
    assert CvSynsConnection[0] == 'c' && MeanSynsConnection[0] == 'm';
  }

  /** The verdict of `validate_params` on a dict whose keys are `keys`. */
  function Verdict(keys: set<string>): (v: Validation)
    ensures v.isValid <==> v.missing.None?
    ensures v.isValid <==> Complete(keys)
    ensures !v.isValid ==> v.missing.value != {} && v.missing.value !! keys
    ensures !v.isValid ==> v.missing.value <= Required + Alternative1 + Alternative2
  {
    if !(Required <= keys) then
      LacksSome(Required, keys);
      Validation(false, Some(Required - keys))
    else if Alternative1 <= keys then Validation(true, None)
    else if Alternative1 * keys != {} then
      LacksSome(Alternative1, keys);
      Validation(false, Some(Alternative1 - keys))
    else if Alternative2 <= keys then Validation(true, None)
    else
      LacksSome(Alternative2, keys);
      Validation(false, Some(Alternative2 - keys))
  }

  /** A set that is not included in another has an element the other lacks. */
  lemma LacksSome(a: set<string>, b: set<string>)
    requires !(a <= b)
    ensures a - b != {}
  {
    var x :| x in a && x !in b;
    assert x in a - b;
  }

  /**
   * The dict after `validate_params`: when the required parameters and
   * alternative 1 are complete, the alternative-2 parameters are popped;
   * every other call leaves the dict as it was.
   */
  function Pruned(d: ParamMap): ParamMap
  {
    if Required <= d.Keys && Alternative1 <= d.Keys then d - Alternative2 else d
  }

  /** Pruning keeps a complete dict complete, changes no value it keeps, and a second pruning changes nothing. */
  lemma PrunedIsStable(d: ParamMap)
    requires Complete(d.Keys)
    ensures Complete(Pruned(d).Keys)
    ensures Pruned(d).Keys == d.Keys - (if Alternative1 <= d.Keys then Alternative2 else {})
    ensures forall k :: k in Pruned(d) ==> Pruned(d)[k] == d[k]
    ensures Pruned(Pruned(d)) == Pruned(d)
  {
    AlternativesDisjoint();
  }

  /**
   * `validate_params(pathway_dict)`: returns the verdict and the dict as the
   * call leaves it (the source pops the alternative-2 keys in place).
   */
  method ValidateParams(d: ParamMap) returns (isValid: bool, missing: Option<set<string>>, after: ParamMap)
    ensures Validation(isValid, missing) == Verdict(d.Keys)
    ensures after == Pruned(d)
    ensures !isValid ==> after == d
  {
    after := d;
    if !(Required <= d.Keys) {
      return false, Some(Required - d.Keys), after;
    } else if Alternative1 <= d.Keys {
      var toPop := Alternative2;
      while toPop != {}
        invariant toPop <= Alternative2
        invariant after == d - (Alternative2 - toPop)
        decreases toPop
      {
        var k :| k in toPop;
        after := after - {k};
        toPop := toPop - {k};
      }
      return true, None, after;
    } else if Alternative1 * d.Keys != {} {
      return false, Some(Alternative1 - d.Keys), after;
    } else if Alternative2 <= d.Keys {
      return true, None, after;
    } else {
      return false, Some(Alternative2 - d.Keys), after;
    }
  }

  /** The five parameter names are pairwise distinct. */
  lemma NamesDistinct()
    ensures BoutonReductionFactor != CvSynsConnection && BoutonReductionFactor != MeanSynsConnection
    ensures BoutonReductionFactor != PA && BoutonReductionFactor != PMuA
    ensures CvSynsConnection != MeanSynsConnection && CvSynsConnection != PA && CvSynsConnection != PMuA
    ensures MeanSynsConnection != PA && MeanSynsConnection != PMuA && PA != PMuA
  {
    assert BoutonReductionFactor[0] == 'b' && CvSynsConnection[0] == 'c' && MeanSynsConnection[0] == 'm';
    assert PA[0] == 'p' && PMuA[0] == 'p' && PA[1] != PMuA[1];
  }

  /**
   * The valid cases of the test of `validate_params`: alternative 2 alone,
   * alternative 1 alone, and both, where alternative 2 is pruned.
   */
  lemma ValidCases(v: Value)
    ensures Verdict({BoutonReductionFactor, MeanSynsConnection, CvSynsConnection}) == Validation(true, None)
    ensures Verdict({BoutonReductionFactor, PA, PMuA}) == Validation(true, None)
    ensures Verdict({BoutonReductionFactor, MeanSynsConnection, CvSynsConnection, PA, PMuA}) == Validation(true, None)
    ensures Pruned(map[BoutonReductionFactor := v, MeanSynsConnection := v, CvSynsConnection := v, PA := v, PMuA := v])
         == map[BoutonReductionFactor := v, PA := v, PMuA := v]
  {
    NamesDistinct();
    var d := map[BoutonReductionFactor := v, MeanSynsConnection := v, CvSynsConnection := v, PA := v, PMuA := v];
    assert d.Keys == {BoutonReductionFactor, MeanSynsConnection, CvSynsConnection, PA, PMuA};
  }

  /**
   * The invalid cases of the test of `validate_params`: alternative 1 half
   * present is invalid even beside a complete alternative 2, and the
   * missing parameters are reported by the first rule that fails.
   */
  lemma InvalidCases()
    ensures Verdict({BoutonReductionFactor, MeanSynsConnection, CvSynsConnection, PA}) == Validation(false, Some({PMuA}))
    ensures Verdict({}) == Validation(false, Some({BoutonReductionFactor}))
    ensures Verdict({BoutonReductionFactor}) == Validation(false, Some({MeanSynsConnection, CvSynsConnection}))
    ensures Verdict({BoutonReductionFactor, MeanSynsConnection}) == Validation(false, Some({CvSynsConnection}))
  {
    NamesDistinct();
    var k1 := {BoutonReductionFactor, MeanSynsConnection, CvSynsConnection, PA};
    assert PA in Alternative1 * k1 && PMuA !in k1;
    assert Alternative1 - k1 == {PMuA};
    assert Required - {} == {BoutonReductionFactor};
    var k3 := {BoutonReductionFactor};
    assert Alternative1 * k3 == {};
    assert Alternative2 - k3 == {MeanSynsConnection, CvSynsConnection};
    var k4 := {BoutonReductionFactor, MeanSynsConnection};
    assert Alternative1 * k4 == {};
    assert Alternative2 - k4 == {CvSynsConnection};
  }

  // ---------------------------------------------------------------------
  // Wildcard expansion

  /** One side of a pattern: "*" stands for every mtype, anything else for itself. */
  function Side(side: string, mtypes: seq<string>): seq<string>
  {
    if side == Wildcard then mtypes else [side]
  }

  /** `itertools.product(xs, ys)`: every pair, in row-major order. */
  function Product(xs: seq<string>, ys: seq<string>): (r: seq<Pathway>)
    ensures |r| == |xs| * |ys|
    ensures forall p :: p in r <==> p.0 in xs && p.1 in ys
  {
    if xs == [] then []
    else
      var row := seq(|ys|, j requires 0 <= j < |ys| => (xs[0], ys[j]));
      assert forall p :: p in row <==> p.0 == xs[0] && p.1 in ys by {
        forall p: Pathway | p.0 == xs[0] && p.1 in ys ensures p in row {
          var j :| 0 <= j < |ys| && ys[j] == p.1;
          assert row[j] == p;
        }
      }
      assert xs == [xs[0]] + xs[1..];
      row + Product(xs[1..], ys)
  }

  /** The pattern stands for pathway `p`. */
  predicate Covers(pattern: Pathway, mtypes: seq<string>, p: Pathway)
  {
    && (if pattern.0 == Wildcard then p.0 in mtypes else p.0 == pattern.0)
    && (if pattern.1 == Wildcard then p.1 in mtypes else p.1 == pattern.1)
  }

  /** The pathways a pattern expands to. */
  function Expand(pattern: Pathway, mtypes: seq<string>): (r: seq<Pathway>)
    ensures forall p :: p in r <==> Covers(pattern, mtypes, p)
  {
    Product(Side(pattern.0, mtypes), Side(pattern.1, mtypes))
  }

  // ---------------------------------------------------------------------
  // Assembly

  type Rules = map<Pathway, ParamMap>

  /** `recipe.setdefault(pathway, {}).update(params)` */
  function UpdateRule(rules: Rules, p: Pathway, params: ParamMap): Rules
  {
    rules[p := (if p in rules then rules[p] else map[]) + params]
  }

  /** `UpdateRule` for each pathway of `ps`, in order. */
  function UpdateAll(rules: Rules, ps: seq<Pathway>, params: ParamMap): Rules
  {
    if ps == [] then rules
    else UpdateRule(UpdateAll(rules, ps[..|ps| - 1], params), ps[|ps| - 1], params)
  }

  /** The rules `rules` with the contributions `cs` added, in order. */
  function AssembleOnto(rules: Rules, cs: seq<Contribution>, mtypes: seq<string>): Rules
  {
    if cs == [] then rules
    else
      var c := cs[|cs| - 1];
      UpdateAll(AssembleOnto(rules, cs[..|cs| - 1], mtypes), Expand(c.pattern, mtypes), c.params)
  }

  /** The recipe assembled from the contributions `cs`, in order. */
  function Assemble(cs: seq<Contribution>, mtypes: seq<string>): Rules
  {
    AssembleOnto(map[], cs, mtypes)
  }

  /** Adding one more contribution is one more `UpdateAll`. */
  lemma AssembleOntoSnoc(rules: Rules, cs: seq<Contribution>, c: Contribution, mtypes: seq<string>)
    ensures AssembleOnto(rules, cs + [c], mtypes) == UpdateAll(AssembleOnto(rules, cs, mtypes), Expand(c.pattern, mtypes), c.params)
  {
    assert (cs + [c])[..|cs|] == cs;
  }

  lemma AssembleOntoStep(rules: Rules, cs: seq<Contribution>, j: int, mtypes: seq<string>)
    requires 0 <= j < |cs|
    ensures AssembleOnto(rules, cs[..j + 1], mtypes) == UpdateAll(AssembleOnto(rules, cs[..j], mtypes), Expand(cs[j].pattern, mtypes), cs[j].params)
  {
    assert cs[..j + 1][..j] == cs[..j];
  }

  /** Adding two runs of contributions is adding their concatenation. */
  lemma {:induction false} AssembleOntoConcat(rules: Rules, a: seq<Contribution>, b: seq<Contribution>, mtypes: seq<string>)
    ensures AssembleOnto(rules, a + b, mtypes) == AssembleOnto(AssembleOnto(rules, a, mtypes), b, mtypes)
  {
    if b == [] {
      assert a + b == a;
    } else {
      var init, c := b[..|b| - 1], b[|b| - 1];
      assert a + b == (a + init) + [c] && b == init + [c];
      AssembleOntoConcat(rules, a, init, mtypes);
      AssembleOntoSnoc(rules, a + init, c, mtypes);
      AssembleOntoSnoc(AssembleOnto(rules, a, mtypes), init, c, mtypes);
    }
  }

  /** The contributions of a list of task results, result after result. */
  function Flatten(results: seq<TaskResult<seq<Contribution>>>): seq<Contribution>
  {
    if results == [] then [] else Flatten(results[..|results| - 1]) + results[|results| - 1].value
  }

  /**
   * What each contribution sets on pathway `p`, in order: its parameters
   * when its pattern covers `p`, nothing otherwise.
   */
  function CoveringParams(cs: seq<Contribution>, mtypes: seq<string>, p: Pathway): (r: seq<ParamMap>)
    ensures |r| == |cs|
    ensures forall i :: 0 <= i < |cs| ==> r[i] == if Covers(cs[i].pattern, mtypes, p) then cs[i].params else map[]
  {
    seq(|cs|, i requires 0 <= i < |cs| => if Covers(cs[i].pattern, mtypes, p) then cs[i].params else map[])
  }

  lemma {:induction false} UpdateAllAt(rules: Rules, ps: seq<Pathway>, params: ParamMap, p: Pathway)
    ensures p in ps ==> p in UpdateAll(rules, ps, params)
    ensures p in ps ==> UpdateAll(rules, ps, params)[p] == (if p in rules then rules[p] else map[]) + params
    ensures p !in ps ==> (p in UpdateAll(rules, ps, params) <==> p in rules)
    ensures p !in ps && p in rules ==> UpdateAll(rules, ps, params)[p] == rules[p]
  {
    if ps != [] {
      var prefix := ps[..|ps| - 1];
      UpdateAllAt(rules, prefix, params, p);
      if p in prefix && p == ps[|ps| - 1] {
        var base := if p in rules then rules[p] else map[];
        assert (base + params) + params == base + params;
      }
      assert ps == prefix + [ps[|ps| - 1]];
    }
  }

  lemma CoveringParamsPrefix(cs: seq<Contribution>, mtypes: seq<string>, p: Pathway)
    requires cs != []
    ensures CoveringParams(cs[..|cs| - 1], mtypes, p) == CoveringParams(cs, mtypes, p)[..|cs| - 1]
  {
  }

  /** The assembled recipe has pathway `p` iff some contribution covers it. */
  lemma {:induction false} AssembleHas(cs: seq<Contribution>, mtypes: seq<string>, p: Pathway)
    ensures p in Assemble(cs, mtypes) <==> exists i :: 0 <= i < |cs| && Covers(cs[i].pattern, mtypes, p)
  {
    if cs != [] {
      var prefix, c := cs[..|cs| - 1], cs[|cs| - 1];
      AssembleHas(prefix, mtypes, p);
      UpdateAllAt(Assemble(prefix, mtypes), Expand(c.pattern, mtypes), c.params, p);
      if exists i :: 0 <= i < |cs| && Covers(cs[i].pattern, mtypes, p) {
        var i :| 0 <= i < |cs| && Covers(cs[i].pattern, mtypes, p);
        if i < |cs| - 1 {
          assert prefix[i] == cs[i];
        }
      }
    }
  }

  /**
   * The parameters of an assembled pathway are the later-wins merge of what
   * the covering contributions set, in order.
   */
  lemma {:induction false} AssembleAt(cs: seq<Contribution>, mtypes: seq<string>, p: Pathway)
    requires p in Assemble(cs, mtypes)
    ensures Assemble(cs, mtypes)[p] == Merge(CoveringParams(cs, mtypes, p))
  {
    var prefix, c := cs[..|cs| - 1], cs[|cs| - 1];
    var before := Assemble(prefix, mtypes);
    var after := UpdateAll(before, Expand(c.pattern, mtypes), c.params);
    assert Assemble(cs, mtypes) == after;
    var cov := CoveringParams(cs, mtypes, p);
    var covPrefix := CoveringParams(prefix, mtypes, p);
    CoveringParamsPrefix(cs, mtypes, p);
    assert Merge(cov) == Merge(covPrefix) + cov[|cs| - 1];
    var merged := if p in before then before[p] else map[];
    if p in before {
      AssembleAt(prefix, mtypes, p);
    } else {
      AssembleHas(prefix, mtypes, p);
      MergeOfNothing(covPrefix);
    }
    assert merged == Merge(covPrefix);
    UpdateAllAt(before, Expand(c.pattern, mtypes), c.params, p);
    if Covers(c.pattern, mtypes, p) {
      assert after[p] == merged + c.params;
    } else {
      assert after[p] == merged;
      assert cov[|cs| - 1] == map[];
      assert merged + map[] == merged;
    }
  }

  /** Merging maps that are all empty gives the empty map. */
  lemma {:induction false} MergeOfNothing<K, V>(ms: seq<map<K, V>>)
    requires forall i :: 0 <= i < |ms| ==> ms[i] == map[]
    ensures Merge(ms) == map[]
  {
    if ms != [] {
      MergeOfNothing(ms[..|ms| - 1]);
    }
  }

  /**
   * Last write wins: parameter `k` of pathway `p` is set iff some covering
   * contribution sets it, and its value comes from the last one that does.
   */
  lemma LastWriteWins(cs: seq<Contribution>, mtypes: seq<string>, p: Pathway, k: string)
    ensures var j := LastWith(CoveringParams(cs, mtypes, p), k);
      && ((p in Assemble(cs, mtypes) && k in Assemble(cs, mtypes)[p]) <==> j >= 0)
      && (j >= 0 ==> Covers(cs[j].pattern, mtypes, p) && Assemble(cs, mtypes)[p][k] == cs[j].params[k])
      && (forall i :: j < i < |cs| ==> !(Covers(cs[i].pattern, mtypes, p) && k in cs[i].params))
  {
    var cov := CoveringParams(cs, mtypes, p);
    AssembleHas(cs, mtypes, p);
    if p in Assemble(cs, mtypes) {
      AssembleAt(cs, mtypes, p);
    }
    MergeAt(cov, k);
    var j := LastWith(cov, k);
    if j >= 0 {
      assert exists i :: 0 <= i < |cs| && Covers(cs[i].pattern, mtypes, p) by {
        assert Covers(cs[j].pattern, mtypes, p);
      }
    }
    forall i | j < i < |cs|
      ensures !(Covers(cs[i].pattern, mtypes, p) && k in cs[i].params)
    {
      assert k !in cov[i];
    }
  }

  // ---------------------------------------------------------------------
  // Cleaning

  /** One iteration of `clean_recipe` for pathway `p`. */
  function CleanStep(rules: Rules, p: Pathway): Rules
  {
    if p !in rules then rules
    else if Verdict(rules[p].Keys).isValid then rules[p := Pruned(rules[p])]
    else rules - {p}
  }

  /** `CleanStep` for each pathway of `ps`, in order. */
  function CleanAll(rules: Rules, ps: seq<Pathway>): Rules
  {
    if ps == [] then rules else CleanStep(CleanAll(rules, ps[..|ps| - 1]), ps[|ps| - 1])
  }

  lemma CleanAllStep(rules: Rules, ps: seq<Pathway>, i: int)
    requires 0 <= i < |ps|
    ensures CleanAll(rules, ps[..i + 1]) == CleanStep(CleanAll(rules, ps[..i]), ps[i])
  {
    assert ps[..i + 1][..i] == ps[..i];
  }

  /**
   * After cleaning with the pathways `ps`: a pathway of `ps` stays iff it
   * was there with a complete parameter set, and it keeps its pruned
   * parameters; any other key is untouched.
   */
  lemma {:induction false} CleanAllAt(rules: Rules, ps: seq<Pathway>, p: Pathway)
    ensures p !in ps ==> (p in CleanAll(rules, ps) <==> p in rules)
    ensures p !in ps && p in rules ==> CleanAll(rules, ps)[p] == rules[p]
    ensures p in ps ==> (p in CleanAll(rules, ps) <==> p in rules && Complete(rules[p].Keys))
    ensures p in ps && p in CleanAll(rules, ps) ==> CleanAll(rules, ps)[p] == Pruned(rules[p])
  {
    if ps != [] {
      var prefix := ps[..|ps| - 1];
      CleanAllAt(rules, prefix, p);
      if p in rules && Complete(rules[p].Keys) {
        PrunedIsStable(rules[p]);
      }
      assert ps == prefix + [ps[|ps| - 1]];
    }
  }

  /** Every pathway of mtypes x mtypes left in a cleaned recipe passes `validate_params`. */
  lemma CleanedPathwaysAreValid(rules: Rules, mtypes: seq<string>, p: Pathway)
    requires p.0 in mtypes && p.1 in mtypes
    requires p in CleanAll(rules, Product(mtypes, mtypes))
    ensures Verdict(CleanAll(rules, Product(mtypes, mtypes))[p].Keys).isValid
  {
    CleanAllAt(rules, Product(mtypes, mtypes), p);
    PrunedIsStable(rules[p]);
  }

  /** The recipe being built, a dict from pathway to parameters. */
  class Recipe {
    var rules: Rules

    constructor ()
      ensures rules == map[]
    {
      rules := map[];
    }

    /** `recipe.setdefault(pathway, {}).update(params)` */
    method Update(p: Pathway, params: ParamMap)
      modifies this
      ensures rules == UpdateRule(old(rules), p, params)
    {
      var current := if p in rules then rules[p] else map[];
      rules := rules[p := current + params];
    }

    /** The innermost loop of `init_recipe`: one contribution over its expanded pathways. */
    method AddContribution(c: Contribution, mtypes: seq<string>)
      modifies this
      ensures rules == UpdateAll(old(rules), Expand(c.pattern, mtypes), c.params)
    {
      var pathways := Product(Side(c.pattern.0, mtypes), Side(c.pattern.1, mtypes));
      var k := 0;
      while k < |pathways|
        invariant 0 <= k <= |pathways|
        invariant rules == UpdateAll(old(rules), pathways[..k], c.params)
      {
        Update(pathways[k], c.params);
        assert pathways[..k + 1][..k] == pathways[..k];
        k := k + 1;
      }
      assert pathways[..|pathways|] == pathways;
    }

    /** The loop of `init_recipe` over the contributions of one task result. */
    method AddContributions(cs: seq<Contribution>, mtypes: seq<string>)
      modifies this
      ensures rules == AssembleOnto(old(rules), cs, mtypes)
    {
      var j := 0;
      while j < |cs|
        invariant 0 <= j <= |cs|
        invariant rules == AssembleOnto(old(rules), cs[..j], mtypes)
      {
        AddContribution(cs[j], mtypes);
        AssembleOntoStep(old(rules), cs, j, mtypes);
        j := j + 1;
      }
      assert cs[..|cs|] == cs;
    }

    /** The loop of `clean_recipe` over the pathways `pathways`. */
    method CleanPathways(pathways: seq<Pathway>)
      modifies this
      ensures rules == CleanAll(old(rules), pathways)
    {
      var i := 0;
      while i < |pathways|
        invariant 0 <= i <= |pathways|
        invariant rules == CleanAll(old(rules), pathways[..i])
      {
        var p := pathways[i];
        CleanAllStep(old(rules), pathways, i);
        if p in rules {
          var isValid, missing, after := ValidateParams(rules[p]);
          if !isValid {
            rules := rules - {p};
          } else {
            rules := rules[p := after];
          }
        }
        i := i + 1;
      }
      assert pathways[..|pathways|] == pathways;
    }

    /** `clean_recipe(recipe, mtypes)` */
    method Clean(mtypes: seq<string>)
      modifies this
      ensures rules == CleanAll(old(rules), Product(mtypes, mtypes))
    {
      CleanPathways(Product(mtypes, mtypes));
    }
  }

  /** `init_recipe(task_results, mtypes)` */
  method InitRecipe(taskResults: seq<TaskResult<seq<Contribution>>>, mtypes: seq<string>) returns (recipe: Recipe)
    ensures fresh(recipe)
    ensures recipe.rules == Assemble(Flatten(taskResults), mtypes)
  {
    recipe := new Recipe();
    var i := 0;
    while i < |taskResults|
      invariant 0 <= i <= |taskResults|
      invariant recipe.rules == Assemble(Flatten(taskResults[..i]), mtypes)
    {
      recipe.AddContributions(taskResults[i].value, mtypes);
      AssembleOntoConcat(map[], Flatten(taskResults[..i]), taskResults[i].value, mtypes);
      assert taskResults[..i + 1][..i] == taskResults[..i];
      i := i + 1;
    }
    assert taskResults[..|taskResults|] == taskResults;
  }

  /** The strategy names `DISPATCH` knows. */
  const Dispatch: set<string> := {
    "estimate_bouton_reduction", "estimate_individual_bouton_reduction", "estimate_syns_con",
    "experimental_syns_con", "existing_recipe", "generalized_cv", "override_mtype", AddConstraintsStrategy
  }

  /** What `execute_strategies` raises on an entry, if anything. */
  function EntryError(entry: StrategyEntry): Option<Error>
  {
    if !SingleStrategy(entry) then Some(AssertionError("Only one key can be specified for the strategy"))
    else if entry[0].0 !in Dispatch then Some(KeyError(entry[0].0))
    else None
  }

  /**
   * `entryError` rejects every entry that is not a single strategy: the
   * entries it lets through can be split into a name and its arguments.
   */
  ghost predicate ChecksShape(entryError: StrategyEntry -> Option<Error>)
  {
    forall e :: entryError(e).None? ==> SingleStrategy(e)
  }

  /**
   * What handling one entry raises, if anything: the error `entryError`
   * gives for the entry itself, or else the one running its strategy
   * with `run(name, kwargs)` raises.
   */
  function StepError<T>(
    entry: StrategyEntry, entryError: StrategyEntry -> Option<Error>, run: (string, ParamMap) -> Result<seq<T>>
  ): (e: Option<Error>)
    requires ChecksShape(entryError)
    ensures e.None? <==> entryError(entry).None? && run(entry[0].0, entry[0].1).Success?
    ensures entryError(entry).Some? ==> e == entryError(entry)
  {
    if entryError(entry).Some? then entryError(entry)
    else
      var out := run(entry[0].0, entry[0].1);
      if out.Failure? then Some(out.error) else None
  }

  /**
   * The strategies run one after another, their outputs concatenated in
   * order; the first entry that raises stops the loop with its error.
   */
  function RunAll<T>(
    strategies: seq<StrategyEntry>, entryError: StrategyEntry -> Option<Error>, run: (string, ParamMap) -> Result<seq<T>>
  ): Result<seq<T>>
    requires ChecksShape(entryError)
  {
    if strategies == [] then Success([])
    else
      var before := RunAll(strategies[..|strategies| - 1], entryError, run);
      var last := strategies[|strategies| - 1];
      var e := StepError(last, entryError, run);
      if before.Failure? then before
      else if e.Some? then Failure(e.value)
      else Success(before.value + run(last[0].0, last[0].1).value)
  }

  /** Entry `i` is the first one whose handling raises. */
  predicate FirstFailure<T>(
    strategies: seq<StrategyEntry>, entryError: StrategyEntry -> Option<Error>, run: (string, ParamMap) -> Result<seq<T>>,
    i: int
  )
    requires ChecksShape(entryError)
  {
    && 0 <= i < |strategies| && StepError(strategies[i], entryError, run).Some?
    && forall j :: 0 <= j < i ==> StepError(strategies[j], entryError, run).None?
  }

  /**
   * The loop fails iff handling some entry raises (a bad entry, or a
   * strategy that raises), and then with the error of the first such entry.
   */
  lemma {:induction false} RunAllFails<T>(
    strategies: seq<StrategyEntry>, entryError: StrategyEntry -> Option<Error>, run: (string, ParamMap) -> Result<seq<T>>
  )
    requires ChecksShape(entryError)
    ensures var r := RunAll(strategies, entryError, run);
      && (r.Failure? <==> exists i :: 0 <= i < |strategies| && StepError(strategies[i], entryError, run).Some?)
      && (r.Failure? ==> exists i :: FirstFailure(strategies, entryError, run, i)
                                    && StepError(strategies[i], entryError, run) == Some(r.error))
  {
    if strategies != [] {
      var init := strategies[..|strategies| - 1];
      RunAllFails(init, entryError, run);
      assert forall j :: 0 <= j < |init| ==> strategies[j] == init[j];
      var before := RunAll(init, entryError, run);
      if before.Failure? {
        var i :| FirstFailure(init, entryError, run, i) && StepError(init[i], entryError, run) == Some(before.error);
        assert FirstFailure(strategies, entryError, run, i);
      } else if StepError(strategies[|strategies| - 1], entryError, run).Some? {
        assert FirstFailure(strategies, entryError, run, |strategies| - 1);
      }
    }
  }

  /**
   * When the loop does not fail, its output is the concatenation of every
   * strategy's output, in the order of the entries.
   */
  lemma {:induction false} RunAllOutputs<T>(
    strategies: seq<StrategyEntry>, entryError: StrategyEntry -> Option<Error>, run: (string, ParamMap) -> Result<seq<T>>,
    i: int
  )
    requires ChecksShape(entryError)
    requires RunAll(strategies, entryError, run).Success?
    requires 0 <= i < |strategies|
    ensures entryError(strategies[i]).None? && RunAll(strategies[..i], entryError, run).Success?
    ensures var out := run(strategies[i][0].0, strategies[i][0].1);
      && out.Success?
      && RunAll(strategies[..i], entryError, run).value + out.value <= RunAll(strategies, entryError, run).value
    decreases |strategies|
  {
    var init := strategies[..|strategies| - 1];
    if i < |strategies| - 1 {
      RunAllOutputs(init, entryError, run, i);
      assert init[..i] == strategies[..i];
    } else {
      assert init == strategies[..i];
    }
  }

  lemma RunAllStep<T>(
    strategies: seq<StrategyEntry>, i: int, entryError: StrategyEntry -> Option<Error>,
    run: (string, ParamMap) -> Result<seq<T>>
  )
    requires ChecksShape(entryError)
    requires 0 <= i < |strategies|
    requires RunAll(strategies[..i], entryError, run).Success?
    ensures var e := StepError(strategies[i], entryError, run);
      RunAll(strategies[..i + 1], entryError, run)
      == if e.Some? then Failure(e.value)
         else Success(RunAll(strategies[..i], entryError, run).value + run(strategies[i][0].0, strategies[i][0].1).value)
  {
    assert strategies[..i + 1][..i] == strategies[..i];
  }

  /** An error stops the loop: the entries after it change nothing. */
  lemma {:induction false} RunAllFailureSticks<T>(
    strategies: seq<StrategyEntry>, i: nat, entryError: StrategyEntry -> Option<Error>,
    run: (string, ParamMap) -> Result<seq<T>>
  )
    requires ChecksShape(entryError)
    requires i <= |strategies|
    requires RunAll(strategies[..i], entryError, run).Failure?
    ensures RunAll(strategies, entryError, run) == RunAll(strategies[..i], entryError, run)
    decreases |strategies| - i
  {
    if i < |strategies| {
      assert strategies[..i + 1][..i] == strategies[..i];
      RunAllFailureSticks(strategies, i + 1, entryError, run);
    } else {
      assert strategies[..i] == strategies;
    }
  }

  /**
   * The loop of a generator over its strategy entries, `results` holding
   * the outputs so far; `entryError` is the generator's check of an entry.
   */
  method RunStrategies<T>(
    strategies: seq<StrategyEntry>, entryError: StrategyEntry -> Option<Error>, run: (string, ParamMap) -> Result<seq<T>>
  ) returns (r: Result<seq<T>>)
    requires ChecksShape(entryError)
    ensures r == RunAll(strategies, entryError, run)
  {
    var results := [];
    var i := 0;
    while i < |strategies|
      invariant 0 <= i <= |strategies|
      invariant RunAll(strategies[..i], entryError, run) == Success(results)
    {
      var entry := strategies[i];
      RunAllStep(strategies, i, entryError, run);
      var error := entryError(entry);
      if error.Some? {
        RunAllFailureSticks(strategies, i + 1, entryError, run);
        return Failure(error.value);
      }
      var out := run(entry[0].0, entry[0].1);
      if out.Failure? {
        RunAllFailureSticks(strategies, i + 1, entryError, run);
        return Failure(out.error);
      }
      results := results + out.value;
      i := i + 1;
    }
    assert strategies[..i] == strategies;
    return Success(results);
  }

  /**
   * `execute_strategies(edge_population, strategies, jobs, base_seed)`:
   * `run(name, kwargs)` stands for `DISPATCH[name](jobs, base_seed).run(...)`,
   * which may raise.  The first malformed or unknown entry, or the first
   * strategy that raises, stops the loop with its error.
   */
  method ExecuteStrategies(
    strategies: seq<StrategyEntry>, run: (string, ParamMap) -> Result<seq<TaskResult<seq<Contribution>>>>
  ) returns (r: Result<seq<TaskResult<seq<Contribution>>>>)
    ensures r == RunAll(strategies, EntryError, run)
    ensures r.Failure? <==> exists i :: 0 <= i < |strategies| && StepError(strategies[i], EntryError, run).Some?
    ensures r.Failure? ==> exists i :: FirstFailure(strategies, EntryError, run, i)
                                       && StepError(strategies[i], EntryError, run) == Some(r.error)
  {
    r := RunStrategies(strategies, EntryError, run);
    RunAllFails(strategies, EntryError, run);
  }

  /**
   * `generate_recipe(...)`: execute the strategies, assemble, then clean
   * over mtypes x mtypes.  `mtypes` are the edge population's mtypes.
   */
  method GenerateRecipe(
    mtypes: seq<string>, strategies: seq<StrategyEntry>,
    run: (string, ParamMap) -> Result<seq<TaskResult<seq<Contribution>>>>
  ) returns (r: Result<Recipe>)
    ensures var results := RunAll(strategies, EntryError, run);
      && (r.Failure? <==> results.Failure?)
      && (r.Failure? ==> r.error == results.error)
      && (r.Success? ==> fresh(r.value))
      && (r.Success? ==> r.value.rules == CleanAll(Assemble(Flatten(results.value), mtypes), Product(mtypes, mtypes)))
  {
    var results := ExecuteStrategies(strategies, run);
    if results.Failure? {
      return Failure(results.error);
    }
    var recipe := InitRecipe(results.value, mtypes);
    recipe.Clean(mtypes);
    return Success(recipe);
  }
}
