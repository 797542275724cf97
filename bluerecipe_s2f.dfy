/**
 * The older generator of bluerecipe/bluerecipe/s2f.py: the same wildcard
 * expansion and later-wins merge as the current one, applied strategy by
 * strategy, and a verification that raises instead of cleaning.
 */
module BlueRecipeS2f {
  import opened Common
  import opened S2fRecipe

  /** Every rule must set all three. */
  const RequiredParams: set<string> := {BoutonReductionFactor, CvSynsConnection, MeanSynsConnection}

  /** The strategy names this generator knows. */
  const Dispatch: set<string> := {
    "estimate_bouton_reduction", "estimate_individual_bouton_reduction", "estimate_syns_con",
    "experimental_syns_con", "existing_recipe", "generalized_cv"
  }

  /** What `generate_recipe` raises on an entry, if anything. */
  function EntryError(entry: StrategyEntry): Option<Error>
  {
    if !SingleStrategy(entry) then Some(AssertionError(""))
    else if entry[0].0 !in Dispatch then Some(KeyError(entry[0].0))
    else None
  }

  /**
   * `generate_recipe(circuit, strategies)`, `mtypes` being the circuit's
   * mtypes and `execute(name, kwargs)` the items of
   * `DISPATCH[name].execute(circuit, **kwargs)`, which may raise.  The first
   * malformed or unknown entry, or the first strategy that raises, stops it
   * with its error.
   */
  method GenerateRecipe(
    mtypes: seq<string>, strategies: seq<StrategyEntry>, execute: (string, ParamMap) -> Result<seq<Contribution>>
  ) returns (r: Result<Rules>)
    ensures var all := RunAll(strategies, EntryError, execute);
      && (r.Failure? <==> all.Failure?)
      && (r.Failure? ==> r.error == all.error)
      && (r.Success? ==> r.value == Assemble(all.value, mtypes))
    ensures r.Failure? <==> exists i :: 0 <= i < |strategies| && StepError(strategies[i], EntryError, execute).Some?
    ensures r.Failure? ==> exists i :: FirstFailure(strategies, EntryError, execute, i)
                                       && StepError(strategies[i], EntryError, execute) == Some(r.error)
  {
    r := AssembleStrategies(mtypes, strategies, execute);
    RunAllFails(strategies, EntryError, execute);
  }

  /** The loop of `generate_recipe`: the recipe grows strategy by strategy. */
  method AssembleStrategies(
    mtypes: seq<string>, strategies: seq<StrategyEntry>, execute: (string, ParamMap) -> Result<seq<Contribution>>
  ) returns (r: Result<Rules>)
    ensures var all := RunAll(strategies, EntryError, execute);
      && (r.Failure? <==> all.Failure?)
      && (r.Failure? ==> r.error == all.error)
      && (r.Success? ==> r.value == Assemble(all.value, mtypes))
  {
    var recipe := new Recipe();
    ghost var done := [];
    var i := 0;
    while i < |strategies|
      invariant 0 <= i <= |strategies|
      invariant RunAll(strategies[..i], EntryError, execute) == Success(done)
      invariant recipe.rules == Assemble(done, mtypes)
    {
      var entry := strategies[i];
      RunAllStep(strategies, i, EntryError, execute);
      var error := EntryError(entry);
      if error.Some? {
        RunAllFailureSticks(strategies, i + 1, EntryError, execute);
        return Failure(error.value);
      }
      var result := execute(entry[0].0, entry[0].1);
      if result.Failure? {
        RunAllFailureSticks(strategies, i + 1, EntryError, execute);
        return Failure(result.error);
      }
      recipe.AddContributions(result.value, mtypes);
      AssembleOntoConcat(map[], done, result.value, mtypes);
      done := done + result.value;
      i := i + 1;
    }
    assert strategies[..i] == strategies;
    return Success(recipe.rules);
  }

  /** The outcome of `verify_recipe`: the `RuntimeError`, or the pathways it warns about. */
  datatype Verification =
    | Raised(pathway: Pathway, undefined: set<string>)
    | Passed(missingPathways: set<Pathway>)

  /**
   * `verify_recipe(circuit, recipe)`: the recipe's pathways are visited in
   * an unspecified order and the first one lacking a required parameter
   * raises; otherwise the pathways of mtypes x mtypes absent from the
   * recipe are only reported.  The recipe is passed by value: nothing
   * changes it.
   */
  method VerifyRecipe(mtypes: seq<string>, recipe: Rules) returns (outcome: Verification)
    ensures outcome.Raised? <==> exists p :: p in recipe && !(RequiredParams <= recipe[p].Keys)
    ensures outcome.Raised? ==> outcome.pathway in recipe
    ensures outcome.Raised? ==> outcome.undefined == RequiredParams - recipe[outcome.pathway].Keys
    ensures outcome.Raised? ==> outcome.undefined != {}
    ensures outcome.Passed? ==> forall p :: p in outcome.missingPathways <==> p.0 in mtypes && p.1 in mtypes && p !in recipe
  {
    var unvisited := recipe.Keys;
    while unvisited != {}
      invariant unvisited <= recipe.Keys
      invariant forall p :: p in recipe && p !in unvisited ==> RequiredParams <= recipe[p].Keys
      decreases unvisited
    {
      var p :| p in unvisited;
      var undefined := RequiredParams - recipe[p].Keys;
      if undefined != {} {
        return Raised(p, undefined);
      }
      assert RequiredParams <= recipe[p].Keys by {
        forall k | k in RequiredParams
          ensures k in recipe[p].Keys
        {
          assert k !in undefined;
        }
      }
      unvisited := unvisited - {p};
    }
    var pathways := Product(mtypes, mtypes);
    return Passed((set p | p in pathways) - recipe.Keys);
  }
}
