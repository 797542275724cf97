/**
 * The add_constraints strategy of connectome_tools/s2f_recipe/add_constraints.py:
 * generic constraints (selection attributes such as regions) added to
 * every rule.
 */
module AddConstraints {
  import opened Common
  import opened Utils
  import opened LastWins
  import opened S2fRecipe

  /** `Executor.is_parallel`: the tasks run in process, one after the other. */
  const IsParallel: bool := false

  /** The group of the strategy's tasks, the module's `__name__`. */
  const TaskGroup: string := "connectome_tools.s2f_recipe.add_constraints"

  /** `_execute(constraints)` */
  function ExecuteConstraints(constraints: ParamMap): (r: seq<Contribution>)
    ensures |r| == 1
    ensures r[0].pattern == (Wildcard, Wildcard) && r[0].params == constraints
  {
    [Contribution((Wildcard, Wildcard), constraints)]
  }

  /** `Executor.prepare(circuit, population, **constraints)`: one task in the module's group. */
  function Prepare(constraints: ParamMap): (tasks: seq<Task<seq<Contribution>>>)
    ensures |tasks| == 1
    ensures tasks[0].group == Some(TaskGroup)
    ensures forall seed :: tasks[0].func(seed) == ExecuteConstraints(constraints)
  {
    [Task(_ => ExecuteConstraints(constraints), Some(TaskGroup))]
  }

  /**
   * The test of `prepare`: running the prepared tasks gives one result,
   * whose value is the single wildcard entry with the constraints as given.
   */
  lemma PreparedTaskRuns(constraints: ParamMap, clock: nat -> real)
    ensures var rs := RunSequential(Prepare(constraints), clock);
      |rs| == 1 && rs[0].id == 0 && rs[0].group == Some(TaskGroup)
      && rs[0].value == [Contribution((Wildcard, Wildcard), constraints)]
  {
  }

  /**
   * Placed after the other strategies, the constraints end up on every
   * pathway of mtypes x mtypes, whatever the earlier strategies set for the
   * same parameters.
   */
  lemma ConstraintsWinWhenLast(cs: seq<Contribution>, constraints: ParamMap, mtypes: seq<string>, p: Pathway, k: string)
    requires p.0 in mtypes && p.1 in mtypes && k in constraints
    ensures var rules := Assemble(cs + ExecuteConstraints(constraints), mtypes);
      p in rules && k in rules[p] && rules[p][k] == constraints[k]
  {
    var all := cs + ExecuteConstraints(constraints);
    var cov := CoveringParams(all, mtypes, p);
    assert Covers(all[|all| - 1].pattern, mtypes, p);
    LastWriteWins(all, mtypes, p, k);
    assert k in cov[|cov| - 1];
    assert LastWith(cov, k) == |all| - 1;
  }
}
