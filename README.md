# S2F recipe generator, modelled in Dafny

The project models the S2F ("structural to functional") recipe generator of
connectome-tools. It also models the older generator of the `bluerecipe`
package and the split-and-merge orchestration that builds one recipe from
several partial recipes.

A *recipe* maps each pathway `(pre mtype, post mtype)` to a dict of
parameters. The generator works in four steps:

1. Each configured *strategy* emits `(pathway_pattern, param_map)`
   contributions. Either side of a pattern may be the wildcard `"*"`.
2. Each contribution is expanded against the circuit's mtypes.
3. The contributions are merged into the recipe, a later parameter
   overriding an earlier one of the same name.
4. The recipe is cleaned: every pathway of mtypes × mtypes is checked
   against the completeness rule for parameters. Incomplete pathways are
   dropped. In complete ones, the superseded alternative-2 parameters are
   pruned.

The merge orchestration works as follows:

- It names each region's partial recipe after its `add_constraints`
  parameters, or `MISSING_CONSTRAINTS` when there are none.
- The file name comes from that name, form-encoded, plus a checksum.
- It runs the jobs of the regions whose file does not exist yet, and stops
  with status 1 if any job fails.
- Otherwise it concatenates the rules of all partial recipes in region
  order.

Modules, one per source file (plus three shared ones):

- `Common`: shared values: parameter values, pathways, contributions, Option/Result, the exceptions raised
- `Strings`: Python's code-point string order, `sorted` of a set of strings, `str.join`, prefix/suffix/substring tests
- `LastWins`: the `dict.update` merge used throughout, with the "last map that has the key" index
- `Utils`: connectome_tools/utils.py
- `S2fRecipe`: connectome_tools/apps/s2f_recipe.py
- `Dataset`: connectome_tools/dataset.py
- `EstimateSynsCon`: connectome_tools/s2f_recipe/estimate_syns_con.py
- `EstimateIndividualBoutonReduction`: connectome_tools/s2f_recipe/estimate_individual_bouton_reduction.py
- `ExperimentalSynsCon`, `GeneralizedCv`, `OverrideMtype`, `AddConstraints`: the strategies of the same names
- `FormEncoding`, `Merge`: connectome_tools/merge.py and the `quote_plus` it calls
- `BlueRecipeS2f`, `BlueRecipeEstimateSynsCon`: bluerecipe/bluerecipe/s2f.py and its estimate_syns_con strategy

Code that updates state in place is modelled as methods:

- The recipe dict is the class `S2fRecipe.Recipe`. `init_recipe` and
  `clean_recipe` mutate it.
- `os.environ` is the class `Utils.Environment`. `clean_slurm_env` mutates it.
- The loops of `execute_strategies`, `execute_pending_tasks`,
  `_build_xml_tree`, `CreateFullRecipe.run` and the strategies' `execute`
  become methods with loop invariants.
- Each of these methods is proved equal to a specification function.
- The lemmas state what the source promises about those functions.

Pure code (`name`, `output`, `choose_formula`, the strategies that are a
single comprehension, the dataset filters) is modelled as functions.

Some inputs of the model are opaque functions given as parameters:

- the circuit, the synapse classes and the mtypes;
- sampling and dataset lookup;
- formula evaluation;
- `Path.resolve`;
- the MD5 digest;
- the outcome of each cluster job.

Floats are reals. A NaN estimate is `None`, and a division that numpy
would make infinite is the value `NonFinite`.

## Model

| member | source | states |
|---|---|---|
| S2fRecipe.Verdict | connectome_tools/apps/s2f_recipe.py:78-95 | valid iff no missing set is reported. Valid iff the required parameter is present and either all of alternative 1, or none of it and all of alternative 2. When invalid, the missing set is non-empty, disjoint from the dict's keys and drawn from the three parameter sets |
| S2fRecipe.ValidateParams | connectome_tools/apps/s2f_recipe.py:67-95 | the verdict is that of the completeness rule on the dict's keys. The dict afterwards has the alternative-2 keys popped exactly when the required and alternative-1 parameters are complete. A call returning False leaves the dict unchanged |
| S2fRecipe.PrunedIsStable | connectome_tools/apps/s2f_recipe.py:81-86 | pruning keeps a complete dict complete. It removes only the alternative-2 keys, and only when alternative 1 is complete. Every kept value is unchanged, and a second pruning changes nothing |
| S2fRecipe.ValidCases | tests/apps/test_s2f_recipe.py:32-62 | alternative 2 alone and alternative 1 alone are valid. Both together are valid, with alternative 2 pruned |
| S2fRecipe.InvalidCases | tests/apps/test_s2f_recipe.py:63-95 | a half-present alternative 1 is invalid even beside a complete alternative 2, reporting p_A/pMu_A. The empty dict reports the reduction factor. Incomplete alternative 2 reports what it lacks |
| S2fRecipe.Product | connectome_tools/apps/s2f_recipe.py:120-123 | `itertools.product` has \|xs\|·\|ys\| pairs: exactly the pairs with first side in xs and second side in ys |
| S2fRecipe.Expand | connectome_tools/apps/s2f_recipe.py:120-123 | a pattern expands to exactly the pathways whose each side is an mtype where the pattern has `*`, and equals the pattern's side otherwise |
| S2fRecipe.Recipe.constructor | connectome_tools/apps/s2f_recipe.py:114 | the recipe starts empty |
| S2fRecipe.Recipe.Update | connectome_tools/apps/s2f_recipe.py:125 | `setdefault(p, {}).update(params)`: p's parameters become the old ones (or none) overridden by params; other pathways are unchanged |
| S2fRecipe.Recipe.AddContribution | connectome_tools/apps/s2f_recipe.py:120-125 | the recipe is updated with the contribution's params on each pathway of its expansion, in order |
| S2fRecipe.Recipe.AddContributions | connectome_tools/apps/s2f_recipe.py:119-125 | the recipe is the old one with the task result's contributions assembled onto it in order |
| S2fRecipe.InitRecipe | connectome_tools/apps/s2f_recipe.py:112-126 | a fresh recipe equal to the assembly of all contributions of all task results, in task order |
| S2fRecipe.AssembleOntoConcat | connectome_tools/apps/s2f_recipe.py:116-125 | assembling a + b is assembling b onto the assembly of a, so task-by-task assembly equals assembly of the flattened list |
| S2fRecipe.AssembleHas | connectome_tools/apps/s2f_recipe.py:119-125 | the recipe's pathways are exactly the union of the expansions of all contributions |
| S2fRecipe.AssembleAt | connectome_tools/apps/s2f_recipe.py:115-125 | a pathway's parameters are the later-wins merge of the params of the contributions covering it, in order |
| S2fRecipe.LastWriteWins | connectome_tools/apps/s2f_recipe.py:115-125 | parameter k of pathway p is set iff some covering contribution sets it. Its value is from the last one that does, and no later covering contribution sets k. Parameters with different names accumulate |
| S2fRecipe.Recipe.Clean | connectome_tools/apps/s2f_recipe.py:129-142 | the recipe becomes the old one cleaned pathway by pathway over mtypes × mtypes |
| S2fRecipe.Recipe.CleanPathways | connectome_tools/apps/s2f_recipe.py:131-142 | the recipe becomes the old one cleaned pathway by pathway, in the order of the given pathways |
| S2fRecipe.CleanAllAt | connectome_tools/apps/s2f_recipe.py:131-142 | a pathway outside mtypes × mtypes keeps its presence and parameters. A pathway inside stays iff it was present with a complete parameter set, and then holds its pruned parameters |
| S2fRecipe.CleanedPathwaysAreValid | connectome_tools/apps/s2f_recipe.py:131-142 | every pathway of mtypes × mtypes left after cleaning passes `validate_params` |
| S2fRecipe.ExecuteStrategies | connectome_tools/apps/s2f_recipe.py:98-109 | the outcome of the loop over the entries. It fails iff some entry is malformed, names an unknown strategy or has a strategy run that raises. The error is then that of the first such entry: the AssertionError ("Only one key …"), the KeyError, or the strategy's own exception. Success gives the task results of the strategies concatenated in order |
| S2fRecipe.StepError | connectome_tools/apps/s2f_recipe.py:101-107 | an entry raises nothing iff the generator's own check passes and its strategy run succeeds. An error from the check comes first |
| S2fRecipe.RunAllFails | connectome_tools/apps/s2f_recipe.py:98-109 | the strategy loop fails iff handling some entry raises, and then with the error of the first entry that does |
| S2fRecipe.RunAllOutputs | connectome_tools/apps/s2f_recipe.py:98-109 | when the loop succeeds, every entry passed its check and its run succeeded, and the output holds the outputs before it followed by its own, as a prefix |
| S2fRecipe.RunAllFailureSticks | connectome_tools/apps/s2f_recipe.py:98-109 | once an entry raises, the entries after it change nothing |
| S2fRecipe.RunStrategies | connectome_tools/apps/s2f_recipe.py:98-109 | the loop over the entries gives the outputs concatenated in order, or the first error |
| S2fRecipe.GenerateRecipe | connectome_tools/apps/s2f_recipe.py:145-183 | fails iff execute_strategies does, with its error. Otherwise the recipe is fresh and equal to the cleaned assembly of the strategies' results over the mtypes |
| Utils.RunParallel | connectome_tools/utils.py:117-134 | one result per task, in submission order. Result i has id i and the task's group, and its value is the task's function run with seed base_seed + i, or None without a base seed |
| Utils.RunSequential | connectome_tools/utils.py:137-139 | one result per task, in list order. Result i has id i and the task's group, and its value is the function run with no seed |
| Utils.SeedsDistinct | connectome_tools/utils.py:129 | with a base seed, two tasks of one run never share a seed |
| Utils.ParallelWithoutSeedMatchesSequential | connectome_tools/utils.py:117-139 | without a base seed, the parallel run numbers and labels its results as the sequential run does, whatever either run's timings |
| Utils.ParallelValuesIgnoreTiming | connectome_tools/utils.py:157-176 | the values of a run do not depend on the measured elapsed times |
| Utils.CellGroup | connectome_tools/utils.py:182-195 | the group always maps `mtype` to the mtype. It holds the node-set key iff a node set is given, with that value, and no other key |
| Utils.EnsureList | connectome_tools/utils.py:260-270 | an iterable gives its items in order. A string or scalar gives a one-element list |
| Utils.NodePopulationMtypes | connectome_tools/utils.py:245-249 | strictly sorted, and exactly the population's mtype values. Nothing comes from a population without an mtype property |
| Utils.EdgePopulationMtypes | connectome_tools/utils.py:252-257 | strictly sorted, without duplicates: exactly the union of source and target mtypes |
| Utils.WithoutSlurmVariables | connectome_tools/utils.py:239-242 | exactly the keys that do not start with PMI_/SLURM_, or that end with _ACCOUNT/_PARTITION, are kept, with their values |
| Utils.Environment.constructor | connectome_tools/utils.py:239 | the environment holds the given variables |
| Utils.Environment.CleanSlurmEnv | connectome_tools/utils.py:231-242 | the environment becomes the old one without the deleted variables |
| Utils.NodeNameIsKept | tests/test_utils.py:139-157 | SLURMD_NODENAME is kept although it starts with "SLURM" |
| Utils.PartitionAndAccountAreKept | tests/test_utils.py:139-157 | SLURM_JOB_PARTITION and SLURM_JOB_ACCOUNT are kept |
| Utils.NodeIdAndRankAreDeleted | tests/test_utils.py:139-157 | SLURM_NODEID and PMI_RANK are deleted |
| Utils.OtherInstances | connectome_tools/utils.py:65-70 | exactly the processes with another pid but the same name, username and command line |
| Utils.ExitIfNotAlone | connectome_tools/utils.py:61-78 | exits with status 1 iff another instance exists, and otherwise lets the program run |
| Strings.SortedSet | connectome_tools/utils.py:249 | `sorted` of a set of strings: each element once, nothing else, in strictly increasing code-point order |
| Strings.LexLessTotal | connectome_tools/utils.py:249 | the string order `sorted` uses is total: any two different strings are ordered one way |
| LastWins.MergeAt | connectome_tools/merge.py:128-134 | successive `dict.update`: a key is in the result iff some map has it, with the value of the last map that has it |
| LastWins.MergeKeys | connectome_tools/merge.py:128-134 | the keys of the merge are the union of the maps' keys |
| Dataset.Kept | connectome_tools/dataset.py:16-20 | mask selection keeps exactly the rows the mask accepts, in order, as a sub-sequence, each as many times as the table holds it. Its length equals the table's iff no row is dropped |
| Dataset.ReadBoutonDensity | connectome_tools/dataset.py:12-21 | without mtypes the rows are returned unchanged. With mtypes, exactly the rows whose mtype is known are kept, each as often as in the file, as an order-preserving sub-sequence. The warning is logged iff some row is dropped |
| Dataset.ReadNsyn | connectome_tools/dataset.py:24-35 | without mtypes the rows are returned unchanged. With mtypes, a row is kept iff both its ends are known, as often as in the file, as an order-preserving sub-sequence. The warning is logged iff some row is dropped |
| Dataset.SubsequenceBounds | connectome_tools/dataset.py:20-21 | a filtered table is never longer than the original and holds no row the original lacks |
| Dataset.ReadNsynDropsUnknownTarget | tests/test_dataset.py:63-82 | with mtypes SLM_PPA and SP_AA, the row towards SO_BP is dropped and the other two are kept in order |
| Dataset.KeptDropsMiddle | connectome_tools/dataset.py:16-20 | of three rows, a mask that rejects only the middle one keeps the outer two, in order |
| OverrideMtype.BindArguments | connectome_tools/s2f_recipe/override_mtype.py:10 | binding succeeds iff `mtype_pattern` is given. The kwargs are the other parameters, unchanged |
| OverrideMtype.Execute | connectome_tools/s2f_recipe/override_mtype.py:10-16 | the keys are exactly `(m, '*')` for the mtypes m containing the pattern. Each value is the kwargs |
| OverrideMtype.ExecuteCases | tests/s2f_recipe/test_override_mtype.py:8-60 | "CHC" selects only L4_CHC, not L6_TPC:C. "INVALID" selects nothing |
| GeneralizedCv.Execute | connectome_tools/s2f_recipe/generalized_cv.py:9-13 | a single entry, `('*', '*')`, setting `cv_syns_connection` to cv unchanged |
| GeneralizedCv.CvReachesEveryPathway | connectome_tools/s2f_recipe/generalized_cv.py:9-13 | assembled, the entry gives every pathway of mtypes × mtypes, and no other, exactly that cv |
| AddConstraints.ExecuteConstraints | connectome_tools/s2f_recipe/add_constraints.py:28-29 | a one-element list: the wildcard pattern with the constraints unchanged |
| AddConstraints.Prepare | connectome_tools/s2f_recipe/add_constraints.py:15-25 | one task in the module's group, whose function gives `_execute(constraints)` whatever the seed |
| AddConstraints.PreparedTaskRuns | tests/s2f_recipe/test_add_constraints.py:9-18 | running the prepared tasks gives one result, id 0, whose value is the single wildcard entry with the constraints |
| AddConstraints.ConstraintsWinWhenLast | connectome_tools/s2f_recipe/add_constraints.py:1-4 | placed after the other strategies, every constraint ends up on every pathway of mtypes × mtypes, whatever the earlier strategies set |
| ExperimentalSynsCon.MeanValue | connectome_tools/s2f_recipe/experimental_syns_con.py:15-17 | a number iff the cell is not empty, equal to the cell |
| ExperimentalSynsCon.ExecuteAt | connectome_tools/s2f_recipe/experimental_syns_con.py:10-19 | a pathway is a key iff both its mtypes are circuit mtypes and some row joins them. Its only parameter is the mean of the last such row |
| ExperimentalSynsCon.KeptJoin | connectome_tools/s2f_recipe/experimental_syns_con.py:13 | the rows kept for the circuit join a pathway iff the table has such a row and both its mtypes are circuit mtypes |
| ExperimentalSynsCon.ExecuteCase | tests/s2f_recipe/test_experimental_syns_con.py:11-24 | the table of the test gives 16.2 and 3.0, and the pathway towards SO_BP is dropped |
| EstimateSynsCon.FormulaTable | connectome_tools/s2f_recipe/estimate_syns_con.py:60-69 | always holds `('*','*')` with `formula`. It holds a class pair iff its `formula_xx` argument is given, with that formula, and no other key |
| EstimateSynsCon.ChooseFormula | connectome_tools/s2f_recipe/estimate_syns_con.py:26-32 | succeeds iff both mtypes have a synapse class and the class pair or the default is in the table. The class-pair formula is used when present, the default otherwise |
| EstimateSynsCon.ChooseFromTable | connectome_tools/s2f_recipe/estimate_syns_con.py:26-69 | with the table `execute` builds, the choice never fails for classified mtypes. It is the `formula_xx` given for that class pair, and `formula` otherwise |
| EstimateSynsCon.Clamp | connectome_tools/s2f_recipe/estimate_syns_con.py:100-102 | `min(max(v, 1), max_value)`: ≥ 1 without a maximum, ≤ the maximum when one is given, ≥ 1 when the maximum is ≥ 1, and v itself when already in range |
| EstimateSynsCon.SamplingArgsOf | connectome_tools/s2f_recipe/estimate_syns_con.py:77-85 | size 100 and no pre/post target unless given |
| EstimateSynsCon.CellGroup | connectome_tools/s2f_recipe/estimate_syns_con.py:35-39 | the mtype, plus `$target` iff a target is given, and no other key |
| EstimateSynsCon.EstimatorDefaults | connectome_tools/s2f_recipe/estimate_syns_con.py:73-85 | without `sample`, each pathway is sampled 100 times between its plain mtype groups, and the estimate never raises |
| EstimateSynsCon.TableLookup | connectome_tools/s2f_recipe/estimate_syns_con.py:73-75 | `dset.loc[pathway]` raises a KeyError naming the pathway iff the table has no row for it, and gives that row's mean otherwise |
| EstimateSynsCon.EstimatorFails | connectome_tools/s2f_recipe/estimate_syns_con.py:73-85 | an estimate raises iff `sample` names a table and the table has no row for the pathway |
| EstimateSynsCon.EstimatesFail | connectome_tools/s2f_recipe/estimate_syns_con.py:92-105 | with classified mtypes the loop raises iff the estimate of some candidate raises, and then with the error of the first candidate that does |
| EstimateSynsCon.EstimatesFailOnMissingRow | connectome_tools/s2f_recipe/estimate_syns_con.py:73-105 | with classified mtypes, `execute` raises iff `sample` names a table that lacks a row for some candidate pathway. Sampling never raises |
| EstimateSynsCon.EstimatesAt | connectome_tools/s2f_recipe/estimate_syns_con.py:92-105 | with classified mtypes, when the loop does not raise, a pathway gets an entry iff it is a candidate whose estimate is not NaN. The entry is the clamped value of the chosen formula |
| EstimateSynsCon.EstimatesBounded | connectome_tools/s2f_recipe/estimate_syns_con.py:99-105 | every entry has the single key `mean_syns_connection`, ≥ 1 unless the maximum is below 1, and ≤ the maximum |
| EstimateSynsCon.Execute | connectome_tools/s2f_recipe/estimate_syns_con.py:54-107 | the loop over the product of the sorted mtypes, with the table lookup or the sampler as the estimate: the estimates over those pathways, or the first error of a lookup or of `choose_formula` |
| EstimateSynsCon.EstimateAll | connectome_tools/s2f_recipe/estimate_syns_con.py:92-106 | the loop over the given pathways gives their estimates, NaN estimates skipped. It stops with the first error, whether the estimate raised it or `choose_formula` did |
| EstimateIndividualBoutonReduction.BioRows | connectome_tools/s2f_recipe/estimate_individual_bouton_reduction.py:40-47 | a float gives one row per circuit mtype, with that mean. A table gives its rows of circuit mtypes, each as often as in the table, as a sub-sequence |
| EstimateIndividualBoutonReduction.SamplingArgsOf | connectome_tools/s2f_recipe/estimate_individual_bouton_reduction.py:53-62 | size 100, no target, no region, and 1.0 synapse per bouton unless given |
| EstimateIndividualBoutonReduction.EstimatorGroups | connectome_tools/s2f_recipe/estimate_individual_bouton_reduction.py:26-35 | the sampling group is the mtype alone by default, and mtype plus `$target` when a target is given. Sampling never raises |
| EstimateIndividualBoutonReduction.TableLookup | connectome_tools/s2f_recipe/estimate_individual_bouton_reduction.py:49-51 | `dset.loc[mtype]` raises a KeyError naming the mtype iff the table has no row for it, and gives that row's mean otherwise |
| EstimateIndividualBoutonReduction.EstimatorFails | connectome_tools/s2f_recipe/estimate_individual_bouton_reduction.py:49-62 | an estimate raises iff `sample` names a table and the table has no row for the mtype |
| EstimateIndividualBoutonReduction.LookupErrorFirst | connectome_tools/s2f_recipe/estimate_individual_bouton_reduction.py:64-67 | no row raises iff every row's estimate succeeds. Otherwise the error is that of the first row whose estimate raises |
| EstimateIndividualBoutonReduction.LookupErrorSticks | connectome_tools/s2f_recipe/estimate_individual_bouton_reduction.py:64-67 | once a row raises, the rows after it change nothing |
| EstimateIndividualBoutonReduction.ReductionsFail | connectome_tools/s2f_recipe/estimate_individual_bouton_reduction.py:64-76 | the loop raises iff some row's estimate raises, and then with the error of the first such row |
| EstimateIndividualBoutonReduction.ReductionsFailOnMissingRow | connectome_tools/s2f_recipe/estimate_individual_bouton_reduction.py:49-76 | `execute` raises iff `sample` names a table that lacks a row for some row's mtype. Sampling never raises |
| EstimateIndividualBoutonReduction.Ratio | connectome_tools/s2f_recipe/estimate_individual_bouton_reduction.py:72-74 | finite iff the reference exists and the estimate is not 0. Then ratio × estimate = reference |
| EstimateIndividualBoutonReduction.ReductionsAt | connectome_tools/s2f_recipe/estimate_individual_bouton_reduction.py:64-76 | when the loop does not raise, a key is `(m, '*')` for an mtype m of some row whose estimate is not NaN, and nothing else. Its only parameter is the reduction factor of the last row of m |
| EstimateIndividualBoutonReduction.ExecuteCase | tests/s2f_recipe/test_estimate_individual_bouton_reduction.py:23-36 | density 10 with estimates NaN, 2 and 1 succeeds, with no entry for L1_DAC and factors 5 and 10 |
| EstimateIndividualBoutonReduction.Execute | connectome_tools/s2f_recipe/estimate_individual_bouton_reduction.py:38-76 | the loop over the rows, with the table lookup or the sampler as the estimate: the later-wins merge of the row entries, NaN estimates skipped, or the KeyError of the first row missing from a sample table |
| EstimateIndividualBoutonReduction.ReduceRows | connectome_tools/s2f_recipe/estimate_individual_bouton_reduction.py:64-75 | the loop over the given rows gives the later-wins merge of the row entries, NaN estimates skipped, or the error of the first row whose estimate raises |
| BlueRecipeS2f.GenerateRecipe | bluerecipe/bluerecipe/s2f.py:42-58 | fails iff some entry is malformed, names an unknown strategy or has an `execute` that raises. The error is then the first such entry's AssertionError, KeyError or exception. Otherwise the recipe is the wildcard-expanded, later-wins assembly of all strategies' contributions |
| BlueRecipeS2f.AssembleStrategies | bluerecipe/bluerecipe/s2f.py:46-57 | the loop over the entries: it fails iff the strategy loop does, with its error. Otherwise the recipe is the later-wins assembly of the contributions, grown strategy by strategy |
| BlueRecipeS2f.VerifyRecipe | bluerecipe/bluerecipe/s2f.py:79-93 | raises iff some recipe pathway lacks a required parameter, naming such a pathway and exactly its non-empty set of undefined parameters. Otherwise reports the pathways of mtypes × mtypes missing from the recipe. The recipe is not changed |
| BlueRecipeEstimateSynsCon.SynapseNumber | bluerecipe/bluerecipe/strategies/estimate_syns_con.py:61-72 | 2.0 for an empty sample, otherwise the mean (mean × size = sum) |
| BlueRecipeEstimateSynsCon.SynapseNumberBounds | bluerecipe/bluerecipe/strategies/estimate_syns_con.py:61-62 | the mean of a non-empty sample lies between the bounds of its counts |
| BlueRecipeEstimateSynsCon.Cap | bluerecipe/bluerecipe/strategies/estimate_syns_con.py:74-75 | never above the estimate, and no floor. Capped at the maximum only when one is given and is non-zero |
| BlueRecipeEstimateSynsCon.SampleGroups | bluerecipe/bluerecipe/strategies/estimate_syns_con.py:55-59 | the pre and post groups both carry `$target` when a target is given |
| BlueRecipeEstimateSynsCon.EstimatesAt | bluerecipe/bluerecipe/strategies/estimate_syns_con.py:53-78 | with classified mtypes nothing fails and nothing is skipped: every candidate pathway, and no other, gets its capped estimate |
| BlueRecipeEstimateSynsCon.EstimatePathway | bluerecipe/bluerecipe/strategies/estimate_syns_con.py:55-78 | one iteration gives the pathway's entry: formula at the synapse number, capped |
| BlueRecipeEstimateSynsCon.Execute | bluerecipe/bluerecipe/strategies/estimate_syns_con.py:29-80 | the loop over the product of the sorted mtypes gives the estimates over those pathways, or the first error |
| BlueRecipeEstimateSynsCon.EstimateAll | bluerecipe/bluerecipe/strategies/estimate_syns_con.py:53-78 | the loop over the given pathways gives an entry for each, or the first error of `choose_formula` |
| FormEncoding.QuotePlus | connectome_tools/merge.py:155 | the quoted name contains no `/`, `:`, `,` or space, so it is one path component |
| FormEncoding.UnquoteQuote | connectome_tools/merge.py:155 | quoting loses nothing: the UTF-8 bytes can be read back from the quoted text |
| FormEncoding.QuoteCase | tests/test_merge.py:76-79 | `:`, `/` and `,` are written `%3A`, `%2F` and `%2C` |
| Merge.ConstraintParamsAt | connectome_tools/merge.py:128-134 | a constraint is in `params` iff some add_constraints entry sets it, with the value of the last such entry |
| Merge.Pairs | connectome_tools/merge.py:137 | one `"k:v"` item per parameter, by sorted key |
| Merge.Name | connectome_tools/merge.py:125-137 | fails iff an entry does not have exactly one key, with the AssertionError "Only one key can be specified for the strategy" |
| Merge.NameMissing | connectome_tools/merge.py:128-136 | the name is MISSING_CONSTRAINTS iff no add_constraints entry sets any parameter |
| Merge.PairsOfTwo | connectome_tools/merge.py:137 | two constraints are joined as `a:va,b:vb` in key order |
| Merge.NameCase | tests/test_merge.py:62-74 | toRegion/fromRegion give "fromRegion:SS2/3,toRegion:PP2/3" |
| Merge.ChecksumIgnoresRunSettings | connectome_tools/merge.py:139-150 | the checksum does not depend on base path, jobs or log level |
| Merge.Output | connectome_tools/merge.py:152-156 | fails iff naming fails. The file is in the task's base path |
| Merge.OutputFileName | connectome_tools/merge.py:152-156 | the file name starts with `recipe_` and ends with `.xml`. Between them is a quoted text from which the name's bytes can be read back, then the checksum |
| Merge.OutputDeterminesName | connectome_tools/merge.py:152-156 | with 32-digit checksums, two tasks share a file only if their checksums agree and their names have the same bytes |
| Merge.Complete | connectome_tools/merge.py:176-178 | true iff a file exists at the output. Fails with the naming assertion |
| Merge.Pending | connectome_tools/merge.py:221 | fails iff some task has a malformed entry, with the naming assertion |
| Merge.PendingMembers | connectome_tools/merge.py:221 | the pending tasks are exactly the tasks not complete |
| Merge.PendingCount | connectome_tools/merge.py:221-226 | the "already calculated" count, all minus pending, is the number of complete tasks |
| Merge.PendingNamed | connectome_tools/merge.py:221-233 | no pending task has a malformed entry |
| Merge.PendingTasks | connectome_tools/merge.py:221 | the comprehension gives the incomplete tasks in order, or the assertion raised on the first malformed task |
| Merge.FailureCount | connectome_tools/merge.py:84-96 | at most the number of jobs, and 0 iff every job succeeded |
| Merge.ExecutePendingTasks | connectome_tools/merge.py:66-96 | every job is visited and the result is the number of failed jobs |
| Merge.Concatenation | connectome_tools/merge.py:48-51 | fails iff some partial recipe is missing |
| Merge.ConcatenationAt | connectome_tools/merge.py:45-52 | each partial recipe's rules appear intact right after those of the recipes before it |
| Merge.BuildXmlTree | connectome_tools/merge.py:35-52 | the root holds the rules of the partial recipes in path order, under the comment. A missing file raises |
| Merge.AllTasks | connectome_tools/merge.py:210-220 | one task per region, in order, all with the same seed |
| Merge.Outputs | connectome_tools/merge.py:245 | the output of each task, in task order |
| Merge.AllOutputsExist | connectome_tools/merge.py:228-252 | once no job failed, every task's partial recipe is on disk: it was there already, or its job wrote it |
| Merge.Run | connectome_tools/merge.py:202-254 | raises iff some region has a malformed entry. Exits with 1 iff a pending job failed. Otherwise writes the partial recipes concatenated in region order, which never misses a file |

## Left out

- XML: `write_recipe` in both packages, `_write_xml_tree`, the `:.3f` formatting, and the parsing inside `_build_xml_tree`. A partial recipe is the sequence of its rule elements, and the files on disk are a map from path to those sequences.
- The existing_recipe and estimate_bouton_reduction strategies of both packages: lxml parsing, or one ratio of sampled values.
- Cluster jobs: submitit submission and polling are not modelled. A job's outcome is a parameter, and a job that succeeded is taken to have written its output file. The `as_completed` order is not modelled, because a count of failures does not depend on it.
- `sys.exit(1)` in `CreateFullRecipe.run` and `exit_if_not_alone` is a returned status. `psutil` enumeration is a given list of processes.
- The directory creation, the dated slurm folder and `delete_temporary_dirs`: file system effects with no logic.
- Merge.Checksum: MD5 over the JSON of `(resolved circuit, strategies, seed)` is an opaque digest of those three. Only its length (32 digits) is used, as a premise of Merge.OutputDeterminesName.
- Merge.Run: the generated comment (version, circuit, the YAML dump of the configuration) is a given string.
- Merge.Format: f-string rendering of a non-string value is an opaque function.
- Paths are a directory and a file name. `Path.resolve` is an opaque function.
- Utils.RunParallel: the joblib pool and its worker count are not modelled, only ids, seeds and result order. Per-task logging setup and the exception a failing task propagates are not modelled either.
- Utils.RunParallel: reseeding numpy is modelled by passing the seed to the task's function. The elapsed time is a given clock.
- Utils.ParallelWithoutSeedMatchesSequential: relates ids and groups only. Without a seed a worker's random state is not the parent's, and the model does not capture random state, so values drawn from it are not related.
- CLI, logging, `timed`, `load_yaml`, `validate_config` and `runalone`: glue with no modelled logic.
- `connectome_tools/stats.py` and `connectome_tools/equation.py`: sampling and formula evaluation are opaque functions. Floats are reals, so rounding, `np.nanmean` and NaN propagation through formulas are not modelled.
- EstimateSynsCon.TableLookup: a sample table is a map from pathway to mean. A file with several rows for one pathway, where `.loc` gives a frame rather than a row, is not modelled.
- EstimateIndividualBoutonReduction.TableLookup: a sample table is a map from mtype to mean. A file with several rows for one mtype is not modelled, for the same reason.
- EstimateSynsCon.ChooseFormula: the formula is returned as its text, and `Expression(...)` compilation errors are not modelled.
- connectome_tools/s2f_recipe/utils.py, bluerecipe/bluerecipe/dataset.py, bio_data.py and the bluerecipe copies of experimental_syns_con, generalized_cv and estimate_individual_bouton_reduction: the same code as the connectome_tools files modelled here.
- The bluerecipe estimate_syns_con reuses the formula table and `choose_formula` of `EstimateSynsCon`: the code is identical.
- `Executor.run` routing through `is_parallel` is modelled only for add_constraints (`IsParallel`, run sequentially in AddConstraints.PreparedTaskRuns). Each strategy's run is a parameter of S2fRecipe.ExecuteStrategies.

Where the design documentation and the code disagree, the model follows the code:

- The design requires every pathway of the final recipe to satisfy the completeness rule. `clean_recipe` only checks the pathways of mtypes × mtypes, so a pathway set by a concrete pattern outside them stays unchecked. S2fRecipe.CleanAllAt states this.
- The design describes partial files as `<label>_<checksum>.<ext>` and a `logs/` directory. The code writes `recipe_<quoted name>_<checksum>.xml` and uses a `slurm/` directory.
- The design asks for an all-or-nothing final write. The code writes the tree directly. Writing is not modelled, and a missing partial file is the FileNotFound result of Merge.BuildXmlTree.
- `generate_recipe` imports `get_mtypes_from_edge_population`, but utils.py defines `get_edge_population_mtypes`. The mtypes are a parameter of S2fRecipe.GenerateRecipe.
- Several strategies read `circuit.v2.cells.mtypes` or `circuit.cells.mtypes`, depending on the version. The mtypes are a parameter in every case.
- The node-set key that bluepysnap exports is taken to be `"$node_set"` (Utils.NodeSetKey).
