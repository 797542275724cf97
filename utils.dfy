/**
 * Task execution bookkeeping and the small helpers of
 * connectome_tools/utils.py.
 *
 * The worker pool of `run_parallel` is not modelled, only what each task
 * receives (its id and its seed) and the order of the results.  A task's
 * function is given the seed it runs with, which stands for the reseeding
 * of numpy's global random state (`None` leaves that state as it is).
 */
module Utils {
  import opened Common
  import opened Strings

  /** `TaskResult(id, group, value, elapsed)` */
  datatype TaskResult<V> = TaskResult(id: int, group: Option<string>, value: V, elapsed: real)

  /** `Task(func, *args, task_group=..., **kwargs)`: the bound function and its group label. */
  datatype Task<V> = Task(func: Option<int> -> V, group: Option<string>)
  {
    /**
     * `Task.__call__(task_id, seed, ...)`: run the bound function with the
     * given seed; `elapsed` is the duration measured with the monotonic clock.
     */
    function Call(taskId: int, seed: Option<int>, elapsed: real): TaskResult<V>
    {
      TaskResult(taskId, group, func(seed), elapsed)
    }
  }

  /** The seed of task `i`: `None if base_seed is None else base_seed + i`. */
  function SeedFor(baseSeed: Option<int>, i: nat): Option<int>
  {
    if baseSeed.None? then None else Some(baseSeed.value + i)
  }

  /**
   * `run_parallel(tasks, jobs, base_seed)`: one result per task, in
   * submission order whatever the completion order; task `i` runs with
   * id `i` and seed `SeedFor(base_seed, i)`.  `clock(i)` is the time
   * task `i` took.  The number of workers is not a parameter: it cannot
   * change any result.
   */
  function RunParallel<V>(tasks: seq<Task<V>>, baseSeed: Option<int>, clock: nat -> real): (rs: seq<TaskResult<V>>)
    ensures |rs| == |tasks|
    ensures forall i :: 0 <= i < |tasks| ==>
      && rs[i].id == i
      && rs[i].group == tasks[i].group
      && rs[i].value == tasks[i].func(SeedFor(baseSeed, i))
  {
    var rs := seq(|tasks|, i requires 0 <= i < |tasks| => tasks[i].Call(i, SeedFor(baseSeed, i), clock(i)));
    assert forall i :: 0 <= i < |tasks| ==> rs[i] == tasks[i].Call(i, SeedFor(baseSeed, i), clock(i));
    rs
  }

  /** `run_sequential(tasks)`: in list order, in process, with id `i` and no seed. */
  function RunSequential<V>(tasks: seq<Task<V>>, clock: nat -> real): (rs: seq<TaskResult<V>>)
    ensures |rs| == |tasks|
    ensures forall i :: 0 <= i < |tasks| ==>
      && rs[i].id == i
      && rs[i].group == tasks[i].group
      && rs[i].value == tasks[i].func(None)
  {
    if tasks == [] then []
    else RunSequential(tasks[..|tasks| - 1], clock) + [tasks[|tasks| - 1].Call(|tasks| - 1, None, clock(|tasks| - 1))]
  }

  /** With a base seed, no two tasks of one run share a seed. */
  lemma SeedsDistinct(baseSeed: Option<int>, i: nat, j: nat)
    requires baseSeed.Some? && i != j
    ensures SeedFor(baseSeed, i) != SeedFor(baseSeed, j)
  {
  }

  /**
   * Without a base seed, the parallel engine numbers and labels the results
   * as the sequential one does, whatever either run's timings.  Only a task
   * whose value does not depend on the random state gives the same value
   * in both: the workers' random state is not the parent's.
   */
  lemma ParallelWithoutSeedMatchesSequential<V>(tasks: seq<Task<V>>, c1: nat -> real, c2: nat -> real)
    ensures var p, s := RunParallel(tasks, None, c1), RunSequential(tasks, c2);
      && |p| == |s|
      && forall i :: 0 <= i < |tasks| ==> p[i].id == s[i].id && p[i].group == s[i].group
  {
  }

  /**
   * The values of a parallel run depend on the tasks and the base seed
   * only, not on timing.  This holds by the shape of the model: a task's
   * value is a function of its seed alone.
   */
  lemma ParallelValuesIgnoreTiming<V>(tasks: seq<Task<V>>, baseSeed: Option<int>, c1: nat -> real, c2: nat -> real)
    ensures forall i :: 0 <= i < |tasks| ==>
      RunParallel(tasks, baseSeed, c1)[i].value == RunParallel(tasks, baseSeed, c2)[i].value
  {
  }

  /** The key that restricts a cell group to a node set (bluepysnap's `NODE_SET_KEY`). */
  const NodeSetKey: string := "$node_set"

  /** `cell_group(mtype, node_set)` */
  function CellGroup(mtype: string, nodeSet: Option<string>): (g: map<string, string>)
    ensures MtypeKey in g && g[MtypeKey] == mtype
    ensures NodeSetKey in g <==> nodeSet.Some?
    ensures nodeSet.Some? ==> g[NodeSetKey] == nodeSet.value
    ensures g.Keys <= {MtypeKey, NodeSetKey}
  {
    var g := map[MtypeKey := mtype];
    if nodeSet.Some? then g[NodeSetKey := nodeSet.value] else g
  }

  /** A Python object as far as `is_iterable` can tell: strings are scalars. */
  datatype PyObject = PyStr(s: string) | PyScalar(v: Value) | PyIterable(items: seq<PyObject>)

  /** `is_iterable(v)` */
  predicate IsIterable(v: PyObject)
  {
    v.PyIterable?
  }

  /** `ensure_list(v)`: a string is wrapped, not split into its characters. */
  function EnsureList(v: PyObject): (r: seq<PyObject>)
    ensures IsIterable(v) ==> r == v.items
    ensures !IsIterable(v) ==> r == [v]
    ensures v.PyStr? ==> r == [v]
  {
    if IsIterable(v) then v.items else [v]
  }

  /** A node population as far as its properties: property name to the set of its values. */
  datatype NodePopulation = NodePopulation(propertyValues: map<string, set<string>>)

  /** The mtypes of a node population: none when it has no mtype property. */
  function PopulationMtypeSet(pop: NodePopulation): set<string>
  {
    if MtypeKey in pop.propertyValues then pop.propertyValues[MtypeKey] else {}
  }

  /** `get_node_population_mtypes(population)` */
  function NodePopulationMtypes(pop: NodePopulation): (r: seq<string>)
    ensures StrictlySorted(r)
    ensures forall m :: m in r <==> m in PopulationMtypeSet(pop)
  {
    SortedSet(PopulationMtypeSet(pop))
  }

  /** `get_edge_population_mtypes(population)`: the sorted union of source and target mtypes. */
  function EdgePopulationMtypes(source: NodePopulation, target: NodePopulation): (r: seq<string>)
    ensures StrictlySorted(r)
    ensures forall m :: m in r <==> m in PopulationMtypeSet(source) || m in PopulationMtypeSet(target)
  {
    var pre, post := NodePopulationMtypes(source), NodePopulationMtypes(target);
    SortedSet(set m | m in pre + post)
  }

  /** The variables `clean_slurm_env` deletes. */
  predicate SlurmVariable(key: string)
  {
    && (StartsWith(key, "PMI_") || StartsWith(key, "SLURM_"))
    && !(EndsWith(key, "_ACCOUNT") || EndsWith(key, "_PARTITION"))
  }

  /** The environment without the variables `clean_slurm_env` deletes. */
  function WithoutSlurmVariables(env: map<string, string>): (r: map<string, string>)
    ensures forall k :: k in r <==> k in env && !SlurmVariable(k)
    ensures forall k :: k in r ==> r[k] == env[k]
  {
    map k | k in env && !SlurmVariable(k) :: env[k]
  }

  /** The process environment, `os.environ`. */
  class Environment {
    var vars: map<string, string>

    constructor (vars0: map<string, string>)
      ensures vars == vars0
    {
      vars := vars0;
    }

    /** `clean_slurm_env()`: delete the PMI_/SLURM_ variables, keeping the account and partition. */
    method CleanSlurmEnv()
      modifies this
      ensures vars == WithoutSlurmVariables(old(vars))
    {
      var keys := vars.Keys;
      while keys != {}
        invariant keys <= old(vars).Keys
        invariant forall k :: k in vars <==> k in old(vars) && (k in keys || !SlurmVariable(k))
        invariant forall k :: k in vars ==> vars[k] == old(vars)[k]
        decreases keys
      {
        var key :| key in keys;
        if SlurmVariable(key) {
          vars := vars - {key};
        }
        keys := keys - {key};
      }
    }
  }

  /** The case of the test: the node name stays although it starts with "SLURM". */
  lemma NodeNameIsKept()
    ensures !SlurmVariable("SLURMD_NODENAME")
  {
    var key := "SLURMD_NODENAME";
    assert key[0] != 'P';
    assert key[5] != '_';
  }

  /** The case of the test: the job partition and account stay. */
  lemma PartitionAndAccountAreKept()
    ensures !SlurmVariable("SLURM_JOB_PARTITION")
    ensures !SlurmVariable("SLURM_JOB_ACCOUNT")
  {
    var partition, account := "SLURM_JOB_PARTITION", "SLURM_JOB_ACCOUNT";
    assert partition[|partition| - 10..] == "_PARTITION";
    assert account[|account| - 8..] == "_ACCOUNT";
  }

  /** The case of the test: the node id and the PMI rank go. */
  lemma NodeIdAndRankAreDeleted()
    ensures SlurmVariable("SLURM_NODEID")
    ensures SlurmVariable("PMI_RANK")
  {
    var nodeId, rank := "SLURM_NODEID", "PMI_RANK";
    assert nodeId[..6] == "SLURM_";
    assert nodeId[|nodeId| - 1] == 'D';
    assert rank[..4] == "PMI_";
    assert rank[|rank| - 1] == 'K';
  }

  /** What `exit_if_not_alone` reads of a process: `psutil`'s pid, name, username and cmdline. */
  datatype ProcessInfo = ProcessInfo(pid: int, name: string, username: string, cmdline: seq<string>)

  /** `p` is another instance of the program `me` runs. */
  predicate OtherInstance(me: ProcessInfo, p: ProcessInfo)
  {
    p.pid != me.pid && p.name == me.name && p.username == me.username && p.cmdline == me.cmdline
  }

  /** The `others` list of `exit_if_not_alone`, in enumeration order. */
  function OtherInstances(me: ProcessInfo, procs: seq<ProcessInfo>): (r: seq<ProcessInfo>)
    ensures |r| <= |procs|
    ensures forall p :: p in r <==> p in procs && OtherInstance(me, p)
  {
    if procs == [] then []
    else
      var rest := OtherInstances(me, procs[1..]);
      if OtherInstance(me, procs[0]) then [procs[0]] + rest else rest
  }

  /** `exit_if_not_alone()`: `Some(1)` is `sys.exit(1)`, `None` lets the program run. */
  function ExitIfNotAlone(me: ProcessInfo, procs: seq<ProcessInfo>): (status: Option<int>)
    ensures status.Some? <==> exists p :: p in procs && OtherInstance(me, p)
    ensures status.Some? ==> status.value == 1
  {
    var others := OtherInstances(me, procs);
    if others != [] then assert others[0] in others; Some(1) else None
  }
}
