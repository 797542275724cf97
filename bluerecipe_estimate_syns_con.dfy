/**
 * The older estimate_syns_con strategy of
 * bluerecipe/bluerecipe/strategies/estimate_syns_con.py.  Its formula table
 * and `choose_formula` are the same code as the current strategy's; it
 * differs in the estimate: an empty sample stands for 2 synapses, every
 * pathway gets an entry, and the value is only capped from above.
 */
module BlueRecipeEstimateSynsCon {
  import opened Common
  import opened Strings
  import opened S2fRecipe
  import opened EstimateSynsCon

  function Sum(xs: seq<real>): real
  {
    if xs == [] then 0.0 else Sum(xs[..|xs| - 1]) + xs[|xs| - 1]
  }

  /** A sum lies between its length times the least and the greatest element. */
  lemma {:induction false} SumBounds(xs: seq<real>, lo: real, hi: real)
    requires forall i :: 0 <= i < |xs| ==> lo <= xs[i] <= hi
    ensures |xs| as real * lo <= Sum(xs) <= |xs| as real * hi
  {
    if xs != [] {
      SumBounds(xs[..|xs| - 1], lo, hi);
    }
  }

  /** `sample.mean()` when the sample is not empty, 2.0 otherwise. */
  function SynapseNumber(sample: seq<real>): (n: real)
    ensures sample == [] ==> n == 2.0
    ensures sample != [] ==> n * |sample| as real == Sum(sample)
  {
    if |sample| > 0 then Sum(sample) / |sample| as real else 2.0
  }

  /** The synapse number of a sample lies between the bounds of its counts. */
  lemma SynapseNumberBounds(sample: seq<real>, lo: real, hi: real)
    requires sample != []
    requires forall i :: 0 <= i < |sample| ==> lo <= sample[i] <= hi
    ensures lo <= SynapseNumber(sample) <= hi
  {
    SumBounds(sample, lo, hi);
  }

  /** `if max_value: estimate = min(estimate, max_value)`: a maximum of 0 or none caps nothing. */
  function Cap(estimate: real, maxValue: Option<real>): (r: real)
    ensures r <= estimate
    ensures maxValue.Some? && maxValue.value != 0.0 ==> r <= maxValue.value
    ensures maxValue.Some? && maxValue.value != 0.0 && estimate <= maxValue.value ==> r == estimate
    ensures maxValue.None? || maxValue.value == 0.0 ==> r == estimate
  {
    if maxValue.Some? && maxValue.value != 0.0 && maxValue.value < estimate then maxValue.value else estimate
  }

  /**
   * What `execute` estimates with: the formula table, the synapse class of
   * each mtype, the sampling parameters, the cap, `sampler(pre, post, n)`
   * giving the sampled synapse counts between two cell groups and
   * `eval(formula, n)` the value of a formula at `n`.
   */
  datatype Setup = Setup(
    formulae: map<ClassPair, string>, synClass: map<string, string>, sampleSize: int,
    sampleTarget: Option<string>, maxValue: Option<real>,
    sampler: (map<string, string>, map<string, string>, int) -> seq<real>, eval: (string, real) -> real)

  /**
   * The entry of one pathway: the formula of its class pair at the synapse
   * number of a sample between the two mtypes, each restricted to the
   * target when one is given, capped.
   */
  function PathwayEntry(p: Pathway, setup: Setup): Result<ParamMap>
  {
    var sample := setup.sampler(CellGroup(p.0, setup.sampleTarget), CellGroup(p.1, setup.sampleTarget), setup.sampleSize);
    var formula := ChooseFormula(setup.formulae, p, setup.synClass);
    if formula.Failure? then Failure(formula.error)
    else Success(map[MeanSynsConnection := Num(Cap(setup.eval(formula.value, SynapseNumber(sample)), setup.maxValue))])
  }

  /** The `result` of `execute` after the pathways `ps`, or the error that stopped it. */
  function Estimates(ps: seq<Pathway>, setup: Setup): Result<map<Pathway, ParamMap>>
  {
    if ps == [] then Success(map[])
    else
      var before := Estimates(ps[..|ps| - 1], setup);
      var p := ps[|ps| - 1];
      if before.Failure? then before
      else
        var entry := PathwayEntry(p, setup);
        if entry.Failure? then Failure(entry.error) else Success(before.value[p := entry.value])
  }

  /**
   * When every mtype has a synapse class, every candidate pathway gets an
   * entry and no other does: nothing is skipped.
   */
  lemma {:induction false} EstimatesAt(ps: seq<Pathway>, f: Formulas, setup: Setup, p: Pathway)
    requires setup.formulae == FormulaTable(f)
    requires forall i :: 0 <= i < |ps| ==> ps[i].0 in setup.synClass && ps[i].1 in setup.synClass
    ensures var r := Estimates(ps, setup);
      && r.Success?
      && (p in r.value <==> p in ps)
      && (p in r.value ==> r.value[p] == PathwayEntry(p, setup).value)
  {
    if ps != [] {
      var q := ps[|ps| - 1];
      EstimatesAt(ps[..|ps| - 1], f, setup, p);
      ChooseFromTable(f, q, setup.synClass);
      assert ps == ps[..|ps| - 1] + [q];
    }
  }

  /** The pre and post groups of the sample carry the same target, when one is given. */
  lemma SampleGroups(p: Pathway, target: string)
    ensures CellGroup(p.0, Some(target)) == map[MtypeKey := p.0, TargetKey := target]
    ensures CellGroup(p.1, Some(target)) == map[MtypeKey := p.1, TargetKey := target]
  {
  }

  lemma EstimatesStep(ps: seq<Pathway>, i: int, setup: Setup)
    requires 0 <= i < |ps|
    requires Estimates(ps[..i], setup).Success?
    ensures var entry := PathwayEntry(ps[i], setup);
      Estimates(ps[..i + 1], setup)
      == if entry.Failure? then Failure(entry.error) else Success(Estimates(ps[..i], setup).value[ps[i] := entry.value])
  {
    assert ps[..i + 1][..i] == ps[..i];
  }

  lemma {:induction false} EstimatesFailureSticks(ps: seq<Pathway>, i: nat, setup: Setup)
    requires i <= |ps|
    requires Estimates(ps[..i], setup).Failure?
    ensures Estimates(ps, setup) == Estimates(ps[..i], setup)
    decreases |ps| - i
  {
    if i < |ps| {
      assert ps[..i + 1][..i] == ps[..i];
      EstimatesFailureSticks(ps, i + 1, setup);
    } else {
      assert ps[..i] == ps;
    }
  }

  /** The body of the loop of `execute` for one pathway. */
  method EstimatePathway(p: Pathway, setup: Setup) returns (r: Result<ParamMap>)
    ensures r == PathwayEntry(p, setup)
  {
    var sample := setup.sampler(CellGroup(p.0, setup.sampleTarget), CellGroup(p.1, setup.sampleTarget), setup.sampleSize);
    var synapseNumber := if |sample| > 0 then Sum(sample) / |sample| as real else 2.0;
    var formula := ChooseFormula(setup.formulae, p, setup.synClass);
    if formula.Failure? {
      return Failure(formula.error);
    }
    var estimate := setup.eval(formula.value, synapseNumber);
    if setup.maxValue.Some? && setup.maxValue.value != 0.0 && setup.maxValue.value < estimate {
      estimate := setup.maxValue.value;
    }
    return Success(map[MeanSynsConnection := Num(estimate)]);
  }

  /** The loop of `execute` over the candidate pathways `pathways`. */
  method EstimateAll(pathways: seq<Pathway>, setup: Setup) returns (result: Result<map<Pathway, ParamMap>>)
    ensures result == Estimates(pathways, setup)
  {
    var entries := map[];
    var i := 0;
    while i < |pathways|
      invariant 0 <= i <= |pathways|
      invariant Estimates(pathways[..i], setup) == Success(entries)
    {
      var p := pathways[i];
      EstimatesStep(pathways, i, setup);
      var entry := EstimatePathway(p, setup);
      if entry.Failure? {
        EstimatesFailureSticks(pathways, i + 1, setup);
        return Failure(entry.error);
      }
      entries := entries[p := entry.value];
      i := i + 1;
    }
    assert pathways[..i] == pathways;
    return Success(entries);
  }

  /**
   * `execute(circuit, formula, formula_xx..., sample_size, sample_target,
   * max_value)`: `mtypes` are the circuit's mtypes, `setup.synClass` their
   * synapse classes; the candidate pathways are the product of the sorted
   * mtypes.
   */
  method Execute(mtypes: set<string>, setup: Setup) returns (result: Result<map<Pathway, ParamMap>>)
    ensures result == Estimates(Product(SortedSet(mtypes), SortedSet(mtypes)), setup)
  {
    var sorted := SortedSet(mtypes);
    result := EstimateAll(Product(sorted, sorted), setup);
  }
}
