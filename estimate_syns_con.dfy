/**
 * The estimate_syns_con strategy of
 * connectome_tools/s2f_recipe/estimate_syns_con.py: the mean number of
 * synapses per connection predicted, pathway by pathway, from the mean
 * number of appositions by a formula chosen by synapse class.
 *
 * Formulas are their source text; `eval(formula, n)` is the value of the
 * compiled expression at `n`.  The estimate of a pathway is a function
 * returning `None` for NaN.
 */
module EstimateSynsCon {
  import opened Common
  import opened Strings
  import opened S2fRecipe

  /** (synapse class of the pre mtype, synapse class of the post mtype) */
  type ClassPair = (string, string)

  const Exc: string := "EXC"
  const Inh: string := "INH"

  /** The `formula` and `formula_xx` arguments of `execute`. */
  datatype Formulas = Formulas(formula: string, ee: Option<string>, ei: Option<string>, ie: Option<string>, ii: Option<string>)

  lemma ClassPairsDistinct()
    ensures Exc != Inh && Exc != Wildcard && Inh != Wildcard
  {
    assert Exc[0] != Inh[0] && Exc[0] != Wildcard[0] && Inh[0] != Wildcard[0];
  }

  /** The `formulae` table built at the start of `execute`. */
  function FormulaTable(f: Formulas): (t: map<ClassPair, string>)
    ensures (Wildcard, Wildcard) in t && t[(Wildcard, Wildcard)] == f.formula
    ensures (Exc, Exc) in t <==> f.ee.Some?
    ensures (Exc, Inh) in t <==> f.ei.Some?
    ensures (Inh, Exc) in t <==> f.ie.Some?
    ensures (Inh, Inh) in t <==> f.ii.Some?
    ensures f.ee.Some? ==> t[(Exc, Exc)] == f.ee.value
    ensures f.ei.Some? ==> t[(Exc, Inh)] == f.ei.value
    ensures f.ie.Some? ==> t[(Inh, Exc)] == f.ie.value
    ensures f.ii.Some? ==> t[(Inh, Inh)] == f.ii.value
    ensures t.Keys <= {(Wildcard, Wildcard), (Exc, Exc), (Exc, Inh), (Inh, Exc), (Inh, Inh)}
  {
    ClassPairsDistinct();
    var t0 := map[(Wildcard, Wildcard) := f.formula];
    var t1 := if f.ee.Some? then t0[(Exc, Exc) := f.ee.value] else t0;
    var t2 := if f.ei.Some? then t1[(Exc, Inh) := f.ei.value] else t1;
    var t3 := if f.ie.Some? then t2[(Inh, Exc) := f.ie.value] else t2;
    if f.ii.Some? then t3[(Inh, Inh) := f.ii.value] else t3
  }

  /**
   * `choose_formula(formulae, pathway, syn_class_map)`: the formula of the
   * class pair of the pathway, or the default one; a `KeyError` for an
   * mtype without synapse class or a missing default.
   */
  function ChooseFormula(formulae: map<ClassPair, string>, pathway: Pathway, synClass: map<string, string>): (r: Result<string>)
    ensures r.Success? <==> (pathway.0 in synClass && pathway.1 in synClass
      && ((synClass[pathway.0], synClass[pathway.1]) in formulae || (Wildcard, Wildcard) in formulae))
    ensures r.Success? && (synClass[pathway.0], synClass[pathway.1]) in formulae ==>
      r.value == formulae[(synClass[pathway.0], synClass[pathway.1])]
    ensures r.Success? && (synClass[pathway.0], synClass[pathway.1]) !in formulae ==>
      r.value == formulae[(Wildcard, Wildcard)]
  {
    if pathway.0 !in synClass then Failure(KeyError(pathway.0))
    else if pathway.1 !in synClass then Failure(KeyError(pathway.1))
    else
      var custom := (synClass[pathway.0], synClass[pathway.1]);
      if custom in formulae then Success(formulae[custom])
      else if (Wildcard, Wildcard) in formulae then Success(formulae[(Wildcard, Wildcard)])
      else Failure(KeyError("('*', '*')"))
  }

  /**
   * With the table `execute` builds, the choice never fails for mtypes with
   * a synapse class, and it is the class-pair formula when that argument
   * was given, the default formula otherwise.
   */
  lemma ChooseFromTable(f: Formulas, pathway: Pathway, synClass: map<string, string>)
    requires pathway.0 in synClass && pathway.1 in synClass
    ensures var r := ChooseFormula(FormulaTable(f), pathway, synClass);
      var custom := (synClass[pathway.0], synClass[pathway.1]);
      && r.Success?
      && (custom == (Exc, Exc) && f.ee.Some? ==> r.value == f.ee.value)
      && (custom == (Exc, Inh) && f.ei.Some? ==> r.value == f.ei.value)
      && (custom == (Inh, Exc) && f.ie.Some? ==> r.value == f.ie.value)
      && (custom == (Inh, Inh) && f.ii.Some? ==> r.value == f.ii.value)
      && (custom !in {(Exc, Exc), (Exc, Inh), (Inh, Exc), (Inh, Inh)} ==> r.value == f.formula)
  {
    ClassPairsDistinct();
  }

  /** `value = max(value, 1.0)`, then `min(value, max_value)` when a maximum is given. */
  function Clamp(value: real, maxValue: Option<real>): (r: real)
    ensures maxValue.None? ==> r >= 1.0
    ensures maxValue.Some? ==> r <= maxValue.value
    ensures maxValue.Some? && maxValue.value >= 1.0 ==> r >= 1.0
    ensures 1.0 <= value && (maxValue.None? || value <= maxValue.value) ==> r == value
    ensures r == value || r == 1.0 || (maxValue.Some? && r == maxValue.value)
  {
    var floored := if 1.0 > value then 1.0 else value;
    if maxValue.Some? && maxValue.value < floored then maxValue.value else floored
  }

  /** What `execute` does with its `sample` argument: a table to look up, or sampling parameters. */
  datatype NsynSample =
    | FromTable(path: string)
    | Sampled(size: Option<int>, pre: Option<string>, post: Option<string>)

  /** The sampling parameters passed to `estimate_nsyn`. */
  datatype SamplingArgs = SamplingArgs(size: int, pre: Option<string>, post: Option<string>)

  /** The sampling parameters of a `sample` argument that is not a table: size 100 and no target unless given. */
  function SamplingArgsOf(sample: Option<NsynSample>): (a: SamplingArgs)
    requires sample.None? || sample.value.Sampled?
    ensures sample.None? ==> a == SamplingArgs(100, None, None)
    ensures sample.Some? && sample.value.size.Some? ==> a.size == sample.value.size.value
    ensures sample.Some? && sample.value.size.None? ==> a.size == 100
    ensures sample.Some? ==> a.pre == sample.value.pre && a.post == sample.value.post
  {
    if sample.None? then SamplingArgs(100, None, None)
    else
      var s := sample.value;
      SamplingArgs(if s.size.Some? then s.size.value else 100, s.pre, s.post)
  }

  /** `_cell_group(mtype, target)`: the mtype, and the target when one is given. */
  function CellGroup(mtype: string, target: Option<string>): (g: map<string, string>)
    ensures MtypeKey in g && g[MtypeKey] == mtype
    ensures TargetKey in g <==> target.Some?
    ensures target.Some? ==> g[TargetKey] == target.value
    ensures g.Keys <= {MtypeKey, TargetKey}
  {
    var g := map[MtypeKey := mtype];
    if target.Some? then g[TargetKey := target.value] else g
  }

  /** The text of a pathway key as a `KeyError` on a (from, to) index shows it. */
  function PathwayKey(p: Pathway): string
  {
    "('" + p.0 + "', '" + p.1 + "')"
  }

  /**
   * `dset.loc[pathway]['mean']` on the table read from the `sample` file and
   * indexed by (from, to): the mean of the pathway's row (`None` for an
   * empty cell), or a `KeyError` when the table has no row for it.
   */
  function TableLookup(table: map<Pathway, Option<real>>, p: Pathway): (r: Result<Option<real>>)
    ensures r.Failure? <==> p !in table
    ensures r.Failure? ==> r.error == KeyError(PathwayKey(p))
    ensures r.Success? ==> r.value == table[p]
  {
    if p in table then Success(table[p]) else Failure(KeyError(PathwayKey(p)))
  }

  /**
   * The `estimate` function of `execute`: a lookup in the table read from
   * the file, or `estimate_nsyn`, where `sampler(pre, post, n)` is the mean
   * of `n` sampled synapse counts between the two cell groups.
   */
  function Estimator(
    sample: Option<NsynSample>, table: map<Pathway, Option<real>>,
    sampler: (map<string, string>, map<string, string>, int) -> Option<real>
  ): Pathway -> Result<Option<real>>
  {
    if sample.Some? && sample.value.FromTable? then (p: Pathway) => TableLookup(table, p)
    else
      var args := SamplingArgsOf(sample);
      (p: Pathway) => Success(sampler(CellGroup(p.0, args.pre), CellGroup(p.1, args.post), args.size))
  }

  /** Only a lookup in a table without a row for the pathway raises; sampling never does. */
  lemma EstimatorFails(
    sample: Option<NsynSample>, table: map<Pathway, Option<real>>,
    sampler: (map<string, string>, map<string, string>, int) -> Option<real>, p: Pathway
  )
    ensures Estimator(sample, table, sampler)(p).Failure? <==> sample.Some? && sample.value.FromTable? && p !in table
  {
  }

  /** Without a `sample` argument each pathway is sampled 100 times between its plain mtype groups. */
  lemma EstimatorDefaults(
    table: map<Pathway, Option<real>>, sampler: (map<string, string>, map<string, string>, int) -> Option<real>, p: Pathway
  )
    ensures Estimator(None, table, sampler)(p) == Success(sampler(map[MtypeKey := p.0], map[MtypeKey := p.1], 100))
  {
    assert CellGroup(p.0, None) == map[MtypeKey := p.0];
    assert CellGroup(p.1, None) == map[MtypeKey := p.1];
  }

  /** The entry `execute` stores for a pathway with estimate `n`. */
  function Entry(formula: string, n: real, maxValue: Option<real>, eval: (string, real) -> real): ParamMap
  {
    map[MeanSynsConnection := Num(Clamp(eval(formula, n), maxValue))]
  }

  /** The `result` of `execute` after the pathways `ps`, or the error that stopped it. */
  function Estimates(
    ps: seq<Pathway>, formulae: map<ClassPair, string>, synClass: map<string, string>, maxValue: Option<real>,
    estimate: Pathway -> Result<Option<real>>, eval: (string, real) -> real
  ): Result<map<Pathway, ParamMap>>
  {
    if ps == [] then Success(map[])
    else
      var before := Estimates(ps[..|ps| - 1], formulae, synClass, maxValue, estimate, eval);
      var p := ps[|ps| - 1];
      var value := estimate(p);
      if before.Failure? then before
      else if value.Failure? then Failure(value.error)
      else if value.value.None? then before
      else
        var f := ChooseFormula(formulae, p, synClass);
        if f.Failure? then Failure(f.error)
        else Success(before.value[p := Entry(f.value, value.value.value, maxValue, eval)])
  }

  /** An error stops the loop: nothing after it changes the outcome. */
  lemma {:induction false} EstimatesFailureSticks(
    ps: seq<Pathway>, i: nat, formulae: map<ClassPair, string>, synClass: map<string, string>, maxValue: Option<real>,
    estimate: Pathway -> Result<Option<real>>, eval: (string, real) -> real
  )
    requires i <= |ps|
    requires Estimates(ps[..i], formulae, synClass, maxValue, estimate, eval).Failure?
    ensures Estimates(ps, formulae, synClass, maxValue, estimate, eval) == Estimates(ps[..i], formulae, synClass, maxValue, estimate, eval)
    decreases |ps| - i
  {
    if i < |ps| {
      assert ps[..i + 1][..i] == ps[..i];
      EstimatesFailureSticks(ps, i + 1, formulae, synClass, maxValue, estimate, eval);
    } else {
      assert ps[..i] == ps;
    }
  }

  /**
   * When every mtype has a synapse class the loop fails iff the estimate of
   * some candidate raises, and then with the error of the first one that does.
   */
  lemma {:induction false} EstimatesFail(
    ps: seq<Pathway>, f: Formulas, synClass: map<string, string>, maxValue: Option<real>,
    estimate: Pathway -> Result<Option<real>>, eval: (string, real) -> real
  )
    requires forall i :: 0 <= i < |ps| ==> ps[i].0 in synClass && ps[i].1 in synClass
    ensures var r := Estimates(ps, FormulaTable(f), synClass, maxValue, estimate, eval);
      && (r.Failure? <==> exists i :: 0 <= i < |ps| && estimate(ps[i]).Failure?)
      && (r.Failure? ==> exists i :: 0 <= i < |ps| && estimate(ps[i]) == Failure(r.error)
                                    && forall j :: 0 <= j < i ==> estimate(ps[j]).Success?)
  {
    if ps != [] {
      var init, q := ps[..|ps| - 1], ps[|ps| - 1];
      EstimatesFail(init, f, synClass, maxValue, estimate, eval);
      ChooseFromTable(f, q, synClass);
      var before := Estimates(init, FormulaTable(f), synClass, maxValue, estimate, eval);
      if exists i :: 0 <= i < |init| && estimate(init[i]).Failure? {
        var i :| 0 <= i < |init| && estimate(init[i]).Failure?;
        assert ps[i] == init[i];
      }
      if before.Failure? {
        var i :| 0 <= i < |init| && estimate(init[i]) == Failure(before.error)
                 && forall j :: 0 <= j < i ==> estimate(init[j]).Success?;
        assert ps[i] == init[i];
        assert forall j :: 0 <= j < i ==> ps[j] == init[j];
      } else {
        assert forall j :: 0 <= j < |init| ==> estimate(ps[j]).Success? by {
          forall j | 0 <= j < |init|
            ensures estimate(ps[j]).Success?
          {
            assert ps[j] == init[j];
          }
        }
      }
    }
  }

  /**
   * When the loop does not fail, a pathway gets an entry iff it is a
   * candidate whose estimate is not NaN (NaN ones are skipped), and the
   * entry holds only the clamped prediction of the chosen formula.
   */
  lemma {:induction false} EstimatesAt(
    ps: seq<Pathway>, f: Formulas, synClass: map<string, string>, maxValue: Option<real>,
    estimate: Pathway -> Result<Option<real>>, eval: (string, real) -> real, p: Pathway
  )
    requires forall i :: 0 <= i < |ps| ==> ps[i].0 in synClass && ps[i].1 in synClass
    ensures var r := Estimates(ps, FormulaTable(f), synClass, maxValue, estimate, eval);
      && (r.Success? ==> (p in r.value <==> p in ps && estimate(p).Success? && estimate(p).value.Some?))
      && (r.Success? && p in r.value ==>
            r.value[p] == Entry(ChooseFormula(FormulaTable(f), p, synClass).value, estimate(p).value.value, maxValue, eval))
  {
    if ps != [] {
      var q := ps[|ps| - 1];
      EstimatesAt(ps[..|ps| - 1], f, synClass, maxValue, estimate, eval, p);
      ChooseFromTable(f, q, synClass);
      assert ps == ps[..|ps| - 1] + [q];
    }
  }

  /**
   * With classified mtypes, `execute` raises only when it looks a candidate
   * up in a sample table that has no row for it.
   */
  lemma EstimatesFailOnMissingRow(
    ps: seq<Pathway>, f: Formulas, synClass: map<string, string>, maxValue: Option<real>,
    sample: Option<NsynSample>, table: map<Pathway, Option<real>>,
    sampler: (map<string, string>, map<string, string>, int) -> Option<real>, eval: (string, real) -> real
  )
    requires forall i :: 0 <= i < |ps| ==> ps[i].0 in synClass && ps[i].1 in synClass
    ensures Estimates(ps, FormulaTable(f), synClass, maxValue, Estimator(sample, table, sampler), eval).Failure?
      <==> sample.Some? && sample.value.FromTable? && exists i :: 0 <= i < |ps| && ps[i] !in table
  {
    var estimate := Estimator(sample, table, sampler);
    EstimatesFail(ps, f, synClass, maxValue, estimate, eval);
    forall i | 0 <= i < |ps|
      ensures estimate(ps[i]).Failure? <==> sample.Some? && sample.value.FromTable? && ps[i] !in table
    {
      EstimatorFails(sample, table, sampler, ps[i]);
    }
  }

  /** Every emitted value lies within the clamp bounds. */
  lemma EstimatesBounded(
    ps: seq<Pathway>, f: Formulas, synClass: map<string, string>, maxValue: Option<real>,
    estimate: Pathway -> Result<Option<real>>, eval: (string, real) -> real, p: Pathway
  )
    requires forall i :: 0 <= i < |ps| ==> ps[i].0 in synClass && ps[i].1 in synClass
    requires var r := Estimates(ps, FormulaTable(f), synClass, maxValue, estimate, eval); r.Success? && p in r.value
    ensures var v := Estimates(ps, FormulaTable(f), synClass, maxValue, estimate, eval).value[p];
      && v.Keys == {MeanSynsConnection} && v[MeanSynsConnection].Num?
      && (maxValue.None? || maxValue.value >= 1.0 ==> v[MeanSynsConnection].r >= 1.0)
      && (maxValue.Some? ==> v[MeanSynsConnection].r <= maxValue.value)
  {
    EstimatesAt(ps, f, synClass, maxValue, estimate, eval, p);
  }

  lemma EstimatesStep(
    ps: seq<Pathway>, i: int, formulae: map<ClassPair, string>, synClass: map<string, string>, maxValue: Option<real>,
    estimate: Pathway -> Result<Option<real>>, eval: (string, real) -> real
  )
    requires 0 <= i < |ps|
    requires Estimates(ps[..i], formulae, synClass, maxValue, estimate, eval).Success?
    ensures var before := Estimates(ps[..i], formulae, synClass, maxValue, estimate, eval);
      var value := estimate(ps[i]);
      var f := ChooseFormula(formulae, ps[i], synClass);
      Estimates(ps[..i + 1], formulae, synClass, maxValue, estimate, eval)
      == if value.Failure? then Failure(value.error)
         else if value.value.None? then before
         else if f.Failure? then Failure(f.error)
         else Success(before.value[ps[i] := Entry(f.value, value.value.value, maxValue, eval)])
  {
    assert ps[..i + 1][..i] == ps[..i];
  }

  /** The loop of `execute` over the candidate pathways `pathways`. */
  method EstimateAll(
    pathways: seq<Pathway>, formulae: map<ClassPair, string>, synClass: map<string, string>, maxValue: Option<real>,
    estimate: Pathway -> Result<Option<real>>, eval: (string, real) -> real
  ) returns (result: Result<map<Pathway, ParamMap>>)
    ensures result == Estimates(pathways, formulae, synClass, maxValue, estimate, eval)
  {
    var entries := map[];
    var i := 0;
    while i < |pathways|
      invariant 0 <= i <= |pathways|
      invariant Estimates(pathways[..i], formulae, synClass, maxValue, estimate, eval) == Success(entries)
    {
      var p := pathways[i];
      EstimatesStep(pathways, i, formulae, synClass, maxValue, estimate, eval);
      var value := estimate(p);
      if value.Failure? {
        EstimatesFailureSticks(pathways, i + 1, formulae, synClass, maxValue, estimate, eval);
        return Failure(value.error);
      }
      if value.value.Some? {
        var formula := ChooseFormula(formulae, p, synClass);
        if formula.Failure? {
          EstimatesFailureSticks(pathways, i + 1, formulae, synClass, maxValue, estimate, eval);
          return Failure(formula.error);
        }
        entries := entries[p := Entry(formula.value, value.value.value, maxValue, eval)];
      }
      i := i + 1;
    }
    assert pathways[..i] == pathways;
    return Success(entries);
  }

  /**
   * `execute(circuit, formula, formula_xx..., max_value, sample)`:
   * `mtypes` and `synClass` are the circuit's mtypes and their synapse
   * classes, `table` the means of the table a string `sample` names; the
   * candidate pathways are the product of the sorted mtypes.
   */
  method Execute(
    mtypes: set<string>, formulas: Formulas, maxValue: Option<real>, sample: Option<NsynSample>,
    synClass: map<string, string>, table: map<Pathway, Option<real>>,
    sampler: (map<string, string>, map<string, string>, int) -> Option<real>, eval: (string, real) -> real
  ) returns (result: Result<map<Pathway, ParamMap>>)
    ensures result == Estimates(Product(SortedSet(mtypes), SortedSet(mtypes)), FormulaTable(formulas), synClass,
                                maxValue, Estimator(sample, table, sampler), eval)
  {
    var sorted := SortedSet(mtypes);
    result := EstimateAll(Product(sorted, sorted), FormulaTable(formulas), synClass, maxValue, Estimator(sample, table, sampler), eval);
  }
}
