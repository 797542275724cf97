/**
 * The estimate_individual_bouton_reduction strategy of
 * connectome_tools/s2f_recipe/estimate_individual_bouton_reduction.py:
 * per mtype, the ratio of the reference bouton density to the one
 * estimated in the circuit, as the reduction factor of every pathway
 * leaving that mtype.
 */
module EstimateIndividualBoutonReduction {
  import opened Common
  import opened LastWins
  import opened Dataset
  import EstimateSynsCon

  /** The `bio_data` argument: one density for every mtype, or the rows of a density table. */
  datatype BioData = BioMean(mean: real) | BioTable(rows: seq<BoutonRow>)

  /** The rows `execute` iterates over. */
  function BioRows(mtypes: seq<string>, bio: BioData): (rows: seq<BoutonRow>)
    ensures bio.BioMean? ==> |rows| == |mtypes|
    ensures bio.BioMean? ==> forall i :: 0 <= i < |mtypes| ==> rows[i] == BoutonRow(mtypes[i], Some(bio.mean))
    ensures bio.BioTable? ==> forall r :: r in rows <==> r in bio.rows && r.mtype in mtypes
    ensures bio.BioTable? ==> forall r :: multiset(rows)[r] == if r.mtype in mtypes then multiset(bio.rows)[r] else 0
    ensures bio.BioTable? ==> SubsequenceOf(rows, bio.rows)
  {
    match bio
    case BioMean(mean) => seq(|mtypes|, i requires 0 <= i < |mtypes| => BoutonRow(mtypes[i], Some(mean)))
    case BioTable(table) => ReadBoutonDensity(table, Some(set m | m in mtypes)).rows
  }

  /** What `execute` does with its `sample` argument: a table to look up, or sampling parameters. */
  datatype BoutonSample =
    | FromTable(path: string)
    | Sampled(size: Option<int>, target: Option<string>, region: Option<string>, synsPerBouton: Option<real>)

  /** The parameters of `estimate_bouton_density`. */
  datatype SamplingArgs = SamplingArgs(size: int, target: Option<string>, region: Option<string>, synsPerBouton: real)

  /** Size 100, no target, no region and one synapse per bouton, unless given. */
  function SamplingArgsOf(sample: Option<BoutonSample>): (a: SamplingArgs)
    requires sample.None? || sample.value.Sampled?
    ensures sample.None? ==> a == SamplingArgs(100, None, None, 1.0)
    ensures sample.Some? && sample.value.size.Some? ==> a.size == sample.value.size.value
    ensures sample.Some? && sample.value.size.None? ==> a.size == 100
    ensures sample.Some? ==> a.target == sample.value.target && a.region == sample.value.region
    ensures sample.Some? && sample.value.synsPerBouton.Some? ==> a.synsPerBouton == sample.value.synsPerBouton.value
    ensures sample.Some? && sample.value.synsPerBouton.None? ==> a.synsPerBouton == 1.0
  {
    if sample.None? then SamplingArgs(100, None, None, 1.0)
    else
      var s := sample.value;
      SamplingArgs(
        if s.size.Some? then s.size.value else 100, s.target, s.region,
        if s.synsPerBouton.Some? then s.synsPerBouton.value else 1.0)
  }

  /**
   * `dset.loc[mtype]['mean']` on the density table read from the `sample`
   * file and indexed by mtype: the mean of the mtype's row (`None` for an
   * empty cell), or a `KeyError` when the table has no row for it.
   */
  function TableLookup(table: map<string, Option<real>>, m: string): (r: Result<Option<real>>)
    ensures r.Failure? <==> m !in table
    ensures r.Failure? ==> r.error == KeyError(m)
    ensures r.Success? ==> r.value == table[m]
  {
    if m in table then Success(table[m]) else Failure(KeyError(m))
  }

  /**
   * The `estimate` function of `execute`: a lookup in the table read from
   * the file, or `estimate_bouton_density`, where `sampler(group, args)` is
   * the NaN-ignoring mean of the densities sampled in the cell group.
   */
  function Estimator(
    sample: Option<BoutonSample>, table: map<string, Option<real>>,
    sampler: (map<string, string>, SamplingArgs) -> Option<real>
  ): string -> Result<Option<real>>
  {
    if sample.Some? && sample.value.FromTable? then (m: string) => TableLookup(table, m)
    else
      var args := SamplingArgsOf(sample);
      (m: string) => Success(sampler(EstimateSynsCon.CellGroup(m, args.target), args))
  }

  /** Only a lookup in a table without a row for the mtype raises; sampling never does. */
  lemma EstimatorFails(
    sample: Option<BoutonSample>, table: map<string, Option<real>>,
    sampler: (map<string, string>, SamplingArgs) -> Option<real>, m: string
  )
    ensures Estimator(sample, table, sampler)(m).Failure? <==> sample.Some? && sample.value.FromTable? && m !in table
  {
  }

  /**
   * `estimate_bouton_density` samples the mtype's cells, restricted to the
   * target when one is given, with the defaults when `sample` is absent.
   */
  lemma EstimatorGroups(
    table: map<string, Option<real>>, sampler: (map<string, string>, SamplingArgs) -> Option<real>,
    m: string, size: int, target: string
  )
    ensures Estimator(None, table, sampler)(m) == Success(sampler(map[MtypeKey := m], SamplingArgs(100, None, None, 1.0)))
    ensures Estimator(Some(Sampled(Some(size), Some(target), None, None)), table, sampler)(m)
         == Success(sampler(map[MtypeKey := m, TargetKey := target], SamplingArgs(size, Some(target), None, 1.0)))
  {
    assert EstimateSynsCon.CellGroup(m, None) == map[MtypeKey := m];
    assert EstimateSynsCon.CellGroup(m, Some(target)) == map[MtypeKey := m, TargetKey := target];
  }

  /** `ref_value / value` on floats: infinite or NaN when the estimate is zero or the reference is NaN. */
  function Ratio(ref: Option<real>, estimate: real): (v: Value)
    ensures v.Num? <==> ref.Some? && estimate != 0.0
    ensures v.Num? ==> v.r * estimate == ref.value
  {
    if ref.None? || estimate == 0.0 then NonFinite else Num(ref.value / estimate)
  }

  /** The error of the first row whose estimate raises, if any. */
  function LookupError(rows: seq<BoutonRow>, estimate: string -> Result<Option<real>>): Option<Error>
  {
    if rows == [] then None
    else
      var before := LookupError(rows[..|rows| - 1], estimate);
      var value := estimate(rows[|rows| - 1].mtype);
      if before.Some? then before
      else if value.Failure? then Some(value.error)
      else None
  }

  /**
   * No row raises iff every row's estimate succeeds; otherwise the error is
   * the one of the first row whose estimate raises.
   */
  lemma {:induction false} LookupErrorFirst(rows: seq<BoutonRow>, estimate: string -> Result<Option<real>>)
    ensures var e := LookupError(rows, estimate);
      && (e.None? <==> forall i :: 0 <= i < |rows| ==> estimate(rows[i].mtype).Success?)
      && (e.Some? ==> exists i :: 0 <= i < |rows| && estimate(rows[i].mtype) == Failure(e.value)
                                 && forall j :: 0 <= j < i ==> estimate(rows[j].mtype).Success?)
  {
    if rows != [] {
      var init := rows[..|rows| - 1];
      LookupErrorFirst(init, estimate);
      assert forall j :: 0 <= j < |init| ==> rows[j] == init[j];
      var e := LookupError(init, estimate);
      if e.Some? {
        var i :| 0 <= i < |init| && estimate(init[i].mtype) == Failure(e.value)
                 && forall j :: 0 <= j < i ==> estimate(init[j].mtype).Success?;
        assert rows[i] == init[i];
      }
    }
  }

  lemma LookupErrorStep(rows: seq<BoutonRow>, i: int, estimate: string -> Result<Option<real>>)
    requires 0 <= i < |rows|
    ensures var before := LookupError(rows[..i], estimate);
      var value := estimate(rows[i].mtype);
      LookupError(rows[..i + 1], estimate)
      == if before.Some? then before else if value.Failure? then Some(value.error) else None
  {
    assert rows[..i + 1][..i] == rows[..i];
  }

  /** A row that raises stops the loop: the rows after it change nothing. */
  lemma {:induction false} LookupErrorSticks(rows: seq<BoutonRow>, i: nat, estimate: string -> Result<Option<real>>)
    requires i <= |rows|
    requires LookupError(rows[..i], estimate).Some?
    ensures LookupError(rows, estimate) == LookupError(rows[..i], estimate)
    decreases |rows| - i
  {
    if i < |rows| {
      LookupErrorStep(rows, i, estimate);
      LookupErrorSticks(rows, i + 1, estimate);
    } else {
      assert rows[..i] == rows;
    }
  }

  /** What one row adds to `result`: nothing when the estimate is NaN. */
  function RowEntry(row: BoutonRow, estimate: string -> Result<Option<real>>): map<Pathway, ParamMap>
  {
    var value := estimate(row.mtype);
    if value.Failure? || value.value.None? then map[]
    else map[(row.mtype, Wildcard) := map[BoutonReductionFactor := Ratio(row.mean, value.value.value)]]
  }

  function RowEntries(rows: seq<BoutonRow>, estimate: string -> Result<Option<real>>): (r: seq<map<Pathway, ParamMap>>)
    ensures |r| == |rows|
    ensures forall i :: 0 <= i < |rows| ==> r[i] == RowEntry(rows[i], estimate)
  {
    seq(|rows|, i requires 0 <= i < |rows| => RowEntry(rows[i], estimate))
  }

  /**
   * The `result` of `execute`: the row entries, a later row overwriting an
   * earlier one, or the error of the first row whose estimate raises.
   */
  function Reductions(rows: seq<BoutonRow>, estimate: string -> Result<Option<real>>): Result<map<Pathway, ParamMap>>
  {
    var e := LookupError(rows, estimate);
    if e.Some? then Failure(e.value) else Success(Merge(RowEntries(rows, estimate)))
  }

  /**
   * `execute` raises iff the estimate of some row raises, and then with
   * the error of the first such row.
   */
  lemma ReductionsFail(rows: seq<BoutonRow>, estimate: string -> Result<Option<real>>)
    ensures var r := Reductions(rows, estimate);
      && (r.Failure? <==> exists i :: 0 <= i < |rows| && estimate(rows[i].mtype).Failure?)
      && (r.Failure? ==> exists i :: 0 <= i < |rows| && estimate(rows[i].mtype) == Failure(r.error)
                                    && forall j :: 0 <= j < i ==> estimate(rows[j].mtype).Success?)
  {
    LookupErrorFirst(rows, estimate);
  }

  /**
   * When `execute` returns, a pathway is in the result iff it is `(m, '*')`
   * for the mtype `m` of some row whose estimate is not NaN; its only
   * parameter is the reduction factor of the last row of that mtype.
   */
  lemma {:induction false} ReductionsAt(rows: seq<BoutonRow>, estimate: string -> Result<Option<real>>, p: Pathway)
    requires Reductions(rows, estimate).Success?
    ensures p in Reductions(rows, estimate).value <==>
      p.1 == Wildcard && (exists i :: 0 <= i < |rows| && rows[i].mtype == p.0)
      && estimate(p.0).Success? && estimate(p.0).value.Some?
    ensures p in Reductions(rows, estimate).value ==>
      var j := LastWith(RowEntries(rows, estimate), p);
      && 0 <= j < |rows| && rows[j].mtype == p.0
      && Reductions(rows, estimate).value[p] == map[BoutonReductionFactor := Ratio(rows[j].mean, estimate(p.0).value.value)]
      && forall i :: j < i < |rows| ==> rows[i].mtype != p.0
  {
    var entries := RowEntries(rows, estimate);
    MergeAt(entries, p);
    MergeKeys(entries, p);
    if p.1 == Wildcard && estimate(p.0).Success? && estimate(p.0).value.Some?
       && exists i :: 0 <= i < |rows| && rows[i].mtype == p.0 {
      var i :| 0 <= i < |rows| && rows[i].mtype == p.0;
      assert p in entries[i];
    }
    if p in Merge(entries) {
      var j := LastWith(entries, p);
      forall i | j < i < |rows|
        ensures rows[i].mtype != p.0
      {
        assert p !in entries[i];
      }
    }
  }

  /**
   * With a sample table, `execute` raises iff some row's mtype has no row in
   * the table; sampled estimates never raise.
   */
  lemma ReductionsFailOnMissingRow(
    rows: seq<BoutonRow>, sample: Option<BoutonSample>, table: map<string, Option<real>>,
    sampler: (map<string, string>, SamplingArgs) -> Option<real>
  )
    ensures Reductions(rows, Estimator(sample, table, sampler)).Failure?
      <==> sample.Some? && sample.value.FromTable? && exists i :: 0 <= i < |rows| && rows[i].mtype !in table
  {
    var estimate := Estimator(sample, table, sampler);
    ReductionsFail(rows, estimate);
    forall i | 0 <= i < |rows|
      ensures estimate(rows[i].mtype).Failure? <==> sample.Some? && sample.value.FromTable? && rows[i].mtype !in table
    {
      EstimatorFails(sample, table, sampler, rows[i].mtype);
    }
  }

  /**
   * The test of the strategy: a density of 10 for every mtype, estimates of
   * NaN, 2 and 1 give no entry for the first mtype and factors 5 and 10.
   */
  lemma ExecuteCase(estimate: string -> Result<Option<real>>)
    requires estimate("L1_DAC") == Success(None) && estimate("L23_MC") == Success(Some(2.0))
    requires estimate("L5_TPC") == Success(Some(1.0))
    ensures Reductions(BioRows(["L1_DAC", "L23_MC", "L5_TPC"], BioMean(10.0)), estimate)
         == Success(map[("L23_MC", Wildcard) := map[BoutonReductionFactor := Num(5.0)],
                        ("L5_TPC", Wildcard) := map[BoutonReductionFactor := Num(10.0)]])
  {
    var rows := BioRows(["L1_DAC", "L23_MC", "L5_TPC"], BioMean(10.0));
    var entries := RowEntries(rows, estimate);
    LookupErrorFirst(rows, estimate);
    assert |rows| == 3 && rows[0].mtype == "L1_DAC" && rows[1].mtype == "L23_MC" && rows[2].mtype == "L5_TPC";
    assert LookupError(rows, estimate).None?;
    assert "L23_MC" != "L5_TPC" by { assert "L23_MC"[1] != "L5_TPC"[1]; }
    assert entries[0] == map[];
    assert entries[1] == map[("L23_MC", Wildcard) := map[BoutonReductionFactor := Num(5.0)]];
    assert entries[2] == map[("L5_TPC", Wildcard) := map[BoutonReductionFactor := Num(10.0)]];
    assert entries[..1][..0] == [];
    assert Merge(entries[..1]) == map[];
    assert entries[..2][..1] == entries[..1];
    assert Merge(entries[..2]) == entries[1];
    assert entries[..|entries| - 1] == entries[..2];
    assert Merge(entries) == map[("L23_MC", Wildcard) := map[BoutonReductionFactor := Num(5.0)],
                                 ("L5_TPC", Wildcard) := map[BoutonReductionFactor := Num(10.0)]];
  }

  /** The loop of `execute` over the rows `rows`. */
  method ReduceRows(rows: seq<BoutonRow>, estimate: string -> Result<Option<real>>)
    returns (result: Result<map<Pathway, ParamMap>>)
    ensures result == Reductions(rows, estimate)
  {
    ghost var entries := RowEntries(rows, estimate);
    var reductions := map[];
    var i := 0;
    while i < |rows|
      invariant 0 <= i <= |rows|
      invariant LookupError(rows[..i], estimate).None?
      invariant reductions == Merge(entries[..i])
    {
      var row := rows[i];
      MergeStep(entries, i);
      LookupErrorStep(rows, i, estimate);
      var value := estimate(row.mtype);
      if value.Failure? {
        LookupErrorSticks(rows, i + 1, estimate);
        return Failure(value.error);
      }
      if value.value.Some? {
        var p, params := (row.mtype, Wildcard), map[BoutonReductionFactor := Ratio(row.mean, value.value.value)];
        assert entries[i] == map[p := params];
        UpdateIsMerge(reductions, p, params);
        reductions := reductions[p := params];
      } else {
        assert entries[i] == map[];
        assert reductions + map[] == reductions;
      }
      i := i + 1;
    }
    assert rows[..i] == rows;
    assert entries[..i] == entries;
    return Success(reductions);
  }

  /**
   * `execute(circuit, bio_data, sample)`: `mtypes` are the circuit's mtypes,
   * `table` the means of the table a string `sample` names.
   */
  method Execute(
    mtypes: seq<string>, bio: BioData, sample: Option<BoutonSample>,
    table: map<string, Option<real>>, sampler: (map<string, string>, SamplingArgs) -> Option<real>
  ) returns (result: Result<map<Pathway, ParamMap>>)
    ensures result == Reductions(BioRows(mtypes, bio), Estimator(sample, table, sampler))
  {
    result := ReduceRows(BioRows(mtypes, bio), Estimator(sample, table, sampler));
  }
}
