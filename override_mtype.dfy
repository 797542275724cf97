/**
 * The override_mtype strategy of connectome_tools/s2f_recipe/override_mtype.py:
 * the same parameters for every pathway leaving an mtype whose name
 * contains a pattern.
 */
module OverrideMtype {
  import opened Common
  import opened Strings

  /** The name of the keyword argument that selects the mtypes. */
  const MtypePatternArg: string := "mtype_pattern"

  /**
   * Python's binding of the strategy parameters to
   * `execute(circuit, mtype_pattern, **kwargs)`: the pattern and the other
   * parameters; `None` is the `TypeError` of a missing pattern.
   */
  function BindArguments(config: ParamMap): (r: Option<(Value, ParamMap)>)
    ensures r.Some? <==> MtypePatternArg in config
    ensures r.Some? ==> r.value.0 == config[MtypePatternArg]
    ensures r.Some? ==> r.value.1.Keys == config.Keys - {MtypePatternArg}
    ensures r.Some? ==> forall k :: k in r.value.1 ==> r.value.1[k] == config[k]
  {
    if MtypePatternArg in config then Some((config[MtypePatternArg], config - {MtypePatternArg})) else None
  }

  /** `execute(circuit, mtype_pattern, **kwargs)`, `mtypes` being the circuit's mtypes. */
  function Execute(mtypes: set<string>, mtypePattern: string, kwargs: ParamMap): (r: map<Pathway, ParamMap>)
    ensures forall p :: p in r <==> p.0 in mtypes && Contains(p.0, mtypePattern) && p.1 == Wildcard
    ensures forall p :: p in r ==> r[p] == kwargs
  {
    map m | m in mtypes && Contains(m, mtypePattern) :: (m, Wildcard) := kwargs
  }

  lemma NotContainsChc()
    ensures !Contains("L6_TPC:C", "CHC")
  {
    var s := "L6_TPC:C";
    forall i | 0 <= i <= |s| - 3
      ensures !OccursAt(s, "CHC", i)
    {
      assert s[i] != 'C' || s[i + 1] != 'H';
    }
  }

  /**
   * The cases of the test of `execute` with the mtypes L6_TPC:C and L4_CHC:
   * the pattern "CHC" selects L4_CHC alone, with the other parameters as
   * given; the pattern "INVALID" selects nothing.
   */
  lemma ExecuteCases(kwargs: ParamMap)
    ensures Execute({"L6_TPC:C", "L4_CHC"}, "CHC", kwargs) == map[("L4_CHC", Wildcard) := kwargs]
    ensures Execute({"L6_TPC:C", "L4_CHC"}, "INVALID", kwargs) == map[]
  {
    assert OccursAt("L4_CHC", "CHC", 3);
    NotContainsChc();
    var r := Execute({"L6_TPC:C", "L4_CHC"}, "CHC", kwargs);
    assert r.Keys == {("L4_CHC", Wildcard)};
    var invalid := "INVALID";
    forall m | m in {"L6_TPC:C", "L4_CHC"}
      ensures !Contains(m, invalid)
    {
      forall i | 0 <= i <= |m| - |invalid|
        ensures !OccursAt(m, invalid, i)
      {
        assert m[i] != 'I';
      }
    }
    assert Execute({"L6_TPC:C", "L4_CHC"}, "INVALID", kwargs).Keys == {};
  }
}
