/**
 * The generalized_cv strategy of connectome_tools/s2f_recipe/generalized_cv.py:
 * one coefficient of variation for every pathway.
 */
module GeneralizedCv {
  import opened Common
  import opened LastWins
  import opened S2fRecipe

  /** `execute(circuit, cv)`; the circuit is not read, so it is not a parameter. */
  function Execute(cv: Value): (r: map<Pathway, ParamMap>)
    ensures r.Keys == {(Wildcard, Wildcard)}
    ensures r[(Wildcard, Wildcard)] == map[CvSynsConnection := cv]
  {
    map[(Wildcard, Wildcard) := map[CvSynsConnection := cv]]
  }

  /**
   * Assembled over the mtypes, the strategy's one entry sets the cv of every
   * pathway of mtypes x mtypes to `cv`, and of no other pathway.
   */
  lemma CvReachesEveryPathway(cv: Value, mtypes: seq<string>, p: Pathway)
    ensures var rules := Assemble([Contribution((Wildcard, Wildcard), Execute(cv)[(Wildcard, Wildcard)])], mtypes);
      && (p in rules <==> p.0 in mtypes && p.1 in mtypes)
      && (p in rules ==> rules[p] == map[CvSynsConnection := cv])
  {
    var cs := [Contribution((Wildcard, Wildcard), map[CvSynsConnection := cv])];
    AssembleHas(cs, mtypes, p);
    if p in Assemble(cs, mtypes) {
      AssembleAt(cs, mtypes, p);
      assert CoveringParams(cs, mtypes, p) == [map[CvSynsConnection := cv]];
      assert Merge(CoveringParams(cs, mtypes, p)) == Merge(CoveringParams(cs, mtypes, p)[..0]) + map[CvSynsConnection := cv];
    }
  }
}
