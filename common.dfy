/**
 * Values shared by the recipe generator: parameter values, pathways,
 * strategy contributions, and the usual Option/Result wrappers.
 */
module Common {

  datatype Option<T> = None | Some(value: T)

  /** The exceptions the modelled code raises. */
  datatype Error =
    | AssertionError(message: string)
    | KeyError(key: string)
    | FileNotFound(path: string)
    | RuntimeError(message: string)

  datatype Result<T> = Success(value: T) | Failure(error: Error)

  /**
   * A parameter value of a recipe rule: a float (a real here), a
   * selection attribute such as a region name, or a float that is not
   * finite (a division by zero in numpy gives inf or nan).
   */
  datatype Value = Num(r: real) | Text(s: string) | NonFinite

  type ParamMap = map<string, Value>

  /** (pre mtype, post mtype); in a pattern either side may be the wildcard "*". */
  type Pathway = (string, string)

  const Wildcard: string := "*"

  /** One `(pathway_pattern, param_map)` pair emitted by a strategy. */
  datatype Contribution = Contribution(pattern: Pathway, params: ParamMap)

  // Names of the recipe parameters.
  const BoutonReductionFactor: string := "bouton_reduction_factor"
  const CvSynsConnection: string := "cv_syns_connection"
  const MeanSynsConnection: string := "mean_syns_connection"
  const PA: string := "p_A"
  const PMuA: string := "pMu_A"

  /**
   * One entry of the strategy configuration: the items of a dict that
   * should hold exactly one strategy name mapped to its parameters.
   */
  type StrategyEntry = seq<(string, ParamMap)>

  /** The entry names exactly one strategy. */
  predicate SingleStrategy(entry: StrategyEntry)
  {
    |entry| == 1
  }

  const AddConstraintsStrategy: string := "add_constraints"

  /** The name of the mtype property of cells. */
  const MtypeKey: string := "mtype"
  /** The key that restricts a cell group to a target. */
  const TargetKey: string := "$target"
}
