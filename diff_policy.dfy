/** DiffPolicy: the knobs of the diff. */
module Policy {
  import opened Wrappers

  /**
   * The policy record. ArrayChangeRatioForReplace is not part of this model:
   * the only place that reads it does the same thing on both sides of the test.
   */
  datatype DiffPolicy = DiffPolicy(
    maxFieldOpsBeforeDocReplace: int,
    allowIncPath: Option<string -> bool>,
    allowUnsetPath: Option<string -> bool>)
  {
    /** AllowInc: the predicate's verdict, or false when there is none. */
    predicate AllowInc(path: string) {
      match allowIncPath
      case None => false
      case Some(p) => p(path)
    }

    /** AllowUnset: the predicate's verdict, or true when there is none. */
    predicate AllowUnset(path: string) {
      match allowUnsetPath
      case None => true
      case Some(p) => p(path)
    }
  }

  /** `new DiffPolicy()`: every parameter at its default. */
  function DefaultPolicy(): (p: DiffPolicy)
    ensures p.maxFieldOpsBeforeDocReplace == 32
    ensures forall path :: !p.AllowInc(path) && p.AllowUnset(path)
  {
    DiffPolicy(32, None, None)
  }

  /** With a predicate given, each of AllowInc and AllowUnset is that predicate applied to the path. */
  lemma PredicatesDecide(maxOps: int, inc: string -> bool, unset: string -> bool, path: string)
    ensures DiffPolicy(maxOps, Some(inc), Some(unset)).AllowInc(path) == inc(path)
    ensures DiffPolicy(maxOps, Some(inc), Some(unset)).AllowUnset(path) == unset(path)
    ensures !DiffPolicy(maxOps, None, Some(unset)).AllowInc(path)
    ensures DiffPolicy(maxOps, Some(inc), None).AllowUnset(path)
  {
  }
}
