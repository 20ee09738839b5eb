/**
 * The parameter check both environments run first in `__init__`: walk the
 * required keys in order and raise a KeyError naming the first one that the
 * supplied additional parameters lack.
 */
module EnvParams {
  import opened Kernel

  /** Keys the bottleneck environment requires, in dictionary order. */
  const BottleneckRequired: seq<string> := ["target_velocity"]

  /** Keys the highway environment requires, in dictionary order. */
  const HighwayRequired: seq<string> := ["max_accel", "max_decel", "target_velocity"]

  /** Every required key is among the supplied ones. */
  predicate AllSupplied(required: seq<string>, supplied: set<string>) {
    forall i :: 0 <= i < |required| ==> required[i] in supplied
  }

  /**
   * The `for p in REQUIRED: if p not in additional_params: raise KeyError(p)`
   * loop: no error exactly when every key is supplied, and otherwise an error
   * naming a required key that is missing while every key before it is present.
   */
  method CheckParams(required: seq<string>, supplied: set<string>) returns (err: Option<Error>)
    ensures err.None? <==> AllSupplied(required, supplied)
    ensures err.Some? ==>
      exists i :: 0 <= i < |required| && err.value == KeyError(required[i]) &&
        required[i] !in supplied && AllSupplied(required[..i], supplied)
  {
    var i := 0;
    while i < |required|
      invariant 0 <= i <= |required|
      invariant AllSupplied(required[..i], supplied)
    {
      if required[i] !in supplied {
        return Some(KeyError(required[i]));
      }
      i := i + 1;
    }
    assert required[..i] == required;
    return None;
  }

  /** The bottleneck check fails exactly when "target_velocity" is missing. */
  lemma BottleneckRequiredIff(supplied: set<string>)
    ensures AllSupplied(BottleneckRequired, supplied) <==> "target_velocity" in supplied
  {
    assert BottleneckRequired[0] == "target_velocity";
  }

  /**
   * The highway check fails exactly when one of "max_accel", "max_decel" or
   * "target_velocity" is missing.
   */
  lemma HighwayRequiredIff(supplied: set<string>)
    ensures AllSupplied(HighwayRequired, supplied) <==>
      "max_accel" in supplied && "max_decel" in supplied && "target_velocity" in supplied
  {
    assert HighwayRequired[0] == "max_accel";
    assert HighwayRequired[1] == "max_decel";
    assert HighwayRequired[2] == "target_velocity";
  }
}
