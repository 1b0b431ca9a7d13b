/** `sigo_input`, `sigo_final` and `sigo`: observation error standard
    deviations from stored inverse errors. Each entry is the reciprocal of
    the inverse error, except that a reciprocal above 9999 is replaced by the
    flag value -9999.9. */
module Sigma {
  import opened Outcomes
  import opened Record

  /** Reciprocals strictly above this are flagged. */
  const Ceiling: real := 9999.0

  /** The value written in place of a flagged reciprocal. */
  const Sentinel: real := -9999.9

  /** `y` is what the source stores for inverse error `x`: the flag when the
      reciprocal would exceed the ceiling (a zero inverse error divides to
      +inf and is flagged too), otherwise the number whose product with `x`
      is one. */
  predicate MaskedReciprocal(x: real, y: real) {
    if 0.0 <= x < 1.0 / Ceiling then y == Sentinel
    else y * x == 1.0 && y <= Ceiling
  }

  /** Every stored entry is either at most the ceiling or exactly the flag. */
  predicate Bounded(ys: seq<real>) {
    forall k :: 0 <= k < |ys| ==> ys[k] <= Ceiling || ys[k] == Sentinel
  }

  /** `ys` holds the masked reciprocals of `xs`, entry by entry. */
  predicate MaskedReciprocals(xs: seq<real>, ys: seq<real>) {
    |ys| == |xs| && forall k :: 0 <= k < |xs| ==> MaskedReciprocal(xs[k], ys[k])
  }

  /** A positive number below `1 / Ceiling` has a reciprocal above it, and
      only those do. */
  lemma ReciprocalAboveCeiling(x: real)
    requires x != 0.0
    ensures 1.0 / x > Ceiling <==> 0.0 < x < 1.0 / Ceiling
  {
    if 0.0 < x < 1.0 / Ceiling {
      assert x * Ceiling < 1.0;
      assert 1.0 / x > Ceiling;
    } else if x > 0.0 {
      assert x * Ceiling >= 1.0;
      assert 1.0 / x <= Ceiling;
    }
  }

  /** `1.0 / x`, then `val[val > 9999.] = -9999.9`, for one entry. */
  function SigmaOf(x: real): (r: real)
    ensures MaskedReciprocal(x, r)
  {
    if x == 0.0 then Sentinel
    else
      ReciprocalAboveCeiling(x);
      if 1.0 / x > Ceiling then Sentinel else 1.0 / x
  }

  /** `MaskedReciprocal` leaves no choice: it pins down the stored value. */
  lemma MaskedReciprocalUnique(x: real, y: real)
    requires MaskedReciprocal(x, y)
    ensures y == SigmaOf(x)
  {
    if !(0.0 <= x < 1.0 / Ceiling) {
      assert x != 0.0;
      assert y == 1.0 / x;
    }
  }

  /** Masked reciprocals stay within the ceiling or are the flag. */
  lemma MaskedReciprocalsBounded(xs: seq<real>, ys: seq<real>)
    requires MaskedReciprocals(xs, ys)
    ensures Bounded(ys)
  {
    forall k | 0 <= k < |ys| ensures ys[k] <= Ceiling || ys[k] == Sentinel {
      assert MaskedReciprocal(xs[k], ys[k]);
    }
  }

  /** The masked reciprocal of every entry of `xs`. */
  function Sigmas(xs: seq<real>): (ys: seq<real>)
    ensures MaskedReciprocals(xs, ys)
  {
    seq(|xs|, k requires 0 <= k < |xs| => SigmaOf(xs[k]))
  }

  /** `sigo_input(data)`: masked reciprocals of `Errinv_Input`. */
  function SigoInput(data: Record<real>): (r: Result<seq<real>>)
    ensures r.Ok? <==> "Errinv_Input" in data
    ensures r.Err? ==> r.error == KeyError("Errinv_Input")
    ensures r.Ok? ==> MaskedReciprocals(data["Errinv_Input"], r.value)
  {
    var xs :- Field(data, "Errinv_Input");
    Ok(Sigmas(xs))
  }

  /** `sigo_final(data)`: masked reciprocals of `Errinv_Final`. */
  function SigoFinal(data: Record<real>): (r: Result<seq<real>>)
    ensures r.Ok? <==> "Errinv_Final" in data
    ensures r.Err? ==> r.error == KeyError("Errinv_Final")
    ensures r.Ok? ==> MaskedReciprocals(data["Errinv_Final"], r.value)
  {
    var xs :- Field(data, "Errinv_Final");
    Ok(Sigmas(xs))
  }

  /** `sigo(data)`: `Errinv_Final` when present, else
      `Inverse_Observation_Error`, else a failure. */
  function Sigo(data: Record<real>): (r: Result<seq<real>>)
    ensures "Errinv_Final" in data ==> r == SigoFinal(data)
    ensures "Errinv_Final" !in data && "Inverse_Observation_Error" in data ==>
              r.Ok? && MaskedReciprocals(data["Inverse_Observation_Error"], r.value)
    ensures "Errinv_Final" !in data && "Inverse_Observation_Error" !in data ==>
              r == Err(NoInverseError)
  {
    if "Errinv_Final" in data then Ok(Sigmas(data["Errinv_Final"]))
    else if "Inverse_Observation_Error" in data then Ok(Sigmas(data["Inverse_Observation_Error"]))
    else Err(NoInverseError)
  }
}
