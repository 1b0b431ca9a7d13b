/** `qify` and `qifn`: a packed `Station_Elevation` value split into its
    thousands, truncated toward zero, and the remainder. */
module Elevation {
  import opened Outcomes
  import opened Record

  /** The packing factor: thousands of the packed value are the quality index. */
  const Scale: real := 1000.0

  /** `np.trunc`: the integer part, rounding toward zero. */
  function Trunc(x: real): (q: int)
    ensures 0.0 <= x ==> q as real <= x < q as real + 1.0
    ensures x < 0.0 ==> q as real - 1.0 < x <= q as real
  {
    if x >= 0.0 then x.Floor else -((-x).Floor)
  }

  /** One entry of `qify`: `trunc(e / 1000.)`. */
  function QifyOf(e: real): int {
    Trunc(e / Scale)
  }

  /** One entry of `qifn`: `e - trunc(e / 1000.) * 1000.`. */
  function QifnOf(e: real): real {
    e - QifyOf(e) as real * Scale
  }

  /** The split recombines to `e`, the remainder is under 1000 in magnitude
      and never of the opposite sign to `e`. */
  lemma Decomposition(e: real)
    ensures QifyOf(e) as real * Scale + QifnOf(e) == e
    ensures -Scale < QifnOf(e) < Scale
    ensures 0.0 <= e ==> 0.0 <= QifnOf(e)
    ensures e <= 0.0 ==> QifnOf(e) <= 0.0
  {
    var q := QifyOf(e) as real;
    if 0.0 <= e {
      assert q <= e / Scale < q + 1.0;
      assert q * Scale <= e < q * Scale + Scale;
    } else {
      assert q - 1.0 < e / Scale <= q;
      assert q * Scale - Scale < e <= q * Scale;
    }
  }

  /** Any integer `q` and remainder `n` with the properties of
      `Decomposition` are the ones `qify` and `qifn` give. */
  lemma DecompositionUnique(e: real, q: int, n: real)
    requires q as real * Scale + n == e
    requires -Scale < n < Scale
    requires 0.0 <= e ==> 0.0 <= n
    requires e <= 0.0 ==> n <= 0.0
    ensures q == QifyOf(e) && n == QifnOf(e)
  {
    Decomposition(e);
    var q' := QifyOf(e);
    var n' := QifnOf(e);
    assert (q - q') as real * Scale == n' - n;
  }

  /** `qify(data)`: the quality-index part of every station elevation. */
  function Qify(data: Record<real>): (r: Result<seq<int>>)
    ensures r.Ok? <==> "Station_Elevation" in data
    ensures r.Err? ==> r.error == KeyError("Station_Elevation")
    ensures r.Ok? ==> var es := data["Station_Elevation"];
              && |r.value| == |es|
              && forall k :: 0 <= k < |es| ==>
                   && (0.0 <= es[k] ==> r.value[k] as real * Scale <= es[k] < r.value[k] as real * Scale + Scale)
                   && (es[k] < 0.0 ==> r.value[k] as real * Scale - Scale < es[k] <= r.value[k] as real * Scale)
  {
    var es :- Field(data, "Station_Elevation");
    Ok(seq(|es|, k requires 0 <= k < |es| => QifyOf(es[k])))
  }

  /** `qifn(data)`: the remainder part of every station elevation. */
  function Qifn(data: Record<real>): (r: Result<seq<real>>)
    ensures r.Ok? <==> "Station_Elevation" in data
    ensures r.Err? ==> r.error == KeyError("Station_Elevation")
    ensures r.Ok? ==> var es := data["Station_Elevation"];
              && |r.value| == |es|
              && forall k :: 0 <= k < |es| ==>
                   && -Scale < r.value[k] < Scale
                   && (0.0 <= es[k] ==> 0.0 <= r.value[k])
                   && (es[k] <= 0.0 ==> r.value[k] <= 0.0)
  {
    var es :- Field(data, "Station_Elevation");
    assert forall k :: 0 <= k < |es| ==> -Scale < QifnOf(es[k]) < Scale by {
      forall k | 0 <= k < |es| ensures -Scale < QifnOf(es[k]) < Scale {
        Decomposition(es[k]);
      }
    }
    Ok(seq(|es|, k requires 0 <= k < |es| => QifnOf(es[k])))
  }

  /** Field by field, `qify(data) * 1000 + qifn(data)` gives back
      `Station_Elevation`, with every remainder under 1000 in magnitude and of
      the sign of its elevation. */
  lemma QifyQifnRecombine(data: Record<real>)
    requires "Station_Elevation" in data
    ensures Qify(data).Ok? && Qifn(data).Ok?
    ensures var es, qy, qn := data["Station_Elevation"], Qify(data).value, Qifn(data).value;
              && |qy| == |es| && |qn| == |es|
              && forall k :: 0 <= k < |es| ==>
                   && qy[k] as real * Scale + qn[k] == es[k]
                   && -Scale < qn[k] < Scale
                   && (0.0 <= es[k] ==> 0.0 <= qn[k])
                   && (es[k] <= 0.0 ==> qn[k] <= 0.0)
  {
    var es := data["Station_Elevation"];
    forall k | 0 <= k < |es| ensures QifyOf(es[k]) as real * Scale + QifnOf(es[k]) == es[k] {
      Decomposition(es[k]);
    }
    forall k | 0 <= k < |es|
      ensures -Scale < QifnOf(es[k]) < Scale
      ensures 0.0 <= es[k] ==> 0.0 <= QifnOf(es[k])
      ensures es[k] <= 0.0 ==> QifnOf(es[k]) <= 0.0
    {
      Decomposition(es[k]);
    }
  }
}
