/** `cpen`: the penalty score of a set of innovations, the mean over the
    zipped (innovation, error) pairs of `(omg / sigo)**2`. */
module Penalty {
  import opened Outcomes

  /** `zip(omg, sigo)` stops at the shorter sequence. */
  function Pairs(omg: seq<real>, sigo: seq<real>): nat {
    if |omg| <= |sigo| then |omg| else |sigo|
  }

  /** No error among the zipped pairs is zero. */
  predicate NonZeroErrors(omg: seq<real>, sigo: seq<real>) {
    forall k :: 0 <= k < |omg| && k < |sigo| ==> sigo[k] != 0.0
  }

  function Ratio2(o: real, s: real): real
    requires s != 0.0
  {
    (o / s) * (o / s)
  }

  /** The sum of `(omg[k] / sigo[k])**2` over the first `n` pairs. */
  function SumSquares(omg: seq<real>, sigo: seq<real>, n: nat): real
    requires n <= |omg| && n <= |sigo| && NonZeroErrors(omg, sigo)
  {
    if n == 0 then 0.0 else SumSquares(omg, sigo, n - 1) + Ratio2(omg[n - 1], sigo[n - 1])
  }

  /** A sum of squares is never negative, and it is zero exactly when every
      innovation in it is zero. */
  lemma {:induction false} SumSquaresZeroIff(omg: seq<real>, sigo: seq<real>, n: nat)
    requires n <= |omg| && n <= |sigo| && NonZeroErrors(omg, sigo)
    ensures SumSquares(omg, sigo, n) >= 0.0
    ensures SumSquares(omg, sigo, n) == 0.0 <==> forall k :: 0 <= k < n ==> omg[k] == 0.0
  {
    if n > 0 {
      SumSquaresZeroIff(omg, sigo, n - 1);
      var q := omg[n - 1] / sigo[n - 1];
      assert Ratio2(omg[n - 1], sigo[n - 1]) == q * q >= 0.0;
      assert q == 0.0 <==> omg[n - 1] == 0.0;
    }
  }

  /** `cpen(val, dep)`: accumulate over the zipped pairs, then divide by their
      count; with no pairs the division raises. */
  method Cpen(omg: seq<real>, sigo: seq<real>) returns (r: Result<real>)
    requires NonZeroErrors(omg, sigo)
    ensures r.Err? <==> Pairs(omg, sigo) == 0
    ensures r.Err? ==> r.error == ZeroDivision
    ensures r.Ok? ==> r.value == SumSquares(omg, sigo, Pairs(omg, sigo)) / Pairs(omg, sigo) as real
    ensures r.Ok? ==> r.value >= 0.0
    ensures r.Ok? ==> (r.value == 0.0 <==> forall k :: 0 <= k < Pairs(omg, sigo) ==> omg[k] == 0.0)
  {
    var n := Pairs(omg, sigo);
    var s := 0.0;
    var ct := 0;
    while ct < n
      invariant 0 <= ct <= n
      invariant s == SumSquares(omg, sigo, ct)
    {
      s := s + Ratio2(omg[ct], sigo[ct]);
      ct := ct + 1;
    }
    if ct == 0 {
      return Err(ZeroDivision);
    }
    SumSquaresZeroIff(omg, sigo, n);
    r := Ok(s / ct as real);
  }
}
