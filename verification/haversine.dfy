/** `haversine_pairwise` and `p_haversine_pairwise`: all-pairs great-circle
    distances between point set A (`t1`, `n1` points) and point set B (`t2`,
    `n2` points), built by tiling both sets into `n2 x n1` grids, flattening
    them, applying the haversine formula entrywise and reshaping the result to
    `n2 x n1`. The transcendental functions are parameters; what is modelled
    exactly is the shape bookkeeping, the reshape failures and the order in
    which the formula combines its parts. */
module Haversine {
  import opened Outcomes
  import opened Grid

  /** Radius, in kilometres, of the spherical Earth the formula assumes. */
  const EarthRadiusKm: real := 6367.0

  /** The floating-point primitives the formula is made of (`np.radians`,
      `sin`, `cos`, `arcsin`, `sqrt`), left uninterpreted. */
  datatype Elementary = Elementary(
    radians: real -> real,
    sin: real -> real,
    cos: real -> real,
    arcsin: real -> real,
    sqrt: real -> real)

  /** A point set as the data source yields it: `t.v('lon')` and `t.v('lat')`,
      in decimal degrees. Nothing forces the two to have the same length. */
  datatype Points = Points(lon: seq<real>, lat: seq<real>)

  /** The four flattened coordinate vectors, each of length `n2 * n1`. */
  datatype Cross = Cross(n1: nat, n2: nat,
                         lon1v: seq<real>, lat1v: seq<real>,
                         lon2v: seq<real>, lat2v: seq<real>)
  {
    predicate Valid() {
      && |lon1v| == n2 * n1
      && |lat1v| == n2 * n1
      && |lon2v| == n2 * n1
      && |lat2v| == n2 * n1
    }
  }

  function Sq(x: real): real {
    x * x
  }

  /** `np.radians` on every entry. */
  function ToRadians(e: Elementary, xs: seq<real>): seq<real> {
    seq(|xs|, k requires 0 <= k < |xs| => e.radians(xs[k]))
  }

  /** Entrywise difference of two vectors of one length. */
  function Sub(x: seq<real>, y: seq<real>): seq<real>
    requires |x| == |y|
  {
    seq(|x|, k requires 0 <= k < |x| => x[k] - y[k])
  }

  /** The haversine term `a` of two points in radians, given their latitude
      and longitude differences and their latitudes. */
  function HavTerm(e: Elementary, dlat: real, dlon: real, lat1: real, lat2: real): real {
    Sq(e.sin(dlat / 2.0)) + e.cos(lat1) * e.cos(lat2) * Sq(e.sin(dlon / 2.0))
  }

  /** Reference kernel: the great-circle distance in kilometres from point
      (`lonA`, `latA`) to point (`lonB`, `latB`), both in degrees. */
  function DistanceKm(e: Elementary, lonA: real, latA: real, lonB: real, latB: real): real {
    var lon1, lat1 := e.radians(lonA), e.radians(latA);
    var lon2, lat2 := e.radians(lonB), e.radians(latB);
    EarthRadiusKm * (2.0 * e.arcsin(e.sqrt(HavTerm(e, lat2 - lat1, lon2 - lon1, lat1, lat2))))
  }

  /** Within each set the longitudes and latitudes line up, so each set is a
      well-formed list of points. */
  predicate Aligned(t1: Points, t2: Points) {
    |t1.lon| == |t1.lat| && |t2.lon| == |t2.lat|
  }

  /** The condition under which every `reshape(n2*n1)` succeeds: the tiled
      latitude grids have `n2 * n1` entries. `n1` and `n2` are the lengths of
      the longitude vectors; a latitude vector of another length is harmless
      only when the other set is empty. */
  predicate ShapesAgree(t1: Points, t2: Points) {
    && (|t2.lon| == 0 || |t1.lat| == |t1.lon|)
    && (|t1.lon| == 0 || |t2.lat| == |t2.lon|)
  }

  /** Reference result: row `j` for point `j` of B, column `i` for point `i`
      of A, as a plain double loop would build it. */
  function PairMatrix(e: Elementary, t1: Points, t2: Points): seq<seq<real>>
    requires Aligned(t1, t2)
  {
    seq(|t2.lon|, j requires 0 <= j < |t2.lon| =>
      seq(|t1.lon|, i requires 0 <= i < |t1.lon| =>
        DistanceKm(e, t1.lon[i], t1.lat[i], t2.lon[j], t2.lat[j])))
  }

  /** Radian conversion, tiling and flattening shared by both variants. */
  function CrossProduct(e: Elementary, t1: Points, t2: Points): (r: Result<Cross>)
    ensures r.Ok? ==> r.value.Valid() && r.value.n1 == |t1.lon| && r.value.n2 == |t2.lon|
  {
    var lon1, lat1 := ToRadians(e, t1.lon), ToRadians(e, t1.lat);
    var lon2, lat2 := ToRadians(e, t2.lon), ToRadians(e, t2.lat);
    var n1, n2 := |lon1|, |lon2|;
    var lon1v :- Ravel(TileRows(lon1, n2), n2 * n1);
    var lat1v :- Ravel(TileRows(lat1, n2), n2 * n1);
    var lon2v :- Ravel(TileCols(lon2, n1), n2 * n1);
    var lat2v :- Ravel(TileCols(lat2, n1), n2 * n1);
    Ok(Cross(n1, n2, lon1v, lat1v, lon2v, lat2v))
  }

  /** The distance vector as `haversine_pairwise` computes it, in stages:
      `a`, then `c = 2 * arcsin(sqrt(a))`, then `km = 6367 * c`. */
  function StagedKm(e: Elementary, x: Cross): seq<real>
    requires x.Valid()
  {
    var dlon := Sub(x.lon2v, x.lon1v);
    var dlat := Sub(x.lat2v, x.lat1v);
    var n := |dlon|;
    var a := seq(n, k requires 0 <= k < n => HavTerm(e, dlat[k], dlon[k], x.lat1v[k], x.lat2v[k]));
    var c := seq(n, k requires 0 <= k < n => 2.0 * e.arcsin(e.sqrt(a[k])));
    seq(n, k requires 0 <= k < n => EarthRadiusKm * c[k])
  }

  /** The distance vector as `p_haversine_pairwise` computes it: one fused
      expression, `6367 * 2 * arcsin(sqrt(...))`, multiplied left to right. */
  function FusedKm(e: Elementary, x: Cross): seq<real>
    requires x.Valid()
  {
    var dlon := Sub(x.lon2v, x.lon1v);
    var dlat := Sub(x.lat2v, x.lat1v);
    var n := |dlon|;
    seq(n, k requires 0 <= k < n =>
      EarthRadiusKm * 2.0 * e.arcsin(e.sqrt(HavTerm(e, dlat[k], dlon[k], x.lat1v[k], x.lat2v[k]))))
  }

  /** `haversine_pairwise(t1, t2)`: an `n2 x n1` matrix, or numpy's reshape
      failure when a point set's coordinate lengths disagree. */
  function HaversinePairwise(e: Elementary, t1: Points, t2: Points): (r: Result<seq<seq<real>>>)
    ensures r.Ok? <==> ShapesAgree(t1, t2)
    ensures r.Err? ==> r.error == ShapeMismatch
    ensures r.Ok? ==> |r.value| == |t2.lon| && Rectangular(r.value, |t1.lon|)
  {
    CrossProductPairs(e, t1, t2);
    var x :- CrossProduct(e, t1, t2);
    Reshape(StagedKm(e, x), x.n2, x.n1)
  }

  /** `threads` only configures the expression evaluator's worker pool. */
  function PHaversinePairwise(e: Elementary, t1: Points, t2: Points, threads: int): (r: Result<seq<seq<real>>>)
    ensures r.Ok? <==> ShapesAgree(t1, t2)
    ensures r.Err? ==> r.error == ShapeMismatch
    ensures r.Ok? ==> |r.value| == |t2.lon| && Rectangular(r.value, |t1.lon|)
  {
    CrossProductPairs(e, t1, t2);
    var x :- CrossProduct(e, t1, t2);
    Reshape(FusedKm(e, x), x.n2, x.n1)
  }

  /** Tiling and flattening succeed exactly when the shapes agree, and then
      flat position `j * n1 + i` pairs point `i` of A with point `j` of B. */
  lemma CrossProductPairs(e: Elementary, t1: Points, t2: Points)
    ensures CrossProduct(e, t1, t2).Ok? <==> ShapesAgree(t1, t2)
    ensures CrossProduct(e, t1, t2).Err? ==> CrossProduct(e, t1, t2).error == ShapeMismatch
    ensures CrossProduct(e, t1, t2).Ok? ==>
              var x := CrossProduct(e, t1, t2).value;
              forall j, i :: 0 <= j < |t2.lon| && 0 <= i < |t1.lon| ==>
                && Offset(j, i, x.n1) < |x.lon1v|
                && x.lon1v[Offset(j, i, x.n1)] == e.radians(t1.lon[i])
                && x.lat1v[Offset(j, i, x.n1)] == e.radians(t1.lat[i])
                && x.lon2v[Offset(j, i, x.n1)] == e.radians(t2.lon[j])
                && x.lat2v[Offset(j, i, x.n1)] == e.radians(t2.lat[j])
  {
    var lon1, lat1 := ToRadians(e, t1.lon), ToRadians(e, t1.lat);
    var lon2, lat2 := ToRadians(e, t2.lon), ToRadians(e, t2.lat);
    var n1, n2 := |lon1|, |lon2|;
    TileRowsFlat(lon1, n2);
    TileRowsFlat(lat1, n2);
    TileColsFlat(lon2, n1);
    TileColsFlat(lat2, n1);
    assert |Flatten(TileRows(lat1, n2))| == n2 * n1 <==> (n2 == 0 || |lat1| == n1) by {
      if n2 > 0 && n2 * |lat1| == n2 * n1 {
        MulCancel(n2, |lat1|, n1);
      }
    }
    assert |Flatten(TileCols(lat2, n1))| == n2 * n1 <==> (n1 == 0 || |lat2| == n2) by {
      if n1 > 0 && |lat2| * n1 == n2 * n1 {
        MulCancel(n1, |lat2|, n2);
      }
    }
  }

  /** Flat position `j * n1 + i` of a successful cross product pairs point
      `i` of A with point `j` of B. */
  lemma CrossProductAt(e: Elementary, t1: Points, t2: Points, j: nat, i: nat)
    requires CrossProduct(e, t1, t2).Ok? && j < |t2.lon| && i < |t1.lon|
    ensures var x := CrossProduct(e, t1, t2).value;
              && Offset(j, i, x.n1) < x.n2 * x.n1
              && i < |t1.lat| && j < |t2.lat|
              && x.lon1v[Offset(j, i, x.n1)] == e.radians(t1.lon[i])
              && x.lat1v[Offset(j, i, x.n1)] == e.radians(t1.lat[i])
              && x.lon2v[Offset(j, i, x.n1)] == e.radians(t2.lon[j])
              && x.lat2v[Offset(j, i, x.n1)] == e.radians(t2.lat[j])
  {
    CrossProductPairs(e, t1, t2);
  }

  /** Flat entry `k` of the staged distance vector is the haversine distance
      of the two points paired at `k`. */
  lemma StagedKmAt(e: Elementary, x: Cross, k: nat)
    requires x.Valid() && k < x.n2 * x.n1
    ensures StagedKm(e, x)[k] ==
              EarthRadiusKm * (2.0 * e.arcsin(e.sqrt(
                HavTerm(e, x.lat2v[k] - x.lat1v[k], x.lon2v[k] - x.lon1v[k], x.lat1v[k], x.lat2v[k]))))
  {
  }

  /** The pairwise result: a failure exactly when a reshape does, and
      otherwise an `n2 x n1` matrix whose entry `[j][i]` is the distance from
      point `i` of A to point `j` of B. */
  lemma PairwiseEntries(e: Elementary, t1: Points, t2: Points)
    ensures HaversinePairwise(e, t1, t2).Ok? <==> ShapesAgree(t1, t2)
    ensures HaversinePairwise(e, t1, t2).Err? ==> HaversinePairwise(e, t1, t2).error == ShapeMismatch
    ensures HaversinePairwise(e, t1, t2).Ok? ==>
              var m := HaversinePairwise(e, t1, t2).value;
              && |m| == |t2.lon|
              && Rectangular(m, |t1.lon|)
              && forall j, i :: 0 <= j < |t2.lon| && 0 <= i < |t1.lon| ==>
                   m[j][i] == DistanceKm(e, t1.lon[i], t1.lat[i], t2.lon[j], t2.lat[j])
  {
    var r := CrossProduct(e, t1, t2);
    assert r.Ok? <==> ShapesAgree(t1, t2) by { CrossProductPairs(e, t1, t2); }
    if r.Ok? {
      var x := r.value;
      var km := StagedKm(e, x);
      var m := HaversinePairwise(e, t1, t2).value;
      assert m == Reshape(km, x.n2, x.n1).value;
      forall j, i | 0 <= j < |t2.lon| && 0 <= i < |t1.lon|
        ensures m[j][i] == DistanceKm(e, t1.lon[i], t1.lat[i], t2.lon[j], t2.lat[j])
      {
        var k := Offset(j, i, x.n1);
        CrossProductAt(e, t1, t2, j, i);
        ReshapeAt(km, x.n2, x.n1, j, i);
        StagedKmAt(e, x, k);
      }
    }
  }

  /** With aligned point sets the tiled computation is exactly the
      double-loop matrix. */
  lemma PairwiseIsPairMatrix(e: Elementary, t1: Points, t2: Points)
    requires Aligned(t1, t2)
    ensures HaversinePairwise(e, t1, t2) == Ok(PairMatrix(e, t1, t2))
  {
    PairwiseEntries(e, t1, t2);
    var m := HaversinePairwise(e, t1, t2).value;
    var p := PairMatrix(e, t1, t2);
    forall j | 0 <= j < |t2.lon| ensures m[j] == p[j] {
      assert |m[j]| == |p[j]|;
    }
    assert m == p;
  }

  /** The fused evaluation gives the same matrix as the staged one, for every
      thread count. */
  lemma FusedAgrees(e: Elementary, t1: Points, t2: Points, threads: int)
    ensures PHaversinePairwise(e, t1, t2, threads) == HaversinePairwise(e, t1, t2)
  {
    var r := CrossProduct(e, t1, t2);
    if r.Ok? {
      var x := r.value;
      var staged, fused := StagedKm(e, x), FusedKm(e, x);
      assert |staged| == |fused|;
      forall k | 0 <= k < |staged| ensures staged[k] == fused[k] {
        var a := HavTerm(e, Sub(x.lat2v, x.lat1v)[k], Sub(x.lon2v, x.lon1v)[k], x.lat1v[k], x.lat2v[k]);
        var s := e.arcsin(e.sqrt(a));
        assert staged[k] == EarthRadiusKm * (2.0 * s);
        assert fused[k] == EarthRadiusKm * 2.0 * s;
      }
      assert staged == fused;
    }
  }
}
