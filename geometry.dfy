/**
 * Polygon helpers (core/utils/geometry.py): the two Korea bounding-box
 * orientation tests, the lon/lat swap normalisation, and the shoelace
 * area of a polygon.
 *
 * Coordinates are exact reals, not binary floats. The metres-per-degree
 * factors, which `_polygon_area_m2` computes with cosines of the mean latitude,
 * are function parameters of the area.
 */
module Geometry {

  /** A coordinate pair as the tuples of core/utils/geometry.py hold it; which entry is the longitude depends on the reading. */
  type Pair = (real, real)

  /** The inclusive box both orientation tests use. */
  predicate InKoreaBox(lat: real, lon: real)
  {
    33.0 <= lat <= 39.5 && 124.0 <= lon <= 132.5
  }

  /** The pair read as `(lon, lat)` falls in the box. */
  predicate LonLatInBox(p: Pair)
  {
    InKoreaBox(p.1, p.0)
  }

  /** The pair read as `(lat, lon)` falls in the box. */
  predicate LatLonInBox(p: Pair)
  {
    InKoreaBox(p.0, p.1)
  }

  /** How many pairs, read as `(lon, lat)`, fall in the box. */
  function CountLonLat(pts: seq<Pair>): (c: nat)
    ensures c <= |pts|
  {
    if pts == [] then 0
    else CountLonLat(pts[..|pts| - 1]) + (if LonLatInBox(pts[|pts| - 1]) then 1 else 0)
  }

  /** How many pairs, read as `(lat, lon)`, fall in the box. */
  function CountLatLon(pts: seq<Pair>): (c: nat)
    ensures c <= |pts|
  {
    if pts == [] then 0
    else CountLatLon(pts[..|pts| - 1]) + (if LatLonInBox(pts[|pts| - 1]) then 1 else 0)
  }

  /**
   * The test `valid / len(points) >= 0.6` on a non-empty list, as integers.
   * `SixtyPercent` shows it is the exact ratio test over the reals.
   */
  predicate MeetsThreshold(valid: nat, n: nat)
  {
    n > 0 && 5 * valid >= 3 * n
  }

  /** `_looks_like_korea_lonlat(points)`: never for an empty list, and only with a pair in the box. */
  predicate LooksLonLat(pts: seq<Pair>)
    ensures LooksLonLat(pts) ==> pts != [] && CountLonLat(pts) > 0
  {
    MeetsThreshold(CountLonLat(pts), |pts|)
  }

  /** `_looks_like_korea_latlon(points)`: never for an empty list, and only with a pair in the box. */
  predicate LooksLatLon(pts: seq<Pair>)
    ensures LooksLatLon(pts) ==> pts != [] && CountLatLon(pts) > 0
  {
    MeetsThreshold(CountLatLon(pts), |pts|)
  }

  /** `_looks_like_korea_lonlat`: counts the pairs that, read as `(lon, lat)`, fall in the box. */
  method LooksLikeKoreaLonLat(points: seq<Pair>) returns (b: bool)
    ensures b == LooksLonLat(points)
  {
    if |points| == 0 {
      return false;
    }
    var valid := 0;
    for i := 0 to |points|
      invariant valid == CountLonLat(points[..i])
    {
      var (lon, lat) := points[i];
      assert points[..i + 1][..i] == points[..i];
      if 33.0 <= lat <= 39.5 && 124.0 <= lon <= 132.5 {
        valid := valid + 1;
      }
    }
    assert points[..|points|] == points;
    return 5 * valid >= 3 * |points|;
  }

  /** `_looks_like_korea_latlon`: counts the pairs that, read as `(lat, lon)`, fall in the box. */
  method LooksLikeKoreaLatLon(points: seq<Pair>) returns (b: bool)
    ensures b == LooksLatLon(points)
  {
    if |points| == 0 {
      return false;
    }
    var valid := 0;
    for i := 0 to |points|
      invariant valid == CountLatLon(points[..i])
    {
      var (lat, lon) := points[i];
      assert points[..i + 1][..i] == points[..i];
      if 33.0 <= lat <= 39.5 && 124.0 <= lon <= 132.5 {
        valid := valid + 1;
      }
    }
    assert points[..|points|] == points;
    return 5 * valid >= 3 * |points|;
  }

  /** The positions of the pairs that, read as `(lon, lat)`, fall in the box. */
  function InBoxPositions(pts: seq<Pair>): set<int>
  {
    set i | 0 <= i < |pts| && LonLatInBox(pts[i])
  }

  /** The count is the number of positions whose pair falls in the box. */
  lemma {:induction false} CountIsInBoxPositions(pts: seq<Pair>)
    ensures CountLonLat(pts) == |InBoxPositions(pts)|
  {
    if pts != [] {
      var n := |pts| - 1;
      var init := pts[..n];
      CountIsInBoxPositions(init);
      assert n !in InBoxPositions(init);
      if LonLatInBox(pts[n]) {
        assert InBoxPositions(pts) == InBoxPositions(init) + {n};
      } else {
        assert InBoxPositions(pts) == InBoxPositions(init);
      }
    }
  }

  /** The integer form of the threshold is the ratio test `valid / n >= 0.6` over the reals. */
  lemma SixtyPercent(valid: nat, n: nat)
    requires n > 0
    ensures MeetsThreshold(valid, n) <==> (valid as real) / (n as real) >= 0.6
  {
    var v, m := valid as real, n as real;
    var ratio := v / m;
    assert ratio * m == v;
    assert (ratio - 0.6) * m == v - 0.6 * m;
    assert MeetsThreshold(valid, n) <==> v - 0.6 * m >= 0.0;
  }

  /**
   * The lon/lat test passes exactly when the list is non-empty and at least
   * 60% of its pairs, read as `(lon, lat)`, fall in the box.
   */
  lemma LooksLonLatMeansSixtyPercent(pts: seq<Pair>)
    ensures LooksLonLat(pts) <==>
              |pts| > 0 && (|InBoxPositions(pts)| as real) / (|pts| as real) >= 0.6
  {
    CountIsInBoxPositions(pts);
    if |pts| > 0 {
      SixtyPercent(CountLonLat(pts), |pts|);
    }
  }

  /** Every pair with its entries exchanged, in the same order. */
  function Swapped(pts: seq<Pair>): (r: seq<Pair>)
    ensures |r| == |pts|
    ensures forall i :: 0 <= i < |pts| ==> r[i] == (pts[i].1, pts[i].0)
  {
    seq(|pts|, i requires 0 <= i < |pts| => (pts[i].1, pts[i].0))
  }

  /** Swapping twice gives the list back. */
  lemma SwappedTwice(pts: seq<Pair>)
    ensures Swapped(Swapped(pts)) == pts
  {
  }

  /** Reading as `(lat, lon)` counts what reading the swapped list as `(lon, lat)` counts. */
  lemma {:induction false} CountLatLonIsSwappedCount(pts: seq<Pair>)
    ensures CountLatLon(pts) == CountLonLat(Swapped(pts))
  {
    if pts != [] {
      var n := |pts| - 1;
      CountLatLonIsSwappedCount(pts[..n]);
      assert Swapped(pts)[..n] == Swapped(pts[..n]);
    }
  }

  /** `_looks_like_korea_latlon(pts)` is `_looks_like_korea_lonlat` of the swapped list. */
  lemma LatLonIsSwappedLonLat(pts: seq<Pair>)
    ensures LooksLatLon(pts) == LooksLonLat(Swapped(pts))
  {
    CountLatLonIsSwappedCount(pts);
  }

  /**
   * `_normalize_polygon_lonlat(points)`: the list as it is when it reads as
   * `(lon, lat)`, swapped when it only reads as `(lat, lon)`, as it is when
   * neither test passes. When either test passed, the result reads as
   * `(lon, lat)`.
   */
  function NormalizedLonLat(pts: seq<Pair>): (r: seq<Pair>)
    ensures |r| == |pts|
    ensures LooksLonLat(pts) ==> r == pts
    ensures !LooksLonLat(pts) && LooksLatLon(pts) ==> r == Swapped(pts)
    ensures !LooksLonLat(pts) && !LooksLatLon(pts) ==> r == pts
    ensures LooksLonLat(pts) || LooksLatLon(pts) ==> LooksLonLat(r)
  {
    LatLonIsSwappedLonLat(pts);
    if LooksLonLat(pts) then pts
    else if LooksLatLon(pts) then Swapped(pts)
    else pts
  }

  /** Normalising a normalised list changes nothing more. */
  lemma NormalizeIdempotent(pts: seq<Pair>)
    ensures NormalizedLonLat(NormalizedLonLat(pts)) == NormalizedLonLat(pts)
  {
  }

  /** `_normalize_polygon_lonlat`, running the two tests in its own order: lon/lat first, then lat/lon. */
  method NormalizePolygonLonLat(points: seq<Pair>) returns (r: seq<Pair>)
    ensures r == NormalizedLonLat(points)
  {
    var lonLat := LooksLikeKoreaLonLat(points);
    if lonLat {
      return points;
    }
    var latLon := LooksLikeKoreaLatLon(points);
    if latLon {
      return Swapped(points);
    }
    return points;
  }

  /** The sum of the latitudes of `(lon, lat)` pairs. */
  function SumLat(pts: seq<Pair>): real
  {
    if pts == [] then 0.0 else SumLat(pts[..|pts| - 1]) + pts[|pts| - 1].1
  }

  /** `lat0`, the mean latitude the projection is taken at. */
  function MeanLat(pts: seq<Pair>): real
    requires pts != []
  {
    SumLat(pts) / (|pts| as real)
  }

  /** One `(lon, lat)` pair in metres: `(lon * perDegLon, lat * perDegLat)`. */
  function Scale(p: Pair, perDegLon: real, perDegLat: real): Pair
  {
    (p.0 * perDegLon, p.1 * perDegLat)
  }

  /** The local projection: every pair scaled by metres per degree, in order. */
  function Project(pts: seq<Pair>, perDegLon: real, perDegLat: real): (q: seq<Pair>)
    ensures |q| == |pts|
    ensures forall i :: 0 <= i < |pts| ==> q[i] == Scale(pts[i], perDegLon, perDegLat)
  {
    seq(|pts|, i requires 0 <= i < |pts| => Scale(pts[i], perDegLon, perDegLat))
  }

  /** The shoelace term `x1 * y2 - x2 * y1` of an edge from `p` to `r`. */
  function Cross(p: Pair, r: Pair): real
  {
    p.0 * r.1 - r.0 * p.1
  }

  /** The point after `q[i]` on the ring: the next one, or the first after the last. */
  function Next(q: seq<Pair>, i: nat): Pair
    requires i < |q|
  {
    if i + 1 < |q| then q[i + 1] else q[0]
  }

  /** `(i + 1) % n` picks the point after position `i` on a ring of `n` points. */
  lemma NextIndex(q: seq<Pair>, i: nat)
    requires i < |q|
    ensures q[(i + 1) % |q|] == Next(q, i)
  {
    if i + 1 == |q| {
      assert (i + 1) % |q| == 0;
    } else {
      assert (i + 1) % |q| == i + 1;
    }
  }

  /** The sum of the first `k` shoelace terms of the closed ring through `q`. */
  function PartialShoelace(q: seq<Pair>, k: nat): real
    requires k <= |q|
  {
    if k == 0 then 0.0 else PartialShoelace(q, k - 1) + Cross(q[k - 1], Next(q, k - 1))
  }

  /** Twice the signed area of the ring through `q`, its last point joined back to its first. */
  function Shoelace(q: seq<Pair>): real
  {
    PartialShoelace(q, |q|)
  }

  function Abs(x: real): (r: real)
    ensures r >= 0.0 && (r == x || r == -x)
  {
    if x < 0.0 then -x else x
  }

  /**
   * `polygon_area_m2(coords)` for metres-per-degree factors `perDegLat` and
   * `perDegLon` of the mean latitude: 0 below three points, otherwise half
   * the absolute shoelace sum of the normalised, projected ring; never negative.
   */
  function Area(coords: seq<Pair>, perDegLat: real -> real, perDegLon: real -> real): (area: real)
    ensures area >= 0.0
    ensures |coords| < 3 ==> area == 0.0
  {
    if |coords| < 3 then 0.0
    else
      var pts := NormalizedLonLat(coords);
      var lat0 := MeanLat(pts);
      Abs(Shoelace(Project(pts, perDegLon(lat0), perDegLat(lat0)))) / 2.0
  }

  /** `polygon_area_m2`: normalises, projects, and sums the shoelace terms edge by edge. */
  method PolygonAreaM2(coordsLonLat: seq<Pair>, perDegLat: real -> real, perDegLon: real -> real)
    returns (area: real)
    ensures area == Area(coordsLonLat, perDegLat, perDegLon)
  {
    var pts := coordsLonLat;
    if |pts| < 3 {
      return 0.0;
    }
    pts := NormalizePolygonLonLat(pts);
    var lat0 := SumLat(pts) / (|pts| as real);
    var metersPerDegLat := perDegLat(lat0);
    var metersPerDegLon := perDegLon(lat0);
    var projected := Project(pts, metersPerDegLon, metersPerDegLat);

    var sum := ShoelaceSum(projected);
    return Abs(sum) / 2.0;
  }

  /** The accumulation loop of `polygon_area_m2`: one shoelace term per edge, the last edge closing the ring. */
  method ShoelaceSum(projected: seq<Pair>) returns (sum: real)
    ensures sum == Shoelace(projected)
  {
    sum := 0.0;
    for i := 0 to |projected|
      invariant sum == PartialShoelace(projected, i)
    {
      var x1, y1 := projected[i].0, projected[i].1;
      var x2, y2 := projected[(i + 1) % |projected|].0, projected[(i + 1) % |projected|].1;
      NextIndex(projected, i);
      sum := sum + (x1 * y2 - x2 * y1);
    }
  }

  /** The first `k` terms agree for a ring and the same ring with its first point repeated at the end. */
  lemma {:induction false} ClosedPrefixAgrees(q: seq<Pair>, k: nat)
    requires q != [] && k < |q|
    ensures PartialShoelace(q + [q[0]], k) == PartialShoelace(q, k)
  {
    if k > 0 {
      ClosedPrefixAgrees(q, k - 1);
      var c := q + [q[0]];
      assert c[k - 1] == q[k - 1] && c[k] == q[k];
    }
  }

  /**
   * Repeating the first point at the end leaves the shoelace sum unchanged:
   * the closing edge from the repeated point back to the first contributes 0.
   */
  lemma ClosedEqualsOpen(q: seq<Pair>)
    requires q != []
    ensures Shoelace(q + [q[0]]) == Shoelace(q)
  {
    var n := |q|;
    var c := q + [q[0]];
    ClosedPrefixAgrees(q, n - 1);
    assert PartialShoelace(c, n) == PartialShoelace(q, n);
    assert Cross(c[n], Next(c, n)) == 0.0;
  }

  /**
   * For fixed metres-per-degree factors, a polygon given closed (first point
   * repeated) and given open project to rings with the same shoelace sum.
   */
  lemma ClosedOrOpenSameShoelace(pts: seq<Pair>, perDegLon: real, perDegLat: real)
    requires pts != []
    ensures Shoelace(Project(pts + [pts[0]], perDegLon, perDegLat)) == Shoelace(Project(pts, perDegLon, perDegLat))
  {
    var q := Project(pts, perDegLon, perDegLat);
    var closed := Project(pts + [pts[0]], perDegLon, perDegLat);
    assert forall i :: 0 <= i < |closed| ==> closed[i] == (q + [q[0]])[i];
    assert closed == q + [q[0]];
    ClosedEqualsOpen(q);
  }
}
