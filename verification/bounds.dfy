/**
 The min/max scan of a sector's systems, one axis at a time, and what it
 computes: the exact bounds of the coordinates on that axis, the same
 bounds as independent running minimum and maximum, for any order of the
 systems.
 */
module Bounds {
  import opened Geometry

  /** Every system's coordinate on axis `a` lies in `r`. */
  ghost predicate Encloses(r: Range, ps: seq<Point>, a: Axis)
  {
    forall i :: 0 <= i < |ps| ==> r.lo <= Coord(ps[i], a) <= r.hi
  }

  /** Some system sits on the lower end of `r` and some on the upper end. */
  ghost predicate Attains(r: Range, ps: seq<Point>, a: Axis)
  {
    && (exists i :: 0 <= i < |ps| && Coord(ps[i], a) == r.lo)
    && (exists j :: 0 <= j < |ps| && Coord(ps[j], a) == r.hi)
  }

  /** `r` is the tight bounding interval of the systems on axis `a`. */
  ghost predicate Exact(r: Range, ps: seq<Point>, a: Axis)
  {
    Encloses(r, ps, a) && Attains(r, ps, a)
  }

  /**
   The scan of axis `a` over the systems in order: the first system seeds
   both ends and is then passed through the update like every other one.
   */
  function Scan(ps: seq<Point>, a: Axis): (r: Range)
    requires |ps| > 0
    ensures r.lo <= r.hi
    decreases |ps|
  {
    if |ps| == 1 then
      Step(Range(Coord(ps[0], a), Coord(ps[0], a)), Coord(ps[0], a))
    else
      Step(Scan(ps[..|ps| - 1], a), Coord(ps[|ps| - 1], a))
  }

  /** The bounding box the scan leaves after visiting every system. */
  function BoxOf(ps: seq<Point>): (b: Box)
    requires |ps| > 0
    ensures Ordered(b)
    ensures forall a :: Along(b, a) == Scan(ps, a)
  {
    Box(Scan(ps, X), Scan(ps, Y), Scan(ps, Z))
  }

  /** A box whose every axis is the scan of that axis is the scanned box. */
  lemma BoxFromAxes(ps: seq<Point>, b: Box)
    requires |ps| > 0
    requires forall a :: Scan(ps, a) == Along(b, a)
    ensures BoxOf(ps) == b
  {
  }

  /** Reference minimum: a running minimum updated with every coordinate. */
  function MinOf(ps: seq<Point>, a: Axis): (m: int)
    requires |ps| > 0
    decreases |ps|
  {
    if |ps| == 1 then Coord(ps[0], a)
    else Min(MinOf(ps[..|ps| - 1], a), Coord(ps[|ps| - 1], a))
  }

  /** Reference maximum: a running maximum updated with every coordinate. */
  function MaxOf(ps: seq<Point>, a: Axis): (m: int)
    requires |ps| > 0
    decreases |ps|
  {
    if |ps| == 1 then Coord(ps[0], a)
    else Max(MaxOf(ps[..|ps| - 1], a), Coord(ps[|ps| - 1], a))
  }

  /**
   The `else if` scan computes the same interval as updating the minimum
   and the maximum independently with every coordinate.
   */
  lemma {:induction false} ScanIsIndependent(ps: seq<Point>, a: Axis)
    requires |ps| > 0
    ensures Scan(ps, a) == Range(MinOf(ps, a), MaxOf(ps, a))
    decreases |ps|
  {
    if |ps| > 1 {
      ScanIsIndependent(ps[..|ps| - 1], a);
    }
  }

  /** Adding one coordinate to exact bounds with the update keeps them exact. */
  lemma StepExact(r: Range, ps: seq<Point>, p: Point, a: Axis)
    requires |ps| > 0
    requires Exact(r, ps, a)
    ensures Exact(Step(r, Coord(p, a)), ps + [p], a)
  {
    var qs := ps + [p];
    var r' := Step(r, Coord(p, a));
    var i :| 0 <= i < |ps| && Coord(ps[i], a) == r.lo;
    var j :| 0 <= j < |ps| && Coord(ps[j], a) == r.hi;
    assert r.lo <= r.hi by { assert r.lo <= Coord(ps[0], a) <= r.hi; }
    assert qs[i] == ps[i] && qs[j] == ps[j] && qs[|ps|] == p;
    if r'.lo == Coord(p, a) {
      assert Coord(qs[|ps|], a) == r'.lo;
    } else {
      assert Coord(qs[i], a) == r'.lo;
    }
    if r'.hi == Coord(p, a) {
      assert Coord(qs[|ps|], a) == r'.hi;
    } else {
      assert Coord(qs[j], a) == r'.hi;
    }
    forall k | 0 <= k < |qs|
      ensures r'.lo <= Coord(qs[k], a) <= r'.hi
    {
      if k < |ps| {
        assert qs[k] == ps[k];
      }
    }
  }

  /**
   Soundness and tightness of the scan: every system lies within the
   scanned interval and both of its ends are attained by some system.
   */
  lemma {:induction false} ScanExact(ps: seq<Point>, a: Axis)
    requires |ps| > 0
    ensures Exact(Scan(ps, a), ps, a)
    decreases |ps|
  {
    if |ps| == 1 {
      var c := Coord(ps[0], a);
      assert Step(Range(c, c), c) == Range(c, c);
    } else {
      var init := ps[..|ps| - 1];
      ScanExact(init, a);
      StepExact(Scan(init, a), init, ps[|ps| - 1], a);
      assert init + [ps[|ps| - 1]] == ps;
    }
  }

  /** Exact bounds are unique: two exact intervals for the same systems coincide. */
  lemma ExactUnique(r1: Range, r2: Range, ps: seq<Point>, a: Axis)
    requires Exact(r1, ps, a) && Exact(r2, ps, a)
    ensures r1 == r2
  {
  }

  /** The scan is the only exact interval: any exact interval is what the scan returns. */
  lemma ScanCharacterised(r: Range, ps: seq<Point>, a: Axis)
    requires |ps| > 0
    ensures Exact(r, ps, a) <==> Scan(ps, a) == r
  {
    ScanExact(ps, a);
    if Exact(r, ps, a) {
      ExactUnique(r, Scan(ps, a), ps, a);
    }
  }

  /** Exactness depends only on which systems are present, not on their order. */
  lemma ExactPermutation(r: Range, ps: seq<Point>, qs: seq<Point>, a: Axis)
    requires multiset(ps) == multiset(qs)
    requires Exact(r, ps, a)
    ensures Exact(r, qs, a)
  {
    var i :| 0 <= i < |ps| && Coord(ps[i], a) == r.lo;
    var j :| 0 <= j < |ps| && Coord(ps[j], a) == r.hi;
    assert ps[i] in multiset(qs) && ps[j] in multiset(qs);
    assert ps[i] in qs && ps[j] in qs;
    forall k | 0 <= k < |qs|
      ensures r.lo <= Coord(qs[k], a) <= r.hi
    {
      assert qs[k] in multiset(ps);
      assert qs[k] in ps;
    }
  }

  /** Permuting the systems leaves every axis's scanned interval unchanged. */
  lemma ScanPermutation(ps: seq<Point>, qs: seq<Point>, a: Axis)
    requires |ps| > 0
    requires multiset(ps) == multiset(qs)
    ensures |qs| > 0
    ensures Scan(ps, a) == Scan(qs, a)
  {
    assert |qs| == |multiset(qs)| == |multiset(ps)| == |ps|;
    ScanExact(ps, a);
    ExactPermutation(Scan(ps, a), ps, qs, a);
    ScanCharacterised(Scan(ps, a), qs, a);
  }

  /** A single system is its own bounding box, and the sector's radius is the bare margin. */
  lemma SingleSystem(p: Point)
    ensures forall a :: Scan([p], a) == Range(Coord(p, a), Coord(p, a))
    ensures BoxOf([p]) == Box(Range(p.x, p.x), Range(p.y, p.y), Range(p.z, p.z))
    ensures Radius(BoxOf([p])) == 1.0
  {
  }

  /** Every coordinate multiplied by `k`; labels are kept. */
  function Scale(ps: seq<Point>, k: nat): (qs: seq<Point>)
    ensures |qs| == |ps|
    ensures forall i :: 0 <= i < |ps| ==> qs[i].kind == ps[i].kind
    ensures forall i, a :: 0 <= i < |ps| ==> Coord(qs[i], a) == k * Coord(ps[i], a)
  {
    seq(|ps|, i requires 0 <= i < |ps| => Point(k * ps[i].x, k * ps[i].y, k * ps[i].z, ps[i].kind))
  }

  function ScaleRange(r: Range, k: nat): (r': Range)
  {
    Range(k * r.lo, k * r.hi)
  }

  function ScaleBox(b: Box, k: nat): (b': Box)
  {
    Box(ScaleRange(b.x, k), ScaleRange(b.y, k), ScaleRange(b.z, k))
  }

  lemma MulMono(k: nat, u: int, v: int)
    requires u <= v
    ensures k * u <= k * v
  {
  }

  /** Scaling the systems by `k` scales both ends of each axis's interval by `k`. */
  lemma ScanScale(ps: seq<Point>, k: nat, a: Axis)
    requires |ps| > 0
    ensures Scan(Scale(ps, k), a) == ScaleRange(Scan(ps, a), k)
  {
    var r := Scan(ps, a);
    var qs := Scale(ps, k);
    var r' := Range(k * r.lo, k * r.hi);
    ScanExact(ps, a);
    var i :| 0 <= i < |ps| && Coord(ps[i], a) == r.lo;
    var j :| 0 <= j < |ps| && Coord(ps[j], a) == r.hi;
    assert Coord(qs[i], a) == r'.lo && Coord(qs[j], a) == r'.hi;
    forall n | 0 <= n < |qs|
      ensures r'.lo <= Coord(qs[n], a) <= r'.hi
    {
      MulMono(k, r.lo, Coord(ps[n], a));
      MulMono(k, Coord(ps[n], a), r.hi);
    }
    ScanCharacterised(r', qs, a);
  }

  /** Scaling a box by `k` scales the radius above its margin by `k`. */
  lemma RadiusScale(b: Box, k: nat)
    ensures Radius(ScaleBox(b, k)) - 1.0 == (k as real) * (Radius(b) - 1.0)
  {
  }

  /** Scaling the systems by `k` scales both ends of every axis's interval by `k`. */
  lemma BoxScale(ps: seq<Point>, k: nat)
    requires |ps| > 0
    ensures BoxOf(Scale(ps, k)) == ScaleBox(BoxOf(ps), k)
  {
    ScanScale(ps, k, X);
    ScanScale(ps, k, Y);
    ScanScale(ps, k, Z);
  }

  /** Doubling every coordinate doubles every bound and the radius above its margin. */
  lemma Doubling(ps: seq<Point>)
    requires |ps| > 0
    ensures BoxOf(Scale(ps, 2)) == ScaleBox(BoxOf(ps), 2)
    ensures Radius(BoxOf(Scale(ps, 2))) - 1.0 == 2.0 * (Radius(BoxOf(ps)) - 1.0)
  {
    BoxScale(ps, 2);
    RadiusScale(BoxOf(ps), 2);
  }
}
