/**
 The data a sector is made of: star systems as labelled integer points,
 one running interval per axis, and the radius a sector is framed with.
 */
module Geometry {

  /** A star system of the sector catalogue; `kind` is a label the geometry never looks at. */
  datatype Point = Point(x: int, y: int, z: int, kind: string)

  /** The coordinates a sector is fetched relative to. */
  datatype Origin = Origin(x: int, y: int, z: int)

  datatype Axis = X | Y | Z

  function Coord(p: Point, a: Axis): (c: int)
  {
    match a
    case X => p.x
    case Y => p.y
    case Z => p.z
  }

  /** The running minimum `lo` and maximum `hi` of one axis. */
  datatype Range = Range(lo: int, hi: int)

  /** The axis-aligned bounding box of a sector: one range per axis. */
  datatype Box = Box(x: Range, y: Range, z: Range)

  function Along(b: Box, a: Axis): (r: Range)
  {
    match a
    case X => b.x
    case Y => b.y
    case Z => b.z
  }

  predicate Ordered(b: Box)
  {
    b.x.lo <= b.x.hi && b.y.lo <= b.y.hi && b.z.lo <= b.z.hi
  }

  function Min(a: int, b: int): (m: int)
  {
    if a <= b then a else b
  }

  function Max(a: int, b: int): (m: int)
  {
    if a <= b then b else a
  }

  /** The largest of three integers, as `Math.max` with three arguments returns it. */
  function Max3(a: int, b: int, c: int): (m: int)
    ensures m == a || m == b || m == c
    ensures a <= m && b <= m && c <= m
  {
    if b <= a && c <= a then a else if c <= b then b else c
  }

  /**
   One update of an axis with a coordinate `v`: lower the minimum if `v`
   is below it, otherwise raise the maximum if `v` is above it. A value
   that lowers the minimum is never compared with the maximum; on an
   ordered range that loses nothing, because such a value is below the
   maximum too.
   */
  function Step(r: Range, v: int): (r': Range)
    ensures r.lo <= r.hi ==> r' == Range(Min(r.lo, v), Max(r.hi, v))
    ensures r.lo <= r.hi ==> r'.lo <= v <= r'.hi
  {
    if v < r.lo then Range(v, r.hi)
    else if r.hi < v then Range(r.lo, v)
    else r
  }

  function Extent(r: Range): (e: int)
  {
    r.hi - r.lo
  }

  /**
   Half the largest axis extent plus a margin of one unit. Twice the part
   above the margin is one of the three extents and no smaller than any
   of them; on an ordered box the radius is at least one.
   */
  function Radius(b: Box): (r: real)
    ensures 2.0 * (r - 1.0) == Extent(b.x) as real
         || 2.0 * (r - 1.0) == Extent(b.y) as real
         || 2.0 * (r - 1.0) == Extent(b.z) as real
    ensures Extent(b.x) as real <= 2.0 * (r - 1.0)
    ensures Extent(b.y) as real <= 2.0 * (r - 1.0)
    ensures Extent(b.z) as real <= 2.0 * (r - 1.0)
    ensures Ordered(b) ==> r >= 1.0
  {
    (Max3(Extent(b.x), Extent(b.y), Extent(b.z)) as real) / 2.0 + 1.0
  }
}
