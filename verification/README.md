# Sector bounding volume

A model of `fetchSector` from a small Babylon.js star-map viewer. Fetching a
sector yields the origin it was asked for, the catalogue of star systems in
it (integer coordinates plus a `kind` label), and a bounding volume. The
volume is found in one pass over the systems. The first system seeds the
minimum and maximum of every axis. Every system, the first one included,
then updates each axis: if its coordinate is below the minimum, the minimum
is lowered; otherwise, if it is above the maximum, the maximum is raised. The
sector's radius is half the largest of the three axis extents plus a margin
of one unit.

Modules:

- `Geometry` (`geometry.dfy`): points, origins, axes, per-axis ranges, boxes,
  the one-coordinate update `Step`, `Max3` (`Math.max` of three) and `Radius`.
- `Bounds` (`bounds.dfy`): the scan `Scan` of one axis as a left fold of
  `Step`, the bounding box `BoxOf`, the reference running minimum and maximum
  `MinOf`/`MaxOf`, exactness of the bounds, order independence and scaling.
- `Sector` (`sector.dfy`): the sector record, `SectorOf` as a value, and
  `FetchSector`, an imperative loop mirroring the `forEach` with invariants
  tying it to `Scan`.
- `Catalogue` (`catalogue.dfy`): the eighteen-system catalogue embedded in the
  fetch, and the bounds and radius of that sector.

The catalogue is a parameter of `FetchSector` and `SectorOf` rather than a
literal inside them; the literal is `Catalogue.Systems`. Coordinates are
`int`, the radius is `real`. For integer extents, halving is exact in both.

## Model

| member | source | states |
|---|---|---|
| `Geometry.Step` | js/main.js:63-77 | on an ordered range the lower-else-raise update equals lowering the minimum and raising the maximum independently, and the new range contains the coordinate |
| `Geometry.Max3` | js/main.js:79 | the three-argument maximum is one of its arguments and no smaller than any of them |
| `Geometry.Radius` | js/main.js:79 | twice the radius minus the margin is one of the three extents and at least each of them; on an ordered box the radius is at least 1 |
| `Bounds.Scan` | js/main.js:54-78 | the scanned minimum of an axis never exceeds its maximum, for any non-empty list of systems |
| `Bounds.BoxOf` | js/main.js:54-78 | the box after the scan is ordered on every axis and holds each axis's scan |
| `Bounds.ScanIsIndependent` | js/main.js:63-77 | the `else if` scan gives exactly the independent running minimum and running maximum |
| `Bounds.ScanExact` | js/main.js:54-78 | every system's coordinate lies within the scanned range, and some system attains each end |
| `Bounds.ScanCharacterised` | js/main.js:54-78 | a range is exact for the systems if and only if it is what the scan returns |
| `Bounds.ScanPermutation` | js/main.js:54-78 | any reordering of the systems gives the same scanned range on every axis |
| `Bounds.SingleSystem` | js/main.js:54-79 | for one system, minimum and maximum are its coordinates on every axis, and the radius is 1 |
| `Bounds.ScanScale` | js/main.js:54-78 | multiplying every coordinate by any non-negative `k` multiplies both ends of the scanned range by `k` |
| `Bounds.BoxScale` | js/main.js:54-78 | multiplying every coordinate by any non-negative `k` multiplies every bound of the box by `k` |
| `Bounds.RadiusScale` | js/main.js:79 | scaling a box by any non-negative `k` scales the radius above its margin by `k` |
| `Bounds.Doubling` | js/main.js:54-79 | doubling every coordinate doubles every bound and doubles the radius minus 1 |
| `Sector.SectorOf` | js/main.js:26-82 | the sector keeps the given origin and systems, its box is exact on every axis, and its radius is the radius of that box and at least 1 |
| `Sector.FetchSector` | js/main.js:26-82 | the loop leaves the origin and the systems unchanged, bounds every axis exactly, sets the radius from the box, and agrees with `SectorOf` |
| `Sector.SectorPermutation` | js/main.js:54-79 | permuting the systems leaves the sector's box and radius unchanged |
| `Catalogue.Systems` | js/main.js:32-50 | the embedded catalogue holds eighteen systems |
| `Catalogue.CatalogueSector` | js/main.js:32-79 | over the catalogue at origin (0, 0, 0) the bounds are x in [-25, 21], y in [-23, 22], z in [-23, 28], the sector's extents are 46, 45 and 51, and its radius is 26.5 |

## Left out

- `createScene`, the engine and canvas setup, camera, light, meshes, the render loop and the resize listener (js/main.js:23-24, js/main.js:84-134): calls into the graphics engine and browser I/O, with nothing to state about them.
- Double-precision arithmetic of `Math.max` and `/ 2`: coordinates are modelled as unbounded integers and the radius as an exact real, which agree with doubles for coordinates of this size.
- An empty list of systems: the source does not handle it (the bounds stay undefined and the radius becomes NaN), so `FetchSector`, `SectorOf`, `Scan` and `BoxOf` require at least one system. The code raises no error for it, and the model invents none.
- The source builds the result by adding fields to a mutable sector object during the `forEach`; the model returns an immutable `Sector` value instead. Nothing else reads that object while the scan runs.
- Bounds.Doubling: the radius part of the scaling property is stated for a factor of 2 only; `RadiusScale` states it for any factor on a box, and `BoxScale` states the bounds part for any factor.
