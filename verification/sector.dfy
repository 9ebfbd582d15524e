/**
 Fetching a sector: the origin it was asked for, its systems, the
 bounding box of the systems and the radius derived from that box.
 */
module Sector {
  import opened Geometry
  import opened Bounds

  datatype Sector = Sector(origin: Origin, systems: seq<Point>, box: Box, radius: real)

  /** The sector the scan produces, as a value. */
  function SectorOf(x: int, y: int, z: int, systems: seq<Point>): (s: Sector)
    requires |systems| > 0
    ensures s.origin == Origin(x, y, z) && s.systems == systems
    ensures forall a :: Exact(Along(s.box, a), systems, a)
    ensures s.radius == Radius(s.box) && s.radius >= 1.0
  {
    ScanExact(systems, X);
    ScanExact(systems, Y);
    ScanExact(systems, Z);
    var box := BoxOf(systems);
    Sector(Origin(x, y, z), systems, box, Radius(box))
  }

  /**
   The scan as the sector fetch runs it: one pass over the systems in
   order, seeding every axis from the first system and then updating the
   three axes of each system with the lower-else-raise rule. The origin
   and the systems, labels included, are passed through unchanged.
   */
  method FetchSector(x: int, y: int, z: int, systems: seq<Point>) returns (s: Sector)
    requires |systems| > 0
    ensures s.origin == Origin(x, y, z)
    ensures s.systems == systems
    ensures forall a :: Exact(Along(s.box, a), systems, a)
    ensures s.radius == Radius(s.box) && s.radius >= 1.0
    ensures s == SectorOf(x, y, z, systems)
  {
    var minX, maxX, minY, maxY, minZ, maxZ := 0, 0, 0, 0, 0, 0;
    var ndx := 0;
    while ndx < |systems|
      invariant 0 <= ndx <= |systems|
      invariant 0 < ndx ==> Range(minX, maxX) == Scan(systems[..ndx], X)
      invariant 0 < ndx ==> Range(minY, maxY) == Scan(systems[..ndx], Y)
      invariant 0 < ndx ==> Range(minZ, maxZ) == Scan(systems[..ndx], Z)
    {
      var system := systems[ndx];
      assert systems[..ndx + 1][..ndx] == systems[..ndx];
      if ndx == 0 {
        minX, maxX := system.x, system.x;
        minY, maxY := system.y, system.y;
        minZ, maxZ := system.z, system.z;
      }
      if system.x < minX {
        minX := system.x;
      } else if maxX < system.x {
        maxX := system.x;
      }
      if system.y < minY {
        minY := system.y;
      } else if maxY < system.y {
        maxY := system.y;
      }
      if system.z < minZ {
        minZ := system.z;
      } else if maxZ < system.z {
        maxZ := system.z;
      }
      ndx := ndx + 1;
    }
    assert systems[..ndx] == systems;
    var box := Box(Range(minX, maxX), Range(minY, maxY), Range(minZ, maxZ));
    ScanExact(systems, X);
    ScanExact(systems, Y);
    ScanExact(systems, Z);
    s := Sector(Origin(x, y, z), systems, box, Radius(box));
  }

  /** Permuting the systems yields the same sector apart from the order of its systems. */
  lemma SectorPermutation(x: int, y: int, z: int, ps: seq<Point>, qs: seq<Point>)
    requires |ps| > 0
    requires multiset(ps) == multiset(qs)
    ensures |qs| > 0
    ensures SectorOf(x, y, z, ps).box == SectorOf(x, y, z, qs).box
    ensures SectorOf(x, y, z, ps).radius == SectorOf(x, y, z, qs).radius
  {
    ScanPermutation(ps, qs, X);
    ScanPermutation(ps, qs, Y);
    ScanPermutation(ps, qs, Z);
  }
}
