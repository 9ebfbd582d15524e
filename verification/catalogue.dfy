/**
 The sector catalogue the fetch is given: eighteen systems with their
 coordinates and kinds, and the bounds and radius of that sector.
 */
module Catalogue {
  import opened Geometry
  import opened Bounds
  import opened Sector

  function Systems(): (ps: seq<Point>)
    ensures |ps| == 18
  {
    [ Point(20, -4, 28, "Yellow Main Sequence"),
      Point(18, -3, 17, "Dense Dust Cloud"),
      Point(18, -2, 17, "Medium Dust Cloud"),
      Point(19, 7, -3, "Blue Super Giant"),
      Point(10, -5, 0, "Blue Super Giant"),
      Point(-18, 7, -2, "Yellow Main Sequence"),
      Point(13, 7, 17, "Medium Dust Cloud"),
      Point(8, 11, -23, "Dense Dust Cloud"),
      Point(21, 10, 7, "Yellow Main Sequence"),
      Point(19, -14, -5, "Yellow Main Sequence"),
      Point(-5, 9, 24, "Blue Super Giant"),
      Point(-3, 17, -21, "Light Dust Cloud"),
      Point(20, 0, -7, "Yellow Main Sequence"),
      Point(8, 22, -18, "Yellow Main Sequence"),
      Point(-25, -23, 5, "Blue Super Giant"),
      Point(-24, 1, 23, "Blue Super Giant"),
      Point(1, -22, 11, "Dense Dust Cloud"),
      Point(20, -23, -2, "Light Dust Cloud") ]
  }

  /** The catalogue's bounds on one axis, from the systems that attain them. */
  lemma CatalogueAxis(a: Axis, r: Range, i: nat, j: nat)
    requires i < 18 && j < 18
    requires Coord(Systems()[i], a) == r.lo && Coord(Systems()[j], a) == r.hi
    requires Encloses(r, Systems(), a)
    ensures Scan(Systems(), a) == r
  {
    ScanCharacterised(r, Systems(), a);
  }

  /** The catalogue's bounding box, one axis at a time. */
  lemma CatalogueBox()
    ensures BoxOf(Systems()) == Box(Range(-25, 21), Range(-23, 22), Range(-23, 28))
  {
    var b := Box(Range(-25, 21), Range(-23, 22), Range(-23, 28));
    forall a
      ensures Scan(Systems(), a) == Along(b, a)
    {
      match a
      case X => CatalogueAxis(a, b.x, 14, 8);
      case Y => CatalogueAxis(a, b.y, 14, 13);
      case Z => CatalogueAxis(a, b.z, 7, 0);
    }
    BoxFromAxes(Systems(), b);
  }

  /**
   The sector fetched at the origin (0, 0, 0) over the catalogue spans
   x in [-25, 21], y in [-23, 22] and z in [-23, 28]; its extents are 46,
   45 and 51, so its radius is 51 / 2 + 1 = 26.5.
   */
  lemma CatalogueSector()
    ensures SectorOf(0, 0, 0, Systems()).box
         == Box(Range(-25, 21), Range(-23, 22), Range(-23, 28))
    ensures Extent(SectorOf(0, 0, 0, Systems()).box.x) == 46
    ensures Extent(SectorOf(0, 0, 0, Systems()).box.y) == 45
    ensures Extent(SectorOf(0, 0, 0, Systems()).box.z) == 51
    ensures SectorOf(0, 0, 0, Systems()).radius == 26.5
  {
    var b := Box(Range(-25, 21), Range(-23, 22), Range(-23, 28));
    CatalogueBox();
    assert SectorOf(0, 0, 0, Systems()).box == b;
    assert Radius(b) == 26.5;
  }
}
