/** The static table of Chinese provinces, distances on the map, and the
    sidebar's search for the province nearest to the chosen impact point. */
module Provinces {
  import opened RealArith

  /** A province's extent on the map, in map units. */
  datatype BoundingBox = BoundingBox(xMin: int, xMax: int, yMin: int, yMax: int)

  /** One entry of the table: key, display name, population in thousands, extent, blurb. */
  datatype Province = Province(
    id: string,
    name: string,
    population: nat,
    coords: BoundingBox,
    description: string)

  /** The ten provinces, in the order the table lists them. */
  const ChinaProvinces: seq<Province> := [
    Province("guangdong", "Guangdong", 126012, BoundingBox(80, 95, 15, 25), "Most populous province in China"),
    Province("shandong", "Shandong", 101527, BoundingBox(90, 105, 25, 35), "Eastern coastal province"),
    Province("henan", "Henan", 99365, BoundingBox(75, 90, 25, 35), "Heart of Central China"),
    Province("jiangsu", "Jiangsu", 84748, BoundingBox(95, 110, 10, 20), "Developed economic zone"),
    Province("sichuan", "Sichuan", 83675, BoundingBox(55, 75, 20, 35), "Southwestern province"),
    Province("hebei", "Hebei", 75919, BoundingBox(80, 95, 40, 50), "Surrounds Beijing"),
    Province("hunan", "Hunan", 69185, BoundingBox(70, 85, 20, 30), "Central province"),
    Province("anhui", "Anhui", 63236, BoundingBox(90, 105, 10, 20), "Eastern China"),
    Province("hubei", "Hubei", 59172, BoundingBox(75, 90, 20, 30), "Central China"),
    Province("zhejiang", "Zhejiang", 58500, BoundingBox(100, 115, 30, 40), "Developed east coast")
  ]

  /** Label shown when no province was found. */
  const SeaLabel: string := "Sea / Unpopulated Area"

  /** Keys are distinct, as the keys of a dictionary are. */
  predicate DistinctIds(table: seq<Province>)
  {
    forall i, j :: 0 <= i < j < |table| ==> table[i].id != table[j].id
  }

  /** Horizontal midpoint of the bounding box. */
  function CenterX(b: BoundingBox): real
  {
    (b.xMin + b.xMax) as real / 2.0
  }

  /** Vertical midpoint of the bounding box. */
  function CenterY(b: BoundingBox): real
  {
    (b.yMin + b.yMax) as real / 2.0
  }

  /** Square of the Euclidean distance from (px, py) to the province's midpoint.
      Distances are compared through their squares, which orders them the same way. */
  function SqDistance(p: Province, px: real, py: real): real
  {
    var dx, dy := CenterX(p.coords) - px, CenterY(p.coords) - py;
    dx * dx + dy * dy
  }

  /** `k` is the first index whose province is at least as near to (px, py) as every other. */
  predicate IsFirstNearest(table: seq<Province>, k: int, px: real, py: real)
  {
    0 <= k < |table|
    && (forall j :: 0 <= j < |table| ==> SqDistance(table[k], px, py) <= SqDistance(table[j], px, py))
    && (forall j :: 0 <= j < k ==> SqDistance(table[k], px, py) < SqDistance(table[j], px, py))
  }

  /** Index of the province the search settles on, or -1 for an empty table: the search
      over all but the last province, replaced by the last one only if that is strictly nearer. */
  function NearestIndex(table: seq<Province>, px: real, py: real): (k: int)
    ensures -1 <= k < |table|
    ensures k == -1 <==> table == []
  {
    if table == [] then -1
    else
      var n := |table| - 1;
      var k := NearestIndex(table[..n], px, py);
      if k == -1 || SqDistance(table[n], px, py) < SqDistance(table[k], px, py) then n else k
  }

  /** The province the search settles on is the first of those nearest to (px, py). */
  lemma {:induction false} NearestIndexIsFirstNearest(table: seq<Province>, px: real, py: real)
    requires table != []
    ensures IsFirstNearest(table, NearestIndex(table, px, py), px, py)
  {
    var n := |table| - 1;
    var prefix := table[..n];
    if prefix != [] {
      NearestIndexIsFirstNearest(prefix, px, py);
      assert forall j :: 0 <= j < n ==> prefix[j] == table[j];
    }
  }

  /** The running minimum of the search: infinite until a first province is seen. */
  datatype Bound = Infinity | Finite(value: real)

  /** The sidebar's search: scans the table keeping the smallest distance seen so far and
      replaces it only on a strictly smaller one. */
  method NearestProvince(table: seq<Province>, px: real, py: real) returns (name: string)
    ensures table == [] ==> name == SeaLabel
    ensures table != [] ==> name == table[NearestIndex(table, px, py)].name
    ensures table != [] ==> IsFirstNearest(table, NearestIndex(table, px, py), px, py)
  {
    name := SeaLabel;
    var minDist := Infinity;
    ghost var best := -1;
    var i := 0;
    while i < |table|
      invariant 0 <= i <= |table|
      invariant best == NearestIndex(table[..i], px, py)
      invariant i == 0 ==> name == SeaLabel && minDist == Infinity
      invariant i > 0 ==> 0 <= best < i && name == table[best].name
      invariant i > 0 ==> minDist == Finite(SqDistance(table[best], px, py))
    {
      assert table[..i + 1][..i] == table[..i];
      var dist := SqDistance(table[i], px, py);
      if minDist.Infinity? || dist < minDist.value {
        minDist := Finite(dist);
        name := table[i].name;
        best := i;
      }
      i := i + 1;
    }
    assert table[..|table|] == table;
    if table != [] {
      NearestIndexIsFirstNearest(table, px, py);
    }
  }

  /** The table has ten provinces with distinct keys and well-formed extents. */
  lemma ChinaTableShape()
    ensures |ChinaProvinces| == 10
    ensures DistinctIds(ChinaProvinces)
    ensures forall p :: p in ChinaProvinces ==> p.coords.xMin < p.coords.xMax && p.coords.yMin < p.coords.yMax
  {
  }

  /** At the sidebar's default impact point (85, 25) the nearest province is Hubei. */
  lemma DefaultPointNearestIsHubei()
    ensures IsFirstNearest(ChinaProvinces, 8, 85.0, 25.0)
    ensures ChinaProvinces[8].name == "Hubei"
    ensures NearestIndex(ChinaProvinces, 85.0, 25.0) == 8
  {
    assert SqDistance(ChinaProvinces[0], 85.0, 25.0) == 31.25;
    assert SqDistance(ChinaProvinces[1], 85.0, 25.0) == 181.25;
    assert SqDistance(ChinaProvinces[2], 85.0, 25.0) == 31.25;
    assert SqDistance(ChinaProvinces[3], 85.0, 25.0) == 406.25;
    assert SqDistance(ChinaProvinces[4], 85.0, 25.0) == 406.25;
    assert SqDistance(ChinaProvinces[5], 85.0, 25.0) == 406.25;
    assert SqDistance(ChinaProvinces[6], 85.0, 25.0) == 56.25;
    assert SqDistance(ChinaProvinces[7], 85.0, 25.0) == 256.25;
    assert SqDistance(ChinaProvinces[8], 85.0, 25.0) == 6.25;
    assert SqDistance(ChinaProvinces[9], 85.0, 25.0) == 606.25;
    NearestIndexIsFirstNearest(ChinaProvinces, 85.0, 25.0);
  }
}
