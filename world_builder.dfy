/**
 * The procedural scene built once when the world view is entered: ground,
 * two crossing roads, the lane markers of the first road, eight buildings
 * with their window pairs, and four trees.  Every loop of the builder is a
 * JavaScript `for (let i = lo; i < hi; i += step)`; `Stepped` is the list of
 * values such a loop visits.
 */
module WorldBuilder {
  import opened Geometry

  // ---------------------------------------------------------------------
  // The stepping loop
  // ---------------------------------------------------------------------

  /** The values `i` takes in `for (let i = lo; i < hi; i += step)`. */
  function Stepped(lo: int, hi: int, step: int): seq<int>
    requires step > 0
    decreases hi - lo
  {
    if lo < hi then [lo] + Stepped(lo + step, hi, step) else []
  }

  /**
   * A stepping loop runs ceil((hi - lo) / step) times (n passes with
   * (n - 1) * step < hi - lo <= n * step), visiting lo, lo + step,
   * lo + 2 * step, ..., all inside [lo, hi).
   */
  lemma {:induction false} SteppedShape(lo: int, hi: int, step: int)
    requires step > 0
    ensures lo >= hi ==> Stepped(lo, hi, step) == []
    ensures lo < hi ==>
      (|Stepped(lo, hi, step)| - 1) * step < hi - lo <= |Stepped(lo, hi, step)| * step
    ensures forall k :: 0 <= k < |Stepped(lo, hi, step)| ==> Stepped(lo, hi, step)[k] == lo + step * k
    ensures forall k :: 0 <= k < |Stepped(lo, hi, step)| ==> lo <= Stepped(lo, hi, step)[k] < hi
    decreases hi - lo
  {
    if lo < hi {
      var s, rest := Stepped(lo, hi, step), Stepped(lo + step, hi, step);
      SteppedShape(lo + step, hi, step);
      assert |s| * step == step + |rest| * step;
      forall k | 0 <= k < |s|
        ensures s[k] == lo + step * k && lo <= s[k] < hi
      {
        if k > 0 {
          assert s[k] == rest[k - 1];
        }
      }
    }
  }

  // ---------------------------------------------------------------------
  // Lane markers: for (let i = -200; i < 200; i += 8)
  // ---------------------------------------------------------------------

  const MarkerFrom: int := -200
  const MarkerTo: int := 200
  const MarkerStep: int := 8

  function MarkerAt(z: int): Placed
  {
    Placed(LaneMarker, Vec3(0.0, 0.02, z as real))
  }

  function MarkersAt(zs: seq<int>): seq<Placed>
  {
    if zs == [] then [] else [MarkerAt(zs[0])] + MarkersAt(zs[1..])
  }

  lemma {:induction false} MarkersAtIndex(zs: seq<int>)
    ensures |MarkersAt(zs)| == |zs|
    ensures forall k :: 0 <= k < |zs| ==> MarkersAt(zs)[k] == MarkerAt(zs[k])
  {
    if zs != [] {
      MarkersAtIndex(zs[1..]);
      forall k | 0 <= k < |zs| ensures MarkersAt(zs)[k] == MarkerAt(zs[k]) {
        if k > 0 { assert MarkersAt(zs)[k] == MarkersAt(zs[1..])[k - 1]; }
      }
    }
  }

  /** The lane markers the builder lays on the first road, in order. */
  function LaneMarkers(): seq<Placed>
  {
    MarkersAt(Stepped(MarkerFrom, MarkerTo, MarkerStep))
  }

  /**
   * Exactly 50 markers, the k-th at (0, 0.02, -200 + 8k), every one with
   * its z inside [-200, 200).
   */
  lemma LaneMarkerLayout()
    ensures |LaneMarkers()| == 50
    ensures forall k :: 0 <= k < 50 ==>
      LaneMarkers()[k] == Placed(LaneMarker, Vec3(0.0, 0.02, (-200 + 8 * k) as real))
    ensures forall k :: 0 <= k < |LaneMarkers()| ==>
      -200.0 <= LaneMarkers()[k].at.z < 200.0
  {
    SteppedShape(MarkerFrom, MarkerTo, MarkerStep);
    MarkersAtIndex(Stepped(MarkerFrom, MarkerTo, MarkerStep));
  }

  /** The lane-marker loop, adding one marker per pass. */
  method LayLaneMarkers() returns (ms: seq<Placed>)
    ensures ms == LaneMarkers()
  {
    ms := [];
    var i := MarkerFrom;
    while i < MarkerTo
      invariant ms + MarkersAt(Stepped(i, MarkerTo, MarkerStep)) == LaneMarkers()
      decreases MarkerTo - i
    {
      var rest := Stepped(i + MarkerStep, MarkerTo, MarkerStep);
      assert Stepped(i, MarkerTo, MarkerStep) == [i] + rest;
      assert ([i] + rest)[1..] == rest;
      ms := ms + [MarkerAt(i)];
      i := i + MarkerStep;
    }
  }

  // ---------------------------------------------------------------------
  // Buildings: createBuilding(x, z, width, height, depth, color)
  // ---------------------------------------------------------------------

  /** The arguments of one `createBuilding` call. */
  datatype BuildingSpec = BuildingSpec(x: real, z: real, width: real, height: int, depth: real, color: int)

  /** The eight calls, in order. */
  const Buildings: seq<BuildingSpec> := [
    BuildingSpec(-30.0, -20.0, 15.0, 40, 15.0, 0x8B4513),
    BuildingSpec(-30.0, 20.0, 12.0, 35, 12.0, 0x696969),
    BuildingSpec(30.0, -25.0, 10.0, 50, 10.0, 0x4A4A4A),
    BuildingSpec(30.0, 15.0, 18.0, 30, 18.0, 0x5C4033),
    BuildingSpec(-50.0, -50.0, 8.0, 25, 8.0, 0x708090),
    BuildingSpec(50.0, 50.0, 14.0, 45, 14.0, 0x36454F),
    BuildingSpec(-25.0, 50.0, 10.0, 28, 10.0, 0x483D8B),
    BuildingSpec(45.0, -50.0, 12.0, 38, 12.0, 0x2F4F4F)
  ]

  /** The box of the building, centred half its height above the ground. */
  function BuildingBox(b: BuildingSpec): Placed
  {
    Placed(Building(b.width, b.height, b.depth, b.color), Vec3(b.x, b.height as real / 2.0, b.z))
  }

  function FrontWindow(b: BuildingSpec, y: int): Placed
  {
    Placed(Window(b.width * 0.8), Vec3(b.x, y as real, b.z + b.depth / 2.0 + 0.05))
  }

  function BackWindow(b: BuildingSpec, y: int): Placed
  {
    Placed(Window(b.width * 0.8), Vec3(b.x, y as real, b.z - b.depth / 2.0 - 0.05))
  }

  /** The window storeys: for (let i = 2; i < height; i += 3). */
  function WindowRows(b: BuildingSpec): seq<int>
  {
    Stepped(2, b.height, 3)
  }

  /** A front window then a back window for each row, in row order. */
  function WindowPairs(b: BuildingSpec, ys: seq<int>): seq<Placed>
  {
    if ys == [] then [] else [FrontWindow(b, ys[0]), BackWindow(b, ys[0])] + WindowPairs(b, ys[1..])
  }

  /** Everything one `createBuilding` call adds, in the order it adds it. */
  function BuildingObjects(b: BuildingSpec): seq<Placed>
  {
    [BuildingBox(b)] + WindowPairs(b, WindowRows(b))
  }

  lemma {:induction false} WindowPairsIndex(b: BuildingSpec, ys: seq<int>)
    ensures |WindowPairs(b, ys)| == 2 * |ys|
    ensures forall k :: 0 <= k < |ys| ==>
      WindowPairs(b, ys)[2 * k] == FrontWindow(b, ys[k]) && WindowPairs(b, ys)[2 * k + 1] == BackWindow(b, ys[k])
  {
    if ys != [] {
      var w, rest := WindowPairs(b, ys), WindowPairs(b, ys[1..]);
      WindowPairsIndex(b, ys[1..]);
      forall k | 0 <= k < |ys|
        ensures w[2 * k] == FrontWindow(b, ys[k]) && w[2 * k + 1] == BackWindow(b, ys[k])
      {
        if k > 0 {
          assert w[2 * k] == rest[2 * (k - 1)];
          assert w[2 * k + 1] == rest[2 * (k - 1) + 1];
        }
      }
    }
  }

  /**
   * A building of height h gets exactly h div 3 window rows (none when h is
   * negative): the rows are the heights y with 2 <= y < h and y mod 3 == 2.
   */
  lemma WindowRowCount(b: BuildingSpec)
    ensures |WindowRows(b)| == if b.height < 0 then 0 else b.height / 3
    ensures forall y :: y in WindowRows(b) <==> 2 <= y < b.height && y % 3 == 2
  {
    var h := b.height;
    SteppedShape(2, h, 3);
    var rows := WindowRows(b);
    forall y | 2 <= y < h && y % 3 == 2
      ensures y in rows
    {
      var k := (y - 2) / 3;
      assert rows[k] == y;
    }
  }

  /**
   * The count h div 3 differs from floor((h - 2) / 3) + 1 exactly when
   * h - 2 is a multiple of 3 (h = 35, 38, 50, ...): then the loop stops one
   * row short of that formula, because the row at y == h is not < h.
   */
  lemma RowFormulaMismatch(b: BuildingSpec)
    requires b.height >= 2
    ensures |WindowRows(b)| != (b.height - 2) / 3 + 1 <==> (b.height - 2) % 3 == 0
    ensures |WindowRows(b)| == (b.height - 2) / 3 + 1 - (if (b.height - 2) % 3 == 0 then 1 else 0)
  {
    WindowRowCount(b);
  }

  /**
   * Each `createBuilding` call adds its box at (x, h/2, z) and then, for
   * each row y, a front window at (x, y, z + depth/2 + 0.05) followed by a
   * back window at (x, y, z - depth/2 - 0.05): the two windows of a row
   * share x and y and mirror each other across the building's centre.
   */
  lemma BuildingLayout(b: BuildingSpec)
    ensures |BuildingObjects(b)| == 1 + 2 * |WindowRows(b)|
    ensures BuildingObjects(b)[0].at == Vec3(b.x, b.height as real / 2.0, b.z)
    ensures forall k :: 0 <= k < |WindowRows(b)| ==>
      var front, back := BuildingObjects(b)[1 + 2 * k], BuildingObjects(b)[2 + 2 * k];
      front.kind == back.kind == Window(b.width * 0.8) &&
      front.at.x == back.at.x == b.x &&
      front.at.y == back.at.y == WindowRows(b)[k] as real &&
      front.at.z == b.z + b.depth / 2.0 + 0.05 &&
      back.at.z == b.z - b.depth / 2.0 - 0.05 &&
      front.at.z + back.at.z == 2.0 * b.z
  {
    var rows := WindowRows(b);
    WindowPairsIndex(b, rows);
    var objs := BuildingObjects(b);
    forall k | 0 <= k < |rows|
      ensures objs[1 + 2 * k] == FrontWindow(b, rows[k]) && objs[2 + 2 * k] == BackWindow(b, rows[k])
    {
      assert objs[1 + 2 * k] == WindowPairs(b, rows)[2 * k];
      assert objs[2 + 2 * k] == WindowPairs(b, rows)[2 * k + 1];
    }
  }

  /** The `createBuilding` body: the box, then the window loop. */
  method CreateBuilding(b: BuildingSpec) returns (objs: seq<Placed>)
    ensures objs == BuildingObjects(b)
  {
    objs := [BuildingBox(b)];
    var i := 2;
    while i < b.height
      invariant objs + WindowPairs(b, Stepped(i, b.height, 3)) == BuildingObjects(b)
      decreases b.height - i
    {
      var rest := Stepped(i + 3, b.height, 3);
      assert Stepped(i, b.height, 3) == [i] + rest;
      assert ([i] + rest)[1..] == rest;
      objs := objs + [FrontWindow(b, i), BackWindow(b, i)];
      i := i + 3;
    }
  }

  // ---------------------------------------------------------------------
  // Trees: createTree(x, z)
  // ---------------------------------------------------------------------

  datatype TreeSpot = TreeSpot(x: real, z: real)

  /** The four calls, in order. */
  const Trees: seq<TreeSpot> := [
    TreeSpot(-15.0, -40.0), TreeSpot(-18.0, 35.0), TreeSpot(15.0, -35.0), TreeSpot(20.0, 40.0)
  ]

  /** A trunk at height 2 and a canopy at height 5 over the same spot. */
  function TreeObjects(t: TreeSpot): seq<Placed>
  {
    [Placed(TreeTrunk, Vec3(t.x, 2.0, t.z)), Placed(TreeCanopy, Vec3(t.x, 5.0, t.z))]
  }

  // ---------------------------------------------------------------------
  // The whole scene
  // ---------------------------------------------------------------------

  /** Ground plane and the two roads, which precede the lane markers. */
  function Flat(): seq<Placed>
  {
    [Placed(Ground, Vec3(0.0, 0.0, 0.0)),
     Placed(Road(false), Vec3(0.0, 0.01, 0.0)),
     Placed(Road(true), Vec3(0.0, 0.01, 0.0))]
  }

  /** The objects of a run of `createBuilding` calls, in call order. */
  function AllBuildings(bs: seq<BuildingSpec>): seq<Placed>
  {
    if bs == [] then [] else AllBuildings(bs[..|bs| - 1]) + BuildingObjects(bs[|bs| - 1])
  }

  /** The objects of a run of `createTree` calls, in call order. */
  function AllTrees(ts: seq<TreeSpot>): seq<Placed>
  {
    if ts == [] then [] else AllTrees(ts[..|ts| - 1]) + TreeObjects(ts[|ts| - 1])
  }

  /** Every static object, in the order the builder adds it to the scene. */
  function Scene(): seq<Placed>
  {
    Flat() + LaneMarkers() + AllBuildings(Buildings) + AllTrees(Trees)
  }

  /** The number of window rows over a run of buildings. */
  function TotalRows(bs: seq<BuildingSpec>): nat
  {
    if bs == [] then 0 else TotalRows(bs[..|bs| - 1]) + |WindowRows(bs[|bs| - 1])|
  }

  /** Sum of h div 3 over the non-negative heights of a run of buildings. */
  function HeightThirds(bs: seq<BuildingSpec>): int
  {
    if bs == [] then 0
    else HeightThirds(bs[..|bs| - 1]) + (if bs[|bs| - 1].height < 0 then 0 else bs[|bs| - 1].height / 3)
  }

  lemma {:induction false} TotalRowsByHeight(bs: seq<BuildingSpec>)
    ensures TotalRows(bs) == HeightThirds(bs)
  {
    if bs != [] {
      TotalRowsByHeight(bs[..|bs| - 1]);
      WindowRowCount(bs[|bs| - 1]);
    }
  }

  lemma {:induction false} AllBuildingsCount(bs: seq<BuildingSpec>)
    ensures |AllBuildings(bs)| == |bs| + 2 * TotalRows(bs)
  {
    if bs != [] {
      AllBuildingsCount(bs[..|bs| - 1]);
      BuildingLayout(bs[|bs| - 1]);
    }
  }

  lemma {:induction false} AllTreesCount(ts: seq<TreeSpot>)
    ensures |AllTrees(ts)| == 2 * |ts|
  {
    if ts != [] {
      AllTreesCount(ts[..|ts| - 1]);
    }
  }

  /**
   * The k-th `createTree` call adds the trunk at index 2k, at height 2 over
   * its spot, and the canopy at 2k + 1, at height 5 over the same spot.
   */
  lemma {:induction false} AllTreesLayout(ts: seq<TreeSpot>)
    ensures |AllTrees(ts)| == 2 * |ts|
    ensures forall k :: 0 <= k < |ts| ==>
      AllTrees(ts)[2 * k] == Placed(TreeTrunk, Vec3(ts[k].x, 2.0, ts[k].z)) &&
      AllTrees(ts)[2 * k + 1] == Placed(TreeCanopy, Vec3(ts[k].x, 5.0, ts[k].z))
  {
    if ts != [] {
      var init := ts[..|ts| - 1];
      AllTreesLayout(init);
      forall k | 0 <= k < |ts|
        ensures AllTrees(ts)[2 * k] == Placed(TreeTrunk, Vec3(ts[k].x, 2.0, ts[k].z))
        ensures AllTrees(ts)[2 * k + 1] == Placed(TreeCanopy, Vec3(ts[k].x, 5.0, ts[k].z))
      {
        if k < |init| {
          assert ts[k] == init[k];
        }
      }
    }
  }

  lemma BuildingHeightThirds()
    ensures HeightThirds(Buildings) == 94
  {
    var bs := Buildings;
    assert HeightThirds(bs[..1]) == 13 by { assert bs[..1][..0] == []; }
    assert HeightThirds(bs[..2]) == 24 by { assert bs[..2][..1] == bs[..1]; }
    assert HeightThirds(bs[..3]) == 40 by { assert bs[..3][..2] == bs[..2]; }
    assert HeightThirds(bs[..4]) == 50 by { assert bs[..4][..3] == bs[..3]; }
    assert HeightThirds(bs[..5]) == 58 by { assert bs[..5][..4] == bs[..4]; }
    assert HeightThirds(bs[..6]) == 73 by { assert bs[..6][..5] == bs[..5]; }
    assert HeightThirds(bs[..7]) == 82 by { assert bs[..7][..6] == bs[..6]; }
    assert bs[..7] == bs[..|bs| - 1];
  }

  /**
   * The eight buildings have 94 window rows between them, so 188 windows;
   * with their boxes, the markers, the trees, the ground and the roads the
   * scene holds 3 + 50 + 196 + 8 == 257 static objects.
   */
  lemma SceneCount()
    ensures TotalRows(Buildings) == 94
    ensures |AllBuildings(Buildings)| == 8 + 188
    ensures |Scene()| == 257
  {
    TotalRowsByHeight(Buildings);
    BuildingHeightThirds();
    AllBuildingsCount(Buildings);
    AllTreesCount(Trees);
    LaneMarkerLayout();
  }

  /** A run of `createBuilding` calls, one per table entry. */
  method PlaceBuildings(bs: seq<BuildingSpec>) returns (objs: seq<Placed>)
    ensures objs == AllBuildings(bs)
  {
    objs := [];
    for i := 0 to |bs|
      invariant objs == AllBuildings(bs[..i])
    {
      var more := CreateBuilding(bs[i]);
      assert bs[..i + 1][..i] == bs[..i];
      objs := objs + more;
    }
    assert bs[..|bs|] == bs;
  }

  /** A run of `createTree` calls, one per table entry. */
  method PlaceTrees(ts: seq<TreeSpot>) returns (objs: seq<Placed>)
    ensures objs == AllTrees(ts)
  {
    objs := [];
    for i := 0 to |ts|
      invariant objs == AllTrees(ts[..i])
    {
      assert ts[..i + 1][..i] == ts[..i];
      objs := objs + TreeObjects(ts[i]);
    }
    assert ts[..|ts|] == ts;
  }

  /** The scene builder: the effect's sequence of `scene.add` calls. */
  method BuildScene() returns (scene: seq<Placed>)
    ensures scene == Scene()
  {
    var markers := LayLaneMarkers();
    var buildings := PlaceBuildings(Buildings);
    var trees := PlaceTrees(Trees);
    scene := Flat() + markers + buildings + trees;
  }
}
