/** The track generator of Assets/Scripts/GameController.cs: a cursor says
    where the next tile goes; each spawn places the tile prefab there, moves
    the cursor to the new tile's "NextSpawnPoint" child and may put one
    obstacle on one of the tile's children tagged "ObstacleSpawn".

    The engine is abstracted as follows. Instantiating the tile prefab at a
    pose is a `Layout`: a function from that pose to the world poses of the
    new tile's "NextSpawnPoint" and of its direct children. `Random.Range(0,
    count)` is a `roll` argument that lies in [0, count). The source keeps no
    reference to what it spawns; here the tiles and obstacles the engine holds
    are recorded in the `World`, so that their placement can be stated. */
module TileSpawning {
  import opened Geometry

  const OBSTACLE_SPAWN_TAG: string := "ObstacleSpawn"

  /** The inspector defaults of the controller's public fields. */
  const DEFAULT_START_POINT: Vec3 := Vec3(0.0, 0.0, -5.0)
  const DEFAULT_INIT_SPAWN_NUM: int := 10
  const DEFAULT_INIT_NO_OBSTACLES: int := 4

  /** A direct child transform of a tile: its tag and its world pose. */
  datatype Child = Child(tag: string, pose: Pose)

  /** What the engine yields when it instantiates the tile prefab at a pose:
      the world pose of the "NextSpawnPoint" child and the direct children
      in the order a `foreach` over the tile's transform visits them. */
  datatype TileShape = TileShape(nextSpawnPoint: Pose, children: seq<Child>)

  type Layout = Pose -> TileShape

  /** A tile instance in the scene. */
  datatype Tile = Tile(pose: Pose, nextSpawnPoint: Pose, children: seq<Child>)

  /** An obstacle instance, parented to child `anchor` of tile number `tile`. */
  datatype Obstacle = Obstacle(tile: nat, anchor: nat, position: Vec3, rotation: Quat)

  /** The generator's cursor together with the tiles and obstacles spawned so far. */
  datatype World = World(cursor: Pose, tiles: seq<Tile>, obstacles: seq<Obstacle>)

  /** The tile the engine creates when the prefab is instantiated at `at`. */
  function Place(layout: Layout, at: Pose): Tile {
    Tile(at, layout(at).nextSpawnPoint, layout(at).children)
  }

  /** The indices of the children tagged "ObstacleSpawn", in child order:
      the list the `foreach` of SpawnNextTile builds. */
  function ObstacleSpawnPoints(children: seq<Child>): (points: seq<nat>)
    ensures forall k :: 0 <= k < |points| ==>
      points[k] < |children| && children[points[k]].tag == OBSTACLE_SPAWN_TAG
    ensures forall j, k :: 0 <= j < k < |points| ==> points[j] < points[k]
  {
    if children == [] then []
    else
      var n := |children| - 1;
      ObstacleSpawnPoints(children[..n]) + (if children[n].tag == OBSTACLE_SPAWN_TAG then [n] else [])
  }

  /** Every tagged child is a candidate, and nothing else is. */
  lemma {:induction false} ObstacleSpawnPointsExact(children: seq<Child>, k: nat)
    ensures k in ObstacleSpawnPoints(children) <==> k < |children| && children[k].tag == OBSTACLE_SPAWN_TAG
  {
    if children != [] {
      var n := |children| - 1;
      var prefix := children[..n];
      ObstacleSpawnPointsExact(prefix, k);
      if k < n {
        assert prefix[k] == children[k];
      }
    }
  }

  /** The list the `foreach` of SpawnNextTile fills, one `Add` per tagged child. */
  method CollectObstacleSpawnPoints(children: seq<Child>) returns (points: seq<nat>)
    ensures points == ObstacleSpawnPoints(children)
  {
    points := [];
    var i := 0;
    while i < |children|
      invariant 0 <= i <= |children|
      invariant points == ObstacleSpawnPoints(children[..i])
    {
      var child := children[i];
      assert children[..i + 1][..i] == children[..i];
      if child.tag == OBSTACLE_SPAWN_TAG {
        points := points + [i];
      }
      i := i + 1;
    }
    assert children[..i] == children;
  }

  /** `roll` is a value `Random.Range(0, count)` can return for the
      candidates of `tile`: below the count, whenever there is a candidate. */
  predicate RollFits(roll: nat, tile: Tile) {
    var count := |ObstacleSpawnPoints(tile.children)|;
    count == 0 || roll < count
  }

  /** `o` sits on an "ObstacleSpawn" child of tile `o.tile`, at that child's
      position, with identity rotation. */
  predicate ObstacleOn(o: Obstacle, tiles: seq<Tile>) {
    o.tile < |tiles| && o.anchor < |tiles[o.tile].children| &&
    tiles[o.tile].children[o.anchor].tag == OBSTACLE_SPAWN_TAG &&
    o.position == tiles[o.tile].children[o.anchor].pose.position &&
    o.rotation == IDENTITY
  }

  /** What the generator keeps true of the scene: every tile is the prefab
      placed at its own pose, every obstacle sits on a tagged child of a
      tile, and obstacles are spawned in tile order with at most one per tile. */
  ghost predicate WellFormed(w: World, layout: Layout) {
    (forall k :: 0 <= k < |w.tiles| ==> w.tiles[k] == Place(layout, w.tiles[k].pose)) &&
    (forall i :: 0 <= i < |w.obstacles| ==> ObstacleOn(w.obstacles[i], w.tiles)) &&
    (forall i, j :: 0 <= i < j < |w.obstacles| ==> w.obstacles[i].tile < w.obstacles[j].tile)
  }

  /** One call of SpawnNextTile(spawnObstacles), with `roll` standing for
      the value of Random.Range. */
  function SpawnNext(w: World, layout: Layout, spawnObstacles: bool, roll: nat): (r: World)
    requires RollFits(roll, Place(layout, w.cursor))
    // exactly one tile is added, at the cursor as it was on entry
    ensures |r.tiles| == |w.tiles| + 1 && r.tiles[..|w.tiles|] == w.tiles
    ensures r.tiles[|w.tiles|] == Place(layout, w.cursor)
    ensures r.tiles[|w.tiles|].pose == w.cursor
    // the cursor moves to the new tile's NextSpawnPoint
    ensures r.cursor == r.tiles[|w.tiles|].nextSpawnPoint
    // an obstacle is created iff obstacles are enabled and the new tile has a candidate
    ensures var created := spawnObstacles && |ObstacleSpawnPoints(r.tiles[|w.tiles|].children)| > 0;
      |r.obstacles| == |w.obstacles| + (if created then 1 else 0) && r.obstacles[..|w.obstacles|] == w.obstacles
    // and then it sits on a tagged child of the new tile, never another tile's
    ensures |r.obstacles| > |w.obstacles| ==>
      r.obstacles[|w.obstacles|].tile == |w.tiles| && ObstacleOn(r.obstacles[|w.obstacles|], r.tiles)
    ensures |r.obstacles| > |w.obstacles| ==> spawnObstacles
    // the obstacle hangs on candidate number `roll`
    ensures |r.obstacles| > |w.obstacles| ==>
      r.obstacles[|w.obstacles|].anchor == ObstacleSpawnPoints(Place(layout, w.cursor).children)[roll]
  {
    var newTile := Place(layout, w.cursor);
    var placed := World(newTile.nextSpawnPoint, w.tiles + [newTile], w.obstacles);
    if !spawnObstacles then placed
    else
      var points := ObstacleSpawnPoints(newTile.children);
      if |points| == 0 then placed
      else
        var anchor := points[roll];
        var obstacle := Obstacle(|w.tiles|, anchor, newTile.children[anchor].pose.position, IDENTITY);
        placed.(obstacles := w.obstacles + [obstacle])
  }

  /** Every tagged child of the new tile is the obstacle's anchor for some
      value Random.Range can return: no candidate is out of reach. */
  lemma SpawnNextReachesEveryCandidate(w: World, layout: Layout, k: nat)
    requires k < |Place(layout, w.cursor).children|
    requires Place(layout, w.cursor).children[k].tag == OBSTACLE_SPAWN_TAG
    ensures exists roll: nat ::
              RollFits(roll, Place(layout, w.cursor)) &&
              |SpawnNext(w, layout, true, roll).obstacles| == |w.obstacles| + 1 &&
              SpawnNext(w, layout, true, roll).obstacles[|w.obstacles|].anchor == k
  {
    var points := ObstacleSpawnPoints(Place(layout, w.cursor).children);
    ObstacleSpawnPointsExact(Place(layout, w.cursor).children, k);
    var j :| 0 <= j < |points| && points[j] == k;
    var r := SpawnNext(w, layout, true, j);
    assert |r.obstacles| == |w.obstacles| + 1 && r.obstacles[|w.obstacles|].anchor == k;
  }

  /** One call keeps the scene well formed. */
  lemma SpawnNextWellFormed(w: World, layout: Layout, spawnObstacles: bool, roll: nat)
    requires RollFits(roll, Place(layout, w.cursor))
    requires WellFormed(w, layout)
    ensures WellFormed(SpawnNext(w, layout, spawnObstacles, roll), layout)
  {
    var r := SpawnNext(w, layout, spawnObstacles, roll);
    forall i | 0 <= i < |w.obstacles|
      ensures ObstacleOn(r.obstacles[i], r.tiles)
    {
      assert r.obstacles[i] == r.obstacles[..|w.obstacles|][i];
      assert r.tiles[w.obstacles[i].tile] == r.tiles[..|w.tiles|][w.obstacles[i].tile];
    }
  }

  /** The cursor after `n` spawns that began at `start`. */
  function CursorAfter(layout: Layout, start: Pose, n: nat): Pose {
    if n == 0 then start else layout(CursorAfter(layout, start, n - 1)).nextSpawnPoint
  }

  /** The tiles `n` spawns that began at `start` place, in order. */
  function Chain(layout: Layout, start: Pose, n: nat): (tiles: seq<Tile>)
    ensures |tiles| == n
  {
    if n == 0 then [] else Chain(layout, start, n - 1) + [Place(layout, CursorAfter(layout, start, n - 1))]
  }

  /** A chain begins at its start pose, and tile k+1 of it is placed at
      tile k's NextSpawnPoint. */
  lemma {:induction false} ChainLinked(layout: Layout, start: Pose, n: nat)
    ensures n > 0 ==> Chain(layout, start, n)[0].pose == start
    ensures forall k :: 0 <= k < n - 1 ==>
      Chain(layout, start, n)[k + 1].pose == Chain(layout, start, n)[k].nextSpawnPoint
  {
    if n > 0 {
      ChainLinked(layout, start, n - 1);
      var c := Chain(layout, start, n);
      var p := Chain(layout, start, n - 1);
      assert c == p + [Place(layout, CursorAfter(layout, start, n - 1))];
      if n > 1 {
        assert p[n - 2] == Place(layout, CursorAfter(layout, start, n - 2)) by {
          ChainAt(layout, start, n - 1, n - 2);
        }
      }
    }
  }

  /** Tile k of a chain is the prefab placed at the cursor after k spawns. */
  lemma {:induction false} ChainAt(layout: Layout, start: Pose, n: nat, k: nat)
    requires k < n
    ensures Chain(layout, start, n)[k] == Place(layout, CursorAfter(layout, start, k))
  {
    if k < n - 1 {
      ChainAt(layout, start, n - 1, k);
    }
  }

  /** Every roll is a value Random.Range can return for the tile of its call,
      when the calls start at `start`. */
  ghost predicate RollsFit(layout: Layout, start: Pose, rolls: seq<nat>) {
    forall i :: 0 <= i < |rolls| ==> RollFits(rolls[i], Place(layout, CursorAfter(layout, start, i)))
  }

  lemma RollsFitPrefix(layout: Layout, start: Pose, rolls: seq<nat>, n: nat)
    requires n <= |rolls| && RollsFit(layout, start, rolls)
    ensures RollsFit(layout, start, rolls[..n])
  {
    forall i | 0 <= i < n
      ensures RollFits(rolls[..n][i], Place(layout, CursorAfter(layout, start, i)))
    {
      assert rolls[..n][i] == rolls[i];
    }
  }

  /** Consecutive calls SpawnNextTile(flags[0]), SpawnNextTile(flags[1]), ... */
  function SpawnAll(w: World, layout: Layout, flags: seq<bool>, rolls: seq<nat>): (r: World)
    requires |rolls| == |flags| && RollsFit(layout, w.cursor, rolls)
    ensures r.tiles == w.tiles + Chain(layout, w.cursor, |flags|)
    ensures r.cursor == CursorAfter(layout, w.cursor, |flags|)
  {
    if flags == [] then w
    else
      var n := |flags| - 1;
      RollsFitPrefix(layout, w.cursor, rolls, n);
      SpawnNext(SpawnAll(w, layout, flags[..n], rolls[..n]), layout, flags[n], rolls[n])
  }

  /** A run of calls keeps the scene well formed. */
  lemma {:induction false} SpawnAllWellFormed(w: World, layout: Layout, flags: seq<bool>, rolls: seq<nat>)
    requires |rolls| == |flags| && RollsFit(layout, w.cursor, rolls)
    requires WellFormed(w, layout)
    ensures WellFormed(SpawnAll(w, layout, flags, rolls), layout)
  {
    if flags != [] {
      var n := |flags| - 1;
      RollsFitPrefix(layout, w.cursor, rolls, n);
      SpawnAllWellFormed(w, layout, flags[..n], rolls[..n]);
      SpawnNextWellFormed(SpawnAll(w, layout, flags[..n], rolls[..n]), layout, flags[n], rolls[n]);
    }
  }

  lemma PrefixOfPrefix<T>(a: seq<T>, b: seq<T>, c: seq<T>)
    requires |a| <= |b| <= |c| && b[..|a|] == a && c[..|b|] == b
    ensures c[..|a|] == a
  {
    assert c[..|a|] == c[..|b|][..|a|];
  }

  /** A run of calls never removes or changes an obstacle. */
  lemma {:induction false} SpawnAllKeepsObstacles(w: World, layout: Layout, flags: seq<bool>, rolls: seq<nat>)
    requires |rolls| == |flags| && RollsFit(layout, w.cursor, rolls)
    ensures var r := SpawnAll(w, layout, flags, rolls);
      |r.obstacles| >= |w.obstacles| && r.obstacles[..|w.obstacles|] == w.obstacles
  {
    if flags != [] {
      var n := |flags| - 1;
      RollsFitPrefix(layout, w.cursor, rolls, n);
      SpawnAllKeepsObstacles(w, layout, flags[..n], rolls[..n]);
      SpawnAllLastObstacles(w, layout, flags, rolls);
      PrefixOfPrefix(w.obstacles, SpawnAll(w, layout, flags[..n], rolls[..n]).obstacles,
                     SpawnAll(w, layout, flags, rolls).obstacles);
    }
  }

  /** Every obstacle from index `from` on lies on tile `firstTile + k` for
      some k with flags[k] set. */
  predicate AddedObstaclesAllowed(obstacles: seq<Obstacle>, from: nat, firstTile: nat, flags: seq<bool>) {
    forall i :: from <= i < |obstacles| ==>
      firstTile <= obstacles[i].tile < firstTile + |flags| && flags[obstacles[i].tile - firstTile]
  }

  /** Appending at most one obstacle, on the tile of a new last call that
      allowed obstacles, keeps AddedObstaclesAllowed. */
  lemma AddedObstaclesExtend(before: seq<Obstacle>, after: seq<Obstacle>, from: nat, firstTile: nat,
                             flags: seq<bool>)
    requires |flags| > 0
    requires AddedObstaclesAllowed(before, from, firstTile, flags[..|flags| - 1])
    requires |before| <= |after| <= |before| + 1 && after[..|before|] == before
    requires |after| > |before| ==> flags[|flags| - 1] && after[|before|].tile == firstTile + |flags| - 1
    ensures AddedObstaclesAllowed(after, from, firstTile, flags)
  {
    var n := |flags| - 1;
    forall i | from <= i < |after|
      ensures firstTile <= after[i].tile < firstTile + |flags| && flags[after[i].tile - firstTile]
    {
      if i < |before| {
        assert after[i] == after[..|before|][i];
        var k := before[i].tile - firstTile;
        assert flags[..n][k] == flags[k];
      }
    }
  }

  /** What the last call of a run does to the obstacles: it keeps them
      and adds at most one, on its own tile, and only if it allowed obstacles. */
  lemma SpawnAllLastObstacles(w: World, layout: Layout, flags: seq<bool>, rolls: seq<nat>)
    requires |rolls| == |flags| > 0 && RollsFit(layout, w.cursor, rolls)
    ensures RollsFit(layout, w.cursor, rolls[..|flags| - 1])
    ensures var n := |flags| - 1;
      var before := SpawnAll(w, layout, flags[..n], rolls[..n]);
      var after := SpawnAll(w, layout, flags, rolls);
      var m := |before.obstacles|;
      |before.tiles| == |w.tiles| + n &&
      m <= |after.obstacles| <= m + 1 && after.obstacles[..m] == before.obstacles &&
      (|after.obstacles| > m ==> flags[n] && after.obstacles[m].tile == |w.tiles| + n)
  {
    RollsFitPrefix(layout, w.cursor, rolls, |flags| - 1);
  }

  /** Each obstacle a run of calls adds lies on a tile of the run whose
      call allowed obstacles. */
  lemma {:induction false} SpawnAllObstacles(w: World, layout: Layout, flags: seq<bool>, rolls: seq<nat>)
    requires |rolls| == |flags| && RollsFit(layout, w.cursor, rolls)
    ensures AddedObstaclesAllowed(SpawnAll(w, layout, flags, rolls).obstacles, |w.obstacles|, |w.tiles|, flags)
  {
    if flags != [] {
      var n := |flags| - 1;
      SpawnAllLastObstacles(w, layout, flags, rolls);
      SpawnAllObstacles(w, layout, flags[..n], rolls[..n]);
      AddedObstaclesExtend(SpawnAll(w, layout, flags[..n], rolls[..n]).obstacles,
                           SpawnAll(w, layout, flags, rolls).obstacles, |w.obstacles|, |w.tiles|, flags);
    }
  }

  /** One more call extends a run of calls. */
  lemma SpawnAllStep(w: World, layout: Layout, flags: seq<bool>, rolls: seq<nat>, i: nat)
    requires i < |flags| == |rolls| && RollsFit(layout, w.cursor, rolls)
    ensures RollsFit(layout, w.cursor, rolls[..i]) && RollsFit(layout, w.cursor, rolls[..i + 1])
    ensures var before := SpawnAll(w, layout, flags[..i], rolls[..i]);
      RollFits(rolls[i], Place(layout, before.cursor)) &&
      SpawnAll(w, layout, flags[..i + 1], rolls[..i + 1]) == SpawnNext(before, layout, flags[i], rolls[i])
  {
    RollsFitPrefix(layout, w.cursor, rolls, i);
    RollsFitPrefix(layout, w.cursor, rolls, i + 1);
    assert flags[..i + 1][..i] == flags[..i];
    assert rolls[..i + 1][..i] == rolls[..i];
  }

  /** Number of iterations of `for (int i = 0; i < n; i++)`. */
  function LoopCount(n: int): nat {
    if n < 0 then 0 else n
  }

  /** The argument of each SpawnNextTile call in Start's warm-up loop:
      call i suppresses obstacles iff i < initNoObstacles. */
  function ObstacleFlags(initSpawnNum: int, initNoObstacles: int): (flags: seq<bool>)
    ensures |flags| == LoopCount(initSpawnNum)
    ensures forall i :: 0 <= i < |flags| ==> (flags[i] <==> i >= initNoObstacles)
  {
    seq(LoopCount(initSpawnNum), i => i >= initNoObstacles)
  }

  /** The number of calls that may spawn an obstacle. */
  function CountEligible(flags: seq<bool>): nat {
    if flags == [] then 0 else CountEligible(flags[..|flags| - 1]) + (if flags[|flags| - 1] then 1 else 0)
  }

  /** For 0 <= initNoObstacles <= initSpawnNum the warm-up makes
      initSpawnNum - initNoObstacles obstacle-eligible calls; in general the
      number of suppressed calls is initNoObstacles clamped to [0, initSpawnNum]. */
  lemma {:induction false} EligibleCalls(initSpawnNum: int, initNoObstacles: int)
    ensures initSpawnNum <= 0 ==> CountEligible(ObstacleFlags(initSpawnNum, initNoObstacles)) == 0
    ensures 0 <= initNoObstacles <= initSpawnNum ==>
      CountEligible(ObstacleFlags(initSpawnNum, initNoObstacles)) == initSpawnNum - initNoObstacles
    ensures initNoObstacles < 0 <= initSpawnNum ==>
      CountEligible(ObstacleFlags(initSpawnNum, initNoObstacles)) == initSpawnNum
    ensures 0 <= initSpawnNum < initNoObstacles ==>
      CountEligible(ObstacleFlags(initSpawnNum, initNoObstacles)) == 0
  {
    if initSpawnNum > 0 {
      var n := initSpawnNum - 1;
      var flags := ObstacleFlags(initSpawnNum, initNoObstacles);
      assert flags[..n] == ObstacleFlags(n, initNoObstacles);
      EligibleCalls(n, initNoObstacles);
    }
  }

  /** What Start does to the scene: reset the cursor to the start point
      with identity rotation, then run the warm-up loop. */
  function StartUp(w: World, layout: Layout, startPoint: Vec3, initSpawnNum: int, initNoObstacles: int,
                   rolls: seq<nat>): (r: World)
    requires |rolls| == LoopCount(initSpawnNum)
    requires RollsFit(layout, Pose(startPoint, IDENTITY), rolls)
    // the warm-up appends the chain of initSpawnNum tiles that starts at the
    // start point with identity rotation, and leaves the cursor at its end
    ensures r.tiles == w.tiles + Chain(layout, Pose(startPoint, IDENTITY), LoopCount(initSpawnNum))
    ensures r.cursor == CursorAfter(layout, Pose(startPoint, IDENTITY), LoopCount(initSpawnNum))
  {
    SpawnAll(w.(cursor := Pose(startPoint, IDENTITY)), layout, ObstacleFlags(initSpawnNum, initNoObstacles), rolls)
  }

  /** Start places a chain of initSpawnNum tiles whose first tile is at the
      start point with identity rotation, each later tile at its
      predecessor's NextSpawnPoint, and the first initNoObstacles of them
      carry no obstacle. */
  lemma StartUpPlacesChain(w: World, layout: Layout, startPoint: Vec3, initSpawnNum: int, initNoObstacles: int,
                           rolls: seq<nat>)
    requires |rolls| == LoopCount(initSpawnNum)
    requires RollsFit(layout, Pose(startPoint, IDENTITY), rolls)
    ensures var r := StartUp(w, layout, startPoint, initSpawnNum, initNoObstacles, rolls);
      var n := |w.tiles|;
      |r.tiles| == n + LoopCount(initSpawnNum) &&
      (initSpawnNum > 0 ==> r.tiles[n].pose == Pose(startPoint, IDENTITY)) &&
      (forall k :: n <= k < |r.tiles| - 1 ==> r.tiles[k + 1].pose == r.tiles[k].nextSpawnPoint) &&
      (forall i :: |w.obstacles| <= i < |r.obstacles| ==> r.obstacles[i].tile >= n + initNoObstacles)
  {
    var start := Pose(startPoint, IDENTITY);
    var count := LoopCount(initSpawnNum);
    ChainLinked(layout, start, count);
    SpawnAllObstacles(w.(cursor := start), layout, ObstacleFlags(initSpawnNum, initNoObstacles), rolls);
    SpawnAllKeepsObstacles(w.(cursor := start), layout, ObstacleFlags(initSpawnNum, initNoObstacles), rolls);
    var r := StartUp(w, layout, startPoint, initSpawnNum, initNoObstacles, rolls);
    var c := Chain(layout, start, count);
    assert r.tiles == w.tiles + c;
    forall k | |w.tiles| <= k < |r.tiles| - 1
      ensures r.tiles[k + 1].pose == r.tiles[k].nextSpawnPoint
    {
      assert r.tiles[k] == c[k - |w.tiles|];
      assert r.tiles[k + 1] == c[k + 1 - |w.tiles|];
    }
  }

  /** With the inspector defaults, Start makes 10 calls of which the first
      4 suppress obstacles and the other 6 may spawn one, and it lays 10
      tiles from (0, 0, -5) with identity rotation, the first 4 of them
      obstacle-free. */
  lemma DefaultWarmUp(w: World, layout: Layout, rolls: seq<nat>)
    requires |rolls| == 10 && RollsFit(layout, Pose(DEFAULT_START_POINT, IDENTITY), rolls)
    ensures var flags := ObstacleFlags(DEFAULT_INIT_SPAWN_NUM, DEFAULT_INIT_NO_OBSTACLES);
      |flags| == 10 && CountEligible(flags) == 6 && (forall i :: 0 <= i < 10 ==> (flags[i] <==> i >= 4))
    ensures var r := StartUp(w, layout, DEFAULT_START_POINT, DEFAULT_INIT_SPAWN_NUM, DEFAULT_INIT_NO_OBSTACLES, rolls);
      |r.tiles| == |w.tiles| + 10 && r.tiles[|w.tiles|].pose == Pose(Vec3(0.0, 0.0, -5.0), IDENTITY) &&
      (forall i :: |w.obstacles| <= i < |r.obstacles| ==> r.obstacles[i].tile >= |w.tiles| + 4)
  {
    EligibleCalls(DEFAULT_INIT_SPAWN_NUM, DEFAULT_INIT_NO_OBSTACLES);
    StartUpPlacesChain(w, layout, DEFAULT_START_POINT, DEFAULT_INIT_SPAWN_NUM, DEFAULT_INIT_NO_OBSTACLES, rolls);
  }

  /** The generator component. `layout` stands for the tile prefab and the
      engine's instantiation; `tiles` and `obstacles` for the scene. */
  class GameController {
    const layout: Layout
    const startPoint: Vec3
    const initSpawnNum: int
    const initNoObstacles: int

    var nextTileLocation: Vec3
    var nextTileRotation: Quat
    var tiles: seq<Tile>
    var obstacles: seq<Obstacle>

    function State(): World
      reads this
    {
      World(Pose(nextTileLocation, nextTileRotation), tiles, obstacles)
    }

    /** A fresh controller: the cursor holds the engine's zero defaults and
        the scene holds nothing spawned yet. */
    constructor (layout: Layout, startPoint: Vec3, initSpawnNum: int, initNoObstacles: int)
      ensures this.layout == layout && this.startPoint == startPoint
      ensures this.initSpawnNum == initSpawnNum && this.initNoObstacles == initNoObstacles
      ensures nextTileLocation == Vec3(0.0, 0.0, 0.0) && nextTileRotation == Quat(0.0, 0.0, 0.0, 0.0)
      ensures tiles == [] && obstacles == []
      ensures WellFormed(State(), layout)
    {
      this.layout := layout;
      this.startPoint := startPoint;
      this.initSpawnNum := initSpawnNum;
      this.initNoObstacles := initNoObstacles;
      nextTileLocation := Vec3(0.0, 0.0, 0.0);
      nextTileRotation := Quat(0.0, 0.0, 0.0, 0.0);
      tiles := [];
      obstacles := [];
    }

    /** Spawns a tile at the cursor, moves the cursor to its NextSpawnPoint
        and, if enabled (the default), puts an obstacle on candidate number
        `roll`. */
    method SpawnNextTile(roll: nat, spawnObstacles: bool := true)
      requires RollFits(roll, Place(layout, State().cursor))
      modifies this
      ensures State() == SpawnNext(old(State()), layout, spawnObstacles, roll)
    {
      var newTile := Place(layout, Pose(nextTileLocation, nextTileRotation));
      tiles := tiles + [newTile];

      nextTileLocation := newTile.nextSpawnPoint.position;
      nextTileRotation := newTile.nextSpawnPoint.rotation;

      if !spawnObstacles {
        return;
      }

      var obstacleSpawnPoints := CollectObstacleSpawnPoints(newTile.children);
      if |obstacleSpawnPoints| > 0 {
        var spawnPoint := obstacleSpawnPoints[roll];
        var spawnPos := newTile.children[spawnPoint].pose.position;
        obstacles := obstacles + [Obstacle(|tiles| - 1, spawnPoint, spawnPos, IDENTITY)];
      }
    }

    /** Resets the cursor and runs the warm-up loop; `rolls[i]` is the value
        of Random.Range in call i. */
    method Start(rolls: seq<nat>)
      requires |rolls| == LoopCount(initSpawnNum)
      requires RollsFit(layout, Pose(startPoint, IDENTITY), rolls)
      modifies this
      ensures State() == StartUp(old(State()), layout, startPoint, initSpawnNum, initNoObstacles, rolls)
    {
      nextTileLocation := startPoint;
      nextTileRotation := IDENTITY;
      ghost var start := State();
      ghost var flags := ObstacleFlags(initSpawnNum, initNoObstacles);

      var i := 0;
      RollsFitPrefix(layout, start.cursor, rolls, 0);
      assert flags[..0] == [] && rolls[..0] == [];
      while i < initSpawnNum
        invariant 0 <= i <= |rolls|
        invariant RollsFit(layout, start.cursor, rolls[..i])
        invariant State() == SpawnAll(start, layout, flags[..i], rolls[..i])
      {
        SpawnAllStep(start, layout, flags, rolls, i);
        SpawnNextTile(rolls[i], i >= initNoObstacles);
        i := i + 1;
      }
      assert flags[..i] == flags;
      assert rolls[..i] == rolls;
    }
  }
}
