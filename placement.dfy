/**
 * `ObjImportService.placeBlocks`: a first pass over the voxel grid caches the
 * name of every block id found at an occupied cell, a second pass writes each
 * occupied cell whose id is cached into the world at the origin plus the
 * cell's offset and counts placed and skipped cells.
 */
module Placement {
  import opened Wrappers
  import opened JavaInt
  import opened Host
  import opened Maps

  /** A grid offset (bx, by, bz). */
  type Cell = (Int32, Int32, Int32)

  ghost predicate InGrid(r: Grid, c: Cell)
  {
    0 <= c.0 < r.sizeX && 0 <= c.1 < r.sizeY && 0 <= c.2 < r.sizeZ
  }

  /** `voxels[bx][by][bz]`. */
  ghost predicate Occupied(r: Grid, c: Cell)
    requires InGrid(r, c)
  {
    r.voxels[c.0][c.1][c.2]
  }

  /** `blockIds[bx][by][bz]`. */
  ghost function IdAt(r: Grid, c: Cell): (id: Int32)
    requires InGrid(r, c)
  {
    r.blockIds[c.0][c.1][c.2]
  }

  /** Every cell of the grid. */
  ghost function AllCells(r: Grid): (cells: set<Cell>)
    ensures forall c :: c in cells <==> InGrid(r, c)
  {
    var cells := set x: Int32, y: Int32, z: Int32 | 0 <= x < r.sizeX && 0 <= y < r.sizeY && 0 <= z < r.sizeZ :: (x, y, z);
    assert forall c :: InGrid(r, c) ==> c == (c.0, c.1, c.2) && c in cells;
    cells
  }

  /** The occupied cells of the grid. */
  ghost function OccupiedCells(r: Grid): (cells: set<Cell>)
  {
    set c | c in AllCells(r) && Occupied(r, c)
  }

  /** The block ids found at the occupied cells `cells`. */
  ghost function IdsOf(r: Grid, cells: set<Cell>): (ids: set<Int32>)
    requires cells <= OccupiedCells(r)
  {
    set c | c in cells :: IdAt(r, c)
  }

  /** The block ids found at occupied cells. */
  ghost function OccupiedIds(r: Grid): (ids: set<Int32>)
  {
    IdsOf(r, OccupiedCells(r))
  }

  /** `c` comes before (x, y, z) in the loops' order: bx outermost, then by, then bz. */
  ghost predicate Before(c: Cell, x: int, y: int, z: int)
  {
    var (cx, cy, cz) := (c.0 as int, c.1 as int, c.2 as int);
    cx < x || (cx == x && (cy < y || (cy == y && cz < z)))
  }

  /** The occupied cells both passes have visited when they stand at (x, y, z). */
  ghost function OccupiedBefore(r: Grid, x: int, y: int, z: int): (before: set<Cell>)
  {
    set c | c in OccupiedCells(r) && Before(c, x, y, z)
  }

  /** Stepping the innermost loop visits one more cell. */
  lemma OccupiedBeforeStep(r: Grid, c: Cell)
    requires InGrid(r, c)
    ensures Occupied(r, c) ==> OccupiedBefore(r, c.0 as int, c.1 as int, c.2 as int + 1)
                               == OccupiedBefore(r, c.0 as int, c.1 as int, c.2 as int) + {c}
    ensures !Occupied(r, c) ==> OccupiedBefore(r, c.0 as int, c.1 as int, c.2 as int + 1)
                                == OccupiedBefore(r, c.0 as int, c.1 as int, c.2 as int)
  {
  }

  /** Finishing a row of the innermost loop is moving to the next `by`. */
  lemma OccupiedBeforeRowEnd(r: Grid, x: int, y: int)
    ensures OccupiedBefore(r, x, y, r.sizeZ as int) == OccupiedBefore(r, x, y + 1, 0)
  {
  }

  /** Finishing a plane of the middle loop is moving to the next `bx`. */
  lemma OccupiedBeforePlaneEnd(r: Grid, x: int)
    ensures OccupiedBefore(r, x, r.sizeY as int, 0) == OccupiedBefore(r, x + 1, 0, 0)
  {
  }

  /** At the start nothing is visited, at the end everything is. */
  lemma OccupiedBeforeBounds(r: Grid)
    ensures OccupiedBefore(r, 0, 0, 0) == {}
    ensures OccupiedBefore(r, r.sizeX as int, 0, 0) == OccupiedCells(r)
  {
  }

  // ---------------------------------------------------------------- first pass

  /** Ids the registry resolves: positive, and `getAsset` is not null. */
  predicate Resolves(lookup: Int32 -> Option<string>, id: Int32)
  {
    id > 0 && lookup(id).Some?
  }

  /** The name cache the first pass builds from the occupied cells `visited`. */
  ghost function NameCache(r: Grid, lookup: Int32 -> Option<string>, visited: set<Cell>): (cache: map<Int32, string>)
    requires visited <= OccupiedCells(r)
  {
    map id | id in IdsOf(r, visited) && Resolves(lookup, id) :: lookup(id).value
  }

  /** Visiting one more cell adds its id to the ids seen. */
  lemma IdsOfStep(r: Grid, visited: set<Cell>, c: Cell)
    requires visited <= OccupiedCells(r) && c in OccupiedCells(r)
    ensures IdsOf(r, visited + {c}) == IdsOf(r, visited) + {IdAt(r, c)}
  {
    assert IdAt(r, c) in IdsOf(r, visited + {c});
  }

  /** Visiting one more cell adds its id when it resolves and is not cached yet. */
  lemma NameCacheStep(r: Grid, lookup: Int32 -> Option<string>, visited: set<Cell>, c: Cell)
    requires visited <= OccupiedCells(r) && c in OccupiedCells(r)
    ensures IdAt(r, c) > 0 && IdAt(r, c) !in NameCache(r, lookup, visited) && lookup(IdAt(r, c)).Some? ==>
      NameCache(r, lookup, visited + {c}) == NameCache(r, lookup, visited)[IdAt(r, c) := lookup(IdAt(r, c)).value]
    ensures !(IdAt(r, c) > 0 && IdAt(r, c) !in NameCache(r, lookup, visited) && lookup(IdAt(r, c)).Some?) ==>
      NameCache(r, lookup, visited + {c}) == NameCache(r, lookup, visited)
  {
    var id := IdAt(r, c);
    var before := NameCache(r, lookup, visited);
    var after := NameCache(r, lookup, visited + {c});
    IdsOfStep(r, visited, c);
    if id > 0 && id !in before && lookup(id).Some? {
      assert after == before[id := lookup(id).value];
    } else {
      assert after == before;
    }
  }

  /** The cache before and after the first pass visits the cell c, in loop order. */
  lemma NameCacheAt(r: Grid, lookup: Int32 -> Option<string>, c: Cell)
    requires InGrid(r, c)
    ensures var before := NameCache(r, lookup, OccupiedBefore(r, c.0 as int, c.1 as int, c.2 as int));
            var after := NameCache(r, lookup, OccupiedBefore(r, c.0 as int, c.1 as int, c.2 as int + 1));
            if Occupied(r, c) && IdAt(r, c) > 0 && IdAt(r, c) !in before && lookup(IdAt(r, c)).Some?
            then after == before[IdAt(r, c) := lookup(IdAt(r, c)).value]
            else after == before
  {
    OccupiedBeforeStep(r, c);
    if Occupied(r, c) {
      NameCacheStep(r, lookup, OccupiedBefore(r, c.0 as int, c.1 as int, c.2 as int), c);
    }
  }

  /** The first pass at the cell (x, y, z): an occupied cell's id is cached when positive, new and resolved. */
  method CacheCell(r: Grid, lookup: Int32 -> Option<string>, cache: map<Int32, string>, x: Int32, y: Int32, z: Int32)
    returns (cache': map<Int32, string>)
    requires InGrid(r, (x, y, z))
    requires cache == NameCache(r, lookup, OccupiedBefore(r, x as int, y as int, z as int))
    ensures cache' == NameCache(r, lookup, OccupiedBefore(r, x as int, y as int, z as int + 1))
  {
    NameCacheAt(r, lookup, (x, y, z));
    cache' := cache;
    if r.voxels[x][y][z] {
      var id := r.blockIds[x][y][z];
      if id > 0 && id !in cache {
        var bt := lookup(id);
        if bt.Some? {
          cache' := cache[id := bt.value];
        }
      }
    }
  }

  /** The first pass's innermost loop, over `bz` for the column (x, y). */
  method CacheColumn(r: Grid, lookup: Int32 -> Option<string>, cache: map<Int32, string>, x: Int32, y: Int32)
    returns (cache': map<Int32, string>)
    requires 0 <= x < r.sizeX && 0 <= y < r.sizeY
    requires cache == NameCache(r, lookup, OccupiedBefore(r, x as int, y as int, 0))
    ensures cache' == NameCache(r, lookup, OccupiedBefore(r, x as int, y as int + 1, 0))
  {
    cache' := cache;
    var z: Int32 := 0;
    while z < r.sizeZ
      invariant 0 <= z <= r.sizeZ
      invariant cache' == NameCache(r, lookup, OccupiedBefore(r, x as int, y as int, z as int))
    {
      cache' := CacheCell(r, lookup, cache', x, y, z);
      z := z + 1;
    }
    OccupiedBeforeRowEnd(r, x as int, y as int);
  }

  /** The first pass's middle loop, over `by` for the plane x. */
  method CachePlane(r: Grid, lookup: Int32 -> Option<string>, cache: map<Int32, string>, x: Int32)
    returns (cache': map<Int32, string>)
    requires 0 <= x < r.sizeX
    requires cache == NameCache(r, lookup, OccupiedBefore(r, x as int, 0, 0))
    ensures cache' == NameCache(r, lookup, OccupiedBefore(r, x as int + 1, 0, 0))
  {
    cache' := cache;
    var y: Int32 := 0;
    while y < r.sizeY
      invariant 0 <= y <= r.sizeY
      invariant cache' == NameCache(r, lookup, OccupiedBefore(r, x as int, y as int, 0))
    {
      cache' := CacheColumn(r, lookup, cache', x, y);
      y := y + 1;
    }
    OccupiedBeforePlaneEnd(r, x as int);
  }

  /**
   * The first pass of `placeBlocks`: for each occupied cell in loop order, an id
   * that is positive, not cached yet and known to the registry gets cached with
   * its block name.
   */
  method BuildNameCache(r: Grid, lookup: Int32 -> Option<string>) returns (cache: map<Int32, string>)
    ensures cache == NameCache(r, lookup, OccupiedCells(r))
    ensures forall id :: id in cache <==> id > 0 && id in OccupiedIds(r) && lookup(id).Some?
    ensures forall id :: id in cache ==> cache[id] == lookup(id).value
  {
    cache := map[];
    OccupiedBeforeBounds(r);
    var x: Int32 := 0;
    while x < r.sizeX
      invariant 0 <= x <= r.sizeX
      invariant cache == NameCache(r, lookup, OccupiedBefore(r, x as int, 0, 0))
    {
      cache := CachePlane(r, lookup, cache, x);
      x := x + 1;
    }
  }

  // --------------------------------------------------------------- second pass

  /** The world position of cell `c` placed at origin `o`: Java's `originX + bx`, `originY + by`, `originZ + bz`. */
  function Target(o: Pos, c: Cell): (p: Pos)
    ensures Untarget(o, p) == c
  {
    SubAdd(o.0, c.0);
    SubAdd(o.1, c.1);
    SubAdd(o.2, c.2);
    (Add(o.0, c.0), Add(o.1, c.1), Add(o.2, c.2))
  }

  /** The cell a world position came from, for origin `o`. */
  ghost function Untarget(o: Pos, p: Pos): (c: Cell)
  {
    (Wrap32(p.0 as int - o.0 as int), Wrap32(p.1 as int - o.1 as int), Wrap32(p.2 as int - o.2 as int))
  }

  /** The visited cells whose id the cache names. */
  ghost function PlacedCells(r: Grid, cache: map<Int32, string>, visited: set<Cell>): (placed: set<Cell>)
    requires visited <= OccupiedCells(r)
  {
    set c | c in visited && IdAt(r, c) in cache
  }

  /** The visited cells whose id the cache does not name. */
  ghost function SkippedCells(r: Grid, cache: map<Int32, string>, visited: set<Cell>): (skipped: set<Cell>)
    requires visited <= OccupiedCells(r)
  {
    set c | c in visited && IdAt(r, c) !in cache
  }

  /** The world positions the placed cells among `visited` go to. */
  ghost function Targets(r: Grid, cache: map<Int32, string>, o: Pos, visited: set<Cell>): (targets: set<Pos>)
    requires visited <= OccupiedCells(r)
  {
    set c | c in PlacedCells(r, cache, visited) :: Target(o, c)
  }

  /** The blocks the second pass has set after visiting `visited`, by world position. */
  ghost function Writes(r: Grid, cache: map<Int32, string>, o: Pos, visited: set<Cell>): (writes: map<Pos, string>)
    requires visited <= OccupiedCells(r)
  {
    map p | p in Targets(r, cache, o, visited) :: cache[IdAt(r, Untarget(o, p))]
  }

  /** Distinct cells go to distinct world positions. */
  lemma TargetInjective(o: Pos, c: Cell, d: Cell)
    requires Target(o, c) == Target(o, d)
    ensures c == d
  {
    assert Untarget(o, Target(o, c)) == Untarget(o, Target(o, d));
  }

  /** A position is a target exactly when the cell it came from is placed. */
  lemma TargetsMember(r: Grid, cache: map<Int32, string>, o: Pos, visited: set<Cell>, p: Pos)
    requires visited <= OccupiedCells(r)
    ensures p in Targets(r, cache, o, visited) <==>
      Untarget(o, p) in PlacedCells(r, cache, visited) && Target(o, Untarget(o, p)) == p
  {
    if p in Targets(r, cache, o, visited) {
      var c :| c in PlacedCells(r, cache, visited) && Target(o, c) == p;
      assert Untarget(o, p) == c;
    }
  }

  /** The state of the world and the counters while the second pass has visited `visited`. */
  ghost predicate Committed(r: Grid, cache: map<Int32, string>, o: Pos, visited: set<Cell>,
                            blocks0: map<Pos, string>, writes0: seq<Pos>,
                            blocks: map<Pos, string>, writes: seq<Pos>, placed: nat, skipped: nat)
  {
    && visited <= OccupiedCells(r)
    && blocks == blocks0 + Writes(r, cache, o, visited)
    && placed == |PlacedCells(r, cache, visited)|
    && skipped == |SkippedCells(r, cache, visited)|
    && |writes0| <= |writes| && writes[..|writes0|] == writes0
    && multiset(writes[|writes0|..]) == multiset(Targets(r, cache, o, visited))
  }

  /** Appending a position not logged yet to a log of distinct positions keeps it a log of distinct positions. */
  lemma LogAppend(writes0: seq<Pos>, writes: seq<Pos>, targets: set<Pos>, t: Pos)
    requires |writes0| <= |writes| && writes[..|writes0|] == writes0
    requires multiset(writes[|writes0|..]) == multiset(targets) && t !in targets
    ensures (writes + [t])[..|writes0|] == writes0
    ensures multiset((writes + [t])[|writes0|..]) == multiset(targets + {t})
  {
    assert (writes + [t])[..|writes0|] == writes[..|writes0|];
    assert (writes + [t])[|writes0|..] == writes[|writes0|..] + [t];
  }

  /** The target of a cell not visited yet is not among the positions written so far. */
  lemma FreshTarget(r: Grid, cache: map<Int32, string>, o: Pos, visited: set<Cell>, c: Cell)
    requires visited <= OccupiedCells(r) && c !in visited
    ensures Target(o, c) !in Targets(r, cache, o, visited)
  {
    TargetsMember(r, cache, o, visited, Target(o, c));
  }

  /** Visiting a placed cell adds exactly its target, with the cached name of its id. */
  lemma WritesStep(r: Grid, cache: map<Int32, string>, o: Pos, visited: set<Cell>, c: Cell)
    requires visited <= OccupiedCells(r) && c in OccupiedCells(r) && c !in visited
    requires IdAt(r, c) in cache
    ensures PlacedCells(r, cache, visited + {c}) == PlacedCells(r, cache, visited) + {c}
    ensures SkippedCells(r, cache, visited + {c}) == SkippedCells(r, cache, visited)
    ensures Targets(r, cache, o, visited + {c}) == Targets(r, cache, o, visited) + {Target(o, c)}
    ensures Writes(r, cache, o, visited + {c}) == Writes(r, cache, o, visited)[Target(o, c) := cache[IdAt(r, c)]]
  {
    assert PlacedCells(r, cache, visited + {c}) == PlacedCells(r, cache, visited) + {c};
    assert Targets(r, cache, o, visited + {c}) == Targets(r, cache, o, visited) + {Target(o, c)};
  }

  /** Visiting a cell whose id is not cached adds it to the skipped cells only. */
  lemma SkipStep(r: Grid, cache: map<Int32, string>, o: Pos, visited: set<Cell>, c: Cell)
    requires visited <= OccupiedCells(r) && c in OccupiedCells(r)
    requires IdAt(r, c) !in cache
    ensures PlacedCells(r, cache, visited + {c}) == PlacedCells(r, cache, visited)
    ensures SkippedCells(r, cache, visited + {c}) == SkippedCells(r, cache, visited) + {c}
    ensures Targets(r, cache, o, visited + {c}) == Targets(r, cache, o, visited)
    ensures Writes(r, cache, o, visited + {c}) == Writes(r, cache, o, visited)
  {
    assert PlacedCells(r, cache, visited + {c}) == PlacedCells(r, cache, visited);
  }

  /** Visiting a placed cell, whose target gets the cached name and is logged, keeps the pass's state. */
  lemma CommitPlaced(r: Grid, cache: map<Int32, string>, o: Pos, visited: set<Cell>, visited': set<Cell>, c: Cell,
                     blocks0: map<Pos, string>, writes0: seq<Pos>,
                     blocks: map<Pos, string>, writes: seq<Pos>, blocks': map<Pos, string>, writes': seq<Pos>,
                     placed: nat, skipped: nat)
    requires Committed(r, cache, o, visited, blocks0, writes0, blocks, writes, placed, skipped)
    requires c in OccupiedCells(r) && c !in visited && IdAt(r, c) in cache && visited' == visited + {c}
    requires blocks' == blocks[Target(o, c) := cache[IdAt(r, c)]] && writes' == writes + [Target(o, c)]
    ensures Committed(r, cache, o, visited', blocks0, writes0, blocks', writes', placed + 1, skipped)
  {
    var t := Target(o, c);
    WritesStep(r, cache, o, visited, c);
    FreshTarget(r, cache, o, visited, c);
    UnionUpdate(blocks0, Writes(r, cache, o, visited), t, cache[IdAt(r, c)]);
    LogAppend(writes0, writes, Targets(r, cache, o, visited), t);
    assert c !in PlacedCells(r, cache, visited);
    assert blocks' == blocks0 + Writes(r, cache, o, visited');
  }

  /** Visiting a skipped cell only counts it. */
  lemma CommitSkipped(r: Grid, cache: map<Int32, string>, o: Pos, visited: set<Cell>, visited': set<Cell>, c: Cell,
                      blocks0: map<Pos, string>, writes0: seq<Pos>,
                      blocks: map<Pos, string>, writes: seq<Pos>, placed: nat, skipped: nat)
    requires Committed(r, cache, o, visited, blocks0, writes0, blocks, writes, placed, skipped)
    requires c in OccupiedCells(r) && c !in visited && IdAt(r, c) !in cache && visited' == visited + {c}
    ensures Committed(r, cache, o, visited', blocks0, writes0, blocks, writes, placed, skipped + 1)
  {
    SkipStep(r, cache, o, visited, c);
    assert c !in SkippedCells(r, cache, visited);
  }

  /** The second pass at the occupied cell (x, y, z): set its cached block, or count it as skipped. */
  method PlaceOccupied(world: World, r: Grid, cache: map<Int32, string>, originX: Int32, originY: Int32, originZ: Int32,
                       x: Int32, y: Int32, z: Int32, placed: nat, skipped: nat,
                       ghost blocks0: map<Pos, string>, ghost writes0: seq<Pos>)
    returns (placed': nat, skipped': nat)
    requires InGrid(r, (x, y, z)) && Occupied(r, (x, y, z))
    requires Committed(r, cache, (originX, originY, originZ), OccupiedBefore(r, x as int, y as int, z as int),
                       blocks0, writes0, world.blocks, world.writes, placed, skipped)
    modifies world
    ensures Committed(r, cache, (originX, originY, originZ), OccupiedBefore(r, x as int, y as int, z as int + 1),
                      blocks0, writes0, world.blocks, world.writes, placed', skipped')
  {
    ghost var o: Pos := (originX, originY, originZ);
    ghost var c: Cell := (x, y, z);
    ghost var visited := OccupiedBefore(r, x as int, y as int, z as int);
    ghost var visited' := OccupiedBefore(r, x as int, y as int, z as int + 1);
    OccupiedBeforeStep(r, c);
    assert c in OccupiedCells(r) && c !in visited && visited' == visited + {c};
    placed', skipped' := placed, skipped;
    var blockId := r.blockIds[x][y][z];
    if blockId in cache {
      var blockName := cache[blockId];
      var wx, wy, wz := Add(originX, x), Add(originY, y), Add(originZ, z);
      assert (wx, wy, wz) == Target(o, c);
      ghost var blocks, writes := world.blocks, world.writes;
      world.SetBlock(wx, wy, wz, blockName);
      CommitPlaced(r, cache, o, visited, visited', c, blocks0, writes0, blocks, writes, world.blocks, world.writes,
                   placed, skipped);
      placed' := placed + 1;
    } else {
      CommitSkipped(r, cache, o, visited, visited', c, blocks0, writes0, world.blocks, world.writes, placed, skipped);
      skipped' := skipped + 1;
    }
  }

  /** The body of the second pass's innermost loop for the cell (x, y, z); empty cells are passed over. */
  method PlaceCell(world: World, r: Grid, cache: map<Int32, string>, originX: Int32, originY: Int32, originZ: Int32,
                   x: Int32, y: Int32, z: Int32, placed: nat, skipped: nat,
                   ghost blocks0: map<Pos, string>, ghost writes0: seq<Pos>)
    returns (placed': nat, skipped': nat)
    requires InGrid(r, (x, y, z))
    requires Committed(r, cache, (originX, originY, originZ), OccupiedBefore(r, x as int, y as int, z as int),
                       blocks0, writes0, world.blocks, world.writes, placed, skipped)
    modifies world
    ensures Committed(r, cache, (originX, originY, originZ), OccupiedBefore(r, x as int, y as int, z as int + 1),
                      blocks0, writes0, world.blocks, world.writes, placed', skipped')
  {
    if r.voxels[x][y][z] {
      placed', skipped' := PlaceOccupied(world, r, cache, originX, originY, originZ, x, y, z, placed, skipped,
                                         blocks0, writes0);
    } else {
      OccupiedBeforeStep(r, (x, y, z));
      placed', skipped' := placed, skipped;
    }
  }

  /** The innermost loop of the second pass, over `bz` for the column (x, y). */
  method PlaceColumn(world: World, r: Grid, cache: map<Int32, string>, originX: Int32, originY: Int32, originZ: Int32,
                     x: Int32, y: Int32, placed: nat, skipped: nat,
                     ghost blocks0: map<Pos, string>, ghost writes0: seq<Pos>)
    returns (placed': nat, skipped': nat)
    requires 0 <= x < r.sizeX && 0 <= y < r.sizeY
    requires Committed(r, cache, (originX, originY, originZ), OccupiedBefore(r, x as int, y as int, 0),
                       blocks0, writes0, world.blocks, world.writes, placed, skipped)
    modifies world
    ensures Committed(r, cache, (originX, originY, originZ), OccupiedBefore(r, x as int, y as int + 1, 0),
                      blocks0, writes0, world.blocks, world.writes, placed', skipped')
  {
    placed', skipped' := placed, skipped;
    var z: Int32 := 0;
    while z < r.sizeZ
      invariant 0 <= z <= r.sizeZ
      invariant Committed(r, cache, (originX, originY, originZ), OccupiedBefore(r, x as int, y as int, z as int),
                          blocks0, writes0, world.blocks, world.writes, placed', skipped')
    {
      placed', skipped' := PlaceCell(world, r, cache, originX, originY, originZ, x, y, z, placed', skipped',
                                     blocks0, writes0);
      z := z + 1;
    }
    OccupiedBeforeRowEnd(r, x as int, y as int);
  }

  /** The middle loop of the second pass, over `by` for the plane x. */
  method PlacePlane(world: World, r: Grid, cache: map<Int32, string>, originX: Int32, originY: Int32, originZ: Int32,
                    x: Int32, placed: nat, skipped: nat,
                    ghost blocks0: map<Pos, string>, ghost writes0: seq<Pos>)
    returns (placed': nat, skipped': nat)
    requires 0 <= x < r.sizeX
    requires Committed(r, cache, (originX, originY, originZ), OccupiedBefore(r, x as int, 0, 0),
                       blocks0, writes0, world.blocks, world.writes, placed, skipped)
    modifies world
    ensures Committed(r, cache, (originX, originY, originZ), OccupiedBefore(r, x as int + 1, 0, 0),
                      blocks0, writes0, world.blocks, world.writes, placed', skipped')
  {
    placed', skipped' := placed, skipped;
    var y: Int32 := 0;
    while y < r.sizeY
      invariant 0 <= y <= r.sizeY
      invariant Committed(r, cache, (originX, originY, originZ), OccupiedBefore(r, x as int, y as int, 0),
                          blocks0, writes0, world.blocks, world.writes, placed', skipped')
    {
      placed', skipped' := PlaceColumn(world, r, cache, originX, originY, originZ, x, y, placed', skipped',
                                       blocks0, writes0);
      y := y + 1;
    }
    OccupiedBeforePlaneEnd(r, x as int);
  }

  /**
   * The second pass of `placeBlocks`, the job handed to `world.execute`: every
   * occupied cell whose id has a cached name is set at the origin plus its
   * offset and counted as placed; every other occupied cell is counted as
   * skipped; empty cells are not touched.
   */
  method PlaceCells(world: World, r: Grid, cache: map<Int32, string>, originX: Int32, originY: Int32, originZ: Int32)
    returns (placed: nat, skipped: nat)
    modifies world
    ensures Committed(r, cache, (originX, originY, originZ), OccupiedCells(r),
                      old(world.blocks), old(world.writes), world.blocks, world.writes, placed, skipped)
  {
    ghost var blocks0, writes0 := world.blocks, world.writes;
    placed, skipped := 0, 0;
    OccupiedBeforeBounds(r);
    assert Writes(r, cache, (originX, originY, originZ), {}) == map[];
    var x: Int32 := 0;
    while x < r.sizeX
      invariant 0 <= x <= r.sizeX
      invariant Committed(r, cache, (originX, originY, originZ), OccupiedBefore(r, x as int, 0, 0),
                          blocks0, writes0, world.blocks, world.writes, placed, skipped)
    {
      placed, skipped := PlacePlane(world, r, cache, originX, originY, originZ, x, placed, skipped, blocks0, writes0);
      x := x + 1;
    }
  }

  // ------------------------------------------------------------ placeBlocks

  /** The occupied cells whose id the registry resolves: the cells `placeBlocks` places. */
  ghost function ResolvedCells(r: Grid, lookup: Int32 -> Option<string>): (resolved: set<Cell>)
  {
    set c | c in OccupiedCells(r) && Resolves(lookup, IdAt(r, c))
  }

  /** The occupied cells whose id is not positive or unknown to the registry: the cells it skips. */
  ghost function UnresolvedCells(r: Grid, lookup: Int32 -> Option<string>): (unresolved: set<Cell>)
  {
    set c | c in OccupiedCells(r) && !Resolves(lookup, IdAt(r, c))
  }

  /** The world positions `placeBlocks` sets for origin `o`. */
  ghost function PlacementTargets(r: Grid, lookup: Int32 -> Option<string>, o: Pos): (targets: set<Pos>)
  {
    set c | c in ResolvedCells(r, lookup) :: Target(o, c)
  }

  /** What `placeBlocks` sets in the world for origin `o`: the registry's name of each resolved cell's id at its target. */
  ghost function PlacedBlocks(r: Grid, lookup: Int32 -> Option<string>, o: Pos): (blocks: map<Pos, string>)
  {
    map p | p in PlacementTargets(r, lookup, o) :: lookup(IdAt(r, Untarget(o, p))).value
  }

  /** After the first pass, an occupied cell's id is cached exactly when the registry resolves it, under its name. */
  lemma CachedIffResolves(r: Grid, lookup: Int32 -> Option<string>, c: Cell)
    requires c in OccupiedCells(r)
    ensures IdAt(r, c) in NameCache(r, lookup, OccupiedCells(r)) <==> Resolves(lookup, IdAt(r, c))
    ensures Resolves(lookup, IdAt(r, c)) ==> NameCache(r, lookup, OccupiedCells(r))[IdAt(r, c)] == lookup(IdAt(r, c)).value
  {
    assert IdAt(r, c) in IdsOf(r, OccupiedCells(r));
  }

  /** With the first pass's cache, the second pass places the resolved cells and skips the others. */
  lemma CacheSelects(r: Grid, lookup: Int32 -> Option<string>)
    ensures PlacedCells(r, NameCache(r, lookup, OccupiedCells(r)), OccupiedCells(r)) == ResolvedCells(r, lookup)
    ensures SkippedCells(r, NameCache(r, lookup, OccupiedCells(r)), OccupiedCells(r)) == UnresolvedCells(r, lookup)
  {
    var cells := OccupiedCells(r);
    var cache := NameCache(r, lookup, cells);
    forall c | c in cells
      ensures IdAt(r, c) in cache <==> Resolves(lookup, IdAt(r, c))
    {
      CachedIffResolves(r, lookup, c);
    }
    assert PlacedCells(r, cache, cells) == ResolvedCells(r, lookup);
  }

  /** With the first pass's cache, the second pass writes exactly `PlacedBlocks`. */
  lemma CacheWrites(r: Grid, lookup: Int32 -> Option<string>, o: Pos)
    ensures Targets(r, NameCache(r, lookup, OccupiedCells(r)), o, OccupiedCells(r)) == PlacementTargets(r, lookup, o)
    ensures Writes(r, NameCache(r, lookup, OccupiedCells(r)), o, OccupiedCells(r)) == PlacedBlocks(r, lookup, o)
  {
    var cells := OccupiedCells(r);
    var cache := NameCache(r, lookup, cells);
    CacheSelects(r, lookup);
    forall p | p in PlacementTargets(r, lookup, o)
      ensures Untarget(o, p) in ResolvedCells(r, lookup)
      ensures cache[IdAt(r, Untarget(o, p))] == lookup(IdAt(r, Untarget(o, p))).value
    {
      PlacementIff(r, lookup, o, p);
      CachedIffResolves(r, lookup, Untarget(o, p));
    }
  }

  /** Every occupied cell is either placed or skipped: `placed + skipped` counts the occupied cells. */
  lemma PlacedPlusSkipped(r: Grid, lookup: Int32 -> Option<string>)
    ensures |ResolvedCells(r, lookup)| + |UnresolvedCells(r, lookup)| == |OccupiedCells(r)|
  {
    var placed, skipped := ResolvedCells(r, lookup), UnresolvedCells(r, lookup);
    assert placed + skipped == OccupiedCells(r);
    assert placed * skipped == {};
  }

  /** A position is set exactly when it is the target of a resolved cell. */
  lemma PlacementIff(r: Grid, lookup: Int32 -> Option<string>, o: Pos, p: Pos)
    ensures p in PlacedBlocks(r, lookup, o) <==> Untarget(o, p) in ResolvedCells(r, lookup) && Target(o, Untarget(o, p)) == p
  {
    if p in PlacedBlocks(r, lookup, o) {
      var c :| c in ResolvedCells(r, lookup) && Target(o, c) == p;
      assert Untarget(o, p) == c;
    }
  }

  /** A resolved cell's target gets the registry's name of its id. */
  lemma PlacementOfResolved(r: Grid, lookup: Int32 -> Option<string>, o: Pos, c: Cell)
    requires c in ResolvedCells(r, lookup)
    ensures Target(o, c) in PlacedBlocks(r, lookup, o)
    ensures PlacedBlocks(r, lookup, o)[Target(o, c)] == lookup(IdAt(r, c)).value
  {
    assert Target(o, c) in PlacementTargets(r, lookup, o);
  }

  /** A skipped cell (id not positive, or unknown to the registry) causes no write at its target. */
  lemma SkippedNotPlaced(r: Grid, lookup: Int32 -> Option<string>, o: Pos, c: Cell)
    requires c in OccupiedCells(r) && (IdAt(r, c) <= 0 || lookup(IdAt(r, c)).None?)
    ensures Target(o, c) !in PlacedBlocks(r, lookup, o)
  {
    PlacementIff(r, lookup, o, Target(o, c));
  }

  /** In a write log holding each target once, a resolved cell's target is written exactly once, a skipped one's never. */
  lemma WrittenOnce(r: Grid, lookup: Int32 -> Option<string>, o: Pos, log: seq<Pos>, c: Cell)
    requires multiset(log) == multiset(PlacementTargets(r, lookup, o)) && c in OccupiedCells(r)
    ensures multiset(log)[Target(o, c)] == if Resolves(lookup, IdAt(r, c)) then 1 else 0
  {
    PlacementIff(r, lookup, o, Target(o, c));
    if Resolves(lookup, IdAt(r, c)) {
      assert Target(o, c) in PlacementTargets(r, lookup, o);
    }
  }

  /**
   * `placeBlocks`: the first pass builds the name cache, the second pass (the
   * task handed to `world.execute`, run here at once) writes every resolved
   * cell at the origin plus its offset, once each, and counts the placed and
   * the skipped cells; every other position of the world keeps its block.
   */
  method PlaceBlocks(world: World, r: Grid, originX: Int32, originY: Int32, originZ: Int32,
                     lookup: Int32 -> Option<string>)
    returns (placed: nat, skipped: nat)
    modifies world
    ensures placed == |ResolvedCells(r, lookup)| && skipped == |UnresolvedCells(r, lookup)|
    ensures placed + skipped == |OccupiedCells(r)|
    ensures world.blocks == old(world.blocks) + PlacedBlocks(r, lookup, (originX, originY, originZ))
    ensures |old(world.writes)| <= |world.writes| && world.writes[..|old(world.writes)|] == old(world.writes)
    ensures multiset(world.writes[|old(world.writes)|..]) == multiset(PlacementTargets(r, lookup, (originX, originY, originZ)))
  {
    var cache := BuildNameCache(r, lookup);
    placed, skipped := PlaceCells(world, r, cache, originX, originY, originZ);
    CacheSelects(r, lookup);
    CacheWrites(r, lookup, (originX, originY, originZ));
    PlacedPlusSkipped(r, lookup);
  }
}
