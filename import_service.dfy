/**
 * `ObjImportService.importObj`: parse the OBJ file, pick the default block,
 * load the materials into fresh maps, voxelize the mesh and place the grid.
 */
module ImportService {
  import opened Wrappers
  import opened JavaInt
  import opened Host
  import opened Materials
  import opened Placement

  /** The mid-grey the default block is chosen for. */
  const DEFAULT_GREY: Rgb := Rgb(128, 128, 128)

  /** How an import ends: `ObjParser.parse` threw, or the grid was placed with these counts. */
  datatype Outcome = ParseFailed | Imported(placed: nat, skipped: nat)

  /** The grid `MeshVoxelizer.voxelize` returns for `mesh` after its materials are loaded into fresh maps. */
  function VoxelGrid(lib: Library, mesh: Mesh, height: Int32, solid: bool): (grid: Grid)
  {
    var (textures, ids) := LoadedMaterials(lib, mesh, map[], map[]);
    lib.voxelize(mesh, height, solid, textures, ids, lib.findClosestBlock(DEFAULT_GREY))
  }

  /**
   * `importObj(world, objPath, x, y, z, height, solid, logger)`. A parse failure
   * propagates before anything is written; otherwise the voxel grid of the mesh
   * is placed with its corner at (x, y, z).
   */
  method ImportObj(world: World, lib: Library, objPath: string, x: Int32, y: Int32, z: Int32,
                   height: Int32, solid: bool)
    returns (outcome: Outcome)
    modifies world
    ensures lib.parseObj(objPath).None? ==>
      outcome == ParseFailed && world.blocks == old(world.blocks) && world.writes == old(world.writes)
    ensures lib.parseObj(objPath).Some? ==>
      var grid := VoxelGrid(lib, lib.parseObj(objPath).value, height, solid);
      && outcome == Imported(|ResolvedCells(grid, lib.blockTypeName)|, |UnresolvedCells(grid, lib.blockTypeName)|)
      && world.blocks == old(world.blocks) + PlacedBlocks(grid, lib.blockTypeName, (x, y, z))
      && |old(world.writes)| <= |world.writes| && world.writes[..|old(world.writes)|] == old(world.writes)
      && multiset(world.writes[|old(world.writes)|..])
         == multiset(PlacementTargets(grid, lib.blockTypeName, (x, y, z)))
  {
    var parsed := lib.parseObj(objPath);
    if parsed.None? {
      return ParseFailed;
    }
    var mesh := parsed.value;
    var defaultBlockId := lib.findClosestBlock(DEFAULT_GREY);
    var textures := new MutableMap<string, Image>();
    var materialBlockIds := new MutableMap<string, Int32>();
    LoadMaterials(lib, mesh, textures, materialBlockIds);
    var result := lib.voxelize(mesh, height, solid, textures.entries, materialBlockIds.entries, defaultBlockId);
    var placed, skipped := PlaceBlocks(world, result, x, y, z, lib.blockTypeName);
    outcome := Imported(placed, skipped);
  }
}
