# OBJ import service, modelled in Dafny

This project models the core of the OBJ model importer's service class,
`ObjImportService`, and proves properties of the model. The service turns a
Wavefront OBJ mesh into blocks of a voxel world in four steps:

- it parses the mesh;
- it picks a default block, the one nearest mid-grey;
- it resolves every material of the mesh's MTL library to a block id, from the
  material's texture when that loads and averages, else from its diffuse colour;
- it voxelizes the mesh and places the voxel grid in the world.

`placeBlocks` runs in two passes. The first caches a block name for every
positive id found at an occupied cell that the block registry knows. The
second writes each occupied cell whose id is cached at the origin plus the
cell's offset, and counts the placed and the skipped cells. `packRGB` packs
three colour channels into one `int`.

The modules:

- `JavaInt` (`java_int.dfy`): Java's 32-bit `int`, with `+`, `<<`, `>>`, `|`
  and `&` written out on mathematical integers, wrap-around included.
- `ColorPacking` (`color_packing.dfy`): `packRGB` and the channel accessors
  that undo it.
- `Host` (`host.dfy`): what the service uses but does not define.
  - The host library's parsers, texture sampler, voxelizer and colour index,
    and the block registry, are fields of the `Library` datatype. Each one is
    a function, and `None` stands for a thrown exception or a `null`.
  - A Java `HashMap` passed by reference is the class `MutableMap`.
  - The world's block storage is the class `World`. It keeps a ghost log of
    every `setBlock` call.
- `Materials` (`materials.dfy`): `loadMaterials`, as an imperative loop over the
  library's entries. It updates two `MutableMap`s in place and is proved equal
  to the specification function `LoadedMaterials`.
- `Placement` (`placement.dfy`): `placeBlocks`, as the two passes of nested
  loops. Each loop level is a method of its own. The second pass is proved to
  keep the predicate `Committed`, which gives the world's blocks, the counters
  and the write log after any prefix of the loop order.
- `ImportService` (`import_service.dfy`): `importObj`, which wires the steps
  together.

Three behaviours of the code are worth noting, and the model keeps them:

- An occupied cell whose id does not resolve is skipped: it is counted as
  skipped and nothing is written for it (`ObjImportService.java:131-142`).
- A material whose texture fails to load or average gets the block nearest
  its diffuse colour, unless `materialBlockIds` already held an entry for that
  name, which then stays (`ObjImportService.java:80-92`).
- A malformed MTL file does not stop the import: the failure is caught, both
  maps stay as they were and the mesh is still voxelized
  (`ObjImportService.java:94-96`).

## Model

| member | source | states |
|---|---|---|
| ColorPacking.PackValue | src/main/java/fr/thinkbit/hytale/objimporter/ObjImportService.java:152-154 | for channels in 0..255 the Java expression `(r << 16) \| (g << 8) \| b` equals r·65536 + g·256 + b and lies in [0, 0xFFFFFF] |
| ColorPacking.UnpackPack | src/main/java/fr/thinkbit/hytale/objimporter/ObjImportService.java:152-154 | for byte channels `(p >> 16) & 0xFF`, `(p >> 8) & 0xFF` and `p & 0xFF` give back r, g and b |
| ColorPacking.PackInjective | src/main/java/fr/thinkbit/hytale/objimporter/ObjImportService.java:152-154 | two byte triples with the same packed value are equal |
| ColorPacking.OverlapOutsideBytes | src/main/java/fr/thinkbit/hytale/objimporter/ObjImportService.java:152-154 | outside 0..255 the channels overlap: packRGB(0, 256, 0) == packRGB(1, 0, 0) |
| ColorPacking.KnownColors | src/test/java/fr/thinkbit/hytale/objimporter/ObjImportServiceTest.java:10-49 | the packed values the unit tests expect: 0x000000, 0xFFFFFF, 0xFF0000, 0x00FF00, 0x0000FF, 0x804020, 0x808080 |
| JavaInt.AndByteIsMod | src/main/java/fr/thinkbit/hytale/objimporter/ObjImportService.java:152-154 | Java `x & 0xFF` is x modulo 256 for every `int` x, negative ones included |
| Materials.LoadMaterial | src/main/java/fr/thinkbit/hytale/objimporter/ObjImportService.java:64-93 | one loop iteration: `textures` gains the decoded texture if there is one. `materialBlockIds` gets the texture's block if the texture decodes and averages. Otherwise it gets the diffuse colour's block, but only when the name had no entry yet |
| Materials.LoadMaterials | src/main/java/fr/thinkbit/hytale/objimporter/ObjImportService.java:48-97 | the two maps end as `LoadedMaterials` of the mesh and their old contents, whatever order the loop visits the entries in |
| Materials.NoLibraryNoChange | src/main/java/fr/thinkbit/hytale/objimporter/ObjImportService.java:53-61 | no materials, a null `mtllib`, or an MTL file that fails to parse leaves both maps unchanged |
| Materials.EveryMaterialResolved | src/main/java/fr/thinkbit/hytale/objimporter/ObjImportService.java:64-92 | every material gets an id that depends only on its own entry: the texture's block, else the entry already there, else the diffuse colour's block. So a texture failure affects no other material. Names outside the library keep their entries |
| Materials.TexturesLoaded | src/main/java/fr/thinkbit/hytale/objimporter/ObjImportService.java:68-83 | `textures` gains exactly the materials whose texture is named and decodes, even when averaging it then fails. Other names keep their entries |
| Materials.FreshLoad | src/main/java/fr/thinkbit/hytale/objimporter/ObjImportService.java:33-35 | on the fresh maps of `importObj`, the block-id map's keys are exactly the material names. Each name maps to closest(average) when the texture is named, decodes and averages, and to closest(diffuse) otherwise |
| Placement.NameCacheStep | src/main/java/fr/thinkbit/hytale/objimporter/ObjImportService.java:110-118 | visiting an occupied cell adds its id, with its name, exactly when the id is positive, not cached yet and known to the registry |
| Placement.CacheCell | src/main/java/fr/thinkbit/hytale/objimporter/ObjImportService.java:110-118 | the first pass's loop body takes the cache of the cells before (bx, by, bz) to the cache of the cells up to and including it |
| Placement.CacheColumn | src/main/java/fr/thinkbit/hytale/objimporter/ObjImportService.java:109-119 | the `bz` loop takes the cache from the start of the column (bx, by) to the start of the next column |
| Placement.CachePlane | src/main/java/fr/thinkbit/hytale/objimporter/ObjImportService.java:108-120 | the `by` loop takes the cache from the start of plane bx to the start of the next plane |
| Placement.BuildNameCache | src/main/java/fr/thinkbit/hytale/objimporter/ObjImportService.java:106-121 | the cache holds exactly the ids that are positive, found at an occupied cell and resolved by the registry, each mapped to the registry's name |
| Placement.CachedIffResolves | src/main/java/fr/thinkbit/hytale/objimporter/ObjImportService.java:112-116 | after the first pass an occupied cell's id is cached exactly when it is positive and the registry resolves it, and it is cached under the registry's name |
| Placement.Target | src/main/java/fr/thinkbit/hytale/objimporter/ObjImportService.java:135-137 | the world position of a cell is origin plus offset in Java `int` arithmetic, and subtracting the origin gives the cell back, overflow included |
| Placement.TargetInjective | src/main/java/fr/thinkbit/hytale/objimporter/ObjImportService.java:135-137 | distinct cells go to distinct world positions, so no two cells write the same block |
| Placement.CommitPlaced | src/main/java/fr/thinkbit/hytale/objimporter/ObjImportService.java:134-139 | setting a cached cell's block at its target and counting it keeps the pass state `Committed` |
| Placement.CommitSkipped | src/main/java/fr/thinkbit/hytale/objimporter/ObjImportService.java:140-141 | counting an uncached cell as skipped, with no write, keeps the pass state `Committed` |
| Placement.PlaceOccupied | src/main/java/fr/thinkbit/hytale/objimporter/ObjImportService.java:132-142 | at an occupied cell: one `setBlock` at origin + offset with the cached name and placed + 1, or skipped + 1 and no write |
| Placement.PlaceCell | src/main/java/fr/thinkbit/hytale/objimporter/ObjImportService.java:131-143 | the second pass's loop body keeps `Committed` from the cells before (bx, by, bz) to the cells up to and including it. An empty cell changes nothing |
| Placement.PlaceColumn | src/main/java/fr/thinkbit/hytale/objimporter/ObjImportService.java:130-144 | the second pass's `bz` loop keeps `Committed` across the column (bx, by) |
| Placement.PlacePlane | src/main/java/fr/thinkbit/hytale/objimporter/ObjImportService.java:129-145 | the second pass's `by` loop keeps `Committed` across plane bx |
| Placement.PlaceCells | src/main/java/fr/thinkbit/hytale/objimporter/ObjImportService.java:124-149 | after the second pass: world = old world + each cached cell's name at its target; placed and skipped count the cached and uncached occupied cells; the new writes are exactly those targets, each once; earlier log entries are untouched |
| Placement.CacheSelects | src/main/java/fr/thinkbit/hytale/objimporter/ObjImportService.java:112-141 | with the first pass's cache, the placed cells are exactly the occupied cells whose id the registry resolves, and the skipped cells are the rest |
| Placement.CacheWrites | src/main/java/fr/thinkbit/hytale/objimporter/ObjImportService.java:133-138 | with the first pass's cache, the second pass writes exactly the registry's names at the targets of the resolved cells |
| Placement.PlacedPlusSkipped | src/main/java/fr/thinkbit/hytale/objimporter/ObjImportService.java:125-146 | placed + skipped equals the number of occupied cells |
| Placement.PlacementIff | src/main/java/fr/thinkbit/hytale/objimporter/ObjImportService.java:131-139 | a world position is written exactly when it is the target of an occupied cell whose id resolves |
| Placement.PlacementOfResolved | src/main/java/fr/thinkbit/hytale/objimporter/ObjImportService.java:133-138 | a resolved cell's target gets the registry's name of the cell's id |
| Placement.SkippedNotPlaced | src/main/java/fr/thinkbit/hytale/objimporter/ObjImportService.java:133-141 | an occupied cell whose id is ≤ 0 or unknown to the registry causes no write at its target |
| Placement.WrittenOnce | src/main/java/fr/thinkbit/hytale/objimporter/ObjImportService.java:131-139 | in the write log, a resolved cell's target appears exactly once and a skipped cell's target never |
| Placement.PlaceBlocks | src/main/java/fr/thinkbit/hytale/objimporter/ObjImportService.java:99-150 | placed = number of resolved occupied cells; skipped = number of unresolved ones; their sum = number of occupied cells; world = old world + `PlacedBlocks`; the new log holds each target once |
| ImportService.ImportObj | src/main/java/fr/thinkbit/hytale/objimporter/ObjImportService.java:19-46 | a parse failure leaves the world untouched. Otherwise the mesh's materials are loaded into fresh maps, and the grid voxelized with the default block `findClosestBlock(128, 128, 128)` is placed at (x, y, z) as `PlaceBlocks` states |

## Left out

- The host library's OBJ and MTL parsers, `MeshVoxelizer`, `TextureSampler`, `BlockColorIndex` and the block registry (`BlockType.getAssetMap()`) are not part of this model. They are functions in `Library`. The voxel grid is assumed to have the shape its sizes announce, and the functions that return no `Option` are assumed never to throw.
- `BufferedImage` contents: a texture is an opaque `Image` handle.
- Path resolution (`getParent().resolve`): the oracles take the relative names. Where a path is null, the oracle for it is not called.
- Logger messages: they are I/O. The lookup of the default block's name, which only feeds a log line, is one of them.
- `world.execute` hands the second pass to the world's task queue. Here the second pass runs synchronously, inside `PlaceBlocks`, with no other writer.
- Exceptions thrown midway by `findClosestBlock` or `getDiffuseColorRGB` are not modelled: those oracles are total. An MTL parse failure is modelled, and it happens before any entry is written.
- `MtlParser.parse` returns a `Map` whose iteration order the service does not fix. The loop takes the remaining keys in an arbitrary order, and the result is proved the same for every order.
- The `DEFAULT_BLOCK` tests (`ObjImportServiceTest.java:51-64`) refer to a constant that `ObjImportService.java` does not declare, so they have no behaviour to model.
- `ImportObjCommand.java` (command-argument wiring and file-exists checks) and `ObjImporterPlugin.java` (plugin registration) are not part of this model.
- PlaceBlocks: `placed` and `skipped` are unbounded naturals. Java's `int` counters would wrap after 2^31 - 1 cells, and this model does not capture that.
- ImportObj: when the OBJ file fails to parse, the exception is returned as the `ParseFailed` outcome instead of being thrown.
- ImportObj: `MeshVoxelizer.voxelize` and the construction of `BlockColorIndex` (`ObjImportService.java:27`, `38-39`) are taken never to throw. In the code, an exception from either ends `importObj` with the world untouched. The model instead always reaches `Imported` once the OBJ file parses.
