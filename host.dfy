/**
 * What the import service reads from and writes to outside itself: the value
 * types of the host's builder-tools library (meshes, materials, voxel grids),
 * that library's parsers, sampler, voxelizer and colour index as opaque
 * oracles, the block-type registry, Java's `HashMap` as passed by reference,
 * and the world's block storage.
 */
module Host {
  import opened Wrappers
  import opened JavaInt

  /** A colour as the `int[3]` {r, g, b} the host library returns. */
  datatype Rgb = Rgb(r: Int32, g: Int32, b: Int32)

  /** A decoded texture (`BufferedImage`); its pixels are not modelled, only its identity. */
  datatype Image = Image(handle: nat)

  /** `MtlParser.MtlMaterial`: the diffuse colour `getDiffuseColorRGB` yields and the optional `map_Kd` path. */
  datatype Material = Material(diffuseRgb: Rgb, diffuseTexturePath: Option<string>)

  /**
   * `ObjParser.ObjMesh`, reduced to what the service itself reads: whether faces
   * reference materials and the `mtllib` name (null when absent). The geometry
   * is read only by the voxelizer and stands here as an opaque handle.
   */
  datatype Mesh = Mesh(geometry: nat, hasMaterials: bool, mtlLib: Option<string>)

  /** `MeshVoxelizer.VoxelResult`: an occupancy grid and a same-shaped grid of block ids. */
  datatype VoxelResult = VoxelResult(
    voxels: seq<seq<seq<bool>>>,
    blockIds: seq<seq<seq<Int32>>>,
    sizeX: Int32, sizeY: Int32, sizeZ: Int32)
  {
    /** Both arrays are sizeX x sizeY x sizeZ, as the placement loops index them. */
    ghost predicate Valid()
    {
      && 0 <= sizeX && 0 <= sizeY && 0 <= sizeZ
      && |voxels| == sizeX as int && |blockIds| == sizeX as int
      && (forall x :: 0 <= x < |voxels| ==> |voxels[x]| == sizeY as int && |blockIds[x]| == sizeY as int)
      && (forall x, y :: 0 <= x < |voxels| && 0 <= y < |voxels[x]| ==>
            |voxels[x][y]| == sizeZ as int && |blockIds[x][y]| == sizeZ as int)
    }
  }

  /** A voxel grid whose arrays have the shape its sizes announce. */
  type Grid = r: VoxelResult | r.Valid() witness VoxelResult([], [], 0, 0, 0)

  /**
   * The host library and registry, each as a function of its inputs. `None`
   * stands for an exception (for the parsers and the sampler) or for `null`
   * (for the registry). Relative paths are resolved inside the oracles.
   */
  datatype Library = Library(
    /** `ObjParser.parse(objPath)`. */
    parseObj: string -> Option<Mesh>,
    /** `MtlParser.parse` of the `mtllib` file next to the OBJ file. */
    parseMtl: string -> Option<map<string, Material>>,
    /** `TextureSampler.loadTexture` of a texture path next to the MTL file. */
    loadTexture: string -> Option<Image>,
    /** `TextureSampler.getAverageColor` of the same path. */
    averageColor: string -> Option<Rgb>,
    /** `BlockColorIndex.findClosestBlock(r, g, b)`. */
    findClosestBlock: Rgb -> Int32,
    /** `BlockType.getAssetMap().getAsset(id)`, then `getId()` when that is not null. */
    blockTypeName: Int32 -> Option<string>,
    /** `MeshVoxelizer.voxelize(mesh, height, solid, textures, materialBlockIds, colorIndex, defaultBlockId)`. */
    voxelize: (Mesh, Int32, bool, map<string, Image>, map<string, Int32>, Int32) -> Grid)

  /** A Java `HashMap` handed around by reference and updated in place. */
  class MutableMap<K(==), V> {
    var entries: map<K, V>

    constructor ()
      ensures entries == map[]
    {
      entries := map[];
    }

    /** `put(k, v)`. */
    method Put(k: K, v: V)
      modifies this
      ensures entries == old(entries)[k := v]
    {
      entries := entries[k := v];
    }

    /** `containsKey(k)`. */
    method ContainsKey(k: K) returns (b: bool)
      ensures b <==> k in entries
    {
      b := k in entries;
    }
  }

  /** A world position (x, y, z). */
  type Pos = (Int32, Int32, Int32)

  /** The world's block storage, with a log of every `setBlock` call made on it. */
  class World {
    var blocks: map<Pos, string>
    ghost var writes: seq<Pos>

    constructor (initial: map<Pos, string>)
      ensures blocks == initial && writes == []
    {
      blocks := initial;
      writes := [];
    }

    /** `world.setBlock(x, y, z, name)`. */
    method SetBlock(x: Int32, y: Int32, z: Int32, name: string)
      modifies this
      ensures blocks == old(blocks)[(x, y, z) := name]
      ensures writes == old(writes) + [(x, y, z)]
    {
      blocks := blocks[(x, y, z) := name];
      writes := writes + [(x, y, z)];
    }
  }
}
