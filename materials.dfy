/** `ObjImportService.loadMaterials`: which block each MTL material becomes. */
module Materials {
  import opened Wrappers
  import opened JavaInt
  import opened Host
  import opened Maps

  /** The image `loadTexture` decodes for `mat`, when it names a texture that decodes. */
  function TextureImage(lib: Library, mat: Material): (img: Option<Image>)
  {
    match mat.diffuseTexturePath
    case None => None
    case Some(path) => lib.loadTexture(path)
  }

  /**
   * The block chosen from `mat`'s texture: present exactly when the texture is
   * named, decodes and can be averaged; then the block nearest its average colour.
   */
  function TextureBlock(lib: Library, mat: Material): (id: Option<Int32>)
  {
    match mat.diffuseTexturePath
    case None => None
    case Some(path) =>
      if lib.loadTexture(path).None? then None
      else match lib.averageColor(path)
        case None => None
        case Some(avg) => Some(lib.findClosestBlock(avg))
  }

  /** The precedence policy: the texture's block when there is one, else the block nearest the diffuse colour. */
  function MaterialBlock(lib: Library, mat: Material): (id: Int32)
  {
    match TextureBlock(lib, mat)
    case Some(id) => id
    case None => lib.findClosestBlock(mat.diffuseRgb)
  }

  /** The `textures` entries written for the materials `names`. */
  function LoadedTextures(lib: Library, mats: map<string, Material>, names: set<string>): (textures: map<string, Image>)
  {
    map n | n in names && n in mats && TextureImage(lib, mats[n]).Some? :: TextureImage(lib, mats[n]).value
  }

  /**
   * The `materialBlockIds` entries written for the materials `names` over a map
   * that held `prior` before the call: a texture block always, the diffuse block
   * only for a name that had no entry yet.
   */
  function ResolvedIds(lib: Library, mats: map<string, Material>, names: set<string>,
                       prior: map<string, Int32>): (ids: map<string, Int32>)
  {
    map n | n in names && n in mats && (TextureBlock(lib, mats[n]).Some? || n !in prior) :: MaterialBlock(lib, mats[n])
  }

  /** Whether `loadMaterials` gets past its guard: the mesh uses materials and names a library. */
  predicate UsesMaterialLibrary(mesh: Mesh)
  {
    mesh.hasMaterials && mesh.mtlLib.Some?
  }

  /**
   * The pair (`textures`, `materialBlockIds`) after `loadMaterials` on maps that
   * held (`textures0`, `ids0`); a failed MTL parse is caught and changes nothing.
   */
  function LoadedMaterials(lib: Library, mesh: Mesh, textures0: map<string, Image>, ids0: map<string, Int32>)
    : (loaded: (map<string, Image>, map<string, Int32>))
  {
    if !UsesMaterialLibrary(mesh) then (textures0, ids0)
    else match lib.parseMtl(mesh.mtlLib.value)
      case None => (textures0, ids0)
      case Some(mats) =>
        (textures0 + LoadedTextures(lib, mats, mats.Keys), ids0 + ResolvedIds(lib, mats, mats.Keys, ids0))
  }

  /** One more material processed adds at most its own texture entry. */
  lemma LoadedTexturesStep(lib: Library, mats: map<string, Material>, done: set<string>, name: string)
    requires name in mats
    ensures LoadedTextures(lib, mats, done + {name}) ==
      if TextureImage(lib, mats[name]).Some?
      then LoadedTextures(lib, mats, done)[name := TextureImage(lib, mats[name]).value]
      else LoadedTextures(lib, mats, done)
  {
  }

  /** One more material processed adds at most its own block entry. */
  lemma ResolvedIdsStep(lib: Library, mats: map<string, Material>, done: set<string>,
                        prior: map<string, Int32>, name: string)
    requires name in mats
    ensures ResolvedIds(lib, mats, done + {name}, prior) ==
      if TextureBlock(lib, mats[name]).Some? || name !in prior
      then ResolvedIds(lib, mats, done, prior)[name := MaterialBlock(lib, mats[name])]
      else ResolvedIds(lib, mats, done, prior)
  {
  }

  /**
   * The body of the loop in `loadMaterials` for the entry (`name`, `mat`): the
   * texture branch inside its try/catch, then the diffuse fallback when
   * `materialBlockIds` still lacks the name.
   */
  method LoadMaterial(lib: Library, name: string, mat: Material,
                      textures: MutableMap<string, Image>, materialBlockIds: MutableMap<string, Int32>)
    modifies textures, materialBlockIds
    ensures textures.entries ==
      if TextureImage(lib, mat).Some? then old(textures.entries)[name := TextureImage(lib, mat).value]
      else old(textures.entries)
    ensures materialBlockIds.entries ==
      if TextureBlock(lib, mat).Some? || name !in old(materialBlockIds.entries)
      then old(materialBlockIds.entries)[name := MaterialBlock(lib, mat)]
      else old(materialBlockIds.entries)
  {
    if mat.diffuseTexturePath.Some? {
      var texPath := mat.diffuseTexturePath.value;
      var tex := lib.loadTexture(texPath);
      if tex.Some? {
        textures.Put(name, tex.value);
        var avgColor := lib.averageColor(texPath);
        if avgColor.Some? {
          var blockId := lib.findClosestBlock(avgColor.value);
          materialBlockIds.Put(name, blockId);
        }
      }
    }
    var known := materialBlockIds.ContainsKey(name);
    if !known {
      var blockId := lib.findClosestBlock(mat.diffuseRgb);
      materialBlockIds.Put(name, blockId);
    }
  }

  /**
   * `loadMaterials(mesh, objPath, textures, materialBlockIds, colorIndex, logger)`:
   * the entries of the MTL library are visited in the map's (unspecified) order;
   * a texture that fails to decode or average is skipped and the material falls
   * back to its diffuse colour, unless it already had an entry.
   */
  method LoadMaterials(lib: Library, mesh: Mesh,
                       textures: MutableMap<string, Image>, materialBlockIds: MutableMap<string, Int32>)
    modifies textures, materialBlockIds
    ensures (textures.entries, materialBlockIds.entries)
         == LoadedMaterials(lib, mesh, old(textures.entries), old(materialBlockIds.entries))
  {
    if !mesh.hasMaterials || mesh.mtlLib.None? {
      return;
    }
    var parsed := lib.parseMtl(mesh.mtlLib.value);
    if parsed.None? {
      return;
    }
    var materials := parsed.value;
    ghost var textures0, ids0 := textures.entries, materialBlockIds.entries;
    var remaining := materials.Keys;
    ghost var done: set<string> := {};
    while remaining != {}
      invariant remaining + done == materials.Keys && remaining !! done
      invariant textures.entries == textures0 + LoadedTextures(lib, materials, done)
      invariant materialBlockIds.entries == ids0 + ResolvedIds(lib, materials, done, ids0)
      decreases remaining
    {
      var name :| name in remaining;
      ghost var before := materialBlockIds.entries;
      LoadMaterial(lib, name, materials[name], textures, materialBlockIds);
      LoadedTexturesStep(lib, materials, done, name);
      ResolvedIdsStep(lib, materials, done, ids0, name);
      assert name in before <==> name in ids0;
      if TextureImage(lib, materials[name]).Some? {
        UnionUpdate(textures0, LoadedTextures(lib, materials, done), name, TextureImage(lib, materials[name]).value);
      }
      if TextureBlock(lib, materials[name]).Some? || name !in ids0 {
        UnionUpdate(ids0, ResolvedIds(lib, materials, done, ids0), name, MaterialBlock(lib, materials[name]));
      }
      remaining := remaining - {name};
      done := done + {name};
    }
  }

  /** Without a material library, or when it fails to parse, neither map changes. */
  lemma NoLibraryNoChange(lib: Library, mesh: Mesh, textures0: map<string, Image>, ids0: map<string, Int32>)
    requires !mesh.hasMaterials || mesh.mtlLib.None? || lib.parseMtl(mesh.mtlLib.value).None?
    ensures LoadedMaterials(lib, mesh, textures0, ids0) == (textures0, ids0)
  {
  }

  /**
   * Every material of the library ends up with a block id, and that id depends
   * only on the material's own entry: the texture's block when the texture
   * loads and averages, the entry already there when it does not, otherwise the
   * diffuse colour's block. A failing texture thus affects no other material.
   * Names outside the library keep their entries.
   */
  lemma EveryMaterialResolved(lib: Library, mesh: Mesh, mats: map<string, Material>,
                              textures0: map<string, Image>, ids0: map<string, Int32>, n: string)
    requires UsesMaterialLibrary(mesh) && lib.parseMtl(mesh.mtlLib.value) == Some(mats)
    ensures n in mats ==> n in LoadedMaterials(lib, mesh, textures0, ids0).1
    ensures n in mats && TextureBlock(lib, mats[n]).Some? ==>
      LoadedMaterials(lib, mesh, textures0, ids0).1[n] == TextureBlock(lib, mats[n]).value
    ensures n in mats && TextureBlock(lib, mats[n]).None? && n in ids0 ==>
      LoadedMaterials(lib, mesh, textures0, ids0).1[n] == ids0[n]
    ensures n in mats && TextureBlock(lib, mats[n]).None? && n !in ids0 ==>
      LoadedMaterials(lib, mesh, textures0, ids0).1[n] == lib.findClosestBlock(mats[n].diffuseRgb)
    ensures n !in mats ==> (n in LoadedMaterials(lib, mesh, textures0, ids0).1 <==> n in ids0)
    ensures n !in mats && n in ids0 ==> LoadedMaterials(lib, mesh, textures0, ids0).1[n] == ids0[n]
  {
  }

  /**
   * The texture map gains exactly the materials whose texture is named and
   * decodes (whether or not it can then be averaged); other names keep their
   * entries.
   */
  lemma TexturesLoaded(lib: Library, mesh: Mesh, mats: map<string, Material>,
                       textures0: map<string, Image>, ids0: map<string, Int32>, n: string)
    requires UsesMaterialLibrary(mesh) && lib.parseMtl(mesh.mtlLib.value) == Some(mats)
    ensures n in mats && mats[n].diffuseTexturePath.Some? && lib.loadTexture(mats[n].diffuseTexturePath.value).Some? ==>
      n in LoadedMaterials(lib, mesh, textures0, ids0).0 &&
      LoadedMaterials(lib, mesh, textures0, ids0).0[n] == lib.loadTexture(mats[n].diffuseTexturePath.value).value
    ensures !(n in mats && mats[n].diffuseTexturePath.Some? && lib.loadTexture(mats[n].diffuseTexturePath.value).Some?) ==>
      (n in LoadedMaterials(lib, mesh, textures0, ids0).0 <==> n in textures0) &&
      (n in textures0 ==> LoadedMaterials(lib, mesh, textures0, ids0).0[n] == textures0[n])
  {
  }

  /**
   * Loading into the fresh maps `importObj` passes: each material gets exactly
   * one block id, the block nearest the texture's average colour when the
   * texture is named, decodes and averages, and the block nearest the diffuse
   * colour otherwise; no other name gets an entry.
   */
  lemma FreshLoad(lib: Library, mesh: Mesh, mats: map<string, Material>, n: string)
    requires UsesMaterialLibrary(mesh) && lib.parseMtl(mesh.mtlLib.value) == Some(mats)
    ensures LoadedMaterials(lib, mesh, map[], map[]).1.Keys == mats.Keys
    ensures n in mats ==>
              LoadedMaterials(lib, mesh, map[], map[]).1[n] ==
                (var mat := mats[n];
                 if mat.diffuseTexturePath.Some? && lib.loadTexture(mat.diffuseTexturePath.value).Some?
                    && lib.averageColor(mat.diffuseTexturePath.value).Some?
                 then lib.findClosestBlock(lib.averageColor(mat.diffuseTexturePath.value).value)
                 else lib.findClosestBlock(mat.diffuseRgb))
  {
    var ids := LoadedMaterials(lib, mesh, map[], map[]).1;
    forall m | m in mats
      ensures m in ids
    {
      EveryMaterialResolved(lib, mesh, mats, map[], map[], m);
    }
    EveryMaterialResolved(lib, mesh, mats, map[], map[], n);
  }
}
