/**
 * The host engine seen from the world-streaming code: game objects are
 * opaque handles, and the engine keeps a log of every object it was asked
 * to create (with what it was created from) and of every destroy request.
 */
module Engine {
  import opened WorldCoordinates
  import opened Vectors

  /** A possibly-null reference. */
  datatype Option<+T> = None | Some(value: T)

  /** A game object; the n-th created object has handle n. */
  type Handle = nat

  /** What a game object was created for, with the values that decide it. */
  datatype Creation =
    | ChunkRoot(chunk: ChunkIndex, position: Vector3)
    | ProceduralTerrain(chunk: ChunkIndex, seed: int, resolution: int)
    | TerrainPrefab(chunk: ChunkIndex, prefabIndex: nat)
    | Prop(chunk: ChunkIndex, prefabIndex: nat, localX: real, localZ: real, rotation: real)

  class Host {
    var created: seq<Creation>
    var destroyed: seq<Handle>

    constructor ()
      ensures created == [] && destroyed == []
    {
      created, destroyed := [], [];
    }

    /** `new GameObject` / `Instantiate`: a fresh handle, logged with its purpose. */
    method Create(what: Creation) returns (h: Handle)
      modifies this
      ensures h == |old(created)|
      ensures created == old(created) + [what]
      ensures destroyed == old(destroyed)
    {
      h := |created|;
      created := created + [what];
    }

    /** `Object.Destroy`. */
    method Destroy(h: Handle)
      modifies this
      ensures destroyed == old(destroyed) + [h]
      ensures created == old(created)
    {
      destroyed := destroyed + [h];
    }
  }
}
