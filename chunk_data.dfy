/**
 * One entry of the chunk store: the chunk's root object and the objects
 * spawned into it, and their teardown.
 */
module ChunkStore {
  import opened WorldCoordinates
  import opened Engine

  /** The non-null references of `s`, in order. */
  function NonNull(s: seq<Option<Handle>>): (r: seq<Handle>)
    ensures |r| <= |s|
  {
    if s == [] then []
    else
      var front := NonNull(s[..|s| - 1]);
      match s[|s| - 1]
      case None => front
      case Some(h) => front + [h]
  }

  /** `NonNull` keeps exactly the handles that occur in `s`. */
  lemma {:induction false} NonNullMembers(s: seq<Option<Handle>>, h: Handle)
    ensures h in NonNull(s) <==> Some(h) in s
  {
    if s != [] {
      assert s == s[..|s| - 1] + [s[|s| - 1]];
      NonNullMembers(s[..|s| - 1], h);
    }
  }

  /** The objects a chunk entry owns: its root object, then the spawned objects. */
  function OwnedHandles(chunkObject: Option<Handle>, objects: seq<Option<Handle>>): (r: seq<Handle>)
    ensures chunkObject.None? && objects == [] ==> r == []
    ensures |r| <= 1 + |objects|
  {
    (match chunkObject case None => [] case Some(h) => [h]) + NonNull(objects)
  }

  /** An entry owns its root object and every spawned object still referenced, and nothing else. */
  lemma OwnedHandlesMembers(chunkObject: Option<Handle>, objects: seq<Option<Handle>>, h: Handle)
    ensures h in OwnedHandles(chunkObject, objects) <==> chunkObject == Some(h) || Some(h) in objects
  {
    NonNullMembers(objects, h);
  }

  class ChunkData {
    var chunkIndex: ChunkIndex
    var chunkObject: Option<Handle>
    var isLoaded: bool
    var objects: seq<Option<Handle>>

    constructor (index: ChunkIndex)
      ensures chunkIndex == index && chunkObject == None && !isLoaded && objects == []
    {
      chunkIndex := index;
      chunkObject := None;
      isLoaded := false;
      objects := [];
    }

    /**
     * Destroys the root object and every spawned object that is still
     * referenced, then forgets them. A second call destroys nothing.
     */
    method Unload(host: Host)
      modifies this, host
      ensures chunkIndex == old(chunkIndex)
      ensures chunkObject == None && objects == [] && !isLoaded
      ensures host.destroyed == old(host.destroyed) + OwnedHandles(old(chunkObject), old(objects))
      ensures host.created == old(host.created)
    {
      if chunkObject.Some? {
        host.Destroy(chunkObject.value);
        chunkObject := None;
      }
      assert objects == old(objects);
      ghost var before := host.destroyed;
      var i := 0;
      while i < |objects|
        modifies host
        invariant 0 <= i <= |objects|
        invariant host.destroyed == before + NonNull(objects[..i])
        invariant host.created == old(host.created)
      {
        assert objects[..i + 1][..i] == objects[..i];
        if objects[i].Some? {
          host.Destroy(objects[i].value);
        }
        i := i + 1;
      }
      assert objects[..|objects|] == objects;
      objects := [];
      isLoaded := false;
    }
  }
}
