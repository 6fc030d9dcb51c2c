/**
 * The floating-origin component: when the player strays farther than a
 * threshold from the engine's origin, the whole scene is moved back by the
 * player's position, the player is put at the origin, and an accumulated
 * offset remembers where the engine's origin lies in the world.
 */
module FloatingOrigins {
  import opened Numerics
  import opened Vectors

  /** A transform the component holds a reference to: the player's. */
  class Transform {
    var position: Vector3

    constructor (position: Vector3)
      ensures this.position == position
    {
      this.position := position;
    }
  }

  /**
   * A game object of the scene other than the player's own: its position
   * relative to its parent (the world position when it has none), whether
   * it has no parent, whether it is on the "UI" layer, and whether it is
   * the player's transform or one of its descendants.
   */
  datatype SceneObject = SceneObject(position: Vector3, isRoot: bool, onUILayer: bool, underPlayer: bool)

  /**
   * A particle system: whether it simulates in world space, whether it is
   * under the player, its `main.maxParticles`, and the positions of its
   * live particles.
   */
  datatype ParticleSystem = ParticleSystem(worldSpace: bool, underPlayer: bool, maxParticles: nat,
                                           particles: seq<Vector3>)

  /** A trail renderer: whether it is under the player, and the points of its trail. */
  datatype TrailRenderer = TrailRenderer(underPlayer: bool, points: seq<Vector3>)

  /** A rigidbody: whether its transform is the player's or under it. */
  datatype Rigidbody = Rigidbody(underPlayer: bool)

  /** What `FindObjectsOfType` returns for each kind the component touches. */
  class Scene {
    var objects: seq<SceneObject>
    var particleSystems: seq<ParticleSystem>
    var trails: seq<TrailRenderer>
    var rigidbodies: seq<Rigidbody>

    constructor (objects: seq<SceneObject>, particleSystems: seq<ParticleSystem>,
                 trails: seq<TrailRenderer>, rigidbodies: seq<Rigidbody>)
      ensures this.objects == objects && this.particleSystems == particleSystems
      ensures this.trails == trails && this.rigidbodies == rigidbodies
    {
      this.objects := objects;
      this.particleSystems := particleSystems;
      this.trails := trails;
      this.rigidbodies := rigidbodies;
    }
  }

  // ------------------------------------------------------------ the trigger

  /**
   * `position.magnitude > threshold`, decided on the squared magnitude: a
   * negative threshold is exceeded by every position.
   */
  predicate ExceedsThreshold(position: Vector3, threshold: real) {
    threshold < 0.0 || SqrMagnitude(position) > threshold * threshold
  }

  /** The squared test agrees with the strict test on the magnitude itself. */
  lemma MagnitudeTest(magnitude: real, position: Vector3, threshold: real)
    requires magnitude >= 0.0 && magnitude * magnitude == SqrMagnitude(position)
    ensures magnitude > threshold <==> ExceedsThreshold(position, threshold)
  {
    if threshold >= 0.0 {
      if magnitude > threshold {
        assert magnitude * magnitude - threshold * threshold
          == (magnitude - threshold) * (magnitude + threshold);
        PositiveProduct(magnitude - threshold, magnitude + threshold);
      } else {
        assert threshold * threshold - magnitude * magnitude
          == (threshold - magnitude) * (threshold + magnitude);
        assert (threshold - magnitude) * (threshold + magnitude) >= 0.0;
      }
    }
  }

  lemma PositiveProduct(a: real, b: real)
    requires a > 0.0 && b > 0.0
    ensures a * b > 0.0
  {
  }

  // -------------------------------------------------------------- the shift

  /** The root-object pass moves exactly the roots that are neither under the player nor UI. */
  predicate Moves(o: SceneObject) {
    o.isRoot && !o.underPlayer && !o.onUILayer
  }

  function ShiftedObject(o: SceneObject, offset: Vector3): SceneObject {
    if Moves(o) then o.(position := Sub(o.position, offset)) else o
  }

  function ShiftedObjects(objects: seq<SceneObject>, offset: Vector3): seq<SceneObject> {
    seq(|objects|, i requires 0 <= i < |objects| => ShiftedObject(objects[i], offset))
  }

  /** The particle pass handles exactly the world-space systems not under the player. */
  predicate ShiftsParticles(ps: ParticleSystem) {
    ps.worldSpace && !ps.underPlayer
  }

  /** How many particles `GetParticles` copies into a buffer of `maxParticles` entries. */
  function ParticleCount(ps: ParticleSystem): nat {
    if |ps.particles| < ps.maxParticles then |ps.particles| else ps.maxParticles
  }

  /**
   * A handled system keeps its first `ParticleCount` particles, each moved
   * by `-offset`; any particle beyond the buffer is lost by `SetParticles`.
   */
  function ShiftedSystem(ps: ParticleSystem, offset: Vector3): ParticleSystem {
    if !ShiftsParticles(ps) then ps
    else
      ps.(particles := seq(ParticleCount(ps), i requires 0 <= i < ParticleCount(ps) =>
        Sub(ps.particles[i], offset)))
  }

  function ShiftedSystems(systems: seq<ParticleSystem>, offset: Vector3): seq<ParticleSystem> {
    seq(|systems|, i requires 0 <= i < |systems| => ShiftedSystem(systems[i], offset))
  }

  /** `TrailRenderer.Clear` on every trail not under the player. */
  function ClearedTrail(t: TrailRenderer): TrailRenderer {
    if t.underPlayer then t else t.(points := [])
  }

  function ClearedTrails(trails: seq<TrailRenderer>): seq<TrailRenderer> {
    seq(|trails|, i requires 0 <= i < |trails| => ClearedTrail(trails[i]))
  }

  /**
   * Moving the origin by `offset` and a position by `-offset` keeps the
   * position's place in the world.
   */
  lemma ShiftKeepsWorldPosition(totalOffset: Vector3, offset: Vector3, position: Vector3)
    ensures Add(Add(totalOffset, offset), Sub(position, offset)) == Add(totalOffset, position)
  {
  }

  /**
   * What the root-object pass does to one object: an object it moves stays
   * where it was in the world once the origin has moved by `offset`; any
   * other object is left as it was; nothing but the position changes.
   */
  lemma ObjectShift(totalOffset: Vector3, offset: Vector3, o: SceneObject)
    ensures ShiftedObject(o, offset) == o.(position := ShiftedObject(o, offset).position)
    ensures Moves(o) ==>
      Add(Add(totalOffset, offset), ShiftedObject(o, offset).position) == Add(totalOffset, o.position)
    ensures !Moves(o) ==> ShiftedObject(o, offset) == o
  {
    ShiftKeepsWorldPosition(totalOffset, offset, o.position);
  }

  /**
   * What the particle pass does to one system: a handled system whose live
   * particles fit its buffer keeps every particle where it was in the world
   * once the origin has moved by `offset`; any other system is left as it was.
   */
  lemma ParticleShift(totalOffset: Vector3, offset: Vector3, ps: ParticleSystem)
    ensures !ShiftsParticles(ps) ==> ShiftedSystem(ps, offset) == ps
    ensures ShiftsParticles(ps) && |ps.particles| <= ps.maxParticles ==>
      && |ShiftedSystem(ps, offset).particles| == |ps.particles|
      && forall i :: 0 <= i < |ps.particles| ==>
        Add(Add(totalOffset, offset), ShiftedSystem(ps, offset).particles[i]) == Add(totalOffset, ps.particles[i])
  {
    if ShiftsParticles(ps) && |ps.particles| <= ps.maxParticles {
      forall i | 0 <= i < |ps.particles|
        ensures Add(Add(totalOffset, offset), ShiftedSystem(ps, offset).particles[i]) == Add(totalOffset, ps.particles[i])
      {
        ShiftKeepsWorldPosition(totalOffset, offset, ps.particles[i]);
      }
    }
  }

  /**
   * `ParticleSystem.GetParticles`: copies as many live particles as the
   * buffer holds and returns how many it copied.
   */
  method GetParticles(ps: ParticleSystem, buffer: array<Vector3>) returns (count: nat)
    modifies buffer
    ensures count == (if |ps.particles| < buffer.Length then |ps.particles| else buffer.Length)
    ensures buffer[..count] == ps.particles[..count]
  {
    count := if |ps.particles| < buffer.Length then |ps.particles| else buffer.Length;
    for i := 0 to count
      invariant buffer[..i] == ps.particles[..i]
    {
      buffer[i] := ps.particles[i];
      assert buffer[..i + 1] == buffer[..i] + [buffer[i]];
      assert ps.particles[..i + 1] == ps.particles[..i] + [ps.particles[i]];
    }
  }

  // ------------------------------------------------------------- component

  class FloatingOrigin {
    const player: Transform?
    const scene: Scene
    const threshold: real
    const autoShift: bool
    const shiftParticles: bool
    const shiftRigidbodies: bool
    const shiftTrailRenderers: bool
    var totalOffset: Vector3
    var shiftCount: Int32

    /** The serialized defaults are a threshold of 1000 with every switch on. */
    constructor (player: Transform?, scene: Scene, threshold: real, autoShift: bool,
                 shiftParticles: bool, shiftRigidbodies: bool, shiftTrailRenderers: bool)
      ensures this.player == player && this.scene == scene && this.threshold == threshold
      ensures this.autoShift == autoShift && this.shiftParticles == shiftParticles
      ensures this.shiftRigidbodies == shiftRigidbodies && this.shiftTrailRenderers == shiftTrailRenderers
      ensures totalOffset == Zero && shiftCount == 0
    {
      this.player := player;
      this.scene := scene;
      this.threshold := threshold;
      this.autoShift := autoShift;
      this.shiftParticles := shiftParticles;
      this.shiftRigidbodies := shiftRigidbodies;
      this.shiftTrailRenderers := shiftTrailRenderers;
      totalOffset := Zero;
      shiftCount := 0;
    }

    /** Where an engine position lies in the world: taking the offset away again gives the engine position. */
    function UnityToWorldPosition(unityPos: Vector3): (r: Vector3)
      reads this
      ensures Sub(r, totalOffset) == unityPos
      ensures totalOffset == Zero ==> r == unityPos
    {
      Add(totalOffset, unityPos)
    }

    /** The engine position of a world position: the one `UnityToWorldPosition` maps to it. */
    function WorldToUnityPosition(worldPos: Vector3): (r: Vector3)
      reads this
      ensures UnityToWorldPosition(r) == worldPos
    {
      Sub(worldPos, totalOffset)
    }

    /** The conversions are inverse in the other order too. */
    lemma UnityRoundTrip(unityPos: Vector3)
      ensures WorldToUnityPosition(UnityToWorldPosition(unityPos)) == unityPos
    {
    }

    /** The player's world position; the offset alone when there is no player. */
    function GetPlayerWorldPosition(): (r: Vector3)
      reads this, player
      ensures player != null ==> r == UnityToWorldPosition(player.position)
      ensures player == null ==> r == UnityToWorldPosition(Zero)
    {
      if player == null then totalOffset else Add(totalOffset, player.position)
    }

    /** The state after a shift of the scene by `offset`, under the component's switches. */
    twostate predicate SceneShifted(offset: Vector3)
      reads this, scene
    {
      && scene.objects == ShiftedObjects(old(scene.objects), offset)
      && scene.particleSystems
        == (if shiftParticles then ShiftedSystems(old(scene.particleSystems), offset) else old(scene.particleSystems))
      && scene.trails == (if shiftTrailRenderers then ClearedTrails(old(scene.trails)) else old(scene.trails))
      && scene.rigidbodies == old(scene.rigidbodies)
    }

    /** The state after an origin shift by the player's old position. */
    twostate predicate OriginShifted()
      requires player != null
      reads this, player, scene
    {
      && totalOffset == Add(old(totalOffset), old(player.position))
      && shiftCount == Add32(old(shiftCount), 1)
      && player.position == Zero
      && SceneShifted(old(player.position))
    }

    /** Nothing the component can change has changed. */
    twostate predicate Untouched()
      reads this, player, scene
    {
      && totalOffset == old(totalOffset)
      && shiftCount == old(shiftCount)
      && (player != null ==> player.position == old(player.position))
      && unchanged(scene)
    }

    /** Shifts when auto-shift is on and the player is farther than the threshold. */
    method Update()
      modifies this`totalOffset, this`shiftCount, player, scene
      ensures autoShift && player != null && ExceedsThreshold(old(player.position), threshold) ==> OriginShifted()
      ensures !(autoShift && player != null && ExceedsThreshold(old(player.position), threshold)) ==> Untouched()
    {
      if !autoShift || player == null {
        return;
      }
      if ExceedsThreshold(player.position, threshold) {
        PerformOriginShift();
      }
    }

    /**
     * Adds the player's position to the offset, counts the shift (an
     * `int` that wraps), moves the scene back by it and puts the player
     * at the origin; without a player nothing happens. The player's world
     * position and that of every moved root object are kept.
     */
    method PerformOriginShift()
      modifies this`totalOffset, this`shiftCount, player, scene
      ensures player == null ==> Untouched()
      ensures player != null ==> OriginShifted()
      ensures player != null ==> GetPlayerWorldPosition() == old(GetPlayerWorldPosition())
      ensures forall i :: 0 <= i < |scene.objects| && player != null && Moves(old(scene.objects[i])) ==>
        UnityToWorldPosition(scene.objects[i].position) == old(UnityToWorldPosition(scene.objects[i].position))
    {
      if player == null {
        return;
      }
      var offset := player.position;
      totalOffset := Add(totalOffset, offset);
      shiftCount := Add32(shiftCount, 1);
      ShiftAllObjects(offset);
      player.position := Zero;
      forall i | 0 <= i < |scene.objects| && Moves(old(scene.objects[i]))
        ensures UnityToWorldPosition(scene.objects[i].position) == old(UnityToWorldPosition(scene.objects[i].position))
      {
        ObjectShift(old(totalOffset), offset, old(scene.objects[i]));
      }
    }

    /** The context-menu command: a shift whatever the distance. */
    method ForceOriginShift()
      modifies this`totalOffset, this`shiftCount, player, scene
      ensures player == null ==> Untouched()
      ensures player != null ==> OriginShifted()
    {
      PerformOriginShift();
    }

    /** Moves the root objects, then runs the passes that are switched on. */
    method ShiftAllObjects(offset: Vector3)
      modifies scene
      ensures SceneShifted(offset)
    {
      var i := 0;
      while i < |scene.objects|
        invariant 0 <= i <= |scene.objects| == |old(scene.objects)|
        invariant forall k :: 0 <= k < i ==> scene.objects[k] == ShiftedObject(old(scene.objects)[k], offset)
        invariant forall k :: i <= k < |scene.objects| ==> scene.objects[k] == old(scene.objects)[k]
        invariant unchanged(scene`particleSystems, scene`trails, scene`rigidbodies)
      {
        var obj := scene.objects[i];
        if Moves(obj) {
          scene.objects := scene.objects[i := obj.(position := Sub(obj.position, offset))];
        }
        i := i + 1;
      }
      if shiftParticles {
        ShiftParticleSystems(offset);
      }
      if shiftRigidbodies {
        ShiftRigidbodies(offset);
      }
      if shiftTrailRenderers {
        ShiftTrailRenderers();
      }
    }

    /**
     * For each handled system: read its particles into a buffer of
     * `maxParticles` entries, move the copied ones by `-offset`, and write
     * them back.
     */
    method ShiftParticleSystems(offset: Vector3)
      modifies scene`particleSystems
      ensures scene.particleSystems == ShiftedSystems(old(scene.particleSystems), offset)
    {
      var j := 0;
      while j < |scene.particleSystems|
        invariant 0 <= j <= |scene.particleSystems| == |old(scene.particleSystems)|
        invariant forall k :: 0 <= k < j ==>
          scene.particleSystems[k] == ShiftedSystem(old(scene.particleSystems)[k], offset)
        invariant forall k :: j <= k < |scene.particleSystems| ==>
          scene.particleSystems[k] == old(scene.particleSystems)[k]
      {
        var ps := scene.particleSystems[j];
        if ShiftsParticles(ps) {
          var buffer := new Vector3[ps.maxParticles](_ => Zero);
          var count := GetParticles(ps, buffer);
          for i := 0 to count
            modifies buffer
            invariant forall k :: 0 <= k < i ==> buffer[k] == Sub(ps.particles[k], offset)
            invariant forall k :: i <= k < count ==> buffer[k] == ps.particles[k]
          {
            buffer[i] := Sub(buffer[i], offset);
          }
          assert buffer[..count] == ShiftedSystem(ps, offset).particles;
          scene.particleSystems := scene.particleSystems[j := ps.(particles := buffer[..count])];
        }
        j := j + 1;
      }
    }

    /** Visits every rigidbody not under the player and changes nothing. */
    method ShiftRigidbodies(offset: Vector3)
      ensures unchanged(this, scene)
      ensures player != null ==> unchanged(player)
    {
      var i := 0;
      while i < |scene.rigidbodies|
        invariant 0 <= i <= |scene.rigidbodies|
      {
        i := i + 1;
      }
    }

    /** Clears every trail not under the player. */
    method ShiftTrailRenderers()
      modifies scene`trails
      ensures scene.trails == ClearedTrails(old(scene.trails))
    {
      var i := 0;
      while i < |scene.trails|
        invariant 0 <= i <= |scene.trails| == |old(scene.trails)|
        invariant forall k :: 0 <= k < i ==> scene.trails[k] == ClearedTrail(old(scene.trails)[k])
        invariant forall k :: i <= k < |scene.trails| ==> scene.trails[k] == old(scene.trails)[k]
      {
        if !scene.trails[i].underPlayer {
          scene.trails := scene.trails[i := scene.trails[i].(points := [])];
        }
        i := i + 1;
      }
    }

    /** Forgets the offset and the count; no object moves. */
    method ResetOrigin()
      modifies this`totalOffset, this`shiftCount
      ensures totalOffset == Zero && shiftCount == 0
    {
      totalOffset := Zero;
      shiftCount := 0;
    }
  }
}
