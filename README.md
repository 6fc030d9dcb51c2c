# Infinite world streaming, modelled in Dafny

This project models the core of the `InfiniteWorld` Unity package. That core keeps a window of terrain chunks loaded around the player. Each chunk is generated deterministically from a world seed. A floating origin keeps coordinates near zero.

- **`WorldCoordinates`** (`WorldCoordinate.cs`): splits a world position into a chunk index and a local offset. Distance between chunks is L1.
- **`ChunkStore`** (`ChunkData.cs`): one loaded chunk. It holds its root object and the objects spawned into it. `Unload` destroys them.
- **`Generation`** (`WorldGenerator.cs`): the generator. Every decision comes from one 32-bit polynomial hash of seed, chunk index and salt. C# arithmetic is unchecked, so the hash wraps. `Math.Abs(int.MinValue)` throws `OverflowException`, and `% 0` throws `DivideByZeroException`; both are results, not preconditions. `ChunkContents` is the pure list of objects a chunk consists of, and `GenerateChunk` is proved to ask the engine for exactly that list.
- **`Terrain`** (`ProceduralTerrainGenerator.cs`): the index buffers of the terrain mesh, filled in arrays by loops as in the source. They are proved equal to a row-major vertex grid and two triangles per cell, with every index in range. The flat terrain is proved to be the resolution-1 grid.
- **`Streaming`** (`ChunkManager.cs`): the chunk manager. It has a map field, loops over the view square, and an unload pass over the dictionary. The main result is that after a pass the loaded set is exactly the L1 diamond around the player. Each unloaded entry's objects are destroyed, and a failed generation leaves its index absent.
- **`FloatingOrigins`** (`FloatingOrigin.cs`): the floating origin. A shift adds the player's position to the offset and counts the shift (an `int` that wraps). It moves the eligible root objects and particles back by that offset and clears trails. The player's world position, and that of every moved object, is unchanged.

Three support modules have no source file of their own:

- **`Engine`**: the host engine, seen as opaque handles plus a log of creation and destroy requests.
- **`Numerics`** and **`Vectors`**: C# `int` arithmetic and exact real vectors.

Some behaviour of the code is easy to misread:

- **Load window.** The load pass covers the whole square window of side 2·viewDistance+1, not only the diamond. The unload pass that follows then removes the corners again (`Streaming.CornersOutsideDiamond`). `Start` runs only the load pass, so right after start the square is loaded.
- **Generation failures.** An exception from the generator escapes and ends the pass; the chunk is not skipped, and the unload pass does not run. `UpdateChunks` has already stored the new player chunk, so later ticks in the same chunk change nothing. The failed index stays absent until the player enters another chunk. Generation is deterministic, so loading that index throws again whenever it is retried under the same seed; `InitializeSeed` changes the hash and may clear the failure. `Streaming.ChunkManager.UpdateChunks` states both halves: a failure names an absent index of the square whose `ChunkContents` throws, and a call in the same chunk leaves the dictionary as it was.
- **Chunk size.** A negative chunk size is accepted. Local offsets then lie in (chunkSize, 0].
- **Seeded float.** The seeded "float in [0,1)" is `value % 10000 / 10000`, so it lies in [0, 0.9999].
- **Thresholds.** There is no range check on the threshold or the view distance.

## Model

| member | source | states |
|---|---|---|
| WorldCoordinates.FloorToInt | Assets/InfiniteWorld/WorldCoordinate.cs:19-20 | `Mathf.FloorToInt`: the greatest integer not above its argument |
| WorldCoordinates.FromWorldPosition | Assets/InfiniteWorld/WorldCoordinate.cs:17-29 | index times size plus local offset recovers x and z; for a positive size the offset is in [0, size), for a negative one in (size, 0] |
| WorldCoordinates.ToWorldPosition | Assets/InfiniteWorld/WorldCoordinate.cs:31-38 | the height is 0; for a positive size and an offset inside the chunk, the position lies in that chunk's cell |
| WorldCoordinates.PositionRoundTrip | Assets/InfiniteWorld/WorldCoordinate.cs:17-38 | `ToWorldPosition(FromWorldPosition(p))` is p with its height dropped |
| WorldCoordinates.CoordinateRoundTrip | Assets/InfiniteWorld/WorldCoordinate.cs:17-38 | for a positive size, a coordinate with its offset inside the chunk survives `ToWorldPosition` then `FromWorldPosition` |
| WorldCoordinates.NegativePositionExample | Assets/InfiniteWorld/WorldCoordinate.cs:17-29 | position (-1, h, -1) with size 50 is chunk (-1, -1) at offset (49, 49) |
| WorldCoordinates.ChunkDistance | Assets/InfiniteWorld/WorldCoordinate.cs:40-43 | the L1 distance is non-negative and zero exactly for equal indices |
| WorldCoordinates.DistanceSymmetric | Assets/InfiniteWorld/WorldCoordinate.cs:40-43 | the distance is symmetric |
| WorldCoordinates.DistanceTriangle | Assets/InfiniteWorld/WorldCoordinate.cs:40-43 | the distance obeys the triangle inequality |
| ChunkStore.ChunkData.constructor | Assets/InfiniteWorld/ChunkData.cs:13-17 | a new entry has its index, no root object, no objects and is not loaded |
| ChunkStore.ChunkData.Unload | Assets/InfiniteWorld/ChunkData.cs:19-36 | destroys the root object, then every non-null spawned object in order, then forgets them and marks the entry unloaded; the index is kept |
| ChunkStore.NonNullMembers | Assets/InfiniteWorld/ChunkData.cs:27-33 | the destroyed objects are exactly the non-null entries of the list |
| ChunkStore.OwnedHandlesMembers | Assets/InfiniteWorld/ChunkData.cs:19-36 | an entry owns exactly its root object and each spawned object still referenced |
| Numerics.Wrap32 | Assets/InfiniteWorld/WorldGenerator.cs:164-167 | the result is the 32-bit value congruent to its argument, and equals it when it fits |
| Numerics.Abs32 | Assets/InfiniteWorld/WorldGenerator.cs:168 | `Math.Abs` throws `OverflowException` exactly for `int.MinValue`, otherwise returns a non-negative value of the same magnitude |
| Numerics.Rem32 | Assets/InfiniteWorld/WorldGenerator.cs:125 | C# `%` throws for a zero divisor and for `int.MinValue % -1`; a non-negative dividend gives a remainder below the divisor's magnitude |
| Generation.SeededHashPolynomial | Assets/InfiniteWorld/WorldGenerator.cs:162-167 | the three wrapping multiply-add steps equal `((seed*31 + x)*31 + y)*31 + salt` computed exactly and wrapped once |
| Generation.GetSeededInt | Assets/InfiniteWorld/WorldGenerator.cs:162-169 | throws `OverflowException` exactly when the hash is `int.MinValue`; otherwise the result is the hash or its negation and non-negative |
| Generation.GetSeededFloat | Assets/InfiniteWorld/WorldGenerator.cs:171-175 | the same exception case; otherwise a value in [0, 0.9999] |
| Generation.ObjectCount | Assets/InfiniteWorld/WorldGenerator.cs:125 | throws exactly when the hash overflows or `objectsPerChunk + 1` wraps to 0 (then `DivideByZeroException`); a non-negative `objectsPerChunk` bounds the count |
| Generation.Candidate | Assets/InfiniteWorld/WorldGenerator.cs:127-158 | one loop iteration: the candidate is rejected exactly when its spawn sample is below the threshold; a kept one has a prefab index in range and a local position inside the chunk |
| Generation.Place | Assets/InfiniteWorld/WorldGenerator.cs:129-155 | scaled samples give a prefab in range, a position inside the chunk and a yaw in [0, 360) |
| Generation.Kept | Assets/InfiniteWorld/WorldGenerator.cs:127-159 | the loop keeps at most one placement per candidate |
| Generation.KeptThrownStays | Assets/InfiniteWorld/WorldGenerator.cs:127-159 | once a candidate throws, running the loop longer throws the same |
| Generation.KeptExtend | Assets/InfiniteWorld/WorldGenerator.cs:127-159 | a longer loop that succeeds extends the placements of every shorter one |
| Generation.Placements | Assets/InfiniteWorld/WorldGenerator.cs:127-159 | at most one placement per candidate, each within the chunk and prefab range |
| Generation.PlacementsWithin | Assets/InfiniteWorld/WorldGenerator.cs:127-159 | every kept placement lies within the chunk and uses an existing prefab |
| Generation.NothingRejectedBelowZero | Assets/InfiniteWorld/WorldGenerator.cs:132-134 | with a threshold at or below 0 every candidate is kept |
| Generation.EverythingRejectedAboveOne | Assets/InfiniteWorld/WorldGenerator.cs:132-134 | with a threshold at or above 1 every candidate is rejected |
| Generation.PlannedObjects | Assets/InfiniteWorld/WorldGenerator.cs:118-160 | no prefabs means no props; otherwise all props are placed within the chunk, and for a non-negative `objectsPerChunk` there are at most that many |
| Generation.TerrainChoice | Assets/InfiniteWorld/WorldGenerator.cs:76-116 | procedural terrain when enabled and present; otherwise a prefab chosen by salt 0, throwing exactly when that hash overflows; otherwise none |
| Generation.ChunkContents | Assets/InfiniteWorld/WorldGenerator.cs:55-74 | throws exactly when the terrain or the props throw; otherwise the root at the chunk origin comes first, every record belongs to the chunk, and for a non-negative `objectsPerChunk` there are at most `2 + objectsPerChunk` records |
| Generation.OverflowReachable | Assets/InfiniteWorld/WorldGenerator.cs:162-169 | line 104 picks the terrain prefab by salt 0; with seed `int.MinValue`, chunk (0, 0) hashes to `int.MinValue` under salt 0, so a chunk that picks a terrain prefab throws |
| Generation.WorldGenerator.constructor | Assets/InfiniteWorld/WorldGenerator.cs:24-42 | `Awake`: seeds the generator; uses the existing terrain component, or adds one of resolution 20 when procedural terrain is on; seeds it |
| Generation.WorldGenerator.InitializeSeed | Assets/InfiniteWorld/WorldGenerator.cs:44-53 | sets the seed, recreates the random generator and reseeds the terrain component; no other setting changes |
| Generation.WorldGenerator.GenerateChunk | Assets/InfiniteWorld/WorldGenerator.cs:55-74 | fails exactly when `ChunkContents` throws, with its exception, and then only appends to the creation log; on success the engine is asked for exactly `ChunkContents`, and the fresh loaded entry holds the root and then a run of the other handles |
| Generation.ChunkAssembled | Assets/InfiniteWorld/WorldGenerator.cs:55-74 | the root, then the terrain records, then the prop records, created one after another, are exactly `ChunkContents` |
| Generation.ChunkGenerated | Assets/InfiniteWorld/WorldGenerator.cs:55-74 | the same, and the entry's list is the run of handles right after the root, so the entry owns one run of handles from the root on |
| Generation.WorldGenerator.GenerateTerrain | Assets/InfiniteWorld/WorldGenerator.cs:76-116 | creates exactly the records of `TerrainChoice` and appends their handles, or throws its exception having created nothing |
| Generation.WorldGenerator.GenerateObjects | Assets/InfiniteWorld/WorldGenerator.cs:118-160 | creates exactly the props of `PlannedObjects` and appends their handles, or throws its exception; in both cases the log grows by exactly the props placed, those placed before an exception included |
| Generation.PlaceCandidates | Assets/InfiniteWorld/WorldGenerator.cs:127-159 | the loop creates exactly the props `Kept` selects, or throws the first failing candidate's exception; the log grows by exactly the props placed, those placed before the exception included |
| Generation.PlaceCandidate | Assets/InfiniteWorld/WorldGenerator.cs:129-158 | one iteration creates one prop for a kept candidate, nothing for a rejected one, and throws its exception otherwise |
| Generation.Spawn | Assets/InfiniteWorld/WorldGenerator.cs:149-158 | `Instantiate` then `objects.Add`: the next handle is created with the given record and appended to the chunk's list; nothing else of the entry changes |
| Terrain.GridLength | Assets/InfiniteWorld/ProceduralTerrainGenerator.cs:77-96 | the vertex rows hold (r + 1) points each |
| Terrain.VerticesLength | Assets/InfiniteWorld/ProceduralTerrainGenerator.cs:64-65 | the grid has `(r + 1)^2` vertices, the size of the vertex array |
| Terrain.VertexGridLayout | Assets/InfiniteWorld/ProceduralTerrainGenerator.cs:76-96 | vertex (x, z) sits at index `z * (r + 1) + x` |
| Terrain.GridRowMajor | Assets/InfiniteWorld/ProceduralTerrainGenerator.cs:76-96 | in the first rows of the grid, point (x, z) is at slot `z * (r + 1) + x` |
| Terrain.TrianglesLength | Assets/InfiniteWorld/ProceduralTerrainGenerator.cs:98-99 | the triangle buffer has `r * r * 6` indices |
| Terrain.TriangleLayout | Assets/InfiniteWorld/ProceduralTerrainGenerator.cs:100-119 | cell (x, z) occupies entries `6 * (z * r + x)` to `+5`, as the triangles (tl, bl, tr) and (tr, bl, br) |
| Terrain.CellRowsLayout | Assets/InfiniteWorld/ProceduralTerrainGenerator.cs:102-119 | row z of cells follows, slot for slot, the cells of the rows before it |
| Terrain.CellRowLayout | Assets/InfiniteWorld/ProceduralTerrainGenerator.cs:104-118 | within a row, corner k of cell x is at slot `6 * x + k` |
| Terrain.TriangleIndicesInRange | Assets/InfiniteWorld/ProceduralTerrainGenerator.cs:98-119 | every triangle index names an existing vertex |
| Terrain.FillVertexGrid | Assets/InfiniteWorld/ProceduralTerrainGenerator.cs:64-96 | the outer loop fills the array with exactly the row-major vertex grid, one row per pass |
| Terrain.FillVertexRow | Assets/InfiniteWorld/ProceduralTerrainGenerator.cs:79-95 | the inner loop writes row z's r + 1 points after the slots already filled, which it keeps |
| Terrain.FillTriangleIndices | Assets/InfiniteWorld/ProceduralTerrainGenerator.cs:98-119 | the outer loop fills the array with exactly the triangle buffer, one row of cells per pass |
| Terrain.FillCellRow | Assets/InfiniteWorld/ProceduralTerrainGenerator.cs:104-118 | the inner loop writes row z's cells after the slots already filled, which it keeps |
| Terrain.WriteCell | Assets/InfiniteWorld/ProceduralTerrainGenerator.cs:106-117 | one cell writes its six corners `CellCorners` after the slots already filled, which it keeps |
| Terrain.FlatTerrainIsResolutionOne | Assets/InfiniteWorld/ProceduralTerrainGenerator.cs:193-201 | the flat mesh's four vertices are the resolution-1 grid; its six indices are in range and form the same two triangles as the general mesh |
| Terrain.ProceduralTerrainGenerator.Initialize | Assets/InfiniteWorld/ProceduralTerrainGenerator.cs:23-26 | stores the seed |
| Terrain.ProceduralTerrainGenerator.GenerateTerrainMesh | Assets/InfiniteWorld/ProceduralTerrainGenerator.cs:59-130 | builds exactly the vertex grid and the triangle buffer of the component's resolution |
| Terrain.ProceduralTerrainGenerator.GenerateTerrainChunk | Assets/InfiniteWorld/ProceduralTerrainGenerator.cs:28-57 | creates one terrain object recording the chunk, seed and resolution it was built from |
| Streaming.DiamondInSquare | Assets/InfiniteWorld/ChunkManager.cs:87-134 | every index the unload pass keeps lies in the square the load pass covers |
| Streaming.CornersOutsideDiamond | Assets/InfiniteWorld/ChunkManager.cs:87-134 | for a positive view distance the square's corners are loaded by the load pass and removed by the unload pass |
| Streaming.KeySetMembers | Assets/InfiniteWorld/ChunkManager.cs:116-133 | the unload list's key set holds exactly its members |
| Streaming.TeardownMembers | Assets/InfiniteWorld/ChunkManager.cs:130-133 | the objects destroyed while unloading a list of keys are exactly those owned by a listed, loaded entry |
| Streaming.TeardownAppend | Assets/InfiniteWorld/ChunkManager.cs:130-146 | unloading one more key destroys that entry's objects, unless the key is gone already |
| Streaming.CoveredStep | Assets/InfiniteWorld/ChunkManager.cs:93-98 | visiting one index of a column makes it a key, and the pass has then covered everything up to it |
| Streaming.CoveredColumn | Assets/InfiniteWorld/ChunkManager.cs:91-99 | finishing column x is the same as starting column x + 1 |
| Streaming.SquareCovered | Assets/InfiniteWorld/ChunkManager.cs:89-100 | a finished pass that kept its old keys has exactly its old keys and the square |
| Streaming.ExtendKeys | Assets/InfiniteWorld/ChunkManager.cs:87-112 | after a load pass the entries are the old ones and the chunks it created |
| Streaming.ExtendKeeps | Assets/InfiniteWorld/ChunkManager.cs:87-112 | an entry present before a load pass still owns what it owned |
| Streaming.ExtendRun | Assets/InfiniteWorld/ChunkManager.cs:87-112 | each chunk a load pass creates owns the run of handles of its own records, which starts where the records of the chunks created before it end |
| Streaming.CreatedRecords | Assets/InfiniteWorld/ChunkManager.cs:87-112 | the creation log of a load pass holds each new chunk's records, in order, one after another |
| Streaming.ChunkManager.constructor | Assets/InfiniteWorld/ChunkManager.cs:13-26 | the serialized settings, an empty dictionary and a zero timer |
| Streaming.ChunkManager.GetChunkIndexFromPosition | Assets/InfiniteWorld/ChunkManager.cs:80-85 | the player's chunk is the chunk index of `FromWorldPosition` |
| Streaming.ChunkManager.GetChunkAt | Assets/InfiniteWorld/ChunkManager.cs:148-151 | null exactly for an index not loaded; otherwise that chunk's entry, stored under its own index and loaded |
| Streaming.ChunkManager.Start | Assets/InfiniteWorld/ChunkManager.cs:28-50 | with `UpdatePlayerChunk` (lines 75-78) inlined: without a player, or without a generator and a sibling component, disables itself and changes nothing else; otherwise takes the generator, sets the player's chunk, and loads the full square unless a generation throws; the engine is asked for exactly the records of the chunks it created, in order, each new entry owning its own run of handles (`Loads`), and nothing is destroyed |
| Streaming.ChunkManager.Update | Assets/InfiniteWorld/ChunkManager.cs:52-61 | below the interval only the timer advances; otherwise it resets the timer and runs `UpdateChunks`, with the same promises (including that the load pass generates exactly the missing chunks of the square), stated against the generator's plan when it is called |
| Streaming.ChunkManager.UpdateChunks | Assets/InfiniteWorld/ChunkManager.cs:63-73 | the same chunk means no change at all; a new chunk and no exception mean the load pass generates exactly the chunks of the square window that were missing, and leave exactly the L1 diamond around it loaded, so the square's corners are created and then destroyed in the same tick (`Streaming.CornersOutsideDiamond`); the engine is asked to create exactly the records of the chunks the load pass created, each new entry owning its own run of handles (`Loads`), and to destroy exactly what each entry outside the diamond owned, in the unload order (`Unloads`); every entry that stays is the same object and owns the same objects; a failure happens only on a new chunk, runs no unload pass, and leaves an index of the square absent whose contents throw |
| Streaming.ChunkManager.LoadChunksAroundPlayer | Assets/InfiniteWorld/ChunkManager.cs:87-101 | keeps every entry, adds only fresh entries, and loads the whole square; or throws, with the exception of a chunk in the square that is still missing; the engine is asked for exactly the records of the chunks created, in order, each new entry owning its own run of handles, and after an exception the log only grew |
| Streaming.ChunkManager.LoadRow | Assets/InfiniteWorld/ChunkManager.cs:91-99 | one column x of the square, with the same promises restricted to that column |
| Streaming.ChunkManager.LoadStep | Assets/InfiniteWorld/ChunkManager.cs:93-98 | one index: a loaded one is left alone; otherwise it is created and appended to the list of created chunks, or its generation threw and the map is unchanged |
| Streaming.ChunkManager.LoadNew | Assets/InfiniteWorld/ChunkManager.cs:97 | an index not loaded: on success the pass so far is extended by that one chunk, its records and its run of handles |
| Streaming.ChunkManager.LoadChunk | Assets/InfiniteWorld/ChunkManager.cs:103-112 | a loaded index is a no-op; otherwise it fails exactly when `ChunkContents` throws and then adds nothing; on success it adds one fresh entry, the engine is asked for exactly `ChunkContents`, and the entry owns the run of handles of those records |
| Streaming.ChunkManager.UnloadDistantChunks | Assets/InfiniteWorld/ChunkManager.cs:114-134 | the list holds, without repeats, exactly the loaded keys outside the diamond; afterwards exactly the entries inside remain, each still loaded and owning what it owned; each listed entry's objects are destroyed and the entry is unloaded |
| Streaming.ChunkManager.UnloadKeys | Assets/InfiniteWorld/ChunkManager.cs:130-133 | unloading a list removes exactly its keys and destroys what their entries owned, in list order; every entry not listed stays loaded and owns what it owned |
| Streaming.ChunkManager.UnloadStep | Assets/InfiniteWorld/ChunkManager.cs:132 | one key of that loop |
| Streaming.ChunkManager.UnloadChunk | Assets/InfiniteWorld/ChunkManager.cs:136-146 | an absent key is a no-op; otherwise it destroys the entry's objects, unloads it and removes exactly that key |
| Streaming.ChunkManager.ClearAllChunks | Assets/InfiniteWorld/ChunkManager.cs:163-170 | visits every entry exactly once, in dictionary order (no key repeats), destroys what each owned and unloads it, then empties the dictionary |
| Streaming.ChunkManager.ClearStep | Assets/InfiniteWorld/ChunkManager.cs:165-168 | one entry of that loop |
| FloatingOrigins.MagnitudeTest | Assets/InfiniteWorld/FloatingOrigin.cs:32-34 | the squared-distance test agrees with `magnitude > threshold` (strict) |
| FloatingOrigins.ObjectShift | Assets/InfiniteWorld/FloatingOrigin.cs:67-79 | a root that is neither under the player nor on the UI layer moves by `-offset` and keeps its world position once the origin moves; any other object is untouched |
| FloatingOrigins.ParticleShift | Assets/InfiniteWorld/FloatingOrigin.cs:101-118 | a world-space system not under the player whose particles fit its buffer keeps every particle's world position; other systems are untouched |
| FloatingOrigins.GetParticles | Assets/InfiniteWorld/FloatingOrigin.cs:109-110 | copies as many live particles as the buffer holds and returns that count |
| FloatingOrigins.FloatingOrigin.constructor | Assets/InfiniteWorld/FloatingOrigin.cs:8-25 | the serialized settings, a zero offset and a zero count |
| FloatingOrigins.FloatingOrigin.UnityToWorldPosition | Assets/InfiniteWorld/FloatingOrigin.cs:153-156 | the world position from which taking the offset away gives back the engine position; with no offset accumulated they coincide |
| FloatingOrigins.FloatingOrigin.WorldToUnityPosition | Assets/InfiniteWorld/FloatingOrigin.cs:153-161 | the result is the engine position that `UnityToWorldPosition` maps back to the argument |
| FloatingOrigins.FloatingOrigin.UnityRoundTrip | Assets/InfiniteWorld/FloatingOrigin.cs:153-161 | the two conversions are inverse in the other order as well |
| FloatingOrigins.FloatingOrigin.GetPlayerWorldPosition | Assets/InfiniteWorld/FloatingOrigin.cs:145-151 | the player's engine position taken to the world; the offset alone without a player |
| FloatingOrigins.FloatingOrigin.Update | Assets/InfiniteWorld/FloatingOrigin.cs:27-38 | shifts exactly when auto-shift is on, there is a player, and it is strictly farther than the threshold; otherwise nothing changes |
| FloatingOrigins.FloatingOrigin.PerformOriginShift | Assets/InfiniteWorld/FloatingOrigin.cs:40-61 | without a player nothing changes; otherwise the offset grows by the player's position, the count wraps up by one, the scene is shifted and the player is zeroed; the player's and every moved root's world position are unchanged |
| FloatingOrigins.FloatingOrigin.ForceOriginShift | Assets/InfiniteWorld/FloatingOrigin.cs:175-179 | a shift whatever the distance |
| FloatingOrigins.FloatingOrigin.ShiftAllObjects | Assets/InfiniteWorld/FloatingOrigin.cs:63-95 | the root pass as `ShiftedObject`, then particles and trails as switched on; rigidbodies are never changed |
| FloatingOrigins.FloatingOrigin.ShiftParticleSystems | Assets/InfiniteWorld/FloatingOrigin.cs:97-119 | each handled system keeps its first `ParticleCount` particles, moved by `-offset`; the others are untouched |
| FloatingOrigins.FloatingOrigin.ShiftRigidbodies | Assets/InfiniteWorld/FloatingOrigin.cs:121-130 | visits the rigidbodies and changes nothing: not the component, the scene or the player |
| FloatingOrigins.FloatingOrigin.ShiftTrailRenderers | Assets/InfiniteWorld/FloatingOrigin.cs:132-143 | every trail not under the player is cleared and the others are untouched |
| FloatingOrigins.FloatingOrigin.ResetOrigin | Assets/InfiniteWorld/FloatingOrigin.cs:168-173 | zeroes the offset and the count and moves nothing |

## Left out

- Terrain heights (`GetTerrainHeight`, Perlin noise), vertex colours (`GetColorByHeight`), UVs and `GetSeededOffset` are left out. They are floating-point noise outside any provable contract. Vertices are recorded by grid coordinates, and the terrain prefab's and props' heights are not recorded. A terrain prefab's record names its chunk and prefab index only; its local position at the chunk centre, (chunkSize / 2, height, chunkSize / 2) (WorldGenerator.cs:110), is not recorded.
- GenerateObjects: the source takes the prefab sample (salt i+10) before `Instantiate` and the rotation sample (salt i+200) after it. An overflow in the rotation sample therefore leaves an instantiated object that is not in the chunk's list. The model decides the whole candidate before creating anything.
- PlaceCandidates: the loop of `GenerateObjects` carries the same difference; after an overflow in a rotation sample the model has not created that candidate's prop, while the source has.
- PlaceCandidate: one iteration carries the same difference; an overflow in the rotation sample creates nothing in the model, while the source has already instantiated the prop.
- Streaming.ChunkManager.Update: requires an enabled manager with a generator, that is, one that `Start` left enabled after finding a generator. A component that another script re-enables after `Start` disabled it is not modelled; in the source it would throw at ChunkManager.cs:65 (a null `player`) or inside `LoadChunk` (a null `worldGenerator`, ChunkManager.cs:108).
- Floating point: positions, sizes and thresholds are exact reals, so single-precision rounding is not modelled.
- Integer width of chunk indices: chunk indices are unbounded integers, and the hash reads them modulo 2^32. `Mathf.FloorToInt` (WorldCoordinate.cs:19-20) returns an `int`, so a position with |x / chunkSize| of 2^31 or more has no representable chunk index; the model returns the exact floor. Index arithmetic near `int.MaxValue` is not modelled either, and `ChunkDistance` does not model the `Math.Abs` overflow of its `int` differences. The load loop's own edge cases are not modelled either: with `viewDistance == int.MaxValue` the source loop `x <= viewDistance; x++` (ChunkManager.cs:89, 91) never ends because `x++` wraps, while the model's loop ends; with `viewDistance == int.MinValue`, `-viewDistance` wraps to `int.MinValue` and the source loads one chunk, while the model loads none.
- Terrain.Resolution: resolutions are limited to those whose vertex and index counts fit in an `int`. The negative resolutions the serialized field would accept are not modelled. A resolution of 0 is allowed; it costs a `float` division by zero, which does not throw, and gives one vertex and no triangles.
- Engine queries are parameters: the player's position, `GetComponent<WorldGenerator>` and the existing terrain component. `Time.deltaTime` is too; `FindObjectsOfType` is the `Scene` object's lists.
- Dictionary order: the order in which `Dictionary` enumerates is a choice the model makes with `:|`. The contracts hold for every order.
- Partial work after an exception: when generation throws, `GenerateChunk` and the load pass promise only that the creation log kept its old records and that no entry was added. `PlaceCandidates` and `GenerateObjects` state which props were created before the exception; the other half-built objects left in the engine are not described further up.
- WorldCoordinates.FromWorldPosition: requires a nonzero chunk size. With 0 the `float` division gives an infinity or NaN, and what `FloorToInt` makes of it is not modelled.
- The `chunkSize` of the chunk manager excludes 0, the one value for which `FromWorldPosition` divides by zero.
- ChunkManager.Update reads `player.position` every tick and would throw if the player were destroyed after `Start`. The model passes the position in, so this exception is not modelled.
- Prefab arrays: a null element of `terrainPrefabs` or `objectPrefabs` (WorldGenerator.cs:105-108, 149-152) is not modelled. Prefabs are counted only, and `Instantiate` of a null prefab would throw.
- Generation: `objectsPerChunk == -1` makes `% (objectsPerChunk + 1)` divide by zero. This is modelled as a thrown `DivideByZeroException`, not excluded.
- Accessors that only return a field: `GetLoadedChunks`, `GetPlayerChunkIndex`, `GetCurrentSeed` and `GetTotalOffset`. The model reads `loadedChunks`, `currentPlayerChunk`, `worldSeed` and `totalOffset` directly. `SetSeed` only calls `InitializeSeed`, and `OnDestroy` only calls `ClearAllChunks`; they have no members of their own.
- `ShiftRigidbodies`: the source's loop only skips entries and moves nothing, so the model's loop has an empty frame. Which rigidbodies it skips is not recorded.
- `GenerateFlatTerrain` is modelled only for its mesh data (`FlatTerrainVertices`, `FlatTerrainTriangles`). Nothing in the core calls it.
- `ParticleSystem.main.simulationSpace`, `IsChildOf`, the "UI" layer and parenthood are recorded as flags on each scene entry. The player's own transform is the component's `player` field, not an entry. Particle state other than position is not modelled.
- Logging (`Debug.Log`, `Debug.LogWarning`, `Debug.LogError`), `OnGUI`, `OnDrawGizmos`, the `showDebugInfo` switch, object names and materials, colliders and renderers have no effect on the modelled state.
- `PlayerController`, `InfiniteWorldSetup` and `Examples_TerrainCustomization` are not part of this model. They are callers and setup code.
