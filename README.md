# Voxel world generator: chunk registry, mutation protocol and column generation

This project models the core of the voxel world's `WorldGenerator` in Dafny
and proves properties of it. The modelled parts are:

- **Addressing.** A voxel at (x, y, z) belongs to the chunk
  (x, y, z) floor-divided by `ChunkSize` = 16. Its local key is its offset
  from that chunk's origin.
- **Chunk registry.** A map from chunk coordinate to a voxel container.
  Each container holds a `Voxels` map (local key to type code), a `Damages`
  map (local key to accumulated damage) and two flags, `ProcessingNeeded` and
  `BreaksProcessingNeeded`.
- **Mutation protocol.**
  - `PlaceVoxel` registers the chunk's container when there is none. Type 0
    removes the voxel. Any other type is stored when `overwrite` is set or
    the key is free.
  - `PlaceDamage` accumulates damage in a registered chunk. Once the total
    exceeds 1 it removes the voxel.
  - The world-level `sygnalize` flag decides whether edits set
    `ProcessingNeeded`.
- **Queries.** `GetVoxel`, `IsContactVoxel` (a five-neighbour test that
  leaves out the voxel below), and `IsSolid` / `IsLiquid` on type codes.
- **Column generation.** `GenerateVoxelsForCoord` computes the number of
  layers, their heights and their material from the column's ground level
  and billow sample. It then runs the structure generators with
  `sygnalize` switched off.

Modules:

- `Coords` (coords.dfy): chunk and local addressing, and the uniqueness of
  the decomposition.
- `Materials` (materials.dfy): the liquid and solid bands.
- `WorldModel` (world_model.dfy): the registry as a value. It has reference
  functions for each operation (`GetVoxel`, `IsContactVoxel`, `Place`,
  `Damage`, `ApplyFirst`/`ApplyAll` for sequences of placements) and the
  lemmas about them.
- `Column` (column.dfy): the per-layer material rule and the column's
  placement plan, with lemmas about what the column pass leaves in the world.
- `WorldGenerator` (world.dfy): class `World` with the mutable registry and
  the `sygnalize` field. Its methods update the registry in place. Each one
  is proved to produce exactly the state its `WorldModel` or `Column`
  reference definition describes.

Details of the code the model follows:

- Type 0 sets `ProcessingNeeded` whenever signalling is on. This happens even
  when nothing was removed: the code does not test whether the removal
  changed anything (lines 142-148).
- Only the structure-generator pass runs with signalling off. The column's
  own layers are placed with whatever `sygnalize` held on entry
  (lines 226-238).
- The ground level is first raised to 1 when it is not positive. The raised
  value (`maxLevel`) is used in every layer test, not the raw ground level
  (lines 220-234).
- The contact test checks five neighbours: both x neighbours, the voxel
  above, and both z neighbours (lines 44-49).

## Model

| member | source | states |
|---|---|---|
| Coords.ChunkAxis | UnityProject/Assets/Scripts/WorldGenerator.cs:56 | with ChunkSize = 16 (line 15), the chunk index c of an axis value v satisfies 16c <= v < 16c + 16 (floor division, also for negative v) |
| Coords.Decompose | UnityProject/Assets/Scripts/WorldGenerator.cs:55-65 | the local key of any voxel lies inside the chunk, and chunk origin plus local key gives back the voxel |
| Coords.AddressUnique | UnityProject/Assets/Scripts/WorldGenerator.cs:55-65 | any decomposition of a voxel into a chunk and an in-chunk offset is the one that CoordVoxelToChunk / CoordChunkToVoxel produce |
| Coords.AddressInjective | UnityProject/Assets/Scripts/WorldGenerator.cs:58-65 | two voxels with the same chunk and the same local key are the same voxel, so keying containers by chunk and voxels by local key loses nothing |
| Materials.IsLiquid | UnityProject/Assets/Scripts/WorldGenerator.cs:77-80 | the liquid band [64, 128); its relation to IsSolid is the contract of Materials.IsSolid, and Column.LayerLiquidAboveGround uses it for the column |
| Materials.IsSolid | UnityProject/Assets/Scripts/WorldGenerator.cs:72-80 | every type code is solid exactly when it is not liquid |
| WorldModel.GetVoxel | UnityProject/Assets/Scripts/WorldGenerator.cs:53-70 | the lookup through the chunk and the local key; its properties are stated by GetUnregistered, PlaceGetSelf, PlaceGetOther and DamageEffect |
| WorldModel.IsContactVoxel | UnityProject/Assets/Scripts/WorldGenerator.cs:40-51 | the five-neighbour contact test; its outcomes are stated by ContactCases and ContactIgnoresBelow |
| WorldModel.Place | UnityProject/Assets/Scripts/WorldGenerator.cs:109-159 | the reference definition of PlaceVoxel; its properties are stated by PlaceGetSelf, PlaceGetOther, PlaceRegistry, PlaceSignal, PlaceWellFormed and FlagsNeverCleared |
| WorldModel.Damage | UnityProject/Assets/Scripts/WorldGenerator.cs:82-107 | the reference definition of PlaceDamage; its properties are stated by DamageUnregistered, DamageEffect, DamageWellFormed, FlagsNeverCleared and DamageScenario |
| WorldModel.GetUnregistered | UnityProject/Assets/Scripts/WorldGenerator.cs:53-61 | GetVoxel returns null for every voxel of an unregistered chunk |
| WorldModel.PlaceGetSelf | UnityProject/Assets/Scripts/WorldGenerator.cs:139-157 | after PlaceVoxel, GetVoxel of the target returns: null for type 0; t for t != 0 with overwrite; the old type when not overwriting an occupied voxel; t when not overwriting a free one |
| WorldModel.PlaceGetOther | UnityProject/Assets/Scripts/WorldGenerator.cs:141-157 | PlaceVoxel changes no voxel other than its target |
| WorldModel.PlaceRegistry | UnityProject/Assets/Scripts/WorldGenerator.cs:119-138 | after PlaceVoxel the registered chunks are the old ones plus the target's chunk (even for type 0), and every other container is unchanged |
| WorldModel.PlaceSignal | UnityProject/Assets/Scripts/WorldGenerator.cs:142-157 | PlaceVoxel keeps damages and BreaksProcessingNeeded. With signalling off it keeps ProcessingNeeded. With signalling on, type 0 always sets it, and a non-zero type sets it exactly when the stored value changed |
| WorldModel.PlaceWellFormed | UnityProject/Assets/Scripts/WorldGenerator.cs:141-157 | PlaceVoxel keeps every container under its own chunk, every key inside the chunk, and never stores type 0 |
| WorldModel.ContactCases | UnityProject/Assets/Scripts/WorldGenerator.cs:40-51 | IsContactVoxel is false for an absent voxel, false when all five checked neighbours are present, and true when any of them is absent |
| WorldModel.ContactIgnoresBelow | UnityProject/Assets/Scripts/WorldGenerator.cs:44-49 | any PlaceVoxel on the voxel below leaves the contact status unchanged |
| WorldModel.DamageUnregistered | UnityProject/Assets/Scripts/WorldGenerator.cs:88-106 | PlaceDamage in an unregistered chunk changes nothing |
| WorldModel.DamageEffect | UnityProject/Assets/Scripts/WorldGenerator.cs:89-106 | in a registered chunk, PlaceDamage grows the damage entry by exactly amount and keeps it; it sets BreaksProcessingNeeded; it removes the voxel exactly when the total exceeds 1; it sets ProcessingNeeded when signalling and the total exceeds 1, whether or not a voxel was present, and otherwise keeps it; it registers no chunk and changes no other voxel or container |
| WorldModel.DamageWellFormed | UnityProject/Assets/Scripts/WorldGenerator.cs:89-106 | PlaceDamage keeps the registry well formed |
| WorldModel.FlagsNeverCleared | UnityProject/Assets/Scripts/WorldGenerator.cs:82-157 | neither PlaceVoxel nor PlaceDamage ever clears ProcessingNeeded or BreaksProcessingNeeded |
| WorldModel.DamageScenario | UnityProject/Assets/Scripts/WorldGenerator.cs:93-105 | an undamaged voxel survives three hits of 0.3 (0.9 is not above 1); the fourth leaves damage 1.2 and destroys it |
| WorldModel.SilentPass | UnityProject/Assets/Scripts/WorldGenerator.cs:238-246 | placements issued with signalling off raise no ProcessingNeeded flag: each flag is what it was, and a newly registered container has it clear |
| WorldModel.ApplyFirstWellFormed | UnityProject/Assets/Scripts/WorldGenerator.cs:226-245 | any sequence of PlaceVoxel calls keeps the registry well formed |
| WorldModel.ApplyFirstUntouched | UnityProject/Assets/Scripts/WorldGenerator.cs:226-245 | a sequence of PlaceVoxel calls leaves every voxel it does not target as it was |
| Column.ClampLevel | UnityProject/Assets/Scripts/WorldGenerator.cs:220-221 | a ground level of at least 1 is kept as is, and a non-positive one becomes exactly 1 |
| Column.LayerCount | UnityProject/Assets/Scripts/WorldGenerator.cs:225 | the layer count is max(level, 15): at least both, and equal to one of them |
| Column.LayerType | UnityProject/Assets/Scripts/WorldGenerator.cs:230-234 | every layer type is in {1, 3, 4, 6, 64}; it is 64 exactly on layers above the level |
| Column.LayerLiquidAboveGround | UnityProject/Assets/Scripts/WorldGenerator.cs:230-234 | a layer is liquid exactly when it lies above the level, and solid otherwise |
| Column.LayerTypeCases | UnityProject/Assets/Scripts/WorldGenerator.cs:230-234 | which override decides the type: liquid above the level, then 6 on low ground, then 4 on high ground, then 1 on the top layer and 3 below it, each as an if-and-only-if |
| Column.ColumnPlan | UnityProject/Assets/Scripts/WorldGenerator.cs:225-236 | the placements of the column pass, in order; its shape is stated by ColumnPlanAt and ColumnPlanShape, and its effect on the world by ColumnPrefix, ColumnResult and ColumnUntouched |
| Column.Layers | UnityProject/Assets/Scripts/WorldGenerator.cs:226-236 | the first k layers of the plan are k placements |
| Column.LayersAt | UnityProject/Assets/Scripts/WorldGenerator.cs:226-235 | placement la of the plan is layer la at y = la - 16 in column (cx, cz), overwriting, with its layer type |
| Column.ColumnPlanAt | UnityProject/Assets/Scripts/WorldGenerator.cs:225-235 | the column plan has max(max(groundLevel, 1), 15) placements, and placement la is layer la of the clamped level |
| Column.GeneratorHeightAboveColumn | UnityProject/Assets/Scripts/WorldGenerator.cs:237-243 | the height `max - 16` handed to the generators is the y of the cell just above the column's top layer |
| Column.ColumnPlanShape | UnityProject/Assets/Scripts/WorldGenerator.cs:225-236 | the column places exactly max voxels, at y = la - 16 for la in [0, max); each overwrites, has a type in {1, 3, 4, 6, 64}, and is liquid exactly above the clamped level |
| Column.HighColumnIsDry | UnityProject/Assets/Scripts/WorldGenerator.cs:225-234 | a column whose ground level is at least 14 places no liquid (layer indices are below max(level, 15), which is at most level + 1 once level >= 14) |
| Column.ColumnPrefix | UnityProject/Assets/Scripts/WorldGenerator.cs:226-236 | after the first k layers are placed, each of them reads back its own type |
| Column.ColumnUntouched | UnityProject/Assets/Scripts/WorldGenerator.cs:226-236 | the column pass leaves every voxel outside the column's cells unchanged |
| Column.ColumnResult | UnityProject/Assets/Scripts/WorldGenerator.cs:226-236 | after the column pass, GetVoxel of layer la returns its layer type |
| WorldGenerator.World.constructor | UnityProject/Assets/Scripts/WorldGenerator.cs:21 | a new world has signalling on; its registry starts empty (see "## Left out" on the shared registry) |
| WorldGenerator.World.GetVoxel | UnityProject/Assets/Scripts/WorldGenerator.cs:53-70 | GetVoxel on the world's current registry; as a function of the state it changes nothing and registers no container, and on a valid world it never reports the empty type 0 |
| WorldGenerator.World.IsContactVoxel | UnityProject/Assets/Scripts/WorldGenerator.cs:40-51 | IsContactVoxel on the world's current registry; a read that changes nothing |
| WorldGenerator.World.PlaceVoxel | UnityProject/Assets/Scripts/WorldGenerator.cs:109-159 | with overwrite defaulting to true, the in-place update of the registry leaves exactly the state WorldModel.Place describes, keeps the registry well formed, and keeps sygnalize |
| WorldGenerator.World.PlaceDamage | UnityProject/Assets/Scripts/WorldGenerator.cs:82-107 | the in-place update leaves exactly the state WorldModel.Damage describes (including the nested PlaceVoxel), keeps the registry well formed, and keeps sygnalize |
| WorldGenerator.World.PlaceColumn | UnityProject/Assets/Scripts/WorldGenerator.cs:220-236 | the layer loop issues exactly the column plan through PlaceVoxel with the entry signalling, and returns the layer count max(max(groundLevel, 1), 15) |
| WorldGenerator.World.PlaceAll | UnityProject/Assets/Scripts/WorldGenerator.cs:239-245 | the generators' placements are issued in order through PlaceVoxel |
| WorldGenerator.World.GenerateVoxelsForCoord | UnityProject/Assets/Scripts/WorldGenerator.cs:218-247 | the result is the column plan applied with the entry signalling, then the generators' placements for height max - 16 applied silently; sygnalize is on again on exit |

## Left out

- Unity object setup when a container is created (GameObject, textures, shaders, transform; lines 122-131 and 136-137). Creation is modelled as registering an empty container for the chunk.
- VoxelContainer is not part of this model. Its initial flags and maps are taken to be false and empty, and `Register` is taken to add it under its chunk coordinate.
- Containers are modelled as values owned by the registry map, not as shared objects. Aliasing of VoxelContainer objects, and updates through a reference held elsewhere, are not captured.
- WorldGenerator.World.constructor: the registry is the static `VoxelContainer.Containers` (lines 58, 89 and 120), shared by every WorldGenerator and never emptied by one. The model gives each World its own registry and starts it empty, so edits made through another generator are not captured.
- Column.LayerType: the thresholds `10+16+bil` and `3+16+bil` (lines 231-232) are double-precision sums; the model compares against exact reals. When the rounding of 26 + bil or 19 + bil decides the comparison (bil = -1e-20 with maxLevel = 26: the source computes 26 > 26.0 and keeps 1 or 3, the model picks 4), the model can choose a different type.
- `lock (vc.Voxels)` (line 139) and all concurrency. The model is single-threaded.
- `Utils.CoordVoxelToChunk`, `CoordChunkToVoxel` and `VoxelCoordToLong` are not part of this model. Chunks are floor division by 16, local keys are offsets from the chunk origin, and maps are keyed by coordinate triples. This amounts to assuming the packing into a long is injective; out-of-range coordinates that would collide after packing are not modelled.
- `AddOrReplace` (line 152) is not part of this model. Its result is taken to be "the key was absent or held a different value".
- `int` coordinates and types are unbounded integers: 32-bit overflow is not modelled.
- Damage amounts are exact reals. Single-precision rounding of `float` accumulation (line 95) is not modelled.
- `Initialize` and the noise libraries (Billow, RiggedMultifractal, `UnityEngine.Random`; lines 23-38) are left out as foreign code, together with `GetGroundLevel`, `GetRockH` and `GetDirtH` (lines 249-266), which rely on float rounding and `Mathf.Pow`. `GenerateVoxelsForCoord` instead takes the ground level and the billow sample as parameters.
- `GenerateSimple` (lines 161-196) is left out. It is driven by Perlin noise and randomness.
- `GenerateTest` (lines 198-216) is left out. It is a test driver.
- `QueryChunk` (lines 269-307) is left out. It is private, unused and noise-driven.
- GenTree, IGenerable and `ConditionMet` are not part of this model. The generator pass is a parameter: a function from (cx, max - 16, cz) to the placements the registered generators issue, in order.
- WorldGenerator.World.GenerateVoxelsForCoord: the generators cannot read the world while they place. Each generator's placements are fixed by the column and height it is handed, not by voxels placed earlier in the same pass.
