# digbuild voxel core in Dafny

This project models the chunk core of digbuild, a block-building game. The
core consists of `src/chunk.cc` and the block cell of `block.h`:

- **Blocks**: the block cell. It has a material byte, a sunlight-source bit,
  a visited bit and four-bit light channels. The module also holds the face
  record that the mesher emits.
- **Cardinal relations**: the six directions, each with its unit vector and
  its tangent direction.
- **Chunks and the chunk map**: each chunk has a 27-slot neighbour table, and
  the map is keyed by chunk position. `chunk_stitch_into_map` and
  `chunk_unstich_from_map` wire a chunk into the map and out of it.
  `get_bottom_chunk_in_column` walks down a column of chunks.
- **Lighting**: three passes.
  - `reset_lighting` marks, in each column, every block the sky reaches as a
    sunlight source.
  - `breadth_first_flood_fill_light` spreads a light level through
    translucent blocks, losing one unit per channel on each hop.
  - `chunk_apply_lighting` seeds one fill from every sunlight source and
    every magma block, and clears the visited flags after each fill.
- **Geometry**: `update_geometry` and its helpers.
  - The face rule decides which faces of each non-air block face outward.
  - `add_external_face` builds each such face from its table of corners.
  - `calculate_vertex_lighting` computes each vertex's lighting, including
    ambient occlusion.
  - A block that gets at least one face also gets a collision box.

### How the model is laid out

- **The map.** The chunk map is an arena: a `map` from position to a `Chunk`
  value. A neighbour slot holds the position of the chunk it points to. A
  missing slot is a null pointer.
- **`World` class.** The map lives in the `World` class. The operations that
  change the map in the source are methods on it or take it as an argument:
  stitch, unstitch, `reset_lighting`, `chunk_apply_lighting` and
  `update_geometry`. Stitch, unstitch, `reset_lighting` and
  `update_geometry` are each proved against a function of the old map.
  `chunk_apply_lighting` is not. Each of its fills runs over the lights the
  earlier fills left, and skips neighbours that are already lit. The model
  bounds its result from both sides instead:
  - from below: no light darkens, every unvisited seed ends at least as
    bright as its level, and every seed's fill has spread over the final map;
  - from above: every channel of every block keeps its old value, or holds
    the level an emitting seed of the chunk brought it along a chain of
    cardinal neighbours shorter than that seed's brightest channel, through
    translucent blocks the fill admits;
  - so when no block of the chunk emits, the map is unchanged.
- **Blocks.** Inside a chunk, blocks are `BlockState` values. The `Block`
  class of `block.h` shows its setters updating one cell in place.
- **Loops become methods.** Several source loops are methods with loop
  invariants:
  - the four-channel comparison in the fill;
  - the six-relation scans;
  - the four samples of a vertex;
  - the column scan of `reset_lighting`;
  - the block loop of `update_geometry`.
- **Translucency.** The per-material translucency attribute is a parameter
  (`translucent: Material -> bool`).

`chunk.h` is not part of this model, so the following are reconstructed from
how `src/chunk.cc` uses them:

- chunk sizes: 16 on each axis;
- `MAX_LIGHT_LEVEL`: 15 in each channel;
- the order of the `CardinalRelation` enumeration: ABOVE, BELOW, NORTH, SOUTH,
  EAST, WEST;
- `get_block_neighbor`: an index inside the chunk resolves to the chunk's own
  block. Any other index follows the neighbour slot of the chunk it overflows
  into.

### Where the code and its description differ

The model follows the code in each case.

- **Stitching is one-sided.** `chunk_stitch_into_map` sets slots only in the
  chunk being stitched, not in its neighbours.
- **Occlusion power.** In `calculate_vertex_lighting` the power is
  `4 - diagonal - contributors`, where `diagonal` is 1 when the corner sample
  was taken. The source evaluates this in `size_t`, because `NUM_NEIGHBORS`
  is a `size_t`. With the corner taken and all four samples contributing,
  the unsigned result wraps to 2^64 - 1, and storing it in an `int` gives
  -1. The model computes on integers and states the resulting range
  [-1, 4] in `Geometry.OcclusionRange`.
- **Face constructor.** `add_external_face` builds a face from a normal, a
  tangent and a material. The constructor in `block.h` takes only a normal
  and a material.

## Model

| member | source | states |
|---|---|---|
| Blocks.NoneIsNotARealMaterial | block.h:12-22 | The NONE/air sentinel 0xff differs from every real material GRASS..MAGMA |
| Blocks.MaxLight | src/chunk.cc:120-127 | The per-channel std::max of the fill dominates both levels and is the least level that does |
| Blocks.Attenuate | src/chunk.cc:129-136 | One hop lowers each channel by one, saturating at zero. The result is dominated by the input. It is all-zero exactly when no channel exceeded one; otherwise its brightest channel is one lower |
| Blocks.StoreChannel | block.h:74-78 | A four-bit field keeps an in-range channel unchanged and keeps any other value modulo 16 |
| Blocks.StoreLightRoundTrip | block.h:54-68 | Setting an in-range, non-negative light level and reading it back yields the same vector |
| Blocks.Block.constructor | block.h:28-36 | A fresh block is NONE, not a sunlight source, unvisited and dark |
| Blocks.Block.SetMaterial | block.h:38-46 | Requires the byte range the asserts check; the getter returns the new material and nothing else changes |
| Blocks.Block.SetSunlightSource | block.h:48-49 | The flag reads back as set; nothing else changes |
| Blocks.Block.SetVisited | block.h:51-52 | The flag reads back as set; nothing else changes |
| Blocks.Block.SetLightLevel | block.h:54-68 | Requires each channel at most the maximum (the asserts); a non-negative level reads back unchanged; material and flags are kept |
| Blocks.NewBlockFace | src/chunk.cc:284-290 | A new face has four vertices and the given normal, tangent and material |
| Blocks.SetVertex | src/chunk.cc:298-302 | Setting vertex k changes that vertex only; normal, tangent and material are kept |
| Cardinal.Relations | src/chunk.cc:12-15 | FOR_EACH_CARDINAL_RELATION visits the six relations once each, in enumeration order, each at the index of its code |
| Cardinal.RelationVector | src/chunk.cc:52-64 | A relation's vector is one step, each component in {-1, 0, 1} |
| Cardinal.RelationVectorIsAxisUnit | src/chunk.cc:52-64 | Every relation's vector is a unit vector along exactly one axis |
| Cardinal.RelationVectorInjective | src/chunk.cc:52-64 | Distinct relations have distinct vectors |
| Cardinal.TangentOrthogonal | src/chunk.cc:66-78 | The tangent relation's vector is a unit vector orthogonal to the relation's own |
| Cardinal.RelationOfCode | src/chunk.cc:12-15 | An integer names a relation exactly when it is below NUM_CARDINAL_RELATIONS; the loop's relation at that index |
| Cardinal.CodedRelationVector | src/chunk.cc:52-64 | On the enumeration's integers, a valid code gives a unit axis vector and any other reaches the throwing default |
| Cardinal.CodedRelationTangent | src/chunk.cc:66-78 | A valid code gives a valid code whose vector is orthogonal to the code's own; any other reaches the throwing default |
| ChunkGrid.NewChunk | src/chunk.cc:182-187 | A new chunk has every block default-constructed, no faces or boxes, and only the centre slot set, pointing at itself |
| ChunkGrid.BlockOrder | src/chunk.cc:7-10 | FOREACH_BLOCK visits NUM_BLOCKS local indices, each inside the chunk, the n-th being the one of rank n |
| ChunkGrid.BlockOrderComplete | src/chunk.cc:7-10 | Every local index of the chunk is visited, at the position of its rank |
| ChunkGrid.OffsetOrder | src/chunk.cc:17-20 | FOREACH_RELATION visits 27 offsets in {-1,0,1}^3, the n-th of rank n |
| ChunkGrid.OffsetOrderComplete | src/chunk.cc:17-20 | Every offset in {-1,0,1}^3 is visited |
| ChunkGrid.Resolve | src/chunk.cc:249 | get_block_neighbor: a found block lies exactly offset away in world coordinates. An index inside the chunk is the chunk's own block. A block of another chunk is only found for an index outside the chunk |
| ChunkGrid.ColumnBottom | src/chunk.cc:80-92 | The bottom of a column is a chunk of the map in the same column, no higher, with no chunk below it |
| ChunkGrid.SetBlock | block.h:38-63 | Writing one block changes that block only; keys, layout, other blocks and map validity are kept |
| ChunkMap.FoundOffsets | src/chunk.cc:413-424 | The offsets stitching finds are exactly those whose target position is a key of the map |
| ChunkMap.StitchedNeighbors | src/chunk.cc:413-424 | After stitching, a slot is set exactly when it was set before or its target is in the map; the table stays consistent |
| ChunkMap.StitchInto | src/chunk.cc:411-427 | The map gains the chunk with its stitched table; every other chunk is unchanged and the map stays valid |
| ChunkMap.StitchWiresOneSide | src/chunk.cc:411-427 | After stitching, the new chunk points at each existing neighbour, and that neighbour's table is as it was |
| ChunkMap.StitchKeepsNoDangling | src/chunk.cc:411-427 | Stitching a chunk whose slots point into the map keeps every slot pointing into the map |
| ChunkMap.UnstitchFrom | src/chunk.cc:429-438 | Unstitching erases the key only; every other chunk is unchanged |
| ChunkMap.UnstitchLeavesDanglingSlot | src/chunk.cc:429-438 | If another chunk points at the removed one, the map afterwards has a slot pointing outside it |
| ChunkMap.UnstitchDanglingExample | src/chunk.cc:411-438 | Stitch a chunk at the origin, stitch its east neighbour, unstitch the first: the neighbour's west slot dangles |
| ChunkMap.DetachFrom | src/chunk.cc:429-438 | Corrected unstitch: the key is erased and every remaining chunk loses exactly its slots toward it |
| ChunkMap.DetachKeepsNoDangling | src/chunk.cc:429-438 | The corrected unstitch keeps every slot pointing into the map |
| ChunkMap.World.StitchIntoMap | src/chunk.cc:411-427 | The 27-offset loop and insertion leave the map equal to StitchInto of the old map |
| ChunkMap.World.UnstitchFromMap | src/chunk.cc:429-438 | The chunk's 27 slots are all nulled, and the map equals UnstitchFrom of the old map |
| ChunkMap.World.UnstitchAndDetach | src/chunk.cc:429-438 | Corrected unstitch: the map equals DetachFrom of the old map and stays free of dangling slots |
| ChunkMap.World.BottomChunkInColumn | src/chunk.cc:80-92 | A null start gives null; otherwise the loop ends at the column's bottom chunk |
| FloodFill.AttenuatedByClosedForm | src/chunk.cc:129-134 | After k hops every channel is its seed value minus k, saturated at zero |
| FloodFill.AttenuatedByMonotone | src/chunk.cc:129-134 | The level carried k hops from the seed is channel-wise no brighter than the level carried fewer hops (used by ChangedWithinRadius and the fill's loop invariant) |
| FloodFill.DarkStaysDark | src/chunk.cc:129-136 | Once the carried level is dark it stays dark at every later hop |
| FloodFill.FillRadius | src/chunk.cc:129-136 | The level carried as many hops as the seed level's brightest channel, or more, is dark (used by ChangedWithinRadius) |
| FloodFill.QueuedSound | src/chunk.cc:138-164 | Every entry pushed for a block is a neighbour that is present, translucent, not a source under sunlight, unvisited and not already lit, at the attenuated level; at most one per relation |
| FloodFill.QueuedComplete | src/chunk.cc:138-164 | Every neighbour passing that test is pushed |
| FloodFill.QueuedNeighbor | src/chunk.cc:138-164 | Every pushed entry is the block that one of the scanned relations leads to from the popped block |
| FloodFill.AlreadyLit | src/chunk.cc:148-157 | The early-exit channel loop answers true exactly when the neighbour is at least as bright as the level in every channel |
| FloodFill.AdmittedNeighbors | src/chunk.cc:138-164 | The relation loop pushes exactly the entries Queued specifies, in relation order |
| FloodFill.ReplaceLighter | src/chunk.cc:110-165 | Popping an entry and pushing its at most six dimmer neighbours strictly lowers the queue's weight, so the loop terminates |
| FloodFill.PushNeighbors | src/chunk.cc:129-165 | Nothing is pushed when the attenuated level is dark. Otherwise exactly the neighbours the fill may light at that level are pushed, each a cardinal neighbour of the popped block |
| FloodFill.BreadthFirstFloodFill | src/chunk.cc:98-168 | Only lights and visited flags change. The visited list holds distinct blocks, unvisited at the start and each admitted, with the seed first. Each visited block after the seed is a cardinal neighbour of an earlier visited block, one hop farther. Each holds the maximum of its old light and the level its hop count gives. On exit, every enterable neighbour of a visited block is lit to at least the level one hop farther |
| FloodFill.FillPath | src/chunk.cc:98-168 | A visited block at hop count k is reached from the seed by a chain of k cardinal neighbour steps through visited blocks |
| FloodFill.ChangedWithinRadius | src/chunk.cc:98-168 | The fill's reach: a block whose light it changed was visited at a hop count k below the seed level's brightest channel, and a chain of k cardinal steps leads to it from the seed |
| FloodFill.SaturatedGrow | src/chunk.cc:98-168 | A fill whose visited blocks' enterable neighbours are lit stays so while no light darkens |
| Lighting.SeedsExactlySourcesAndMagma | src/chunk.cc:450-461 | A block seeds a fill exactly when it is a sunlight source (full sunlight, no red) or magma |
| Lighting.OpaqueShadowsColumn | src/chunk.cc:200-218 | An opaque block is not a sunlight source after the reset, and neither is any block below it in its column |
| Lighting.ExposedAbove | src/chunk.cc:200-218 | Sky exposure is closed upward within a column |
| Lighting.ClearColumnFullyExposed | src/chunk.cc:195-218 | A column open at the top whose blocks are all translucent is exposed all the way down |
| Lighting.ResetBlockMeaning | src/chunk.cc:189-221 | After the reset a block keeps its material and visited flag, is dark, and is a sunlight source exactly when the sky reaches it |
| Lighting.ResetColumn | src/chunk.cc:195-218 | The top-down scan of one column resets that column's blocks; every other block is unchanged |
| Lighting.ResetStep | src/chunk.cc:191-221 | Resetting one more column extends the reset region by that column |
| Lighting.ResetLighting | src/chunk.cc:189-221 | Every block of the chunk becomes its reset value; the layout and every other chunk are kept |
| Lighting.ClearVisited | src/chunk.cc:471-474 | The loop clears the visited flag of exactly the listed blocks and changes nothing else |
| Lighting.FillThenClear | src/chunk.cc:463-474 | A fill followed by clearing its flags changes only lights and darkens nothing |
| Lighting.SeedFill | src/chunk.cc:461-475 | One seed's fill and clearing change only lights and darken nothing. Each visited block holds the channel-wise maximum of its old light and the seed level attenuated once per hop; every other block keeps its light; a seed already visited leaves the map unchanged. An unvisited seed ends at least as bright as its level, and its fill has spread: its visited blocks form cardinal chains from the seed, and each one's enterable neighbours are lit one hop dimmer |
| Lighting.FilledThenCleared | src/chunk.cc:463-474 | After a fill and the clearing of its flags, each visited block holds the maximum of its old light and its hop level, and every other block keeps its light |
| Lighting.VisitedSeedUnchanged | src/chunk.cc:113-116 | A fill from a seed whose visited flag is already set visits nothing, so the map after it and the clearing is the map before it |
| Lighting.SameBlocksEqual | src/chunk.cc:440-477 | Two maps with the same chunks, layout and blocks are the same map |
| Lighting.ClearedGrow | src/chunk.cc:471-474 | Clearing the visited flags darkens no block |
| Lighting.SpreadLightsOnly | src/chunk.cc:440-477 | A fill that has spread over a map is also a spread fill of the pass's starting map, which differs from the fill's own map only in lights |
| Lighting.SpreadUpToGrow | src/chunk.cc:440-477 | Fills that have spread stay spread while later fills only raise lights |
| Lighting.SeedSpread | src/chunk.cc:461-475 | The fill just run from an unvisited seed has spread as that seed's fill over the starting map |
| Lighting.ApplyLighting | src/chunk.cc:440-477 | Only lights change and no light darkens. Every block unvisited at the start ends at least as bright as the level it seeds, and the fill of every such seed has still spread in the final map. Every channel of every block keeps its old value or holds the level an emitting seed of the chunk carried to it along a chain of cardinal neighbours within the seed's radius, each step past the seed a translucent, unvisited block (not a sunlight source, for sunlight); when no block of the chunk emits, the map is unchanged |
| Lighting.ChannelsEqual | src/chunk.cc:121-126 | Lights that agree in each of the four channels are equal |
| Lighting.MaxLightChannel | src/chunk.cc:121-126 | A channel of the channel-wise maximum of two lights is the larger of their channels |
| Lighting.ChainLightsOnly | src/chunk.cc:138-142 | A chain of cardinal neighbours in one map is a chain in any map that differs from it only in lights |
| Lighting.SeedReachLightsOnly | src/chunk.cc:440-477 | A chain from an unvisited emitting seed within its radius, found in an intermediate map of the pass, is a reach of that seed over the starting map |
| Lighting.CarriedLightsOnly | src/chunk.cc:440-477 | The level a seed's fill brings k steps along such a chain is carried by that seed over the starting map |
| Lighting.ListedCarried | src/chunk.cc:113-136 | A channel of a visited block that the fill lights at its hop count is a value carried there from the seed over the starting map |
| Lighting.LitBySeedsBlock | src/chunk.cc:113-126 | For one block and channel: after the fill raises it to the maximum of its old value and its hop level, it still holds its starting value or a value a seed carried |
| Lighting.LitBySeedsStep | src/chunk.cc:461-475 | One more seed's fill keeps every channel of every block at its starting value or at a value some seed of the chunk carried |
| Lighting.ChangedReached | src/chunk.cc:440-477 | A block whose light the pass changed is reached from an unvisited emitting seed of the chunk by a chain of cardinal neighbours shorter than that seed's brightest channel, through translucent blocks the fill admits |
| Lighting.ReachTranslucent | src/chunk.cc:143-146 | Every block of a seed's reach past the seed is present, translucent and was unvisited, and is not a sunlight source when the seed is one |
| Lighting.EnteredLightsOnly | src/chunk.cc:143-146 | Blocks a fill may enter stay enterable in a map that differs only in lights |
| Lighting.NoSeedsNoChange | src/chunk.cc:450-462 | When no block of the chunk is an unvisited sunlight source or magma block, lights bounded by its seeds are the starting lights and the map is the starting map |
| FloodFill.LitWithinRadius | src/chunk.cc:129-136 | A visited block whose hop level has light in some channel is reached from the (unvisited) seed by a chain of that many cardinal steps, fewer than the level's brightest channel, every step past the seed a block the fill may enter |
| FloodFill.ChainAppend | src/chunk.cc:138-142 | A chain extended by a cardinal neighbour of its last block is still a chain |
| Geometry.AttenuationIndex | src/chunk.cc:46-48 | The rounded index is clamped into [0, MAX_POWER * GRANULARITY]; an in-range index is kept |
| Geometry.AttenuationIndexMonotone | src/chunk.cc:46-48 | A larger power never reads an earlier table entry |
| Geometry.Contribution | src/chunk.cc:373-387 | A sample contributes exactly when it is a translucent block, or absent and counted; an absent counted sample adds full sunlight |
| Geometry.SumBounded | src/chunk.cc:368-388 | Each channel of the total lies between 0 and the maximum brightness times the contributor count |
| Geometry.SumZero | src/chunk.cc:368-388 | In each of the four channels, the total is zero exactly when no contribution has light in that channel |
| Geometry.Samples | src/chunk.cc:353-366 | There are four samples, each a block of the map when present |
| Geometry.DiagonalRule | src/chunk.cc:359-366 | The corner is sampled exactly when an edge sample is absent or translucent. When it is not, it contributes nothing and at most three samples count |
| Geometry.OcclusionRange | src/chunk.cc:368-391 | The occlusion power is 4 minus the corner flag minus the contributors (the source's size_t wrap-around read back as an int), lies in [-1, 4], and is at least 1 without the corner |
| Geometry.AbsentFaceNeighborLights | src/chunk.cc:383-387 | An absent face neighbour gives a contributor and at least full sunlight |
| Geometry.CalculateVertexLighting | src/chunk.cc:346-391 | The sampling and summing loop computes VertexLightingOf |
| Geometry.SampleNeighbors | src/chunk.cc:353-366 | The four sample slots hold the face, edge and (only when an edge is open) corner neighbours, and the corner flag is DiagonalTaken |
| Geometry.SumSamples | src/chunk.cc:368-388 | The loop over the four slots sums exactly the contributions and counts exactly the contributors that Contributions lists |
| Geometry.AddSample | src/chunk.cc:373-387 | One sample adds exactly its Contribution to the total, and one contributor when it contributes |
| Geometry.AcrossAxesNearby | src/chunk.cc:292-294 | Samples along three distinct axes lie within one step of the block |
| Geometry.FaceCorner | src/chunk.cc:296-338 | Every corner of the table samples along the two axes of the face's plane |
| Geometry.ExternalFace | src/chunk.cc:282-344 | A face has four vertices, the relation's vector as its normal and the block's material |
| Geometry.ExternalFaceOrientation | src/chunk.cc:284-290 | A face's normal and tangent are unit axis vectors, orthogonal to each other |
| Geometry.ExternalFaceDeterminesRelation | src/chunk.cc:284-290 | Distinct relations give distinct faces of the same block |
| Geometry.FaceTowardAbsentNeighborIsLit | src/chunk.cc:282-387 | Every vertex of a face toward an absent neighbour has a contributor, full sunlight and occlusion power at most 3 |
| Geometry.CornerVertex | src/chunk.cc:292-294 | The V macro gives vertex k of ExternalFace |
| Geometry.AddExternalFace | src/chunk.cc:282-344 | Building the face and setting its four vertices yields ExternalFace |
| Geometry.RelationFaces | src/chunk.cc:246-272 | A block adds at most one face per relation |
| Geometry.RelationFacesMembers | src/chunk.cc:246-272 | The faces toward the scanned relations are exactly the external faces toward those the rule admits |
| Geometry.RelationFacesSound | src/chunk.cc:246-272 | Each face toward the scanned relations is the external face toward one of them that the rule admits, returned as its index |
| Geometry.RelationFacesComplete | src/chunk.cc:246-272 | The external face toward any scanned relation the rule admits is among the faces |
| Geometry.BlockFacesMembers | src/chunk.cc:236-272 | A block's faces are exactly its external faces toward admitted relations; air has none |
| Geometry.VisibleIffSomeFace | src/chunk.cc:241-277 | A block gets a box exactly when it is not air and the rule admits a face toward some relation |
| Geometry.FacesUpToMembers | src/chunk.cc:236-279 | The faces of the first n blocks are exactly those of each of these blocks |
| Geometry.BoxesUpToMembers | src/chunk.cc:236-279 | The boxes of the first n blocks are exactly the positions of the visible ones among them |
| Geometry.ChunkFacesExactly | src/chunk.cc:223-280 | The stored faces are exactly the external faces of the chunk's non-air blocks toward admitted relations |
| Geometry.ChunkBoxesExactly | src/chunk.cc:223-280 | The stored boxes are exactly the world positions of the chunk's visible blocks |
| Geometry.GeometryCounts | src/chunk.cc:236-279 | There are at least as many faces as boxes, and at most six faces per box |
| Geometry.BlockCounts | src/chunk.cc:244-277 | A block that gets a box has between one and six faces; any other block has none |
| Geometry.FaceRule | src/chunk.cc:251-265 | Toward a present neighbour: a face iff the neighbour is translucent and of another material. Toward an absent one: iff ABOVE, or not BELOW with a neighbouring column |
| Geometry.AddBlockFaces | src/chunk.cc:244-272 | The relation loop appends exactly the block's faces and reports whether it added any |
| Geometry.NeighborColumns | src/chunk.cc:228-234 | Each relation's entry is set exactly when the column bottom has a chunk on that side |
| Geometry.UpdateGeometry | src/chunk.cc:223-280 | The chunk's faces and boxes become ChunkFaces and ChunkBoxes of the old map; nothing else changes and the map stays valid |
| Geometry.CollectGeometry | src/chunk.cc:236-279 | The block loop, in FOREACH_BLOCK order, collects exactly ChunkFaces and ChunkBoxes |
| Geometry.AddBlockGeometry | src/chunk.cc:238-278 | One block appends its BlockFaces to the faces, and its position to the boxes exactly when it is Visible |

## Left out

- Float lighting: the attenuation table of powers of 0.75, the division by the contributor count, the epsilon test and the returned Vector4f are not modelled. The model keeps the integer inputs of that arithmetic: total, contributor count, occlusion power and the clamped table index.
- Vertex positions and collision boxes: a vertex's float position is not modelled, and a box is kept as its integer minimum corner. The box is the unit cube from that corner.
- Division by zero: when no sample contributes, `calculate_vertex_lighting` divides by zero in floating point. The contributor count of zero is modelled, but the quotient is not.
- Geometry.ExternalFace: the `default` branch of `add_external_face` throws on an invalid relation. It cannot be reached with the `Relation` datatype; the integer-coded lookups (`Cardinal.CodedRelationVector`) model that error path.
- Lighting.ApplyLighting: `light_level` is an uninitialised Vector4i for a block that is neither a sunlight source nor magma. The model takes it as dark (no fill). The seed property is stated for blocks unvisited when the pass starts, because the fill skips a seed whose flag is already set.
- Material attributes: the material table is not part of this model, so translucency is a parameter.
- `block.h` as given stores three light channels, while `src/chunk.cc` uses four (red, green, blue, sunlight). The model follows `src/chunk.cc`.
- Geometry.UpdateGeometry: faces and boxes are collected in local sequences and stored into the chunk at the end, where the source appends to the chunk's vectors in place. The stored result is the same.
- A neighbour slot whose chunk has left the map is read as null. In the source that pointer would dangle; see Findings. The model keeps chunk positions, not pointers, so this holds only until another chunk is stitched at the vacated position: the stale slot then resolves to the new chunk, whereas the source's raw pointer (`src/chunk.cc:185`, `:421`) still refers to the removed one. This aliasing of a stale pointer with a newer chunk is not modelled.
- ChunkMap.StitchInto: stitching over a position that is already in the map is a second case of the same aliasing. The source's offset loop includes (0,0,0), so the new chunk's centre slot is set to the chunk it is about to replace (`src/chunk.cc:413-421`). The assignment into the map then evicts that chunk, and the slot dangles. In the model that slot holds the key `c.position`, which resolves to the new chunk itself.
- Rendering, the player, input and window handling are not modelled.

## Findings

| source | as written | input that shows it | evidently intended | confidence | as-written member | corrected member |
|---|---|---|---|---|---|---|
| src/chunk.cc:429-438 | Unstitching nulls the removed chunk's own slots and erases its key, but neighbours keep their slots pointing at it | Stitch a chunk at the origin, then its east neighbour, then unstitch the first: the neighbour's west slot still points at the removed chunk | Neighbours lose their slots toward the removed chunk, so no slot points outside the map | medium, not executed | ChunkMap.UnstitchDanglingExample | ChunkMap.DetachKeepsNoDangling |
