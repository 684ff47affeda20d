# 2D mesh pipeline bridge (bevy_sprite `mesh2d`)

This project models, in Dafny, the logic of Bevy's 2D mesh render pipeline in
`crates/bevy_sprite/src/mesh2d/mesh.rs`. It proves properties of that model.
The file does four things each frame:

- **Pipeline key** (`pipeline_key.dfy`, module `PipelineKey`): `Mesh2dPipelineKey` is a
  `u32` bitflags set. Bit 0 is `VERTEX_TANGENTS`, bits 23..25 hold the primitive-topology
  ordinal, and bits 26..31 hold the MSAA sample count minus one. The key is a `bv32`.
  `from_bits` is bitflags' check that every set bit lies in a declared flag.
  The topology decoder falls back to wgpu's `PrimitiveTopology::default()` for ordinals
  5..7. That default is the constant `DefaultTopology` (the triangle list).
- **Pipeline specialization and resources** (`pipeline.dfy`, module `Pipeline`):
  - `specialize` builds a `RenderPipelineDescriptor` from a key. It picks one of two fixed
    vertex tables (with or without tangents), the shader defines, the topology, the
    sample count and the `[view, mesh]` layout list.
  - `get_image_texture` resolves an optional texture handle.
  - `queue_mesh2d_bind_group` and `queue_mesh2d_view_bind_groups` build the per-frame
    bind groups, but only when a uniform binding exists.
- **Extraction** (`extract.dfy`, module `Extract`): `extract_mesh2d` is the class
  `Mesh2dExtractor`. Its field `previousLen` is the system's `Local<usize>`. Its method
  loops over the query and returns the batch handed to `insert_or_spawn_batch`.
  The method is proved equal to the filter specification `Extracted`. Matrices are
  symbolic terms: "the matrix of transform t" and "the inverse-transpose of m".
- **Render commands** (`render_commands.dfy`, module `RenderCommands`): `TrackedRenderPass`
  is a class whose field `commands` is the trace of recorded pass commands. The three
  render commands `SetMesh2dViewBindGroup`, `SetMesh2dBindGroup` and `DrawMesh2d`
  append to that trace. Each also keeps the invariant `DrawsAreBound`: every draw in
  the trace comes after a vertex buffer was bound at slot 0, and every indexed draw
  after an index buffer was bound.
  The module `FrameScenario` is a client of the contracts. Its method walks through one frame with three
  entities: A is visible and indexed with 36 indices, B is visible with a mesh that is
  not uploaded, and C is invisible. The trace holds exactly A's indexed draw, B's draw
  fails, and C never reaches the render world.

`render_types.dfy` (module `RenderTypes`) holds the opaque handles: entities, asset
handles, buffers, layouts, texture views, samplers and bind groups.

Two behaviours of the code are worth noting:

- A sample count outside 1..64 is not rejected. The six-bit mask folds it, so 65 samples
  decode as 1 (`PipelineKey.FromMsaaSamples`).
- Pipeline memoisation is not done in this file. It is done by `SpecializedPipelines`,
  which is not part of this model.

## Model

| member | source | states |
|---|---|---|
| `RenderTypes.CloneWeak` | crates/bevy_sprite/src/mesh2d/mesh.rs:103 | the extracted handle names the same asset and is weak |
| `PipelineKey.Ordinal` | crates/bevy_sprite/src/mesh2d/mesh.rs:257 | a topology's discriminant is below 5 |
| `PipelineKey.OrdinalInjective` | crates/bevy_sprite/src/mesh2d/mesh.rs:266-271 | distinct topologies have distinct ordinals, so the match arms are unambiguous |
| `PipelineKey.RegionsDisjoint` | crates/bevy_sprite/src/mesh2d/mesh.rs:233-245 | the flag is bit 0, topology is bits 23..25 and MSAA is bits 26..31; the regions are pairwise disjoint and `all()` is 0xFF800001 |
| `PipelineKey.FromBits` | crates/bevy_sprite/src/mesh2d/mesh.rs:228-238 | `from_bits` succeeds exactly when bits 1..22 are clear; then the key holds those bits and is valid |
| `PipelineKey.Union` | crates/bevy_sprite/src/mesh2d/mesh.rs:233-238 | the union of two valid keys is valid |
| `PipelineKey.TangentKey` | crates/bevy_sprite/src/mesh2d/mesh.rs:235 | the key is valid and contains `VERTEX_TANGENTS` exactly when asked to |
| `PipelineKey.FromMsaaSamples` | crates/bevy_sprite/src/mesh2d/mesh.rs:247-250 | the `unwrap` never fails; only MSAA-region bits are set; decoding gives `(n - 1) % 64 + 1` |
| `PipelineKey.MsaaSamples` | crates/bevy_sprite/src/mesh2d/mesh.rs:252-254 | the decoded sample count is always between 1 and 64 |
| `PipelineKey.FromPrimitiveTopology` | crates/bevy_sprite/src/mesh2d/mesh.rs:256-261 | the `unwrap` never fails; only topology-region bits are set; decoding returns the same topology |
| `PipelineKey.TopologyField` | crates/bevy_sprite/src/mesh2d/mesh.rs:264-265 | the masked topology field is below 8 |
| `PipelineKey.PrimitiveTopologyOf` | crates/bevy_sprite/src/mesh2d/mesh.rs:263-274 | fields 0..4 decode to the topology with that ordinal; fields 5..7 decode to the default |
| `PipelineKey.MsaaRoundTrip` | crates/bevy_sprite/src/mesh2d/mesh.rs:242-254 | for every n in 1..64, `msaa_samples(from_msaa_samples(n)) == n` |
| `PipelineKey.UnusedOrdinalsDecodeToDefault` | crates/bevy_sprite/src/mesh2d/mesh.rs:272 | a key whose bits 23..25 hold 5, 6 or 7 decodes to the default topology |
| `PipelineKey.Compose` | crates/bevy_sprite/src/mesh2d/mesh.rs:233-260 | a key joined from a tangent flag, an MSAA key and a topology key passes `from_bits` |
| `PipelineKey.MsaaSamplesIgnoresOtherBits` | crates/bevy_sprite/src/mesh2d/mesh.rs:252-254 | bits set outside the MSAA region do not change the decoded sample count |
| `PipelineKey.TopologyIgnoresOtherBits` | crates/bevy_sprite/src/mesh2d/mesh.rs:263-274 | bits set outside the topology region do not change the decoded topology |
| `PipelineKey.TangentsIgnoreOtherBits` | crates/bevy_sprite/src/mesh2d/mesh.rs:235 | bits other than bit 0 do not change whether the key contains `VERTEX_TANGENTS` |
| `PipelineKey.ComposeDecodes` | crates/bevy_sprite/src/mesh2d/mesh.rs:247-274 | each component of a joined key decodes back independently: the flag, `(n - 1) % 64 + 1` samples and the topology |
| `PipelineKey.ComposeInjective` | crates/bevy_sprite/src/mesh2d/mesh.rs:247-274 | for counts in 1..64, two joined keys are equal exactly when all three components are equal |
| `Pipeline.GetImageTexture` | crates/bevy_sprite/src/mesh2d/mesh.rs:211-225 | the result is `None` exactly when a handle is given but its image is not uploaded; no handle gives the dummy view and sampler; an uploaded image gives its own view and sampler |
| `Pipeline.StorageOrderSorted` | crates/bevy_sprite/src/mesh2d/mesh.rs:286 | `Mesh` stores the attributes sorted by name: `Vertex_Normal`, `Vertex_Position`, `Vertex_Tangent`, `Vertex_Uv`, each sorting before the next |
| `Pipeline.StorageOrderPermutesShaderOrder` | crates/bevy_sprite/src/mesh2d/mesh.rs:286-333 | the storage order lists exactly the shader's attributes (position, normal, uv and, with tangents, tangent) |
| `Pipeline.StorageOrderDistinct` | crates/bevy_sprite/src/mesh2d/mesh.rs:286-333 | no attribute is stored twice in a vertex |
| `Pipeline.StorageOffsets` | crates/bevy_sprite/src/mesh2d/mesh.rs:286-333 | in name-sorted storage, normal starts at 0, position at 12, tangent at 24 and uv at 40 with tangents, or uv at 24 without |
| `Pipeline.TangentAttributesPacked` | crates/bevy_sprite/src/mesh2d/mesh.rs:283-310 | the tangent table has four attributes at locations 0..3 whose byte ranges are disjoint and exactly fill a 48-byte stride |
| `Pipeline.TangentAttributesReadStored` | crates/bevy_sprite/src/mesh2d/mesh.rs:283-310 | location i of the tangent table reads the i-th shader attribute (position, normal, uv, tangent) in its format at the offset where name-sorted storage puts it |
| `Pipeline.PlainAttributesPacked` | crates/bevy_sprite/src/mesh2d/mesh.rs:313-335 | the plain table has three attributes at locations 0..2 whose byte ranges are disjoint and exactly fill a 32-byte stride |
| `Pipeline.PlainAttributesReadStored` | crates/bevy_sprite/src/mesh2d/mesh.rs:313-335 | location i of the plain table reads the i-th shader attribute (position, normal, uv) in its format at its name-sorted storage offset |
| `Pipeline.VertexLayout` | crates/bevy_sprite/src/mesh2d/mesh.rs:281-336 | stride 48 when tangents are present, else 32; one entry per shader location, each reading its attribute where `Mesh` stored it; the table is packed: locations 0..n-1, disjoint byte ranges inside the stride, adding up to it |
| `Pipeline.ShaderDefs` | crates/bevy_sprite/src/mesh2d/mesh.rs:337-343 | `VERTEX_TANGENTS` is defined exactly when the key contains the flag, `NO_ARRAY_TEXTURES_SUPPORT` exactly under the webgl feature, and nothing else is defined |
| `Pipeline.Specialize` | crates/bevy_sprite/src/mesh2d/mesh.rs:280-384 | one per-vertex buffer with the flag-selected stride whose locations read each attribute at its storage offset; the defines are exactly `ShaderDefs` (tangent define iff the flag, webgl define iff webgl, nothing else); vertex and fragment stages get the same defines; topology is `primitive_topology()`; sample count is `msaa_samples()`; layouts are exactly `[view, mesh]` |
| `Pipeline.SpecializeComposed` | crates/bevy_sprite/src/mesh2d/mesh.rs:345-384 | for a key joined from (flag, n in 1..64, t), the descriptor has the flag's stride and define, topology t and sample count n |
| `Pipeline.QueueMesh2dBindGroup` | crates/bevy_sprite/src/mesh2d/mesh.rs:391-409 | a mesh bind group is inserted exactly when the uniform buffer has a binding; it binds that resource at slot 0 of the mesh layout |
| `Pipeline.QueueMesh2dViewBindGroups` | crates/bevy_sprite/src/mesh2d/mesh.rs:416-439 | without a view binding nothing is inserted; otherwise each view gets one group, in view order, over the view layout with the binding at slot 0 |
| `Extract.ExtractItem` | crates/bevy_sprite/src/mesh2d/mesh.rs:99-110 | a visible item yields a record with its entity, a weak copy of its handle, flags 0, the item's matrix and that matrix's inverse-transpose |
| `Extract.Extracted` | crates/bevy_sprite/src/mesh2d/mesh.rs:95-111 | the batch is no longer than the query, and every record has flags 0 and a weak handle |
| `Extract.ExtractedAppend` | crates/bevy_sprite/src/mesh2d/mesh.rs:95-111 | extraction distributes over concatenation of queries, so records keep query order |
| `Extract.ExtractedSingle` | crates/bevy_sprite/src/mesh2d/mesh.rs:96-110 | one item contributes its record when visible and nothing when invisible |
| `Extract.NothingVisibleExtractsNothing` | crates/bevy_sprite/src/mesh2d/mesh.rs:96-98 | a query with no visible item yields an empty batch |
| `Extract.AllVisibleExtractsAll` | crates/bevy_sprite/src/mesh2d/mesh.rs:95-111 | when every item is visible, the i-th record is the i-th item's |
| `Extract.ExtractedEntities` | crates/bevy_sprite/src/mesh2d/mesh.rs:95-111 | an entity appears in the batch exactly when some visible query item carries it |
| `Extract.Mesh2dExtractor.constructor` | crates/bevy_sprite/src/mesh2d/mesh.rs:91 | the local `previous_len` starts at 0 |
| `Extract.Mesh2dExtractor.ExtractMesh2d` | crates/bevy_sprite/src/mesh2d/mesh.rs:89-114 | the batch is the filter specification of the query, whatever the previous capacity was; afterwards `previous_len` is the batch length |
| `RenderCommands.AppendNonDrawsKeepsBound` | crates/bevy_sprite/src/mesh2d/mesh.rs:452-476 | appending bind-group commands keeps every draw in the trace bound |
| `RenderCommands.DrawAfterBindsKeepsBound` | crates/bevy_sprite/src/mesh2d/mesh.rs:493-505 | appending a vertex-buffer bind, an optional index-buffer bind and one draw keeps every draw bound |
| `RenderCommands.TrackedRenderPass.constructor` | crates/bevy_sprite/src/mesh2d/mesh.rs:449 | a fresh pass has recorded nothing |
| `RenderCommands.TrackedRenderPass.SetBindGroup` | crates/bevy_sprite/src/mesh2d/mesh.rs:452 | the call is appended to the trace |
| `RenderCommands.TrackedRenderPass.SetVertexBuffer` | crates/bevy_sprite/src/mesh2d/mesh.rs:493 | the call is appended to the trace |
| `RenderCommands.TrackedRenderPass.SetIndexBuffer` | crates/bevy_sprite/src/mesh2d/mesh.rs:500 | the call is appended to the trace |
| `RenderCommands.TrackedRenderPass.DrawIndexed` | crates/bevy_sprite/src/mesh2d/mesh.rs:501 | the call is appended to the trace |
| `RenderCommands.TrackedRenderPass.Draw` | crates/bevy_sprite/src/mesh2d/mesh.rs:504 | the call is appended to the trace |
| `RenderCommands.SetMesh2dViewBindGroup` | crates/bevy_sprite/src/mesh2d/mesh.rs:441-456 | appends exactly one `SetBindGroup(I, view group, [view offset])`, returns `Success` and keeps draws bound |
| `RenderCommands.SetMesh2dBindGroup` | crates/bevy_sprite/src/mesh2d/mesh.rs:458-479 | appends exactly one `SetBindGroup(I, mesh group, [item's dynamic index])`, returns `Success` and keeps draws bound |
| `RenderCommands.DrawMesh2d` | crates/bevy_sprite/src/mesh2d/mesh.rs:481-511 | `Success` exactly when the mesh is uploaded. An unresolved mesh appends nothing. Indexed appends vertex buffer 0, index buffer and `draw_indexed(0..count, 0, 0..1)`. Non-indexed appends vertex buffer 0 and `draw(0..vertex_count, 0..1)`. Draws stay bound |

## Left out

- Plugin wiring and shader registration (mesh.rs:44-71) are app and scheduling setup with no logic of their own.
- `FromWorld for Mesh2dPipeline` (mesh.rs:124-208) only creates layouts, the dummy texture and a sampler through the render device and queue. These are foreign GPU calls, plus an `f32` size conversion. `Mesh2dPipeline` is a record of what it produces.
- The matrix numerics `compute_matrix` and `inverse().transpose()` are floating point. They are symbolic terms here, so the model records which matrix is which and nothing about their values.
- The `SpecializedPipelines` cache, `ComponentUniforms` (uniform aggregation and std140 layout) and the offset assignment behind `DynamicUniformIndex` live in bevy_render, which is not part of this model. Offsets and bindings are inputs.
- `TrackedRenderPass` is in bevy_render and is not part of this model. It skips redundant binds (a bind group, vertex buffer or index buffer identical to the one already bound); the model records every call.
- Which render commands run for an item, and in what order, is decided by the render phase in bevy_render. That is not part of this model; `FrameScenario` only shows one such sequence.
- `RenderDevice::create_bind_group` is represented by the descriptor it receives. Two groups built from equal descriptors are therefore equal values, and GPU object identity is not captured.
- References returned by `get_image_texture` are modelled as the values they point to.
- `insert_or_spawn_batch` and `commands.entity(..).insert(..)` are not applied to a world. The model returns the batch or the list of insertions instead.
- The `#[cfg(feature = "webgl")]` define is the boolean parameter `webgl`. The texture format, blend state and write mask are recorded as constants with no further meaning.
- The `.unwrap()` calls on ECS queries (mesh.rs:451, 471, 491) are world-consistency assumptions. They are the `requires` of the three render commands.
- `Mesh` (in bevy_render) is not part of this model. `StorageOrder` stands for the name-sorted order in which it interleaves the attributes of a 2D mesh; the buffer's contents are not modelled.
- wgpu-types is not part of this model. `DefaultTopology` is its `PrimitiveTopology::default()` (the triangle list), and the ordinals 0..4 follow its declaration order.
- `PipelineKey.FromMsaaSamples`: requires a count of at least 1, because `msaa_samples - 1` panics on 0 in a checked build. The wrap to `u32::MAX` (64 samples) that an unchecked build would perform is not modelled.
- Draw counts, offsets and dynamic indices are `u32` in the source and unbounded naturals here. No arithmetic is done on them, so no wrap-around can arise.
