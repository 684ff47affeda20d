/**
 * `Mesh2dPipeline`: the bind-group layouts and dummy texture shared by every
 * 2D mesh draw, the pipeline descriptor built for each key (`specialize`),
 * optional-texture resolution and the per-frame bind groups.
 */
module Pipeline {
  import opened RenderTypes
  import opened PipelineKey

  /** The resource `Mesh2dPipeline`, created once at startup. */
  datatype Mesh2dPipeline = Mesh2dPipeline(
    viewLayout: BindGroupLayout,
    meshLayout: BindGroupLayout,
    dummyWhiteGpuImage: GpuImage)

  // ---------------------------------------------------------------------------
  // Optional textures

  /**
   * `get_image_texture`: a missing handle resolves to the dummy white image, a
   * handle whose image is not uploaded yet resolves to `None`, and an uploaded
   * image to its own view and sampler.
   */
  function GetImageTexture(pipeline: Mesh2dPipeline, gpuImages: map<HandleId, GpuImage>,
                           handleOption: Option<Handle>): (r: Option<(TextureView, Sampler)>)
    ensures r.None? <==> handleOption.Some? && handleOption.value.id !in gpuImages
    ensures handleOption.None? ==>
              r == Some((pipeline.dummyWhiteGpuImage.textureView, pipeline.dummyWhiteGpuImage.sampler))
    ensures handleOption.Some? && r.Some? ==>
              var image := gpuImages[handleOption.value.id];
              r.value == (image.textureView, image.sampler)
  {
    match handleOption
    case Some(handle) =>
      if handle.id in gpuImages then
        var gpuImage := gpuImages[handle.id];
        Some((gpuImage.textureView, gpuImage.sampler))
      else
        None
    case None =>
      Some((pipeline.dummyWhiteGpuImage.textureView, pipeline.dummyWhiteGpuImage.sampler))
  }

  // ---------------------------------------------------------------------------
  // Pipeline descriptor

  datatype VertexFormat = Float32x2 | Float32x3 | Float32x4

  /** Byte size of one attribute of the format (`VertexFormat::size`). */
  function FormatSize(f: VertexFormat): nat
  {
    match f
    case Float32x2 => 8
    case Float32x3 => 12
    case Float32x4 => 16
  }

  datatype VertexAttribute = VertexAttribute(format: VertexFormat, offset: nat, shaderLocation: nat)

  /** The byte range `[offset, offset + size)` an attribute reads from each vertex. */
  function AttributeEnd(a: VertexAttribute): nat
  {
    a.offset + FormatSize(a.format)
  }

  /** Shader locations are 0, 1, ..., n - 1 in list order. */
  predicate LocationsSequential(attributes: seq<VertexAttribute>)
  {
    forall i :: 0 <= i < |attributes| ==> attributes[i].shaderLocation == i
  }

  /** No two attributes read overlapping bytes. */
  predicate RangesDisjoint(attributes: seq<VertexAttribute>)
  {
    forall i, j :: 0 <= i < j < |attributes| ==>
      AttributeEnd(attributes[i]) <= attributes[j].offset ||
      AttributeEnd(attributes[j]) <= attributes[i].offset
  }

  /** Every attribute lies inside one vertex of `stride` bytes. */
  predicate WithinStride(attributes: seq<VertexAttribute>, stride: nat)
  {
    forall i :: 0 <= i < |attributes| ==> AttributeEnd(attributes[i]) <= stride
  }

  /** Total number of bytes the attributes read. */
  function TotalSize(attributes: seq<VertexAttribute>): nat
  {
    if attributes == [] then 0 else FormatSize(attributes[0].format) + TotalSize(attributes[1..])
  }

  datatype VertexStepMode = VertexStep | InstanceStep

  datatype VertexBufferLayout = VertexBufferLayout(
    arrayStride: nat,
    stepMode: VertexStepMode,
    attributes: seq<VertexAttribute>)

  /** A well-formed vertex table: locations 0..n-1, disjoint byte ranges that fill the stride. */
  predicate PackedLayout(stride: nat, attributes: seq<VertexAttribute>)
  {
    && LocationsSequential(attributes)
    && RangesDisjoint(attributes)
    && WithinStride(attributes, stride)
    && TotalSize(attributes) == stride
  }

  /** The vertex attributes a 2D mesh supplies, under the names `Mesh` stores them by. */
  datatype VertexAttributeName = Normal | Position | Tangent | Uv

  /** `Mesh::ATTRIBUTE_*` names, the keys by which a mesh sorts its attributes. */
  function AttributeName(n: VertexAttributeName): string
  {
    match n
    case Normal => "Vertex_Normal"
    case Position => "Vertex_Position"
    case Tangent => "Vertex_Tangent"
    case Uv => "Vertex_Uv"
  }

  /** The format each attribute has in the vertex buffer. */
  function FormatOf(n: VertexAttributeName): VertexFormat
  {
    match n
    case Normal => Float32x3
    case Position => Float32x3
    case Tangent => Float32x4
    case Uv => Float32x2
  }

  /** `a` sorts before `b` by comparing characters up to position `k`, where they first differ. */
  predicate LexLessAt(a: string, b: string, k: nat)
  {
    k <= |a| && k < |b| && a[..k] == b[..k] && (k == |a| || a[k] < b[k])
  }

  /** Strict lexicographic order on strings, as `str::cmp` orders them. */
  ghost predicate LexLess(a: string, b: string)
  {
    exists k :: LexLessAt(a, b, k)
  }

  /** The shader's locations: position, normal, uv and, with tangents, tangent. */
  function ShaderOrder(tangents: bool): seq<VertexAttributeName>
  {
    [Position, Normal, Uv] + (if tangents then [Tangent] else [])
  }

  /** The order in which `Mesh` interleaves the attributes in a vertex: by name. */
  function StorageOrder(tangents: bool): seq<VertexAttributeName>
  {
    if tangents then [Normal, Position, Tangent, Uv] else [Normal, Position, Uv]
  }

  /** Byte offset of `n` in a vertex laid out in `order`: the sizes of the attributes before it. */
  function OffsetIn(order: seq<VertexAttributeName>, n: VertexAttributeName): nat
  {
    if order == [] || order[0] == n then 0
    else FormatSize(FormatOf(order[0])) + OffsetIn(order[1..], n)
  }

  /** Byte offset of `n` in a vertex as `Mesh` stores it. */
  function StorageOffset(n: VertexAttributeName, tangents: bool): nat
  {
    OffsetIn(StorageOrder(tangents), n)
  }

  /** The attribute the shader reads at location `loc`, taken from where `Mesh` stored it. */
  predicate ReadsStoredAttribute(a: VertexAttribute, tangents: bool, loc: nat)
    requires loc < |ShaderOrder(tangents)|
  {
    var n := ShaderOrder(tangents)[loc];
    a == VertexAttribute(FormatOf(n), StorageOffset(n, tangents), loc)
  }

  /**
   * The storage order is sorted by attribute name: each name sorts before the
   * next. All names share the prefix `Vertex_` and differ at position 7.
   */
  lemma StorageOrderSorted(tangents: bool)
    ensures forall i :: 0 <= i < |StorageOrder(tangents)| - 1 ==>
              LexLess(AttributeName(StorageOrder(tangents)[i]), AttributeName(StorageOrder(tangents)[i + 1]))
  {
    var order := StorageOrder(tangents);
    forall i | 0 <= i < |order| - 1
      ensures LexLess(AttributeName(order[i]), AttributeName(order[i + 1]))
    {
      assert LexLessAt(AttributeName(order[i]), AttributeName(order[i + 1]), 7);
    }
  }

  /** The storage order lists exactly the shader's attributes. */
  lemma StorageOrderPermutesShaderOrder(tangents: bool)
    ensures multiset(StorageOrder(tangents)) == multiset(ShaderOrder(tangents))
  {
    if tangents {
      assert ShaderOrder(true) == [Position, Normal, Uv, Tangent];
    } else {
      assert ShaderOrder(false) == [Position, Normal, Uv];
    }
  }

  /** No attribute is stored twice. */
  lemma StorageOrderDistinct(tangents: bool)
    ensures forall i, j :: 0 <= i < j < |StorageOrder(tangents)| ==> StorageOrder(tangents)[i] != StorageOrder(tangents)[j]
  {
  }

  /** Where `Mesh` stores each attribute, with and without tangents. */
  lemma StorageOffsets()
    ensures StorageOffset(Normal, true) == 0 && StorageOffset(Position, true) == 12
    ensures StorageOffset(Tangent, true) == 24 && StorageOffset(Uv, true) == 40
    ensures StorageOffset(Normal, false) == 0 && StorageOffset(Position, false) == 12
    ensures StorageOffset(Uv, false) == 24
  {
    var t, p := StorageOrder(true), StorageOrder(false);
    assert t[1..] == [Position, Tangent, Uv] && t[1..][1..] == [Tangent, Uv] && t[1..][1..][1..] == [Uv];
    assert p[1..] == [Position, Uv] && p[1..][1..] == [Uv];
  }

  /**
   * The table for meshes with tangents. `Mesh` stores normal [0,12),
   * position [12,24), tangent [24,40), uv [40,48); the shader reads position,
   * normal, uv, tangent at locations 0..3.
   */
  function TangentAttributes(): seq<VertexAttribute>
  {
    [
      VertexAttribute(Float32x3, 12, 0),  // position
      VertexAttribute(Float32x3, 0, 1),   // normal
      VertexAttribute(Float32x2, 40, 2),  // uv
      VertexAttribute(Float32x4, 24, 3)   // tangent
    ]
  }

  /** The tangent table fills a 48-byte vertex with four disjoint attributes at locations 0..3. */
  lemma TangentAttributesPacked()
    ensures |TangentAttributes()| == 4 && PackedLayout(48, TangentAttributes())
  {
    var attributes := TangentAttributes();
    assert TotalSize(attributes[3..]) == 16 by { assert attributes[3..][1..] == []; }
    assert attributes[1..][1..] == attributes[2..] && attributes[2..][1..] == attributes[3..];
    assert RangesDisjoint(attributes) by {
      assert AttributeEnd(attributes[0]) == 24 && AttributeEnd(attributes[1]) == 12;
      assert AttributeEnd(attributes[2]) == 48 && AttributeEnd(attributes[3]) == 40;
    }
  }

  /** Each location of the tangent table reads its shader attribute where `Mesh` stored it. */
  lemma TangentAttributesReadStored()
    ensures |TangentAttributes()| == |ShaderOrder(true)|
    ensures forall loc :: 0 <= loc < |TangentAttributes()| ==> ReadsStoredAttribute(TangentAttributes()[loc], true, loc)
  {
    StorageOffsets();
    assert ShaderOrder(true) == [Position, Normal, Uv, Tangent];
  }

  /**
   * The table without tangents. `Mesh` stores normal [0,12), position
   * [12,24), uv [24,32); the shader reads position, normal, uv at locations 0..2.
   */
  function PlainAttributes(): seq<VertexAttribute>
  {
    [
      VertexAttribute(Float32x3, 12, 0),  // position
      VertexAttribute(Float32x3, 0, 1),   // normal
      VertexAttribute(Float32x2, 24, 2)   // uv
    ]
  }

  /** The plain table fills a 32-byte vertex with three disjoint attributes at locations 0..2. */
  lemma PlainAttributesPacked()
    ensures |PlainAttributes()| == 3 && PackedLayout(32, PlainAttributes())
  {
    var attributes := PlainAttributes();
    assert TotalSize(attributes[2..]) == 8 by { assert attributes[2..][1..] == []; }
    assert attributes[1..][1..] == attributes[2..];
  }

  /** Each location of the plain table reads its shader attribute where `Mesh` stored it. */
  lemma PlainAttributesReadStored()
    ensures |PlainAttributes()| == |ShaderOrder(false)|
    ensures forall loc :: 0 <= loc < |PlainAttributes()| ==> ReadsStoredAttribute(PlainAttributes()[loc], false, loc)
  {
    StorageOffsets();
    assert ShaderOrder(false) == [Position, Normal, Uv];
  }

  /**
   * The stride and table `specialize` picks for the tangent flag: one entry per
   * shader location, each reading its attribute where `Mesh` stored it.
   */
  function VertexLayout(tangents: bool): (r: (nat, seq<VertexAttribute>))
    ensures r.0 == (if tangents then 48 else 32)
    ensures |r.1| == |ShaderOrder(tangents)|
    ensures PackedLayout(r.0, r.1)
    ensures forall loc :: 0 <= loc < |r.1| ==> ReadsStoredAttribute(r.1[loc], tangents, loc)
  {
    TangentAttributesPacked();
    TangentAttributesReadStored();
    PlainAttributesPacked();
    PlainAttributesReadStored();
    if tangents then (48, TangentAttributes()) else (32, PlainAttributes())
  }

  datatype VertexState = VertexState(
    shader: ShaderHandle,
    entryPoint: string,
    shaderDefs: seq<string>,
    buffers: seq<VertexBufferLayout>)

  /** `TextureFormat::bevy_default()`; its platform-dependent value is not modelled. */
  datatype TextureFormat = BevyDefault

  datatype BlendState = AlphaBlending

  datatype ColorTargetState = ColorTargetState(format: TextureFormat, blend: Option<BlendState>, writeMask: bv4)

  /** `ColorWrites::ALL`: red, green, blue and alpha. */
  const ColorWritesAll: bv4 := 0xF

  datatype FragmentState = FragmentState(
    shader: ShaderHandle,
    shaderDefs: seq<string>,
    entryPoint: string,
    targets: seq<ColorTargetState>)

  datatype FrontFace = Ccw | Cw
  datatype Face = Front | Back
  datatype PolygonMode = Fill | Line | Point
  datatype IndexFormat = Uint16 | Uint32

  datatype PrimitiveState = PrimitiveState(
    frontFace: FrontFace,
    cullMode: Option<Face>,
    unclippedDepth: bool,
    polygonMode: PolygonMode,
    conservative: bool,
    topology: PrimitiveTopology,
    stripIndexFormat: Option<IndexFormat>)

  datatype MultisampleState = MultisampleState(count: bv32, mask: bv64, alphaToCoverageEnabled: bool)

  /** The 2D mesh pipeline has no depth-stencil state; the type has no other use here. */
  datatype DepthStencilState = DepthStencilState

  datatype RenderPipelineDescriptor = RenderPipelineDescriptor(
    vertex: VertexState,
    fragment: Option<FragmentState>,
    layout: Option<seq<BindGroupLayout>>,
    primitive: PrimitiveState,
    depthStencil: Option<DepthStencilState>,
    multisample: MultisampleState,
    name: string)

  /** `MESH2D_SHADER_HANDLE`. */
  const Mesh2dShaderHandle: ShaderHandle := ShaderHandle(2971387252468633715)

  /**
   * The shader defines for a key; `webgl` stands for the `webgl` cargo feature,
   * which adds `NO_ARRAY_TEXTURES_SUPPORT`.
   */
  function ShaderDefs(key: Mesh2dPipelineKey, webgl: bool): (r: seq<string>)
    ensures "VERTEX_TANGENTS" in r <==> Contains(key, VertexTangents)
    ensures "NO_ARRAY_TEXTURES_SUPPORT" in r <==> webgl
    ensures forall d :: d in r ==> d in {"VERTEX_TANGENTS", "NO_ARRAY_TEXTURES_SUPPORT"}
  {
    var defs: seq<string> := if Contains(key, VertexTangents) then ["VERTEX_TANGENTS"] else [];
    if webgl then defs + ["NO_ARRAY_TEXTURES_SUPPORT"] else defs
  }

  /** `Mesh2dPipeline::specialize`: the pipeline descriptor for a key. */
  function Specialize(pipeline: Mesh2dPipeline, key: Mesh2dPipelineKey, webgl: bool): (r: RenderPipelineDescriptor)
    ensures |r.vertex.buffers| == 1
    ensures var layout := r.vertex.buffers[0];
            && layout.arrayStride == (if Contains(key, VertexTangents) then 48 else 32)
            && layout.stepMode == VertexStep
            && |layout.attributes| == |ShaderOrder(Contains(key, VertexTangents))|
            && PackedLayout(layout.arrayStride, layout.attributes)
            && forall loc :: 0 <= loc < |layout.attributes| ==>
                 ReadsStoredAttribute(layout.attributes[loc], Contains(key, VertexTangents), loc)
    ensures r.vertex.shaderDefs == ShaderDefs(key, webgl)
    ensures ("VERTEX_TANGENTS" in r.vertex.shaderDefs) <==> Contains(key, VertexTangents)
    ensures r.fragment.Some? && r.fragment.value.shaderDefs == r.vertex.shaderDefs
    ensures r.primitive.topology == PrimitiveTopologyOf(key)
    ensures r.multisample.count == MsaaSamples(key)
    ensures r.layout == Some([pipeline.viewLayout, pipeline.meshLayout])
  {
    var (vertexArrayStride, vertexAttributes) := VertexLayout(Contains(key, VertexTangents));
    var shaderDefs := ShaderDefs(key, webgl);
    RenderPipelineDescriptor(
      vertex := VertexState(
        shader := Mesh2dShaderHandle,
        entryPoint := "vertex",
        shaderDefs := shaderDefs,
        buffers := [VertexBufferLayout(vertexArrayStride, VertexStep, vertexAttributes)]),
      fragment := Some(FragmentState(
        shader := Mesh2dShaderHandle,
        shaderDefs := shaderDefs,
        entryPoint := "fragment",
        targets := [ColorTargetState(BevyDefault, Some(AlphaBlending), ColorWritesAll)])),
      layout := Some([pipeline.viewLayout, pipeline.meshLayout]),
      primitive := PrimitiveState(
        frontFace := Ccw,
        cullMode := Some(Back),
        unclippedDepth := false,
        polygonMode := Fill,
        conservative := false,
        topology := PrimitiveTopologyOf(key),
        stripIndexFormat := None),
      depthStencil := None,
      multisample := MultisampleState(
        count := MsaaSamples(key),
        mask := !0,
        alphaToCoverageEnabled := false),
      name := "transparent_mesh2d_pipeline")
  }

  /**
   * For a key composed from a tangent flag, a sample count in 1..64 and a
   * topology, the descriptor carries exactly those three choices.
   */
  lemma SpecializeComposed(pipeline: Mesh2dPipeline, tangents: bool, n: bv32, t: PrimitiveTopology, webgl: bool)
    requires 1 <= n <= 64
    ensures var r := Specialize(pipeline, Compose(tangents, n, t), webgl);
            && r.vertex.buffers[0].arrayStride == (if tangents then 48 else 32)
            && ("VERTEX_TANGENTS" in r.vertex.shaderDefs <==> tangents)
            && r.primitive.topology == t
            && r.multisample.count == n
  {
    ComposeDecodes(tangents, n, t);
  }

  // ---------------------------------------------------------------------------
  // Per-frame bind groups

  datatype Mesh2dBindGroup = Mesh2dBindGroup(value: BindGroup)
  datatype Mesh2dViewBindGroup = Mesh2dViewBindGroup(value: BindGroup)

  /**
   * `queue_mesh2d_bind_group`: when the mesh uniform buffer has a binding this
   * frame, the resource to insert: a group over the mesh layout with that
   * binding at slot 0. Without a binding nothing is inserted.
   */
  function QueueMesh2dBindGroup(pipeline: Mesh2dPipeline, binding: Option<BindingResource>): (r: Option<Mesh2dBindGroup>)
    ensures r.Some? <==> binding.Some?
    ensures r.Some? ==>
              && r.value.value.layout == pipeline.meshLayout
              && r.value.value.entries == [BindGroupEntry(0, binding.value)]
  {
    match binding
    case Some(b) => Some(Mesh2dBindGroup(BindGroup([BindGroupEntry(0, b)], "mesh2d_bind_group", pipeline.meshLayout)))
    case None => None
  }

  /**
   * `queue_mesh2d_view_bind_groups`: the component insertions it queues, one per
   * view entity in iteration order, each a group over the view layout with the
   * view uniform binding at slot 0; none when there is no view binding.
   */
  method QueueMesh2dViewBindGroups(pipeline: Mesh2dPipeline, viewBinding: Option<BindingResource>, views: seq<Entity>)
    returns (inserts: seq<(Entity, Mesh2dViewBindGroup)>)
    ensures viewBinding.None? ==> inserts == []
    ensures viewBinding.Some? ==> |inserts| == |views|
    ensures forall i :: 0 <= i < |inserts| ==>
              && inserts[i].0 == views[i]
              && inserts[i].1.value.layout == pipeline.viewLayout
              && inserts[i].1.value.entries == [BindGroupEntry(0, viewBinding.value)]
  {
    inserts := [];
    if viewBinding.Some? {
      var viewBindingValue := viewBinding.value;
      for i := 0 to |views|
        invariant |inserts| == i
        invariant forall j :: 0 <= j < i ==>
                    && inserts[j].0 == views[j]
                    && inserts[j].1.value.layout == pipeline.viewLayout
                    && inserts[j].1.value.entries == [BindGroupEntry(0, viewBindingValue)]
      {
        var viewBindGroup := BindGroup([BindGroupEntry(0, viewBindingValue)], "mesh2d_view_bind_group", pipeline.viewLayout);
        inserts := inserts + [(views[i], Mesh2dViewBindGroup(viewBindGroup))];
      }
    }
  }
}
