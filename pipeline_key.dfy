/**
 * `Mesh2dPipelineKey`: the 32-bit flag set that selects a 2D mesh pipeline variant.
 *
 *   bit  0       VERTEX_TANGENTS flag
 *   bits 23..25  primitive-topology ordinal (mask 0b111, shift 23)
 *   bits 26..31  MSAA sample count minus one (mask 0b111111, shift 26)
 *
 * The key follows `bitflags` semantics: `from_bits` accepts only bits that lie
 * inside a declared flag, `|` is the bitwise union and `contains` is inclusion.
 */
module PipelineKey {
  import opened RenderTypes

  /** wgpu's primitive topologies, with discriminants 0..4 in this order. */
  datatype PrimitiveTopology = PointList | LineList | LineStrip | TriangleList | TriangleStrip

  /** `topology as u32`. */
  function Ordinal(t: PrimitiveTopology): (r: bv32)
    ensures r < 5
  {
    match t
    case PointList => 0
    case LineList => 1
    case LineStrip => 2
    case TriangleList => 3
    case TriangleStrip => 4
  }

  /** Distinct topologies have distinct discriminants. */
  lemma OrdinalInjective(t: PrimitiveTopology, u: PrimitiveTopology)
    ensures Ordinal(t) == Ordinal(u) <==> t == u
  {
  }

  /** `PrimitiveTopology::default()`, defined by wgpu as the triangle list. */
  const DefaultTopology: PrimitiveTopology := TriangleList

  datatype Mesh2dPipelineKey = Mesh2dPipelineKey(bits: bv32)

  const NoneBits: bv32 := 0
  const VertexTangents: bv32 := 1 << 0
  const MsaaMaskBits: bv32 := 0x3F
  const MsaaShiftBits: nat := 32 - 6
  const PrimitiveTopologyMaskBits: bv32 := 0x7
  const PrimitiveTopologyShiftBits: nat := MsaaShiftBits - 3
  const MsaaReservedBits: bv32 := MsaaMaskBits << MsaaShiftBits
  const PrimitiveTopologyReservedBits: bv32 := PrimitiveTopologyMaskBits << PrimitiveTopologyShiftBits

  /** `Mesh2dPipelineKey::all()`: the union of every declared flag. */
  const AllBits: bv32 := ((NoneBits | VertexTangents) | MsaaReservedBits) | PrimitiveTopologyReservedBits

  /** The three declared regions are exactly the documented bit ranges and do not overlap. */
  lemma RegionsDisjoint()
    ensures VertexTangents == 0x0000_0001
    ensures PrimitiveTopologyReservedBits == 0x0380_0000
    ensures MsaaReservedBits == 0xFC00_0000
    ensures VertexTangents & MsaaReservedBits == 0
    ensures VertexTangents & PrimitiveTopologyReservedBits == 0
    ensures MsaaReservedBits & PrimitiveTopologyReservedBits == 0
    ensures AllBits == 0xFF80_0001
  {
  }

  /** A key whose bits all lie inside declared flags, as `from_bits` demands. */
  predicate Valid(k: Mesh2dPipelineKey)
  {
    k.bits & !AllBits == 0
  }

  /** `Mesh2dPipelineKey::from_bits`: `None` when a bit outside every declared flag is set. */
  function FromBits(bits: bv32): (r: Option<Mesh2dPipelineKey>)
    ensures r.Some? <==> bits & 0x007F_FFFE == 0
    ensures r.Some? ==> r.value.bits == bits && Valid(r.value)
  {
    if bits & !AllBits == 0 then Some(Mesh2dPipelineKey(bits)) else None
  }

  /** The bitwise union `a | b`. */
  function Union(a: Mesh2dPipelineKey, b: Mesh2dPipelineKey): (r: Mesh2dPipelineKey)
    ensures Valid(a) && Valid(b) ==> Valid(r)
  {
    Mesh2dPipelineKey(a.bits | b.bits)
  }

  /** `key.contains(flag)`: every bit of `flag` is set in `key`. */
  predicate Contains(k: Mesh2dPipelineKey, flag: bv32)
  {
    k.bits & flag == flag
  }

  /** The key holding only the VERTEX_TANGENTS flag, or the empty key. */
  function TangentKey(tangents: bool): (r: Mesh2dPipelineKey)
    ensures Valid(r)
    ensures Contains(r, VertexTangents) == tangents
  {
    Mesh2dPipelineKey(if tangents then VertexTangents else NoneBits)
  }

  /**
   * `from_msaa_samples`. The source subtracts one from a `u32`, which panics on
   * zero in a checked build, so callers pass a count of at least one. The
   * `from_bits(..).unwrap()` is the `.value` below: it verifies, so it never panics.
   */
  function FromMsaaSamples(msaaSamples: bv32): (r: Mesh2dPipelineKey)
    requires msaaSamples >= 1
    ensures Valid(r)
    ensures r.bits & !MsaaReservedBits == 0
    ensures MsaaSamples(r) == (msaaSamples - 1) % 64 + 1
  {
    var msaaBits := ((msaaSamples - 1) & MsaaMaskBits) << MsaaShiftBits;
    FromBits(msaaBits).value
  }

  /** `msaa_samples`: the sample count stored in the top six bits. */
  function MsaaSamples(k: Mesh2dPipelineKey): (r: bv32)
    ensures 1 <= r <= 64
  {
    ((k.bits >> MsaaShiftBits) & MsaaMaskBits) + 1
  }

  /** `from_primitive_topology`; the unwrap never panics for the same reason as above. */
  function FromPrimitiveTopology(t: PrimitiveTopology): (r: Mesh2dPipelineKey)
    ensures Valid(r)
    ensures r.bits & !PrimitiveTopologyReservedBits == 0
    ensures PrimitiveTopologyOf(r) == t
  {
    var topologyBits := (Ordinal(t) & PrimitiveTopologyMaskBits) << PrimitiveTopologyShiftBits;
    FromBits(topologyBits).value
  }

  /** The three bits of the topology region, shifted down. */
  function TopologyField(k: Mesh2dPipelineKey): (r: bv32)
    ensures r < 8
  {
    (k.bits >> PrimitiveTopologyShiftBits) & PrimitiveTopologyMaskBits
  }

  /** `primitive_topology`: the topology whose ordinal is stored, or the default for 5..7. */
  function PrimitiveTopologyOf(k: Mesh2dPipelineKey): (r: PrimitiveTopology)
    ensures TopologyField(k) < 5 ==> Ordinal(r) == TopologyField(k)
    ensures TopologyField(k) >= 5 ==> r == DefaultTopology
  {
    var topologyBits := TopologyField(k);
    if topologyBits == Ordinal(PointList) then PointList
    else if topologyBits == Ordinal(LineList) then LineList
    else if topologyBits == Ordinal(LineStrip) then LineStrip
    else if topologyBits == Ordinal(TriangleList) then TriangleList
    else if topologyBits == Ordinal(TriangleStrip) then TriangleStrip
    else DefaultTopology
  }

  /** For every count from 1 to 64 the MSAA encoding round-trips exactly. */
  lemma MsaaRoundTrip(n: bv32)
    requires 1 <= n <= 64
    ensures MsaaSamples(FromMsaaSamples(n)) == n
  {
  }

  /** Bits 23..25 holding 5, 6 or 7 decode to the default topology. */
  lemma UnusedOrdinalsDecodeToDefault(k: Mesh2dPipelineKey)
    requires k.bits & PrimitiveTopologyReservedBits in {0x0280_0000, 0x0300_0000, 0x0380_0000}
    ensures PrimitiveTopologyOf(k) == DefaultTopology
  {
    assert TopologyField(k) >= 5;
  }

  /**
   * The key callers build for a mesh: the tangent flag, the MSAA count and the
   * topology, joined with `|`.
   */
  function Compose(tangents: bool, msaaSamples: bv32, t: PrimitiveTopology): (r: Mesh2dPipelineKey)
    requires msaaSamples >= 1
    ensures FromBits(r.bits).Some?
  {
    Union(Union(TangentKey(tangents), FromMsaaSamples(msaaSamples)), FromPrimitiveTopology(t))
  }

  /** Setting bits outside the MSAA region leaves the decoded sample count unchanged. */
  lemma MsaaSamplesIgnoresOtherBits(a: Mesh2dPipelineKey, b: Mesh2dPipelineKey)
    requires b.bits & MsaaReservedBits == 0
    ensures MsaaSamples(Union(a, b)) == MsaaSamples(a)
  {
  }

  /** Setting bits outside the topology region leaves the decoded topology unchanged. */
  lemma TopologyIgnoresOtherBits(a: Mesh2dPipelineKey, b: Mesh2dPipelineKey)
    requires b.bits & PrimitiveTopologyReservedBits == 0
    ensures PrimitiveTopologyOf(Union(a, b)) == PrimitiveTopologyOf(a)
  {
    assert TopologyField(Union(a, b)) == TopologyField(a);
  }

  /** Setting bits other than bit 0 leaves the tangent flag unchanged. */
  lemma TangentsIgnoreOtherBits(a: Mesh2dPipelineKey, b: Mesh2dPipelineKey)
    requires b.bits & VertexTangents == 0
    ensures Contains(Union(a, b), VertexTangents) == Contains(a, VertexTangents)
  {
  }

  /** Each component of a composed key decodes independently of the other two. */
  lemma ComposeDecodes(tangents: bool, msaaSamples: bv32, t: PrimitiveTopology)
    requires msaaSamples >= 1
    ensures Contains(Compose(tangents, msaaSamples, t), VertexTangents) == tangents
    ensures MsaaSamples(Compose(tangents, msaaSamples, t)) == (msaaSamples - 1) % 64 + 1
    ensures PrimitiveTopologyOf(Compose(tangents, msaaSamples, t)) == t
  {
    var a, m, p := TangentKey(tangents), FromMsaaSamples(msaaSamples), FromPrimitiveTopology(t);
    RegionsDisjoint();
    TangentsIgnoreOtherBits(a, m);
    TangentsIgnoreOtherBits(Union(a, m), p);
    MsaaSamplesIgnoresOtherBits(m, a);
    assert Union(m, a) == Union(a, m);
    MsaaSamplesIgnoresOtherBits(Union(a, m), p);
    TopologyIgnoresOtherBits(p, Union(a, m));
    assert Union(p, Union(a, m)) == Union(Union(a, m), p);
  }

  /** Two composed keys with legal inputs are equal exactly when their components are. */
  lemma ComposeInjective(tangents: bool, n: bv32, t: PrimitiveTopology,
                         tangents': bool, n': bv32, t': PrimitiveTopology)
    requires 1 <= n <= 64 && 1 <= n' <= 64
    ensures Compose(tangents, n, t) == Compose(tangents', n', t') <==>
            tangents == tangents' && n == n' && t == t'
  {
    ComposeDecodes(tangents, n, t);
    ComposeDecodes(tangents', n', t');
  }
}
