/**
 * Opaque handles for the objects that the 2D mesh pipeline only passes around:
 * ECS entities, asset handles and GPU objects owned by the render device.
 * Each is identified by a number and carries no behaviour of its own.
 */
module RenderTypes {

  datatype Option<+T> = None | Some(value: T)

  /** An ECS entity. */
  datatype Entity = Entity(id: nat)

  /** The id an asset handle is hashed and compared by. */
  datatype HandleId = HandleId(id: nat)

  /** A `Handle<T>`: an asset id plus whether the handle keeps the asset alive. */
  datatype Handle = Handle(id: HandleId, strong: bool)

  /** `Handle::clone_weak`: the same asset, without extending its lifetime. */
  function CloneWeak(h: Handle): (r: Handle)
    ensures r.id == h.id && !r.strong
  {
    Handle(h.id, false)
  }

  /** GPU objects created by the render device. */
  datatype Buffer = Buffer(id: nat)
  datatype BindGroupLayout = BindGroupLayout(id: nat)
  datatype TextureView = TextureView(id: nat)
  datatype Sampler = Sampler(id: nat)

  /** A `GpuImage`: the view and sampler of an uploaded image (its texture and size are not modelled). */
  datatype GpuImage = GpuImage(textureView: TextureView, sampler: Sampler)

  /** A weak reference to the shader source the pipeline is compiled from. */
  datatype ShaderHandle = ShaderHandle(id: nat)

  /** `buffer.slice(..)`: the whole of a buffer. */
  datatype BufferSlice = WholeBuffer(buffer: Buffer)

  /** The resource a uniform buffer exposes for binding (`binding()`), whole buffer. */
  datatype BindingResource = BufferBinding(buffer: Buffer)

  /** One entry of a bind group: a resource at a binding slot. */
  datatype BindGroupEntry = BindGroupEntry(binding: nat, resource: BindingResource)

  /**
   * A bind group, represented by the descriptor it was created from
   * (`RenderDevice::create_bind_group`).
   */
  datatype BindGroup = BindGroup(entries: seq<BindGroupEntry>, name: string, layout: BindGroupLayout)
}
