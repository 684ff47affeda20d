/**
 * The render commands that draw one 2D mesh item: bind the view group, bind
 * the mesh uniform group at the item's dynamic offset, and draw the mesh.
 * The render pass is modelled as the trace of commands recorded into it.
 */
module RenderCommands {
  import opened RenderTypes
  import opened Pipeline
  import opened Extract

  /** A half-open range `start..end`. */
  datatype Range = Range(start: int, end: int)

  /** The commands a render pass records. */
  datatype PassCommand =
    | SetBindGroup(index: nat, bindGroup: BindGroup, dynamicUniformIndices: seq<nat>)
    | SetVertexBuffer(slotIndex: nat, slice: BufferSlice)
    | SetIndexBuffer(indexSlice: BufferSlice, offset: nat, indexFormat: IndexFormat)
    | DrawIndexed(indices: Range, baseVertex: int, instances: Range)
    | Draw(vertices: Range, instances: Range)

  /** Whether a command issues a draw call. */
  predicate IsDraw(c: PassCommand)
  {
    c.DrawIndexed? || c.Draw?
  }

  /**
   * Every draw in the trace comes after a vertex buffer was bound at slot 0,
   * and every indexed draw after an index buffer was bound.
   */
  ghost predicate DrawsAreBound(trace: seq<PassCommand>)
  {
    forall i :: 0 <= i < |trace| && IsDraw(trace[i]) ==>
      && (exists j :: 0 <= j < i && trace[j].SetVertexBuffer? && trace[j].slotIndex == 0)
      && (trace[i].DrawIndexed? ==> exists j :: 0 <= j < i && trace[j].SetIndexBuffer?)
  }

  /** Appending commands that are not draws keeps every earlier draw bound. */
  lemma {:induction false} AppendNonDrawsKeepsBound(trace: seq<PassCommand>, more: seq<PassCommand>)
    requires DrawsAreBound(trace)
    requires forall k :: 0 <= k < |more| ==> !IsDraw(more[k])
    ensures DrawsAreBound(trace + more)
  {
    var t := trace + more;
    forall i | 0 <= i < |t| && IsDraw(t[i])
      ensures exists j :: 0 <= j < i && t[j].SetVertexBuffer? && t[j].slotIndex == 0
      ensures t[i].DrawIndexed? ==> exists j :: 0 <= j < i && t[j].SetIndexBuffer?
    {
      assert i < |trace|;
      assert t[i] == trace[i];
      var j :| 0 <= j < i && trace[j].SetVertexBuffer? && trace[j].slotIndex == 0;
      assert t[j] == trace[j];
      if t[i].DrawIndexed? {
        var j' :| 0 <= j' < i && trace[j'].SetIndexBuffer?;
        assert t[j'] == trace[j'];
      }
    }
  }

  /** `TrackedRenderPass`: records, in order, every command issued to it. */
  class TrackedRenderPass {
    var commands: seq<PassCommand>

    constructor ()
      ensures commands == []
    {
      commands := [];
    }

    method SetBindGroup(index: nat, bindGroup: BindGroup, dynamicUniformIndices: seq<nat>)
      modifies this
      ensures commands == old(commands) + [PassCommand.SetBindGroup(index, bindGroup, dynamicUniformIndices)]
    {
      commands := commands + [PassCommand.SetBindGroup(index, bindGroup, dynamicUniformIndices)];
    }

    method SetVertexBuffer(slotIndex: nat, slice: BufferSlice)
      modifies this
      ensures commands == old(commands) + [PassCommand.SetVertexBuffer(slotIndex, slice)]
    {
      commands := commands + [PassCommand.SetVertexBuffer(slotIndex, slice)];
    }

    method SetIndexBuffer(indexSlice: BufferSlice, offset: nat, indexFormat: IndexFormat)
      modifies this
      ensures commands == old(commands) + [PassCommand.SetIndexBuffer(indexSlice, offset, indexFormat)]
    {
      commands := commands + [PassCommand.SetIndexBuffer(indexSlice, offset, indexFormat)];
    }

    method DrawIndexed(indices: Range, baseVertex: int, instances: Range)
      modifies this
      ensures commands == old(commands) + [PassCommand.DrawIndexed(indices, baseVertex, instances)]
    {
      commands := commands + [PassCommand.DrawIndexed(indices, baseVertex, instances)];
    }

    method Draw(vertices: Range, instances: Range)
      modifies this
      ensures commands == old(commands) + [PassCommand.Draw(vertices, instances)]
    {
      commands := commands + [PassCommand.Draw(vertices, instances)];
    }
  }

  datatype RenderCommandResult = Success | Failure

  /** `ViewUniformOffset`: the view's offset into the view uniform buffer. */
  datatype ViewUniformOffset = ViewUniformOffset(offset: nat)

  /** `DynamicUniformIndex<Mesh2dUniform>`: the item's offset into the mesh uniform buffer. */
  datatype DynamicUniformIndex = DynamicUniformIndex(index: nat)

  /** How a GPU mesh is drawn: through an index buffer, or straight from its vertices. */
  datatype GpuBufferInfo =
    | Indexed(buffer: Buffer, indexFormat: IndexFormat, count: nat)
    | NonIndexed(vertexCount: nat)

  /** `GpuMesh`: an uploaded mesh (its topology and tangent flag are not used here). */
  datatype GpuMesh = GpuMesh(vertexBuffer: Buffer, bufferInfo: GpuBufferInfo)

  /**
   * `SetMesh2dViewBindGroup<I>::render`: binds the view's group at slot `index`
   * with the view's uniform offset. The query lookup is unwrapped in the source,
   * so the view must carry both components.
   */
  method SetMesh2dViewBindGroup(index: nat, view: Entity, item: Entity,
                                viewQuery: map<Entity, (ViewUniformOffset, Mesh2dViewBindGroup)>,
                                pass: TrackedRenderPass)
    returns (result: RenderCommandResult)
    requires view in viewQuery
    modifies pass
    ensures result == Success
    ensures pass.commands ==
              old(pass.commands) + [SetBindGroup(index, viewQuery[view].1.value, [viewQuery[view].0.offset])]
    ensures DrawsAreBound(old(pass.commands)) ==> DrawsAreBound(pass.commands)
  {
    var (viewUniform, mesh2dViewBindGroup) := viewQuery[view];
    ghost var before := pass.commands;
    pass.SetBindGroup(index, mesh2dViewBindGroup.value, [viewUniform.offset]);
    if DrawsAreBound(before) {
      AppendNonDrawsKeepsBound(before, [SetBindGroup(index, mesh2dViewBindGroup.value, [viewUniform.offset])]);
    }
    result := Success;
  }

  /**
   * `SetMesh2dBindGroup<I>::render`: binds the frame's mesh group at slot
   * `index` with the item's dynamic uniform index. The lookup is unwrapped in
   * the source, so the item must carry the index.
   */
  method SetMesh2dBindGroup(index: nat, view: Entity, item: Entity,
                            mesh2dBindGroup: Mesh2dBindGroup,
                            mesh2dQuery: map<Entity, DynamicUniformIndex>,
                            pass: TrackedRenderPass)
    returns (result: RenderCommandResult)
    requires item in mesh2dQuery
    modifies pass
    ensures result == Success
    ensures pass.commands ==
              old(pass.commands) + [SetBindGroup(index, mesh2dBindGroup.value, [mesh2dQuery[item].index])]
    ensures DrawsAreBound(old(pass.commands)) ==> DrawsAreBound(pass.commands)
  {
    var mesh2dIndex := mesh2dQuery[item];
    ghost var before := pass.commands;
    pass.SetBindGroup(index, mesh2dBindGroup.value, [mesh2dIndex.index]);
    if DrawsAreBound(before) {
      AppendNonDrawsKeepsBound(before, [SetBindGroup(index, mesh2dBindGroup.value, [mesh2dIndex.index])]);
    }
    result := Success;
  }

  /**
   * `DrawMesh2d::render`: when the item's mesh is uploaded, binds its vertex
   * buffer and issues one draw of all its indices or vertices, a single
   * instance; when it is not, records nothing and fails. The handle lookup is
   * unwrapped in the source, so the item must carry a mesh handle.
   */
  method DrawMesh2d(view: Entity, item: Entity, meshes: map<HandleId, GpuMesh>,
                    mesh2dQuery: map<Entity, Mesh2dHandle>, pass: TrackedRenderPass)
    returns (result: RenderCommandResult)
    requires item in mesh2dQuery
    modifies pass
    ensures var id := mesh2dQuery[item].handle.id;
            && (result == Success <==> id in meshes)
            && (id !in meshes ==> pass.commands == old(pass.commands))
            && (id in meshes ==>
                  var gpuMesh := meshes[id];
                  pass.commands == old(pass.commands) + match gpuMesh.bufferInfo
                    case Indexed(buffer, indexFormat, count) =>
                      [SetVertexBuffer(0, WholeBuffer(gpuMesh.vertexBuffer)),
                       SetIndexBuffer(WholeBuffer(buffer), 0, indexFormat),
                       DrawIndexed(Range(0, count), 0, Range(0, 1))]
                    case NonIndexed(vertexCount) =>
                      [SetVertexBuffer(0, WholeBuffer(gpuMesh.vertexBuffer)),
                       Draw(Range(0, vertexCount), Range(0, 1))])
    ensures DrawsAreBound(old(pass.commands)) ==> DrawsAreBound(pass.commands)
  {
    var meshHandle := mesh2dQuery[item].handle;
    ghost var before := pass.commands;
    if meshHandle.id in meshes {
      var gpuMesh := meshes[meshHandle.id];
      pass.SetVertexBuffer(0, WholeBuffer(gpuMesh.vertexBuffer));
      match gpuMesh.bufferInfo {
        case Indexed(buffer, indexFormat, count) =>
          pass.SetIndexBuffer(WholeBuffer(buffer), 0, indexFormat);
          pass.DrawIndexed(Range(0, count), 0, Range(0, 1));
          if DrawsAreBound(before) {
            var more := [SetVertexBuffer(0, WholeBuffer(gpuMesh.vertexBuffer)),
                         SetIndexBuffer(WholeBuffer(buffer), 0, indexFormat),
                         DrawIndexed(Range(0, count), 0, Range(0, 1))];
            assert more[1].SetIndexBuffer?;
            DrawAfterBindsKeepsBound(before, more);
          }
        case NonIndexed(vertexCount) =>
          pass.Draw(Range(0, vertexCount), Range(0, 1));
          if DrawsAreBound(before) {
            DrawAfterBindsKeepsBound(before, [SetVertexBuffer(0, WholeBuffer(gpuMesh.vertexBuffer)),
                                              Draw(Range(0, vertexCount), Range(0, 1))]);
          }
      }
      result := Success;
    } else {
      result := Failure;
    }
  }

  /**
   * Appending the commands of one successful mesh draw (a vertex buffer at slot
   * 0, possibly an index buffer, then one draw) keeps every draw bound.
   */
  lemma DrawAfterBindsKeepsBound(trace: seq<PassCommand>, more: seq<PassCommand>)
    requires DrawsAreBound(trace)
    requires |more| >= 2 && more[0].SetVertexBuffer? && more[0].slotIndex == 0
    requires forall k :: 0 <= k < |more| - 1 ==> !IsDraw(more[k])
    requires more[|more| - 1].DrawIndexed? ==> exists k :: 0 <= k < |more| - 1 && more[k].SetIndexBuffer?
    ensures DrawsAreBound(trace + more)
  {
    var init := more[..|more| - 1];
    AppendNonDrawsKeepsBound(trace, init);
    var t := trace + more;
    assert t[..|t| - 1] == trace + init;
    forall i | 0 <= i < |t| && IsDraw(t[i])
      ensures exists j :: 0 <= j < i && t[j].SetVertexBuffer? && t[j].slotIndex == 0
      ensures t[i].DrawIndexed? ==> exists j :: 0 <= j < i && t[j].SetIndexBuffer?
    {
      if i < |t| - 1 {
        assert t[i] == (trace + init)[i];
        var j :| 0 <= j < i && (trace + init)[j].SetVertexBuffer? && (trace + init)[j].slotIndex == 0;
        assert t[j] == (trace + init)[j];
        if t[i].DrawIndexed? {
          var j' :| 0 <= j' < i && (trace + init)[j'].SetIndexBuffer?;
          assert t[j'] == (trace + init)[j'];
        }
      } else {
        assert t[|trace|] == more[0];
        if t[i].DrawIndexed? {
          var k :| 0 <= k < |more| - 1 && more[k].SetIndexBuffer?;
          assert t[|trace| + k] == more[k];
        }
      }
    }
  }
}

/**
 * A client of the model: one frame with three entities. A is visible and its
 * mesh is uploaded as 36 indices, B is visible but its mesh is not uploaded,
 * C is invisible. Only what the contracts promise is used.
 */
module FrameScenario {
  import opened RenderTypes
  import opened Pipeline
  import opened Extract
  import opened RenderCommands

  /** Two visible items followed by an invisible one extract to the first two records. */
  lemma {:induction false} TwoVisibleThenHidden(itemA: QueryItem, itemB: QueryItem, itemC: QueryItem)
    requires itemA.isVisible && itemB.isVisible && !itemC.isVisible
    ensures Extracted([itemA, itemB, itemC]) == [ExtractItem(itemA), ExtractItem(itemB)]
  {
    ExtractedAppend([itemA, itemB], [itemC]);
    ExtractedAppend([itemA], [itemB]);
    ExtractedSingle(itemA);
    ExtractedSingle(itemB);
    ExtractedSingle(itemC);
    assert [itemA, itemB] + [itemC] == [itemA, itemB, itemC];
    assert [itemA] + [itemB] == [itemA, itemB];
  }

  method ThreeEntityFrame()
  {
    var view, a, b, c := Entity(0), Entity(1), Entity(2), Entity(3);
    var meshA, meshB := Handle(HandleId(10), true), Handle(HandleId(11), true);
    var itemA := QueryItem(a, true, GlobalTransform(1), Mesh2dHandle(meshA));
    var itemB := QueryItem(b, true, GlobalTransform(2), Mesh2dHandle(meshB));
    var itemC := QueryItem(c, false, GlobalTransform(3), Mesh2dHandle(meshA));

    var extractor := new Mesh2dExtractor();
    var batch := extractor.ExtractMesh2d([itemA, itemB, itemC]);
    TwoVisibleThenHidden(itemA, itemB, itemC);
    assert batch == [ExtractItem(itemA), ExtractItem(itemB)];
    assert extractor.previousLen == 2;

    // The render world now holds a weak mesh handle for A and B only.
    var handles := map[a := batch[0].handle, b := batch[1].handle];
    assert c !in handles;
    DrawTwoItems(view, a, b, handles);
  }

  method DrawTwoItems(view: Entity, a: Entity, b: Entity, handles: map<Entity, Mesh2dHandle>)
    requires a in handles && b in handles
    requires handles[a].handle.id == HandleId(10) && handles[b].handle.id == HandleId(11)
  {
    var gpuMeshes := map[HandleId(10) := GpuMesh(Buffer(1), Indexed(Buffer(2), Uint32, 36))];
    var pass := new TrackedRenderPass();
    var resultA := DrawMesh2d(view, a, gpuMeshes, handles, pass);
    var resultB := DrawMesh2d(view, b, gpuMeshes, handles, pass);
    assert resultA == Success && resultB == Failure;
    assert pass.commands == [
      SetVertexBuffer(0, WholeBuffer(Buffer(1))),
      SetIndexBuffer(WholeBuffer(Buffer(2)), 0, Uint32),
      DrawIndexed(Range(0, 36), 0, Range(0, 1))
    ];
  }
}
