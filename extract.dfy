/**
 * `extract_mesh2d`: once per frame, copy every visible 2D mesh from the main
 * world into a batch of render-world records (a weak mesh handle and the
 * `Mesh2dUniform` built from the entity's transform).
 */
module Extract {
  import opened RenderTypes

  /** A `GlobalTransform`; its translation, rotation and scale are not modelled. */
  datatype GlobalTransform = GlobalTransform(id: nat)

  /**
   * A 4x4 matrix, kept symbolic: the matrix computed from a transform, or the
   * inverse-transpose of another matrix. Matrix arithmetic is not modelled.
   */
  datatype Mat4 = ComputedMatrix(source: GlobalTransform) | InverseTranspose(of: Mat4)

  /** `GlobalTransform::compute_matrix`. */
  function ComputeMatrix(t: GlobalTransform): Mat4
  {
    ComputedMatrix(t)
  }

  /** `m.inverse().transpose()`. */
  function InverseTransposeOf(m: Mat4): Mat4
  {
    InverseTranspose(m)
  }

  /** `MeshFlags::NONE`. */
  const MeshFlagsNone: bv32 := 0

  /** `Mesh2dHandle`: the component wrapping a mesh asset handle. */
  datatype Mesh2dHandle = Mesh2dHandle(handle: Handle)

  datatype Mesh2dUniform = Mesh2dUniform(transform: Mat4, inverseTransposeModel: Mat4, flags: bv32)

  /** One item of the extraction query: entity, computed visibility, transform and mesh handle. */
  datatype QueryItem = QueryItem(entity: Entity, isVisible: bool, transform: GlobalTransform, handle: Mesh2dHandle)

  /** One record of the batch handed to `insert_or_spawn_batch`. */
  datatype ExtractedMesh = ExtractedMesh(entity: Entity, handle: Mesh2dHandle, uniform: Mesh2dUniform)

  /** The record pushed for a visible item. */
  function ExtractItem(item: QueryItem): (r: ExtractedMesh)
    ensures r.entity == item.entity
    ensures r.handle.handle.id == item.handle.handle.id && !r.handle.handle.strong
    ensures r.uniform.flags == MeshFlagsNone
    ensures r.uniform.transform == ComputeMatrix(item.transform)
    ensures r.uniform.inverseTransposeModel == InverseTransposeOf(r.uniform.transform)
  {
    var transform := ComputeMatrix(item.transform);
    ExtractedMesh(
      item.entity,
      Mesh2dHandle(CloneWeak(item.handle.handle)),
      Mesh2dUniform(transform, InverseTransposeOf(transform), MeshFlagsNone))
  }

  /** The batch a frame produces: the visible items' records, in query order. */
  function Extracted(query: seq<QueryItem>): (r: seq<ExtractedMesh>)
    ensures |r| <= |query|
    ensures forall j :: 0 <= j < |r| ==> r[j].uniform.flags == MeshFlagsNone && !r[j].handle.handle.strong
  {
    if query == [] then []
    else
      var last := query[|query| - 1];
      Extracted(query[..|query| - 1]) + (if last.isVisible then [ExtractItem(last)] else [])
  }

  /** Extraction distributes over concatenation, so the batch keeps query order. */
  lemma {:induction false} ExtractedAppend(a: seq<QueryItem>, b: seq<QueryItem>)
    ensures Extracted(a + b) == Extracted(a) + Extracted(b)
    decreases |b|
  {
    if b == [] {
      assert a + b == a;
    } else {
      var b' := b[..|b| - 1];
      assert (a + b)[..|a + b| - 1] == a + b';
      ExtractedAppend(a, b');
    }
  }

  /** A single item contributes its record when visible and nothing otherwise. */
  lemma ExtractedSingle(item: QueryItem)
    ensures Extracted([item]) == if item.isVisible then [ExtractItem(item)] else []
  {
    assert [item][..0] == [];
  }

  /** A query with no visible item yields an empty batch. */
  lemma {:induction false} NothingVisibleExtractsNothing(query: seq<QueryItem>)
    requires forall i :: 0 <= i < |query| ==> !query[i].isVisible
    ensures Extracted(query) == []
  {
    if query != [] {
      NothingVisibleExtractsNothing(query[..|query| - 1]);
    }
  }

  /** When every item is visible, each one yields its record at the same position. */
  lemma {:induction false} AllVisibleExtractsAll(query: seq<QueryItem>)
    requires forall i :: 0 <= i < |query| ==> query[i].isVisible
    ensures |Extracted(query)| == |query|
    ensures forall i :: 0 <= i < |query| ==> Extracted(query)[i] == ExtractItem(query[i])
  {
    if query != [] {
      AllVisibleExtractsAll(query[..|query| - 1]);
    }
  }

  /** An entity is in the batch exactly when some visible query item carries it. */
  lemma {:induction false} ExtractedEntities(query: seq<QueryItem>, e: Entity)
    ensures (exists j :: 0 <= j < |Extracted(query)| && Extracted(query)[j].entity == e) <==>
            (exists i :: 0 <= i < |query| && query[i].isVisible && query[i].entity == e)
  {
    if query != [] {
      var init := query[..|query| - 1];
      var last := query[|query| - 1];
      ExtractedEntities(init, e);
      var r := Extracted(query);
      assert r == Extracted(init) + (if last.isVisible then [ExtractItem(last)] else []);
      if exists j :: 0 <= j < |r| && r[j].entity == e {
        var j :| 0 <= j < |r| && r[j].entity == e;
        if j < |Extracted(init)| {
          assert Extracted(init)[j].entity == e;
          var i :| 0 <= i < |init| && init[i].isVisible && init[i].entity == e;
          assert query[i] == init[i];
        } else {
          assert query[|query| - 1].isVisible && query[|query| - 1].entity == e;
        }
      }
      if exists i :: 0 <= i < |query| && query[i].isVisible && query[i].entity == e {
        var i :| 0 <= i < |query| && query[i].isVisible && query[i].entity == e;
        if i < |init| {
          assert init[i] == query[i];
          var j :| 0 <= j < |Extracted(init)| && Extracted(init)[j].entity == e;
          assert r[j] == Extracted(init)[j];
        } else {
          assert last.isVisible && last.entity == e;
          assert r[|r| - 1] == ExtractItem(last);
          assert 0 <= |r| - 1 < |Extracted(query)| && Extracted(query)[|r| - 1].entity == e;
        }
      }
    }
  }

  /**
   * The extraction system with its `Local<usize>` state: the length of the
   * previous frame's batch, used only as the capacity of the next one.
   */
  class Mesh2dExtractor {
    var previousLen: nat

    constructor ()
      ensures previousLen == 0
    {
      previousLen := 0;
    }

    /**
     * One run of `extract_mesh2d`: returns the batch passed to
     * `insert_or_spawn_batch` and remembers its length. The batch does not
     * depend on the previous length.
     */
    method ExtractMesh2d(query: seq<QueryItem>) returns (values: seq<ExtractedMesh>)
      modifies this
      ensures values == Extracted(query)
      ensures previousLen == |values|
    {
      var capacity := previousLen;  // `Vec::with_capacity`: an allocation hint only
      values := [];
      var i := 0;
      while i < |query|
        invariant 0 <= i <= |query|
        invariant values == Extracted(query[..i])
      {
        var item := query[i];
        assert query[..i + 1][..i] == query[..i];
        if item.isVisible {
          values := values + [ExtractItem(item)];
        }
        i := i + 1;
      }
      assert query[..|query|] == query;
      previousLen := |values|;
    }
  }
}
