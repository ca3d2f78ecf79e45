/** The Model class of untitled/Model.cpp: a model loaded from an imported
    scene, flattened into one vertex list with per-material index runs, and
    drawn material by material.

    OpenGL is a foreign service: a GlDevice records, in order, the calls the
    model makes on it, and hands out buffer names as glGenBuffers does (fresh,
    non-zero). Each recorded call stands for the group of gl* calls named in its
    comment. */
module ModelMesh {
  import opened Vectors
  import opened MeshSpec

  datatype GlCall =
      /** glGenBuffers + glBufferData(GL_ARRAY_BUFFER, all vertices). */
    | VertexBuffer(name: nat, vertices: seq<Vertex>)
      /** glGenBuffers + glBufferData(GL_ELEMENT_ARRAY_BUFFER, a material's indices). */
    | IndexBuffer(material: nat, name: nat, indices: seq<nat>)
      /** Enabling the three vertex attributes and binding the vertex buffer. */
    | BeginDraw(vertexBuffer: nat)
      /** Setting g_Texture of `program` to unit 0, binding the material's texture
          and index buffer, and glDrawElements of `count` indices. */
    | DrawMaterial(program: nat, material: nat, texture: nat, indexBuffer: nat, count: nat)
      /** Disabling the attributes and unbinding buffer and texture. */
    | EndDraw
      /** glDeleteTextures of one texture. */
    | DeleteTexture(texture: nat)

  class GlDevice {
    var calls: seq<GlCall>
    /** The last buffer name handed out; names are 1, 2, 3, ... */
    var lastName: nat

    constructor ()
      ensures calls == [] && lastName == 0
    {
      calls, lastName := [], 0;
    }

    method GenBuffer() returns (name: nat)
      modifies this
      ensures name == old(lastName) + 1 && lastName == name
      ensures calls == old(calls)
    {
      lastName := lastName + 1;
      name := lastName;
    }

    method Issue(c: GlCall)
      modifies this
      ensures calls == old(calls) + [c] && lastName == old(lastName)
    {
      calls := calls + [c];
    }
  }

  /** The index-buffer uploads of CreateOpenGLBuffers for the first `count`
      materials: one per material with a non-empty index list, in material order. */
  function IndexUploads(ms: seq<Material>, count: nat): seq<GlCall>
    requires count <= |ms|
  {
    if count == 0 then []
    else
      var m := ms[count - 1];
      IndexUploads(ms, count - 1) +
        (if |m.indices| == 0 then [] else [IndexBuffer(count - 1, m.indexBuffer, m.indices)])
  }

  /** The draws of Model::Draw for the first `count` materials: one per material
      with a non-empty vertex list, in material order. */
  function DrawCalls(program: nat, ms: seq<Material>, count: nat): seq<GlCall>
    requires count <= |ms|
  {
    if count == 0 then []
    else
      var m := ms[count - 1];
      DrawCalls(program, ms, count - 1) +
        (if |m.vertices| == 0 then [] else [DrawMaterial(program, count - 1, m.textureId, m.indexBuffer, |m.indices|)])
  }

  /** The texture deletions of Model::Release: one per material whose texture id
      is not 0, in material order. */
  function TextureDeletes(ms: seq<Material>, count: nat): seq<GlCall>
    requires count <= |ms|
  {
    if count == 0 then []
    else
      var m := ms[count - 1];
      TextureDeletes(ms, count - 1) + (if m.textureId == 0 then [] else [DeleteTexture(m.textureId)])
  }

  /** CreateOpenGLBuffers uploads an index buffer for a material exactly when its
      index list is non-empty, and every upload carries that material's indices
      under its index-buffer name. */
  lemma {:induction false} UploadsOnlyNonEmpty(ms: seq<Material>, count: nat)
    requires count <= |ms|
    ensures forall c :: c in IndexUploads(ms, count) ==>
              c.IndexBuffer? && c.material < count && |ms[c.material].indices| > 0 &&
              c == IndexBuffer(c.material, ms[c.material].indexBuffer, ms[c.material].indices)
    ensures forall k :: 0 <= k < count ==>
              (IndexBuffer(k, ms[k].indexBuffer, ms[k].indices) in IndexUploads(ms, count) <==> |ms[k].indices| > 0)
  {
    if count > 0 {
      UploadsOnlyNonEmpty(ms, count - 1);
    }
  }

  /** Draw skips exactly the materials with no vertices, and each draw it issues
      covers exactly the material's index list. */
  lemma {:induction false} DrawSkipsEmpty(program: nat, ms: seq<Material>, count: nat)
    requires count <= |ms|
    ensures forall c :: c in DrawCalls(program, ms, count) ==>
              c.DrawMaterial? && c.material < count && |ms[c.material].vertices| > 0 &&
              c == DrawMaterial(program, c.material, ms[c.material].textureId,
                                ms[c.material].indexBuffer, |ms[c.material].indices|)
    ensures forall k :: 0 <= k < count ==>
              var draw := DrawMaterial(program, k, ms[k].textureId, ms[k].indexBuffer, |ms[k].indices|);
              (draw in DrawCalls(program, ms, count) <==> |ms[k].vertices| > 0)
  {
    if count > 0 {
      DrawSkipsEmpty(program, ms, count - 1);
    }
  }

  /** In a flattened model a material has vertices exactly when it has indices,
      so Draw draws precisely the materials CreateOpenGLBuffers gave an index
      buffer, and each draw covers all of the material's vertices. */
  lemma DrawnMaterialsHaveIndexBuffers(ms: seq<Material>, k: nat)
    requires Indexed(ms) && k < |ms|
    ensures |ms[k].indices| == |ms[k].vertices|
    ensures |ms[k].vertices| > 0 <==> |ms[k].indices| > 0
  {
    assert ms[k].indices == Run(|Concat(ms[..k])|, |ms[k].vertices|);
  }

  /** Release deletes the texture of exactly the materials whose texture id is
      not 0: every deletion is of such a material's texture, and each such
      material's texture is deleted. */
  lemma {:induction false} ReleaseDeletesTextures(ms: seq<Material>, count: nat)
    requires count <= |ms|
    ensures forall c :: c in TextureDeletes(ms, count) ==>
              exists k :: 0 <= k < count && ms[k].textureId != 0 && c == DeleteTexture(ms[k].textureId)
    ensures forall k :: 0 <= k < count && ms[k].textureId != 0 ==> DeleteTexture(ms[k].textureId) in TextureDeletes(ms, count)
  {
    if count > 0 {
      ReleaseDeletesTextures(ms, count - 1);
      var prev := TextureDeletes(ms, count - 1);
      var m := ms[count - 1];
      var added: seq<GlCall> := if m.textureId == 0 then [] else [DeleteTexture(m.textureId)];
      assert TextureDeletes(ms, count) == prev + added;
      forall c | c in prev + added
        ensures exists k :: 0 <= k < count && ms[k].textureId != 0 && c == DeleteTexture(ms[k].textureId)
      {
        if c in prev {
          var k :| 0 <= k < count - 1 && ms[k].textureId != 0 && c == DeleteTexture(ms[k].textureId);
          assert 0 <= k < count;
        } else {
          assert c == DeleteTexture(ms[count - 1].textureId) && ms[count - 1].textureId != 0;
        }
      }
    }
  }

  /** How many of the first `count` materials have a non-empty index list. */
  function WithIndexCount(ms: seq<Material>, count: nat): (r: nat)
    requires count <= |ms|
    ensures r <= count
  {
    if count == 0 then 0
    else WithIndexCount(ms, count - 1) + (if |ms[count - 1].indices| == 0 then 0 else 1)
  }

  /** Materials with indices that come earlier get smaller buffer names: the
      count of materials with indices grows strictly past each of them. */
  lemma {:induction false} WithIndexCountGrows(ms: seq<Material>, j1: nat, j2: nat)
    requires j1 < j2 <= |ms| && |ms[j1].indices| > 0
    ensures WithIndexCount(ms, j1) < WithIndexCount(ms, j2)
  {
    if j2 > j1 + 1 {
      WithIndexCountGrows(ms, j1, j2 - 1);
    }
  }

  /** The materials after CreateOpenGLBuffers has visited the first `count`:
      each one with indices has been given the name after `lo` that follows the
      names of the earlier ones. */
  function Named(ms: seq<Material>, lo: nat, count: nat): (r: seq<Material>)
    requires count <= |ms|
    ensures |r| == |ms|
  {
    if count == 0 then ms
    else
      var prev := Named(ms, lo, count - 1);
      if |ms[count - 1].indices| == 0 then prev
      else prev[count - 1 := prev[count - 1].(indexBuffer := lo + 1 + WithIndexCount(ms, count - 1))]
  }

  /** Naming changes nothing but index-buffer names: a visited material with
      indices gets name lo + 1 + (number of earlier materials with indices), any
      other material is unchanged. */
  lemma {:induction false} NamedAt(ms: seq<Material>, lo: nat, count: nat, j: nat)
    requires count <= |ms| && j < |ms|
    ensures Named(ms, lo, count)[j] ==
              if j < count && |ms[j].indices| > 0
              then ms[j].(indexBuffer := lo + 1 + WithIndexCount(ms, j))
              else ms[j]
  {
    if count > 0 {
      NamedAt(ms, lo, count - 1, j);
    }
  }

  /** Naming keeps every material's vertices and indices, so the flattened list
      and the index runs of a loaded model survive CreateOpenGLBuffers. */
  lemma NamedKeepsLayout(ms: seq<Material>, lo: nat)
    ensures Concat(Named(ms, lo, |ms|)) == Concat(ms)
    ensures Indexed(ms) ==> Indexed(Named(ms, lo, |ms|))
  {
    var ns := Named(ms, lo, |ms|);
    forall j | 0 <= j < |ms|
      ensures ns[j].vertices == ms[j].vertices && ns[j].indices == ms[j].indices
    {
      NamedAt(ms, lo, |ms|, j);
    }
    ConcatOfVertices(ms, ns);
    if Indexed(ms) {
      forall m | 0 <= m < |ns|
        ensures ns[m].indices == Run(|Concat(ns[..m])|, |ns[m].vertices|)
      {
        ConcatOfVertices(ms[..m], ns[..m]);
      }
    }
  }

  /** Buffer names of materials with indices are distinct and increase with the
      material index, and all lie above the vertex-buffer name `lo`. */
  lemma NamesIncrease(ms: seq<Material>, lo: nat, j1: nat, j2: nat)
    requires j1 < j2 < |ms| && |ms[j1].indices| > 0 && |ms[j2].indices| > 0
    ensures lo < Named(ms, lo, |ms|)[j1].indexBuffer < Named(ms, lo, |ms|)[j2].indexBuffer
  {
    NamedAt(ms, lo, |ms|, j1);
    NamedAt(ms, lo, |ms|, j2);
    WithIndexCountGrows(ms, j1, j2);
  }

  /** The face loops of LoadFromOBJFile for one mesh: three vertices per face,
      its corners in corner order, faces in face order. */
  method ExpandFaces(mesh: Mesh, translate: Vec3) returns (vertices: seq<Vertex>)
    requires forall f :: 0 <= f < |mesh.faces| ==> FaceFits(mesh, mesh.faces[f])
    ensures vertices == MeshVertices(mesh, translate, |mesh.faces|)
  {
    vertices := [];
    var f := 0;
    while f < |mesh.faces|
      invariant 0 <= f <= |mesh.faces|
      invariant vertices == MeshVertices(mesh, translate, f)
    {
      var face := mesh.faces[f];
      var c := 0;
      while c < 3
        invariant 0 <= c <= 3
        invariant vertices == MeshVertices(mesh, translate, f) + CornerVertices(mesh, face, translate, c)
      {
        vertices := vertices + [CornerVertex(mesh, face, c, translate)];
        c := c + 1;
      }
      f := f + 1;
    }
  }

  class Model {
    var materials: seq<Material>
    var vertexBuffer: nat
    var allVertices: seq<Vertex>

    constructor ()
      ensures materials == [] && allVertices == [] && vertexBuffer == 0
    {
      materials, allVertices, vertexBuffer := [], [], 0;
    }

    /** A loaded model: the all-vertices list is the concatenation of the
        materials' vertices and every material holds its consecutive index run. */
    ghost predicate Consistent()
      reads this
    {
      allVertices == Concat(materials) && Indexed(materials)
    }

    /** Appends one material per scene material, expands every face of every mesh
        into three vertices of the mesh's material, then appends all materials'
        vertices to the all-vertices list, giving each vertex the next index
        (counting from 0). On a fresh model the result is Consistent. */
    method LoadFromOBJFile(scene: Scene, translate: Vec3)
      requires SceneFits(scene)
      modifies this
      ensures vertexBuffer == old(vertexBuffer)
      ensures var expanded := Expanded(old(materials), scene, translate);
              materials == WithIndices(expanded) && allVertices == old(allVertices) + Concat(expanded)
      ensures old(materials) == [] && old(allVertices) == [] ==> Consistent()
    {
      ghost var before := materials;
      AddSceneMaterials(scene);
      ghost var listed := materials;
      FitsMoreMaterials(scene, |listed|);
      ExpandMeshes(scene, translate);
      ghost var expanded := materials;
      FlattenMaterials();
      if before == [] && old(allVertices) == [] {
        DistributeGathers(listed, scene.meshes, translate, |scene.meshes|);
        FlattenIndexes(expanded);
      }
    }

    /** First loop of LoadFromOBJFile: one empty material per scene material,
        holding that material's texture. */
    method AddSceneMaterials(scene: Scene)
      modifies this
      ensures materials == old(materials) + NewMaterials(scene)
      ensures vertexBuffer == old(vertexBuffer) && allVertices == old(allVertices)
    {
      ghost var added := NewMaterials(scene);
      var m := 0;
      while m < |scene.materialTextures|
        invariant 0 <= m <= |scene.materialTextures|
        invariant materials == old(materials) + added[..m]
        invariant vertexBuffer == old(vertexBuffer) && allVertices == old(allVertices)
      {
        var material := Material([], scene.materialTextures[m], [], 0);
        materials := materials + [material];
        m := m + 1;
      }
      assert added[..m] == added;
    }

    /** Second loop of LoadFromOBJFile: every mesh appends the expansion of its
        faces to the vertices of the mesh's material. */
    method ExpandMeshes(scene: Scene, translate: Vec3)
      requires forall k :: 0 <= k < |scene.meshes| ==> MeshFits(scene.meshes[k], |materials|)
      modifies this
      ensures materials == Distribute(old(materials), scene.meshes, translate, |scene.meshes|)
      ensures vertexBuffer == old(vertexBuffer) && allVertices == old(allVertices)
    {
      var k := 0;
      while k < |scene.meshes|
        invariant 0 <= k <= |scene.meshes|
        invariant materials == Distribute(old(materials), scene.meshes, translate, k)
        invariant vertexBuffer == old(vertexBuffer) && allVertices == old(allVertices)
      {
        var mesh := scene.meshes[k];
        var vertices := ExpandFaces(mesh, translate);
        var mi := mesh.materialIndex;
        materials := materials[mi := materials[mi].(vertices := materials[mi].vertices + vertices)];
        k := k + 1;
      }
    }

    /** Third loop of LoadFromOBJFile: material by material, each vertex goes to
        the end of the all-vertices list and its number (counting from 0 over all
        materials) to the end of the material's index list. */
    method FlattenMaterials()
      modifies this
      ensures materials == WithIndices(old(materials))
      ensures allVertices == old(allVertices) + Concat(old(materials))
      ensures vertexBuffer == old(vertexBuffer)
    {
      ghost var expanded := materials;
      var id := 0;
      var m := 0;
      while m < |materials|
        invariant 0 <= m <= |materials| == |expanded|
        invariant forall j :: 0 <= j < |expanded| ==> materials[j] == if j < m then WithIndices(expanded)[j] else expanded[j]
        invariant allVertices == old(allVertices) + Concat(expanded[..m])
        invariant id == |Concat(expanded[..m])|
        invariant vertexBuffer == old(vertexBuffer)
      {
        id := FlattenMaterial(m, id);
        ConcatStep(expanded, m);
        m := m + 1;
      }
      assert expanded[..m] == expanded;
      assert materials == WithIndices(expanded);
    }

    /** The body of the flattening loop for material m, with the running counter
        at `start`: the material's vertices go to the end of the all-vertices
        list and the numbers start, start + 1, ... to the end of its index list.
        The source pushes through a reference to the material; here its index
        list is extended locally and stored back at the end. */
    method FlattenMaterial(m: nat, start: nat) returns (next: nat)
      requires m < |materials|
      modifies this
      ensures var material := old(materials)[m];
              materials == old(materials)[m := material.(indices := material.indices + Run(start, |material.vertices|))]
      ensures allVertices == old(allVertices) + old(materials)[m].vertices
      ensures next == start + |old(materials)[m].vertices|
      ensures vertexBuffer == old(vertexBuffer)
    {
      var material := materials[m];
      var indices := material.indices;
      next := start;
      var i := 0;
      while i < |material.vertices|
        invariant 0 <= i <= |material.vertices|
        invariant materials == old(materials) && vertexBuffer == old(vertexBuffer)
        invariant indices == material.indices + Run(start, i)
        invariant allVertices == old(allVertices) + material.vertices[..i]
        invariant next == start + i
      {
        allVertices := allVertices + [material.vertices[i]];
        indices := indices + [next];
        next := next + 1;
        i := i + 1;
      }
      assert material.vertices[..i] == material.vertices;
      materials := materials[m := material.(indices := indices)];
    }

    /** Uploads the all-vertices list into a new vertex buffer and, for each
        material with a non-empty index list, its indices into a new index
        buffer; materials with no indices keep their index-buffer name. Names
        come from the device in order, so they increase with the material index. */
    method CreateOpenGLBuffers(gl: GlDevice)
      modifies this, gl
      ensures allVertices == old(allVertices)
      ensures vertexBuffer == old(gl.lastName) + 1
      ensures materials == Named(old(materials), vertexBuffer, |old(materials)|)
      ensures gl.lastName == vertexBuffer + WithIndexCount(old(materials), |old(materials)|)
      ensures gl.calls == old(gl.calls) + [VertexBuffer(vertexBuffer, allVertices)] + IndexUploads(materials, |materials|)
      ensures old(Consistent()) ==> Consistent()
    {
      vertexBuffer := gl.GenBuffer();
      gl.Issue(VertexBuffer(vertexBuffer, allVertices));
      ghost var start := gl.calls;

      ghost var original := materials;
      var m := 0;
      while m < |materials|
        invariant 0 <= m <= |materials| == |original|
        invariant allVertices == old(allVertices) && vertexBuffer == old(gl.lastName) + 1
        invariant gl.lastName == vertexBuffer + WithIndexCount(original, m)
        invariant materials == Named(original, vertexBuffer, m)
        invariant gl.calls == start + IndexUploads(materials, m)
      {
        NamedAt(original, vertexBuffer, m, m);
        if |materials[m].indices| == 0 {
          m := m + 1;
          continue;
        }
        ghost var prev := materials;
        var name := gl.GenBuffer();
        materials := materials[m := materials[m].(indexBuffer := name)];
        assert materials == Named(original, vertexBuffer, m + 1);
        gl.Issue(IndexBuffer(m, name, materials[m].indices));
        IndexUploadsPrefix(prev, materials, m);
        m := m + 1;
      }
      NamedKeepsLayout(original, vertexBuffer);
    }

    /** Draws every material that has vertices, with its texture and index buffer. */
    method Draw(program: nat, gl: GlDevice)
      modifies gl
      ensures gl.calls == old(gl.calls) + [BeginDraw(vertexBuffer)] + DrawCalls(program, materials, |materials|) + [EndDraw]
      ensures gl.lastName == old(gl.lastName)
    {
      gl.Issue(BeginDraw(vertexBuffer));
      ghost var start := gl.calls;
      var m := 0;
      while m < |materials|
        invariant 0 <= m <= |materials|
        invariant gl.calls == start + DrawCalls(program, materials, m)
        invariant gl.lastName == old(gl.lastName)
      {
        var material := materials[m];
        if |material.vertices| == 0 {
          m := m + 1;
          continue;
        }
        gl.Issue(DrawMaterial(program, m, material.textureId, material.indexBuffer, |material.indices|));
        m := m + 1;
      }
      gl.Issue(EndDraw);
    }

    /** Empties every material's vertex list, deletes and zeroes every non-zero
        texture id, then clears the material and all-vertices lists. */
    method Release(gl: GlDevice)
      modifies this, gl
      ensures materials == [] && allVertices == [] && vertexBuffer == old(vertexBuffer)
      ensures gl.calls == old(gl.calls) + TextureDeletes(old(materials), |old(materials)|)
      ensures gl.lastName == old(gl.lastName)
      ensures Consistent()
    {
      var m := 0;
      while m < |materials|
        invariant 0 <= m <= |materials| == |old(materials)|
        invariant forall j :: 0 <= j < m ==> materials[j].vertices == [] && materials[j].textureId == 0
        invariant forall j :: m <= j < |materials| ==> materials[j] == old(materials)[j]
        invariant gl.calls == old(gl.calls) + TextureDeletes(old(materials), m)
        invariant gl.lastName == old(gl.lastName)
        invariant vertexBuffer == old(vertexBuffer)
      {
        materials := materials[m := materials[m].(vertices := [])];
        if materials[m].textureId != 0 {
          gl.Issue(DeleteTexture(materials[m].textureId));
          materials := materials[m := materials[m].(textureId := 0)];
        }
        m := m + 1;
      }
      materials := [];
      allVertices := [];
    }

    /** The flattened vertex list; for a loaded model it is every material's
        vertices in material order. */
    function GetVertices(): (r: seq<Vertex>)
      reads this
      ensures Consistent() ==> r == Concat(materials)
    {
      allVertices
    }
  }

  /** Setting the index-buffer name of material m leaves the uploads of the
      materials before it as they were. */
  lemma {:induction false} IndexUploadsPrefix(ms: seq<Material>, ns: seq<Material>, m: nat)
    requires m <= |ms| == |ns|
    requires forall j :: 0 <= j < m ==> ms[j] == ns[j]
    ensures IndexUploads(ms, m) == IndexUploads(ns, m)
  {
    if m > 0 {
      IndexUploadsPrefix(ms, ns, m - 1);
    }
  }
}
