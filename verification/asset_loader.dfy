/** `render::AssetLoader`: flattening an imported mesh into vertices and
    indices, walking the node tree for meshes, and taking the object's
    folder from its path. The imported scene is an input. */
module Assets {
  import opened Common
  import opened Cameras

  datatype Vec2 = Vec2(x: real, y: real)

  /** A face's vertex indices (`aiFace::mIndices`, `mNumIndices` long). The
      import flags do not ask for triangulation, so a face may be a point, a
      line, a triangle or a polygon. */
  datatype Face = Face(indices: seq<nat>)

  /** The parts of `aiMesh` that are read. `texCoords` is texture-coordinate
      channel 0, absent when the mesh has none. */
  datatype ImportedMesh = ImportedMesh(
    positions: seq<Vec3>,
    normals: seq<Vec3>,
    tangents: seq<Vec3>,
    texCoords: Option<seq<Vec3>>,
    faces: seq<Face>)

  /** Per-vertex arrays as long as the position array. The code reads the
      normal and tangent arrays unconditionally, so the model takes a mesh
      that has them; the importer does not promise tangents for every mesh. */
  predicate WellFormedMesh(m: ImportedMesh)
  {
    && |m.normals| == |m.positions| && |m.tangents| == |m.positions|
    && (m.texCoords.Some? ==> |m.texCoords.value| == |m.positions|)
  }

  /** `Vertex`. */
  datatype Vertex = Vertex(pos: Vec3, normal: Vec3, tangent: Vec3, texCoord: Vec2)

  /** `MeshPushConstantData`: the three texture slots of the mesh's material. */
  datatype TextureIds = TextureIds(diffuse: nat, normal: nat, specular: nat)

  /** The data a `Mesh` is built from. */
  datatype MeshData = MeshData(vertices: seq<Vertex>, indices: seq<nat>, textures: TextureIds)

  datatype AssetError =
    | NoVertices        // assert(mesh->mNumVertices)
    | ShortFace         // a face with fewer than three indices is read past its end
    | ImportFailed      // loadObject returns nullptr
    | NoSlashInPath     // the folder extraction reads before the string
    | TextureLimitReached // a texture load threw "Texture limit reached!"

  /** The vertex made from source vertex `i`: position, normal and tangent
      copied, texture coordinates from channel 0 when it exists, else zero. */
  function VertexOf(m: ImportedMesh, i: nat): Vertex
    requires WellFormedMesh(m) && i < |m.positions|
  {
    Vertex(m.positions[i], m.normals[i], m.tangents[i],
           if m.texCoords.Some? then Vec2(m.texCoords.value[i].x, m.texCoords.value[i].y) else Vec2(0.0, 0.0))
  }

  /** Every face has at least the three indices the flattening reads. */
  predicate AllFacesReadable(faces: seq<Face>)
  {
    forall i :: 0 <= i < |faces| ==> |faces[i].indices| >= 3
  }

  /** The indices read from a face: its first three, whatever its length. */
  function FaceIndices(f: Face): (r: seq<nat>)
    requires |f.indices| >= 3
    ensures |r| == 3 && r == f.indices[..3]
  {
    [f.indices[0], f.indices[1], f.indices[2]]
  }

  /** The faces' indices back to back: three per face, face by face. */
  function Flatten(faces: seq<Face>): (r: seq<nat>)
    requires AllFacesReadable(faces)
    ensures |r| == 3 * |faces|
    ensures forall i, j :: 0 <= i < |faces| && 0 <= j < 3 ==> r[3 * i + j] == faces[i].indices[j]
  {
    if |faces| == 0 then []
    else
      var rest := Flatten(faces[1..]);
      FaceIndices(faces[0]) + rest
  }

  /** Flattening distributes over concatenation of face lists. */
  lemma {:induction false} FlattenAppend(xs: seq<Face>, ys: seq<Face>)
    requires AllFacesReadable(xs) && AllFacesReadable(ys)
    ensures Flatten(xs + ys) == Flatten(xs) + Flatten(ys)
  {
    if |xs| == 0 {
      assert xs + ys == ys;
    } else {
      assert (xs + ys)[1..] == xs[1..] + ys;
      FlattenAppend(xs[1..], ys);
    }
  }

  /** What `processMesh` can read without undefined behaviour: at least one
      vertex, and three indices in every face. */
  predicate Processable(m: ImportedMesh)
  {
    |m.positions| > 0 && AllFacesReadable(m.faces)
  }

  /** `processMesh` returns a mesh: the mesh is processable and its three
      texture loads, whose outcome is `textures` (`None` when one of them
      throws), all returned a slot. */
  predicate Loadable(m: ImportedMesh, textures: Option<TextureIds>)
  {
    Processable(m) && textures.Some?
  }

  /** The error `processMesh` ends with on a mesh that is not loadable: the
      vertex assertion comes first, then the face loop, then the texture
      loads. */
  function MeshFailure(m: ImportedMesh): AssetError
  {
    if |m.positions| == 0 then NoVertices
    else if !AllFacesReadable(m.faces) then ShortFace
    else TextureLimitReached
  }

  /** Mesh `order[k]` is the first on the walk `order` that cannot be
      loaded. */
  predicate FirstUnloadable(meshes: seq<ImportedMesh>, order: seq<nat>, textures: nat -> Option<TextureIds>, k: nat)
  {
    && k < |order|
    && (forall q :: 0 <= q <= k ==> order[q] < |meshes|)
    && !Loadable(meshes[order[k]], textures(order[k]))
    && forall q :: 0 <= q < k ==> Loadable(meshes[order[q]], textures(order[q]))
  }

  /** `processMesh`: aborts on a mesh without vertices; one vertex per source
      vertex in order; the first three indices of every face, face by face (a
      face with fewer is read past its end, modelled as `ShortFace`); the
      material's three texture slots (loaded through the texture manager) in
      the push data. The material index is unsigned, so its `>= 0` guard
      always holds and the three loads always happen; `textures` is their
      outcome, `None` when one of them throws because the texture manager
      is full. */
  method ProcessMesh(m: ImportedMesh, textures: Option<TextureIds>) returns (r: Result<MeshData, AssetError>)
    requires WellFormedMesh(m)
    ensures r.Ok? <==> Loadable(m, textures)
    ensures r.Err? ==> r.error == MeshFailure(m)
    ensures r.Ok? ==>
      && |r.value.vertices| == |m.positions|
      && (forall i :: 0 <= i < |m.positions| ==> r.value.vertices[i] == VertexOf(m, i))
      && r.value.indices == Flatten(m.faces)
      && |r.value.indices| == 3 * |m.faces|
      && r.value.textures == textures.value
  {
    if |m.positions| == 0 {
      return Err(NoVertices);
    }
    var vertices := CopyVertices(m);
    var indices := CopyFaceIndices(m.faces);
    if indices.Err? {
      return Err(ShortFace);
    }
    if textures.None? {
      return Err(TextureLimitReached);
    }
    return Ok(MeshData(vertices, indices.value, textures.value));
  }

  /** `processMesh`'s vertex loop: one vertex per position, in order. */
  method CopyVertices(m: ImportedMesh) returns (vertices: seq<Vertex>)
    requires WellFormedMesh(m)
    ensures |vertices| == |m.positions|
    ensures forall i :: 0 <= i < |m.positions| ==> vertices[i] == VertexOf(m, i)
  {
    vertices := [];
    var i := 0;
    while i < |m.positions|
      invariant 0 <= i <= |m.positions| && |vertices| == i
      invariant forall k :: 0 <= k < i ==> vertices[k] == VertexOf(m, k)
    {
      var v := Vertex(m.positions[i], m.normals[i], m.tangents[i], Vec2(0.0, 0.0));
      if m.texCoords.Some? {
        v := v.(texCoord := Vec2(m.texCoords.value[i].x, m.texCoords.value[i].y));
      }
      vertices := vertices + [v];
      i := i + 1;
    }
  }

  /** `processMesh`'s face loop: the first three indices of every face, in
      order; a face with fewer than three is refused. */
  method CopyFaceIndices(faces: seq<Face>) returns (r: Result<seq<nat>, AssetError>)
    ensures r.Ok? <==> AllFacesReadable(faces)
    ensures r.Err? ==> r.error == ShortFace
    ensures r.Ok? ==> r.value == Flatten(faces)
  {
    var indices: seq<nat> := [];
    var f := 0;
    while f < |faces|
      invariant 0 <= f <= |faces| && AllFacesReadable(faces[..f])
      invariant indices == Flatten(faces[..f])
    {
      var face := faces[f];
      if |face.indices| < 3 {
        return Err(ShortFace);
      }
      indices := AppendFace(indices, face);
      FlattenSnoc(faces, f);
      f := f + 1;
    }
    assert faces[..f] == faces;
    return Ok(indices);
  }

  /** The inner loop of the face loop: indices 0, 1 and 2 of the face. */
  method AppendFace(indices: seq<nat>, face: Face) returns (out: seq<nat>)
    requires |face.indices| >= 3
    ensures out == indices + FaceIndices(face)
  {
    out := indices;
    var j := 0;
    while j < 3
      invariant 0 <= j <= 3
      invariant out == indices + face.indices[..j]
    {
      out := out + [face.indices[j]];
      assert face.indices[..j + 1] == face.indices[..j] + [face.indices[j]];
      j := j + 1;
    }
  }

  /** Flattening one more face appends that face's three indices. */
  lemma FlattenSnoc(faces: seq<Face>, f: nat)
    requires f < |faces| && AllFacesReadable(faces[..f]) && |faces[f].indices| >= 3
    ensures AllFacesReadable(faces[..f + 1])
    ensures Flatten(faces[..f + 1]) == Flatten(faces[..f]) + FaceIndices(faces[f])
  {
    assert faces[..f + 1] == faces[..f] + [faces[f]];
    FlattenAppend(faces[..f], [faces[f]]);
    assert Flatten([faces[f]]) == FaceIndices(faces[f]) + Flatten([]);
  }

  /** A quad keeps only its first three indices: the fourth is never read. */
  lemma QuadLosesFourthIndex()
    ensures Flatten([Face([0, 1, 2, 3])]) == [0, 1, 2]
  {
    assert Flatten([Face([0, 1, 2, 3])]) == FaceIndices(Face([0, 1, 2, 3])) + Flatten([]);
  }

  /** `aiNode`: indices into the scene's mesh table, and child nodes. */
  datatype Node = Node(meshes: seq<nat>, children: seq<Node>)

  /** `processNodes` as written, given `fuel` nested calls: the node's meshes,
      then once per child a call on the SAME node. `None` means the fuel ran
      out before the call returned. */
  function ProcessNodesAsWritten(node: Node, fuel: nat): (r: Option<seq<nat>>)
    ensures r.Some? ==> fuel > 0 && |r.value| >= |node.meshes| && r.value[..|node.meshes|] == node.meshes
    ensures fuel > 0 && |node.children| == 0 ==> r == Some(node.meshes)
    decreases fuel, 0
  {
    if fuel == 0 then None
    else
      var rest := RepeatOnSameNode(node, |node.children|, fuel - 1);
      if rest.None? then None
      else
        assert |node.children| == 0 ==> rest.value == [] && node.meshes + rest.value == node.meshes;
        Some(node.meshes + rest.value)
  }

  /** `times` successive calls on `node`, each with `fuel` nesting left. */
  function RepeatOnSameNode(node: Node, times: nat, fuel: nat): (r: Option<seq<nat>>)
    ensures times == 0 ==> r == Some([])
    ensures times > 0 && r.Some? ==> fuel > 0
    decreases fuel, 1, times
  {
    if times == 0 then Some([])
    else
      var first := ProcessNodesAsWritten(node, fuel);
      var rest := RepeatOnSameNode(node, times - 1, fuel);
      if first.None? || rest.None? then None else Some(first.value + rest.value)
  }

  /** A node with a child never finishes, however deep the call stack may
      grow. */
  lemma {:induction false} NodeWithChildrenNeverReturns(node: Node, fuel: nat)
    requires |node.children| > 0
    ensures ProcessNodesAsWritten(node, fuel).None?
    decreases fuel
  {
    if fuel > 0 {
      NodeWithChildrenNeverReturns(node, fuel - 1);
      assert ProcessNodesAsWritten(node, fuel - 1).None?;
      assert RepeatOnSameNode(node, |node.children|, fuel - 1).None?;
    }
  }

  /** `processNodes` recursing on each child in turn: the node's meshes, then
      each child's subtree in child order. */
  function ProcessNodes(node: Node): (r: seq<nat>)
    ensures |r| >= |node.meshes| && r[..|node.meshes|] == node.meshes
    ensures |node.children| == 0 ==> r == node.meshes
    decreases node, |node.children| + 1
  {
    node.meshes + ProcessChildren(node, 0)
  }

  /** The subtrees of `parent`'s children from `i` on. */
  function ProcessChildren(parent: Node, i: nat): (r: seq<nat>)
    ensures i >= |parent.children| ==> r == []
    decreases parent, |parent.children| - i
  {
    if i >= |parent.children| then []
    else ProcessNodes(parent.children[i]) + ProcessChildren(parent, i + 1)
  }

  /** Every mesh the subtree of a child lists is emitted by its parent's
      walk. */
  lemma {:induction false} ChildMeshesIncluded(node: Node, i: nat)
    requires i < |node.children|
    ensures multiset(ProcessNodes(node.children[i])) <= multiset(ProcessNodes(node))
  {
    ChildMeshesIncludedFrom(node, 0, i);
  }

  lemma {:induction false} ChildMeshesIncludedFrom(node: Node, from: nat, i: nat)
    requires from <= i < |node.children|
    ensures multiset(ProcessNodes(node.children[i])) <= multiset(ProcessChildren(node, from))
    decreases i - from
  {
    var head, tail := ProcessNodes(node.children[from]), ProcessChildren(node, from + 1);
    assert ProcessChildren(node, from) == head + tail;
    assert multiset(head + tail) == multiset(head) + multiset(tail);
    if from < i {
      ChildMeshesIncludedFrom(node, from + 1, i);
    }
  }

  /** For a leaf the walk as written and the intended walk agree. */
  lemma LeafWalksAgree(node: Node, fuel: nat)
    requires |node.children| == 0 && fuel > 0
    ensures ProcessNodesAsWritten(node, fuel) == Some(ProcessNodes(node))
  {
    assert RepeatOnSameNode(node, 0, fuel - 1) == Some([]);
  }

  /** The index of the last '/' in `s`, if any. */
  function LastSlash(s: string): (r: Option<nat>)
    ensures r.Some? <==> '/' in s
    ensures r.Some? ==> r.value < |s| && s[r.value] == '/' && '/' !in s[r.value + 1..]
  {
    if |s| == 0 then None
    else if s[|s| - 1] == '/' then Some(|s| - 1)
    else
      var r := LastSlash(s[..|s| - 1]);
      assert r.Some? ==> s[r.value + 1..] == s[..|s| - 1][r.value + 1..] + [s[|s| - 1]];
      r
  }

  /** The folder part of `loadObject`: everything before the last '/',
      followed by '/', i.e. the path up to and including its last '/'. A
      path without '/' makes the source read before the string's start. */
  function ObjectFolder(path: string): (r: Result<string, AssetError>)
    ensures r.Ok? <==> '/' in path
    ensures r.Err? ==> r.error == NoSlashInPath
    ensures r.Ok? ==>
      && 0 < |r.value| <= |path| && r.value[|r.value| - 1] == '/'
      && r.value == path[..|r.value|]
      && '/' !in path[|r.value|..]
  {
    var last := LastSlash(path);
    if last.None? then Err(NoSlashInPath) else Ok(path[..last.value] + "/")
  }

  /** `aiScene`: the incomplete flag, the root node if any, and the mesh
      table. */
  datatype Scene = Scene(incomplete: bool, root: Option<Node>, meshes: seq<ImportedMesh>)

  /** Every mesh index reachable from the root is in range, and every mesh is
      well formed: what the importer guarantees. */
  predicate WellFormedScene(s: Scene)
  {
    && (forall k :: 0 <= k < |s.meshes| ==> WellFormedMesh(s.meshes[k]))
    && (s.root.Some? ==>
          var order := ProcessNodes(s.root.value);
          forall k :: 0 <= k < |order| ==> order[k] < |s.meshes|)
  }

  /** The importer returned a complete scene with a root node. */
  predicate Imported(scene: Option<Scene>)
  {
    scene.Some? && !scene.value.incomplete && scene.value.root.Some?
  }

  /** `loadObject`: null on a missing, incomplete or rootless scene; else the
      folder from the path, then every mesh the walk lists, in walk order.
      `textures(k)` is the outcome of the texture manager's three loads for
      scene mesh k's material: the slots it hands out, or `None` when a load
      throws because every slot is used. It succeeds exactly when the scene
      was imported, the path has a '/', and every mesh on the walk is
      processable and gets its textures; each error names the first of these
      that fails. */
  method LoadObject(path: string, scene: Option<Scene>, textures: nat -> Option<TextureIds>)
    returns (r: Result<(string, seq<MeshData>), AssetError>)
    requires scene.Some? ==> WellFormedScene(scene.value)
    ensures r.Ok? <==>
      && Imported(scene) && '/' in path
      && var order := ProcessNodes(scene.value.root.value);
         forall k :: 0 <= k < |order| ==> Loadable(scene.value.meshes[order[k]], textures(order[k]))
    ensures r == Err(ImportFailed) <==> !Imported(scene)
    ensures r == Err(NoSlashInPath) <==> Imported(scene) && '/' !in path
    ensures r.Ok? ==>
      var order := ProcessNodes(scene.value.root.value);
      var (folder, meshes) := r.value;
      && ObjectFolder(path) == Ok(folder)
      && |meshes| == |order|
      && forall k :: 0 <= k < |order| ==>
           && Loadable(scene.value.meshes[order[k]], textures(order[k]))
           && meshes[k].indices == Flatten(scene.value.meshes[order[k]].faces)
           && |meshes[k].vertices| == |scene.value.meshes[order[k]].positions|
           && (forall i :: 0 <= i < |meshes[k].vertices| ==>
                 meshes[k].vertices[i] == VertexOf(scene.value.meshes[order[k]], i))
           && meshes[k].textures == textures(order[k]).value
    ensures r.Err? && r.error in {NoVertices, ShortFace, TextureLimitReached} ==>
      var order := ProcessNodes(scene.value.root.value);
      exists k :: 0 <= k < |order| && FirstUnloadable(scene.value.meshes, order, textures, k)
        && r.error == MeshFailure(scene.value.meshes[order[k]])
  {
    if scene.None? || scene.value.incomplete || scene.value.root.None? {
      return Err(ImportFailed);
    }
    var s := scene.value;
    var folder := ObjectFolder(path);
    if folder.Err? {
      return Err(folder.error);
    }
    var order := ProcessNodes(s.root.value);
    var meshes: seq<MeshData> := [];
    var k := 0;
    while k < |order|
      invariant 0 <= k <= |order| && |meshes| == k
      invariant forall q :: 0 <= q < k ==>
        && Loadable(s.meshes[order[q]], textures(order[q]))
        && meshes[q].indices == Flatten(s.meshes[order[q]].faces)
        && |meshes[q].vertices| == |s.meshes[order[q]].positions|
        && (forall i :: 0 <= i < |meshes[q].vertices| ==> meshes[q].vertices[i] == VertexOf(s.meshes[order[q]], i))
        && meshes[q].textures == textures(order[q]).value
    {
      var mesh := ProcessMesh(s.meshes[order[k]], textures(order[k]));
      if mesh.Err? {
        assert order == ProcessNodes(scene.value.root.value);
        assert FirstUnloadable(s.meshes, order, textures, k);
        return Err(mesh.error);
      }
      meshes := meshes + [mesh.value];
      k := k + 1;
    }
    return Ok((folder.value, meshes));
  }
}
