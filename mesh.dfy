/** The model loaders of `Velo`: `load_model` and
    `load_model_per_face_material` walk the corners of the shapes read from
    an OBJ file, build one vertex per corner and deduplicate the vertices
    through a hash map from vertex to index. Each vertex not seen before in
    this load is appended to `vertices`. Every corner, seen or not, appends
    that vertex's index to `indices`.

    Vertices are only ever compared for equality, so they are a type
    parameter `V`. The floating-point values inside a vertex come from the
    attribute arrays: its position, its texture coordinate with `v`
    flipped, and a white colour. The parameter `vertexOf`, which maps a
    corner to its vertex, stands for all of them. */
module Mesh {
  import opened Outcomes
  import opened Vk
  import opened Search

  /** A `tinyobj::index_t`: one corner of a face. */
  datatype Corner = Corner(vertexIndex: int, normalIndex: int, texcoordIndex: int)

  /** A `tinyobj::shape_t`: the corners of its faces, face after face, and
      the number of corners of each face. */
  datatype Shape = Shape(indices: seq<Corner>, numFaceVertices: seq<nat>)

  /** The elements of `s` in the order of their first occurrence, each
      once. */
  function Uniq<V(==,!new)>(s: seq<V>): (r: seq<V>)
    ensures Distinct(r)
    ensures forall v :: v in r <==> v in s
    decreases |s|
  {
    if s == [] then []
    else
      var u := Uniq(s[..|s| - 1]);
      assert forall v :: v in s <==> v in s[..|s| - 1] || v == s[|s| - 1];
      if s[|s| - 1] in u then u else u + [s[|s| - 1]]
  }

  /** The vertex of each corner, in order. */
  function VerticesOf<V>(cs: seq<Corner>, vertexOf: Corner -> V): (r: seq<V>)
    ensures |r| == |cs| && forall k :: 0 <= k < |cs| ==> r[k] == vertexOf(cs[k])
  {
    seq(|cs|, k requires 0 <= k < |cs| => vertexOf(cs[k]))
  }

  /** Every corner of every shape, shape after shape: what `load_model`
      visits. */
  function AllCorners(shapes: seq<Shape>): seq<Corner>
    decreases |shapes|
  {
    if shapes == [] then [] else AllCorners(shapes[..|shapes| - 1]) + shapes[|shapes| - 1].indices
  }

  function Sum(ns: seq<nat>): nat
    decreases |ns|
  {
    if ns == [] then 0 else Sum(ns[..|ns| - 1]) + ns[|ns| - 1]
  }

  /** A prefix never sums to more than the whole. */
  lemma {:induction false} SumPrefix(ns: seq<nat>, j: nat)
    requires j <= |ns|
    ensures Sum(ns[..j]) <= Sum(ns)
    decreases |ns|
  {
    if j < |ns| {
      assert ns[..|ns| - 1][..j] == ns[..j];
      SumPrefix(ns[..|ns| - 1], j);
    } else {
      assert ns[..j] == ns;
    }
  }

  /** Summing one more element of a prefix. */
  lemma SumSnoc(ns: seq<nat>, k: nat)
    requires k < |ns|
    ensures Sum(ns[..k + 1]) == Sum(ns[..k]) + ns[k]
  {
    assert ns[..k + 1][..k] == ns[..k];
  }

  /** Every shape has at least as many corners as its faces claim. */
  predicate FacesInRange(shapes: seq<Shape>) {
    forall s :: 0 <= s < |shapes| ==> Sum(shapes[s].numFaceVertices) <= |shapes[s].indices|
  }

  /** The corners `load_model_per_face_material` visits: in each shape, the
      corners of its faces, counted afresh from the shape's first corner. */
  function FaceCorners(shapes: seq<Shape>): seq<Corner>
    requires FacesInRange(shapes)
    decreases |shapes|
  {
    if shapes == [] then []
    else
      var last := shapes[|shapes| - 1];
      FaceCorners(shapes[..|shapes| - 1]) + last.indices[..Sum(last.numFaceVertices)]
  }

  /** The number of faces of all the shapes. */
  function FaceCount(shapes: seq<Shape>): nat
    decreases |shapes|
  {
    if shapes == [] then 0 else FaceCount(shapes[..|shapes| - 1]) + |shapes[|shapes| - 1].numFaceVertices|
  }

  /** The remainder of C++ `%` on `int`, truncating toward zero. */
  function TruncRem(a: int, b: int): (r: int)
    requires b > 0
    ensures -b < r < b
    ensures a >= 0 ==> r == a % b
    ensures a < 0 ==> r <= 0
  {
    if a >= 0 then a % b else -((-a) % b)
  }

  /** The material index of face number `g`, a `uint32_t` counter: the
      counter cast to `int`, taken `% 4`, and replaced by 0 when
      `std::max(matId, 0)` is 0. Below 2^31 this is `g % 4`; above, the cast
      is negative and every face gets material 0. */
  function FaceMaterial(g: u32): (m: nat)
    ensures m < 4
    ensures g < 0x8000_0000 ==> m == g % 4
    ensures g >= 0x8000_0000 ==> m == 0
  {
    var matId := TruncRem(ToInt32(g), 4);
    if (if matId > 0 then matId else 0) == 0 then 0 else matId
  }

  /** The material of every face numbered below `n`. */
  function FaceMaterials(n: nat): (r: seq<nat>)
    ensures |r| == n && forall f :: 0 <= f < n ==> r[f] == FaceMaterial(U32(f))
  {
    if n == 0 then [] else FaceMaterials(n - 1) + [FaceMaterial(U32(n - 1))]
  }

  /** `++globalFaceIdx`: the counter after face `faces - 1` is `faces`
      modulo 2^32. */
  function NextFace(globalFaceIdx: u32, faces: nat): (next: u32)
    requires faces > 0 && globalFaceIdx == U32(faces - 1)
    ensures next == U32(faces)
  {
    CounterStep(faces - 1);
    U32(globalFaceIdx + 1)
  }

  /** Incrementing the `uint32_t` face counter keeps it equal to the number
      of faces seen, modulo 2^32. */
  lemma CounterStep(n: nat)
    ensures U32(U32(n) + 1) == U32(n + 1)
  {
    var q := n / TWO_POW_32;
    assert n == q * TWO_POW_32 + U32(n);
    if U32(n) + 1 == TWO_POW_32 {
      assert n + 1 == (q + 1) * TWO_POW_32;
    }
  }

  const CORNER_OUT_OF_RANGE := "shape.mesh.indices read past its end"

  /** What a deduplication has built: the hash map `uniqueVertices`, the
      vertices and the indices. */
  datatype Dedup<V> = Dedup(unique: map<V, nat>, vertices: seq<V>, indices: seq<nat>)

  /** The step both loaders take for the vertex `v` of one corner: `v` is
      mapped to the current number of vertices and appended, unless the map
      already has it; then the index the map gives it is appended. */
  function Add<V(==)>(d: Dedup<V>, v: V): Dedup<V> {
    if v in d.unique then d.(indices := d.indices + [d.unique[v]])
    else Dedup(d.unique[v := |d.vertices|], d.vertices + [v], d.indices + [|d.vertices|])
  }

  /** Deduplicating the vertices of the corners `cs`, in order, from `d`. */
  function AddCorners<V(==)>(d: Dedup<V>, cs: seq<Corner>, vertexOf: Corner -> V): Dedup<V>
    decreases |cs|
  {
    if cs == [] then d else Add(AddCorners(d, cs[..|cs| - 1], vertexOf), vertexOf(cs[|cs| - 1]))
  }

  /** The vertices after `base` and the indices after `start` are what
      deduplicating `seen` gives: the index appended for each seen vertex
      points at that vertex, among the vertices after `base`. */
  ghost predicate Indexed<V>(vertices: seq<V>, indices: seq<nat>, base: nat, start: nat, seen: seq<V>)
  {
    && base <= |vertices| && |indices| == start + |seen|
    && (forall j :: start <= j < |indices| ==>
          base <= indices[j] < |vertices| && vertices[indices[j]] == seen[j - start])
  }

  /** `Indexed`, with the vertices after `base` being `Uniq(seen)` and the
      hash map holding exactly the vertices seen, each at its position. */
  ghost predicate Deduped<V(!new)>(d: Dedup<V>, base: nat, start: nat, seen: seq<V>)
  {
    && Indexed(d.vertices, d.indices, base, start, seen)
    && d.vertices[base..] == Uniq(seen)
    && (forall v :: v in d.unique <==> v in seen)
    && (forall v :: v in d.unique ==> base <= d.unique[v] < |d.vertices| && d.vertices[d.unique[v]] == v)
  }

  /** One step of the deduplication keeps `Deduped`. */
  lemma DedupStep<V(!new)>(d: Dedup<V>, base: nat, start: nat, seen: seq<V>, v: V)
    requires Deduped(d, base, start, seen)
    ensures Deduped(Add(d, v), base, start, seen + [v])
  {
    assert (seen + [v])[..|seen|] == seen;
    if v !in d.unique {
      assert (d.vertices + [v])[base..] == d.vertices[base..] + [v];
    }
  }

  /** Deduplicating `cs` from an empty map keeps `Deduped` for their
      vertices and leaves the vertices and indices already there alone. */
  lemma {:induction false} AddCornersDeduped<V(!new)>(vertices: seq<V>, indices: seq<nat>, cs: seq<Corner>,
                                                       vertexOf: Corner -> V)
    ensures var d := AddCorners(Dedup(map[], vertices, indices), cs, vertexOf);
            && Deduped(d, |vertices|, |indices|, VerticesOf(cs, vertexOf))
            && d.vertices[..|vertices|] == vertices && d.indices[..|indices|] == indices
    decreases |cs|
  {
    if cs == [] {
      assert vertices[|vertices|..] == [];
    } else {
      AddCornersDeduped(vertices, indices, cs[..|cs| - 1], vertexOf);
      AddLastCorner(Dedup(map[], vertices, indices), cs, vertexOf);
    }
  }

  /** The inductive step of `AddCornersDeduped`: deduplicating one more
      corner. */
  lemma AddLastCorner<V(!new)>(d0: Dedup<V>, cs: seq<Corner>, vertexOf: Corner -> V)
    requires |cs| > 0
    requires var d := AddCorners(d0, cs[..|cs| - 1], vertexOf);
             && Deduped(d, |d0.vertices|, |d0.indices|, VerticesOf(cs[..|cs| - 1], vertexOf))
             && d.vertices[..|d0.vertices|] == d0.vertices && d.indices[..|d0.indices|] == d0.indices
    ensures var d := AddCorners(d0, cs, vertexOf);
            && Deduped(d, |d0.vertices|, |d0.indices|, VerticesOf(cs, vertexOf))
            && d.vertices[..|d0.vertices|] == d0.vertices && d.indices[..|d0.indices|] == d0.indices
  {
    var n := |cs| - 1;
    var d, seen, v := AddCorners(d0, cs[..n], vertexOf), VerticesOf(cs[..n], vertexOf), vertexOf(cs[n]);
    DedupStep(d, |d0.vertices|, |d0.indices|, seen, v);
    AddKeepsPrefix(d, v, |d0.vertices|, |d0.indices|);
    VerticesOfSnoc(cs, vertexOf);
    assert AddCorners(d0, cs, vertexOf) == Add(d, v);
  }

  /** `Add` only appends. */
  lemma AddKeepsPrefix<V>(d: Dedup<V>, v: V, nv: nat, ni: nat)
    requires nv <= |d.vertices| && ni <= |d.indices|
    ensures Add(d, v).vertices[..nv] == d.vertices[..nv] && Add(d, v).indices[..ni] == d.indices[..ni]
  {
  }

  /** The vertices of a list of corners are those of all but its last
      corner, then the last corner's. */
  lemma VerticesOfSnoc<V>(cs: seq<Corner>, vertexOf: Corner -> V)
    requires |cs| > 0
    ensures VerticesOf(cs, vertexOf) == VerticesOf(cs[..|cs| - 1], vertexOf) + [vertexOf(cs[|cs| - 1])]
  {
    var r, p := VerticesOf(cs, vertexOf), VerticesOf(cs[..|cs| - 1], vertexOf) + [vertexOf(cs[|cs| - 1])];
    assert |r| == |p|;
    forall k | 0 <= k < |r|
      ensures r[k] == p[k]
    {
      if k < |cs| - 1 {
        assert p[k] == VerticesOf(cs[..|cs| - 1], vertexOf)[k];
      }
    }
  }

  /** What a load leaves behind: the vertices and indices already there are
      kept; the new vertices are the vertices of the corners `cs`, each
      once, in the order of their first corner; and the index appended for
      each corner points, among the new vertices, at that corner's vertex. */
  lemma LoadedFromEmpty<V(!new)>(vertices: seq<V>, indices: seq<nat>, cs: seq<Corner>, vertexOf: Corner -> V)
    ensures var d := AddCorners(Dedup(map[], vertices, indices), cs, vertexOf);
            && Indexed(d.vertices, d.indices, |vertices|, |indices|, VerticesOf(cs, vertexOf))
            && d.vertices[..|vertices|] == vertices && d.indices[..|indices|] == indices
            && d.vertices[|vertices|..] == Uniq(VerticesOf(cs, vertexOf))
  {
    AddCornersDeduped(vertices, indices, cs, vertexOf);
  }

  /** Deduplicating one more corner of a shape's list. */
  lemma NextCorner<V>(d0: Dedup<V>, before: seq<Corner>, cs: seq<Corner>, k: nat, vertexOf: Corner -> V)
    requires k < |cs|
    ensures AddCorners(d0, before + cs[..k + 1], vertexOf)
              == Add(AddCorners(d0, before + cs[..k], vertexOf), vertexOf(cs[k]))
  {
    assert (before + cs[..k + 1])[..|before| + k] == before + cs[..k];
  }

  /** A face whose corners run past the end of its shape's corners makes
      the shape out of range. */
  lemma ReadPastEnd(shape: Shape, faceIdx: nat)
    requires faceIdx < |shape.numFaceVertices|
    requires Sum(shape.numFaceVertices[..faceIdx]) + shape.numFaceVertices[faceIdx] > |shape.indices|
    ensures Sum(shape.numFaceVertices) > |shape.indices|
  {
    var ns := shape.numFaceVertices;
    assert ns[..faceIdx + 1][..faceIdx] == ns[..faceIdx];
    SumPrefix(ns, faceIdx + 1);
  }

  /** Once every face of `shapes[s]` is in range, the prefix through `s`
      is, and it has that shape's face corners and faces at its end. */
  lemma NextShape(shapes: seq<Shape>, s: nat)
    requires s < |shapes| && FacesInRange(shapes[..s])
    requires Sum(shapes[s].numFaceVertices) <= |shapes[s].indices|
    ensures FacesInRange(shapes[..s + 1])
    ensures FaceCorners(shapes[..s + 1])
              == FaceCorners(shapes[..s]) + shapes[s].indices[..Sum(shapes[s].numFaceVertices)]
    ensures FaceCount(shapes[..s + 1]) == FaceCount(shapes[..s]) + |shapes[s].numFaceVertices|
  {
    assert shapes[..s + 1][..s] == shapes[..s];
  }

  /** The mesh members of `Velo`. */
  class Geometry<V(==,!new)> {
    var vertices: seq<V>
    var indices: seq<nat>
    var materialIndices: seq<nat>

    constructor ()
      ensures vertices == [] && indices == [] && materialIndices == []
    {
      vertices, indices, materialIndices := [], [], [];
    }

    /** The body both loaders run for the vertex `v` of one corner. */
    method AddVertex(unique: map<V, nat>, v: V) returns (unique': map<V, nat>)
      modifies this
      ensures Dedup(unique', vertices, indices) == Add(Dedup(unique, old(vertices), old(indices)), v)
      ensures materialIndices == old(materialIndices)
    {
      if v !in unique {
        unique' := unique[v := |vertices|];
        vertices := vertices + [v];
      } else {
        unique' := unique;
      }
      indices := indices + [unique'[v]];
    }

    /** `load_model`: `obj` is what the OBJ loader read, or `None` when it
        failed with the warning and error text `message`. */
    method LoadModel(obj: Option<seq<Shape>>, message: string, vertexOf: Corner -> V) returns (err: Option<Error>)
      modifies this
      ensures obj.None? ==> err == Some(RuntimeError(message)) && unchanged(this)
      ensures obj.Some? ==> err.None? && materialIndices == old(materialIndices)
      ensures obj.Some? ==>
                var d := AddCorners(Dedup(map[], old(vertices), old(indices)), AllCorners(obj.value), vertexOf);
                vertices == d.vertices && indices == d.indices
      ensures obj.Some? ==>
                && Indexed(vertices, indices, |old(vertices)|, |old(indices)|, VerticesOf(AllCorners(obj.value), vertexOf))
                && vertices[..|old(vertices)|] == old(vertices) && indices[..|old(indices)|] == old(indices)
                && vertices[|old(vertices)|..] == Uniq(VerticesOf(AllCorners(obj.value), vertexOf))
    {
      if obj.None? {
        return Some(RuntimeError(message));
      }
      var shapes := obj.value;
      var unique: map<V, nat> := map[];
      ghost var d0 := Dedup(map[], vertices, indices);
      for s := 0 to |shapes|
        invariant Dedup(unique, vertices, indices) == AddCorners(d0, AllCorners(shapes[..s]), vertexOf)
        invariant materialIndices == old(materialIndices)
      {
        var shape := shapes[s];
        ghost var before := AllCorners(shapes[..s]);
        assert before + shape.indices[..0] == before;
        for i := 0 to |shape.indices|
          invariant Dedup(unique, vertices, indices) == AddCorners(d0, before + shape.indices[..i], vertexOf)
          invariant materialIndices == old(materialIndices)
        {
          unique := AddVertex(unique, vertexOf(shape.indices[i]));
          NextCorner(d0, before, shape.indices, i, vertexOf);
        }
        assert shapes[..s + 1][..s] == shapes[..s] && shape.indices[..|shape.indices|] == shape.indices;
      }
      assert shapes[..|shapes|] == shapes;
      LoadedFromEmpty(old(vertices), old(indices), AllCorners(shapes), vertexOf);
      return None;
    }

    /** `load_model_per_face_material`: the material indices are cleared,
        then each face appends its material and the vertices of its
        corners, whose count `numFaceVertices` gives. The offset of a face's
        first corner starts afresh at 0 in each shape; the face counter
        runs on across shapes. */
    method LoadModelPerFaceMaterial(obj: Option<seq<Shape>>, message: string, vertexOf: Corner -> V)
      returns (err: Option<Error>)
      modifies this
      ensures obj.None? ==> err == Some(RuntimeError(message)) && unchanged(this)
      ensures obj.Some? ==> (err.None? <==> FacesInRange(obj.value))
      ensures obj.Some? && !FacesInRange(obj.value) ==> err == Some(Error.Undefined(CORNER_OUT_OF_RANGE))
      ensures obj.Some? && FacesInRange(obj.value) ==>
                && materialIndices == FaceMaterials(FaceCount(obj.value))
                && var d := AddCorners(Dedup(map[], old(vertices), old(indices)), FaceCorners(obj.value), vertexOf);
                   vertices == d.vertices && indices == d.indices
      ensures obj.Some? && FacesInRange(obj.value) ==>
                && Indexed(vertices, indices, |old(vertices)|, |old(indices)|, VerticesOf(FaceCorners(obj.value), vertexOf))
                && vertices[..|old(vertices)|] == old(vertices) && indices[..|old(indices)|] == old(indices)
                && vertices[|old(vertices)|..] == Uniq(VerticesOf(FaceCorners(obj.value), vertexOf))
    {
      if obj.None? {
        return Some(RuntimeError(message));
      }
      var shapes := obj.value;
      var unique: map<V, nat> := map[];
      var globalFaceIdx: u32 := 0;
      materialIndices := [];
      ghost var d0 := Dedup(map[], vertices, indices);
      for s := 0 to |shapes|
        invariant FacesInRange(shapes[..s])
        invariant Dedup(unique, vertices, indices) == AddCorners(d0, FaceCorners(shapes[..s]), vertexOf)
        invariant |materialIndices| == FaceCount(shapes[..s])
        invariant materialIndices == FaceMaterials(|materialIndices|) && globalFaceIdx == U32(|materialIndices|)
      {
        var inRange;
        unique, globalFaceIdx, inRange := AddShapeFaces(shapes[s], unique, globalFaceIdx, vertexOf, d0,
                                                        FaceCorners(shapes[..s]));
        if !inRange {
          return Some(Error.Undefined(CORNER_OUT_OF_RANGE));
        }
        NextShape(shapes, s);
      }
      assert shapes[..|shapes|] == shapes;
      LoadedFromEmpty(old(vertices), old(indices), FaceCorners(shapes), vertexOf);
      return None;
    }

    /** The body of the shape loop of `load_model_per_face_material`, for
        one shape: `inRange` is false when a face reads past the shape's
        corners, which the C++ leaves undefined. */
    method AddShapeFaces(shape: Shape, unique: map<V, nat>, globalFaceIdx: u32, vertexOf: Corner -> V,
                         ghost d0: Dedup<V>, ghost before: seq<Corner>)
      returns (unique': map<V, nat>, globalFaceIdx': u32, inRange: bool)
      requires Dedup(unique, vertices, indices) == AddCorners(d0, before, vertexOf)
      requires materialIndices == FaceMaterials(|materialIndices|) && globalFaceIdx == U32(|materialIndices|)
      modifies this
      ensures inRange <==> Sum(shape.numFaceVertices) <= |shape.indices|
      ensures inRange ==>
                Dedup(unique', vertices, indices)
                  == AddCorners(d0, before + shape.indices[..Sum(shape.numFaceVertices)], vertexOf)
      ensures inRange ==>
                && |materialIndices| == old(|materialIndices|) + |shape.numFaceVertices|
                && materialIndices == FaceMaterials(|materialIndices|) && globalFaceIdx' == U32(|materialIndices|)
    {
      unique', globalFaceIdx' := unique, globalFaceIdx;
      var idxOffset := 0;
      assert before + shape.indices[..0] == before;
      for faceIdx := 0 to |shape.numFaceVertices|
        invariant idxOffset == Sum(shape.numFaceVertices[..faceIdx]) <= |shape.indices|
        invariant Dedup(unique', vertices, indices) == AddCorners(d0, before + shape.indices[..idxOffset], vertexOf)
        invariant |materialIndices| == old(|materialIndices|) + faceIdx
        invariant materialIndices == FaceMaterials(|materialIndices|) && globalFaceIdx' == U32(|materialIndices|)
      {
        var fits;
        unique', idxOffset, globalFaceIdx', fits := FaceStep(shape, faceIdx, idxOffset, unique', globalFaceIdx',
                                                              vertexOf, d0, before);
        if !fits {
          return unique', globalFaceIdx', false;
        }
      }
      assert shape.numFaceVertices[..|shape.numFaceVertices|] == shape.numFaceVertices;
      return unique', globalFaceIdx', true;
    }

    /** One turn of the face loop of `load_model_per_face_material`: face
        `faceIdx`, whose corners start at `idxOffset`, then the offset and
        the face counter move on. */
    method FaceStep(shape: Shape, faceIdx: nat, idxOffset: nat, unique: map<V, nat>, globalFaceIdx: u32,
                    vertexOf: Corner -> V, ghost d0: Dedup<V>, ghost before: seq<Corner>)
      returns (unique': map<V, nat>, idxOffset': nat, globalFaceIdx': u32, fits: bool)
      requires faceIdx < |shape.numFaceVertices|
      requires idxOffset == Sum(shape.numFaceVertices[..faceIdx]) <= |shape.indices|
      requires Dedup(unique, vertices, indices) == AddCorners(d0, before + shape.indices[..idxOffset], vertexOf)
      requires materialIndices == FaceMaterials(|materialIndices|) && globalFaceIdx == U32(|materialIndices|)
      modifies this
      ensures |materialIndices| == old(|materialIndices|) + 1
      ensures !fits ==> Sum(shape.numFaceVertices) > |shape.indices|
      ensures fits ==>
                && idxOffset' == Sum(shape.numFaceVertices[..faceIdx + 1]) <= |shape.indices|
                && Dedup(unique', vertices, indices) == AddCorners(d0, before + shape.indices[..idxOffset'], vertexOf)
                && materialIndices == FaceMaterials(|materialIndices|) && globalFaceIdx' == U32(|materialIndices|)
    {
      unique', fits := AddFace(shape.indices, idxOffset, shape.numFaceVertices[faceIdx], unique, globalFaceIdx,
                               vertexOf, d0, before);
      if !fits {
        ReadPastEnd(shape, faceIdx);
        return unique', idxOffset, globalFaceIdx, false;
      }
      SumSnoc(shape.numFaceVertices, faceIdx);
      idxOffset' := idxOffset + shape.numFaceVertices[faceIdx];
      globalFaceIdx' := NextFace(globalFaceIdx, |materialIndices|);
    }

    /** One face of `load_model_per_face_material`: its material, then its
        `numVerts` corners from `idxOffset` on; `fits` is false when they
        run past the shape's corners. */
    method AddFace(cs: seq<Corner>, idxOffset: nat, numVerts: nat, unique: map<V, nat>, globalFaceIdx: u32,
                   vertexOf: Corner -> V, ghost d0: Dedup<V>, ghost before: seq<Corner>)
      returns (unique': map<V, nat>, fits: bool)
      requires idxOffset <= |cs|
      requires Dedup(unique, vertices, indices) == AddCorners(d0, before + cs[..idxOffset], vertexOf)
      requires materialIndices == FaceMaterials(|materialIndices|) && globalFaceIdx == U32(|materialIndices|)
      modifies this
      ensures |materialIndices| == old(|materialIndices|) + 1
      ensures materialIndices == FaceMaterials(|materialIndices|)
      ensures fits <==> idxOffset + numVerts <= |cs|
      ensures fits ==> Dedup(unique', vertices, indices) == AddCorners(d0, before + cs[..idxOffset + numVerts], vertexOf)
    {
      materialIndices := materialIndices + [FaceMaterial(globalFaceIdx)];
      unique', fits := AddFaceCorners(cs, idxOffset, numVerts, unique, vertexOf, d0, before);
    }

    /** The vertex loop of `load_model_per_face_material` for one face of
        `numVerts` corners starting at `idxOffset`: `fits` is false when
        the face runs past the shape's corners. */
    method AddFaceCorners(cs: seq<Corner>, idxOffset: nat, numVerts: nat, unique: map<V, nat>, vertexOf: Corner -> V,
                          ghost d0: Dedup<V>, ghost before: seq<Corner>)
      returns (unique': map<V, nat>, fits: bool)
      requires idxOffset <= |cs|
      requires Dedup(unique, vertices, indices) == AddCorners(d0, before + cs[..idxOffset], vertexOf)
      modifies this
      ensures materialIndices == old(materialIndices)
      ensures fits <==> idxOffset + numVerts <= |cs|
      ensures fits ==> Dedup(unique', vertices, indices) == AddCorners(d0, before + cs[..idxOffset + numVerts], vertexOf)
    {
      unique' := unique;
      for i := 0 to numVerts
        invariant idxOffset + i <= |cs|
        invariant Dedup(unique', vertices, indices) == AddCorners(d0, before + cs[..idxOffset + i], vertexOf)
        invariant materialIndices == old(materialIndices)
      {
        if idxOffset + i >= |cs| {
          return unique', false;
        }
        unique' := AddVertex(unique', vertexOf(cs[idxOffset + i]));
        NextCorner(d0, before, cs, idxOffset + i, vertexOf);
      }
      return unique', true;
    }
  }
}
