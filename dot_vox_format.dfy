/** The `.vox` mesh builder: every voxel of the first model becomes a cube of
    36 vertices placed by the offset template and coloured through the palette,
    and the cubes are concatenated in voxel order. */
module DotVoxFormat {
  import opened Palette
  import opened Cube

  /** A voxel as the decoder yields it: grid coordinates and a palette index,
      one byte each (the `.vox` format stores a voxel as four bytes). */
  datatype Voxel = Voxel(x: Byte, y: Byte, z: Byte, i: Byte)

  /** One model of a `.vox` file; only its voxel list takes part in the mesh. */
  datatype Model = Model(voxels: seq<Voxel>)

  /** What the decoder yields: the file's models and its packed palette. */
  datatype DotVoxData = DotVoxData(models: seq<Model>, palette: seq<U32>)

  /** A mesh vertex: position and flat colour (`PosColor`). */
  datatype Vertex = PosColor(position: Vec3, color: Rgba)

  /** The decoder's failure, carried to the caller of `import` unchanged. */
  datatype DecodeError = DecodeError(message: string)

  datatype Result<T> = Ok(value: T) | Err(error: DecodeError)

  /** The voxel's grid coordinates as a point: the centre of its cube. */
  function Centre(v: Voxel): Vec3
  {
    Vec3(v.x as real, v.y as real, v.z as real)
  }

  /** `p` is a corner of the unit cube centred on `v`: half a unit away from
      the voxel's coordinate on every axis. */
  predicate CornerOf(p: Vec3, v: Voxel)
  {
    IsHalf(p.x - v.x as real) && IsHalf(p.y - v.y as real) && IsHalf(p.z - v.z as real)
  }

  /** voxel_to_cube: one vertex per template offset, in template order, placed
      at the voxel's coordinate plus the offset; all 36 vertices carry the one
      colour the voxel's palette index resolves to, and every one is a corner of
      the voxel's cell. */
  function VoxelToCube(voxel: Voxel, palette: seq<U32>): (vs: seq<Vertex>)
    ensures |vs| == |CubeOffsets()| == 36
    ensures forall j :: 0 <= j < |vs| ==> vs[j].color == PaletteToRgba(palette, voxel.i)
    ensures forall j :: 0 <= j < |vs| ==> vs[j].position == Add(Centre(voxel), CubeOffsets()[j])
    ensures forall j :: 0 <= j < |vs| ==> CornerOf(vs[j].position, voxel)
  {
    var color := PaletteToRgba(palette, voxel.i);
    var offsets := CubeOffsets();
    seq(|offsets|, j requires 0 <= j < |offsets| => PosColor(Add(Centre(voxel), offsets[j]), color))
  }

  /** The vertex list `import` collects: the cubes of `voxels`, in voxel order,
      36 vertices each, with nothing merged or culled between neighbours. */
  function Mesh(voxels: seq<Voxel>, palette: seq<U32>): (vs: seq<Vertex>)
    ensures |vs| == 36 * |voxels|
    ensures forall i :: 0 <= i < |voxels| ==> vs[36 * i .. 36 * i + 36] == VoxelToCube(voxels[i], palette)
  {
    if voxels == [] then []
    else
      var head := VoxelToCube(voxels[0], palette);
      var rest := Mesh(voxels[1..], palette);
      assert forall i :: 1 <= i < |voxels| ==>
        (head + rest)[36 * i .. 36 * i + 36] == rest[36 * (i - 1) .. 36 * (i - 1) + 36];
      head + rest
  }

  /** DotVoxFormat::import: a decode failure is passed on; otherwise the mesh
      of the first model's voxels under the file's palette. A decoded file
      without any model is outside what the source handles (it indexes
      `models[0]`). */
  function Import(decode: seq<Byte> -> Result<DotVoxData>, bytes: seq<Byte>): (r: Result<seq<Vertex>>)
    requires decode(bytes).Ok? ==> |decode(bytes).value.models| > 0
    ensures decode(bytes).Err? ==> r == Err(decode(bytes).error)
    ensures decode(bytes).Ok? ==> r.Ok?
    ensures decode(bytes).Ok? ==>
      var data := decode(bytes).value;
      var voxels := data.models[0].voxels;
      && |r.value| == 36 * |voxels|
      && forall i :: 0 <= i < |voxels| ==> r.value[36 * i .. 36 * i + 36] == VoxelToCube(voxels[i], data.palette)
  {
    match decode(bytes)
    case Err(e) => Err(e)
    case Ok(data) => Ok(Mesh(data.models[0].voxels, data.palette))
  }

  /** The mesh of two voxel lists one after the other is the mesh of the first
      followed by the mesh of the second: no voxel's cube depends on another. */
  lemma {:induction false} MeshAppend(a: seq<Voxel>, b: seq<Voxel>, palette: seq<U32>)
    ensures Mesh(a + b, palette) == Mesh(a, palette) + Mesh(b, palette)
  {
    if a == [] {
      assert a + b == b;
    } else {
      assert (a + b)[1..] == a[1..] + b;
      MeshAppend(a[1..], b, palette);
    }
  }

  /** Vertex `k` of the mesh belongs to voxel k / 36 and is placed by template
      offset k % 36, with that voxel's colour. */
  lemma MeshVertex(voxels: seq<Voxel>, palette: seq<U32>, k: nat)
    requires k < 36 * |voxels|
    ensures k / 36 < |voxels|
    ensures Mesh(voxels, palette)[k]
         == PosColor(Add(Centre(voxels[k / 36]), CubeOffsets()[k % 36]), PaletteToRgba(palette, voxels[k / 36].i))
  {
    var i, j := k / 36, k % 36;
    assert k == 36 * i + j;
    var vs := Mesh(voxels, palette);
    assert vs[36 * i .. 36 * i + 36][j] == vs[k];
  }

  /** Every vertex of the mesh is a corner of its voxel's cell and carries
      that voxel's colour. */
  lemma MeshVertexNearVoxel(voxels: seq<Voxel>, palette: seq<U32>, k: nat)
    requires k < 36 * |voxels|
    ensures k / 36 < |voxels|
    ensures CornerOf(Mesh(voxels, palette)[k].position, voxels[k / 36])
    ensures Mesh(voxels, palette)[k].color == PaletteToRgba(palette, voxels[k / 36].i)
  {
    MeshVertex(voxels, palette, k);
    var s := CubeOffsets();
    assert IsCorner(s[k % 36]);
  }

  /** Triangle `k` of a vertex list: the positions of vertices 3k, 3k + 1 and 3k + 2. */
  function TriangleOf(vs: seq<Vertex>, k: nat): Triangle
    requires 3 * k + 2 < |vs|
  {
    Triangle(vs[3 * k].position, vs[3 * k + 1].position, vs[3 * k + 2].position)
  }

  /** The single-voxel fixture: the voxel at (1, 1, 1) with palette index 0
      becomes exactly these 12 triangles, all in the colour of entry 0. */
  lemma OneVoxelFixture(palette: seq<U32>)
    ensures TriangleOf(VoxelToCube(Voxel(1, 1, 1, 0), palette), 0)
         == Triangle(Vec3(0.5, 0.5, 0.5), Vec3(0.5, 0.5, 1.5), Vec3(0.5, 1.5, 1.5))
    ensures TriangleOf(VoxelToCube(Voxel(1, 1, 1, 0), palette), 1)
         == Triangle(Vec3(1.5, 1.5, 0.5), Vec3(0.5, 0.5, 0.5), Vec3(0.5, 1.5, 0.5))
    ensures TriangleOf(VoxelToCube(Voxel(1, 1, 1, 0), palette), 2)
         == Triangle(Vec3(1.5, 0.5, 1.5), Vec3(0.5, 0.5, 0.5), Vec3(1.5, 0.5, 0.5))
    ensures TriangleOf(VoxelToCube(Voxel(1, 1, 1, 0), palette), 3)
         == Triangle(Vec3(1.5, 1.5, 0.5), Vec3(1.5, 0.5, 0.5), Vec3(0.5, 0.5, 0.5))
    ensures TriangleOf(VoxelToCube(Voxel(1, 1, 1, 0), palette), 4)
         == Triangle(Vec3(0.5, 0.5, 0.5), Vec3(0.5, 1.5, 1.5), Vec3(0.5, 1.5, 0.5))
    ensures TriangleOf(VoxelToCube(Voxel(1, 1, 1, 0), palette), 5)
         == Triangle(Vec3(1.5, 0.5, 1.5), Vec3(0.5, 0.5, 1.5), Vec3(0.5, 0.5, 0.5))
    ensures TriangleOf(VoxelToCube(Voxel(1, 1, 1, 0), palette), 6)
         == Triangle(Vec3(0.5, 1.5, 1.5), Vec3(0.5, 0.5, 1.5), Vec3(1.5, 0.5, 1.5))
    ensures TriangleOf(VoxelToCube(Voxel(1, 1, 1, 0), palette), 7)
         == Triangle(Vec3(1.5, 1.5, 1.5), Vec3(1.5, 0.5, 0.5), Vec3(1.5, 1.5, 0.5))
    ensures TriangleOf(VoxelToCube(Voxel(1, 1, 1, 0), palette), 8)
         == Triangle(Vec3(1.5, 0.5, 0.5), Vec3(1.5, 1.5, 1.5), Vec3(1.5, 0.5, 1.5))
    ensures TriangleOf(VoxelToCube(Voxel(1, 1, 1, 0), palette), 9)
         == Triangle(Vec3(1.5, 1.5, 1.5), Vec3(1.5, 1.5, 0.5), Vec3(0.5, 1.5, 0.5))
    ensures TriangleOf(VoxelToCube(Voxel(1, 1, 1, 0), palette), 10)
         == Triangle(Vec3(1.5, 1.5, 1.5), Vec3(0.5, 1.5, 0.5), Vec3(0.5, 1.5, 1.5))
    ensures TriangleOf(VoxelToCube(Voxel(1, 1, 1, 0), palette), 11)
         == Triangle(Vec3(1.5, 1.5, 1.5), Vec3(0.5, 1.5, 1.5), Vec3(1.5, 0.5, 1.5))
    ensures forall j :: 0 <= j < 36 ==> VoxelToCube(Voxel(1, 1, 1, 0), palette)[j].color == PaletteToRgba(palette, 0)
  {
    TemplateTriangles();
  }

  /** The voxels of the four-voxel fixture after decoding: one at (0, 0, 0)
      with palette index `g`, one at (0, 1, 1) with `r`, one at (1, 0, 1) with
      `b` and one at (1, 1, 0) with `y`, in that order; they touch pairwise. */
  function FourVoxels(g: Byte, r: Byte, b: Byte, y: Byte): seq<Voxel>
  {
    [Voxel(0, 0, 0, g), Voxel(0, 1, 1, r), Voxel(1, 0, 1, b), Voxel(1, 1, 0, y)]
  }

  /** The four-voxel fixture, shape: four full cubes, 144 vertices in voxel
      order, although the voxels touch. */
  lemma FourVoxelFixture(palette: seq<U32>, g: Byte, r: Byte, b: Byte, y: Byte)
    ensures |Mesh(FourVoxels(g, r, b, y), palette)| == 144
    ensures Mesh(FourVoxels(g, r, b, y), palette)
         == VoxelToCube(Voxel(0, 0, 0, g), palette) + VoxelToCube(Voxel(0, 1, 1, r), palette)
          + VoxelToCube(Voxel(1, 0, 1, b), palette) + VoxelToCube(Voxel(1, 1, 0, y), palette)
  {
    var vs := FourVoxels(g, r, b, y);
    assert vs == [vs[0]] + [vs[1]] + [vs[2]] + [vs[3]];
    MeshAppend([vs[0]] + [vs[1]] + [vs[2]], [vs[3]], palette);
    MeshAppend([vs[0]] + [vs[1]], [vs[2]], palette);
    MeshAppend([vs[0]], [vs[1]], palette);
  }

  /** The four-voxel fixture, green cube: the cube of voxel 0 of the
      fixture, which is vertices 0 to 35 of its mesh, all in green. */
  lemma FourVoxelFixtureGreen(palette: seq<U32>, g: Byte)
    requires PaletteToRgba(palette, g) == Rgba(0.0, 238.0 / 255.0, 0.0, 1.0)
    ensures TriangleOf(VoxelToCube(Voxel(0, 0, 0, g), palette), 0)
         == Triangle(Vec3(-0.5, -0.5, -0.5), Vec3(-0.5, -0.5, 0.5), Vec3(-0.5, 0.5, 0.5))
    ensures TriangleOf(VoxelToCube(Voxel(0, 0, 0, g), palette), 1)
         == Triangle(Vec3(0.5, 0.5, -0.5), Vec3(-0.5, -0.5, -0.5), Vec3(-0.5, 0.5, -0.5))
    ensures TriangleOf(VoxelToCube(Voxel(0, 0, 0, g), palette), 2)
         == Triangle(Vec3(0.5, -0.5, 0.5), Vec3(-0.5, -0.5, -0.5), Vec3(0.5, -0.5, -0.5))
    ensures TriangleOf(VoxelToCube(Voxel(0, 0, 0, g), palette), 3)
         == Triangle(Vec3(0.5, 0.5, -0.5), Vec3(0.5, -0.5, -0.5), Vec3(-0.5, -0.5, -0.5))
    ensures TriangleOf(VoxelToCube(Voxel(0, 0, 0, g), palette), 4)
         == Triangle(Vec3(-0.5, -0.5, -0.5), Vec3(-0.5, 0.5, 0.5), Vec3(-0.5, 0.5, -0.5))
    ensures TriangleOf(VoxelToCube(Voxel(0, 0, 0, g), palette), 5)
         == Triangle(Vec3(0.5, -0.5, 0.5), Vec3(-0.5, -0.5, 0.5), Vec3(-0.5, -0.5, -0.5))
    ensures TriangleOf(VoxelToCube(Voxel(0, 0, 0, g), palette), 6)
         == Triangle(Vec3(-0.5, 0.5, 0.5), Vec3(-0.5, -0.5, 0.5), Vec3(0.5, -0.5, 0.5))
    ensures TriangleOf(VoxelToCube(Voxel(0, 0, 0, g), palette), 7)
         == Triangle(Vec3(0.5, 0.5, 0.5), Vec3(0.5, -0.5, -0.5), Vec3(0.5, 0.5, -0.5))
    ensures TriangleOf(VoxelToCube(Voxel(0, 0, 0, g), palette), 8)
         == Triangle(Vec3(0.5, -0.5, -0.5), Vec3(0.5, 0.5, 0.5), Vec3(0.5, -0.5, 0.5))
    ensures TriangleOf(VoxelToCube(Voxel(0, 0, 0, g), palette), 9)
         == Triangle(Vec3(0.5, 0.5, 0.5), Vec3(0.5, 0.5, -0.5), Vec3(-0.5, 0.5, -0.5))
    ensures TriangleOf(VoxelToCube(Voxel(0, 0, 0, g), palette), 10)
         == Triangle(Vec3(0.5, 0.5, 0.5), Vec3(-0.5, 0.5, -0.5), Vec3(-0.5, 0.5, 0.5))
    ensures TriangleOf(VoxelToCube(Voxel(0, 0, 0, g), palette), 11)
         == Triangle(Vec3(0.5, 0.5, 0.5), Vec3(-0.5, 0.5, 0.5), Vec3(0.5, -0.5, 0.5))
    ensures forall j :: 0 <= j < 36 ==> VoxelToCube(Voxel(0, 0, 0, g), palette)[j].color == Rgba(0.0, 238.0 / 255.0, 0.0, 1.0)
  {
    TemplateTriangles();
  }

  /** The four-voxel fixture, red cube: the cube of voxel 1 of the
      fixture, which is vertices 36 to 71 of its mesh, all in red. */
  lemma FourVoxelFixtureRed(palette: seq<U32>, r: Byte)
    requires PaletteToRgba(palette, r) == Rgba(238.0 / 255.0, 0.0, 0.0, 1.0)
    ensures TriangleOf(VoxelToCube(Voxel(0, 1, 1, r), palette), 0)
         == Triangle(Vec3(-0.5, 0.5, 0.5), Vec3(-0.5, 0.5, 1.5), Vec3(-0.5, 1.5, 1.5))
    ensures TriangleOf(VoxelToCube(Voxel(0, 1, 1, r), palette), 1)
         == Triangle(Vec3(0.5, 1.5, 0.5), Vec3(-0.5, 0.5, 0.5), Vec3(-0.5, 1.5, 0.5))
    ensures TriangleOf(VoxelToCube(Voxel(0, 1, 1, r), palette), 2)
         == Triangle(Vec3(0.5, 0.5, 1.5), Vec3(-0.5, 0.5, 0.5), Vec3(0.5, 0.5, 0.5))
    ensures TriangleOf(VoxelToCube(Voxel(0, 1, 1, r), palette), 3)
         == Triangle(Vec3(0.5, 1.5, 0.5), Vec3(0.5, 0.5, 0.5), Vec3(-0.5, 0.5, 0.5))
    ensures TriangleOf(VoxelToCube(Voxel(0, 1, 1, r), palette), 4)
         == Triangle(Vec3(-0.5, 0.5, 0.5), Vec3(-0.5, 1.5, 1.5), Vec3(-0.5, 1.5, 0.5))
    ensures TriangleOf(VoxelToCube(Voxel(0, 1, 1, r), palette), 5)
         == Triangle(Vec3(0.5, 0.5, 1.5), Vec3(-0.5, 0.5, 1.5), Vec3(-0.5, 0.5, 0.5))
    ensures TriangleOf(VoxelToCube(Voxel(0, 1, 1, r), palette), 6)
         == Triangle(Vec3(-0.5, 1.5, 1.5), Vec3(-0.5, 0.5, 1.5), Vec3(0.5, 0.5, 1.5))
    ensures TriangleOf(VoxelToCube(Voxel(0, 1, 1, r), palette), 7)
         == Triangle(Vec3(0.5, 1.5, 1.5), Vec3(0.5, 0.5, 0.5), Vec3(0.5, 1.5, 0.5))
    ensures TriangleOf(VoxelToCube(Voxel(0, 1, 1, r), palette), 8)
         == Triangle(Vec3(0.5, 0.5, 0.5), Vec3(0.5, 1.5, 1.5), Vec3(0.5, 0.5, 1.5))
    ensures TriangleOf(VoxelToCube(Voxel(0, 1, 1, r), palette), 9)
         == Triangle(Vec3(0.5, 1.5, 1.5), Vec3(0.5, 1.5, 0.5), Vec3(-0.5, 1.5, 0.5))
    ensures TriangleOf(VoxelToCube(Voxel(0, 1, 1, r), palette), 10)
         == Triangle(Vec3(0.5, 1.5, 1.5), Vec3(-0.5, 1.5, 0.5), Vec3(-0.5, 1.5, 1.5))
    ensures TriangleOf(VoxelToCube(Voxel(0, 1, 1, r), palette), 11)
         == Triangle(Vec3(0.5, 1.5, 1.5), Vec3(-0.5, 1.5, 1.5), Vec3(0.5, 0.5, 1.5))
    ensures forall j :: 0 <= j < 36 ==> VoxelToCube(Voxel(0, 1, 1, r), palette)[j].color == Rgba(238.0 / 255.0, 0.0, 0.0, 1.0)
  {
    TemplateTriangles();
  }

  /** The four-voxel fixture, blue cube: the cube of voxel 2 of the
      fixture, which is vertices 72 to 107 of its mesh, all in blue. */
  lemma FourVoxelFixtureBlue(palette: seq<U32>, b: Byte)
    requires PaletteToRgba(palette, b) == Rgba(0.0, 0.0, 238.0 / 255.0, 1.0)
    ensures TriangleOf(VoxelToCube(Voxel(1, 0, 1, b), palette), 0)
         == Triangle(Vec3(0.5, -0.5, 0.5), Vec3(0.5, -0.5, 1.5), Vec3(0.5, 0.5, 1.5))
    ensures TriangleOf(VoxelToCube(Voxel(1, 0, 1, b), palette), 1)
         == Triangle(Vec3(1.5, 0.5, 0.5), Vec3(0.5, -0.5, 0.5), Vec3(0.5, 0.5, 0.5))
    ensures TriangleOf(VoxelToCube(Voxel(1, 0, 1, b), palette), 2)
         == Triangle(Vec3(1.5, -0.5, 1.5), Vec3(0.5, -0.5, 0.5), Vec3(1.5, -0.5, 0.5))
    ensures TriangleOf(VoxelToCube(Voxel(1, 0, 1, b), palette), 3)
         == Triangle(Vec3(1.5, 0.5, 0.5), Vec3(1.5, -0.5, 0.5), Vec3(0.5, -0.5, 0.5))
    ensures TriangleOf(VoxelToCube(Voxel(1, 0, 1, b), palette), 4)
         == Triangle(Vec3(0.5, -0.5, 0.5), Vec3(0.5, 0.5, 1.5), Vec3(0.5, 0.5, 0.5))
    ensures TriangleOf(VoxelToCube(Voxel(1, 0, 1, b), palette), 5)
         == Triangle(Vec3(1.5, -0.5, 1.5), Vec3(0.5, -0.5, 1.5), Vec3(0.5, -0.5, 0.5))
    ensures TriangleOf(VoxelToCube(Voxel(1, 0, 1, b), palette), 6)
         == Triangle(Vec3(0.5, 0.5, 1.5), Vec3(0.5, -0.5, 1.5), Vec3(1.5, -0.5, 1.5))
    ensures TriangleOf(VoxelToCube(Voxel(1, 0, 1, b), palette), 7)
         == Triangle(Vec3(1.5, 0.5, 1.5), Vec3(1.5, -0.5, 0.5), Vec3(1.5, 0.5, 0.5))
    ensures TriangleOf(VoxelToCube(Voxel(1, 0, 1, b), palette), 8)
         == Triangle(Vec3(1.5, -0.5, 0.5), Vec3(1.5, 0.5, 1.5), Vec3(1.5, -0.5, 1.5))
    ensures TriangleOf(VoxelToCube(Voxel(1, 0, 1, b), palette), 9)
         == Triangle(Vec3(1.5, 0.5, 1.5), Vec3(1.5, 0.5, 0.5), Vec3(0.5, 0.5, 0.5))
    ensures TriangleOf(VoxelToCube(Voxel(1, 0, 1, b), palette), 10)
         == Triangle(Vec3(1.5, 0.5, 1.5), Vec3(0.5, 0.5, 0.5), Vec3(0.5, 0.5, 1.5))
    ensures TriangleOf(VoxelToCube(Voxel(1, 0, 1, b), palette), 11)
         == Triangle(Vec3(1.5, 0.5, 1.5), Vec3(0.5, 0.5, 1.5), Vec3(1.5, -0.5, 1.5))
    ensures forall j :: 0 <= j < 36 ==> VoxelToCube(Voxel(1, 0, 1, b), palette)[j].color == Rgba(0.0, 0.0, 238.0 / 255.0, 1.0)
  {
    TemplateTriangles();
  }

  /** The four-voxel fixture, yellow cube: the cube of voxel 3 of the
      fixture, which is vertices 108 to 143 of its mesh, all in yellow. */
  lemma FourVoxelFixtureYellow(palette: seq<U32>, y: Byte)
    requires PaletteToRgba(palette, y) == Rgba(1.0, 1.0, 0.0, 1.0)
    ensures TriangleOf(VoxelToCube(Voxel(1, 1, 0, y), palette), 0)
         == Triangle(Vec3(0.5, 0.5, -0.5), Vec3(0.5, 0.5, 0.5), Vec3(0.5, 1.5, 0.5))
    ensures TriangleOf(VoxelToCube(Voxel(1, 1, 0, y), palette), 1)
         == Triangle(Vec3(1.5, 1.5, -0.5), Vec3(0.5, 0.5, -0.5), Vec3(0.5, 1.5, -0.5))
    ensures TriangleOf(VoxelToCube(Voxel(1, 1, 0, y), palette), 2)
         == Triangle(Vec3(1.5, 0.5, 0.5), Vec3(0.5, 0.5, -0.5), Vec3(1.5, 0.5, -0.5))
    ensures TriangleOf(VoxelToCube(Voxel(1, 1, 0, y), palette), 3)
         == Triangle(Vec3(1.5, 1.5, -0.5), Vec3(1.5, 0.5, -0.5), Vec3(0.5, 0.5, -0.5))
    ensures TriangleOf(VoxelToCube(Voxel(1, 1, 0, y), palette), 4)
         == Triangle(Vec3(0.5, 0.5, -0.5), Vec3(0.5, 1.5, 0.5), Vec3(0.5, 1.5, -0.5))
    ensures TriangleOf(VoxelToCube(Voxel(1, 1, 0, y), palette), 5)
         == Triangle(Vec3(1.5, 0.5, 0.5), Vec3(0.5, 0.5, 0.5), Vec3(0.5, 0.5, -0.5))
    ensures TriangleOf(VoxelToCube(Voxel(1, 1, 0, y), palette), 6)
         == Triangle(Vec3(0.5, 1.5, 0.5), Vec3(0.5, 0.5, 0.5), Vec3(1.5, 0.5, 0.5))
    ensures TriangleOf(VoxelToCube(Voxel(1, 1, 0, y), palette), 7)
         == Triangle(Vec3(1.5, 1.5, 0.5), Vec3(1.5, 0.5, -0.5), Vec3(1.5, 1.5, -0.5))
    ensures TriangleOf(VoxelToCube(Voxel(1, 1, 0, y), palette), 8)
         == Triangle(Vec3(1.5, 0.5, -0.5), Vec3(1.5, 1.5, 0.5), Vec3(1.5, 0.5, 0.5))
    ensures TriangleOf(VoxelToCube(Voxel(1, 1, 0, y), palette), 9)
         == Triangle(Vec3(1.5, 1.5, 0.5), Vec3(1.5, 1.5, -0.5), Vec3(0.5, 1.5, -0.5))
    ensures TriangleOf(VoxelToCube(Voxel(1, 1, 0, y), palette), 10)
         == Triangle(Vec3(1.5, 1.5, 0.5), Vec3(0.5, 1.5, -0.5), Vec3(0.5, 1.5, 0.5))
    ensures TriangleOf(VoxelToCube(Voxel(1, 1, 0, y), palette), 11)
         == Triangle(Vec3(1.5, 1.5, 0.5), Vec3(0.5, 1.5, 0.5), Vec3(1.5, 0.5, 0.5))
    ensures forall j :: 0 <= j < 36 ==> VoxelToCube(Voxel(1, 1, 0, y), palette)[j].color == Rgba(1.0, 1.0, 0.0, 1.0)
  {
    TemplateTriangles();
  }
}
