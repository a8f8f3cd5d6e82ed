# dot_vox_amethyst: the `.vox` to mesh conversion

This project models the asset format at the heart of dot_vox_amethyst. The
format turns a MagicaVoxel `.vox` file into a flat-coloured triangle mesh.
The decoder yields the file's models and a palette of packed 32-bit colours.
Each voxel of the first model then becomes a cube of 36 vertices, i.e. 12
triangles. The cube is placed by a fixed table of corner offsets. Its colour
comes from the palette entry the voxel's index selects. The cubes are
concatenated in voxel order.

The model is pure, like the source: datatypes, functions over sequences, and
lemmas. It has three modules:

- `Palette` (`palette.dfy`) holds `palette_to_rgba`. A lookup past the end of
  the palette falls back to 0. The packed value is split into bytes with
  `/` and `%` on unsigned integers. Each byte is divided by 255 as an exact
  real.
- `Cube` (`cube.dfy`) holds the `CUBE_OFFSETS` table. It also holds the
  geometry needed to state what the table means: the faces of the unit cube,
  and a counter-clockwise order of corners on each face, counted in quarter
  turns about the face's outward normal.
- `DotVoxFormat` (`dot_vox_format.dfy`) holds `voxel_to_cube` and the
  flattening in `import`. The decoder is a function parameter. It also holds
  the two fixtures of the source's tests, stated as lemmas.

## Model

| member | source | states |
|---|---|---|
| Palette.PaletteToRgba | src/dot_vox_format.rs:64-73 | every channel of the colour is a byte over 255, so it lies in [0, 1]; an index past the end of the palette gives transparent black instead of failing |
| Palette.UnpackPack | src/dot_vox_format.rs:66 | red is bits 0-7 of the packed value, green bits 8-15, blue bits 16-23 and alpha bits 24-31: unpacking a value packed from four bytes returns those bytes |
| Palette.PackUnpack | src/dot_vox_format.rs:66 | the four extracted bytes, packed again, give back the original 32-bit value, so no bit is dropped or read twice |
| Palette.PaletteToRgbaPacked | src/dot_vox_format.rs:64-73 | an in-range entry packed as (alpha, blue, green, red) from the top byte down resolves to [red, green, blue, alpha], each over 255 |
| Palette.PaletteToRgbaInjective | src/dot_vox_format.rs:64-73 | two in-range entries resolve to the same colour if and only if their packed values are equal |
| Palette.OutOfRangeIsZero | src/dot_vox_format.rs:65 | an index past the end behaves exactly as an entry holding the packed value 0, giving [0, 0, 0, 0] |
| Palette.OpaqueRedExample | src/dot_vox_format.rs:312-316 | an entry with alpha byte 0xFF, red byte 0xEE and the other bytes 0 resolves to [238/255, 0, 0, 1] |
| Cube.CubeOffsets | src/dot_vox_format.rs:22-62 | the table has exactly 36 entries, and every component of every entry is -0.5 or +0.5 |
| Cube.TemplateTriangles | src/dot_vox_format.rs:23-60 | the table read three entries at a time gives these 12 triangles |
| Cube.TriangleOnOneFace | src/dot_vox_format.rs:23-60 | each of the 12 triangles lies on exactly one face of the cube and runs counter-clockwise when that face is seen from outside |
| Cube.TwoTrianglesPerFace | src/dot_vox_format.rs:23-60 | each of the six faces carries exactly two of the twelve triangles |
| Cube.OffsetsCoverCorners | src/dot_vox_format.rs:23-60 | all eight corners of the cube occur in the table |
| DotVoxFormat.VoxelToCube | src/dot_vox_format.rs:75-90 | a voxel gives 36 vertices, one per table entry in table order; vertex j sits at the voxel's coordinate plus offset j; every vertex is a corner of the voxel's unit cell; all carry the one colour the voxel's palette index resolves to |
| DotVoxFormat.Mesh | src/dot_vox_format.rs:15-17 | the flattened vertex list has 36 vertices per voxel, and the block at [36i, 36i + 36) is exactly the cube of voxel i |
| DotVoxFormat.Import | src/dot_vox_format.rs:13-19 | a decode error is returned unchanged; a decoded file gives the mesh of its first model's voxels under its palette, 36 vertices per voxel, block i being the cube of voxel i |
| DotVoxFormat.MeshAppend | src/dot_vox_format.rs:15-17 | the mesh of two voxel lists in a row is the mesh of the first followed by the mesh of the second: no cube depends on a neighbour, so nothing is merged or culled |
| DotVoxFormat.MeshVertex | src/dot_vox_format.rs:15-17 | vertex k of the mesh belongs to voxel k / 36, sits at that voxel's coordinate plus table entry k % 36, and has that voxel's colour |
| DotVoxFormat.MeshVertexNearVoxel | src/dot_vox_format.rs:79-85 | every vertex of the mesh is within 0.5 of its voxel's coordinate on each axis, at a corner of the voxel's cell, and carries that voxel's colour |
| DotVoxFormat.OneVoxelFixture | src/dot_vox_format.rs:270-310 | the voxel at (1, 1, 1) with index 0 becomes exactly the 12 triangles the test lists, all in the colour of palette entry 0 |
| DotVoxFormat.FourVoxelFixture | src/dot_vox_format.rs:110-268 | the four touching voxels of the fixture give four full cubes, 144 vertices, in voxel order |
| DotVoxFormat.FourVoxelFixtureGreen | src/dot_vox_format.rs:119-154 | the green voxel at (0, 0, 0) becomes exactly the first 12 triangles the test lists, all green |
| DotVoxFormat.FourVoxelFixtureRed | src/dot_vox_format.rs:156-191 | the red voxel at (0, 1, 1) becomes exactly the next 12 triangles the test lists, all red |
| DotVoxFormat.FourVoxelFixtureBlue | src/dot_vox_format.rs:193-228 | the blue voxel at (1, 0, 1) becomes exactly the next 12 triangles the test lists, all blue |
| DotVoxFormat.FourVoxelFixtureYellow | src/dot_vox_format.rs:230-265 | the yellow voxel at (1, 1, 0) becomes exactly the last 12 triangles the test lists, all yellow |

## Left out

- `dot_vox::load_bytes` belongs to an external crate and is not part of this model. `Import` takes the decoder as a function parameter that yields models and a palette, or an error.
- Import: a decoded file with no model is excluded by a precondition. The source indexes `models[0]` and would panic there.
- The placeholder `.vox` file and its decoding are not part of this model. The four-voxel fixture therefore takes the voxel coordinates the test's positions imply, and it takes as preconditions the palette indices whose colours the test expects.
- `dot_vox::DEFAULT_PALETTE` is not part of this model. The one-voxel fixture states the colour as that of palette entry 0; the test expects white. The red example is stated for any palette whose entry 215 is 0xFF0000EE.
- Palette.PaletteToRgba: the division by 255 is exact over reals. The source rounds to `f32`, so 238/255 appears in the tests as 0.93333334. Floating point is out of scope.
- The `as f32` conversion of voxel coordinates is exact in the model. Every coordinate is a byte plus or minus 0.5, which `f32` represents exactly.
- Cube.TriangleOnOneFace: the winding is stated with quarter turns about the face's outward normal rather than as a cross product. The two agree on the corners of a face.
- `MeshData::PosColor` and the `SimpleFormat` trait wiring (the `NAME` constant and the options type) are engine glue; the model returns the vertex list itself.
- src/renderer.rs, src/state.rs, src/main.rs, examples/renderer.rs, src/systems/rotate.rs, src/components/name.rs and src/lib.rs are not part of this model. They hold rendering passes, application lifecycle, per-frame float rotation and component declarations over engine APIs, with no logic of the converter.
