# Terrain grid mesh, modelled in Dafny

The terrain demo builds its mesh only once, in the window's load handler. It
samples a noise function at every point of a `(size + 1) x (size + 1)`
grid, with `size = 1000`. Each sample becomes one vertex in the static list
`verts`. Then, for every cell of the grid, it appends two triangles
(six `uint` indices) to the static list `indices`. The fragment shader
colours each fragment with one of five fixed colours, chosen by the
interpolated height through a ladder of comparisons.

The project has three modules:

- `MeshSpec` (`mesh_spec.dfy`) defines what each loop builds:
  - `VertexGrid` is the vertices, built row by row.
  - `IndexGrid` is the indices, built column by column from a per-cell
    function `Cells`.
  - It also holds the lemmas about them: lengths, which grid point each
    vertex entry is, which cell each index slot holds, index bounds,
    triangle shape and winding, and the casts being lossless for
    `size = 1000`.
- `MeshBuilder` (`mesh_builder.dfy`) is the imperative builder.
  - The class `TerrainBuffers` holds the two lists as `seq` fields.
  - Its methods run the source's nested loops and append one element at a
    time.
  - Each method's `ensures` ties the new list to the old list plus the
    `MeshSpec` function.
- `FragmentShader` (`fragment_shader.dfy`) models the height-band ladder and
  the fragment colour.

Modelling decisions:

- **Noise.** `FastNoiseLite` is not part of this model. The noise is a
  parameter `noise: (int, int) -> real`, and a vertex records its grid point
  `(x, z)` and the sample taken there.
- **Index arithmetic and casts.** The C# index arithmetic is unchecked
  32-bit `int`, followed by a `(uint)` cast. That pipeline equals the
  mathematical value reduced mod 2^32, so `UInt32Cast(v) = v % 2^32` models
  it exactly for any `size`.
- **Conditions on the size.** The properties that depend on the casts
  being lossless require `(size + 1)^2 <= 2^32`:
  - that the corners are the intended grid points;
  - that the winding is consistent.

  `DefaultSizeCastsLossless` proves this condition for the hardcoded 1000.
  Independent of that condition, every emitted index is below
  `(size + 1)^2`, the length of the vertex list, and the two triangles of a
  cell share exactly one edge (for any `size < Int32Max`, wrapped casts
  included).

## Model

| member | source | states |
|---|---|---|
| MeshBuilder.TerrainBuffers.constructor | ComputerGraphicsDemo/Program.cs:28-29 | both lists start empty |
| MeshBuilder.TerrainBuffers.AddVertexGrid | ComputerGraphicsDemo/Program.cs:142-165 | the vertex loop appends exactly `VertexGrid(size, noise)` to `verts`, after the old contents, and leaves `indices` unchanged |
| MeshBuilder.TerrainBuffers.AddIndexGrid | ComputerGraphicsDemo/Program.cs:167-184 | the index loop appends exactly `IndexGrid(size)` to `indices`, after the old contents, and leaves `verts` unchanged |
| MeshBuilder.TerrainBuffers.AddIndexColumn | ComputerGraphicsDemo/Program.cs:169-183 | one pass of the inner loop, for column `x`, appends that column's `size` cells of six cast indices in order and nothing else |
| MeshBuilder.TerrainBuffers.LoadMesh | ComputerGraphicsDemo/Program.cs:141-184 | with size 1000, starting from the empty lists: 1001^2 vertices, 6 * 1000^2 indices, and every index names an existing vertex |
| MeshSpec.VertexGrid | ComputerGraphicsDemo/Program.cs:148-165 | definition: the vertex list the two vertex loops build, `size + 1` rows of `size + 1` vertices, row by row |
| MeshSpec.CellCorners | ComputerGraphicsDemo/Program.cs:171-174 | definition: the four corner locals of the cell at outer `x` and inner `z` |
| MeshSpec.Layout | ComputerGraphicsDemo/Program.cs:176-182 | definition: the corners in appending order, topLeft, bottomLeft, topRight, topRight, bottomLeft, bottomRight |
| MeshSpec.Cells | ComputerGraphicsDemo/Program.cs:169-183 | definition: the per-cell contribution `CellIndices(size, x, z)` as a function of the two loop counters |
| MeshSpec.Column | ComputerGraphicsDemo/Program.cs:169-183 | definition: what the inner index loop has appended for column `x` after `z` cells |
| MeshSpec.Columns | ComputerGraphicsDemo/Program.cs:167-184 | definition: what the outer index loop has appended after `x` complete columns |
| MeshSpec.IndexGrid | ComputerGraphicsDemo/Program.cs:167-184 | definition: the whole index list, `size` columns of `size` cells |
| MeshSpec.CellStart | ComputerGraphicsDemo/Program.cs:167-184 | definition: the position of the cell's first index, six entries for each cell visited before it |
| MeshSpec.UInt32Cast | ComputerGraphicsDemo/Program.cs:176-182 | a cast result has type `UInt32`, the range [0, 2^32), and every value already in that range is left unchanged |
| MeshSpec.CastBelow | ComputerGraphicsDemo/Program.cs:176-182 | a non-negative value below a bound stays below it after the cast |
| MeshSpec.CastInjective | ComputerGraphicsDemo/Program.cs:176-182 | two values less than 2^32 apart cast to different indices |
| MeshSpec.VertexRow | ComputerGraphicsDemo/Program.cs:150-164 | one row of the grid has one vertex per column |
| MeshSpec.VertexRows | ComputerGraphicsDemo/Program.cs:148-165 | `z` rows hold `perRow * z` vertices |
| MeshSpec.VertexRowAt | ComputerGraphicsDemo/Program.cs:150-164 | entry `i` of a row is grid point `(i, z)` with its noise sample |
| MeshSpec.VertexRowsAt | ComputerGraphicsDemo/Program.cs:148-165 | entry `row * perRow + col` is grid point `(col, row)` with its noise sample |
| MeshSpec.VertexRowsPrefix | ComputerGraphicsDemo/Program.cs:148-165 | the vertex loop only appends: the list after fewer rows is a prefix of the list after more |
| MeshSpec.VertexGridAt | ComputerGraphicsDemo/Program.cs:142-165 | there are `(size+1)^2` vertices, and entry `z * (size+1) + x` is grid point `(x, z)` with sample `noise(x, z)` |
| MeshSpec.VertexGridEntry | ComputerGraphicsDemo/Program.cs:148-165 | conversely, every entry `i` is a grid point inside the grid whose row-major position is `i` |
| MeshSpec.Emitted | ComputerGraphicsDemo/Program.cs:176-182 | a cell emits six indices |
| MeshSpec.CellIndices | ComputerGraphicsDemo/Program.cs:171-182 | cell `(x, z)` contributes six indices |
| MeshSpec.SixPerCellHolds | ComputerGraphicsDemo/Program.cs:176-182 | every cell of the grid contributes exactly six indices |
| MeshSpec.ColumnLength | ComputerGraphicsDemo/Program.cs:169-183 | after `z` cells of a column, `6 * z` indices have been added |
| MeshSpec.ColumnsLength | ComputerGraphicsDemo/Program.cs:167-184 | after `x` columns, `6 * rows * x` indices have been added |
| MeshSpec.ColumnAt | ComputerGraphicsDemo/Program.cs:169-183 | cell `j` of a column occupies positions `6j .. 6j+5` of that column |
| MeshSpec.ColumnsPrefix | ComputerGraphicsDemo/Program.cs:167-184 | the index loop only appends: the list after fewer columns is a prefix of the list after more |
| MeshSpec.ColumnsSlot | ComputerGraphicsDemo/Program.cs:167-184 | cell `(i, z)` follows right after the first `i` columns and the first `z` cells of column `i` |
| MeshSpec.ColumnsAt | ComputerGraphicsDemo/Program.cs:167-184 | cell `(i, z)` occupies positions `6 * (i * rows + z) .. +5` |
| MeshSpec.IndexGridLength | ComputerGraphicsDemo/Program.cs:167-184 | the index loop emits `6 * size^2` indices |
| MeshSpec.IndexGridAt | ComputerGraphicsDemo/Program.cs:167-184 | positions `6 * (x * size + z) .. +5` hold cell `(x, z)`'s indices |
| MeshSpec.IndexGridCell | ComputerGraphicsDemo/Program.cs:167-182 | those six positions hold, cast, topLeft, bottomLeft, topRight, topRight, bottomLeft, bottomRight of cell `(x, z)` |
| MeshSpec.CellOfPosition | ComputerGraphicsDemo/Program.cs:167-184 | every position below `6 * size^2` is slot `k < 6` of some cell `(x, z)` of the grid, at `CellStart(size, x, z) + k` |
| MeshSpec.IndexGridEntry | ComputerGraphicsDemo/Program.cs:167-184 | conversely, every index is entry `k` of some cell `(x, z)` of the grid |
| MeshSpec.CellCornersBelow | ComputerGraphicsDemo/Program.cs:171-174 | every corner of a cell is a vertex position below `(size+1)^2` |
| MeshSpec.IndexGridBounds | ComputerGraphicsDemo/Program.cs:167-184 | every emitted index is below `(size+1)^2`, the length of the vertex list |
| MeshSpec.CellTriangles | ComputerGraphicsDemo/Program.cs:176-182 | each of a cell's two triangles has three distinct indices. The two share exactly the edge {topRight, bottomLeft} |
| MeshSpec.CastsLossless | ComputerGraphicsDemo/Program.cs:176-182 | while `(size+1)^2 <= 2^32`, the casts change nothing: each cell emits its corner values in the source order |
| MeshSpec.CellCornersOnGrid | ComputerGraphicsDemo/Program.cs:171-182 | the emitted indices name the vertices of grid points `(x,z)`, `(x,z+1)`, `(x+1,z)` and `(x+1,z+1)` |
| MeshSpec.CellWinding | ComputerGraphicsDemo/Program.cs:176-182 | both triangles of a cell have orientation -1 in the grid's (x, z) plane, the same winding |
| MeshSpec.TriangleSlot | ComputerGraphicsDemo/Program.cs:167-184 | triangle `t` starts at slot 0 or slot 3 of some cell |
| MeshSpec.ConsistentWinding | ComputerGraphicsDemo/Program.cs:167-184 | every one of the `2 * size^2` triangles references existing vertices and has the same winding |
| MeshSpec.DefaultSizeCastsLossless | ComputerGraphicsDemo/Program.cs:141-182 | for size 1000: every corner fits a 32-bit `int` with no overflow, `1001^2 <= 2^32`, and every `(uint)` cast is lossless |
| FragmentShader.BandOf | ComputerGraphicsDemo/Program.cs:40-59 | definition: the ladder of comparisons against 0.0, 0.05, 0.3 and 0.6, first match wins |
| FragmentShader.BandColor | ComputerGraphicsDemo/Program.cs:42-58 | definition: the colour each branch of the ladder assigns |
| FragmentShader.Modulate | ComputerGraphicsDemo/Program.cs:61 | definition: GLSL's component-wise product of two `vec4`s |
| FragmentShader.Shade | ComputerGraphicsDemo/Program.cs:39-61 | definition: the shader's `main`, the band colour overwriting the vertex colour, times white, with alpha 1 |
| FragmentShader.Rank | ComputerGraphicsDemo/Program.cs:40-59 | the ladder has five rungs |
| FragmentShader.BandIntervals | ComputerGraphicsDemo/Program.cs:40-59 | a height lands in a band if and only if it lies in that band's interval: (-inf, 0), [0, 0.05), [0.05, 0.3), [0.3, 0.6) or [0.6, inf). So exactly one band applies |
| FragmentShader.BandMonotone | ComputerGraphicsDemo/Program.cs:40-59 | a higher height never gets a lower band |
| FragmentShader.BandSamples | ComputerGraphicsDemo/Program.cs:40-59 | one sample height falls in each of the five bands |
| FragmentShader.BandColorsDistinct | ComputerGraphicsDemo/Program.cs:42-58 | the five bands have five different colours |
| FragmentShader.ShadeIsBandColor | ComputerGraphicsDemo/Program.cs:39-61 | the output is the band colour with alpha 1. The incoming vertex colour never shows, and multiplying by white changes nothing |

## Left out

- Window creation, the callbacks and `Main` (windowing, no logic of the mesh).
- All OpenGL calls are left out (I/O with the driver):
  - shader compilation, linking and `CheckShaderCompileStatus`;
  - buffer and vertex-array creation, the unsafe uploads of `verts` and
    `indices`, and the attribute layout.
- `FastNoiseLite` and its configuration (a foreign library). The noise is a
  parameter of the model, and single-precision noise samples are modelled as
  reals.
- Vertex positions are not modelled. These are the floating-point remap
  `fx`, `fz` of the grid coordinates, the height `y / 1.2`, and the constant
  white vertex colour. `MeshSpec.Vertex` keeps the grid point and the raw
  sample, which fix the position.
- The render loop and the orbiting camera are floating point and GL state.
  In the code the camera's eye z-coordinate is offset from `center.Y`, not
  `center.Z`; this model does not use either.
- The vertex shader (GPU code: it transforms the position by the view and
  projection matrices and passes colour and height through).
- The empty update handler (it does nothing).
- MeshBuilder.TerrainBuffers.AddVertexGrid: requires `size < Int32Max`, so
  an overflowing `vertsPerRow` and negative sizes are not modelled. The
  demo's only size is 1000.
- MeshBuilder.TerrainBuffers.AddIndexGrid: the same `size < Int32Max`
  bound.
- MeshBuilder.TerrainBuffers.AddIndexColumn: the source's inner loop is
  written inline. The model keeps it as a method of its own so that each
  loop's proof stays small.
- FragmentShader.BandIntervals: heights and thresholds are exact reals.
  GLSL compares single-precision floats, whose thresholds `0.05`, `0.3` and
  `0.6` are the nearest representable values.
- FragmentShader.ShadeIsBandColor: the colour constants are exact reals,
  not their single-precision roundings.
