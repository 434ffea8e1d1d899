/**
  The terrain demo's load handler, as far as it builds geometry: the two
  static lists and the nested loops that append the grid's vertices and
  the triangle indices to them.
*/
module MeshBuilder {
  import opened MeshSpec

  /** Six single appends of a cell's corners, written as the loop performs
      them, add exactly that cell's six entries. */
  lemma CellAppended(s: seq<int>, size: nat, x: nat, z: nat, perRow: nat)
    requires perRow == size + 1
    ensures var topLeft, bottomLeft := z * perRow + x, (z + 1) * perRow + x;
      s + [UInt32Cast(topLeft)] + [UInt32Cast(bottomLeft)] + [UInt32Cast(topLeft + 1)]
        + [UInt32Cast(topLeft + 1)] + [UInt32Cast(bottomLeft)] + [UInt32Cast(bottomLeft + 1)]
      == s + Cells(size)(x, z)
  {
    CellCornersFrom(size, x, z, perRow);
  }

  /** The program's static `verts` and `indices` lists. */
  class TerrainBuffers {
    var verts: seq<Vertex>
    var indices: seq<UInt32>

    /** Both lists start empty. */
    constructor ()
      ensures verts == [] && indices == []
    {
      verts := [];
      indices := [];
    }

    /** The vertex loop: rows z = 0 .. size, and in each row x = 0 .. size,
        append the vertex of grid point (x, z) with the noise sampled there. */
    method AddVertexGrid(size: nat, noise: Noise)
      requires size < Int32Max
      modifies this`verts
      ensures verts == old(verts) + VertexGrid(size, noise)
      ensures indices == old(indices)
    {
      var vertsPerRow := size + 1;
      for z := 0 to vertsPerRow
        invariant verts == old(verts) + VertexRows(vertsPerRow, z, noise)
      {
        for x := 0 to vertsPerRow
          invariant verts == old(verts) + VertexRows(vertsPerRow, z, noise) + VertexRow(z, x, noise)
        {
          var y := noise(x, z);
          verts := verts + [Vertex(x, z, y)];
        }
      }
    }

    /** The index loop: columns x = 0 .. size - 1, and in each column cells
        z = 0 .. size - 1. */
    method AddIndexGrid(size: nat)
      requires size < Int32Max
      modifies this`indices
      ensures indices == old(indices) + IndexGrid(size)
      ensures verts == old(verts)
    {
      for x := 0 to size
        invariant indices == old(indices) + Columns(Cells(size), size, x)
      {
        AddIndexColumn(size, x);
      }
    }

    /** One pass of the inner index loop: for each cell z = 0 .. size - 1 of
        column `x`, append the two triangles (topLeft, bottomLeft, topRight)
        and (topRight, bottomLeft, bottomRight), each corner cast to `uint`. */
    method AddIndexColumn(size: nat, x: nat)
      requires size < Int32Max && x < size
      modifies this`indices
      ensures indices == old(indices) + Column(Cells(size), x, size)
      ensures verts == old(verts)
    {
      var vertsPerRow := size + 1;
      for z := 0 to size
        invariant indices == old(indices) + Column(Cells(size), x, z)
      {
        ghost var before := indices;
        var topLeft := z * vertsPerRow + x;
        var topRight := topLeft + 1;
        var bottomLeft := (z + 1) * vertsPerRow + x;
        var bottomRight := bottomLeft + 1;

        indices := indices + [UInt32Cast(topLeft)];
        indices := indices + [UInt32Cast(bottomLeft)];
        indices := indices + [UInt32Cast(topRight)];

        indices := indices + [UInt32Cast(topRight)];
        indices := indices + [UInt32Cast(bottomLeft)];
        indices := indices + [UInt32Cast(bottomRight)];

        CellAppended(before, size, x, z, vertsPerRow);
      }
    }

    /** The geometry part of the load handler: a 1000 x 1000 grid. When both
        lists start empty, as they do, the result has 1001^2 vertices and
        6 * 1000^2 indices, and every index names a vertex of the list. */
    method LoadMesh(noise: Noise)
      modifies this
      ensures verts == old(verts) + VertexGrid(DefaultSize, noise)
      ensures indices == old(indices) + IndexGrid(DefaultSize)
      ensures old(verts) == [] && old(indices) == [] ==>
        |verts| == 1001 * 1001 && |indices| == 6 * 1000 * 1000 &&
        forall i :: 0 <= i < |indices| ==> 0 <= indices[i] < |verts|
    {
      var size := DefaultSize;
      AddVertexGrid(size, noise);
      AddIndexGrid(size);
      IndexGridLength(size);
      IndexGridBounds(size, noise);
    }
  }
}
