/** Edge density (DeepfakeAnalyzer.edge_density): the share of cells of a
    Canny edge map that are marked. The Canny detector itself is not
    modelled; its output map is given as a sequence of rows. */
module EdgeMap {

  /** The number of cells the source counts as edges, np.sum(edges > 0). */
  function EdgeCount(edges: seq<int>): (n: nat)
    ensures n <= |edges|
    ensures n == 0 <==> forall i :: 0 <= i < |edges| ==> edges[i] <= 0
    ensures n == |edges| <==> forall i :: 0 <= i < |edges| ==> edges[i] > 0
  {
    if edges == [] then 0
    else
      var last := |edges| - 1;
      assert forall i :: 0 <= i < last ==> edges[..last][i] == edges[i];
      EdgeCount(edges[..last]) + (if edges[last] > 0 then 1 else 0)
  }

  /** The positions of the edge cells. */
  ghost function EdgeCells(edges: seq<int>): set<int> {
    set i | 0 <= i < |edges| && edges[i] > 0
  }

  /** EdgeCount counts exactly the edge cells. */
  lemma {:induction false} EdgeCountIsCellCount(edges: seq<int>)
    ensures EdgeCount(edges) == |EdgeCells(edges)|
  {
    if edges != [] {
      var last := |edges| - 1;
      var front := edges[..last];
      EdgeCountIsCellCount(front);
      if edges[last] > 0 {
        assert EdgeCells(edges) == EdgeCells(front) + {last};
        assert last !in EdgeCells(front);
      } else {
        assert EdgeCells(edges) == EdgeCells(front);
      }
    }
  }

  /** Counting the cells of two pieces separately and adding gives the count
      of the two joined. */
  lemma {:induction false} EdgeCountConcat(a: seq<int>, b: seq<int>)
    ensures EdgeCount(a + b) == EdgeCount(a) + EdgeCount(b)
  {
    if b != [] {
      var last := |b| - 1;
      assert (a + b)[..|a + b| - 1] == a + b[..last];
      EdgeCountConcat(a, b[..last]);
    } else {
      assert a + b == a;
    }
  }

  /** The cells of a map of rows, in row-major order. */
  function Flatten(rows: seq<seq<int>>): (cells: seq<int>)
    ensures |cells| == CellCount(rows)
  {
    if rows == [] then [] else rows[0] + Flatten(rows[1..])
  }

  /** The number of cells of a map of rows, edges.size in the source. */
  function CellCount(rows: seq<seq<int>>): nat {
    if rows == [] then 0 else |rows[0]| + CellCount(rows[1..])
  }

  /** The edge cells of a map of rows, counted row by row. */
  function RowEdgeCount(rows: seq<seq<int>>): nat {
    if rows == [] then 0 else EdgeCount(rows[0]) + RowEdgeCount(rows[1..])
  }

  /** Counting row by row gives the count of the whole map, as np.sum does
      over the 2-D array. */
  lemma {:induction false} RowEdgeCountIsEdgeCount(rows: seq<seq<int>>)
    ensures RowEdgeCount(rows) == EdgeCount(Flatten(rows))
  {
    if rows != [] {
      RowEdgeCountIsEdgeCount(rows[1..]);
      EdgeCountConcat(rows[0], Flatten(rows[1..]));
    }
  }

  /** edge_density: edge cells over all cells of the map. The comparator does
      not rely on this bound: its edge densities come with the other measured
      signals. */
  function EdgeDensity(rows: seq<seq<int>>): (d: real)
    requires |Flatten(rows)| > 0
    ensures 0.0 <= d <= 1.0
    ensures d == 0.0 <==> forall i :: 0 <= i < |Flatten(rows)| ==> Flatten(rows)[i] <= 0
    ensures d == 1.0 <==> forall i :: 0 <= i < |Flatten(rows)| ==> Flatten(rows)[i] > 0
    ensures d == |EdgeCells(Flatten(rows))| as real / |Flatten(rows)| as real
    ensures d == RowEdgeCount(rows) as real / CellCount(rows) as real
  {
    var cells := Flatten(rows);
    CellFraction(cells);
    RowEdgeCountIsEdgeCount(rows);
    assert RowEdgeCount(rows) == EdgeCount(cells) && CellCount(rows) == |cells|;
    EdgeCount(cells) as real / |cells| as real
  }

  /** The facts about the fraction of edge cells, over the cells alone. */
  lemma CellFraction(cells: seq<int>)
    requires |cells| > 0
    ensures var d := EdgeCount(cells) as real / |cells| as real;
      && 0.0 <= d <= 1.0
      && (d == 0.0 <==> forall i :: 0 <= i < |cells| ==> cells[i] <= 0)
      && (d == 1.0 <==> forall i :: 0 <= i < |cells| ==> cells[i] > 0)
      && d == |EdgeCells(cells)| as real / |cells| as real
  {
    EdgeCountIsCellCount(cells);
    FractionBounds(EdgeCount(cells), |cells|);
  }

  lemma FractionBounds(n: nat, m: nat)
    requires n <= m && 0 < m
    ensures 0.0 <= n as real / m as real <= 1.0
    ensures n as real / m as real == 0.0 <==> n == 0
    ensures n as real / m as real == 1.0 <==> n == m
    ensures (n as real / m as real) * m as real == n as real
  {
    var d := n as real / m as real;
    assert d * m as real == n as real;
  }
}
