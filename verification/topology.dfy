/** The fixed board graph: 24 points on three concentric squares, the
    adjacency table and the sixteen mill lines (index.js:35-88). */
module Topology {

  /** Points 0-7 are the outer square, 8-15 the middle one, 16-23 the inner one,
      each numbered clockwise from its top-left corner. */
  const NumPoints := 24

  /** A point index that exists on the board. */
  type Point = i: int | 0 <= i < NumPoints

  /** Neighbours of each point, in the order the server lists them. */
  const Adjacency: seq<seq<int>> := [
    [1, 7], [0, 2, 9], [1, 3], [2, 4, 11], [3, 5], [4, 6, 13], [5, 7], [6, 0, 15],
    [9, 15], [8, 10, 1, 17], [9, 11], [10, 12, 3, 19], [11, 13], [12, 14, 5, 21], [13, 15], [14, 8, 7, 23],
    [17, 23], [16, 18, 9], [17, 19], [18, 20, 11], [19, 21], [20, 22, 13], [21, 23], [22, 16, 15]
  ]

  /** The mill lines: four sides of each square, then the four lines that
      cross the squares at their side midpoints. There are no diagonal lines. */
  const Mills: seq<seq<int>> := [
    [0, 1, 2], [2, 3, 4], [4, 5, 6], [6, 7, 0],
    [8, 9, 10], [10, 11, 12], [12, 13, 14], [14, 15, 8],
    [16, 17, 18], [18, 19, 20], [20, 21, 22], [22, 23, 16],
    [1, 9, 17], [3, 11, 19], [5, 13, 21], [7, 15, 23]
  ]

  /** `adjacency[from].includes(to)`; a `from` off the board has no neighbours. */
  predicate Adjacent(from: int, to: int)
  {
    0 <= from < NumPoints && to in Adjacency[from]
  }

  /** The adjacency table describes an undirected graph without self loops
      whose edges stay on the board. */
  lemma AdjacencySymmetricIrreflexive()
    ensures forall i, j :: Adjacent(i, j) <==> Adjacent(j, i)
    ensures forall i :: !Adjacent(i, i)
    ensures forall i, j :: Adjacent(i, j) ==> 0 <= i < NumPoints && 0 <= j < NumPoints
  {
  }

  /** A mill line is three distinct points of the board, each consecutive
      pair of which is joined by an edge. */
  predicate IsLine(m: seq<int>)
  {
    && |m| == 3
    && (forall k :: 0 <= k < 3 ==> 0 <= m[k] < NumPoints)
    && m[0] != m[1] && m[1] != m[2] && m[0] != m[2]
    && Adjacent(m[0], m[1]) && Adjacent(m[1], m[2])
  }

  /** All sixteen mills are straight runs of three neighbouring points. */
  lemma MillsAreLines()
    ensures |Mills| == 16
    ensures forall n :: 0 <= n < |Mills| ==> IsLine(Mills[n])
  {
  }
}
