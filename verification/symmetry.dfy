/** The board looks the same after a quarter turn: the rotation that moves
    every point two places clockwise along its own square maps edges to edges
    and mills to mills, so mill detection does not depend on how the board is
    turned. */
module Symmetry {
  import opened Base
  import opened Topology
  import opened Board

  /** The point a quarter turn clockwise from `i`: two places further along
      its own square of eight. */
  function Rotate(i: Point): (j: Point)
    ensures j / 8 == i / 8 && j != i
  {
    if i % 8 < 6 then i + 2 else i - 6
  }

  /** The point a quarter turn anticlockwise from `j`. */
  function Unrotate(j: Point): (i: Point)
    ensures i / 8 == j / 8 && i != j
  {
    if j % 8 >= 2 then j - 2 else j + 6
  }

  /** The mill a quarter turn clockwise from mill `m`: the next side of the
      same square, or the next cross line. */
  function RotateMill(m: int): (m': int)
    requires 0 <= m < 16
    ensures 0 <= m' < 16
  {
    if m % 4 < 3 then m + 1 else m - 3
  }

  /** The board turned a quarter turn clockwise: what was at `i` is now at `Rotate(i)`. */
  function RotateBoard(b: Board): (r: Board)
    ensures forall i: Point :: r[Rotate(i)] == b[i]
  {
    var r: Board := seq(NumPoints, j requires 0 <= j < NumPoints => b[Unrotate(j)]);
    forall i: Point
      ensures r[Rotate(i)] == b[i]
    {
      TurnsCancel(i);
    }
    r
  }

  /** The two turns undo each other. */
  lemma TurnsCancel(i: Point)
    ensures Unrotate(Rotate(i)) == i && Rotate(Unrotate(i)) == i
  {
  }

  /** Both turns carry an edge of the board graph onto an edge; checked one
      square at a time. */
  lemma EdgeTurns(i: int, j: int)
    requires Adjacent(i, j)
    ensures 0 <= i < NumPoints && 0 <= j < NumPoints
    ensures Adjacent(Rotate(i), Rotate(j)) && Adjacent(Unrotate(i), Unrotate(j))
  {
    if i < 8 {
      OuterEdgeTurns(i, j);
    } else if i < 16 {
      MiddleEdgeTurns(i, j);
    } else {
      InnerEdgeTurns(i, j);
    }
  }

  lemma OuterEdgeTurns(i: int, j: int)
    requires Adjacent(i, j) && i < 8
    ensures 0 <= j < NumPoints
    ensures Adjacent(Rotate(i), Rotate(j)) && Adjacent(Unrotate(i), Unrotate(j))
  {
  }

  lemma MiddleEdgeTurns(i: int, j: int)
    requires Adjacent(i, j) && 8 <= i < 16
    ensures 0 <= j < NumPoints
    ensures Adjacent(Rotate(i), Rotate(j)) && Adjacent(Unrotate(i), Unrotate(j))
  {
  }

  lemma InnerEdgeTurns(i: int, j: int)
    requires Adjacent(i, j) && 16 <= i
    ensures 0 <= j < NumPoints
    ensures Adjacent(Rotate(i), Rotate(j)) && Adjacent(Unrotate(i), Unrotate(j))
  {
  }

  /** The quarter turn is an automorphism of the adjacency graph. */
  lemma RotationKeepsAdjacency()
    ensures forall i: Point, j: Point :: Adjacent(i, j) <==> Adjacent(Rotate(i), Rotate(j))
  {
    forall i: Point, j: Point
      ensures Adjacent(i, j) <==> Adjacent(Rotate(i), Rotate(j))
    {
      if Adjacent(i, j) {
        EdgeTurns(i, j);
      }
      if Adjacent(Rotate(i), Rotate(j)) {
        EdgeTurns(Rotate(i), Rotate(j));
        TurnsCancel(i);
        TurnsCancel(j);
      }
    }
  }

  /** The quarter turn carries mill `m`, point by point, onto mill `RotateMill(m)`. */
  lemma MillTurns(m: int)
    requires 0 <= m < 16
    ensures IsLine(Mills[m])
    ensures Mills[RotateMill(m)] == [Rotate(Mills[m][0]), Rotate(Mills[m][1]), Rotate(Mills[m][2])]
  {
    MillsAreLines();
    match m
    case 0 => case 1 => case 2 => case 3 => case 4 => case 5 => case 6 => case 7 =>
    case 8 => case 9 => case 10 => case 11 => case 12 => case 13 => case 14 => case 15 =>
  }

  /** A line of board points through `x` owned by `p` on `b` is, point by
      point turned, a line through `Rotate(x)` owned by `p` on the turned board. */
  lemma LineTurns(b: Board, p: Player, x: Point, line: seq<int>)
    requires |line| == 3 && x in line && OwnsLine(b, p, line)
    ensures forall k :: 0 <= k < 3 ==> 0 <= line[k] < NumPoints
    ensures var image := [Rotate(line[0]), Rotate(line[1]), Rotate(line[2])];
      Rotate(x) in image && OwnsLine(RotateBoard(b), p, image)
  {
  }

  /** A mill through `x` for `p` on `b` becomes a mill through `Rotate(x)` on the turned board. */
  lemma MillMovesWithRotation(b: Board, p: Player, x: Point)
    requires IsMillFormed(b, p, x)
    ensures IsMillFormed(RotateBoard(b), p, Rotate(x))
  {
    var m :| 0 <= m < |Mills| && x in Mills[m] && OwnsLine(b, p, Mills[m]);
    MillTurns(m);
    LineTurns(b, p, x, Mills[m]);
    var m' := RotateMill(m);
    assert Rotate(x) in Mills[m'] && OwnsLine(RotateBoard(b), p, Mills[m']);
  }

  /** Every mill is the quarter turn of some mill. */
  lemma MillPreimage(m': int)
    requires 0 <= m' < 16
    ensures exists m :: 0 <= m < 16 && RotateMill(m) == m'
  {
    var m := if m' % 4 == 0 then m' + 3 else m' - 1;
    assert RotateMill(m) == m';
  }

  /** Conversely, if the turned image of a line of board points passes through
      `Rotate(x)` and is owned by `p` on the turned board, the line passes through
      `x` and is owned by `p` on `b`. */
  lemma LineTurnsBack(b: Board, p: Player, x: Point, line: seq<int>)
    requires |line| == 3 && forall k :: 0 <= k < 3 ==> 0 <= line[k] < NumPoints
    requires var image := [Rotate(line[0]), Rotate(line[1]), Rotate(line[2])];
      Rotate(x) in image && OwnsLine(RotateBoard(b), p, image)
    ensures x in line && OwnsLine(b, p, line)
  {
    var image := [Rotate(line[0]), Rotate(line[1]), Rotate(line[2])];
    var k :| 0 <= k < 3 && image[k] == Rotate(x);
    TurnsCancel(x);
    TurnsCancel(line[k]);
    assert line[k] == x;
    forall k' | 0 <= k' < 3
      ensures Holds(b, line[k'], p)
    {
      assert Holds(RotateBoard(b), image[k'], p);
    }
  }

  /** Mill detection is invariant under the quarter turn, in both directions. */
  lemma MillFormedUnderRotation(b: Board, p: Player, x: Point)
    ensures IsMillFormed(b, p, x) <==> IsMillFormed(RotateBoard(b), p, Rotate(x))
  {
    if IsMillFormed(b, p, x) {
      MillMovesWithRotation(b, p, x);
    }
    if IsMillFormed(RotateBoard(b), p, Rotate(x)) {
      var m' :| 0 <= m' < |Mills| && Rotate(x) in Mills[m'] && OwnsLine(RotateBoard(b), p, Mills[m']);
      MillPreimage(m');
      var m :| 0 <= m < 16 && RotateMill(m) == m';
      MillTurns(m);
      LineTurnsBack(b, p, x, Mills[m]);
      assert x in Mills[m] && OwnsLine(b, p, Mills[m]);
    }
  }
}
