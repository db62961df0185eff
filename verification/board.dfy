/** Board contents and the pure queries the server asks of them:
    mill detection, the capture-target rule and piece counting (index.js:90-130). */
module Board {
  import opened Base
  import opened Topology

  /** A cell is empty (`null`) or holds a cow of one seat. */
  type Cell = Option<Player>

  /** The server's `Array(24)`: always exactly one cell per point. */
  type Board = b: seq<Cell> | |b| == NumPoints witness seq(NumPoints, i => None)

  /** `board[i] === p`. Indexing outside the array reads `undefined`, which is
      never a seat, so an off-board index holds nobody. */
  predicate Holds(b: seq<Cell>, i: int, p: Player)
  {
    0 <= i < |b| && b[i] == Some(p)
  }

  /** `board[i] === null`. An off-board index reads `undefined`, not `null`,
      so it is never empty either. */
  predicate IsEmptyAt(b: seq<Cell>, i: int)
  {
    0 <= i < |b| && b[i] == None
  }

  /** `mill.every((pos) => board[pos] === p)`. */
  predicate OwnsLine(b: seq<Cell>, p: Player, line: seq<int>)
  {
    forall k :: 0 <= k < |line| ==> Holds(b, line[k], p)
  }

  /** Whether the first `n` mills hold one through `x` owned by `p`; the server's
      `mills.some(...)` scan. */
  function MillAmong(b: seq<Cell>, p: Player, x: int, n: nat): (r: bool)
    requires n <= |Mills|
    ensures r <==> exists m :: 0 <= m < n && x in Mills[m] && OwnsLine(b, p, Mills[m])
  {
    if n == 0 then false
    else (x in Mills[n - 1] && OwnsLine(b, p, Mills[n - 1])) || MillAmong(b, p, x, n - 1)
  }

  /** `isMillFormed(board, p, x)`: some mill line through `x` is wholly owned by `p`.
      In particular it fails whenever `x` itself is not held by `p`. */
  function IsMillFormed(b: seq<Cell>, p: Player, x: int): (r: bool)
    ensures r <==> exists m :: 0 <= m < |Mills| && x in Mills[m] && OwnsLine(b, p, Mills[m])
    ensures r ==> Holds(b, x, p)
  {
    var r := MillAmong(b, p, x, |Mills|);
    if r then
      var m :| 0 <= m < |Mills| && x in Mills[m] && OwnsLine(b, p, Mills[m]);
      var k :| 0 <= k < |Mills[m]| && Mills[m][k] == x;
      assert Holds(b, Mills[m][k], p);
      r
    else r
  }

  /** The set of cells held by `p`: an independent description of what `Count` counts. */
  ghost function CellsOf(b: seq<Cell>, p: Player): set<int>
  {
    set i | 0 <= i < |b| && b[i] == Some(p)
  }

  /** The cells of `p` in `b` are those of all but its last cell, plus the
      last one when `p` holds it. */
  lemma CellsOfLast(b: seq<Cell>, p: Player)
    requires |b| > 0
    ensures |b| - 1 !in CellsOf(b[..|b| - 1], p)
    ensures CellsOf(b, p)
         == CellsOf(b[..|b| - 1], p) + (if b[|b| - 1] == Some(p) then {|b| - 1} else {})
  {
  }

  /** `countCows(board, p)`: a left-to-right filter, which counts exactly the
      cells that hold `p`. */
  function Count(b: seq<Cell>, p: Player): (r: nat)
    ensures r == |CellsOf(b, p)|
    ensures r <= |b|
  {
    if |b| == 0 then 0
    else
      CellsOfLast(b, p);
      Count(b[..|b| - 1], p) + (if b[|b| - 1] == Some(p) then 1 else 0)
  }

  /** Writing `v` into cell `i` changes the count of `p` by what leaves and
      what arrives at `i`, and by nothing else. */
  lemma {:induction false} CountUpdate(b: seq<Cell>, i: int, v: Cell, p: Player)
    requires 0 <= i < |b|
    ensures Count(b[i := v], p)
         == Count(b, p) - (if b[i] == Some(p) then 1 else 0) + (if v == Some(p) then 1 else 0)
    decreases |b|
  {
    var n := |b| - 1;
    var b' := b[i := v];
    assert b'[..n] == if i == n then b[..n] else b[..n][i := v];
    if i < n {
      CountUpdate(b[..n], i, v, p);
    }
  }

  /** A cell of `opp` sits in a closed mill, which protects it while `opp`
      still has an unprotected cow. */
  predicate InClosedMill(b: seq<Cell>, opp: Player, i: int)
  {
    Holds(b, i, opp) && IsMillFormed(b, opp, i)
  }

  /** Every cow of `opp` sits in a closed mill. */
  ghost predicate AllInMills(b: seq<Cell>, opp: Player)
  {
    forall j :: Holds(b, j, opp) ==> IsMillFormed(b, opp, j)
  }

  /** The two-tier capture rule: a cow of `opp` may be taken when it is outside
      every closed mill, or when every cow of `opp` is inside one. */
  ghost predicate Capturable(b: seq<Cell>, opp: Player, i: int)
  {
    Holds(b, i, opp) && (!IsMillFormed(b, opp, i) || AllInMills(b, opp))
  }

  /** The two lists the server's loop builds over cells `0 .. n-1`. */
  datatype Split = Split(nonMill: seq<int>, inMill: seq<int>)

  /** The first `n` rounds of the loop in `getCapturablePositions`: each cell of
      `opp` is pushed, in board order, to `inMill` or to `nonMill`. */
  function Scan(b: Board, opp: Player, n: nat): (r: Split)
    requires n <= NumPoints
    ensures forall i :: i in r.nonMill <==> 0 <= i < n && Holds(b, i, opp) && !IsMillFormed(b, opp, i)
    ensures forall i :: i in r.inMill <==> 0 <= i < n && InClosedMill(b, opp, i)
  {
    if n == 0 then Split([], [])
    else
      var prev := Scan(b, opp, n - 1);
      var i := n - 1;
      if b[i] == Some(opp) then
        if IsMillFormed(b, opp, i) then Split(prev.nonMill, prev.inMill + [i])
        else Split(prev.nonMill + [i], prev.inMill)
      else prev
  }

  /** `getCapturablePositions(board, opp)`: the cells of `opp` outside closed
      mills if there is any, and otherwise every cell of `opp`. */
  function CapturablePositions(b: Board, opp: Player): (r: seq<int>)
    ensures forall i :: i in r <==> Capturable(b, opp, i)
    ensures forall i :: i in r ==> Holds(b, i, opp)
    ensures (exists j :: Holds(b, j, opp) && !IsMillFormed(b, opp, j))
              ==> forall i :: i in r ==> !IsMillFormed(b, opp, i)
    ensures AllInMills(b, opp) ==> forall i :: i in r <==> Holds(b, i, opp)
    ensures |r| > 0 <==> exists j :: Holds(b, j, opp)
  {
    var s := Scan(b, opp, NumPoints);
    if |s.nonMill| > 0 then
      var x := s.nonMill[0];
      assert x in s.nonMill;
      assert Holds(b, x, opp) && !IsMillFormed(b, opp, x);
      assert !AllInMills(b, opp);
      s.nonMill
    else
      assert AllInMills(b, opp) by {
        forall j | Holds(b, j, opp) ensures IsMillFormed(b, opp, j) {
          assert j !in s.nonMill;
        }
      }
      assert (exists j :: Holds(b, j, opp)) ==> |s.inMill| > 0 by {
        if exists j :: Holds(b, j, opp) {
          var j :| Holds(b, j, opp);
          assert j in s.inMill;
        }
      }
      assert |s.inMill| > 0 ==> Holds(b, s.inMill[0], opp) by {
        if |s.inMill| > 0 { assert s.inMill[0] in s.inMill; }
      }
      s.inMill
  }
}
