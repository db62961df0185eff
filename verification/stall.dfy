/** A play from the opening position into the placement stall: twenty-four
    clicks after which P1 has placed twelve cows, P2 eleven, P1 is on turn,
    and no further click changes the game. */
module Stall {
  import opened Base
  import opened Topology
  import opened Board
  import opened Game
  import opened Properties

  /** The opening: P1 0, P2 8, P1 1, P2 9, P1 2 (closing 0-1-2), P1 takes 8. */
  const Opening: seq<int> := [0, 8, 1, 9, 2, 8]

  /** Then quiet placements in turn, P1 first, until P1 has placed twelve;
      the points rise, so each lands on a point no earlier click reached. */
  const Later: seq<int> := [3, 4, 5, 6, 7, 10, 11, 12, 13, 14, 15, 16, 17, 18, 20, 21, 22, 23]

  /** The board after the opening: P1 on 0, 1 and 2, P2 on 9. This is
      `OpeningBoard[2 := Some(P1)][8 := None]` written out (`StartIsOpeningBoard`). */
  const Start: Board := [
    Some(P1), Some(P1), Some(P1), None, None, None, None, None,
    None, Some(P2), None, None, None, None, None, None,
    None, None, None, None, None, None, None, None]

  /** Where every cow stands at the end of the play. */
  const Final: Board := [
    Some(P1), Some(P1), Some(P1), Some(P1), Some(P2), Some(P1), Some(P2), Some(P1),
    None, Some(P2), Some(P2), Some(P1), Some(P2), Some(P1), Some(P2), Some(P1),
    Some(P2), Some(P1), Some(P2), None, Some(P1), Some(P2), Some(P1), Some(P2)]

  /** The first point the `k`-th later click has not yet reached. */
  function Bound(k: nat): (b: int)
  {
    if k < |Later| then Later[k] else NumPoints
  }

  /** The cows of `f` below point `b` and those of `g` from `b` on. */
  function Blend(f: Board, g: Board, b: int): (r: Board)
  {
    seq(NumPoints, i requires 0 <= i < NumPoints => if i < b then f[i] else g[i])
  }

  /** Moving the seam of a blend from `y` to `hi` sets point `y` to its
      value in `f` when `g` is empty at `y` and the two agree strictly between. */
  lemma BlendStep(f: Board, g: Board, y: int, hi: int)
    requires 0 <= y < hi <= NumPoints && g[y] == None
    requires forall i :: y < i < hi ==> f[i] == g[i]
    ensures IsEmptyAt(Blend(f, g, y), y)
    ensures Blend(f, g, y)[y := f[y]] == Blend(f, g, hi)
  {
    var l, r := Blend(f, g, y)[y := f[y]], Blend(f, g, hi);
    forall i | 0 <= i < NumPoints
      ensures l[i] == r[i]
    {
      if y < i < hi {
        assert f[i] == g[i];
      }
    }
  }

  /** The board after the opening and the first `k` later placements: the
      final cows below the next click, the opening's from there on. */
  function After(k: nat): (b: Board)
  {
    Blend(Final, Start, Bound(k))
  }

  /** The seat on turn after the opening and `k` later placements. */
  function Mover(k: nat): (p: Player)
  {
    if k % 2 == 0 then P1 else P2
  }

  /** The state after the opening and the first `k` later placements. */
  function Midgame(k: nat): (s: State)
  {
    State(After(k), Mover(k), Counts(3 + (k + 1) / 2, 2 + k / 2), Placement, None, false, None)
  }

  /** A cell that holds a cow on `b` holds the same cow on `c`. */
  ghost predicate Below(b: Board, c: Board)
  {
    forall i :: 0 <= i < NumPoints && b[i] != None ==> b[i] == c[i]
  }

  lemma AfterBelowFinal(k: nat)
    ensures Below(After(k), Final)
  {
  }

  /** A mill on a board is a mill on any board that keeps its cows. */
  lemma MillKept(b: Board, c: Board, p: Player, x: int)
    requires Below(b, c) && IsMillFormed(b, p, x)
    ensures IsMillFormed(c, p, x)
  {
    var m :| 0 <= m < |Mills| && x in Mills[m] && OwnsLine(b, p, Mills[m]);
    assert OwnsLine(c, p, Mills[m]);
  }

  /** On the final board the only mill is P1's 0-1-2. */
  lemma FinalMills(p: Player, x: int)
    requires !(0 <= x <= 2)
    ensures !IsMillFormed(Final, p, x)
  {
    if IsMillFormed(Final, p, x) {
      var m :| 0 <= m < |Mills| && x in Mills[m] && OwnsLine(Final, p, Mills[m]);
      FinalLines(m, p);
    }
  }

  /** Every mill but 0-1-2 has, on the final board, a cell that is empty or
      holds a cow of each seat. */
  lemma FinalLines(m: int, p: Player)
    requires 0 < m < |Mills|
    ensures !OwnsLine(Final, p, Mills[m])
  {
    assert !Holds(Final, Mills[m][0], p) || !Holds(Final, Mills[m][1], p) || !Holds(Final, Mills[m][2], p);
  }

  /** The `k`-th later click lands on an empty point outside 0-1-2 that the
      final board gives to the mover, and every point it skips on the way to
      the next click is one the opening and the final board agree on. */
  lemma LaterFacts(k: nat)
    requires k < |Later|
    ensures 2 < Later[k] < Bound(k + 1) && Start[Later[k]] == None
    ensures Final[Later[k]] == Some(Mover(k))
    ensures forall i :: Later[k] < i < Bound(k + 1) ==> Final[i] == Start[i]
  {
    if k < 9 {
      EarlyLaterFacts(k);
    } else {
      LateLaterFacts(k);
    }
  }

  lemma EarlyLaterFacts(k: nat)
    requires k < 9
    ensures 2 < Later[k] < Bound(k + 1) && Start[Later[k]] == None
    ensures Final[Later[k]] == Some(Mover(k))
    ensures forall i :: Later[k] < i < Bound(k + 1) ==> Final[i] == Start[i]
  {
    if k == 0 {
      assert Later[0] == 3 && Bound(1) == 4;
    } else if k == 1 {
      assert Later[1] == 4 && Bound(2) == 5;
    } else if k == 2 {
      assert Later[2] == 5 && Bound(3) == 6;
    } else if k == 3 {
      assert Later[3] == 6 && Bound(4) == 7;
    } else if k == 4 {
      assert Later[4] == 7 && Bound(5) == 10;
    } else if k == 5 {
      assert Later[5] == 10 && Bound(6) == 11;
    } else if k == 6 {
      assert Later[6] == 11 && Bound(7) == 12;
    } else if k == 7 {
      assert Later[7] == 12 && Bound(8) == 13;
    } else if k == 8 {
      assert Later[8] == 13 && Bound(9) == 14;
    }
  }

  lemma LateLaterFacts(k: nat)
    requires 9 <= k < |Later|
    ensures 2 < Later[k] < Bound(k + 1) && Start[Later[k]] == None
    ensures Final[Later[k]] == Some(Mover(k))
    ensures forall i :: Later[k] < i < Bound(k + 1) ==> Final[i] == Start[i]
  {
    if k == 9 {
      assert Later[9] == 14 && Bound(10) == 15;
    } else if k == 10 {
      assert Later[10] == 15 && Bound(11) == 16;
    } else if k == 11 {
      assert Later[11] == 16 && Bound(12) == 17;
    } else if k == 12 {
      assert Later[12] == 17 && Bound(13) == 18;
    } else if k == 13 {
      assert Later[13] == 18 && Bound(14) == 20;
    } else if k == 14 {
      assert Later[14] == 20 && Bound(15) == 21;
    } else if k == 15 {
      assert Later[15] == 21 && Bound(16) == 22;
    } else if k == 16 {
      assert Later[16] == 22 && Bound(17) == 23;
    } else if k == 17 {
      assert Later[17] == 23 && Bound(18) == 24;
    }
  }

  /** Each later click is a quiet placement by the seat on turn. */
  lemma StepLater(k: nat)
    requires k < |Later|
    ensures Step(Midgame(k), Later[k]) == Midgame(k + 1)
  {
    LaterBoard(k);
    LaterQuiet(k);
    QuietPlacement(Midgame(k), Later[k]);
    MidgameNext(k);
  }

  /** The `k`-th later click lands on an empty point and turns the board
      into the next one of the play. */
  lemma LaterBoard(k: nat)
    requires k < |Later|
    ensures IsEmptyAt(After(k), Later[k])
    ensures After(k)[Later[k] := Some(Mover(k))] == After(k + 1)
  {
    LaterFacts(k);
    BlendStep(Final, Start, Later[k], Bound(k + 1));
  }

  /** The `k`-th later click closes no mill for the mover. */
  lemma LaterQuiet(k: nat)
    requires k < |Later|
    ensures !IsMillFormed(After(k + 1), Mover(k), Later[k])
  {
    var y := Later[k];
    LaterFacts(k);
    AfterBelowFinal(k + 1);
    FinalMills(Mover(k), y);
    if IsMillFormed(After(k + 1), Mover(k), y) {
      MillKept(After(k + 1), Final, Mover(k), y);
    }
  }

  /** The counters and the turn after one more later placement. */
  lemma MidgameNext(k: nat)
    ensures var s := Midgame(k);
      s.(board := After(k + 1), cowsPlaced := s.cowsPlaced.Inc(Mover(k)), currentPlayer := Other(Mover(k)))
      == Midgame(k + 1)
  {
  }

  /** The later clicks from the `k`-th on lead to the last midgame state. */
  lemma {:induction false} LaterRun(k: nat)
    requires k <= |Later|
    ensures Run(Midgame(k), Later[k..]) == Midgame(|Later|)
    decreases |Later| - k
  {
    if k < |Later| {
      RunSuffix(Midgame(k), Later, k);
      StepLater(k);
      LaterRun(k + 1);
    }
  }

  /** Running a suffix of a click list starts with its first click. */
  lemma RunSuffix(s: State, xs: seq<int>, k: nat)
    requires k < |xs|
    ensures Run(s, xs[k..]) == Run(Step(s, xs[k]), xs[k + 1..])
  {
    assert xs[k..][0] == xs[k] && xs[k..][1..] == xs[k + 1..];
  }

  /** The opening's six clicks lead from the initial state to the first
      later state. */
  lemma OpeningRun()
    ensures Run(Init, Opening) == Midgame(0)
  {
    assert Opening == [0, 8, 1, 9] + [2, 8];
    RunAppend(Init, [0, 8, 1, 9], [2, 8]);
    OpeningPlacements();
    MillAndCapture();
    StartIsOpeningBoard();
  }

  /** The first four clicks are the opening placements. */
  lemma OpeningPlacements()
    ensures Run(Init, [0, 8, 1, 9]) == Init.(board := OpeningBoard, cowsPlaced := Counts(2, 2))
  {
    var xs := [0, 8, 1, 9];
    OpeningScenario();
    assert xs[4..] == [];
    RunSuffix(Step(Step(Step(Init, 0), 8), 1), xs, 3);
    RunSuffix(Step(Step(Init, 0), 8), xs, 2);
    RunSuffix(Step(Init, 0), xs, 1);
    RunSuffix(Init, xs, 0);
    assert xs[0..] == xs;
  }

  /** The next two close the mill 0-1-2 and take P2's cow at 8. */
  lemma MillAndCapture()
    ensures Run(Init.(board := OpeningBoard, cowsPlaced := Counts(2, 2)), [2, 8])
         == Init.(board := OpeningBoard[2 := Some(P1)][8 := None], cowsPlaced := Counts(3, 2))
  {
    var s4 := Init.(board := OpeningBoard, cowsPlaced := Counts(2, 2));
    var xs := [2, 8];
    ClosingMillScenario(2);
    CaptureScenario(2);
    assert xs[2..] == [];
    RunSuffix(Step(s4, 2), xs, 1);
    RunSuffix(s4, xs, 0);
    assert xs[0..] == xs;
  }

  /** The start board is the opening board once P1 has added 2 and taken 8. */
  lemma StartIsOpeningBoard()
    ensures After(0) == OpeningBoard[2 := Some(P1)][8 := None]
  {
    InitValid();
    var b := OpeningBoard[2 := Some(P1)][8 := None];
    forall i | 0 <= i < NumPoints
      ensures After(0)[i] == b[i]
    {
    }
  }

  /** The stall is reachable from the start: after the opening and the later
      placements P1 has placed twelve cows and P2 eleven, P1 is on turn in a
      valid placement state, and no further click changes anything. */
  lemma ReachableStall()
    ensures var t := Run(Init, Opening + Later);
      && Valid(t) && t.phase == Placement && !t.mustCapture
      && t.currentPlayer == P1 && t.cowsPlaced == Counts(MaxCows, MaxCows - 1)
      && forall more :: Run(t, more) == t
  {
    RunAppend(Init, Opening, Later);
    OpeningRun();
    LaterRun(0);
    assert Later[0..] == Later;
    InitValid();
    RunPreservesValid(Init, Opening + Later);
    var t := Run(Init, Opening + Later);
    forall more
      ensures Run(t, more) == t
    {
      PlacementStallForever(t, more);
    }
  }
}
