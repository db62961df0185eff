/** Properties that relate several steps of the `placeCow` handler: the
    invariant every reachable state keeps, and consequences of the handler's
    choices (capture keeps the turn; a seat that has placed twelve first stalls
    placement). */
module Properties {
  import opened Base
  import opened Topology
  import opened Board
  import opened Game

  /** A board on which `p` holds no cell has no cows of `p`. */
  lemma CountAbsent(b: seq<Cell>, p: Player)
    requires forall i :: 0 <= i < |b| ==> b[i] != Some(p)
    ensures Count(b, p) == 0
  {
  }

  /** The server starts in a valid state with no cows on the board. */
  lemma InitValid()
    ensures Valid(Init)
    ensures Count(Init.board, P1) == 0 && Count(Init.board, P2) == 0
  {
    CountAbsent(Init.board, P1);
    CountAbsent(Init.board, P2);
  }

  /** Every click keeps the reachable-state invariant: counters stay within
      twelve, the phase is movement exactly when both seats have placed twelve,
      capture mode belongs to the current seat, a selection names a cow of the
      current seat, and no seat has more cows on the board than it placed. */
  lemma StepPreservesValid(s: State, x: int)
    requires Valid(s)
    ensures Valid(Step(s, x))
  {
  }

  /** Every state reached by any sequence of clicks from a valid state is valid. */
  lemma {:induction false} RunPreservesValid(s: State, clicks: seq<int>)
    requires Valid(s)
    ensures Valid(Run(s, clicks))
    decreases |clicks|
  {
    if |clicks| > 0 {
      StepPreservesValid(s, clicks[0]);
      RunPreservesValid(Step(s, clicks[0]), clicks[1..]);
    }
  }

  /** Clicks handled one after another: a run of two lists is the run of
      the second from where the first ends. */
  lemma {:induction false} RunAppend(s: State, xs: seq<int>, ys: seq<int>)
    ensures Run(s, xs + ys) == Run(Run(s, xs), ys)
    decreases |xs|
  {
    if |xs| == 0 {
      assert xs + ys == ys;
    } else {
      assert (xs + ys)[0] == xs[0] && (xs + ys)[1..] == xs[1..] + ys;
      RunAppend(Step(s, xs[0]), xs[1..], ys);
    }
  }

  /** In capture mode the cow taken always belongs to the seat that is not on
      turn, a mill-protected cow is taken only when the victim has no other, and
      the capturing seat keeps the turn afterwards. */
  lemma CaptureTakesFromOpponent(s: State, x: int)
    requires Valid(s) && s.mustCapture
    ensures var r := Step(s, x);
      && r.currentPlayer == s.currentPlayer
      && (r != s ==>
            && Holds(s.board, x, Other(s.currentPlayer))
            && (IsMillFormed(s.board, Other(s.currentPlayer), x) ==> AllInMills(s.board, Other(s.currentPlayer)))
            && !r.mustCapture)
  {
  }

  /** Once the current seat has placed twelve cows while the other has not,
      no click changes the state: placement rejects every point and the turn
      can never pass. Capture keeping the turn lets a seat get there first. */
  lemma PlacementStall(s: State, x: int)
    requires Valid(s) && !s.mustCapture && s.phase == Placement
    requires s.cowsPlaced.Get(s.currentPlayer) == MaxCows
    ensures Step(s, x) == s
    ensures s.cowsPlaced.Get(Other(s.currentPlayer)) < MaxCows
  {
  }

  /** The stall is permanent: no sequence of clicks leaves such a state. */
  lemma {:induction false} PlacementStallForever(s: State, clicks: seq<int>)
    requires Valid(s) && !s.mustCapture && s.phase == Placement
    requires s.cowsPlaced.Get(s.currentPlayer) == MaxCows
    ensures Run(s, clicks) == s
    decreases |clicks|
  {
    if |clicks| > 0 {
      PlacementStall(s, clicks[0]);
      PlacementStallForever(s, clicks[1..]);
    }
  }

  /** The general way into the stall: once one seat has placed all twelve,
      the other seat, on turn with at least two still to place, puts down a
      cow that closes no mill; the turn passes to the finished seat, the phase
      stays placement, and from then on no click changes anything. */
  lemma LeadStalls(s: State, x: int)
    requires Valid(s) && !s.mustCapture && s.phase == Placement
    requires s.cowsPlaced.Get(Other(s.currentPlayer)) == MaxCows
    requires s.cowsPlaced.Get(s.currentPlayer) < MaxCows - 1
    requires IsEmptyAt(s.board, x) && !IsMillFormed(s.board[x := Some(s.currentPlayer)], s.currentPlayer, x)
    ensures var t := Step(s, x);
      && Valid(t) && t.phase == Placement && !t.mustCapture
      && t.currentPlayer == Other(s.currentPlayer)
      && t.cowsPlaced.Get(t.currentPlayer) == MaxCows
      && t.cowsPlaced.Get(s.currentPlayer) == s.cowsPlaced.Get(s.currentPlayer) + 1 < MaxCows
      && forall clicks :: Run(t, clicks) == t
  {
    QuietPlacement(s, x);
    StepPreservesValid(s, x);
    var t := Step(s, x);
    forall clicks
      ensures Run(t, clicks) == t
    {
      PlacementStallForever(t, clicks);
    }
  }

  /** A mill needs three cows: a seat with fewer than three on the board
      closes no mill anywhere. */
  lemma FewCowsNoMill(b: seq<Cell>, p: Player, x: int)
    requires Count(b, p) < 3
    ensures !IsMillFormed(b, p, x)
  {
    if IsMillFormed(b, p, x) {
      var m :| 0 <= m < |Mills| && x in Mills[m] && OwnsLine(b, p, Mills[m]);
      MillsAreLines();
      var line := Mills[m];
      assert Holds(b, line[0], p) && Holds(b, line[1], p) && Holds(b, line[2], p);
      assert {line[0], line[1], line[2]} <= CellsOf(b, p);
      assert |{line[0], line[1], line[2]}| == 3;
      CardinalityOfSubset({line[0], line[1], line[2]}, CellsOf(b, p));
    }
  }

  lemma CardinalityOfSubset(a: set<int>, b: set<int>)
    requires a <= b
    ensures |a| <= |b|
  {
    assert b == a + (b - a);
  }

  /** A placement on an empty point that closes no mill, and is not the last
      cow of both allotments: the cow lands, is counted, and the turn passes
      without changing the phase. */
  lemma QuietPlacement(s: State, x: int)
    requires !s.mustCapture && s.phase == Placement && IsEmptyAt(s.board, x)
    requires s.cowsPlaced.Get(s.currentPlayer) < MaxCows
    requires s.cowsPlaced.Get(s.currentPlayer) + 1 < MaxCows || s.cowsPlaced.Get(Other(s.currentPlayer)) < MaxCows
    requires !IsMillFormed(s.board[x := Some(s.currentPlayer)], s.currentPlayer, x)
    ensures var p := s.currentPlayer;
      Step(s, x) == s.(board := s.board[x := Some(p)], cowsPlaced := s.cowsPlaced.Inc(p), currentPlayer := Other(p))
    ensures Count(Step(s, x).board, s.currentPlayer) == Count(s.board, s.currentPlayer) + 1
    ensures Count(Step(s, x).board, Other(s.currentPlayer)) == Count(s.board, Other(s.currentPlayer))
  {
    var p := s.currentPlayer;
    CountUpdate(s.board, x, Some(p), p);
    CountUpdate(s.board, x, Some(p), Other(p));
  }

  /** Before its third cow a seat cannot close a mill, so its placement is quiet. */
  lemma EarlyPlacement(s: State, x: int)
    requires !s.mustCapture && s.phase == Placement && IsEmptyAt(s.board, x)
    requires s.cowsPlaced.Get(s.currentPlayer) < MaxCows
    requires s.cowsPlaced.Get(s.currentPlayer) + 1 < MaxCows || s.cowsPlaced.Get(Other(s.currentPlayer)) < MaxCows
    requires Count(s.board, s.currentPlayer) < 2
    ensures var p := s.currentPlayer;
      Step(s, x) == s.(board := s.board[x := Some(p)], cowsPlaced := s.cowsPlaced.Inc(p), currentPlayer := Other(p))
    ensures Count(Step(s, x).board, s.currentPlayer) == Count(s.board, s.currentPlayer) + 1
    ensures Count(Step(s, x).board, Other(s.currentPlayer)) == Count(s.board, Other(s.currentPlayer))
  {
    var p := s.currentPlayer;
    CountUpdate(s.board, x, Some(p), p);
    FewCowsNoMill(s.board[x := Some(p)], p, x);
    QuietPlacement(s, x);
  }

  /** P1 at 0 and 1, P2 at 8 and 9, after four alternating placements. */
  lemma OpeningScenario()
    ensures Step(Step(Step(Step(Init, 0), 8), 1), 9)
         == Init.(board := OpeningBoard, cowsPlaced := Counts(2, 2))
  {
    InitValid();
    var s1 := Step(Init, 0);
    EarlyPlacement(Init, 0);
    var s2 := Step(s1, 8);
    EarlyPlacement(s1, 8);
    var s3 := Step(s2, 1);
    EarlyPlacement(s2, 1);
    EarlyPlacement(s3, 9);
  }

  /** The board after the opening: P1 at 0 and 1, P2 at 8 and 9. */
  const OpeningBoard: Board := EmptyBoard[0 := Some(P1)][8 := Some(P2)][1 := Some(P1)][9 := Some(P2)]

  lemma OpeningBoardCounts()
    ensures Count(OpeningBoard, P2) == 2
  {
    InitValid();
    CountUpdate(EmptyBoard, 0, Some(P1), P2);
    CountUpdate(EmptyBoard[0 := Some(P1)], 8, Some(P2), P2);
    CountUpdate(EmptyBoard[0 := Some(P1)][8 := Some(P2)], 1, Some(P1), P2);
    CountUpdate(EmptyBoard[0 := Some(P1)][8 := Some(P2)][1 := Some(P1)], 9, Some(P2), P2);
  }

  /** With P1 at 0 and 1, P2 at 8 and 9 and P1 on turn after `n` placements
      each, P1 placing at 2 closes the top side of the outer square: P1 keeps
      the turn and capture mode opens for P1. */
  lemma ClosingMillScenario(n: nat)
    requires n < MaxCows
    ensures var s4 := Init.(board := OpeningBoard, cowsPlaced := Counts(n, n));
      Step(s4, 2) == s4.(board := OpeningBoard[2 := Some(P1)], cowsPlaced := Counts(n + 1, n),
                         mustCapture := true, capturePlayer := Some(P1))
  {
    var b := OpeningBoard[2 := Some(P1)];
    assert OwnsLine(b, P1, Mills[0]);
    assert IsMillFormed(b, P1, 2);
  }

  /** P1 then takes P2's cow at 8 (P2 has no mill, so every P2 cow is
      capturable); capture mode ends and P1 stays on turn. */
  lemma CaptureScenario(n: nat)
    requires n < MaxCows
    ensures var s5 := Init.(board := OpeningBoard[2 := Some(P1)], cowsPlaced := Counts(n + 1, n),
                            mustCapture := true, capturePlayer := Some(P1));
      Step(s5, 8) == s5.(board := OpeningBoard[2 := Some(P1)][8 := None],
                         mustCapture := false, capturePlayer := None)
  {
    var b := OpeningBoard[2 := Some(P1)];
    OpeningBoardCounts();
    CountUpdate(OpeningBoard, 2, Some(P1), P2);
    FewCowsNoMill(b, P2, 8);
    assert Capturable(b, P2, 8);
  }

  /** From the start: P1 closing the mill 0-1-2 opens capture mode for P1; P1
      takes P2's cow at 8, stays on turn and places again. */
  lemma MillThenCaptureScenario()
    ensures var s5 := Step(Step(Step(Step(Step(Init, 0), 8), 1), 9), 2);
      && s5.mustCapture && s5.capturePlayer == Some(P1) && s5.currentPlayer == P1
      && s5.cowsPlaced == Counts(3, 2) && s5.phase == Placement
    ensures var s6 := Step(Step(Step(Step(Step(Step(Init, 0), 8), 1), 9), 2), 8);
      && !s6.mustCapture && s6.currentPlayer == P1
      && s6.board[8] == None && s6.board[9] == Some(P2)
    ensures Step(Step(Step(Step(Step(Step(Step(Init, 0), 8), 1), 9), 2), 8), 10).board[10] == Some(P1)
  {
    OpeningScenario();
    ClosingMillScenario(2);
    CaptureScenario(2);
    var s6 := Step(Step(Step(Step(Step(Step(Init, 0), 8), 1), 9), 2), 8);
    assert IsEmptyAt(s6.board, 10);
  }

  /** The stall is reached: from the opening board with eleven placed by
      each seat and P1 on turn, which is a valid state, P1's twelfth cow closes the mill 0-1-2, P1 takes
      P2's cow at 8 and stays on turn with twelve placed against eleven, and no
      later click changes anything. */
  lemma LateMillStalls()
    ensures var s := Init.(board := OpeningBoard, cowsPlaced := Counts(11, 11));
      && Valid(s)
      && var t := Step(Step(s, 2), 8);
         && Valid(t) && !t.mustCapture && t.phase == Placement
         && t.currentPlayer == P1 && t.cowsPlaced == Counts(12, 11)
         && forall clicks :: Run(t, clicks) == t
  {
    var s := Init.(board := OpeningBoard, cowsPlaced := Counts(11, 11));
    OpeningBoardValid(11);
    ClosingMillScenario(11);
    CaptureScenario(11);
    StepPreservesValid(s, 2);
    StepPreservesValid(Step(s, 2), 8);
    var t := Step(Step(s, 2), 8);
    forall clicks
      ensures Run(t, clicks) == t
    {
      PlacementStallForever(t, clicks);
    }
  }

  /** The opening board, with P1 on turn after `n` placements each, is a
      valid state once each seat has placed at least its two cows. */
  lemma OpeningBoardValid(n: nat)
    requires 2 <= n < MaxCows
    ensures Valid(Init.(board := OpeningBoard, cowsPlaced := Counts(n, n)))
  {
    InitValid();
    OpeningBoardCounts();
    CountUpdate(EmptyBoard, 0, Some(P1), P1);
    CountUpdate(EmptyBoard[0 := Some(P1)], 8, Some(P2), P1);
    CountUpdate(EmptyBoard[0 := Some(P1)][8 := Some(P2)], 1, Some(P1), P1);
    CountUpdate(EmptyBoard[0 := Some(P1)][8 := Some(P2)][1 := Some(P1)], 9, Some(P2), P1);
  }

  /** P1 on 0, P2 on 8 and 9. */
  const CatchUpBoard: Board := EmptyBoard[0 := Some(P1)][8 := Some(P2)][9 := Some(P2)]

  /** A mill by the seat that places second only evens out the first seat's
      head start: from a valid state with P1 at eleven placed, P2 at ten and P2
      on turn, P2 closes 8-9-10, takes P1's cow at 0, places its twelfth cow
      and hands the turn to P1, whose twelfth cow starts the movement phase. */
  lemma SecondSeatMillCatchesUp()
    ensures var s0 := Init.(board := CatchUpBoard, cowsPlaced := Counts(11, 10), currentPlayer := P2);
      && Valid(s0)
      && Step(s0, 10).mustCapture && Step(s0, 10).capturePlayer == Some(P2)
      && var t := Step(Step(Step(Step(s0, 10), 0), 20), 4);
         t.phase == Movement && t.cowsPlaced == Counts(MaxCows, MaxCows) && t.currentPlayer == P2
  {
    CatchUpValid();
    CatchUpMill();
    CatchUpCapture();
    CatchUpLastPlacements();
  }

  lemma CatchUpValid()
    ensures Valid(Init.(board := CatchUpBoard, cowsPlaced := Counts(11, 10), currentPlayer := P2))
    ensures Count(CatchUpBoard, P1) == 1
  {
    InitValid();
    CountUpdate(EmptyBoard, 0, Some(P1), P1);
    CountUpdate(EmptyBoard[0 := Some(P1)], 8, Some(P2), P1);
    CountUpdate(EmptyBoard[0 := Some(P1)][8 := Some(P2)], 9, Some(P2), P1);
    CountUpdate(EmptyBoard, 0, Some(P1), P2);
    CountUpdate(EmptyBoard[0 := Some(P1)], 8, Some(P2), P2);
    CountUpdate(EmptyBoard[0 := Some(P1)][8 := Some(P2)], 9, Some(P2), P2);
  }

  /** P2 placing at 10 closes 8-9-10: P2 keeps the turn and must capture. */
  lemma CatchUpMill()
    ensures var s0 := Init.(board := CatchUpBoard, cowsPlaced := Counts(11, 10), currentPlayer := P2);
      Step(s0, 10) == s0.(board := CatchUpBoard[10 := Some(P2)], cowsPlaced := Counts(11, 11),
                          mustCapture := true, capturePlayer := Some(P2))
  {
    var b := CatchUpBoard[10 := Some(P2)];
    assert OwnsLine(b, P2, Mills[4]);
    assert IsMillFormed(b, P2, 10);
  }

  /** P1 has no mill, so P2 takes P1's cow at 0 and stays on turn. */
  lemma CatchUpCapture()
    ensures var s1 := Init.(board := CatchUpBoard[10 := Some(P2)], cowsPlaced := Counts(11, 11), currentPlayer := P2,
                            mustCapture := true, capturePlayer := Some(P2));
      Step(s1, 0) == s1.(board := CatchUpBoard[10 := Some(P2)][0 := None], mustCapture := false, capturePlayer := None)
  {
    var b := CatchUpBoard[10 := Some(P2)];
    CatchUpValid();
    CountUpdate(CatchUpBoard, 10, Some(P2), P1);
    FewCowsNoMill(b, P1, 0);
    assert Capturable(b, P1, 0);
  }

  /** P2's twelfth cow at 20 closes no mill and passes the turn; P1's twelfth
      at 4 makes both counters twelve, so the phase becomes movement. */
  lemma CatchUpLastPlacements()
    ensures var s2 := Init.(board := CatchUpBoard[10 := Some(P2)][0 := None], cowsPlaced := Counts(11, 11),
                            currentPlayer := P2);
      var t := Step(Step(s2, 20), 4);
      t.phase == Movement && t.cowsPlaced == Counts(MaxCows, MaxCows) && t.currentPlayer == P2
  {
    var s2 := Init.(board := CatchUpBoard[10 := Some(P2)][0 := None], cowsPlaced := Counts(11, 11),
                    currentPlayer := P2);
    var b := s2.board[20 := Some(P2)];
    NoMillAtTwenty(b, P2);
    QuietPlacement(s2, 20);
    var s3 := Step(s2, 20);
    assert s3.board == b && s3.currentPlayer == P1 && s3.cowsPlaced == Counts(11, MaxCows);
    assert IsEmptyAt(b, 4);
    CatchUpValid();
    CountUpdate(CatchUpBoard, 10, Some(P2), P1);
    CountUpdate(CatchUpBoard[10 := Some(P2)], 0, None, P1);
    CountUpdate(s2.board, 20, Some(P2), P1);
    CountUpdate(b, 4, Some(P1), P1);
    FewCowsNoMill(b[4 := Some(P1)], P1, 4);
  }

  /** Neither mill through 20 is owned while 18 and 21 are empty. */
  lemma NoMillAtTwenty(b: Board, p: Player)
    requires b[18] == None && b[21] == None
    ensures !IsMillFormed(b, p, 20)
  {
    if IsMillFormed(b, p, 20) {
      var m :| 0 <= m < |Mills| && 20 in Mills[m] && OwnsLine(b, p, Mills[m]);
      TwentyLines(b, p, m);
    }
  }

  lemma TwentyLines(b: Board, p: Player, m: int)
    requires 0 <= m < |Mills| && 20 in Mills[m]
    requires b[18] == None && b[21] == None
    ensures !OwnsLine(b, p, Mills[m])
  {
    assert !Holds(b, Mills[m][0], p) || !Holds(b, Mills[m][1], p) || !Holds(b, Mills[m][2], p);
  }
}
