/** The single game the server hosts and the `placeCow` handler that drives it
    (index.js:16-31, 179-285). Every click is one `Step`. */
module Game {
  import opened Base
  import opened Topology
  import opened Board

  /** Cows each seat may place; hard-coded in the placement branch. */
  const MaxCows := 12

  /** `phase`. The server's comment also mentions "flying", but no code sets it:
      flying is decided per move from the mover's cow count. */
  datatype Phase = Placement | Movement

  /** `cowsPlaced`: placements so far, one counter per seat. */
  datatype Counts = Counts(p1: nat, p2: nat) {
    function Get(p: Player): (n: nat)
    {
      if p == P1 then p1 else p2
    }

    /** `cowsPlaced[p]++`. */
    function Inc(p: Player): (c: Counts)
      ensures c.Get(p) == Get(p) + 1
      ensures c.Get(Other(p)) == Get(Other(p))
    {
      if p == P1 then Counts(p1 + 1, p2) else Counts(p1, p2 + 1)
    }
  }

  /** The server's module-level variables. */
  datatype State = State(
    board: Board,
    currentPlayer: Player,
    cowsPlaced: Counts,
    phase: Phase,
    selectedPoint: Option<Point>,
    mustCapture: bool,
    capturePlayer: Option<Player>)

  const EmptyBoard: Board := seq(NumPoints, i => None)

  /** The state at server start. */
  const Init := State(EmptyBoard, P1, Counts(0, 0), Placement, None, false, None)

  /** The seat whose cow is taken: `capturePlayer === "P1" ? "P2" : "P1"`. The
      opponent of the capturing seat; with no capturing seat recorded the
      comparison fails and P1 is the victim. */
  function Victim(capturePlayer: Option<Player>): (v: Player)
    ensures capturePlayer != None ==> v == Other(capturePlayer.value)
    ensures capturePlayer == None ==> v == P1
  {
    if capturePlayer == Some(P1) then P2
    else
      assert capturePlayer == None || capturePlayer.value == P2;
      P1
  }

  /** A cell the mover may go to from `from`: an empty one, next to `from`
      unless the mover is down to exactly three cows. */
  predicate LegalTarget(b: Board, p: Player, from: Point, x: int)
  {
    IsEmptyAt(b, x) && (Count(b, p) == 3 || Adjacent(from, x))
  }

  /** Capture mode (index.js:181-207): a click on a capturable cow of the
      victim empties that cell and ends capture mode; any other click is ignored.
      The turn does not pass. */
  function CaptureStep(s: State, x: int): (r: State)
    requires s.mustCapture
    ensures !Capturable(s.board, Victim(s.capturePlayer), x) ==> r == s
    ensures Capturable(s.board, Victim(s.capturePlayer), x) ==>
      var victim := Victim(s.capturePlayer);
      && Holds(s.board, x, victim)
      && r.board[x] == None
      && (forall i :: 0 <= i < NumPoints && i != x ==> r.board[i] == s.board[i])
      && Count(r.board, victim) + 1 == Count(s.board, victim)
      && Count(r.board, Other(victim)) == Count(s.board, Other(victim))
      && !r.mustCapture && r.capturePlayer == None
      && r.currentPlayer == s.currentPlayer
      && r.phase == s.phase
      && r.cowsPlaced == s.cowsPlaced
      && r.selectedPoint == s.selectedPoint
  {
    var victim := Victim(s.capturePlayer);
    if x !in CapturablePositions(s.board, victim) then s
    else
      CountUpdate(s.board, x, None, victim);
      CountUpdate(s.board, x, None, Other(victim));
      s.(board := s.board[x := None], mustCapture := false, capturePlayer := None)
  }

  /** Placement (index.js:210-238): an empty cell receives a cow of the current
      seat while it has placed fewer than twelve. A mill keeps the turn and
      opens capture mode; otherwise the turn passes. Movement starts once both
      seats have placed twelve, even in the step that opened capture mode. */
  function PlaceStep(s: State, x: int): (r: State)
    requires !s.mustCapture && s.phase == Placement
    ensures !IsEmptyAt(s.board, x) || s.cowsPlaced.Get(s.currentPlayer) >= MaxCows ==> r == s
    ensures IsEmptyAt(s.board, x) && s.cowsPlaced.Get(s.currentPlayer) < MaxCows ==>
      var p := s.currentPlayer;
      var mill := IsMillFormed(r.board, p, x);
      && r.board[x] == Some(p)
      && (forall i :: 0 <= i < NumPoints && i != x ==> r.board[i] == s.board[i])
      && Count(r.board, p) == Count(s.board, p) + 1
      && Count(r.board, Other(p)) == Count(s.board, Other(p))
      && r.cowsPlaced.Get(p) == s.cowsPlaced.Get(p) + 1 <= MaxCows
      && r.cowsPlaced.Get(Other(p)) == s.cowsPlaced.Get(Other(p))
      && (r.currentPlayer == Other(p) <==> !mill)
      && (mill ==> r.mustCapture && r.capturePlayer == Some(p) && r.currentPlayer == p)
      && (!mill ==> !r.mustCapture && r.capturePlayer == s.capturePlayer)
      && (r.phase == Movement <==> r.cowsPlaced.p1 == MaxCows && r.cowsPlaced.p2 == MaxCows)
      && r.selectedPoint == s.selectedPoint
  {
    var p := s.currentPlayer;
    if !IsEmptyAt(s.board, x) then s
    else if s.cowsPlaced.Get(p) >= MaxCows then s
    else
      var board := s.board[x := Some(p)];
      var placed := s.cowsPlaced.Inc(p);
      var mill := IsMillFormed(board, p, x);
      CountUpdate(s.board, x, Some(p), p);
      CountUpdate(s.board, x, Some(p), Other(p));
      s.(board := board,
         cowsPlaced := placed,
         mustCapture := mill,
         capturePlayer := if mill then Some(p) else s.capturePlayer,
         currentPlayer := if mill then p else Other(p),
         phase := if placed.p1 == MaxCows && placed.p2 == MaxCows then Movement else s.phase)
  }

  /** Movement (index.js:242-284), a two-click protocol. With nothing selected,
      a click on an own cow selects it. With a cow selected, a click on a legal
      target moves it there (a mill keeps the turn and opens capture mode,
      otherwise the turn passes); any other click only drops the selection. */
  function MoveStep(s: State, x: int): (r: State)
    requires !s.mustCapture && s.phase == Movement
    ensures s.selectedPoint == None ==>
      && r.board == s.board
      && r.currentPlayer == s.currentPlayer && r.phase == s.phase && r.cowsPlaced == s.cowsPlaced
      && r.mustCapture == s.mustCapture && r.capturePlayer == s.capturePlayer
      && (r.selectedPoint != None <==> Holds(s.board, x, s.currentPlayer))
      && (r.selectedPoint != None ==> r.selectedPoint == Some(x))
    ensures s.selectedPoint != None ==>
      && r.selectedPoint == None
      && r.phase == s.phase && r.cowsPlaced == s.cowsPlaced
      && (forall i :: 0 <= i < NumPoints && i != x && i != s.selectedPoint.value ==> r.board[i] == s.board[i])
    ensures s.selectedPoint != None && !LegalTarget(s.board, s.currentPlayer, s.selectedPoint.value, x) ==>
      r == s.(selectedPoint := None)
    ensures s.selectedPoint != None && LegalTarget(s.board, s.currentPlayer, s.selectedPoint.value, x) ==>
      var p := s.currentPlayer;
      var from := s.selectedPoint.value;
      var mill := IsMillFormed(r.board, p, x);
      && r.board[from] == None
      && (s.board[from] == Some(p) ==>
            && r.board[x] == Some(p)
            && Count(r.board, P1) == Count(s.board, P1)
            && Count(r.board, P2) == Count(s.board, P2))
      && (r.currentPlayer == Other(p) <==> !mill)
      && (mill ==> r.mustCapture && r.capturePlayer == Some(p) && r.currentPlayer == p)
      && (!mill ==> !r.mustCapture && r.capturePlayer == s.capturePlayer)
  {
    var p := s.currentPlayer;
    match s.selectedPoint
    case None =>
      if Holds(s.board, x, p) then s.(selectedPoint := Some(x)) else s
    case Some(from) =>
      if LegalTarget(s.board, p, from, x) then
        var board := s.board[x := Some(p)][from := None];
        var mill := IsMillFormed(board, p, x);
        MoveKeepsCounts(s.board, from, x, p);
        s.(board := board,
           selectedPoint := None,
           mustCapture := mill,
           capturePlayer := if mill then Some(p) else s.capturePlayer,
           currentPlayer := if mill then p else Other(p))
      else s.(selectedPoint := None)
  }

  /** Moving a cow of `p` from `from` to the empty cell `x` leaves both seats'
      cow counts as they were. */
  lemma MoveKeepsCounts(b: Board, from: Point, x: int, p: Player)
    requires IsEmptyAt(b, x)
    ensures b[from] == Some(p) ==>
      && Count(b[x := Some(p)][from := None], P1) == Count(b, P1)
      && Count(b[x := Some(p)][from := None], P2) == Count(b, P2)
  {
    var mid := b[x := Some(p)];
    CountUpdate(b, x, Some(p), P1);
    CountUpdate(b, x, Some(p), P2);
    CountUpdate(mid, from, None, P1);
    CountUpdate(mid, from, None, P2);
  }

  /** One `placeCow` event carrying point `x`. Capture mode takes precedence
      over the phase; no seat identity is checked. */
  function Step(s: State, x: int): (r: State)
    ensures s.phase == Movement ==> r.phase == Movement
    ensures r.phase != s.phase ==> r.cowsPlaced.p1 == MaxCows && r.cowsPlaced.p2 == MaxCows
    ensures r.cowsPlaced.p1 >= s.cowsPlaced.p1 && r.cowsPlaced.p2 >= s.cowsPlaced.p2
    ensures r.cowsPlaced.p1 + r.cowsPlaced.p2 <= s.cowsPlaced.p1 + s.cowsPlaced.p2 + 1
    ensures s.cowsPlaced.p1 <= MaxCows && s.cowsPlaced.p2 <= MaxCows ==>
              r.cowsPlaced.p1 <= MaxCows && r.cowsPlaced.p2 <= MaxCows
    ensures r.currentPlayer != s.currentPlayer ==> !s.mustCapture && !r.mustCapture
  {
    if s.mustCapture then CaptureStep(s, x)
    else if s.phase == Placement then PlaceStep(s, x)
    else MoveStep(s, x)
  }

  /** The state after a sequence of clicks. */
  function Run(s: State, clicks: seq<int>): (t: State)
    decreases |clicks|
  {
    if |clicks| == 0 then s else Run(Step(s, clicks[0]), clicks[1..])
  }

  /** What holds of every state the server can reach from its start. */
  predicate Valid(s: State)
  {
    && s.cowsPlaced.p1 <= MaxCows && s.cowsPlaced.p2 <= MaxCows
    && (s.phase == Movement <==> s.cowsPlaced.p1 == MaxCows && s.cowsPlaced.p2 == MaxCows)
    && (s.mustCapture <==> s.capturePlayer != None)
    && (s.mustCapture ==> s.capturePlayer == Some(s.currentPlayer))
    && (s.selectedPoint != None ==>
          s.phase == Movement && !s.mustCapture && s.board[s.selectedPoint.value] == Some(s.currentPlayer))
    && Count(s.board, P1) <= s.cowsPlaced.p1
    && Count(s.board, P2) <= s.cowsPlaced.p2
  }
}
