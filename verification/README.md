# Morabaraba rules engine — Dafny model

This project models the game engine of MorabarabaOnline's server (`index.js`):
a single table of Morabaraba, the twelve-cow Morris game, on a 24-point board.
The server keeps one game in module-level variables and changes it with one
handler, `placeCow(pointId)`, which receives every `placeCow` event of any
connected client. The handler has three branches:

- **capture mode**: taking an opponent's cow after a mill;
- **placement**: up to twelve cows per seat;
- **movement**: two clicks, first select an own cow, then pick a target.
  A seat with exactly three cows may fly to any empty point.

The model is functional:

- `Topology` holds the constant adjacency table and the sixteen mill lines.
- `Board` holds the pure queries `isMillFormed`, `getCapturablePositions` and `countCows`.
- `Game` holds the state record and one total transition `Step(state, pointId)`.
- `Symmetry` proves that a quarter turn of the board maps edges to edges and
  mills to mills. So `isMillFormed` gives the same answer on a turned board.
- `Properties` holds the lemmas that relate several steps. It proves the invariant every
  reachable state keeps, and it proves two consequences of the code as written.
- `Stall` plays twenty-four clicks from the start into the placement stall described below.

The code's own choices are kept. The last placement can open capture mode and switch
to movement in the same step. No seat identity is checked, so `Step` takes no seat. `pointId` is an `int`. An index off the board reads
`undefined` in JavaScript. That value is neither `null` nor a seat, so such a click is
rejected in placement, ignored for selection, an invalid move target, and never capturable.

Three facts of the code shape the model. A capture does not pass the turn
(index.js:187-189 clear capture mode and leave `currentPlayer` alone). The allotment
is fixed at twelve cows per seat (index.js:212). There is no end of game: the
`checkWinner` calls are commented out (index.js:191-195, 259-263).

Capture keeping the turn has a consequence. The game stalls in placement once a
seat that has placed twelve is on turn while the other seat has fewer. Every click is
then rejected (index.js:212) and the other seat never gets the turn back, so the game
never reaches movement (`Properties.PlacementStall`, `Properties.PlacementStallForever`).
A seat that has placed its twelfth cow gets the turn back in one of two ways. The
other seat, with at least two cows still to place, may make a placement that closes
no mill (`Properties.LeadStalls`). Or the seat's own twelfth cow may close a mill, so
that it keeps the turn through the capture (`Properties.LateMillStalls`).

A mill in placement earns its maker an extra placement, since the turn stays with it.
P1 places first, so one extra placement for P1 can already lead to the stall.
`Stall.ReachableStall` plays one such game from the start: P1 closes one mill in the
opening, and after twenty-four clicks P1 has placed twelve, P2 eleven, P1 is on turn,
and nothing further happens. P2 places second, so one extra placement for P2 only
evens out P1's head start. P2 needs a second one, or a mill closed with its own
twelfth cow. `Properties.SecondSeatMillCatchesUp` shows a P2 mill after which both
seats place their twelfth cow and movement begins.

## Model

| member | source | states |
|---|---|---|
| Base.Other | index.js:221 | the seat the turn passes to is never the seat that had it (with two seats, it is the other one) |
| Topology.AdjacencySymmetricIrreflexive | index.js:35-62 | the adjacency table is symmetric and irreflexive, and every listed neighbour is a board point |
| Topology.MillsAreLines | index.js:64-88 | there are sixteen mills, each of three distinct board points whose consecutive points are adjacent |
| Symmetry.RotationKeepsAdjacency | index.js:35-62 | turning the board a quarter turn (two places along each square) maps adjacent points to adjacent points and non-adjacent to non-adjacent |
| Symmetry.MillTurns | index.js:64-88 | the quarter turn carries each mill, point by point, onto the next side of its square or the next cross line |
| Symmetry.MillFormedUnderRotation | index.js:90-95 | a mill is formed at a point on a board iff one is formed at the turned point on the turned board |
| Board.MillAmong | index.js:91-94 | the `mills.some` scan over the first n mills is true iff one of them passes through the point and is wholly owned |
| Board.IsMillFormed | index.js:90-95 | true iff some mill through the point has all three cells held by the seat; so false whenever the point itself is not the seat's |
| Board.Count | index.js:128-130 | `countCows` equals the number of cells holding the seat, so it is at most the board size |
| Board.CountUpdate | index.js:128-130 | writing one cell changes a seat's count by what leaves and what arrives at that cell |
| Board.Scan | index.js:97-111 | the loop sorts exactly the seat's cells into non-mill cells and in-mill cells |
| Board.CapturablePositions | index.js:97-114 | the result is exactly the capturable cells under the two-tier rule: only cells of the victim; only unprotected ones while one exists; every victim cell once all are in mills; empty iff the victim has no cow |
| Game.Victim | index.js:182 | the victim is the opponent of the capturing seat; with no capturing seat recorded the comparison with "P1" fails and P1 is the victim |
| Game.CaptureStep | index.js:181-207 | a point outside the capturable set leaves the state unchanged; otherwise exactly that victim cell empties, the victim loses one cow, capture mode ends, and turn, phase, counters and selection stay |
| Game.PlaceStep | index.js:210-238 | an occupied or off-board point, or a seat with twelve placed, leaves the state unchanged; otherwise only that cell gets the seat's cow and only the seat's counter rises, by one and to at most twelve; the turn passes iff no mill forms; a mill opens capture mode for the mover; movement starts iff both counters are twelve |
| Game.MoveStep | index.js:240-284 | a first click selects only a cell of the current seat; a second click always clears the selection; an invalid target changes nothing else; a valid move empties the source, fills the target, keeps both seats' counts, and passes the turn iff no mill forms, else opens capture mode for the mover |
| Game.MoveKeepsCounts | index.js:255-256 | moving a cow to an empty cell keeps both seats' cow counts |
| Game.Step | index.js:179-285 | the phase never returns to placement and changes only when both counters are twelve; counters never fall, rise by at most one, and never pass twelve; the turn changes only outside capture mode and without opening it |
| Properties.InitValid | index.js:16-31 | the start state is valid and the board holds no cows |
| Properties.StepPreservesValid | index.js:179-285 | every click keeps the reachable-state invariant: counters at most twelve, movement iff both are twelve, capture mode owned by the seat on turn, a selection names a cow of the seat on turn, and no seat has more cows on the board than it placed |
| Properties.RunPreservesValid | index.js:179-285 | any sequence of clicks keeps that invariant |
| Properties.CaptureTakesFromOpponent | index.js:181-189 | a capture takes a cow of the seat not on turn, takes a mill-protected cow only when all of that seat's cows are protected, and keeps the capturer on turn |
| Properties.PlacementStall | index.js:210-212 | in placement, a seat on turn with twelve placed makes every click a no-op while the other seat has fewer than twelve |
| Properties.PlacementStallForever | index.js:210-212 | from such a state no sequence of clicks changes anything, so movement is never reached |
| Properties.LateMillStalls | index.js:181-189 | from the opening board with eleven placed each and P1 on turn, a valid state, P1's twelfth cow closing a mill and the capture that follows leave P1 on turn with twelve against eleven, and no later click changes the state |
| Properties.FewCowsNoMill | index.js:90-95 | a seat with fewer than three cows on the board closes no mill |
| Properties.RunAppend | index.js:179 | clicks are handled one after another: running two lists of clicks is running the second from where the first ends |
| Properties.LeadStalls | index.js:210-226 | once one seat has placed twelve, the other seat, with at least two still to place, makes a placement that closes no mill; the turn passes to the finished seat, the state stays valid and in placement, and no later click changes anything |
| Properties.QuietPlacement | index.js:210-226 | a placement on an empty point that closes no mill and is not the last cow of both allotments puts the cow down, raises the mover's counter and cow count by one, keeps the other seat's count, passes the turn and stays in placement |
| Properties.EarlyPlacement | index.js:210-226 | a seat with fewer than two cows on the board cannot close a mill with its placement, so the placement is quiet as above |
| Properties.OpeningScenario | index.js:210-238 | four alternating placements from the start give the expected board and counters |
| Properties.MillThenCaptureScenario | index.js:179-238 | P1 closing the mill 0-1-2 opens capture mode for P1; P1 takes P2's cow at 8, stays on turn and places again |
| Properties.ClosingMillScenario | index.js:214-220 | with P1 on 0 and 1 and P2 on 8 and 9, P1 placing at 2 closes a mill: P1 keeps the turn and capture mode opens for P1 |
| Properties.CaptureScenario | index.js:181-189 | P2 has no mill, so P1 may take P2's cow at 8; capture mode ends and P1 stays on turn |
| Properties.SecondSeatMillCatchesUp | index.js:179-238 | from a valid state with P1 at eleven placed, P2 at ten and P2 on turn, P2 closes 8-9-10, takes P1's cow at 0, places its twelfth cow, and P1's twelfth cow makes both counters twelve and starts movement: one P2 mill does not stall the game |
| Stall.FinalMills | index.js:90-95 | on the final board of the stalled game no mill is formed at any point outside 0-1-2, for either seat |
| Stall.StepLater | index.js:210-226 | each of the eighteen later clicks is a quiet placement that leads to the next state of the play |
| Stall.ReachableStall | index.js:179-238 | twenty-four clicks from the start reach a valid placement state with P1 on turn, twelve placed against eleven, from which no click changes anything |

## Left out

- Express static serving, the Socket.IO server, the connection and disconnect handlers and console logging (index.js:1-14, 168-177, 287-295) are I/O; the `boardUpdate` payload is a projection of `State` and is not modelled separately.
- The commented-out `getGameState`, `hasAnyLegalMove` and `checkWinner` (index.js:116-166, 191-195, 259-263) are dead code. So win/draw detection, variant negotiation and the AI opponent are not modelled: none of them exists in the running code.
- public/script.js is client rendering and click wiring; its move-target highlighting only mirrors the server rule.
- In movement the shipped client sends a `movePiece` event for the second click (public/script.js:97), and index.js has no handler for that event. The movement branch is modelled as the `placeCow` handler defines it, for any client that sends both movement clicks as `placeCow`.
- `pointId` values that are not integers (JavaScript would index with strings or fractions) are not modelled; the client only ever sends the integers 0-23.
- `selectedPoint` is typed as a board point: the handler only ever stores a `pointId` whose cell holds the current seat, so the JavaScript cases of an off-board selection (a `TypeError` on `adjacency[selectedPoint]`) cannot arise.
- The counters are unbounded naturals; the server's JavaScript numbers never leave 0-12, so no overflow is modelled.
