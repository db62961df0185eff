/** Small shared vocabulary: nullable values and the two seats. */
module Base {

  /** A value that may be absent; stands for the server's `null`. */
  datatype Option<+T> = None | Some(value: T)

  /** The two seats, "P1" and "P2" in the server. */
  datatype Player = P1 | P2

  /** The seat that is not `p` (the server's `p === "P1" ? "P2" : "P1"`). */
  function Other(p: Player): (q: Player)
    ensures q != p
  {
    if p == P1 then P2 else P1
  }
}
