/**
 * The two sides (src/game/color.rs) and the two per-colour constants the rules
 * rely on, `get_home` and `get_direction`.  Those two helpers are not part of
 * this model's source; their values are the assumption stated on each.
 */
module Colors {
  /** Which player needs to make their move next. */
  datatype Color = White | Black

  /** Colour negation, `impl Not for Color`. */
  function Not(c: Color): (r: Color)
    ensures r != c
  {
    match c
    case White => Black
    case Black => White
  }

  lemma NotWhite()
    ensures Not(White) == Black
  {}

  lemma NotBlack()
    ensures Not(Black) == White
  {}

  /** Negation is an involution. */
  lemma NotNot(c: Color)
    ensures Not(Not(c)) == c
  {}

  /**
   * Assumed: the row of a colour's back rank.  White's pieces start on row 0 and
   * Black's on row 7 (`from_start`), and castling requires the king on this row.
   */
  function Home(c: Color): (row: int)
    ensures row == 0 || row == 7
  {
    match c
    case White => 0
    case Black => 7
  }

  /**
   * Assumed: the row step of a pawn of this colour, towards the opponent's home
   * row (`pawn_advance` steps by it and promotes on the opponent's home row).
   */
  function Direction(c: Color): (d: int)
    ensures d == 1 || d == -1
  {
    match c
    case White => 1
    case Black => -1
  }

  /**
   * The two assumptions agree: seven steps in a colour's direction lead from
   * its home row to the opponent's, and the directions are opposite.
   */
  lemma HomeAndDirection(c: Color)
    ensures Home(c) + 7 * Direction(c) == Home(Not(c))
    ensures Direction(Not(c)) == -Direction(c)
    ensures Home(c) != Home(Not(c))
  {}
}
