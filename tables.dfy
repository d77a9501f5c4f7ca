// The standard opening arrangement and the handicap positions that the
// normalizer recognises and collapses back to preset names.

module Tables {
  import opened Jkf

  function BP(k: Kind): Piece { Piece(Some(Black), Some(k)) }
  function WP(k: Kind): Piece { Piece(Some(White), Some(k)) }

  /** The opening arrangement, indexed board[x-1][y-1] (file x, rank y). */
  function HirateBoard(): Board
  {
    var e := EmptyPiece();
    [
      [WP(KY), e, WP(FU), e, e, e, BP(FU), e, BP(KY)],
      [WP(KE), WP(KA), WP(FU), e, e, e, BP(FU), BP(HI), BP(KE)],
      [WP(GI), e, WP(FU), e, e, e, BP(FU), e, BP(GI)],
      [WP(KI), e, WP(FU), e, e, e, BP(FU), e, BP(KI)],
      [WP(OU), e, WP(FU), e, e, e, BP(FU), e, BP(OU)],
      [WP(KI), e, WP(FU), e, e, e, BP(FU), e, BP(KI)],
      [WP(GI), e, WP(FU), e, e, e, BP(FU), e, BP(GI)],
      [WP(KE), WP(HI), WP(FU), e, e, e, BP(FU), BP(KA), BP(KE)],
      [WP(KY), e, WP(FU), e, e, e, BP(FU), e, BP(KY)]
    ]
  }

  /** A board with the listed cells (board indices, not squares) emptied. */
  function Cleared(b: Board, cells: seq<(nat, nat)>): (r: Board)
    requires forall c | c in cells :: c.0 < 9 && c.1 < 9
    ensures forall i, j | 0 <= i < 9 && 0 <= j < 9 ::
      r[i][j] == (if (i, j) in cells then EmptyPiece() else b[i][j])
    decreases |cells|
  {
    if cells == [] then b
    else
      var (i, j) := cells[|cells| - 1];
      var b' := Cleared(b, cells[..|cells| - 1]);
      b'[i := b'[i][j := EmptyPiece()]]
  }

  function NoHands(): Hands
  {
    [EmptyHand(), EmptyHand()]
  }

  function StateHirate(): StateFormat
  {
    StateFormat(Black, HirateBoard(), NoHands())
  }

  /** A handicap table: the opening board minus some cells, White (the giver) to move. */
  function HandicapState(cells: seq<(nat, nat)>): StateFormat
    requires forall c | c in cells :: c.0 < 9 && c.1 < 9
  {
    StateFormat(White, Cleared(HirateBoard(), cells), NoHands())
  }

  /**
   * The cells each handicap table empties, listed in the order the position
   * builder removes the matching squares. Kyo-ochi on the right (KYR) has no
   * table.
   */
  function HandicapCells(p: Preset): (r: Option<seq<(nat, nat)>>)
    ensures r.Some? ==> forall c | c in r.value :: c.0 < 9 && c.1 < 9
  {
    match p
    case PresetKY => Some([(0, 0)])
    case PresetKA => Some([(1, 1)])
    case PresetHI => Some([(7, 1)])
    case PresetHIKY => Some([(7, 1), (0, 0)])
    case Preset2 => Some([(7, 1), (1, 1)])
    case Preset4 => Some([(7, 1), (1, 1), (8, 0), (0, 0)])
    case Preset6 => Some([(7, 1), (1, 1), (8, 0), (0, 0), (7, 0), (1, 0)])
    case Preset8 => Some([(7, 1), (1, 1), (8, 0), (0, 0), (7, 0), (1, 0), (6, 0), (2, 0)])
    case Preset10 => Some([(7, 1), (1, 1), (8, 0), (0, 0), (7, 0), (1, 0), (6, 0), (2, 0), (5, 0), (3, 0)])
    case _ => None
  }

  /** The table each collapsible preset is recognised by; other presets have none. */
  function PresetState(p: Preset): Option<StateFormat>
  {
    if p == PresetHirate then Some(StateHirate())
    else
      var cells := HandicapCells(p);
      if cells.Some? then Some(HandicapState(cells.value)) else None
  }
}
