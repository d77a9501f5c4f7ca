// Building a position from the record: squares, moves, the initial
// position (a preset, or an explicit board with hands), and the replay of
// the main line.

module ShogiCoreFrom {
  import opened Jkf
  import opened Core
  import opened Errors
  import Tables

  /** A record square becomes a board square when both coordinates are 1..9. */
  function SquareOf(pf: PlaceFormat): (r: Result<Square, ConvertError>)
    ensures r.Ok? <==> 1 <= pf.x <= 9 && 1 <= pf.y <= 9
    ensures r.Ok? ==> r.value.file == pf.x && r.value.rank == pf.y
    ensures r.Err? ==> r.error == InvalidPlace(pf.x, pf.y)
  {
    if 1 <= pf.x <= 9 && 1 <= pf.y <= 9 then Ok(Square(pf.x, pf.y)) else Err(InvalidPlace(pf.x, pf.y))
  }

  /**
   * A record move with an origin is a normal move (promote defaults to false);
   * one without is a drop of the mover's piece. The origin is checked before
   * the destination.
   */
  function MoveOf(mmf: MoveMoveFormat): (r: Result<CoreMove, ConvertError>)
    ensures mmf.from.Some? ==>
      (r.Ok? <==> SquareOf(mmf.from.value).Ok? && SquareOf(mmf.to).Ok?)
    ensures mmf.from.Some? && r.Ok? ==>
      r.value == Normal(SquareOf(mmf.from.value).value, SquareOf(mmf.to).value, UnwrapOr(mmf.promote, false))
    ensures mmf.from.Some? && SquareOf(mmf.from.value).Err? ==> r == Err(SquareOf(mmf.from.value).error)
    ensures mmf.from.None? ==> (r.Ok? <==> SquareOf(mmf.to).Ok?)
    ensures mmf.from.None? && r.Ok? ==>
      r.value == Drop(CorePiece(mmf.piece, mmf.color), SquareOf(mmf.to).value)
    ensures r.Err? ==> r.error.InvalidPlace?
  {
    if mmf.from.Some? then
      var from := SquareOf(mmf.from.value);
      if from.Err? then Err(from.error)
      else
        var to := SquareOf(mmf.to);
        if to.Err? then Err(to.error)
        else Ok(Normal(from.value, to.value, UnwrapOr(mmf.promote, false)))
    else
      var to := SquareOf(mmf.to);
      if to.Err? then Err(to.error)
      else Ok(Drop(CorePiece(mmf.piece, mmf.color), to.value))
  }

  /** The seven hand counts of a record hand, in slot order FU KY KE GI KI KA HI. */
  function HandCounts(h: Hand): (c: seq<nat>)
    ensures |c| == 7
    ensures forall i | 0 <= i < 7 :: c[i] == HandCountOf(h, SlotKind(i))
  {
    [h.FU, h.KY, h.KE, h.GI, h.KI, h.KA, h.HI]
  }

  /** The first slot from i on whose count exceeds its capacity, or 7 when none does. */
  function FirstOverflow(c: seq<nat>, i: nat): (k: nat)
    requires |c| == 7 && i <= 7
    ensures i <= k <= 7
    ensures forall j | i <= j < k :: c[j] <= Capacity(j)
    ensures k < 7 ==> c[k] > Capacity(k)
    decreases 7 - i
  {
    if i == 7 then 7
    else if c[i] > Capacity(i) then i
    else FirstOverflow(c, i + 1)
  }

  /**
   * Loads a record hand into an empty hand piece by piece. It succeeds exactly
   * when every count fits its kind's capacity; otherwise it names the first
   * kind, in slot order, that does not fit.
   */
  function LoadedHand(h: Hand): (r: Result<CoreHand, ConvertError>)
    ensures r.Ok? <==> WithinCapacity(HandCounts(h))
    ensures r.Ok? ==> r.value == HandCounts(h)
    ensures r.Err? ==> exists k | 0 <= k < 7 ::
      r.error == InitialHands(SlotKind(k)) && HandCounts(h)[k] > Capacity(k) &&
      forall j | 0 <= j < k :: HandCounts(h)[j] <= Capacity(j)
  {
    var c := HandCounts(h);
    var k := FirstOverflow(c, 0);
    if k == 7 then
      var ok: CoreHand := c;
      Ok(ok)
    else Err(InitialHands(SlotKind(k)))
  }

  /** Cell i, j of a record board as a position cell (board[x-1][y-1] is square x, y). */
  function BoardOfState(b: Board): (r: CoreBoard)
    ensures forall i, j | 0 <= i < 9 && 0 <= j < 9 :: r[i][j] == CellOf(b[i][j])
  {
    seq(9, i requires 0 <= i < 9 => seq(9, j requires 0 <= j < 9 => CellOf(b[i][j])))
  }

  /** The position described by explicit data: its board, hands and side to move. */
  function StatePosition(s: StateFormat): (r: Result<PartialPosition, ConvertError>)
    ensures r.Ok? <==> LoadedHand(s.hands[0]).Ok? && LoadedHand(s.hands[1]).Ok?
    ensures r.Ok? ==> r.value.board == BoardOfState(s.board) && r.value.side == s.color
    ensures r.Ok? ==> r.value.lastMove.None?
    ensures r.Ok? ==> forall c: Color :: HandOfPlayer(r.value, c) == HandCounts(HandOf(s.hands, c))
    ensures r.Err? && LoadedHand(s.hands[0]).Err? ==> r.error == LoadedHand(s.hands[0]).error
    ensures r.Err? && LoadedHand(s.hands[0]).Ok? ==> r.error == LoadedHand(s.hands[1]).error
  {
    var black := LoadedHand(s.hands[0]);
    if black.Err? then Err(black.error)
    else
      var white := LoadedHand(s.hands[1]);
      if white.Err? then Err(white.error)
      else Ok(PartialPosition(BoardOfState(s.board), [black.value, white.value], s.color, None))
  }

  /** The squares a handicap preset removes from the opening position. */
  function HandicapSquares(p: Preset): Option<seq<Square>>
  {
    match p
    case PresetKY => Some([Square(1, 1)])
    case PresetKYR => Some([Square(9, 1)])
    case PresetKA => Some([Square(2, 2)])
    case PresetHI => Some([Square(8, 2)])
    case PresetHIKY => Some([Square(8, 2), Square(1, 1)])
    case Preset2 => Some([Square(8, 2), Square(2, 2)])
    case Preset4 => Some([Square(8, 2), Square(2, 2), Square(9, 1), Square(1, 1)])
    case Preset6 => Some([Square(8, 2), Square(2, 2), Square(9, 1), Square(1, 1), Square(8, 1), Square(2, 1)])
    case Preset8 => Some([Square(8, 2), Square(2, 2), Square(9, 1), Square(1, 1), Square(8, 1), Square(2, 1),
                          Square(7, 1), Square(3, 1)])
    case Preset10 => Some([Square(8, 2), Square(2, 2), Square(9, 1), Square(1, 1), Square(8, 1), Square(2, 1),
                           Square(7, 1), Square(3, 1), Square(6, 1), Square(4, 1)])
    case _ => None
  }

  /** The opening position without the given squares, White (the giver) to move. */
  function HandicapPosition(sqs: seq<Square>): (r: PartialPosition)
    ensures forall sq: Square :: PieceAt(r, sq) == (if sq in sqs then None else PieceAt(StartPosition(), sq))
    ensures r.hands == StartPosition().hands && r.side == White && r.lastMove.None?
  {
    var start := StartPosition();
    var b := seq(9, i requires 0 <= i < 9 =>
      seq(9, j requires 0 <= j < 9 => if Square(i + 1, j + 1) in sqs then None else start.board[i][j]));
    PartialPosition(b, start.hands, White, None)
  }

  /**
   * The position an initial stands for: Hirate is the opening position,
   * PresetOther needs data, a supported handicap removes its squares, and the
   * remaining presets (3, 5, 5L, 7L, 7R) are not supported.
   */
  function PositionOfInitial(init: Initial): (r: Result<PartialPosition, ConvertError>)
    ensures init.preset == PresetHirate ==> r == Ok(StartPosition())
    ensures init.preset == PresetOther && init.data.None? ==> r == Err(InitialBoardNoDataWithPresetOTHER)
    ensures init.preset == PresetOther && init.data.Some? ==> r == StatePosition(init.data.value)
    ensures init.preset !in {PresetHirate, PresetOther} ==>
      (r.Ok? <==> HandicapSquares(init.preset).Some?) &&
      (r.Ok? ==> r.value == HandicapPosition(HandicapSquares(init.preset).value)) &&
      (r.Err? ==> r.error == UnsupportedPreset(init.preset))
    ensures r.Ok? ==> r.value.lastMove.None?
  {
    if init.preset == PresetHirate then Ok(StartPosition())
    else if init.preset == PresetOther then
      if init.data.None? then Err(InitialBoardNoDataWithPresetOTHER) else StatePosition(init.data.value)
    else
      var sqs := HandicapSquares(init.preset);
      if sqs.None? then Err(UnsupportedPreset(init.preset)) else Ok(HandicapPosition(sqs.value))
  }

  /** Places the cells of a record board one square at a time onto the empty position. */
  method PlaceBoard(b: Board) returns (pos: PartialPosition)
    ensures pos == EmptyPosition().(board := BoardOfState(b))
  {
    pos := EmptyPosition();
    var i := 0;
    while i < 9
      invariant 0 <= i <= 9
      invariant pos.hands == EmptyPosition().hands && pos.side == Black && pos.lastMove.None?
      invariant forall x, y | 0 <= x < 9 && 0 <= y < 9 ::
        pos.board[x][y] == if x < i then CellOf(b[x][y]) else None
    {
      var j := 0;
      while j < 9
        invariant 0 <= j <= 9
        invariant pos.hands == EmptyPosition().hands && pos.side == Black && pos.lastMove.None?
        invariant forall x, y | 0 <= x < 9 && 0 <= y < 9 ::
          pos.board[x][y] == if x < i || (x == i && y < j) then CellOf(b[x][y]) else None
      {
        var sq := SquareOf(PlaceFormat(i + 1, j + 1)).value;
        var p := b[i][j];
        if p.kind.Some? && p.color.Some? {
          pos := PieceSet(pos, sq, Some(CorePiece(p.kind.value, p.color.value)));
        }
        j := j + 1;
      }
      i := i + 1;
    }
    BoardExtensional(pos.board, BoardOfState(b));
  }

  /** Adds n pieces of the kind in slot k to a hand, one at a time, failing at capacity. */
  method AddPieces(hand: CoreHand, k: nat, n: nat) returns (r: Option<CoreHand>)
    requires k < 7 && hand[k] == 0
    ensures r.Some? <==> n <= Capacity(k)
    ensures r.Some? ==> r.value == hand[k := n]
  {
    var h := hand;
    var i := 0;
    while i < n
      invariant 0 <= i <= n && i <= Capacity(k)
      invariant h == hand[k := i]
    {
      var added := HandAdded(h, SlotKind(k));
      if added.None? {
        return None;
      }
      h := added.value;
      i := i + 1;
    }
    return Some(h);
  }

  /** Adds a record hand's counts to an empty hand kind by kind, in slot order. */
  method LoadHand(h: Hand) returns (r: Result<CoreHand, ConvertError>)
    ensures r == LoadedHand(h)
  {
    var counts := HandCounts(h);
    var hand := EmptyCoreHand();
    var k := 0;
    while k < 7
      invariant 0 <= k <= 7
      invariant LoadedUpTo(hand, counts, k)
      invariant FirstOverflow(counts, 0) >= k
    {
      OverflowAt(counts, k);
      var added := AddPieces(hand, k, counts[k]);
      if added.None? {
        return Err(InitialHands(SlotKind(k)));
      }
      LoadedStep(hand, counts, k);
      hand := added.value;
      k := k + 1;
    }
    assert hand == counts;
    return Ok(hand);
  }

  /** Slots before k hold their counts, the others are still empty. */
  ghost predicate LoadedUpTo(hand: CoreHand, counts: seq<nat>, k: nat)
  {
    |counts| == 7 && k <= 7 &&
    (forall j | 0 <= j < k :: hand[j] == counts[j]) && (forall j | k <= j < 7 :: hand[j] == 0)
  }

  lemma LoadedStep(hand: CoreHand, counts: seq<nat>, k: nat)
    requires LoadedUpTo(hand, counts, k) && k < 7 && counts[k] <= Capacity(k)
    ensures hand[k] == 0
    ensures var next := hand[k := counts[k]]; WithinCapacity(next) && LoadedUpTo(next, counts, k + 1)
  {
  }

  /** With no overflow before slot k, slot k either is the first overflow or lies before it. */
  lemma OverflowAt(c: seq<nat>, k: nat)
    requires |c| == 7 && k < 7 && FirstOverflow(c, 0) >= k
    ensures c[k] > Capacity(k) ==> FirstOverflow(c, 0) == k
    ensures c[k] <= Capacity(k) ==> FirstOverflow(c, 0) > k
  {
  }

  /** Removes the given squares from a position one at a time. */
  method ClearSquares(p: PartialPosition, sqs: seq<Square>) returns (q: PartialPosition)
    ensures forall sq: Square :: PieceAt(q, sq) == (if sq in sqs then None else PieceAt(p, sq))
    ensures q.hands == p.hands && q.side == p.side && q.lastMove == p.lastMove
  {
    q := p;
    var k := 0;
    while k < |sqs|
      invariant 0 <= k <= |sqs|
      invariant q.hands == p.hands && q.side == p.side && q.lastMove == p.lastMove
      invariant forall sq: Square :: PieceAt(q, sq) == (if sq in sqs[..k] then None else PieceAt(p, sq))
    {
      q := PieceSet(q, sqs[k], None);
      assert sqs[..k + 1] == sqs[..k] + [sqs[k]];
      k := k + 1;
    }
    assert sqs[..k] == sqs;
  }

  /** Positions that agree on every square, the hands, the side and the last move are equal. */
  lemma PositionExtensional(a: PartialPosition, b: PartialPosition)
    requires forall sq: Square :: PieceAt(a, sq) == PieceAt(b, sq)
    requires a.hands == b.hands && a.side == b.side && a.lastMove == b.lastMove
    ensures a == b
  {
    forall i, j | 0 <= i < 9 && 0 <= j < 9
      ensures a.board[i][j] == b.board[i][j]
    {
      assert PieceAt(a, Square(i + 1, j + 1)) == PieceAt(b, Square(i + 1, j + 1));
    }
    BoardExtensional(a.board, b.board);
  }

  /**
   * Builds the position an initial stands for, by the source's steps: piece by
   * piece for explicit data, square by square for a handicap.
   */
  method PositionFromInitial(init: Initial) returns (r: Result<PartialPosition, ConvertError>)
    ensures r == PositionOfInitial(init)
  {
    if init.preset == PresetHirate {
      return Ok(StartPosition());
    } else if init.preset == PresetOther {
      if init.data.None? {
        return Err(InitialBoardNoDataWithPresetOTHER);
      }
      var data := init.data.value;
      var pos := PlaceBoard(data.board);
      var black := LoadHand(data.hands[0]);
      if black.Err? {
        return Err(black.error);
      }
      var white := LoadHand(data.hands[1]);
      if white.Err? {
        return Err(white.error);
      }
      pos := SetHandOfPlayer(pos, Black, black.value);
      pos := SetHandOfPlayer(pos, White, white.value);
      pos := pos.(side := data.color);
      assert pos.hands == [black.value, white.value];
      return Ok(pos);
    } else {
      var sqs := HandicapSquares(init.preset);
      if sqs.None? {
        return Err(UnsupportedPreset(init.preset));
      }
      var pos := ClearSquares(StartPosition().(side := White), sqs.value);
      PositionExtensional(pos, HandicapPosition(sqs.value));
      return Ok(pos);
    }
  }

  /** The squares of a list of board cells. */
  function SquaresOfCells(cells: seq<(nat, nat)>): (r: seq<Square>)
    requires forall c | c in cells :: c.0 < 9 && c.1 < 9
    ensures |r| == |cells|
    ensures forall k | 0 <= k < |cells| :: r[k] == Square(cells[k].0 + 1, cells[k].1 + 1)
    ensures forall i, j | 0 <= i < 9 && 0 <= j < 9 :: Square(i + 1, j + 1) in r <==> (i, j) in cells
  {
    var r := seq(|cells|, k requires 0 <= k < |cells| => Square(cells[k].0 + 1, cells[k].1 + 1));
    assert forall i, j | 0 <= i < 9 && 0 <= j < 9 :: Square(i + 1, j + 1) in r ==> (i, j) in cells by {
      forall i, j | 0 <= i < 9 && 0 <= j < 9 && Square(i + 1, j + 1) in r
        ensures (i, j) in cells
      {
        var k :| 0 <= k < |r| && r[k] == Square(i + 1, j + 1);
        assert cells[k] == (i, j);
      }
    }
    assert forall i, j | 0 <= i < 9 && 0 <= j < 9 :: (i, j) in cells ==> Square(i + 1, j + 1) in r by {
      forall i, j | 0 <= i < 9 && 0 <= j < 9 && (i, j) in cells
        ensures Square(i + 1, j + 1) in r
      {
        var k :| 0 <= k < |cells| && cells[k] == (i, j);
        assert r[k] == Square(i + 1, j + 1);
      }
    }
    r
  }

  /** A handicap table built from cells is the handicap position of the matching squares. */
  lemma HandicapStatePosition(cells: seq<(nat, nat)>)
    requires forall c | c in cells :: c.0 < 9 && c.1 < 9
    ensures StatePosition(Tables.HandicapState(cells)) == Ok(HandicapPosition(SquaresOfCells(cells)))
  {
    var s := Tables.HandicapState(cells);
    assert LoadedHand(EmptyHand()) == Ok(EmptyCoreHand());
    var a := StatePosition(s).value;
    var b := HandicapPosition(SquaresOfCells(cells));
    forall sq: Square
      ensures PieceAt(a, sq) == PieceAt(b, sq)
    {
      assert Square((sq.file - 1) + 1, (sq.rank - 1) + 1) == sq;
    }
    PositionExtensional(a, b);
  }

  lemma SquaresOfCellsIs(cells: seq<(nat, nat)>, sqs: seq<Square>)
    requires forall c | c in cells :: c.0 < 9 && c.1 < 9
    requires |cells| == |sqs|
    requires forall k | 0 <= k < |cells| :: sqs[k].file == cells[k].0 + 1 && sqs[k].rank == cells[k].1 + 1
    ensures SquaresOfCells(cells) == sqs
  {
  }

  /** The handicap squares of the position builder are the cells of the normalizer's tables. */
  lemma HandicapSquaresAgree(p: Preset)
    requires Tables.HandicapCells(p).Some?
    ensures HandicapSquares(p) == Some(SquaresOfCells(Tables.HandicapCells(p).value))
  {
    SquaresOfCellsIs(Tables.HandicapCells(p).value, HandicapSquares(p).value);
  }

  /** The Hirate table describes the opening position. */
  lemma HirateMatchesTable()
    ensures StatePosition(Tables.StateHirate()) == Ok(StartPosition())
  {
    assert LoadedHand(EmptyHand()) == Ok(EmptyCoreHand());
    var b := StatePosition(Tables.StateHirate()).value;
    PositionExtensional(StartPosition(), b);
  }

  /** Each handicap table of the normalizer describes the same position as the preset it names. */
  lemma HandicapMatchesTables(p: Preset)
    requires Tables.PresetState(p).Some?
    ensures PositionOfInitial(Initial(p, None)) == PositionOfInitial(Initial(PresetOther, Tables.PresetState(p)))
  {
    if p == PresetHirate {
      HirateMatchesTable();
    } else {
      var cells := Tables.HandicapCells(p).value;
      var state := Tables.HandicapState(cells);
      assert Tables.PresetState(p) == Some(state);
      HandicapPresetMatches(p);
      assert PositionOfInitial(Initial(PresetOther, Some(state))) == StatePosition(state);
    }
  }

  lemma HandicapPresetMatches(p: Preset)
    requires Tables.HandicapCells(p).Some?
    ensures PositionOfInitial(Initial(p, None)) == StatePosition(Tables.HandicapState(Tables.HandicapCells(p).value))
  {
    var cells := Tables.HandicapCells(p).value;
    assert p != PresetHirate && p != PresetOther;
    HandicapSquaresAgree(p);
    HandicapStatePosition(cells);
  }

  /** The moves of the entries that carry one, in order; forks are not looked at. */
  function EntryMoves(moves: seq<MoveFormat>): (r: seq<MoveMoveFormat>)
    ensures |r| <= |moves|
    decreases |moves|
  {
    if moves == [] then []
    else (if moves[0].move.Some? then [moves[0].move.value] else []) + EntryMoves(moves[1..])
  }

  /**
   * Plays the moves of a main line in order from a game. Entries without a
   * move are skipped; the first move that does not convert or cannot be made
   * stops the replay with that failure.
   */
  function ReplayEntries(g: Position, moves: seq<MoveFormat>): (r: Result<Position, ConvertError>)
    requires CurrentOf(g).Some?
    ensures r.Ok? ==> r.value.initial == g.initial && CurrentOf(r.value).Some?
    ensures r.Err? ==> r.error.InvalidPlace? || r.error.MakeMoveFailed?
    decreases |moves|
  {
    if moves == [] then Ok(g)
    else if moves[0].move.None? then ReplayEntries(g, moves[1..])
    else
      var mv := MoveOf(moves[0].move.value);
      if mv.Err? then Err(mv.error)
      else
        var g' := PositionMakeMove(g, mv.value);
        if g'.None? then Err(MakeMoveFailed(mv.value))
        else ReplayEntries(g'.value, moves[1..])
  }

  /** The moves converted one by one, or None when one of them does not convert. */
  function ConvertedMoves(mms: seq<MoveMoveFormat>): (r: Option<seq<CoreMove>>)
    ensures r.Some? ==> |r.value| == |mms|
    ensures r.Some? ==> forall k | 0 <= k < |mms| :: MoveOf(mms[k]) == Ok(r.value[k])
    decreases |mms|
  {
    if mms == [] then Some([])
    else
      var mv := MoveOf(mms[0]);
      var rest := ConvertedMoves(mms[1..]);
      if mv.Err? || rest.None? then None else Some([mv.value] + rest.value)
  }

  lemma ConsConverted(mm: MoveMoveFormat, mms: seq<MoveMoveFormat>, mv: CoreMove, done: seq<CoreMove>, rest: seq<CoreMove>)
    requires MoveOf(mm) == Ok(mv) && ConvertedMoves(mms) == Some(rest)
    ensures ConvertedMoves([mm] + mms) == Some([mv] + rest)
    ensures (done + [mv]) + rest == done + ([mv] + rest)
  {
    assert ([mm] + mms)[1..] == mms;
  }

  /**
   * A successful replay extends the game by exactly the converted moves of
   * the entries that carry one, in order.
   */
  lemma {:induction false} ReplayEntriesPlaysEntryMoves(g: Position, moves: seq<MoveFormat>)
    requires CurrentOf(g).Some?
    requires ReplayEntries(g, moves).Ok?
    ensures ConvertedMoves(EntryMoves(moves)).Some?
    ensures ReplayEntries(g, moves).value.moves == g.moves + ConvertedMoves(EntryMoves(moves)).value
    decreases |moves|
  {
    if moves == [] {
      assert g.moves + [] == g.moves;
    } else if moves[0].move.None? {
      ReplayEntriesPlaysEntryMoves(g, moves[1..]);
      assert EntryMoves(moves) == [] + EntryMoves(moves[1..]) == EntryMoves(moves[1..]);
    } else {
      var mv := MoveOf(moves[0].move.value).value;
      var g' := PositionMakeMove(g, mv).value;
      ReplayEntriesPlaysEntryMoves(g', moves[1..]);
      assert EntryMoves(moves) == [moves[0].move.value] + EntryMoves(moves[1..]);
      ConsConverted(moves[0].move.value, EntryMoves(moves[1..]), mv, g.moves, ConvertedMoves(EntryMoves(moves[1..])).value);
    }
  }

  /** The game a record describes: its initial position (Hirate when absent) and its main line. */
  function PositionOfRecord(jkf: JsonKifuFormat): (r: Result<Position, ConvertError>)
  {
    var init := if jkf.initial.Some? then PositionOfInitial(jkf.initial.value) else Ok(StartPosition());
    if init.Err? then Err(init.error)
    else ReplayEntries(Position(init.value, []), jkf.moves)
  }

  /** Builds the game a record describes, calling `make_move` entry by entry. */
  method PositionFromRecord(jkf: JsonKifuFormat) returns (r: Result<Position, ConvertError>)
    ensures r == PositionOfRecord(jkf)
  {
    var init := StartPosition();
    if jkf.initial.Some? {
      var p := PositionFromInitial(jkf.initial.value);
      if p.Err? {
        return Err(p.error);
      }
      init := p.value;
    }
    var g := Position(init, []);
    ghost var g0 := g;
    var i := 0;
    while i < |jkf.moves|
      invariant 0 <= i <= |jkf.moves|
      invariant CurrentOf(g).Some?
      invariant ReplayEntries(g0, jkf.moves) == ReplayEntries(g, jkf.moves[i..])
    {
      assert jkf.moves[i..][1..] == jkf.moves[i + 1..];
      var entry := jkf.moves[i];
      if entry.move.Some? {
        var mv := MoveOf(entry.move.value);
        if mv.Err? {
          return Err(mv.error);
        }
        var g' := PositionMakeMove(g, mv.value);
        if g'.None? {
          return Err(MakeMoveFailed(mv.value));
        }
        g := g'.value;
      }
      i := i + 1;
    }
    return Ok(g);
  }

  /** The default record describes the opening position with no moves played. */
  lemma DefaultRecordPosition()
    ensures PositionOfRecord(DefaultRecord()) == Ok(Position(StartPosition(), []))
  {
    var d := DefaultRecord();
    assert d.moves[1..] == [];
  }
}
