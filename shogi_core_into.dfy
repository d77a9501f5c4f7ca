// Writing a position back as a record: the hands, the initial position as
// explicit data, one entry per move played (a drop marked by the origin
// (0, 0), which no square has), and then the normalizer over the result.

module ShogiCoreInto {
  import opened Jkf
  import opened Core
  import opened Errors
  import opened ShogiCoreFrom
  import opened Normalizer
  import Tables

  /** A position hand as a record hand: the count of each of the seven kinds. */
  function HandToJkf(h: CoreHand): (r: Hand)
    ensures HandCounts(r) == h
  {
    Hand(h[0], h[1], h[2], h[3], h[4], h[5], h[6])
  }

  /** Loading a written hand gives back the hand. */
  lemma HandRoundTrip(h: CoreHand, r: Hand)
    ensures LoadedHand(HandToJkf(h)) == Ok(h)
    ensures WithinCapacity(HandCounts(r)) ==> HandToJkf(LoadedHand(r).value) == r
  {
  }

  /** A position cell as a record cell; an empty square has neither colour nor kind. */
  function PieceToJkf(pc: Option<CorePiece>): (r: Piece)
    ensures CellOf(r) == pc
    ensures pc.None? ==> r == EmptyPiece()
  {
    if pc.Some? then Piece(Some(pc.value.color), Some(pc.value.kind)) else EmptyPiece()
  }

  /** The record board of a position, cell i, j being square (i+1, j+1). */
  function BoardToJkf(p: PartialPosition): (b: Board)
    ensures forall i, j | 0 <= i < 9 && 0 <= j < 9 :: b[i][j] == PieceToJkf(p.board[i][j])
    ensures BoardOfState(b) == p.board
  {
    var b := seq(9, i requires 0 <= i < 9 => seq(9, j requires 0 <= j < 9 => PieceToJkf(p.board[i][j])));
    BoardExtensional(BoardOfState(b), p.board);
    b
  }

  /** A position as an initial: always PresetOther with its board, hands and side to move. */
  function InitialOf(p: PartialPosition): (r: Initial)
    ensures r.preset == PresetOther && r.data.Some? && r.data.value.color == p.side
    ensures BoardOfState(r.data.value.board) == p.board
    ensures forall c: Color :: HandCounts(HandOf(r.data.value.hands, c)) == HandOfPlayer(p, c)
  {
    Initial(PresetOther, Some(StateFormat(p.side, BoardToJkf(p), [HandToJkf(p.hands[0]), HandToJkf(p.hands[1])])))
  }

  /** Writes the occupied squares of a position into an empty record board, square by square. */
  method InitialFromPosition(p: PartialPosition) returns (r: Initial)
    ensures r == InitialOf(p)
  {
    var board: Board := EmptyBoard();
    var f := 0;
    while f < 9
      invariant 0 <= f <= 9
      invariant forall i, j | 0 <= i < 9 && 0 <= j < 9 ::
        board[i][j] == if i < f then PieceToJkf(p.board[i][j]) else EmptyPiece()
    {
      var k := 0;
      while k < 9
        invariant 0 <= k <= 9
        invariant forall i, j | 0 <= i < 9 && 0 <= j < 9 ::
          board[i][j] == if i < f || (i == f && j < k) then PieceToJkf(p.board[i][j]) else EmptyPiece()
      {
        var pc := PieceAt(p, Square(f + 1, k + 1));
        if pc.Some? {
          var row: Row := board[f][k := PieceToJkf(pc)];
          board := board[f := row];
        }
        k := k + 1;
      }
      f := f + 1;
    }
    forall i | 0 <= i < 9
      ensures board[i] == BoardToJkf(p)[i]
    {
      assert forall j | 0 <= j < 9 :: board[i][j] == BoardToJkf(p)[i][j];
    }
    assert board == BoardToJkf(p);
    var hands: Hands := [HandToJkf(HandOfPlayer(p, Black)), HandToJkf(HandOfPlayer(p, White))];
    r := Initial(PresetOther, Some(StateFormat(p.side, board, hands)));
  }

  /** The initial of a position with no last move describes that same position. */
  lemma InitialRoundTrip(p: PartialPosition)
    requires p.lastMove.None?
    ensures PositionOfInitial(InitialOf(p)) == Ok(p)
  {
    var s := InitialOf(p).data.value;
    HandRoundTrip(p.hands[0], s.hands[0]);
    HandRoundTrip(p.hands[1], s.hands[1]);
    var q := StatePosition(s).value;
    assert q.hands == [p.hands[0], p.hands[1]] == p.hands;
  }

  /** An entry that carries only a move. */
  function EntryOf(mmf: MoveMoveFormat): (mf: MoveFormat)
    ensures mf.move == Some(mmf) && mf == DefaultMove().(move := Some(mmf))
  {
    MoveFormat(Some(mmf), None, None, None, NoForks)
  }

  /**
   * A position's move as a record move, before normalization: a normal move
   * names the kind standing on its origin (failing when there is none) and
   * keeps `promote`; a drop gets the origin (0, 0).
   */
  function EncodedMove(p: PartialPosition, mv: CoreMove): (r: Result<MoveMoveFormat, ConvertError>)
    ensures r.Err? <==> mv.Normal? && PieceAt(p, mv.from).None?
    ensures r.Err? ==> r.error == NoPieceAt(mv.from)
    ensures r.Ok? ==> (r.value.color == p.side && r.value.to == PlaceOf(MoveTo(mv)) &&
      r.value.same.None? && r.value.capture.None? && r.value.relative.None?)
    ensures r.Ok? && mv.Normal? ==> (r.value.from == Some(PlaceOf(mv.from)) &&
      r.value.piece == PieceAt(p, mv.from).value.kind && r.value.promote == Some(mv.promote))
    ensures r.Ok? && mv.Drop? ==> (r.value.from == Some(DefaultPlace()) &&
      r.value.piece == mv.piece.kind && r.value.promote.None?)
  {
    match mv
    case Normal(from, to, promote) =>
      var piece := PieceAt(p, from);
      if piece.None? then Err(NoPieceAt(from))
      else Ok(MoveMoveFormat(p.side, Some(PlaceOf(from)), PlaceOf(to), piece.value.kind, None, Some(promote), None, None))
    case Drop(piece, to) =>
      Ok(MoveMoveFormat(p.side, Some(PlaceFormat(0, 0)), PlaceOf(to), piece.kind, None, None, None, None))
  }

  /**
   * The entries for the moves of a game, each encoded in the position it is
   * played in. It succeeds exactly when every move can be made.
   */
  function EncodedMoves(p: PartialPosition, moves: seq<CoreMove>): (r: Result<seq<MoveFormat>, ConvertError>)
    ensures r.Ok? ==> |r.value| == |moves|
    ensures r.Err? ==> r.error.NoPieceAt? || r.error.MakeMoveFailed?
    decreases |moves|
  {
    if moves == [] then Ok([])
    else
      var mmf := EncodedMove(p, moves[0]);
      if mmf.Err? then Err(mmf.error)
      else
        var q := MakeMove(p, moves[0]);
        if q.None? then Err(MakeMoveFailed(moves[0]))
        else
          var rest := EncodedMoves(q.value, moves[1..]);
          if rest.Err? then rest else Ok([EntryOf(mmf.value)] + rest.value)
  }

  /** One step of the encoding, unfolded. */
  lemma EncodedMovesStep(p: PartialPosition, moves: seq<CoreMove>)
    requires moves != []
    ensures EncodedMoves(p, moves) ==
      if EncodedMove(p, moves[0]).Err? then Err(EncodedMove(p, moves[0]).error)
      else if MakeMove(p, moves[0]).None? then Err(MakeMoveFailed(moves[0]))
      else Prepended([EntryOf(EncodedMove(p, moves[0]).value)], EncodedMoves(MakeMove(p, moves[0]).value, moves[1..]))
  {
  }

  /** Encoding succeeds exactly when every move of the game can be made. */
  lemma {:induction false} EncodedMovesSucceed(p: PartialPosition, moves: seq<CoreMove>)
    ensures EncodedMoves(p, moves).Ok? <==> Replay(p, moves).Some?
    decreases |moves|
  {
    if moves != [] {
      var q := MakeMove(p, moves[0]);
      if q.Some? {
        EncodedMovesSucceed(q.value, moves[1..]);
      }
    }
  }

  /**
   * The record of a game: an empty header, its initial position as data, a
   * placeholder entry and one entry per move, then normalized; a failed
   * normalization is reported as such.
   */
  function RecordOfPosition(cands: Candidates, display: Display, g: Position)
    : (r: Result<JsonKifuFormat, ConvertError>)
    ensures Replay(g.initial, g.moves).None? ==> r.Err? && (r.error.NoPieceAt? || r.error.MakeMoveFailed?)
    ensures r.Ok? ==> r.value.header == map[] && r.value.initial == NormalizedInitial(Some(InitialOf(g.initial)))
    ensures r.Ok? ==> |r.value.moves| == |g.moves| + 1 && r.value.moves[0] == DefaultMove()
  {
    EncodedMovesSucceed(g.initial, g.moves);
    var entries := EncodedMoves(g.initial, g.moves);
    if entries.Err? then Err(entries.error)
    else
      var n := Normalized(cands, display, JsonKifuFormat(map[], Some(InitialOf(g.initial)), [DefaultMove()] + entries.value));
      if n.Err? then Err(ConvertError.Normalize(n.error)) else Ok(n.value)
  }

  lemma PrependedStep(done: seq<MoveFormat>, e: MoveFormat, r: Result<seq<MoveFormat>, ConvertError>)
    ensures Prepended(done, Prepended([e], r)) == Prepended(done + [e], r)
  {
    if r.Ok? {
      assert (done + [e]) + r.value == done + ([e] + r.value);
    }
  }

  /** Encodes one move in the position it is played in. */
  method EncodeMove(p: PartialPosition, mv: CoreMove) returns (r: Result<MoveMoveFormat, ConvertError>)
    ensures r == EncodedMove(p, mv)
  {
    match mv {
      case Normal(from, to, promote) =>
        var piece := PieceAt(p, from);
        if piece.None? {
          return Err(NoPieceAt(from));
        }
        return Ok(MoveMoveFormat(p.side, Some(PlaceOf(from)), PlaceOf(to), piece.value.kind, None, Some(promote), None, None));
      case Drop(piece, to) =>
        return Ok(MoveMoveFormat(p.side, Some(PlaceFormat(0, 0)), PlaceOf(to), piece.kind, None, None, None, None));
    }
  }

  function Prepended(done: seq<MoveFormat>, r: Result<seq<MoveFormat>, ConvertError>)
    : Result<seq<MoveFormat>, ConvertError>
  {
    if r.Err? then r else Ok(done + r.value)
  }

  /** Encodes the moves of a game one by one, replaying them on a copy of the initial position. */
  method EncodeMoves(p: PartialPosition, moves: seq<CoreMove>) returns (r: Result<seq<MoveFormat>, ConvertError>)
    ensures r == EncodedMoves(p, moves)
  {
    var entries: seq<MoveFormat> := [];
    var pp := p;
    var i := 0;
    ghost var all := EncodedMoves(p, moves);
    if all.Ok? {
      assert [] + all.value == all.value;
    }
    while i < |moves|
      invariant 0 <= i <= |moves|
      invariant all == Prepended(entries, EncodedMoves(pp, moves[i..]))
    {
      var mv := moves[i];
      assert moves[i..][0] == mv && moves[i..][1..] == moves[i + 1..];
      EncodedMovesStep(pp, moves[i..]);
      var mmf := EncodeMove(pp, mv);
      if mmf.Err? {
        return Err(mmf.error);
      }
      var next := MakeMove(pp, mv);
      if next.None? {
        return Err(MakeMoveFailed(mv));
      }
      PrependedStep(entries, EntryOf(mmf.value), EncodedMoves(next.value, moves[i + 1..]));
      entries := entries + [EntryOf(mmf.value)];
      pp := next.value;
      i := i + 1;
    }
    assert moves[i..] == [] && entries + [] == entries;
    return Ok(entries);
  }

  /** Builds the record of a game: its entries, its initial as data, then normalization. */
  method PositionToRecord(cands: Candidates, display: Display, g: Position)
    returns (r: Result<JsonKifuFormat, ConvertError>)
    ensures r == RecordOfPosition(cands, display, g)
  {
    var entries := EncodeMoves(g.initial, g.moves);
    if entries.Err? {
      return Err(entries.error);
    }
    var initial := InitialFromPosition(g.initial);
    var jkf := JsonKifuFormat(map[], Some(initial), [DefaultMove()] + entries.value);
    var n := Normalizer.Normalize(cands, display, jkf);
    if n.Err? {
      return Err(ConvertError.Normalize(n.error));
    }
    return Ok(n.value);
  }

  // ------------------------------------------------------------ round trip

  /** A board square written as a record square reads back as itself. */
  lemma SquareRoundTrip(sq: Square)
    ensures SquareOf(PlaceOf(sq)) == Ok(sq)
  {
  }

  /**
   * A move that can be made, encoded and then normalized in the same
   * position, converts back to the same move: the origin of a drop is reset
   * and `promote` keeps its truth value.
   */
  lemma EncodedMoveNormalizes(cands: Candidates, display: Display, p: PartialPosition, mv: CoreMove)
    requires MakeMove(p, mv).Some?
    ensures EncodedMove(p, mv).Ok?
    ensures var n := NormalizedMove(cands, display, EncodedMove(p, mv).value, p);
      n.Ok? && MoveOf(n.value) == Ok(mv)
  {
    var mmf := EncodedMove(p, mv).value;
    var to := MoveTo(mv);
    SquareRoundTrip(to);
    assert Targeted(mmf, p) == Ok(mmf);
    var m3 := Completed(mmf, p, to);
    if mv.Normal? {
      SquareRoundTrip(mv.from);
      var k := PieceAt(p, mv.from).value.kind;
      if mv.promote {
        MakeMovePromotion(p, mv);
        assert PromoteOf(k, k, Some(true), mv.from, to, p.side) == Some(true);
      } else {
        assert UnwrapOr(PromoteOf(k, k, Some(false), mv.from, to, p.side), false) == false;
      }
      assert MoveOf(m3.value) == Ok(mv);
    } else {
      assert SquareOf(DefaultPlace()).Err?;
      assert m3 == Ok(mmf.(from := None));
      assert MoveOf(m3.value) == Ok(mv);
    }
    var n := NormalizedMove(cands, display, mmf, p);
    assert n.Ok? && (n.value == m3.value || n.value == m3.value.(relative := n.value.relative));
  }

  /** The normalized entry of a move that can be made replays that move. */
  lemma EncodedEntryStep(cands: Candidates, display: Display, p: PartialPosition, mv: CoreMove, totals: Totals)
    requires MakeMove(p, mv).Some?
    ensures EncodedMove(p, mv).Ok?
    ensures var nm := NormalizedMove(cands, display, EncodedMove(p, mv).value, p);
      nm.Ok? && MoveOf(nm.value) == Ok(mv) &&
      EntryStep(cands, display, EntryOf(EncodedMove(p, mv).value), Cursor(p, totals)) ==
        Ok((EntryOf(nm.value), Some(Cursor(MakeMove(p, mv).value, totals))))
  {
    EncodedMoveNormalizes(cands, display, p, mv);
  }

  /** Replaying an entry whose move converts to a move that can be made plays it. */
  lemma ReplayEntriesCons(g: Position, mf: MoveFormat, rest: seq<MoveFormat>, mv: CoreMove)
    requires CurrentOf(g).Some? && mf.move.Some? && MoveOf(mf.move.value) == Ok(mv)
    requires PositionMakeMove(g, mv).Some?
    ensures ReplayEntries(g, [mf] + rest) == ReplayEntries(PositionMakeMove(g, mv).value, rest)
  {
    assert ([mf] + rest)[1..] == rest;
  }

  lemma ConsMoves(done: seq<CoreMove>, moves: seq<CoreMove>)
    requires moves != []
    ensures (done + [moves[0]]) + moves[1..] == done + moves
  {
    assert moves == [moves[0]] + moves[1..];
  }

  /** The first encoded entry of a line and the encoding of the rest of its moves. */
  lemma EncodedTail(line: Variation, i: nat, p: PartialPosition, moves: seq<CoreMove>)
    requires i <= |line.moves| && moves != []
    requires EncodedMoves(p, moves).Ok? && line.moves[i..] == EncodedMoves(p, moves).value
    ensures MakeMove(p, moves[0]).Some? && EncodedMove(p, moves[0]).Ok?
    ensures i < |line.moves| && line.moves[i] == EntryOf(EncodedMove(p, moves[0]).value)
    ensures EncodedMoves(MakeMove(p, moves[0]).value, moves[1..]).Ok?
    ensures line.moves[i + 1..] == EncodedMoves(MakeMove(p, moves[0]).value, moves[1..]).value
  {
    var mmf := EncodedMove(p, moves[0]).value;
    var q := MakeMove(p, moves[0]).value;
    EncodedMovesStep(p, moves);
    var tail := EncodedMoves(q, moves[1..]).value;
    assert line.moves[i..] == [EntryOf(mmf)] + tail;
    assert line.moves[i] == line.moves[i..][0];
    assert line.moves[i + 1..] == line.moves[i..][1..];
  }

  /** One entry of an encoded line: it normalizes and replays its move, given that the rest does. */
  lemma EncodedLineStep(cands: Candidates, display: Display, line: Variation, i: nat,
                        p: PartialPosition, totals: Totals, mv: CoreMove, g: Position)
    requires i < |line.moves| && MakeMove(p, mv).Some? && CurrentOf(g) == Some(p)
    requires line.moves[i] == EntryOf(EncodedMove(p, mv).value)
    requires NormalizedLine(cands, display, line, i + 1, Cursor(MakeMove(p, mv).value, totals)).Ok?
    ensures NormalizedLine(cands, display, line, i, Cursor(p, totals)).Ok?
    ensures PositionMakeMove(g, mv).Some?
    ensures ReplayEntries(g, NormalizedLine(cands, display, line, i, Cursor(p, totals)).value) ==
      ReplayEntries(PositionMakeMove(g, mv).value,
                    NormalizedLine(cands, display, line, i + 1, Cursor(MakeMove(p, mv).value, totals)).value)
  {
    var q := MakeMove(p, mv).value;
    EncodedEntryStep(cands, display, p, mv, totals);
    var nm := NormalizedMove(cands, display, EncodedMove(p, mv).value, p).value;
    var rest := NormalizedLine(cands, display, line, i + 1, Cursor(q, totals)).value;
    assert NormalizedForks(cands, display, line.moves[i].forks, Cursor(p, totals)) == Ok(NoForks);
    LineCons(cands, display, line, i, Cursor(p, totals));
    assert EntryOf(nm).(forks := NoForks) == EntryOf(nm);
    ReplayEntriesCons(g, EntryOf(nm), rest, mv);
  }

  /**
   * The encoded entries of moves that can be made normalize without failure
   * from the position they were encoded in, and replaying the result plays
   * exactly those moves.
   */
  lemma {:induction false} EncodedLineReplays(cands: Candidates, display: Display, line: Variation, i: nat,
                                              p: PartialPosition, totals: Totals, moves: seq<CoreMove>, g: Position)
    requires i <= |line.moves|
    requires EncodedMoves(p, moves).Ok? && line.moves[i..] == EncodedMoves(p, moves).value
    requires CurrentOf(g) == Some(p)
    ensures NormalizedLine(cands, display, line, i, Cursor(p, totals)).Ok?
    ensures ReplayEntries(g, NormalizedLine(cands, display, line, i, Cursor(p, totals)).value) ==
      Ok(Position(g.initial, g.moves + moves))
    decreases |moves|
  {
    if moves == [] {
      assert |line.moves[i..]| == 0;
      assert g.moves + moves == g.moves;
    } else {
      var mv := moves[0];
      EncodedTail(line, i, p, moves);
      var q := MakeMove(p, mv).value;
      var g' := PositionMakeMove(g, mv).value;
      EncodedLineReplays(cands, display, line, i + 1, q, totals, moves[1..], g');
      EncodedLineStep(cands, display, line, i, p, totals, mv, g);
      var out := NormalizedLine(cands, display, line, i, Cursor(p, totals)).value;
      var rest := NormalizedLine(cands, display, line, i + 1, Cursor(q, totals)).value;
      assert ReplayEntries(g, out) == ReplayEntries(g', rest);
      ConsMoves(g.moves, moves);
    }
  }

  /**
   * Position to record to position: a game whose moves can all be made, and
   * whose initial position has no last move, comes back unchanged from the
   * record it is written as.
   */
  lemma PositionRoundTrip(cands: Candidates, display: Display, g: Position)
    requires CurrentOf(g).Some? && g.initial.lastMove.None?
    ensures RecordOfPosition(cands, display, g).Ok?
    ensures PositionOfRecord(RecordOfPosition(cands, display, g).value) == Ok(g)
  {
    EncodedMovesSucceed(g.initial, g.moves);
    var entries := EncodedMoves(g.initial, g.moves).value;
    EncodedReplays(cands, display, g, entries);
    var out := NormalizedLine(cands, display, Variation(entries), 0, Cursor(g.initial, ZeroTotals())).value;
    EncodedRecord(cands, display, g, entries, out);
    RecordReplays(g, RecordOfPosition(cands, display, g).value, out);
  }

  /** The normalised move line of a game replays to the game from its initial position. */
  lemma EncodedReplays(cands: Candidates, display: Display, g: Position, entries: seq<MoveFormat>)
    requires CurrentOf(g).Some? && EncodedMoves(g.initial, g.moves) == Ok(entries)
    ensures NormalizedLine(cands, display, Variation(entries), 0, Cursor(g.initial, ZeroTotals())).Ok?
    ensures ReplayEntries(Position(g.initial, []),
      NormalizedLine(cands, display, Variation(entries), 0, Cursor(g.initial, ZeroTotals())).value) == Ok(g)
  {
    var start := Position(g.initial, []);
    assert CurrentOf(start) == Some(g.initial);
    assert Variation(entries).moves[0..] == entries;
    EncodedLineReplays(cands, display, Variation(entries), 0, g.initial, ZeroTotals(), g.moves, start);
    assert [] + g.moves == g.moves;
  }

  /** A record whose initial is the game's start and whose line replays to the game reads back as the game. */
  lemma RecordReplays(g: Position, r: JsonKifuFormat, out: seq<MoveFormat>)
    requires CurrentOf(g).Some? && g.initial.lastMove.None?
    requires r == JsonKifuFormat(map[], NormalizedInitial(Some(InitialOf(g.initial))), [DefaultMove()] + out)
    requires ReplayEntries(Position(g.initial, []), out) == Ok(g)
    ensures PositionOfRecord(r) == Ok(g)
  {
    InitialRoundTrip(g.initial);
    NormalizedInitialKeepsPosition(InitialOf(g.initial));
    ReplayAfterPlaceholder(Position(g.initial, []), out);
  }

  /** The record of a game: the normalised initial, the placeholder entry, then the normalised move line. */
  lemma EncodedRecord(cands: Candidates, display: Display, g: Position, entries: seq<MoveFormat>, out: seq<MoveFormat>)
    requires g.initial.lastMove.None?
    requires EncodedMoves(g.initial, g.moves) == Ok(entries)
    requires NormalizedLine(cands, display, Variation(entries), 0, Cursor(g.initial, ZeroTotals())) == Ok(out)
    ensures RecordOfPosition(cands, display, g) ==
      Ok(JsonKifuFormat(map[], NormalizedInitial(Some(InitialOf(g.initial))), [DefaultMove()] + out))
  {
    var p := g.initial;
    var init := InitialOf(p);
    var jkf := JsonKifuFormat(map[], Some(init), [DefaultMove()] + entries);
    InitialRoundTrip(p);
    NormalizedInitialKeepsPosition(init);
    assert PositionOfInitial(NormalizedInitial(Some(init)).value) == Ok(p);
    assert jkf.moves[1..] == entries;
  }

  /** The placeholder entry carries no move, so replaying skips it. */
  lemma ReplayAfterPlaceholder(g: Position, out: seq<MoveFormat>)
    requires CurrentOf(g).Some?
    ensures ReplayEntries(g, [DefaultMove()] + out) == ReplayEntries(g, out)
  {
    assert ([DefaultMove()] + out)[1..] == out;
  }

  /** The opening position with no moves is written as the Hirate preset and one placeholder entry. */
  lemma DefaultPositionRecord(cands: Candidates, display: Display)
    ensures RecordOfPosition(cands, display, Position(StartPosition(), [])) ==
      Ok(JsonKifuFormat(map[], Some(Initial(PresetHirate, None)), [DefaultMove()]))
  {
    var init := InitialOf(StartPosition());
    StartInitialIsHirate();
    NormalizedInitialCollapses(init, PresetHirate);
    var jkf := JsonKifuFormat(map[], Some(init), [DefaultMove()]);
    assert jkf.moves[1..] == [];
    assert [DefaultMove()] + [] == [DefaultMove()];
  }

  /** The opening position written as data is exactly the Hirate table. */
  lemma StartInitialIsHirate()
    ensures InitialOf(StartPosition()).data == Tables.PresetState(PresetHirate)
  {
    var p := StartPosition();
    var init := InitialOf(p);
    forall i, j | 0 <= i < 9 && 0 <= j < 9
      ensures init.data.value.board[i][j] == Tables.HirateBoard()[i][j]
    {
      assert PieceAt(p, Square(i + 1, j + 1)) == CellOf(Tables.HirateBoard()[i][j]);
    }
    forall i | 0 <= i < 9
      ensures init.data.value.board[i] == Tables.HirateBoard()[i]
    {
      assert forall j | 0 <= j < 9 :: init.data.value.board[i][j] == Tables.HirateBoard()[i][j];
    }
    assert init.data.value.board == Tables.HirateBoard();
    assert init.data.value.hands == Tables.NoHands();
  }
}
