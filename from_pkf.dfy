// Conversion of the protobuf form of a game record into the record model,
// and the `same` flags it fills in afterwards. The protobuf messages are
// generated code; what the conversion reads of them is modelled here as
// plain data. A generated enum field holds either one of its declared
// values (the unset value included) or an unknown number.

module FromPkf {
  import opened Jkf
  import Normalizer

  // ----------------------------------------------------- protobuf values

  /**
   * An enum field: the enum's unset value, one of its named values (which
   * correspond one to one with the record's values), or a number the enum
   * does not declare.
   */
  datatype ProtoEnum<T> = Unset | Known(value: T) | Unknown(raw: int)

  datatype PkfConvertError =
    | ColorRequired
    | PieceKindRequired
    | MoveSpecialRequired
    | MoveRelativeRequired
    | UnknownEnumValue(name: string, value: int)
    | MissingField(field: string)
    | TryFromInt

  /** A square as the message stores it: two unsigned 32-bit numbers. */
  datatype PkfSquare = PkfSquare(file: nat, rank: nat)

  /** The eleven presets the message can name. */
  datatype PkfPreset =
    | PkfHirate | PkfKY | PkfKYR | PkfKA | PkfHI | PkfHIKY
    | Pkf2 | Pkf4 | Pkf6 | Pkf8 | Pkf10

  datatype PkfPiece = PkfPiece(color: ProtoEnum<Color>, kind: ProtoEnum<Kind>)

  /** The 81 optional squares: cell [i][j] is the field for square (i + 1, j + 1). */
  type PkfBoard = b: seq<seq<Option<PkfPiece>>> | |b| == 9 && forall i | 0 <= i < 9 :: |b[i]| == 9
    witness seq(9, _ => seq(9, _ => None))

  datatype PkfHand = PkfHand(fu: nat, ky: nat, ke: nat, gi: nat, ki: nat, ka: nat, hi: nat)

  datatype PkfState = PkfState(color: ProtoEnum<Color>, board: PkfBoard, black: Option<PkfHand>, white: Option<PkfHand>)

  datatype PkfPosition = PositionPreset(preset: PkfPreset) | PositionState(state: PkfState)

  datatype PkfInitial = PkfInitial(position: Option<PkfPosition>)

  /** Elapsed and cumulative time in whole seconds. */
  datatype PkfTime = PkfTime(now: nat, total: nat)

  datatype PkfAction =
    | Normal(color: ProtoEnum<Color>, from: Option<PkfSquare>, to: Option<PkfSquare>, pieceKind: ProtoEnum<Kind>,
             promote: Option<bool>, capture: ProtoEnum<Kind>, relative: ProtoEnum<Relative>)
    | Drop(color: ProtoEnum<Color>, to: Option<PkfSquare>, pieceKind: ProtoEnum<Kind>, relative: ProtoEnum<Relative>)
    | Special(special: ProtoEnum<MoveSpecial>)

  datatype PkfMove = PkfMove(action: Option<PkfAction>, comments: seq<string>, time: Option<PkfTime>, forks: seq<PkfFork>)

  datatype PkfFork = PkfFork(fork: seq<PkfMove>)

  datatype PkfKifu = PkfKifu(header: map<string, string>, initial: Option<PkfInitial>, moves: seq<PkfMove>)

  // --------------------------------------------------- enums and numbers

  /** A required enum field: the unset value and unknown numbers are errors. */
  function EnumValue<T>(e: ProtoEnum<T>, name: string, required: PkfConvertError): (r: Result<T, PkfConvertError>)
    ensures r.Ok? <==> e.Known?
    ensures r.Ok? ==> r.value == e.value
    ensures e.Unset? ==> r == Err(required)
    ensures e.Unknown? ==> r == Err(UnknownEnumValue(name, e.raw))
  {
    match e
    case Known(v) => Ok(v)
    case Unset => Err(required)
    case Unknown(raw) => Err(UnknownEnumValue(name, raw))
  }

  /** An optional enum field (capture, relative): unset is None, an unknown number is still an error. */
  function OptionalEnum<T>(e: ProtoEnum<T>, name: string): (r: Result<Option<T>, PkfConvertError>)
    ensures r.Err? <==> e.Unknown?
    ensures r.Ok? ==> (r.value.Some? <==> e.Known?)
    ensures r.Ok? && e.Known? ==> r.value.value == e.value
    ensures e.Unknown? ==> r == Err(UnknownEnumValue(name, e.raw))
  {
    match e
    case Unset => Ok(None)
    case Known(v) => Ok(Some(v))
    case Unknown(raw) => Err(UnknownEnumValue(name, raw))
  }

  function ColorOf(e: ProtoEnum<Color>): Result<Color, PkfConvertError>
  {
    EnumValue(e, "color", ColorRequired)
  }

  function KindOf(e: ProtoEnum<Kind>): Result<Kind, PkfConvertError>
  {
    EnumValue(e, "piece_kind", PieceKindRequired)
  }

  /** An unsigned number cast to a byte, failing above 255. */
  function ByteOf(n: nat): (r: Result<U8, PkfConvertError>)
    ensures r.Ok? <==> n < 256
    ensures r.Ok? ==> r.value == n
    ensures r.Err? ==> r.error == TryFromInt
  {
    if n < 256 then Ok(n) else Err(TryFromInt)
  }

  /** A square field: a missing square is an error, and so is a file or rank above 255. */
  function PlaceOf(sq: Option<PkfSquare>): (r: Result<PlaceFormat, PkfConvertError>)
    ensures sq.None? ==> r == Err(MissingField("square"))
    ensures sq.Some? ==> (r.Ok? <==> sq.value.file < 256 && sq.value.rank < 256)
    ensures r.Ok? ==> r.value.x == sq.value.file && r.value.y == sq.value.rank
    ensures r.Err? && sq.Some? ==> r.error == TryFromInt
  {
    if sq.None? then Err(MissingField("square"))
    else
      var x := ByteOf(sq.value.file);
      if x.Err? then Err(x.error)
      else
        var y := ByteOf(sq.value.rank);
        if y.Err? then Err(y.error) else Ok(PlaceFormat(x.value, y.value))
  }

  /** The record preset each message preset names. */
  function PresetOf(p: PkfPreset): (r: Preset)
    ensures r !in {Preset3, Preset5, Preset5L, Preset7L, Preset7R, PresetOther}
  {
    match p
    case PkfHirate => PresetHirate case PkfKY => PresetKY case PkfKYR => PresetKYR
    case PkfKA => PresetKA case PkfHI => PresetHI case PkfHIKY => PresetHIKY
    case Pkf2 => Preset2 case Pkf4 => Preset4 case Pkf6 => Preset6
    case Pkf8 => Preset8 case Pkf10 => Preset10
  }

  /** The opposite direction: presets without a message value are unsupported. */
  function PkfPresetOf(p: Preset): (r: Option<PkfPreset>)
    ensures r.None? <==> p in {Preset3, Preset5, Preset5L, Preset7L, Preset7R, PresetOther}
  {
    match p
    case PresetHirate => Some(PkfHirate) case PresetKY => Some(PkfKY) case PresetKYR => Some(PkfKYR)
    case PresetKA => Some(PkfKA) case PresetHI => Some(PkfHI) case PresetHIKY => Some(PkfHIKY)
    case Preset2 => Some(Pkf2) case Preset4 => Some(Pkf4) case Preset6 => Some(Pkf6)
    case Preset8 => Some(Pkf8) case Preset10 => Some(Pkf10)
    case _ => None
  }

  /** The two preset conversions undo each other wherever both are defined. */
  lemma PresetRoundTrip(p: PkfPreset, q: Preset)
    ensures PkfPresetOf(PresetOf(p)) == Some(p)
    ensures PkfPresetOf(q).Some? ==> PresetOf(PkfPresetOf(q).value) == q
  {
  }

  // ----------------------------------------------------------------- time

  /**
   * A number of seconds as hours, minutes and seconds. The hour is written
   * when asked for or when it is not zero, and must fit a byte.
   */
  function TimeFormatOf(secs: nat, someH: bool): (r: Result<TimeFormat, PkfConvertError>)
    ensures r.Ok? <==> secs / 3600 < 256
    ensures r.Err? ==> r.error == TryFromInt
    ensures r.Ok? ==> Seconds(r.value) == secs && r.value.m < 60 && r.value.s < 60
    ensures r.Ok? ==> (r.value.h.Some? <==> someH || secs >= 3600)
  {
    var h := secs / 3600;
    Normalizer.SplitSeconds(secs);
    if someH || h > 0 then
      var hb := ByteOf(h);
      if hb.Err? then Err(hb.error) else Ok(TimeFormat(Some(hb.value), (secs / 60) % 60, secs % 60))
    else
      Ok(TimeFormat(None, (secs / 60) % 60, secs % 60))
  }

  /** A move's time: the elapsed time has an hour only from one hour up, the total always has one. */
  function TimeOf(t: PkfTime): (r: Result<Time, PkfConvertError>)
    ensures r.Ok? <==> t.now / 3600 < 256 && t.total / 3600 < 256
    ensures r.Ok? ==> Seconds(r.value.now) == t.now && Seconds(r.value.total) == t.total
    ensures r.Ok? ==> (r.value.now.h.Some? <==> t.now >= 3600) && r.value.total.h.Some?
  {
    var now := TimeFormatOf(t.now, false);
    if now.Err? then Err(now.error)
    else
      var total := TimeFormatOf(t.total, true);
      if total.Err? then Err(total.error) else Ok(Time(now.value, total.value))
  }

  // ------------------------------------------------------ starting state

  function HandOf(h: PkfHand): (r: Result<Hand, PkfConvertError>)
    ensures r.Ok? <==> h.fu < 256 && h.ky < 256 && h.ke < 256 && h.gi < 256 && h.ki < 256 && h.ka < 256 && h.hi < 256
    ensures r.Ok? ==> r.value == Hand(h.fu, h.ky, h.ke, h.gi, h.ki, h.ka, h.hi)
  {
    if h.fu < 256 && h.ky < 256 && h.ke < 256 && h.gi < 256 && h.ki < 256 && h.ka < 256 && h.hi < 256
    then Ok(Hand(h.fu, h.ky, h.ke, h.gi, h.ki, h.ka, h.hi))
    else Err(TryFromInt)
  }

  /** A square of the state: an absent piece is empty, a present one needs its colour and then its kind. */
  function CellOf(p: Option<PkfPiece>): (r: Result<Piece, PkfConvertError>)
    ensures p.None? ==> r == Ok(EmptyPiece())
    ensures p.Some? ==> (r.Ok? <==> p.value.color.Known? && p.value.kind.Known?)
    ensures p.Some? && r.Ok? ==> r.value == Piece(Some(p.value.color.value), Some(p.value.kind.value))
  {
    if p.None? then Ok(EmptyPiece())
    else
      var c := ColorOf(p.value.color);
      if c.Err? then Err(c.error)
      else
        var k := KindOf(p.value.kind);
        if k.Err? then Err(k.error) else Ok(Piece(Some(c.value), Some(k.value)))
  }

  /** The square visited at step n of the nested loops: row n / 9, column n % 9. */
  function CellAt(b: PkfBoard, n: nat): Option<PkfPiece>
    requires n < 81
  {
    b[n / 9][n % 9]
  }

  /** The first step, from n on, whose square does not convert. */
  function FirstFailure(b: PkfBoard, n: nat): (r: Option<nat>)
    requires n <= 81
    ensures r.Some? ==> n <= r.value < 81 && CellOf(CellAt(b, r.value)).Err?
    ensures r.Some? ==> forall m | n <= m < r.value :: CellOf(CellAt(b, m)).Ok?
    ensures r.None? ==> forall m | n <= m < 81 :: CellOf(CellAt(b, m)).Ok?
    decreases 81 - n
  {
    if n == 81 then None
    else if CellOf(CellAt(b, n)).Err? then Some(n)
    else FirstFailure(b, n + 1)
  }

  /** The state's board, or the error of the first square (in loop order) that does not convert. */
  function BoardOf(b: PkfBoard): (r: Result<Board, PkfConvertError>)
  {
    var bad := FirstFailure(b, 0);
    if bad.Some? then Err(CellOf(CellAt(b, bad.value)).error)
    else
      assert forall i, j | 0 <= i < 9 && 0 <= j < 9 :: CellOf(b[i][j]).Ok? by {
        forall i, j | 0 <= i < 9 && 0 <= j < 9 ensures CellOf(b[i][j]).Ok? {
          LoopIndex(i, j);
          assert CellAt(b, 9 * i + j) == b[i][j];
        }
      }
      Ok(seq(9, i requires 0 <= i < 9 => seq(9, j requires 0 <= j < 9 => CellOf(b[i][j]).value)))
  }

  lemma LoopIndex(i: nat, j: nat)
    requires i < 9 && j < 9
    ensures 9 * i + j < 81 && (9 * i + j) / 9 == i && (9 * i + j) % 9 == j
  {
  }

  /** The board converts when every square does, square for square; else it fails with the first failure. */
  lemma BoardOfCells(b: PkfBoard)
    ensures BoardOf(b).Ok? <==> forall i, j | 0 <= i < 9 && 0 <= j < 9 :: CellOf(b[i][j]).Ok?
    ensures BoardOf(b).Ok? ==> forall i, j | 0 <= i < 9 && 0 <= j < 9 :: BoardOf(b).value[i][j] == CellOf(b[i][j]).value
    ensures BoardOf(b).Err? ==> exists i, j | 0 <= i < 9 && 0 <= j < 9 :: CellOf(b[i][j]) == Err(BoardOf(b).error)
  {
    var bad := FirstFailure(b, 0);
    if bad.Some? {
      var n := bad.value;
      var i, j := n / 9, n % 9;
      assert i < 9 && j < 9 && b[i][j] == CellAt(b, n);
    } else {
      forall i, j | 0 <= i < 9 && 0 <= j < 9 ensures CellOf(b[i][j]).Ok? {
        LoopIndex(i, j);
        assert CellAt(b, 9 * i + j) == b[i][j];
      }
    }
  }

  /** The squares already visited hold their converted pieces, the others are still empty. */
  ghost predicate FilledUpTo(board: Board, b: PkfBoard, n: nat)
  {
    forall x, y | 0 <= x < 9 && 0 <= y < 9 ::
      board[x][y] == if 9 * x + y < n && CellOf(b[x][y]).Ok? then CellOf(b[x][y]).value else EmptyPiece()
  }

  /** Loop state after n steps: the visited squares are filled and none of them failed. */
  ghost predicate Visited(board: Board, b: PkfBoard, n: nat)
  {
    n <= 81 && FilledUpTo(board, b, n) && FirstFailure(b, 0) == FirstFailure(b, n)
  }

  function SetCell(board: Board, i: nat, j: nat, p: Piece): Board
    requires i < 9 && j < 9
  {
    board[i := board[i][j := p]]
  }

  lemma VisitCell(board: Board, b: PkfBoard, i: nat, j: nat, n: nat, p: Piece)
    requires i < 9 && j < 9 && n == 9 * i + j && Visited(board, b, n)
    requires CellOf(b[i][j]) == Ok(p)
    ensures Visited(SetCell(board, i, j, p), b, n + 1)
  {
    LoopIndex(i, j);
  }

  lemma FailsHere(board: Board, b: PkfBoard, i: nat, j: nat, n: nat)
    requires i < 9 && j < 9 && n == 9 * i + j && Visited(board, b, n)
    requires CellOf(b[i][j]).Err?
    ensures BoardOf(b) == Err(CellOf(b[i][j]).error)
  {
    LoopIndex(i, j);
  }

  lemma VisitedAll(board: Board, b: PkfBoard)
    requires Visited(board, b, 81)
    ensures BoardOf(b) == Ok(board)
  {
    var r := BoardOf(b);
    BoardOfCells(b);
    forall x, y | 0 <= x < 9 && 0 <= y < 9 ensures board[x][y] == r.value[x][y] {
      LoopIndex(x, y);
      assert CellOf(b[x][y]).Ok?;
    }
    assert r.Ok?;
    forall x | 0 <= x < 9 ensures board[x] == r.value[x] {
      assert forall y | 0 <= y < 9 :: board[x][y] == r.value[x][y];
    }
    assert board == r.value;
  }

  lemma VisitedNone(b: PkfBoard)
    ensures Visited(EmptyBoard(), b, 0)
  {
  }

  /** The inner loop: the nine columns of row i. */
  method ConvertRow(board0: Board, b: PkfBoard, i: nat, ghost n0: nat) returns (r: Result<Board, PkfConvertError>)
    requires i < 9 && n0 == 9 * i && Visited(board0, b, n0)
    ensures r.Err? ==> r == BoardOf(b)
    ensures r.Ok? ==> Visited(r.value, b, n0 + 9)
  {
    var board := board0;
    ghost var n := n0;
    for j := 0 to 9
      invariant n == n0 + j && Visited(board, b, n)
    {
      var p := CellOf(b[i][j]);
      if p.Err? {
        FailsHere(board, b, i, j, n);
        return Err(p.error);
      }
      VisitCell(board, b, i, j, n, p.value);
      board := SetCell(board, i, j, p.value);
      n := n + 1;
    }
    return Ok(board);
  }

  /** The nested loops over the rows and columns of the state's board. */
  method ConvertBoard(b: PkfBoard) returns (r: Result<Board, PkfConvertError>)
    ensures r == BoardOf(b)
  {
    var board := EmptyBoard();
    ghost var n := 0;
    VisitedNone(b);
    for i := 0 to 9
      invariant n == 9 * i && Visited(board, b, n)
    {
      var row := ConvertRow(board, b, i, n);
      if row.Err? {
        return row;
      }
      board := row.value;
      n := n + 9;
    }
    VisitedAll(board, b);
    return Ok(board);
  }

  /** An absent hand is empty; hands are [black, white]. */
  function OptionalHandOf(h: Option<PkfHand>): (r: Result<Hand, PkfConvertError>)
    ensures h.None? ==> r == Ok(EmptyHand())
    ensures h.Some? ==> r == HandOf(h.value)
  {
    if h.None? then Ok(EmptyHand()) else HandOf(h.value)
  }

  /** The state: its colour first, then the board, then the black and the white hand. */
  function StateOf(st: PkfState): (r: Result<StateFormat, PkfConvertError>)
    ensures r.Ok? <==> st.color.Known? && BoardOf(st.board).Ok? && OptionalHandOf(st.black).Ok? && OptionalHandOf(st.white).Ok?
    ensures r.Ok? ==> r.value.color == st.color.value && r.value.board == BoardOf(st.board).value
    ensures r.Ok? ==> r.value.hands == [OptionalHandOf(st.black).value, OptionalHandOf(st.white).value]
    ensures st.color.Unset? ==> r == Err(ColorRequired)
  {
    var c := ColorOf(st.color);
    if c.Err? then Err(c.error)
    else
      var b := BoardOf(st.board);
      if b.Err? then Err(b.error)
      else
        var black := OptionalHandOf(st.black);
        if black.Err? then Err(black.error)
        else
          var white := OptionalHandOf(st.white);
          if white.Err? then Err(white.error)
          else Ok(StateFormat(c.value, b.value, [black.value, white.value]))
  }

  /**
   * The starting position: a message preset gives that preset without data,
   * a state gives PresetOther with the state, and no position gives Hirate.
   */
  function InitialOf(init: PkfInitial): (r: Result<Initial, PkfConvertError>)
    ensures init.position.None? ==> r == Ok(Initial(PresetHirate, None))
    ensures init.position.Some? && init.position.value.PositionPreset? ==>
      r == Ok(Initial(PresetOf(init.position.value.preset), None))
    ensures init.position.Some? && init.position.value.PositionState? ==>
      (r.Ok? <==> StateOf(init.position.value.state).Ok?) &&
      (r.Ok? ==> r.value == Initial(PresetOther, Some(StateOf(init.position.value.state).value)))
  {
    match init.position
    case None => Ok(Initial(PresetHirate, None))
    case Some(PositionPreset(p)) => Ok(Initial(PresetOf(p), None))
    case Some(PositionState(st)) =>
      var s := StateOf(st);
      if s.Err? then Err(s.error) else Ok(Initial(PresetOther, Some(s.value)))
  }

  // ---------------------------------------------------------------- moves

  /**
   * A normal move: colour, origin, destination and kind are required; an
   * unset capture or relative is None.
   */
  function NormalOf(a: PkfAction): (r: Result<MoveMoveFormat, PkfConvertError>)
    requires a.Normal?
    ensures r.Ok? <==> (a.color.Known? && PlaceOf(a.from).Ok? && PlaceOf(a.to).Ok? && a.pieceKind.Known?
      && !a.capture.Unknown? && !a.relative.Unknown?)
    ensures r.Ok? ==> (r.value.color == a.color.value && r.value.from == Some(PlaceOf(a.from).value)
      && r.value.to == PlaceOf(a.to).value && r.value.piece == a.pieceKind.value)
    ensures r.Ok? ==> r.value.same.None? && r.value.promote == a.promote
    ensures r.Ok? ==> (r.value.capture.None? <==> a.capture.Unset?) && (r.value.relative.None? <==> a.relative.Unset?)
  {
    var color := ColorOf(a.color);
    if color.Err? then Err(color.error)
    else
      var from := PlaceOf(a.from);
      if from.Err? then Err(from.error)
      else
        var to := PlaceOf(a.to);
        if to.Err? then Err(to.error)
        else
          var piece := KindOf(a.pieceKind);
          if piece.Err? then Err(piece.error)
          else
            var capture := OptionalEnum(a.capture, "piece_kind");
            if capture.Err? then Err(capture.error)
            else
              var relative := OptionalEnum(a.relative, "move.relative");
              if relative.Err? then Err(relative.error)
              else Ok(MoveMoveFormat(color.value, Some(from.value), to.value, piece.value, None, a.promote, capture.value, relative.value))
  }

  /** A drop: no origin, no promotion and no capture. */
  function DropOf(a: PkfAction): (r: Result<MoveMoveFormat, PkfConvertError>)
    requires a.Drop?
    ensures r.Ok? <==> a.color.Known? && PlaceOf(a.to).Ok? && a.pieceKind.Known? && !a.relative.Unknown?
    ensures r.Ok? ==> r.value.color == a.color.value && r.value.to == PlaceOf(a.to).value && r.value.piece == a.pieceKind.value
    ensures r.Ok? ==> r.value.from.None? && r.value.same.None? && r.value.promote.None? && r.value.capture.None?
    ensures r.Ok? ==> (r.value.relative.None? <==> a.relative.Unset?)
  {
    var color := ColorOf(a.color);
    if color.Err? then Err(color.error)
    else
      var to := PlaceOf(a.to);
      if to.Err? then Err(to.error)
      else
        var piece := KindOf(a.pieceKind);
        if piece.Err? then Err(piece.error)
        else
          var relative := OptionalEnum(a.relative, "move.relative");
          if relative.Err? then Err(relative.error)
          else Ok(MoveMoveFormat(color.value, None, to.value, piece.value, None, None, None, relative.value))
  }

  /** The entry with its action filled in (comments, time and forks still default). */
  function ActionOf(action: Option<PkfAction>): (r: Result<MoveFormat, PkfConvertError>)
    ensures r.Ok? ==> r.value.comments.None? && r.value.time.None? && r.value.forks.NoForks?
    ensures r.Ok? ==> (r.value.move.Some? <==> action.Some? && !action.value.Special?)
    ensures r.Ok? ==> (r.value.special.Some? <==> action.Some? && action.value.Special?)
    ensures action.None? ==> r == Ok(DefaultMove())
  {
    match action
    case None => Ok(DefaultMove())
    case Some(a) =>
      if a.Normal? then
        var m := NormalOf(a);
        if m.Err? then Err(m.error) else Ok(DefaultMove().(move := Some(m.value)))
      else if a.Drop? then
        var m := DropOf(a);
        if m.Err? then Err(m.error) else Ok(DefaultMove().(move := Some(m.value)))
      else
        var sp := EnumValue(a.special, "move.special", MoveSpecialRequired);
        if sp.Err? then Err(sp.error) else Ok(DefaultMove().(special := Some(sp.value)))
  }

  /**
   * A move message as an entry: the action, then the comments (None when
   * there are none), the time, and every fork in order.
   */
  function MoveOf(mv: PkfMove): (r: Result<MoveFormat, PkfConvertError>)
    ensures r.Ok? ==> ActionOf(mv.action).Ok?
    ensures r.Ok? ==> r.value.move == ActionOf(mv.action).value.move && r.value.special == ActionOf(mv.action).value.special
    ensures r.Ok? ==> (r.value.comments.None? <==> mv.comments == []) && (r.value.comments.Some? ==> r.value.comments.value == mv.comments)
    ensures r.Ok? ==> (r.value.time.Some? <==> mv.time.Some?)
    ensures r.Ok? ==> (r.value.forks.NoForks? <==> mv.forks == [])
    ensures r.Ok? && r.value.forks.Forks? ==> |r.value.forks.variations| == |mv.forks|
    // It converts exactly when the action, the time and every fork do; the time is the
    // message's time converted and the variations are the converted forks.
    ensures r.Ok? <==> ActionOf(mv.action).Ok? && (mv.time.Some? ==> TimeOf(mv.time.value).Ok?) &&
                       (mv.forks != [] ==> ForksOf(mv, 0).Ok?)
    ensures r.Ok? ==> r.value.time == if mv.time.Some? then Some(TimeOf(mv.time.value).value) else None
    ensures r.Ok? && mv.forks != [] ==> r.value.forks == Forks(ForksOf(mv, 0).value)
    // The action is converted first, then the time, then the forks; the first failure is the result.
    ensures r.Err? ==> (r.error ==
      if ActionOf(mv.action).Err? then ActionOf(mv.action).error
      else if mv.time.Some? && TimeOf(mv.time.value).Err? then TimeOf(mv.time.value).error
      else ForksOf(mv, 0).error)
    decreases mv, 2, 0
  {
    var a := ActionOf(mv.action);
    if a.Err? then Err(a.error)
    else
      var time := if mv.time.None? then Ok(None) else
        var t := TimeOf(mv.time.value);
        if t.Err? then Err(t.error) else Ok(Some(t.value));
      if time.Err? then Err(time.error)
      else
        var forks := if mv.forks == [] then Ok(NoForks) else
          var vs := ForksOf(mv, 0);
          if vs.Err? then Err(vs.error) else Ok(Forks(vs.value));
        if forks.Err? then Err(forks.error)
        else
          assert forks.value.Forks? ==> |forks.value.variations| == |mv.forks|;
          Ok(a.value.(comments := if mv.comments == [] then None else Some(mv.comments), time := time.value, forks := forks.value))
  }

  /** The forks k.. of a move message, each a converted line. */
  function ForksOf(mv: PkfMove, k: nat): (r: Result<seq<Variation>, PkfConvertError>)
    requires k <= |mv.forks|
    ensures r.Ok? ==> |r.value| == |mv.forks| - k
    ensures r.Ok? <==> forall i | k <= i < |mv.forks| :: LineOf(mv.forks[i], 0).Ok?
    ensures r.Ok? ==> forall i | 0 <= i < |r.value| :: r.value[i] == Variation(LineOf(mv.forks[k + i], 0).value)
    ensures r.Err? ==> exists i | k <= i < |mv.forks| ::
      LineOf(mv.forks[i], 0) == Err(r.error) && forall i' | k <= i' < i :: LineOf(mv.forks[i'], 0).Ok?
    decreases mv, 1, |mv.forks| - k
  {
    if k == |mv.forks| then Ok([])
    else
      var line := LineOf(mv.forks[k], 0);
      if line.Err? then Err(line.error)
      else
        var rest := ForksOf(mv, k + 1);
        var r := if rest.Err? then Err(rest.error) else Ok([Variation(line.value)] + rest.value);
        ForksNext(mv, k, rest, r);
        r
  }

  /** What converting the forks k.. means: all convert, in order, or the first failure is returned. */
  ghost predicate ForksMeaning(mv: PkfMove, k: nat, r: Result<seq<Variation>, PkfConvertError>)
    requires k <= |mv.forks|
    decreases mv, 0, 0
  {
    && (r.Ok? <==> forall i | k <= i < |mv.forks| :: LineOf(mv.forks[i], 0).Ok?)
    && (r.Ok? ==> |r.value| == |mv.forks| - k)
    && (r.Ok? ==> forall i | 0 <= i < |r.value| :: r.value[i] == Variation(LineOf(mv.forks[k + i], 0).value))
    && (r.Err? ==> exists i | k <= i < |mv.forks| ::
          LineOf(mv.forks[i], 0) == Err(r.error) && forall i' | k <= i' < i :: LineOf(mv.forks[i'], 0).Ok?)
  }

  lemma ForksNext(mv: PkfMove, k: nat, rest: Result<seq<Variation>, PkfConvertError>,
                  r: Result<seq<Variation>, PkfConvertError>)
    requires k < |mv.forks| && LineOf(mv.forks[k], 0).Ok? && ForksMeaning(mv, k + 1, rest)
    requires r == if rest.Err? then Err(rest.error) else Ok([Variation(LineOf(mv.forks[k], 0).value)] + rest.value)
    ensures ForksMeaning(mv, k, r)
    decreases mv, 0, 2
  {
    if rest.Ok? {
      assert forall i | 1 <= i < |r.value| :: r.value[i] == rest.value[i - 1];
    } else {
      ForksFailed(mv, k, rest.error);
    }
  }

  /** A failure of the forks after k is the first failure from k on, fork k having converted. */
  lemma ForksFailed(mv: PkfMove, k: nat, e: PkfConvertError)
    requires k < |mv.forks| && LineOf(mv.forks[k], 0).Ok? && ForksMeaning(mv, k + 1, Err(e))
    ensures ForksMeaning(mv, k, Err(e))
    decreases mv, 0, 1
  {
    var i :| k + 1 <= i < |mv.forks| && LineOf(mv.forks[i], 0) == Err(e) &&
      forall i' | k + 1 <= i' < i :: LineOf(mv.forks[i'], 0).Ok?;
    assert forall i' | k <= i' < i :: LineOf(mv.forks[i'], 0).Ok?;
  }

  /** The moves j.. of a fork, converted in order; the first failure is the result. */
  function LineOf(f: PkfFork, j: nat): (r: Result<seq<MoveFormat>, PkfConvertError>)
    requires j <= |f.fork|
    ensures r.Ok? ==> |r.value| == |f.fork| - j
    ensures r.Ok? <==> forall i | j <= i < |f.fork| :: MoveOf(f.fork[i]).Ok?
    ensures r.Ok? ==> forall i | 0 <= i < |r.value| :: r.value[i] == MoveOf(f.fork[j + i]).value
    ensures r.Err? ==> exists i | j <= i < |f.fork| ::
      MoveOf(f.fork[i]) == Err(r.error) && forall i' | j <= i' < i :: MoveOf(f.fork[i']).Ok?
    decreases f, |f.fork| - j
  {
    if j == |f.fork| then Ok([])
    else
      var m := MoveOf(f.fork[j]);
      if m.Err? then Err(m.error)
      else
        var rest := LineOf(f, j + 1);
        var r := if rest.Err? then Err(rest.error) else Ok([m.value] + rest.value);
        LineNext(f, j, rest, r);
        r
  }

  /** What converting the moves j.. of a fork means: all convert, in order, or the first failure is returned. */
  ghost predicate LineMeaning(f: PkfFork, j: nat, r: Result<seq<MoveFormat>, PkfConvertError>)
    requires j <= |f.fork|
    decreases f, 0, 0
  {
    && (r.Ok? <==> forall i | j <= i < |f.fork| :: MoveOf(f.fork[i]).Ok?)
    && (r.Ok? ==> |r.value| == |f.fork| - j)
    && (r.Ok? ==> forall i | 0 <= i < |r.value| :: r.value[i] == MoveOf(f.fork[j + i]).value)
    && (r.Err? ==> exists i | j <= i < |f.fork| ::
          MoveOf(f.fork[i]) == Err(r.error) && forall i' | j <= i' < i :: MoveOf(f.fork[i']).Ok?)
  }

  lemma LineNext(f: PkfFork, j: nat, rest: Result<seq<MoveFormat>, PkfConvertError>,
                 r: Result<seq<MoveFormat>, PkfConvertError>)
    requires j < |f.fork| && MoveOf(f.fork[j]).Ok? && LineMeaning(f, j + 1, rest)
    requires r == if rest.Err? then Err(rest.error) else Ok([MoveOf(f.fork[j]).value] + rest.value)
    ensures LineMeaning(f, j, r)
    decreases f, 0, 2
  {
    if rest.Ok? {
      assert forall i | 1 <= i < |r.value| :: r.value[i] == rest.value[i - 1];
    } else {
      LineFailed(f, j, rest.error);
    }
  }

  /** A failure of the moves after j is the first failure from j on, move j having converted. */
  lemma LineFailed(f: PkfFork, j: nat, e: PkfConvertError)
    requires j < |f.fork| && MoveOf(f.fork[j]).Ok? && LineMeaning(f, j + 1, Err(e))
    ensures LineMeaning(f, j, Err(e))
    decreases f, 0, 1
  {
    var i :| j + 1 <= i < |f.fork| && MoveOf(f.fork[i]) == Err(e) &&
      forall i' | j + 1 <= i' < i :: MoveOf(f.fork[i']).Ok?;
    assert forall i' | j <= i' < i :: MoveOf(f.fork[i']).Ok?;
  }

  // ------------------------------------------------------------- same flags

  /** The destination of an entry's move, if it has one. */
  function ToOf(mf: MoveFormat): Option<PlaceFormat>
  {
    if mf.move.Some? then Some(mf.move.value.to) else None
  }

  /** An entry's move marked `same` when its destination is `prev`; its forks are marked from `prev` too. */
  function MarkedEntry(mf: MoveFormat, prev: Option<PlaceFormat>): (r: MoveFormat)
    decreases mf, 3, 0
  {
    var move := if mf.move.Some? && Some(mf.move.value.to) == prev then Some(mf.move.value.(same := Some(true))) else mf.move;
    mf.(move := move, forks := MarkedForks(mf.forks, prev))
  }

  function MarkedForks(f: Forks, prev: Option<PlaceFormat>): (r: Forks)
    ensures r.Forks? <==> f.Forks?
    ensures r.Forks? ==> |r.variations| == |f.variations|
    decreases f, 2, 0
  {
    if f.NoForks? then NoForks else Forks(MarkedVariations(f, 0, prev))
  }

  function MarkedVariations(f: Forks, k: nat, prev: Option<PlaceFormat>): (r: seq<Variation>)
    requires f.Forks? && k <= |f.variations|
    ensures |r| == |f.variations| - k
    decreases f, 1, |f.variations| - k
  {
    if k == |f.variations| then []
    else [Variation(MarkedLine(f.variations[k], 0, prev))] + MarkedVariations(f, k + 1, prev)
  }

  /** The entries i.. of a line marked, `prev` being the destination of the move before entry i. */
  function MarkedLine(line: Variation, i: nat, prev: Option<PlaceFormat>): (r: seq<MoveFormat>)
    requires i <= |line.moves|
    ensures |r| == |line.moves| - i
    decreases line, 0, |line.moves| - i
  {
    if i == |line.moves| then []
    else [MarkedEntry(line.moves[i], prev)] + MarkedLine(line, i + 1, ToOf(line.moves[i]))
  }

  /** What `prev` is when entry i is reached: the destination of entry i - 1's move, or None after an entry without one. */
  function PrevAt(moves: seq<MoveFormat>, i: nat, prev: Option<PlaceFormat>): Option<PlaceFormat>
    requires i <= |moves|
  {
    if i == 0 then prev else ToOf(moves[i - 1])
  }

  /** Entry j of a marked line is entry j marked from the destination of the move before it. */
  lemma {:induction false} MarkedLineAt(line: Variation, i: nat, prev: Option<PlaceFormat>, j: nat)
    requires i <= j < |line.moves|
    ensures MarkedLine(line, i, prev)[j - i] == MarkedEntry(line.moves[j], if j == i then prev else ToOf(line.moves[j - 1]))
    decreases j - i
  {
    if j > i {
      MarkedLineAt(line, i + 1, ToOf(line.moves[i]), j);
    }
  }

  /**
   * Marking sets `same` exactly on the moves whose destination is the one
   * before them in the same line and changes nothing else; each fork of
   * entry i is marked from the destination of the move before entry i
   * (the branch point).
   */
  lemma SetSameEntries(moves: seq<MoveFormat>, prev: Option<PlaceFormat>, i: nat)
    requires i < |moves|
    ensures var r := MarkedLine(Variation(moves), 0, prev)[i];
      var mf := moves[i];
      var p := PrevAt(moves, i, prev);
      r.comments == mf.comments && r.time == mf.time && r.special == mf.special &&
      (r.move.Some? <==> mf.move.Some?) &&
      (r.move.Some? ==> r.move.value.(same := mf.move.value.same) == mf.move.value) &&
      (r.move.Some? ==> r.move.value.same == if Some(mf.move.value.to) == p then Some(true) else mf.move.value.same) &&
      (r.forks.Forks? <==> mf.forks.Forks?) &&
      (r.forks.Forks? ==> (|r.forks.variations| == |mf.forks.variations| &&
        forall k | 0 <= k < |r.forks.variations| :: r.forks.variations[k].moves == MarkedLine(mf.forks.variations[k], 0, p)))
  {
    MarkedLineAt(Variation(moves), 0, prev, i);
    var mf := moves[i];
    if mf.forks.Forks? {
      forall k | 0 <= k < |mf.forks.variations|
        ensures MarkedVariations(mf.forks, 0, PrevAt(moves, i, prev))[k].moves == MarkedLine(mf.forks.variations[k], 0, PrevAt(moves, i, prev))
      {
        MarkedVariationsAt(mf.forks, 0, PrevAt(moves, i, prev), k);
      }
    }
  }

  lemma {:induction false} MarkedVariationsAt(f: Forks, k: nat, prev: Option<PlaceFormat>, m: nat)
    requires f.Forks? && k <= m < |f.variations|
    ensures MarkedVariations(f, k, prev)[m - k].moves == MarkedLine(f.variations[m], 0, prev)
    decreases m - k
  {
    if m > k {
      MarkedVariationsAt(f, k + 1, prev, m);
    }
  }

  /** Marking keeps every destination. */
  lemma MarkedEntryTo(mf: MoveFormat, prev: Option<PlaceFormat>)
    ensures ToOf(MarkedEntry(mf, prev)) == ToOf(mf)
  {
  }

  /** Marking twice is marking once, along the whole tree of forks. */
  lemma {:induction false} MarkedLineIdempotent(line: Variation, i: nat, prev: Option<PlaceFormat>)
    requires i <= |line.moves|
    ensures MarkedLine(Variation(MarkedLine(line, i, prev)), 0, prev) == MarkedLine(line, i, prev)
    decreases line, 0, |line.moves| - i
  {
    if i < |line.moves| {
      var mf := line.moves[i];
      var rest := MarkedLine(line, i + 1, ToOf(mf));
      var marked := MarkedLine(line, i, prev);
      assert marked == [MarkedEntry(mf, prev)] + rest;
      MarkedEntryIdempotent(mf, prev);
      MarkedEntryTo(mf, prev);
      MarkedLineIdempotent(line, i + 1, ToOf(mf));
      MarkedLineTail(Variation(marked), prev);
      assert Variation(marked).moves[1..] == rest;
    }
  }

  lemma MarkedLineTail(line: Variation, prev: Option<PlaceFormat>)
    requires |line.moves| > 0
    ensures MarkedLine(line, 0, prev) == [MarkedEntry(line.moves[0], prev)] + MarkedLine(Variation(line.moves[1..]), 0, ToOf(line.moves[0]))
  {
    MarkedLineShift(line, 1, ToOf(line.moves[0]));
  }

  /** Marking from entry i on is marking the line that starts at entry i. */
  lemma {:induction false} MarkedLineShift(line: Variation, i: nat, prev: Option<PlaceFormat>)
    requires i <= |line.moves|
    ensures MarkedLine(line, i, prev) == MarkedLine(Variation(line.moves[i..]), 0, prev)
    decreases |line.moves| - i
  {
    var tail := Variation(line.moves[i..]);
    if i < |line.moves| {
      MarkedLineShift(line, i + 1, ToOf(line.moves[i]));
      MarkedLineShift(tail, 1, ToOf(line.moves[i]));
      assert tail.moves[1..] == line.moves[i + 1..];
    }
  }

  lemma {:induction false} MarkedEntryIdempotent(mf: MoveFormat, prev: Option<PlaceFormat>)
    ensures MarkedEntry(MarkedEntry(mf, prev), prev) == MarkedEntry(mf, prev)
    decreases mf, 3, 0
  {
    MarkedForksIdempotent(mf.forks, prev);
  }

  lemma {:induction false} MarkedForksIdempotent(f: Forks, prev: Option<PlaceFormat>)
    ensures MarkedForks(MarkedForks(f, prev), prev) == MarkedForks(f, prev)
    decreases f, 2, 0
  {
    if f.Forks? {
      MarkedVariationsIdempotent(f, 0, prev);
    }
  }

  lemma {:induction false} MarkedVariationsIdempotent(f: Forks, k: nat, prev: Option<PlaceFormat>)
    requires f.Forks? && k <= |f.variations|
    ensures MarkedVariations(Forks(MarkedVariations(f, k, prev)), 0, prev) == MarkedVariations(f, k, prev)
    decreases f, 1, |f.variations| - k
  {
    var vs := MarkedVariations(f, k, prev);
    if k < |f.variations| {
      MarkedLineIdempotent(f.variations[k], 0, prev);
      MarkedVariationsIdempotent(f, k + 1, prev);
      MarkedVariationsShift(Forks(vs), 1, prev);
      assert Forks(vs).variations[1..] == MarkedVariations(f, k + 1, prev);
    }
  }

  /** Marking variations from k on is marking the list that starts at k. */
  lemma {:induction false} MarkedVariationsShift(f: Forks, k: nat, prev: Option<PlaceFormat>)
    requires f.Forks? && k <= |f.variations|
    ensures MarkedVariations(f, k, prev) == MarkedVariations(Forks(f.variations[k..]), 0, prev)
    decreases |f.variations| - k
  {
    var tail := Forks(f.variations[k..]);
    if k < |f.variations| {
      MarkedVariationsShift(f, k + 1, prev);
      MarkedVariationsShift(tail, 1, prev);
      assert tail.variations[1..] == f.variations[k + 1..];
    }
  }

  /**
   * The source's `set_same`: walks the line keeping the previous
   * destination, marks each move, marks each fork from the previous
   * destination of its entry, and forgets the destination after an entry
   * without a move.
   */
  method SetSame(line: Variation, prev0: Option<PlaceFormat>) returns (r: seq<MoveFormat>)
    ensures r == MarkedLine(line, 0, prev0)
    decreases line, 1
  {
    r := [];
    var prev := prev0;
    assert [] + MarkedLine(line, 0, prev0) == MarkedLine(line, 0, prev0);
    for i := 0 to |line.moves|
      invariant MarkedSoFar(line, prev0, i, r, prev)
    {
      MarkedStep(line, prev0, i, r, prev);
      var mf := line.moves[i];
      var move := mf.move;
      if move.Some? && Some(move.value.to) == prev {
        move := Some(move.value.(same := Some(true)));
      }
      var forks := SetSameForks(mf.forks, prev);
      assert mf.(move := move, forks := forks) == MarkedEntry(mf, prev);
      r := r + [mf.(move := move, forks := forks)];
      prev := ToOf(mf);
    }
    assert r + [] == r;
  }

  /** The entries before i are marked into r, and `prev` is what entry i is marked against. */
  ghost predicate MarkedSoFar(line: Variation, prev0: Option<PlaceFormat>, i: nat, r: seq<MoveFormat>, prev: Option<PlaceFormat>)
    requires i <= |line.moves|
  {
    MarkedLine(line, 0, prev0) == r + MarkedLine(line, i, prev)
  }

  lemma MarkedStep(line: Variation, prev0: Option<PlaceFormat>, i: nat, r: seq<MoveFormat>, prev: Option<PlaceFormat>)
    requires i < |line.moves| && MarkedSoFar(line, prev0, i, r, prev)
    ensures MarkedSoFar(line, prev0, i + 1, r + [MarkedEntry(line.moves[i], prev)], ToOf(line.moves[i]))
  {
    var e, rest := MarkedEntry(line.moves[i], prev), MarkedLine(line, i + 1, ToOf(line.moves[i]));
    assert r + ([e] + rest) == (r + [e]) + rest;
  }

  method SetSameForks(f: Forks, prev: Option<PlaceFormat>) returns (r: Forks)
    ensures r == MarkedForks(f, prev)
    decreases f, 0
  {
    if f.NoForks? {
      return NoForks;
    }
    var vs: seq<Variation> := [];
    assert [] + MarkedVariations(f, 0, prev) == MarkedVariations(f, 0, prev);
    for k := 0 to |f.variations|
      invariant VariationsSoFar(f, prev, k, vs)
    {
      VariationsStep(f, prev, k, vs);
      var line := SetSame(f.variations[k], prev);
      vs := vs + [Variation(line)];
    }
    assert vs + [] == vs;
    return Forks(vs);
  }

  /** The variations before k are marked into vs. */
  ghost predicate VariationsSoFar(f: Forks, prev: Option<PlaceFormat>, k: nat, vs: seq<Variation>)
    requires f.Forks? && k <= |f.variations|
  {
    MarkedVariations(f, 0, prev) == vs + MarkedVariations(f, k, prev)
  }

  lemma VariationsStep(f: Forks, prev: Option<PlaceFormat>, k: nat, vs: seq<Variation>)
    requires f.Forks? && k < |f.variations| && VariationsSoFar(f, prev, k, vs)
    ensures VariationsSoFar(f, prev, k + 1, vs + [Variation(MarkedLine(f.variations[k], 0, prev))])
  {
    var v, rest := Variation(MarkedLine(f.variations[k], 0, prev)), MarkedVariations(f, k + 1, prev);
    assert vs + ([v] + rest) == (vs + [v]) + rest;
  }

  // --------------------------------------------------------------- record

  /** The moves k.. of the message, converted in order. */
  function MovesOf(ms: seq<PkfMove>, k: nat): (r: Result<seq<MoveFormat>, PkfConvertError>)
    requires k <= |ms|
    ensures r.Ok? ==> |r.value| == |ms| - k
    ensures r.Ok? <==> forall i | k <= i < |ms| :: MoveOf(ms[i]).Ok?
    ensures r.Ok? ==> forall i | 0 <= i < |r.value| :: r.value[i] == MoveOf(ms[k + i]).value
    ensures r.Err? ==> exists i | k <= i < |ms| ::
      MoveOf(ms[i]) == Err(r.error) && forall i' | k <= i' < i :: MoveOf(ms[i']).Ok?
    decreases |ms| - k
  {
    if k == |ms| then Ok([])
    else
      var m := MoveOf(ms[k]);
      if m.Err? then Err(m.error)
      else
        var rest := MovesOf(ms, k + 1);
        var r := if rest.Err? then Err(rest.error) else Ok([m.value] + rest.value);
        MovesNext(ms, k, rest, r);
        r
  }

  /** What converting the moves k.. means: all convert, in order, or the first failure is returned. */
  ghost predicate MovesMeaning(ms: seq<PkfMove>, k: nat, r: Result<seq<MoveFormat>, PkfConvertError>)
    requires k <= |ms|
  {
    && (r.Ok? <==> forall i | k <= i < |ms| :: MoveOf(ms[i]).Ok?)
    && (r.Ok? ==> |r.value| == |ms| - k)
    && (r.Ok? ==> forall i | 0 <= i < |r.value| :: r.value[i] == MoveOf(ms[k + i]).value)
    && (r.Err? ==> exists i | k <= i < |ms| ::
          MoveOf(ms[i]) == Err(r.error) && forall i' | k <= i' < i :: MoveOf(ms[i']).Ok?)
  }

  lemma MovesNext(ms: seq<PkfMove>, k: nat, rest: Result<seq<MoveFormat>, PkfConvertError>,
                  r: Result<seq<MoveFormat>, PkfConvertError>)
    requires k < |ms| && MoveOf(ms[k]).Ok? && MovesMeaning(ms, k + 1, rest)
    requires r == if rest.Err? then Err(rest.error) else Ok([MoveOf(ms[k]).value] + rest.value)
    ensures MovesMeaning(ms, k, r)
  {
    if rest.Ok? {
      assert forall i | 1 <= i < |r.value| :: r.value[i] == rest.value[i - 1];
    } else {
      var i :| k + 1 <= i < |ms| && MoveOf(ms[i]) == Err(rest.error) && forall i' | k + 1 <= i' < i :: MoveOf(ms[i']).Ok?;
      assert forall i' | k <= i' < i :: MoveOf(ms[i']).Ok?;
    }
  }

  /**
   * The record of a message: the header as it is, the starting position
   * (None when the message has none), and the moves with their `same`
   * flags set.
   */
  function KifuOf(kifu: PkfKifu): (r: Result<JsonKifuFormat, PkfConvertError>)
  {
    var init := if kifu.initial.None? then Ok(None) else
      var i := InitialOf(kifu.initial.value);
      if i.Err? then Err(i.error) else Ok(Some(i.value));
    if init.Err? then Err(init.error)
    else
      var moves := MovesOf(kifu.moves, 0);
      if moves.Err? then Err(moves.error)
      else Ok(JsonKifuFormat(kifu.header, init.value, MarkedLine(Variation(moves.value), 0, None)))
  }

  /** The moves before k converted, in order, into `moves`. */
  ghost predicate ConvertedUpTo(ms: seq<PkfMove>, k: nat, moves: seq<MoveFormat>)
    requires k <= |ms|
  {
    |moves| == k && forall i | 0 <= i < k :: MoveOf(ms[i]).Ok? && moves[i] == MoveOf(ms[i]).value
  }

  /** When every move converts, the conversion is their values in order. */
  lemma ConvertedAll(ms: seq<PkfMove>, moves: seq<MoveFormat>)
    requires ConvertedUpTo(ms, |ms|, moves)
    ensures MovesOf(ms, 0) == Ok(moves)
  {
    var all := MovesOf(ms, 0);
    assert all.Ok?;
    assert all.value == moves;
  }

  /** The first move that fails decides the error. */
  lemma ConvertedFailsAt(ms: seq<PkfMove>, k: nat, moves: seq<MoveFormat>)
    requires k < |ms| && ConvertedUpTo(ms, k, moves) && MoveOf(ms[k]).Err?
    ensures MovesOf(ms, 0) == Err(MoveOf(ms[k]).error)
  {
    var all := MovesOf(ms, 0);
    assert all.Err?;
    var i :| 0 <= i < |ms| && MoveOf(ms[i]) == Err(all.error) && forall i' | 0 <= i' < i :: MoveOf(ms[i']).Ok?;
    assert i == k;
  }

  /** The loop that converts the message's moves one by one, stopping at the first failure. */
  method ConvertMoves(ms: seq<PkfMove>) returns (r: Result<seq<MoveFormat>, PkfConvertError>)
    ensures r == MovesOf(ms, 0)
  {
    var moves: seq<MoveFormat> := [];
    for k := 0 to |ms|
      invariant ConvertedUpTo(ms, k, moves)
    {
      var m := MoveOf(ms[k]);
      if m.Err? {
        ConvertedFailsAt(ms, k, moves);
        return Err(m.error);
      }
      moves := moves + [m.value];
    }
    ConvertedAll(ms, moves);
    return Ok(moves);
  }

  /** The starting position, then the moves, then `set_same` from no previous destination. */
  method ConvertKifu(kifu: PkfKifu) returns (r: Result<JsonKifuFormat, PkfConvertError>)
    ensures r == KifuOf(kifu)
  {
    var initial: Option<Initial> := None;
    if kifu.initial.Some? {
      var i := InitialOf(kifu.initial.value);
      if i.Err? {
        return Err(i.error);
      }
      initial := Some(i.value);
    }
    var moves := ConvertMoves(kifu.moves);
    if moves.Err? {
      return Err(moves.error);
    }
    var marked := SetSame(Variation(moves.value), None);
    return Ok(JsonKifuFormat(kifu.header, initial, marked));
  }

  /** The converted record keeps the header, has one entry per message move, and its starting position follows the message's. */
  lemma KifuOfShape(kifu: PkfKifu)
    ensures KifuOf(kifu).Ok? ==> KifuOf(kifu).value.header == kifu.header && |KifuOf(kifu).value.moves| == |kifu.moves|
    ensures KifuOf(kifu).Ok? ==> (KifuOf(kifu).value.initial.None? <==> kifu.initial.None?)
    ensures KifuOf(kifu).Ok? && kifu.initial.Some? ==> KifuOf(kifu).value.initial == Some(InitialOf(kifu.initial.value).value)
    ensures KifuOf(kifu).Ok? <==> (kifu.initial.None? || InitialOf(kifu.initial.value).Ok?) && MovesOf(kifu.moves, 0).Ok?
    ensures KifuOf(kifu).Ok? ==> KifuOf(kifu).value.moves == MarkedLine(Variation(MovesOf(kifu.moves, 0).value), 0, None)
    ensures KifuOf(kifu).Err? ==> (KifuOf(kifu).error ==
      if kifu.initial.Some? && InitialOf(kifu.initial.value).Err? then InitialOf(kifu.initial.value).error
      else MovesOf(kifu.moves, 0).error)
  {
  }

  /** The first move has no previous destination, so it is never marked. */
  lemma FirstMoveNotMarked(kifu: PkfKifu)
    requires KifuOf(kifu).Ok? && |kifu.moves| > 0
    ensures KifuOf(kifu).value.moves[0].move == MoveOf(kifu.moves[0]).value.move
  {
    var moves := MovesOf(kifu.moves, 0).value;
    assert MoveOf(kifu.moves[0]).Ok? && MoveOf(kifu.moves[0]).value == moves[0];
    MarkedLineAt(Variation(moves), 0, None, 0);
  }

  /** A message holding one empty move converts to the default record. */
  lemma DefaultKifu()
    ensures KifuOf(PkfKifu(map[], None, [PkfMove(None, [], None, [])])) == Ok(DefaultRecord())
  {
    var ms := [PkfMove(None, [], None, [])];
    assert MoveOf(ms[0]) == Ok(DefaultMove());
    assert MovesOf(ms, 1) == Ok([]);
    assert [DefaultMove()] + [] == [DefaultMove()];
    assert MovesOf(ms, 0) == Ok([DefaultMove()]);
    assert MarkedLine(Variation([DefaultMove()]), 1, None) == [];
  }
}
