// Conversion of a parsed CSA record into the record model. The CSA text
// parser itself belongs to another library; what it hands over (pieces,
// squares, actions, the starting position) is modelled here as plain data
// with the shapes the conversion reads.

module CsaRecord {
  import opened Jkf
  import Tables
  import Normalizer

  // ------------------------------------------------------ parsed values

  /** The CSA piece names, and AL (all remaining pieces). */
  datatype PieceType =
    | Pawn | Lance | Knight | Silver | Gold | Bishop | Rook | King
    | ProPawn | ProLance | ProKnight | ProSilver | Horse | Dragon | All

  /** A CSA square; 00 stands for a hand or for the origin of a drop. */
  datatype CsaSquare = CsaSquare(file: U8, rank: U8)

  datatype CsaConvertError = SquareZero | PieceTypeAll

  datatype Action =
    | Move(color: Color, from: CsaSquare, to: CsaSquare, piece: PieceType)
    | Toryo | Chudan | Sennichite | TimeUp | IllegalMove | IllegalAction(side: Color)
    | Jishogi | Kachi | Hikiwake | Matta | Tsumi | Fuzumi | Error

  /** A move with its time in whole seconds (the conversion reads no fraction). */
  datatype MoveRecord = MoveRecord(action: Action, seconds: Option<nat>)

  // -------------------------------------------------- piece conversions

  function KindOf(pt: PieceType): (r: Result<Kind, CsaConvertError>)
    ensures r.Err? <==> pt == All
    ensures r.Err? ==> r.error == PieceTypeAll
  {
    match pt
    case Pawn => Ok(FU) case Lance => Ok(KY) case Knight => Ok(KE) case Silver => Ok(GI)
    case Gold => Ok(KI) case Bishop => Ok(KA) case Rook => Ok(HI) case King => Ok(OU)
    case ProPawn => Ok(TO) case ProLance => Ok(NY) case ProKnight => Ok(NK) case ProSilver => Ok(NG)
    case Horse => Ok(UM) case Dragon => Ok(RY)
    case All => Err(PieceTypeAll)
  }

  /** The CSA piece of a kind: the inverse of KindOf. */
  function PieceTypeOf(k: Kind): (pt: PieceType)
    ensures pt != All
  {
    match k
    case FU => Pawn case KY => Lance case KE => Knight case GI => Silver
    case KI => Gold case KA => Bishop case HI => Rook case OU => King
    case TO => ProPawn case NY => ProLance case NK => ProKnight case NG => ProSilver
    case UM => Horse case RY => Dragon
  }

  /** The fourteen CSA pieces other than AL correspond one to one with the kinds. */
  lemma KindOfIsBijective(k: Kind, pt: PieceType)
    ensures KindOf(PieceTypeOf(k)) == Ok(k)
    ensures pt != All ==> PieceTypeOf(KindOf(pt).value) == pt
  {
  }

  /** A board cell from a CSA piece: AL leaves only the colour. */
  function PieceOf(c: Color, pt: PieceType): (p: Piece)
    ensures p.color == Some(c)
    ensures p.kind.Some? <==> pt != All
    ensures pt != All ==> p.kind.value == KindOf(pt).value
  {
    Piece(Some(c), if pt == All then None else Some(KindOf(pt).value))
  }

  /** A destination or origin; 00 is not a square. */
  function PlaceOf(sq: CsaSquare): (r: Result<PlaceFormat, CsaConvertError>)
    ensures r.Err? <==> sq.file == 0 && sq.rank == 0
    ensures r.Err? ==> r.error == SquareZero
    ensures r.Ok? ==> r.value.x == sq.file && r.value.y == sq.rank
  {
    if sq.file == 0 && sq.rank == 0 then Err(SquareZero) else Ok(PlaceFormat(sq.file, sq.rank))
  }

  // ---------------------------------------------------------------- time

  /**
   * A duration as hours, minutes and seconds: no hour field below one hour,
   * and the hour count cut to its low byte (the source casts it to u8).
   */
  function TimeOf(secs: nat): (t: TimeFormat)
    ensures t.m == (secs / 60) % 60 && t.s == secs % 60
    ensures t.h.None? <==> secs < 3600
    ensures t.h.Some? ==> t.h.value == (secs / 3600) % 256
  {
    var h := secs / 3600;
    TimeFormat(if h > 0 then Some(h % 256) else None, (secs / 60) % 60, secs % 60)
  }

  /** Below 256 hours a duration survives the split unchanged. */
  lemma TimeOfKeepsSeconds(secs: nat)
    requires secs < 256 * 3600
    ensures Seconds(TimeOf(secs)) == secs
  {
    var h := secs / 3600;
    var r := secs % 3600;
    assert secs == h * 3600 + r;
    assert (secs / 60) % 60 == r / 60 && secs % 60 == r % 60 by {
      assert secs / 60 == h * 60 + r / 60;
      assert secs % 60 == r % 60;
    }
  }

  /** A split time with minutes and seconds below sixty and no zero hour is its own split. */
  lemma TimeOfSeconds(t: TimeFormat)
    requires t.m < 60 && t.s < 60 && t.h != Some(0)
    ensures TimeOf(Seconds(t)) == t
  {
    var h := UnwrapOr(t.h, 0);
    var secs := Seconds(t);
    assert secs / 3600 == h;
    assert secs / 60 == h * 60 + t.m;
    assert (secs / 60) % 60 == t.m;
    assert secs % 60 == t.s;
  }

  // --------------------------------------------------------------- moves

  /** The special an action stands for; None for a move. */
  function SpecialOf(a: Action): (r: Option<MoveSpecial>)
    ensures r.None? <==> a.Move?
  {
    match a
    case Move(_, _, _, _) => None
    case Toryo => Some(SpecialToryo) case Chudan => Some(SpecialChudan)
    case Sennichite => Some(SpecialSennichite) case TimeUp => Some(SpecialTimeUp)
    case IllegalMove => Some(SpecialIllegalMove)
    case IllegalAction(c) => Some(if c == Black then SpecialIllegalActionBlack else SpecialIllegalActionWhite)
    case Jishogi => Some(SpecialJishogi) case Kachi => Some(SpecialKachi)
    case Hikiwake => Some(SpecialHikiwake) case Matta => Some(SpecialMatta)
    case Tsumi => Some(SpecialTsumi) case Fuzumi => Some(SpecialFuzumi)
    case Error => Some(SpecialError)
  }

  /** The time of an entry: the duration as the time of the move, a zero total. */
  function TimeOfRecord(seconds: Option<nat>): (t: Option<Time>)
    ensures t.Some? <==> seconds.Some?
    ensures t.Some? ==> t.value.now == TimeOf(seconds.value) && t.value.total == DefaultTimeFormat()
  {
    if seconds.Some? then Some(Time(TimeOf(seconds.value), DefaultTimeFormat())) else None
  }

  /**
   * A CSA move record as an entry. A move needs a real piece and a real
   * destination (the piece is checked first); an origin 00 makes it a drop.
   * Every other action becomes its special.
   */
  function EntryOf(m: MoveRecord): (r: Result<MoveFormat, CsaConvertError>)
    ensures m.action.Move? ==> (r.Err? <==> m.action.piece == All || PlaceOf(m.action.to).Err?)
    ensures m.action.Move? && m.action.piece == All ==> r == Err(PieceTypeAll)
    ensures !m.action.Move? ==> r.Ok?
    ensures r.Ok? ==> r.value.time == TimeOfRecord(m.seconds) && r.value.comments.None? && r.value.forks.NoForks?
    ensures r.Ok? ==> r.value.special == SpecialOf(m.action) && (r.value.move.Some? <==> m.action.Move?)
    ensures r.Ok? && m.action.Move? ==>
      var mv := r.value.move.value;
      mv.color == m.action.color && mv.piece == KindOf(m.action.piece).value &&
      mv.to == PlaceOf(m.action.to).value &&
      (mv.from.None? <==> PlaceOf(m.action.from).Err?) &&
      (mv.from.Some? ==> mv.from.value == PlaceOf(m.action.from).value) &&
      mv.same.None? && mv.promote.None? && mv.capture.None? && mv.relative.None?
  {
    var time := TimeOfRecord(m.seconds);
    match m.action
    case Move(c, from, to, pt) =>
      var kind := KindOf(pt);
      if kind.Err? then Err(kind.error)
      else
        var origin := PlaceOf(from);
        var dest := PlaceOf(to);
        if dest.Err? then Err(dest.error)
        else
          Ok(MoveFormat(Some(MoveMoveFormat(c, if origin.Ok? then Some(origin.value) else None, dest.value, kind.value,
                                            None, None, None, None)), None, time, None, NoForks))
    case _ => Ok(MoveFormat(None, None, time, SpecialOf(m.action), NoForks))
  }

  /** What a conversion of all moves means: all convert, in order, or the first failure is returned. */
  ghost predicate EntriesMeaning(ms: seq<MoveRecord>, r: Result<seq<MoveFormat>, CsaConvertError>)
  {
    && (r.Ok? <==> forall i | 0 <= i < |ms| :: EntryOf(ms[i]).Ok?)
    && (r.Ok? ==> |r.value| == |ms| && forall i | 0 <= i < |ms| :: r.value[i] == EntryOf(ms[i]).value)
    && (r.Err? ==> exists i | 0 <= i < |ms| :: EntryOf(ms[i]) == Err(r.error) && forall j | 0 <= j < i :: EntryOf(ms[j]).Ok?)
  }

  /** The entries of the moves, or the failure of the first move that has none. */
  function EntriesOf(ms: seq<MoveRecord>): (r: Result<seq<MoveFormat>, CsaConvertError>)
    ensures r.Ok? <==> forall i | 0 <= i < |ms| :: EntryOf(ms[i]).Ok?
    ensures r.Ok? ==> |r.value| == |ms| && forall i | 0 <= i < |ms| :: r.value[i] == EntryOf(ms[i]).value
    ensures r.Err? ==> exists i | 0 <= i < |ms| :: EntryOf(ms[i]) == Err(r.error) && forall j | 0 <= j < i :: EntryOf(ms[j]).Ok?
    decreases |ms|
  {
    if ms == [] then Ok([])
    else
      var init := EntriesOf(ms[..|ms| - 1]);
      var r := if init.Err? then init
               else
                 var last := EntryOf(ms[|ms| - 1]);
                 if last.Err? then Err(last.error) else Ok(init.value + [last.value]);
      EntriesNext(ms, init, r);
      r
  }

  lemma EntriesNext(ms: seq<MoveRecord>, init: Result<seq<MoveFormat>, CsaConvertError>, r: Result<seq<MoveFormat>, CsaConvertError>)
    requires ms != [] && EntriesMeaning(ms[..|ms| - 1], init)
    requires r == if init.Err? then init
                  else if EntryOf(ms[|ms| - 1]).Err? then Err(EntryOf(ms[|ms| - 1]).error)
                  else Ok(init.value + [EntryOf(ms[|ms| - 1]).value])
    ensures EntriesMeaning(ms, r)
  {
    var n := |ms| - 1;
    assert forall i | 0 <= i < n :: ms[..n][i] == ms[i];
    if init.Err? {
      var i :| 0 <= i < n && EntryOf(ms[..n][i]) == Err(init.error) && forall j | 0 <= j < i :: EntryOf(ms[..n][j]).Ok?;
      assert EntryOf(ms[i]) == Err(r.error);
    } else if EntryOf(ms[n]).Err? {
      assert forall j | 0 <= j < n :: EntryOf(ms[j]).Ok?;
    }
  }

  /** The action a special stands for: the only one SpecialOf maps to it. */
  function ActionOf(sp: MoveSpecial): (a: Action)
    ensures !a.Move? && SpecialOf(a) == Some(sp)
    ensures forall b: Action | SpecialOf(b) == Some(sp) :: b == a
  {
    match sp
    case SpecialToryo => Toryo case SpecialChudan => Chudan
    case SpecialSennichite => Sennichite case SpecialTimeUp => TimeUp
    case SpecialIllegalMove => IllegalMove
    case SpecialIllegalActionBlack => IllegalAction(Black) case SpecialIllegalActionWhite => IllegalAction(White)
    case SpecialJishogi => Jishogi case SpecialKachi => Kachi
    case SpecialHikiwake => Hikiwake case SpecialMatta => Matta
    case SpecialTsumi => Tsumi case SpecialFuzumi => Fuzumi
    case SpecialError => Error
  }

  // -------------------------------------------------------------- header

  /** The header fields a CSA record can carry, rendered as text. */
  datatype Names = Names(
    blackPlayer: Option<string>, whitePlayer: Option<string>, event: Option<string>, site: Option<string>,
    startTime: Option<string>, endTime: Option<string>, timeLimit: Option<string>, opening: Option<string>)

  function Put(h: map<string, string>, k: string, v: Option<string>): (r: map<string, string>)
    ensures v.Some? ==> r == h[k := v.value]
    ensures v.None? ==> r == h
  {
    if v.Some? then h[k := v.value] else h
  }

  /** Each present field under its KIF key: 先手 後手 棋戦 場所 開始日時 終了日時 持ち時間 戦型. */
  function HeaderOf(n: Names): (h: map<string, string>)
    ensures "先手" in h <==> n.blackPlayer.Some?
    ensures "先手" in h ==> h["先手"] == n.blackPlayer.value
    ensures "後手" in h <==> n.whitePlayer.Some?
    ensures "後手" in h ==> h["後手"] == n.whitePlayer.value
    ensures "棋戦" in h <==> n.event.Some?
    ensures "棋戦" in h ==> h["棋戦"] == n.event.value
    ensures "場所" in h <==> n.site.Some?
    ensures "場所" in h ==> h["場所"] == n.site.value
    ensures "戦型" in h <==> n.opening.Some?
    ensures "戦型" in h ==> h["戦型"] == n.opening.value
    ensures h.Keys <= {"先手", "後手", "棋戦", "場所", "開始日時", "終了日時", "持ち時間", "戦型"}
  {
    var h := Put(map[], "先手", n.blackPlayer);
    var h := Put(h, "後手", n.whitePlayer);
    var h := Put(h, "棋戦", n.event);
    var h := Put(h, "場所", n.site);
    var h := Put(h, "開始日時", n.startTime);
    var h := Put(h, "終了日時", n.endTime);
    var h := Put(h, "持ち時間", n.timeLimit);
    Put(h, "戦型", n.opening)
  }

  // ---------------------------------------------------- starting position

  /** A grid cell: nothing, or a piece of one side. */
  datatype Cell = NoCell | Occupied(color: Color, piece: PieceType)

  type GridRow = r: seq<Cell> | |r| == 9 witness seq(9, _ => NoCell)
  /** The bulk form (P1..P9), row i holding rank i + 1 from file 9 down to file 1. */
  type Grid = g: seq<GridRow> | |g| == 9 witness seq(9, _ => seq(9, _ => NoCell))

  /**
   * A parsed starting position: the squares a PI line removes, the bulk
   * grid if there is one, the single placements (square 00 for a hand),
   * and the side to move.
   */
  datatype CsaPosition = CsaPosition(
    drops: seq<(CsaSquare, PieceType)>,
    bulk: Option<Grid>,
    adds: seq<(Color, CsaSquare, PieceType)>,
    side: Color)

  predicate AtHand(a: (Color, CsaSquare, PieceType))
  {
    a.1.file == 0 && a.1.rank == 0
  }

  /** The placements that go to a hand, in order. */
  function HandPieces(adds: seq<(Color, CsaSquare, PieceType)>): (r: seq<(Color, PieceType)>)
    ensures |r| <= |adds|
    decreases |adds|
  {
    if adds == [] then []
    else
      var init := HandPieces(adds[..|adds| - 1]);
      var a := adds[|adds| - 1];
      if AtHand(a) then init + [(a.0, a.2)] else init
  }

  /** The placements that stay on the board, in order. */
  function BoardPieces(adds: seq<(Color, CsaSquare, PieceType)>): (r: seq<(Color, CsaSquare, PieceType)>)
    ensures |r| <= |adds|
    ensures forall i | 0 <= i < |r| :: r[i] in adds && !AtHand(r[i])
    decreases |adds|
  {
    if adds == [] then []
    else
      var init := BoardPieces(adds[..|adds| - 1]);
      var a := adds[|adds| - 1];
      if AtHand(a) then init else init + [a]
  }

  /** Splitting keeps every placement exactly once: those at 00 on one side, the rest on the other. */
  lemma {:induction false} SplitCounts(adds: seq<(Color, CsaSquare, PieceType)>)
    ensures |HandPieces(adds)| + |BoardPieces(adds)| == |adds|
    decreases |adds|
  {
    if adds != [] {
      SplitCounts(adds[..|adds| - 1]);
    }
  }

  function CellOf(cell: Cell): Piece
  {
    if cell.Occupied? then PieceOf(cell.color, cell.piece) else EmptyPiece()
  }

  /** Grid cell (i, j) goes to board[8 - j][i]. */
  function GridBoard(g: Grid): (b: Board)
    ensures forall i, j | 0 <= i < 9 && 0 <= j < 9 :: b[8 - j][i] == CellOf(g[i][j])
  {
    var b: Board := seq(9, x requires 0 <= x < 9 => seq(9, y requires 0 <= y < 9 => CellOf(g[y][8 - x])));
    b
  }

  predicate OnBoard(sq: CsaSquare)
  {
    1 <= sq.file <= 9 && 1 <= sq.rank <= 9
  }

  /** The board cells of the removed squares. */
  function DropCells(drops: seq<(CsaSquare, PieceType)>): (cells: seq<(nat, nat)>)
    requires forall i | 0 <= i < |drops| :: OnBoard(drops[i].0)
    ensures |cells| == |drops|
    ensures forall i | 0 <= i < |drops| :: cells[i] == (drops[i].0.file - 1, drops[i].0.rank - 1)
    ensures forall c | c in cells :: c.0 < 9 && c.1 < 9
    decreases |drops|
  {
    if drops == [] then []
    else
      var sq := drops[|drops| - 1].0;
      assert OnBoard(sq);
      var c: (nat, nat) := (sq.file - 1, sq.rank - 1);
      DropCells(drops[..|drops| - 1]) + [c]
  }

  /** An empty board with the placements put in order; a later one on the same square wins. */
  function PlacedBoard(ps: seq<(Color, CsaSquare, PieceType)>): (b: Board)
    requires forall i | 0 <= i < |ps| :: OnBoard(ps[i].1)
    decreases |ps|
  {
    if ps == [] then EmptyBoard()
    else
      var b := PlacedBoard(ps[..|ps| - 1]);
      var p := ps[|ps| - 1];
      assert OnBoard(p.1);
      b[p.1.file - 1 := b[p.1.file - 1][p.1.rank - 1 := PieceOf(p.0, p.2)]]
  }

  /** What the source can index: removed squares and placed squares must be squares of the board. */
  predicate BoardSquaresValid(pos: CsaPosition)
  {
    pos.bulk.None? ==>
      if BoardPieces(pos.adds) == [] then forall i | 0 <= i < |pos.drops| :: OnBoard(pos.drops[i].0)
      else forall i | 0 <= i < |BoardPieces(pos.adds)| :: OnBoard(BoardPieces(pos.adds)[i].1)
  }

  /**
   * The board: the bulk grid if there is one; else, without single
   * placements, the opening board minus the removed squares; else the
   * single placements on an empty board.
   */
  function BoardOf(pos: CsaPosition): Board
    requires BoardSquaresValid(pos)
  {
    if pos.bulk.Some? then GridBoard(pos.bulk.value)
    else if BoardPieces(pos.adds) == [] then Tables.Cleared(Tables.HirateBoard(), DropCells(pos.drops))
    else PlacedBoard(BoardPieces(pos.adds))
  }

  // ------------------------------------------------------- piece counting

  /** The pieces of each hand kind in a full set: 18 pawns, 4 of each minor piece, 2 bishops, 2 rooks. */
  function FullSet(): Hand
  {
    Hand(18, 4, 4, 4, 4, 2, 2)
  }

  /** Whether a cell holds a piece whose unpromoted kind is k. */
  function Hit(p: Piece, k: Kind): nat
  {
    if p.kind.Some? && Unpromoted(p.kind.value) == k then 1 else 0
  }

  /** Pieces of unpromoted kind k among the first n cells in row-major order. */
  function CountUpTo(b: Board, n: nat, k: Kind): nat
    requires n <= 81
  {
    if n == 0 then 0 else CountUpTo(b, n - 1, k) + Hit(b[(n - 1) / 9][(n - 1) % 9], k)
  }

  function CountOnBoard(b: Board, k: Kind): nat
  {
    CountUpTo(b, 81, k)
  }

  /** No kind has more pieces on the board than a full set holds. */
  predicate BoardFits(b: Board)
  {
    forall k | IsHandKind(k) :: CountOnBoard(b, k) <= HandCountOf(FullSet(), k)
  }

  /**
   * What the counter's range `0..num` yields for a signed count: the
   * count itself, or nothing once the count has gone negative.
   */
  function Missing(full: nat, onBoard: nat): nat
  {
    if onBoard <= full then full - onBoard else 0
  }

  /**
   * The pieces of a full set that are not on the board. The source counts
   * down a signed counter per kind, so a kind with more pieces on the
   * board than a full set holds simply has none remaining.
   */
  function Remaining(b: Board): (r: Hand)
    ensures forall k | IsHandKind(k) ::
      CountOnBoard(b, k) <= HandCountOf(FullSet(), k) ==> HandCountOf(r, k) + CountOnBoard(b, k) == HandCountOf(FullSet(), k)
    ensures forall k | IsHandKind(k) :: CountOnBoard(b, k) > HandCountOf(FullSet(), k) ==> HandCountOf(r, k) == 0
  {
    assert IsHandKind(FU) && IsHandKind(KY) && IsHandKind(KE) && IsHandKind(GI);
    assert IsHandKind(KI) && IsHandKind(KA) && IsHandKind(HI);
    Hand(Missing(18, CountOnBoard(b, FU)), Missing(4, CountOnBoard(b, KY)), Missing(4, CountOnBoard(b, KE)),
         Missing(4, CountOnBoard(b, GI)), Missing(4, CountOnBoard(b, KI)), Missing(2, CountOnBoard(b, KA)),
         Missing(2, CountOnBoard(b, HI)))
  }

  function AddHand(h: Hand, r: Hand): (s: Hand)
    ensures forall k | IsHandKind(k) :: HandCountOf(s, k) == HandCountOf(h, k) + HandCountOf(r, k)
  {
    Hand(h.FU + r.FU, h.KY + r.KY, h.KE + r.KE, h.GI + r.GI, h.KI + r.KI, h.KA + r.KA, h.HI + r.HI)
  }

  /** Hand placements must name a hand piece or AL. */
  predicate HandPiecesValid(hps: seq<(Color, PieceType)>)
  {
    forall i | 0 <= i < |hps| :: hps[i].1 == All || IsHandKind(KindOf(hps[i].1).value)
  }

  /** A named piece adds one to that side's hand; AL adds the given remainder. */
  function AddHandPiece(hands: Hands, hp: (Color, PieceType), rest: Hand): (r: Hands)
    requires hp.1 == All || IsHandKind(KindOf(hp.1).value)
  {
    var i := ColorIndex(hp.0);
    hands[i := if hp.1 == All then AddHand(hands[i], rest) else Normalizer.Increment(hands[i], KindOf(hp.1).value)]
  }

  /** The hands after the hand placements; every AL adds the same remainder. */
  function HandsOf(hps: seq<(Color, PieceType)>, rest: Hand): Hands
    requires HandPiecesValid(hps)
    decreases |hps|
  {
    if hps == [] then Tables.NoHands()
    else AddHandPiece(HandsOf(hps[..|hps| - 1], rest), hps[|hps| - 1], rest)
  }

  /** What the conversion needs to run without stopping. */
  predicate PositionConvertible(pos: CsaPosition)
  {
    BoardSquaresValid(pos) && HandPiecesValid(HandPieces(pos.adds))
  }

  /**
   * The starting position as the source converts it: always PresetOther
   * with data. An AL placement receives the pieces of a full set that are
   * not on the board, whatever the other hand placements hold.
   */
  function InitialOf(pos: CsaPosition): (init: Initial)
    requires PositionConvertible(pos)
    ensures init.preset == PresetOther && init.data.Some?
    ensures init.data.value.color == pos.side && init.data.value.board == BoardOf(pos)
  {
    var b := BoardOf(pos);
    Initial(PresetOther, Some(StateFormat(pos.side, b, HandsOf(HandPieces(pos.adds), Remaining(b)))))
  }

  // -------------------------------------------------------------- methods

  /** The source's `retain`: placements at 00 are moved to the hand list, in order. */
  method SplitPlacements(adds: seq<(Color, CsaSquare, PieceType)>)
    returns (hand: seq<(Color, PieceType)>, board: seq<(Color, CsaSquare, PieceType)>)
    ensures hand == HandPieces(adds) && board == BoardPieces(adds)
  {
    hand, board := [], [];
    for i := 0 to |adds|
      invariant hand == HandPieces(adds[..i]) && board == BoardPieces(adds[..i])
    {
      assert adds[..i + 1][..i] == adds[..i];
      var a := adds[i];
      if a.1.file == 0 && a.1.rank == 0 {
        hand := hand + [(a.0, a.2)];
      } else {
        board := board + [a];
      }
    }
    assert adds[..|adds|] == adds;
  }

  ghost predicate GridFilledUpTo(b: Board, g: Grid, n: nat)
  {
    forall x, y | 0 <= x < 9 && 0 <= y < 9 :: b[x][y] == if 9 * y + (8 - x) < n then CellOf(g[y][8 - x]) else EmptyPiece()
  }

  /** The nested loops over the grid rows and columns. */
  method FillFromGrid(g: Grid) returns (b: Board)
    ensures b == GridBoard(g)
  {
    b := EmptyBoard();
    for i := 0 to 9
      invariant GridFilledUpTo(b, g, 9 * i)
    {
      for j := 0 to 9
        invariant GridFilledUpTo(b, g, 9 * i + j)
      {
        FillStep(b, g, i, j);
        b := SetCell(b, 8 - j, i, CellOf(g[i][j]));
      }
    }
    var r := GridBoard(g);
    assert forall x | 0 <= x < 9 :: b[x] == r[x];
  }

  lemma FillStep(b: Board, g: Grid, i: nat, j: nat)
    requires i < 9 && j < 9 && GridFilledUpTo(b, g, 9 * i + j)
    ensures GridFilledUpTo(SetCell(b, 8 - j, i, CellOf(g[i][j])), g, 9 * i + j + 1)
  {
    var r := SetCell(b, 8 - j, i, CellOf(g[i][j]));
    forall x, y | 0 <= x < 9 && 0 <= y < 9
      ensures r[x][y] == if 9 * y + (8 - x) < 9 * i + j + 1 then CellOf(g[y][8 - x]) else EmptyPiece()
    {
      CellIndex(y, 8 - x);
      CellIndex(i, j);
    }
  }

  function SetCell(b: Board, x: nat, y: nat, p: Piece): (r: Board)
    requires x < 9 && y < 9
    ensures forall x', y' | 0 <= x' < 9 && 0 <= y' < 9 :: r[x'][y'] == if x' == x && y' == y then p else b[x'][y']
  {
    b[x := b[x][y := p]]
  }

  lemma ClearedStep(b0: Board, drops: seq<(CsaSquare, PieceType)>, i: nat)
    requires i < |drops| && forall k | 0 <= k < |drops| :: OnBoard(drops[k].0)
    ensures OnBoard(drops[i].0)
    ensures Tables.Cleared(b0, DropCells(drops[..i + 1])) ==
      var b := Tables.Cleared(b0, DropCells(drops[..i]));
      var sq := drops[i].0;
      b[sq.file - 1 := b[sq.file - 1][sq.rank - 1 := EmptyPiece()]]
  {
    assert drops[..i + 1][..i] == drops[..i];
  }

  /** The opening board with the removed squares emptied one by one. */
  method ClearDrops(drops: seq<(CsaSquare, PieceType)>) returns (b: Board)
    requires forall i | 0 <= i < |drops| :: OnBoard(drops[i].0)
    ensures b == Tables.Cleared(Tables.HirateBoard(), DropCells(drops))
  {
    var b0 := Tables.HirateBoard();
    b := b0;
    for i := 0 to |drops|
      invariant b == Tables.Cleared(b0, DropCells(drops[..i]))
    {
      ClearedStep(b0, drops, i);
      var sq := drops[i].0;
      b := b[sq.file - 1 := b[sq.file - 1][sq.rank - 1 := EmptyPiece()]];
    }
    assert drops[..|drops|] == drops;
  }

  /** Each single placement written in order onto an empty board. */
  method PlacePieces(ps: seq<(Color, CsaSquare, PieceType)>) returns (b: Board)
    requires forall i | 0 <= i < |ps| :: OnBoard(ps[i].1)
    ensures b == PlacedBoard(ps)
  {
    b := EmptyBoard();
    for i := 0 to |ps|
      invariant b == PlacedBoard(ps[..i])
    {
      assert ps[..i + 1][..i] == ps[..i];
      var p := ps[i];
      assert OnBoard(p.1);
      b := b[p.1.file - 1 := b[p.1.file - 1][p.1.rank - 1 := PieceOf(p.0, p.2)]];
    }
    assert ps[..|ps|] == ps;
  }

  lemma CellIndex(i: nat, j: nat)
    requires i < 9 && j < 9
    ensures (9 * i + j) / 9 == i && (9 * i + j) % 9 == j
  {
  }

  /** The counter after the first i ranks: the full set less their pieces, one entry per hand kind. */
  ghost predicate RowsCounted(pieces: map<Kind, int>, b: Board, i: nat)
    requires i <= 9
  {
    pieces.Keys == {FU, KY, KE, GI, KI, KA, HI} &&
    forall k | IsHandKind(k) :: k in pieces && pieces[k] == HandCountOf(FullSet(), k) - RowsHits(b, i, k)
  }

  /** The counter after the first i ranks and the first j cells of rank i. */
  ghost predicate CellsCounted(pieces: map<Kind, int>, b: Board, i: nat, j: nat)
    requires i < 9 && j <= 9
  {
    pieces.Keys == {FU, KY, KE, GI, KI, KA, HI} &&
    forall k | IsHandKind(k) :: k in pieces && pieces[k] == HandCountOf(FullSet(), k) - RowsHits(b, i, k) - RowHits(b[i], j, k)
  }

  function FullSetMap(): (m: map<Kind, int>)
    ensures forall k | IsHandKind(k) :: k in m && m[k] == HandCountOf(FullSet(), k)
  {
    map[FU := 18, KY := 4, KE := 4, GI := 4, KI := 4, KA := 2, HI := 2]
  }

  /**
   * The counter once the board is counted: one entry per hand kind, the
   * full set less the pieces on the board, negative for an over-full kind.
   */
  predicate CounterOf(pieces: map<Kind, int>, b: Board)
  {
    pieces.Keys == {FU, KY, KE, GI, KI, KA, HI} &&
    forall k | IsHandKind(k) :: k in pieces && pieces[k] == HandCountOf(FullSet(), k) - CountOnBoard(b, k)
  }

  /**
   * The counter of pieces not on the board, one per hand kind, lowered by
   * one for every piece on the board whose unpromoted kind is not a king.
   */
  method CountRemaining(b: Board) returns (pieces: map<Kind, int>)
    ensures CounterOf(pieces, b)
  {
    pieces := FullSetMap();
    CountedNothing(b);
    for i := 0 to 9
      invariant RowsCounted(pieces, b, i)
    {
      CountedRowStart(pieces, b, i);
      for j := 0 to 9
        invariant CellsCounted(pieces, b, i, j)
      {
        var col := b[i][j];
        if col.kind.Some? && Unpromoted(col.kind.value) != OU {
          var u := Unpromoted(col.kind.value);
          CountedStep(pieces, b, i, j, u);
          pieces := pieces[u := pieces[u] - 1];
        } else {
          CountedSkip(pieces, b, i, j);
        }
      }
      CountedRow(pieces, b, i);
    }
    CountedAll(pieces, b);
  }

  lemma CountedNothing(b: Board)
    ensures RowsCounted(FullSetMap(), b, 0)
  {
  }

  lemma CountedRowStart(pieces: map<Kind, int>, b: Board, i: nat)
    requires i < 9 && RowsCounted(pieces, b, i)
    ensures CellsCounted(pieces, b, i, 0)
  {
  }

  lemma CountedRow(pieces: map<Kind, int>, b: Board, i: nat)
    requires i < 9 && CellsCounted(pieces, b, i, 9)
    ensures RowsCounted(pieces, b, i + 1)
  {
    forall k | IsHandKind(k)
      ensures RowsHits(b, i + 1, k) == RowsHits(b, i, k) + RowHits(b[i], 9, k)
    {
      RowsHitsStep(b, i, k);
    }
  }

  /** Once every rank is counted, the counter holds the full set less the board. */
  lemma CountedAll(pieces: map<Kind, int>, b: Board)
    requires RowsCounted(pieces, b, 9)
    ensures CounterOf(pieces, b)
  {
    forall k | IsHandKind(k)
      ensures CountOnBoard(b, k) == RowsHits(b, 9, k)
    {
      BoardCount(b, 81, 9, k);
    }
  }

  /** Counting cell (i, j) lowers the counter of its unpromoted kind. */
  lemma CountedStep(pieces: map<Kind, int>, b: Board, i: nat, j: nat, u: Kind)
    requires i < 9 && j < 9 && CellsCounted(pieces, b, i, j)
    requires b[i][j].kind.Some? && u == Unpromoted(b[i][j].kind.value) && u != OU
    ensures u in pieces && CellsCounted(pieces[u := pieces[u] - 1], b, i, j + 1)
  {
    forall k | IsHandKind(k)
      ensures RowHits(b[i], j + 1, k) == RowHits(b[i], j, k) + Hit(b[i][j], k)
    {
      RowHitsStep(b[i], j, k);
    }
  }

  /** An empty cell or a king leaves the counter as it is. */
  lemma CountedSkip(pieces: map<Kind, int>, b: Board, i: nat, j: nat)
    requires i < 9 && j < 9 && CellsCounted(pieces, b, i, j)
    requires b[i][j].kind.None? || Unpromoted(b[i][j].kind.value) == OU
    ensures CellsCounted(pieces, b, i, j + 1)
  {
    forall k | IsHandKind(k)
      ensures RowHits(b[i], j + 1, k) == RowHits(b[i], j, k) + Hit(b[i][j], k)
    {
      RowHitsStep(b[i], j, k);
    }
  }

  /** The counter, read as hand counts, is the remaining set. */
  lemma RemainingOfCounter(b: Board, pieces: map<Kind, int>)
    requires CounterOf(pieces, b)
    ensures pieces.Keys == {FU, KY, KE, GI, KI, KA, HI}
    ensures forall k | IsHandKind(k) :: k in pieces && Positive(pieces[k]) == HandCountOf(Remaining(b), k)
  {
  }

  lemma HandExtensional(a: Hand, b: Hand)
    requires forall k | IsHandKind(k) :: HandCountOf(a, k) == HandCountOf(b, k)
    ensures a == b
  {
    assert IsHandKind(FU) && IsHandKind(KY) && IsHandKind(KE) && IsHandKind(GI);
    assert IsHandKind(KI) && IsHandKind(KA) && IsHandKind(HI);
  }

  /** The hand count a signed counter stands for: nothing when it is not positive. */
  function Positive(n: int): nat
  {
    if n > 0 then n else 0
  }

  /**
   * An AL placement: every kind of the counter, in the counter's own
   * (unspecified) order, added to the hand as many times as it counts;
   * a count that is not positive adds nothing.
   */
  method AddRemaining(hand: Hand, pieces: map<Kind, int>, ghost rest: Hand) returns (h: Hand)
    requires forall k | IsHandKind(k) :: k in pieces && Positive(pieces[k]) == HandCountOf(rest, k)
    requires pieces.Keys == {FU, KY, KE, GI, KI, KA, HI}
    ensures h == AddHand(hand, rest)
  {
    h := hand;
    var todo := pieces.Keys;
    AddedNone(hand, rest, todo);
    while todo != {}
      invariant todo <= pieces.Keys
      invariant AddedBut(h, hand, rest, todo, FU, 0)
      decreases |todo|
    {
      var kind :| kind in todo;
      var num := pieces[kind];
      assert IsHandKind(kind) && Positive(num) == HandCountOf(rest, kind);
      AddedStart(h, hand, rest, todo, kind);
      for n := 0 to Positive(num)
        invariant AddedBut(h, hand, rest, todo, kind, n)
      {
        AddedOne(h, hand, rest, todo, kind, n);
        h := Normalizer.Increment(h, kind);
      }
      AddedKind(h, hand, rest, todo, kind);
      todo := todo - {kind};
    }
    AddedAll(h, hand, rest);
  }

  /**
   * h is hand plus the rest for every kind outside todo, plus n pieces of
   * kind (a kind of todo being added); with n == 0 no piece of todo is added yet.
   */
  ghost predicate AddedBut(h: Hand, hand: Hand, rest: Hand, todo: set<Kind>, kind: Kind, n: nat)
  {
    forall k | IsHandKind(k) ::
      HandCountOf(h, k) == HandCountOf(hand, k) + (if k == kind && k in todo then n else if k in todo then 0 else HandCountOf(rest, k))
  }

  lemma AddedNone(hand: Hand, rest: Hand, todo: set<Kind>)
    requires todo == {FU, KY, KE, GI, KI, KA, HI}
    ensures AddedBut(hand, hand, rest, todo, FU, 0)
  {
  }

  lemma AddedStart(h: Hand, hand: Hand, rest: Hand, todo: set<Kind>, kind: Kind)
    requires AddedBut(h, hand, rest, todo, FU, 0) && kind in todo
    ensures AddedBut(h, hand, rest, todo, kind, 0)
  {
  }

  lemma AddedOne(h: Hand, hand: Hand, rest: Hand, todo: set<Kind>, kind: Kind, n: nat)
    requires AddedBut(h, hand, rest, todo, kind, n) && kind in todo && IsHandKind(kind)
    ensures AddedBut(Normalizer.Increment(h, kind), hand, rest, todo, kind, n + 1)
  {
  }

  lemma AddedKind(h: Hand, hand: Hand, rest: Hand, todo: set<Kind>, kind: Kind)
    requires kind in todo && IsHandKind(kind) && AddedBut(h, hand, rest, todo, kind, HandCountOf(rest, kind))
    ensures AddedBut(h, hand, rest, todo - {kind}, FU, 0)
  {
  }

  lemma AddedAll(h: Hand, hand: Hand, rest: Hand)
    requires AddedBut(h, hand, rest, {}, FU, 0)
    ensures h == AddHand(hand, rest)
  {
    HandExtensional(h, AddHand(hand, rest));
  }

  /** The hand placements in order: a named piece adds one, AL adds the counter. */
  method AddHandPieces(hps: seq<(Color, PieceType)>, pieces: map<Kind, int>, ghost rest: Hand) returns (hands: Hands)
    requires HandPiecesValid(hps)
    requires forall k | IsHandKind(k) :: k in pieces && Positive(pieces[k]) == HandCountOf(rest, k)
    requires pieces.Keys == {FU, KY, KE, GI, KI, KA, HI}
    ensures hands == HandsOf(hps, rest)
  {
    hands := [EmptyHand(), EmptyHand()];
    for i := 0 to |hps|
      invariant hands == HandsOf(hps[..i], rest)
    {
      assert hps[..i + 1][..i] == hps[..i];
      var (c, pt) := hps[i];
      var index := ColorIndex(c);
      var kind := KindOf(pt);
      if kind.Ok? {
        assert IsHandKind(kind.value);
        hands := hands[index := Normalizer.Increment(hands[index], kind.value)];
      } else {
        var h := AddRemaining(hands[index], pieces, rest);
        hands := hands[index := h];
      }
    }
    assert hps[..|hps|] == hps;
  }

  /** The conversion of a parsed starting position, step by step as the source does it. */
  method ConvertPosition(pos: CsaPosition) returns (init: Initial)
    requires PositionConvertible(pos)
    ensures init == InitialOf(pos)
  {
    var handPieces, placed := SplitPlacements(pos.adds);
    var color := pos.side;
    var board: Board;
    if pos.bulk.Some? {
      board := FillFromGrid(pos.bulk.value);
    } else if placed == [] {
      board := ClearDrops(pos.drops);
    } else {
      board := PlacePieces(placed);
    }
    assert board == BoardOf(pos);
    var pieces := CountRemaining(board);
    RemainingOfCounter(board, pieces);
    var hands := AddHandPieces(handPieces, pieces, Remaining(board));
    init := Initial(PresetOther, Some(StateFormat(color, board, hands)));
  }

  // --------------------------------------------------------- the record

  /** A parsed CSA game record: the header fields, the starting position, the moves. */
  datatype GameRecord = GameRecord(names: Names, startPos: CsaPosition, moves: seq<MoveRecord>)

  predicate RecordConvertible(rec: GameRecord)
  {
    PositionConvertible(rec.startPos)
  }

  /**
   * The record a CSA game converts to: the header, the starting position,
   * and an empty first entry followed by one entry per move; or the
   * failure of the first move that has no entry.
   */
  function RecordOf(rec: GameRecord): (r: Result<JsonKifuFormat, CsaConvertError>)
    requires RecordConvertible(rec)
    ensures r.Ok? <==> EntriesOf(rec.moves).Ok?
    ensures r.Err? ==> r == Err(EntriesOf(rec.moves).error)
    ensures r.Ok? ==>
      r.value.header == HeaderOf(rec.names) && r.value.initial == Some(InitialOf(rec.startPos)) &&
      |r.value.moves| == |rec.moves| + 1 && r.value.moves[0] == DefaultMove() &&
      forall i | 0 <= i < |rec.moves| :: r.value.moves[i + 1] == EntryOf(rec.moves[i]).value
  {
    var entries := EntriesOf(rec.moves);
    if entries.Err? then Err(entries.error)
    else Ok(JsonKifuFormat(HeaderOf(rec.names), Some(InitialOf(rec.startPos)), [DefaultMove()] + entries.value))
  }

  /** The conversion of a game record: the header, the position, then the moves one by one until one fails. */
  method ConvertRecord(rec: GameRecord) returns (r: Result<JsonKifuFormat, CsaConvertError>)
    requires RecordConvertible(rec)
    ensures r == RecordOf(rec)
  {
    var header := HeaderOf(rec.names);
    var initial := ConvertPosition(rec.startPos);
    var moves := [DefaultMove()];
    EntriesNone(rec.moves);
    for i := 0 to |rec.moves|
      invariant EntriesUpTo(rec.moves, i, moves)
    {
      var entry := EntryOf(rec.moves[i]);
      if entry.Err? {
        EntriesStopAt(rec.moves, i);
        return Err(entry.error);
      }
      EntriesUpToStep(rec.moves, i, moves);
      moves := moves + [entry.value];
    }
    EntriesUpToAll(rec.moves, moves);
    r := Ok(JsonKifuFormat(header, Some(initial), moves));
  }

  /** The first i moves convert, and moves holds the empty first entry and their entries. */
  ghost predicate EntriesUpTo(ms: seq<MoveRecord>, i: nat, moves: seq<MoveFormat>)
  {
    i <= |ms| && EntriesOf(ms[..i]).Ok? && moves == [DefaultMove()] + EntriesOf(ms[..i]).value
  }

  lemma EntriesNone(ms: seq<MoveRecord>)
    ensures EntriesUpTo(ms, 0, [DefaultMove()])
  {
    assert ms[..0] == [];
  }

  lemma EntriesUpToStep(ms: seq<MoveRecord>, i: nat, moves: seq<MoveFormat>)
    requires i < |ms| && EntriesUpTo(ms, i, moves) && EntryOf(ms[i]).Ok?
    ensures EntriesUpTo(ms, i + 1, moves + [EntryOf(ms[i]).value])
  {
    assert ms[..i + 1][..i] == ms[..i];
  }

  lemma EntriesUpToAll(ms: seq<MoveRecord>, moves: seq<MoveFormat>)
    requires EntriesUpTo(ms, |ms|, moves)
    ensures EntriesOf(ms).Ok? && moves == [DefaultMove()] + EntriesOf(ms).value
  {
    assert ms[..|ms|] == ms;
  }

  /** A failing move after successful ones is the failure of the whole list. */
  lemma {:induction false} EntriesStopAt(ms: seq<MoveRecord>, i: nat)
    requires i < |ms| && EntriesOf(ms[..i]).Ok? && EntryOf(ms[i]).Err?
    ensures EntriesOf(ms) == Err(EntryOf(ms[i]).error)
    decreases |ms|
  {
    var init := ms[..|ms| - 1];
    if |ms| == i + 1 {
      assert init == ms[..i];
    } else {
      assert init[..i] == ms[..i] && init[i] == ms[i];
      EntriesStopAt(init, i);
    }
  }

  // ------------------------------------------------------- hand counts

  /** The hand placements of side c that name a piece of kind k. */
  function NamedCount(hps: seq<(Color, PieceType)>, c: Color, k: Kind): nat
    decreases |hps|
  {
    if hps == [] then 0
    else
      var hp := hps[|hps| - 1];
      NamedCount(hps[..|hps| - 1], c, k) + (if hp.0 == c && hp.1 != All && KindOf(hp.1).value == k then 1 else 0)
  }

  /** The AL placements of side c. */
  function AlCount(hps: seq<(Color, PieceType)>, c: Color): nat
    decreases |hps|
  {
    if hps == [] then 0
    else AlCount(hps[..|hps| - 1], c) + (if hps[|hps| - 1] == (c, All) then 1 else 0)
  }

  lemma HandPieceCount(hands: Hands, hp: (Color, PieceType), rest: Hand, c: Color, k: Kind)
    requires hp.1 == All || IsHandKind(KindOf(hp.1).value)
    requires IsHandKind(k)
    ensures HandCountOf(AddHandPiece(hands, hp, rest)[ColorIndex(c)], k) ==
      HandCountOf(hands[ColorIndex(c)], k) + (if hp.0 == c && hp.1 != All && KindOf(hp.1).value == k then 1 else 0) +
      (if hp == (c, All) then HandCountOf(rest, k) else 0)
  {
  }

  /** The pieces of kind k the AL placements of side c add, one remainder each. */
  function AlShare(hps: seq<(Color, PieceType)>, c: Color, rest: Hand, k: Kind): nat
    requires IsHandKind(k)
    decreases |hps|
  {
    if hps == [] then 0
    else AlShare(hps[..|hps| - 1], c, rest, k) + (if hps[|hps| - 1] == (c, All) then HandCountOf(rest, k) else 0)
  }

  lemma AlShareStep(a: nat, r: nat, share: nat, al: bool)
    requires share == a * r
    ensures share + (if al then r else 0) == (a + (if al then 1 else 0)) * r
  {
  }

  lemma {:induction false} AlShareCount(hps: seq<(Color, PieceType)>, c: Color, rest: Hand, k: Kind)
    requires IsHandKind(k)
    ensures AlShare(hps, c, rest, k) == AlCount(hps, c) * HandCountOf(rest, k)
    decreases |hps|
  {
    if hps != [] {
      var init := hps[..|hps| - 1];
      AlShareCount(init, c, rest, k);
      AlShareStep(AlCount(init, c), HandCountOf(rest, k), AlShare(init, c, rest, k), hps[|hps| - 1] == (c, All));
    }
  }

  lemma {:induction false} HandsShare(hps: seq<(Color, PieceType)>, rest: Hand, c: Color, k: Kind)
    requires HandPiecesValid(hps) && IsHandKind(k)
    ensures HandCountOf(HandsOf(hps, rest)[ColorIndex(c)], k) == NamedCount(hps, c, k) + AlShare(hps, c, rest, k)
    decreases |hps|
  {
    if hps == [] {
      assert HandsOf(hps, rest) == Tables.NoHands();
    } else {
      var init := hps[..|hps| - 1];
      HandsShare(init, rest, c, k);
      HandPieceCount(HandsOf(init, rest), hps[|hps| - 1], rest, c, k);
    }
  }

  /** A hand holds its side's named pieces, and the remainder once for each AL of its side. */
  lemma HandsCount(hps: seq<(Color, PieceType)>, rest: Hand, c: Color, k: Kind)
    requires HandPiecesValid(hps) && IsHandKind(k)
    ensures HandCountOf(HandsOf(hps, rest)[ColorIndex(c)], k) ==
      NamedCount(hps, c, k) + AlCount(hps, c) * HandCountOf(rest, k)
  {
    HandsShare(hps, rest, c, k);
    AlShareCount(hps, c, rest, k);
  }

  /** Without AL the remainder plays no part. */
  lemma {:induction false} HandsIgnoreRest(hps: seq<(Color, PieceType)>, r1: Hand, r2: Hand)
    requires HandPiecesValid(hps)
    requires AlCount(hps, Black) == 0 && AlCount(hps, White) == 0
    ensures HandsOf(hps, r1) == HandsOf(hps, r2)
    decreases |hps|
  {
    if hps != [] {
      HandsIgnoreRest(hps[..|hps| - 1], r1, r2);
    }
  }

  /** The pieces of kind k on the board and in both hands. */
  function TotalCount(st: StateFormat, k: Kind): nat
    requires IsHandKind(k)
  {
    CountOnBoard(st.board, k) + HandCountOf(st.hands[0], k) + HandCountOf(st.hands[1], k)
  }

  /** The named hand pieces of kind k, both sides together. */
  function NamedTotal(hps: seq<(Color, PieceType)>, k: Kind): nat
  {
    NamedCount(hps, Black, k) + NamedCount(hps, White, k)
  }

  /** A single AL between the two sides adds the remainder exactly once. */
  lemma SingleAl(hps: seq<(Color, PieceType)>, rest: Hand, k: Kind)
    requires IsHandKind(k) && AlCount(hps, Black) + AlCount(hps, White) == 1
    ensures AlShare(hps, Black, rest, k) + AlShare(hps, White, rest, k) == HandCountOf(rest, k)
  {
    AlShareCount(hps, Black, rest, k);
    AlShareCount(hps, White, rest, k);
    if AlCount(hps, Black) == 0 {
      assert AlCount(hps, White) == 1;
    } else {
      assert AlCount(hps, Black) == 1 && AlCount(hps, White) == 0;
    }
  }

  /** The total of a state whose hands come from the hand placements, with a single AL. */
  lemma TotalWithSingleAl(st: StateFormat, hps: seq<(Color, PieceType)>, rest: Hand, k: Kind)
    requires HandPiecesValid(hps) && IsHandKind(k) && st.hands == HandsOf(hps, rest)
    requires AlCount(hps, Black) + AlCount(hps, White) == 1
    ensures TotalCount(st, k) == CountOnBoard(st.board, k) + NamedTotal(hps, k) + HandCountOf(rest, k)
  {
    HandsShare(hps, rest, Black, k);
    HandsShare(hps, rest, White, k);
    SingleAl(hps, rest, k);
  }

  /**
   * As the source converts it, a position with a single AL holds a full
   * set (or the board's pieces, when the board already holds more) plus
   * every named hand piece: AL receives the pieces that are not on the
   * board without leaving out those already named.
   */
  lemma AlTotalAsWritten(pos: CsaPosition, k: Kind)
    requires PositionConvertible(pos) && IsHandKind(k)
    requires AlCount(HandPieces(pos.adds), Black) + AlCount(HandPieces(pos.adds), White) == 1
    ensures TotalCount(InitialOf(pos).data.value, k) ==
      (if CountOnBoard(BoardOf(pos), k) <= HandCountOf(FullSet(), k) then HandCountOf(FullSet(), k) else CountOnBoard(BoardOf(pos), k)) +
      NamedTotal(HandPieces(pos.adds), k)
  {
    TotalWithSingleAl(InitialOf(pos).data.value, HandPieces(pos.adds), Remaining(BoardOf(pos)), k);
  }

  /** A mating problem's opening: an empty bulk board, a gold in Black's hand, AL for White. */
  function GoldThenAl(g: Grid): CsaPosition
  {
    CsaPosition([], Some(g), [(Black, CsaSquare(0, 0), Gold), (White, CsaSquare(0, 0), All)], Black)
  }

  predicate EmptyGrid(g: Grid)
  {
    forall i, j | 0 <= i < 9 && 0 <= j < 9 :: g[i][j] == NoCell
  }

  /** Every cell empty: nothing counted. */
  lemma {:induction false} EmptyCount(b: Board, n: nat, k: Kind)
    requires n <= 81
    requires forall i, j | 0 <= i < 9 && 0 <= j < 9 :: b[i][j] == EmptyPiece()
    ensures CountUpTo(b, n, k) == 0
  {
    if n > 0 {
      EmptyCount(b, n - 1, k);
    }
  }

  lemma GoldSplit(g: Grid)
    ensures HandPieces(GoldThenAl(g).adds) == [(Black, Gold), (White, All)]
    ensures BoardPieces(GoldThenAl(g).adds) == []
  {
    var adds := GoldThenAl(g).adds;
    assert adds[..1][..0] == [] && adds[..|adds| - 1] == adds[..1];
  }

  lemma GoldBoardEmpty(g: Grid)
    requires EmptyGrid(g)
    ensures BoardSquaresValid(GoldThenAl(g))
    ensures forall k | IsHandKind(k) :: CountOnBoard(BoardOf(GoldThenAl(g)), k) == 0
  {
    var b := BoardOf(GoldThenAl(g));
    forall k | IsHandKind(k)
      ensures CountOnBoard(b, k) == 0
    {
      EmptyCount(b, 81, k);
    }
  }

  lemma GoldHands(rest: Hand)
    ensures HandPiecesValid([(Black, Gold), (White, All)])
    ensures HandsOf([(Black, Gold), (White, All)], rest) ==
      [Normalizer.Increment(EmptyHand(), KI), AddHand(EmptyHand(), rest)]
  {
    var hps := [(Black, Gold), (White, All)];
    assert hps[..1] == [(Black, Gold)] && hps[..1][..0] == [];
  }

  /** The position above converts to five golds: Black's one and all four again for White. */
  lemma GoldCountedTwice(g: Grid)
    requires EmptyGrid(g)
    ensures PositionConvertible(GoldThenAl(g))
    ensures InitialOf(GoldThenAl(g)).data.value.hands[0].KI == 1
    ensures InitialOf(GoldThenAl(g)).data.value.hands[1].KI == 4
    ensures TotalCount(InitialOf(GoldThenAl(g)).data.value, KI) == 5 > FullSet().KI
  {
    GoldState(g);
    var st := InitialOf(GoldThenAl(g)).data.value;
    GoldHandCounts(st);
  }

  /** The converted state of the position above: Black holds the gold, White the remainder. */
  lemma GoldState(g: Grid)
    requires EmptyGrid(g)
    ensures PositionConvertible(GoldThenAl(g))
    ensures var st := InitialOf(GoldThenAl(g)).data.value;
      CountOnBoard(st.board, KI) == 0 && BoardFits(st.board) &&
      st.hands == [Normalizer.Increment(EmptyHand(), KI), AddHand(EmptyHand(), Remaining(st.board))]
  {
    GoldSplit(g);
    GoldBoardEmpty(g);
    var b := BoardOf(GoldThenAl(g));
    assert BoardFits(b);
    GoldHands(Remaining(b));
  }

  lemma GoldHandCounts(st: StateFormat)
    requires CountOnBoard(st.board, KI) == 0 && BoardFits(st.board)
    requires st.hands == [Normalizer.Increment(EmptyHand(), KI), AddHand(EmptyHand(), Remaining(st.board))]
    ensures st.hands[0].KI == 1 && st.hands[1].KI == 4
    ensures TotalCount(st, KI) == 5
  {
    assert IsHandKind(KI);
    assert HandCountOf(Remaining(st.board), KI) == 4;
  }

  /** Room for the named hand pieces beside the board. */
  predicate NamedFit(pos: CsaPosition)
  {
    PositionConvertible(pos) &&
    forall k | IsHandKind(k) ::
      CountOnBoard(BoardOf(pos), k) + NamedTotal(HandPieces(pos.adds), k) <= HandCountOf(FullSet(), k)
  }

  lemma NamedFitCounts(pos: CsaPosition, b: Board, n: seq<(Color, PieceType)>)
    requires NamedFit(pos) && b == BoardOf(pos) && n == HandPieces(pos.adds)
    ensures CountOnBoard(b, FU) + NamedTotal(n, FU) <= 18 && CountOnBoard(b, KY) + NamedTotal(n, KY) <= 4
    ensures CountOnBoard(b, KE) + NamedTotal(n, KE) <= 4 && CountOnBoard(b, GI) + NamedTotal(n, GI) <= 4
    ensures CountOnBoard(b, KI) + NamedTotal(n, KI) <= 4 && CountOnBoard(b, KA) + NamedTotal(n, KA) <= 2
    ensures CountOnBoard(b, HI) + NamedTotal(n, HI) <= 2
  {
    assert IsHandKind(FU) && IsHandKind(KY) && IsHandKind(KE) && IsHandKind(GI);
    assert IsHandKind(KI) && IsHandKind(KA) && IsHandKind(HI);
  }

  /** The pieces of a full set neither on the board nor named for a hand. */
  function RemainingAfterNamed(pos: CsaPosition): (r: Hand)
    requires NamedFit(pos)
    ensures forall k | IsHandKind(k) ::
      HandCountOf(r, k) + CountOnBoard(BoardOf(pos), k) + NamedTotal(HandPieces(pos.adds), k) == HandCountOf(FullSet(), k)
  {
    var b := BoardOf(pos);
    var n := HandPieces(pos.adds);
    NamedFitCounts(pos, b, n);
    Hand(18 - CountOnBoard(b, FU) - NamedTotal(n, FU), 4 - CountOnBoard(b, KY) - NamedTotal(n, KY),
         4 - CountOnBoard(b, KE) - NamedTotal(n, KE), 4 - CountOnBoard(b, GI) - NamedTotal(n, GI),
         4 - CountOnBoard(b, KI) - NamedTotal(n, KI), 2 - CountOnBoard(b, KA) - NamedTotal(n, KA),
         2 - CountOnBoard(b, HI) - NamedTotal(n, HI))
  }

  /** The starting position with AL receiving only the pieces nobody holds yet. */
  function InitialOfCorrected(pos: CsaPosition): (init: Initial)
    requires NamedFit(pos)
    ensures init.preset == PresetOther && init.data.Some?
    ensures init.data.value.color == pos.side && init.data.value.board == BoardOf(pos)
  {
    Initial(PresetOther, Some(StateFormat(pos.side, BoardOf(pos), HandsOf(HandPieces(pos.adds), RemainingAfterNamed(pos)))))
  }

  /** With the correction a single AL completes exactly one full set. */
  lemma AlCompletesSet(pos: CsaPosition, k: Kind)
    requires NamedFit(pos) && IsHandKind(k)
    requires AlCount(HandPieces(pos.adds), Black) + AlCount(HandPieces(pos.adds), White) == 1
    ensures TotalCount(InitialOfCorrected(pos).data.value, k) == HandCountOf(FullSet(), k)
  {
    TotalWithSingleAl(InitialOfCorrected(pos).data.value, HandPieces(pos.adds), RemainingAfterNamed(pos), k);
  }

  /** Without AL the correction changes nothing. */
  lemma CorrectedAgreesWithoutAl(pos: CsaPosition)
    requires NamedFit(pos)
    requires AlCount(HandPieces(pos.adds), Black) == 0 && AlCount(HandPieces(pos.adds), White) == 0
    ensures InitialOfCorrected(pos) == InitialOf(pos)
  {
    HandsIgnoreRest(HandPieces(pos.adds), RemainingAfterNamed(pos), Remaining(BoardOf(pos)));
  }

  /** The corrected conversion of the mating problem: three golds remain for White. */
  lemma GoldCountedOnce(g: Grid)
    requires EmptyGrid(g)
    ensures NamedFit(GoldThenAl(g))
    ensures InitialOfCorrected(GoldThenAl(g)).data.value.hands[1].KI == 3
  {
    GoldNamed(g);
    var pos := GoldThenAl(g);
    GoldHands(RemainingAfterNamed(pos));
    GoldRemainingAfterNamed(pos);
  }

  /** Only the gold is named, and nothing is on the board. */
  lemma GoldNamed(g: Grid)
    requires EmptyGrid(g)
    ensures NamedFit(GoldThenAl(g))
    ensures CountOnBoard(BoardOf(GoldThenAl(g)), KI) == 0 && NamedTotal(HandPieces(GoldThenAl(g).adds), KI) == 1
    ensures HandPieces(GoldThenAl(g).adds) == [(Black, Gold), (White, All)]
  {
    GoldSplit(g);
    GoldBoardEmpty(g);
    var pos := GoldThenAl(g);
    var hps := HandPieces(pos.adds);
    assert hps[..1] == [(Black, Gold)] && hps[..1][..0] == [];
    forall k | IsHandKind(k)
      ensures NamedTotal(hps, k) == if k == KI then 1 else 0
    {
      assert NamedCount(hps[..1], Black, k) == if k == KI then 1 else 0;
      assert NamedCount(hps[..1], White, k) == 0;
    }
  }

  lemma GoldRemainingAfterNamed(pos: CsaPosition)
    requires NamedFit(pos)
    requires CountOnBoard(BoardOf(pos), KI) == 0 && NamedTotal(HandPieces(pos.adds), KI) == 1
    ensures RemainingAfterNamed(pos).KI == 3
  {
    assert IsHandKind(KI);
    assert HandCountOf(RemainingAfterNamed(pos), KI) == 3;
  }

  // -------------------------------------------------- presets read back

  lemma CellStep(b: Board, n: nat, x: nat, j: nat, k: Kind)
    requires x < 9 && j < 9 && n == 9 * x + j
    ensures CountUpTo(b, n + 1, k) == CountUpTo(b, n, k) + Hit(b[x][j], k)
  {
    CellIndex(x, j);
  }

  /** Pieces of unpromoted kind k among the first j cells of a row. */
  function RowHits(r: Row, j: nat, k: Kind): nat
    requires j <= 9
  {
    if j == 0 then 0 else RowHits(r, j - 1, k) + Hit(r[j - 1], k)
  }

  /** Pieces of unpromoted kind k among the first x rows. */
  function RowsHits(b: Board, x: nat, k: Kind): nat
    requires x <= 9
  {
    if x == 0 then 0 else RowsHits(b, x - 1, k) + RowHits(b[x - 1], 9, k)
  }

  lemma {:induction false} RowCount(b: Board, n: nat, x: nat, j: nat, k: Kind)
    requires x < 9 && j <= 9 && n == 9 * x
    ensures CountUpTo(b, n + j, k) == CountUpTo(b, n, k) + RowHits(b[x], j, k)
  {
    if j > 0 {
      RowCount(b, n, x, j - 1, k);
      CellStep(b, n + j - 1, x, j - 1, k);
    }
  }

  /** The count over the board, row by row. */
  lemma {:induction false} BoardCount(b: Board, n: nat, x: nat, k: Kind)
    requires x <= 9 && n == 9 * x
    ensures CountUpTo(b, n, k) == RowsHits(b, x, k)
  {
    if x > 0 {
      BoardCount(b, n - 9, x - 1, k);
      RowCount(b, n - 9, x - 1, 9, k);
    }
  }

  lemma RowHitsStep(r: Row, j: nat, k: Kind)
    requires j < 9
    ensures RowHits(r, j + 1, k) == RowHits(r, j, k) + Hit(r[j], k)
  {
  }

  lemma RowsHitsStep(b: Board, x: nat, k: Kind)
    requires x < 9
    ensures RowsHits(b, x + 1, k) == RowsHits(b, x, k) + RowHits(b[x], 9, k)
  {
  }

  /** The hits of a row, cell by cell. */
  lemma RowHitsCells(r: Row, k: Kind)
    ensures RowHits(r, 9, k) == Hit(r[0], k) + Hit(r[1], k) + Hit(r[2], k) + Hit(r[3], k) + Hit(r[4], k) +
      Hit(r[5], k) + Hit(r[6], k) + Hit(r[7], k) + Hit(r[8], k)
  {
    RowHitsStep(r, 0, k); RowHitsStep(r, 1, k); RowHitsStep(r, 2, k);
    RowHitsStep(r, 3, k); RowHitsStep(r, 4, k); RowHitsStep(r, 5, k);
    RowHitsStep(r, 6, k); RowHitsStep(r, 7, k); RowHitsStep(r, 8, k);
  }

  /** The hits of a board, row by row. */
  lemma RowsHitsRows(b: Board, k: Kind)
    ensures RowsHits(b, 9, k) == RowHits(b[0], 9, k) + RowHits(b[1], 9, k) + RowHits(b[2], 9, k) + RowHits(b[3], 9, k) +
      RowHits(b[4], 9, k) + RowHits(b[5], 9, k) + RowHits(b[6], 9, k) + RowHits(b[7], 9, k) + RowHits(b[8], 9, k)
  {
    RowsHitsStep(b, 0, k); RowsHitsStep(b, 1, k); RowsHitsStep(b, 2, k);
    RowsHitsStep(b, 3, k); RowsHitsStep(b, 4, k); RowsHitsStep(b, 5, k);
    RowsHitsStep(b, 6, k); RowsHitsStep(b, 7, k); RowsHitsStep(b, 8, k);
  }

  /** A file of the opening board: a piece at each end, a pawn on each side's third rank, and two inner cells. */
  function OpeningFile(a: Kind, x: Piece, y: Piece): Row
  {
    [Tables.WP(a), x, Tables.WP(FU), EmptyPiece(), EmptyPiece(), EmptyPiece(), Tables.BP(FU), y, Tables.BP(a)]
  }

  lemma FileHits(a: Kind, x: Piece, y: Piece, k: Kind)
    ensures RowHits(OpeningFile(a, x, y), 9, k) == 2 * Hit(Tables.WP(a), k) + 2 * Hit(Tables.WP(FU), k) + Hit(x, k) + Hit(y, k)
  {
    RowHitsCells(OpeningFile(a, x, y), k);
  }

  lemma OpeningCount(b: Board, k: Kind)
    requires b == [OpeningFile(KY, EmptyPiece(), EmptyPiece()), OpeningFile(KE, Tables.WP(KA), Tables.BP(HI)),
                   OpeningFile(GI, EmptyPiece(), EmptyPiece()), OpeningFile(KI, EmptyPiece(), EmptyPiece()),
                   OpeningFile(OU, EmptyPiece(), EmptyPiece()), OpeningFile(KI, EmptyPiece(), EmptyPiece()),
                   OpeningFile(GI, EmptyPiece(), EmptyPiece()), OpeningFile(KE, Tables.WP(HI), Tables.BP(KA)),
                   OpeningFile(KY, EmptyPiece(), EmptyPiece())]
    ensures CountOnBoard(b, k) ==
      2 * RowHits(OpeningFile(KY, EmptyPiece(), EmptyPiece()), 9, k) + RowHits(OpeningFile(KE, Tables.WP(KA), Tables.BP(HI)), 9, k) +
      2 * RowHits(OpeningFile(GI, EmptyPiece(), EmptyPiece()), 9, k) + 2 * RowHits(OpeningFile(KI, EmptyPiece(), EmptyPiece()), 9, k) +
      RowHits(OpeningFile(OU, EmptyPiece(), EmptyPiece()), 9, k) + RowHits(OpeningFile(KE, Tables.WP(HI), Tables.BP(KA)), 9, k)
  {
    BoardCount(b, 81, 9, k);
    RowsHitsRows(b, k);
  }

  /** The opening board holds exactly a full set. */
  lemma HirateCount(k: Kind)
    requires IsHandKind(k)
    ensures CountOnBoard(Tables.HirateBoard(), k) == HandCountOf(FullSet(), k)
  {
    var e := EmptyPiece();
    OpeningCount(Tables.HirateBoard(), k);
    FileHits(KY, e, e, k);
    FileHits(KE, Tables.WP(KA), Tables.BP(HI), k);
    FileHits(GI, e, e, k);
    FileHits(KI, e, e, k);
    FileHits(OU, e, e, k);
    FileHits(KE, Tables.WP(HI), Tables.BP(KA), k);
    OpeningHitsFullSet(k);
  }

  /** The opening files together hold a full set of each hand kind. */
  lemma OpeningHitsFullSet(k: Kind)
    requires IsHandKind(k)
    ensures 2 * (2 * Hit(Tables.WP(KY), k) + 2 * Hit(Tables.WP(FU), k) + Hit(EmptyPiece(), k) + Hit(EmptyPiece(), k)) +
      (2 * Hit(Tables.WP(KE), k) + 2 * Hit(Tables.WP(FU), k) + Hit(Tables.WP(KA), k) + Hit(Tables.BP(HI), k)) +
      2 * (2 * Hit(Tables.WP(GI), k) + 2 * Hit(Tables.WP(FU), k) + Hit(EmptyPiece(), k) + Hit(EmptyPiece(), k)) +
      2 * (2 * Hit(Tables.WP(KI), k) + 2 * Hit(Tables.WP(FU), k) + Hit(EmptyPiece(), k) + Hit(EmptyPiece(), k)) +
      (2 * Hit(Tables.WP(OU), k) + 2 * Hit(Tables.WP(FU), k) + Hit(EmptyPiece(), k) + Hit(EmptyPiece(), k)) +
      (2 * Hit(Tables.WP(KE), k) + 2 * Hit(Tables.WP(FU), k) + Hit(Tables.WP(HI), k) + Hit(Tables.BP(KA), k))
      == HandCountOf(FullSet(), k)
  {
    match k
    case FU => case KY => case KE => case GI => case KI => case KA => case HI =>
  }

  /** Emptying cells never raises a count. */
  lemma {:induction false} CountCleared(b: Board, c: Board, n: nat, k: Kind)
    requires n <= 81
    requires forall i, j | 0 <= i < 9 && 0 <= j < 9 :: c[i][j] == b[i][j] || c[i][j] == EmptyPiece()
    ensures CountUpTo(c, n, k) <= CountUpTo(b, n, k)
  {
    if n > 0 {
      CountCleared(b, c, n - 1, k);
    }
  }

  /** The opening board with some cells emptied fits a full set. */
  lemma ClearedFits(cells: seq<(nat, nat)>)
    requires forall c | c in cells :: c.0 < 9 && c.1 < 9
    ensures BoardFits(Tables.Cleared(Tables.HirateBoard(), cells))
  {
    forall k | IsHandKind(k)
      ensures CountOnBoard(Tables.Cleared(Tables.HirateBoard(), cells), k) <= HandCountOf(FullSet(), k)
    {
      HirateCount(k);
      CountCleared(Tables.HirateBoard(), Tables.Cleared(Tables.HirateBoard(), cells), 81, k);
    }
  }

  /** A PI line alone: the opening board with the removed cells emptied, both hands empty. */
  lemma ClearedPositionReads(pos: CsaPosition, cells: seq<(nat, nat)>)
    requires pos.bulk.None? && pos.adds == []
    requires forall i | 0 <= i < |pos.drops| :: OnBoard(pos.drops[i].0)
    requires DropCells(pos.drops) == cells
    ensures PositionConvertible(pos)
    ensures InitialOf(pos).data == Some(StateFormat(pos.side, Tables.Cleared(Tables.HirateBoard(), cells), Tables.NoHands()))
  {
    assert BoardPieces(pos.adds) == [] && HandPieces(pos.adds) == [];
    ClearedFits(cells);
    assert PositionConvertible(pos);
    assert HandsOf([], Remaining(BoardOf(pos))) == Tables.NoHands();
  }

  /**
   * A PI line that removes exactly the squares of a handicap, with White
   * to move, converts to that handicap's table, which the normalizer
   * collapses into the preset's name.
   */
  lemma HandicapPositionReads(pos: CsaPosition, p: Preset)
    requires Tables.HandicapCells(p).Some?
    requires pos.bulk.None? && pos.adds == [] && pos.side == White
    requires forall i | 0 <= i < |pos.drops| :: OnBoard(pos.drops[i].0)
    requires DropCells(pos.drops) == Tables.HandicapCells(p).value
    ensures PositionConvertible(pos)
    ensures InitialOf(pos).data == Tables.PresetState(p)
    ensures Normalizer.NormalizedInitial(Some(InitialOf(pos))) == Some(Initial(p, None))
  {
    var cells := Tables.HandicapCells(p).value;
    ClearedPositionReads(pos, cells);
    HandicapPresetState(p);
    Normalizer.NormalizedInitialCollapses(InitialOf(pos), p);
  }

  lemma HandicapPresetState(p: Preset)
    requires Tables.HandicapCells(p).Some?
    ensures Tables.PresetState(p) == Some(Tables.HandicapState(Tables.HandicapCells(p).value))
  {
    assert p != PresetHirate;
  }

  /** `PI` with no squares and Black to move converts to the opening, named Hirate once normalized. */
  lemma HiratePositionReads(pos: CsaPosition)
    requires pos.bulk.None? && pos.adds == [] && pos.drops == [] && pos.side == Black
    ensures PositionConvertible(pos)
    ensures InitialOf(pos).data == Tables.PresetState(PresetHirate)
    ensures Normalizer.NormalizedInitial(Some(InitialOf(pos))) == Some(Initial(PresetHirate, None))
  {
    ClearedPositionReads(pos, []);
    Normalizer.NormalizedInitialCollapses(InitialOf(pos), PresetHirate);
  }
}
