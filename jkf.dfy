// The in-memory game record (JSON Kifu Format) through which every reader
// and writer of the converter passes.

module Jkf {

  datatype Option<+T> = None | Some(value: T)

  function UnwrapOr<T>(o: Option<T>, default: T): (r: T)
    ensures o.Some? ==> r == o.value
    ensures o.None? ==> r == default
  {
    match o
    case Some(v) => v
    case None => default
  }

  /** The outcome of a conversion that can fail. */
  datatype Result<+T, +E> = Ok(value: T) | Err(error: E)

  /** An unsigned byte, the width of the record's numeric fields. */
  type U8 = x: int | 0 <= x < 256

  /** The side to move: 先手 (Black) and 後手 (White). */
  datatype Color = Black | White

  /** The numeric value each colour is serialised as; also the index into `hands`. */
  function ColorIndex(c: Color): (n: nat)
    ensures n < 2
    ensures c == Black <==> n == 0
  {
    match c
    case Black => 0
    case White => 1
  }

  function ColorOfIndex(n: nat): (c: Color)
    requires n < 2
    ensures ColorIndex(c) == n
  {
    if n == 0 then Black else White
  }

  function Opponent(c: Color): (o: Color)
    ensures o != c
  {
    match c
    case Black => White
    case White => Black
  }

  /** The fourteen piece kinds; FU..HI are the seven kinds a hand can hold. */
  datatype Kind = FU | KY | KE | GI | KI | KA | HI | OU | TO | NY | NK | NG | UM | RY

  /** The numeric value of each kind, FU = 0 .. RY = 13. */
  function KindIndex(k: Kind): (n: nat)
    ensures n < 14
  {
    match k
    case FU => 0 case KY => 1 case KE => 2 case GI => 3 case KI => 4
    case KA => 5 case HI => 6 case OU => 7 case TO => 8 case NY => 9
    case NK => 10 case NG => 11 case UM => 12 case RY => 13
  }

  function KindOfIndex(n: nat): (k: Kind)
    requires n < 14
    ensures KindIndex(k) == n
  {
    [FU, KY, KE, GI, KI, KA, HI, OU, TO, NY, NK, NG, UM, RY][n]
  }

  /** Every kind has exactly one index and every index 0..13 exactly one kind. */
  lemma KindIndexBijective(k: Kind, k': Kind)
    ensures KindOfIndex(KindIndex(k)) == k
    ensures KindIndex(k) == KindIndex(k') ==> k == k'
  {
  }

  /** Initial-position presets (手合割). */
  datatype Preset =
    | PresetHirate | PresetKY | PresetKYR | PresetKA | PresetHI | PresetHIKY
    | Preset2 | Preset3 | Preset4 | Preset5 | Preset5L | Preset6
    | Preset7L | Preset7R | Preset8 | Preset10 | PresetOther

  /** Relative-position and movement tokens (左 直 右 上 寄 引, their pairs, and 打). */
  datatype Relative = L | C | R | U | M | D | LU | LM | LD | RU | RM | RD | H

  /** Special moves that end or interrupt a game. */
  datatype MoveSpecial =
    | SpecialToryo | SpecialChudan | SpecialSennichite | SpecialTimeUp
    | SpecialIllegalMove | SpecialIllegalActionBlack | SpecialIllegalActionWhite
    | SpecialJishogi | SpecialKachi | SpecialHikiwake | SpecialMatta
    | SpecialTsumi | SpecialFuzumi | SpecialError

  function SpecialIndex(s: MoveSpecial): (n: nat)
    ensures n < 14
  {
    match s
    case SpecialToryo => 0 case SpecialChudan => 1 case SpecialSennichite => 2
    case SpecialTimeUp => 3 case SpecialIllegalMove => 4
    case SpecialIllegalActionBlack => 5 case SpecialIllegalActionWhite => 6
    case SpecialJishogi => 7 case SpecialKachi => 8 case SpecialHikiwake => 9
    case SpecialMatta => 10 case SpecialTsumi => 11 case SpecialFuzumi => 12
    case SpecialError => 13
  }

  function SpecialOfIndex(n: nat): (s: MoveSpecial)
    requires n < 14
    ensures SpecialIndex(s) == n
  {
    [SpecialToryo, SpecialChudan, SpecialSennichite, SpecialTimeUp,
     SpecialIllegalMove, SpecialIllegalActionBlack, SpecialIllegalActionWhite,
     SpecialJishogi, SpecialKachi, SpecialHikiwake, SpecialMatta,
     SpecialTsumi, SpecialFuzumi, SpecialError][n]
  }

  /** A square as the record stores it: file x and rank y, not range-checked. */
  datatype PlaceFormat = PlaceFormat(x: U8, y: U8)

  function DefaultPlace(): (p: PlaceFormat)
    ensures p.x == 0 && p.y == 0
  {
    PlaceFormat(0, 0)
  }

  datatype TimeFormat = TimeFormat(h: Option<U8>, m: U8, s: U8)

  function DefaultTimeFormat(): (t: TimeFormat)
    ensures t.h.None? && t.m == 0 && t.s == 0
  {
    TimeFormat(None, 0, 0)
  }

  /** Seconds a time value stands for; an absent hour counts as zero. */
  function Seconds(t: TimeFormat): nat
  {
    UnwrapOr<U8>(t.h, 0) * 3600 + t.m * 60 + t.s
  }

  datatype Time = Time(now: TimeFormat, total: TimeFormat)

  /** A board cell. Both fields None is the empty square. */
  datatype Piece = Piece(color: Option<Color>, kind: Option<Kind>)

  function EmptyPiece(): (p: Piece)
    ensures p.color.None? && p.kind.None?
  {
    Piece(None, None)
  }

  /** Hand counts of the seven kinds a player can hold. */
  datatype Hand = Hand(FU: nat, KY: nat, KE: nat, GI: nat, KI: nat, KA: nat, HI: nat)

  function EmptyHand(): Hand
  {
    Hand(0, 0, 0, 0, 0, 0, 0)
  }

  predicate IsHandKind(k: Kind)
  {
    k in {FU, KY, KE, GI, KI, KA, HI}
  }

  /** The count of one hand kind in a record hand. */
  function HandCountOf(h: Hand, k: Kind): nat
    requires IsHandKind(k)
  {
    match k
    case FU => h.FU case KY => h.KY case KE => h.KE case GI => h.GI
    case KI => h.KI case KA => h.KA case HI => h.HI
  }

  /** Kinds that have a promoted form. */
  predicate Promotable(k: Kind)
  {
    k in {FU, KY, KE, GI, KA, HI}
  }

  /** The promoted form of a kind; kinds without one are returned unchanged. */
  function Promoted(k: Kind): (p: Kind)
    ensures Promotable(k) <==> p != k
    ensures !Promotable(p)
  {
    match k
    case FU => TO case KY => NY case KE => NK case GI => NG
    case KA => UM case HI => RY
    case _ => k
  }

  /** The unpromoted form of a kind; unpromoted kinds are returned unchanged. */
  function Unpromoted(k: Kind): (u: Kind)
    ensures IsHandKind(u) || u == OU
    ensures u != k <==> k in {TO, NY, NK, NG, UM, RY}
  {
    match k
    case TO => FU case NY => KY case NK => KE case NG => GI
    case UM => KA case RY => HI
    case _ => k
  }

  /** Promotion and unpromotion undo each other on promotable kinds. */
  lemma PromotionRoundTrip(k: Kind)
    ensures Promotable(k) ==> Unpromoted(Promoted(k)) == k
    ensures Promotable(Unpromoted(k)) && Unpromoted(k) != k ==> Promoted(Unpromoted(k)) == k
    ensures Unpromoted(Promoted(k)) == Unpromoted(k)
    ensures Unpromoted(Unpromoted(k)) == Unpromoted(k)
  {
  }

  /** A 9x9 board stored as board[x-1][y-1]. */
  type Row = r: seq<Piece> | |r| == 9 witness seq(9, _ => Piece(None, None))
  type Board = b: seq<Row> | |b| == 9 witness seq(9, _ => seq(9, _ => Piece(None, None)))
  /** Hands indexed by ColorIndex: [Black, White]. */
  type Hands = h: seq<Hand> | |h| == 2 witness [Hand(0, 0, 0, 0, 0, 0, 0), Hand(0, 0, 0, 0, 0, 0, 0)]

  function EmptyBoard(): (b: Board)
    ensures forall i, j | 0 <= i < 9 && 0 <= j < 9 :: b[i][j] == EmptyPiece()
  {
    seq(9, _ => seq(9, _ => Piece(None, None)))
  }

  function HandOf(hands: Hands, c: Color): Hand
  {
    hands[ColorIndex(c)]
  }

  datatype StateFormat = StateFormat(color: Color, board: Board, hands: Hands)

  datatype Initial = Initial(preset: Preset, data: Option<StateFormat>)

  datatype MoveMoveFormat = MoveMoveFormat(
    color: Color,
    from: Option<PlaceFormat>,
    to: PlaceFormat,
    piece: Kind,
    same: Option<bool>,
    promote: Option<bool>,
    capture: Option<Kind>,
    relative: Option<Relative>)

  /**
   * One entry of a move line: a move or a special, its comments and time,
   * and the variations (forks) that branch off in place of this entry.
   * The source's `Option<Vec<Vec<MoveFormat>>>` is `Forks` over `Variation`s.
   */
  datatype MoveFormat = MoveFormat(
    move: Option<MoveMoveFormat>,
    comments: Option<seq<string>>,
    time: Option<Time>,
    special: Option<MoveSpecial>,
    forks: Forks)

  datatype Forks = NoForks | Forks(variations: seq<Variation>)

  datatype Variation = Variation(moves: seq<MoveFormat>)

  function DefaultMove(): (mf: MoveFormat)
    ensures mf.move.None? && mf.comments.None? && mf.time.None?
    ensures mf.special.None? && mf.forks.NoForks?
  {
    MoveFormat(None, None, None, None, NoForks)
  }

  /** The variations of an entry as a (possibly empty) list. */
  function VariationsOf(mf: MoveFormat): seq<Variation>
  {
    if mf.forks.Forks? then mf.forks.variations else []
  }

  /** Appends one variation to an entry's forks, creating the list if absent. */
  function PushFork(mf: MoveFormat, v: Variation): (r: MoveFormat)
    ensures r.forks.Forks? && r.forks.variations == VariationsOf(mf) + [v]
    ensures r.move == mf.move && r.comments == mf.comments
    ensures r.time == mf.time && r.special == mf.special
  {
    mf.(forks := Forks(VariationsOf(mf) + [v]))
  }

  datatype JsonKifuFormat = JsonKifuFormat(
    header: map<string, string>,
    initial: Option<Initial>,
    moves: seq<MoveFormat>)

  /** The default record: empty header, no initial, one placeholder entry. */
  function DefaultRecord(): (r: JsonKifuFormat)
    ensures r.header == map[] && r.initial.None?
    ensures |r.moves| == 1 && r.moves[0] == DefaultMove()
  {
    JsonKifuFormat(map[], None, [DefaultMove()])
  }
}
