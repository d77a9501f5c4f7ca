// A small position model standing in for the external board crate the
// converter replays moves on: squares, pieces, hands with their capacity,
// a board, the side to move, the last move, and `MakeMove`.

module Core {
  import opened Jkf
  import Tables

  type Coord = n: int | 1 <= n <= 9 witness 1

  /** A square of the board: file 1..9, rank 1..9. */
  datatype Square = Square(file: Coord, rank: Coord)

  /** A square exists only for coordinates 1..9. */
  function NewSquare(x: int, y: int): (r: Option<Square>)
    ensures r.Some? <==> 1 <= x <= 9 && 1 <= y <= 9
    ensures r.Some? ==> r.value.file == x && r.value.rank == y
  {
    if 1 <= x <= 9 && 1 <= y <= 9 then Some(Square(x, y)) else None
  }

  /** The file as counted by the given player (White counts from the other edge). */
  function RelativeFile(sq: Square, c: Color): (f: Coord)
    ensures c == Black ==> f == sq.file
    ensures c == White ==> f + sq.file == 10
  {
    if c == Black then sq.file else 10 - sq.file
  }

  /** The rank as counted by the given player. */
  function RelativeRank(sq: Square, c: Color): (r: Coord)
    ensures c == Black ==> r == sq.rank
    ensures c == White ==> r + sq.rank == 10
  {
    if c == Black then sq.rank else 10 - sq.rank
  }

  /** A square written back as a record square. */
  function PlaceOf(sq: Square): (pf: PlaceFormat)
    ensures pf.x == sq.file && pf.y == sq.rank
  {
    PlaceFormat(sq.file, sq.rank)
  }

  /** A piece standing on the board or about to be dropped. */
  datatype CorePiece = CorePiece(kind: Kind, color: Color)

  /** A move: from one square to another (optionally promoting), or a drop. */
  datatype CoreMove =
    | Normal(from: Square, to: Square, promote: bool)
    | Drop(piece: CorePiece, to: Square)

  /** Slot of a hand kind in a hand: FU KY KE GI KI KA HI. */
  function HandSlot(k: Kind): (i: nat)
    requires IsHandKind(k)
    ensures i < 7
  {
    match k
    case FU => 0 case KY => 1 case KE => 2 case GI => 3
    case KI => 4 case KA => 5 case HI => 6
  }

  /** The hand kind held in a slot; the inverse of `HandSlot`. */
  function SlotKind(i: nat): (k: Kind)
    requires i < 7
    ensures IsHandKind(k) && HandSlot(k) == i
  {
    [FU, KY, KE, GI, KI, KA, HI][i]
  }

  /** How many pieces of each hand kind a set contains. */
  function Capacity(i: nat): nat
    requires i < 7
  {
    [18, 4, 4, 4, 4, 2, 2][i]
  }

  predicate WithinCapacity(h: seq<nat>)
  {
    |h| == 7 && forall i | 0 <= i < 7 :: h[i] <= Capacity(i)
  }

  /** A hand: a count per hand kind, never above that kind's capacity. */
  type CoreHand = h: seq<nat> | WithinCapacity(h) witness [0, 0, 0, 0, 0, 0, 0]

  function EmptyCoreHand(): CoreHand
  {
    [0, 0, 0, 0, 0, 0, 0]
  }

  /** The count of a kind in a hand; kinds a hand cannot hold have none. */
  function HandCount(h: CoreHand, k: Kind): (n: Option<nat>)
    ensures n.Some? <==> IsHandKind(k)
  {
    if IsHandKind(k) then Some(h[HandSlot(k)]) else None
  }

  /** A hand with one more piece of kind k; fails for non-hand kinds and at capacity. */
  function HandAdded(h: CoreHand, k: Kind): (r: Option<CoreHand>)
    ensures r.Some? <==> IsHandKind(k) && h[HandSlot(k)] < Capacity(HandSlot(k))
    ensures r.Some? ==> r.value == h[HandSlot(k) := h[HandSlot(k)] + 1]
  {
    if IsHandKind(k) && h[HandSlot(k)] < Capacity(HandSlot(k)) then
      var r: seq<nat> := h[HandSlot(k) := h[HandSlot(k)] + 1];
      assert WithinCapacity(r);
      var r': CoreHand := r;
      Some(r')
    else None
  }

  /** A hand with one piece of kind k fewer; fails when there is none. */
  function HandRemoved(h: CoreHand, k: Kind): (r: Option<CoreHand>)
    ensures r.Some? <==> IsHandKind(k) && h[HandSlot(k)] > 0
    ensures r.Some? ==> r.value == h[HandSlot(k) := h[HandSlot(k)] - 1]
  {
    if IsHandKind(k) && h[HandSlot(k)] > 0 then
      var r: seq<nat> := h[HandSlot(k) := h[HandSlot(k)] - 1];
      assert WithinCapacity(r);
      var r': CoreHand := r;
      Some(r')
    else None
  }

  type CoreRow = r: seq<Option<CorePiece>> | |r| == 9 witness seq(9, _ => None)
  function EmptyCoreRow(): CoreRow { seq(9, _ => None) }

  /** Cells indexed board[file-1][rank-1]. */
  type CoreBoard = b: seq<CoreRow> | |b| == 9 witness seq(9, _ => EmptyCoreRow())
  /** Hands indexed by ColorIndex. */
  type CoreHands = h: seq<CoreHand> | |h| == 2 witness [EmptyCoreHand(), EmptyCoreHand()]

  datatype PartialPosition = PartialPosition(
    board: CoreBoard,
    hands: CoreHands,
    side: Color,
    lastMove: Option<CoreMove>)

  /** Boards that agree on every cell are equal. */
  lemma BoardExtensional(a: CoreBoard, b: CoreBoard)
    requires forall i, j | 0 <= i < 9 && 0 <= j < 9 :: a[i][j] == b[i][j]
    ensures a == b
  {
    forall i | 0 <= i < 9
      ensures a[i] == b[i]
    {
      assert forall j | 0 <= j < 9 :: a[i][j] == b[i][j];
    }
  }

  function PieceAt(p: PartialPosition, sq: Square): Option<CorePiece>
  {
    p.board[sq.file - 1][sq.rank - 1]
  }

  /** Puts a piece on (or clears) one square, leaving everything else alone. */
  function PieceSet(p: PartialPosition, sq: Square, pc: Option<CorePiece>): (r: PartialPosition)
    ensures PieceAt(r, sq) == pc
    ensures forall s: Square | s != sq :: PieceAt(r, s) == PieceAt(p, s)
    ensures r.hands == p.hands && r.side == p.side && r.lastMove == p.lastMove
  {
    var i, j := sq.file - 1, sq.rank - 1;
    p.(board := p.board[i := p.board[i][j := pc]])
  }

  function HandOfPlayer(p: PartialPosition, c: Color): CoreHand
  {
    p.hands[ColorIndex(c)]
  }

  function SetHandOfPlayer(p: PartialPosition, c: Color, h: CoreHand): (r: PartialPosition)
    ensures HandOfPlayer(r, c) == h && HandOfPlayer(r, Opponent(c)) == HandOfPlayer(p, Opponent(c))
    ensures r.board == p.board && r.side == p.side && r.lastMove == p.lastMove
  {
    p.(hands := p.hands[ColorIndex(c) := h])
  }

  /** The empty board, empty hands, Black to move, no move made. */
  function EmptyPosition(): (p: PartialPosition)
    ensures forall sq: Square :: PieceAt(p, sq).None?
    ensures HandOfPlayer(p, Black) == EmptyCoreHand() && HandOfPlayer(p, White) == EmptyCoreHand()
    ensures p.side == Black && p.lastMove.None?
  {
    PartialPosition(seq(9, _ => seq(9, _ => None)), [EmptyCoreHand(), EmptyCoreHand()], Black, None)
  }

  /** A board cell of the record as a piece, when both its colour and kind are present. */
  function CellOf(p: Piece): (r: Option<CorePiece>)
    ensures r.Some? <==> p.color.Some? && p.kind.Some?
    ensures r.Some? ==> r.value.kind == p.kind.value && r.value.color == p.color.value
  {
    if p.color.Some? && p.kind.Some? then Some(CorePiece(p.kind.value, p.color.value)) else None
  }

  /** The standard opening position with Black to move. */
  function StartPosition(): (p: PartialPosition)
    ensures forall sq: Square :: PieceAt(p, sq) == CellOf(Tables.HirateBoard()[sq.file - 1][sq.rank - 1])
    ensures HandOfPlayer(p, Black) == EmptyCoreHand() && HandOfPlayer(p, White) == EmptyCoreHand()
    ensures p.side == Black && p.lastMove.None?
  {
    var b := Tables.HirateBoard();
    PartialPosition(
      seq(9, i requires 0 <= i < 9 => seq(9, j requires 0 <= j < 9 => CellOf(b[i][j]))),
      [EmptyCoreHand(), EmptyCoreHand()], Black, None)
  }

  function InPromotionZone(sq: Square, c: Color): bool
  {
    RelativeRank(sq, c) <= 3
  }

  /**
   * Applies a move. A normal move needs a piece of the mover at `from`, no
   * piece of the mover at `to`, and, when promoting, a promotable kind with
   * `from` or `to` in the mover's promotion zone; a captured piece goes to the
   * mover's hand unpromoted (capturing a king fails). A drop needs a piece of
   * the mover's colour in hand and an empty `to`. The side to move flips and
   * the move becomes the last move.
   */
  function MakeMove(p: PartialPosition, mv: CoreMove): (r: Option<PartialPosition>)
    ensures r.Some? ==> r.value.side == Opponent(p.side) && r.value.lastMove == Some(mv)
    ensures r.Some? && mv.Normal? ==>
      PieceAt(p, mv.from).Some? && PieceAt(p, mv.from).value.color == p.side &&
      PieceAt(r.value, mv.from).None? &&
      PieceAt(r.value, mv.to) ==
        Some(CorePiece(if mv.promote then Promoted(PieceAt(p, mv.from).value.kind)
                       else PieceAt(p, mv.from).value.kind, p.side))
    ensures r.Some? && mv.Drop? ==>
      mv.piece.color == p.side && PieceAt(p, mv.to).None? && PieceAt(r.value, mv.to) == Some(mv.piece)
    ensures r.Some? ==> forall sq: Square | sq != mv.to && (mv.Normal? ==> sq != mv.from) ::
      PieceAt(r.value, sq) == PieceAt(p, sq)
    // The hands: a capture adds the unpromoted captured kind, a drop takes one piece out.
    ensures r.Some? && mv.Normal? && PieceAt(p, mv.to).Some? ==>
      HandAdded(HandOfPlayer(p, p.side), Unpromoted(PieceAt(p, mv.to).value.kind)).Some? &&
      HandOfPlayer(r.value, p.side) ==
        HandAdded(HandOfPlayer(p, p.side), Unpromoted(PieceAt(p, mv.to).value.kind)).value
    ensures r.Some? && mv.Normal? && PieceAt(p, mv.to).None? ==>
      HandOfPlayer(r.value, p.side) == HandOfPlayer(p, p.side)
    ensures r.Some? && mv.Drop? ==>
      HandRemoved(HandOfPlayer(p, p.side), mv.piece.kind).Some? &&
      HandOfPlayer(r.value, p.side) == HandRemoved(HandOfPlayer(p, p.side), mv.piece.kind).value
    ensures r.Some? ==> HandOfPlayer(r.value, Opponent(p.side)) == HandOfPlayer(p, Opponent(p.side))
    // When a normal move fails: no piece of the mover at the origin, an own piece at the
    // destination, an illegal promotion, or a capture the hand cannot take (a king, a full slot).
    ensures mv.Normal? ==> (r.None? <==>
      PieceAt(p, mv.from).None? || PieceAt(p, mv.from).value.color != p.side ||
      (PieceAt(p, mv.to).Some? && PieceAt(p, mv.to).value.color == p.side) ||
      (mv.promote && !(Promotable(PieceAt(p, mv.from).value.kind) &&
                      (InPromotionZone(mv.from, p.side) || InPromotionZone(mv.to, p.side)))) ||
      (PieceAt(p, mv.to).Some? &&
       HandAdded(HandOfPlayer(p, p.side), Unpromoted(PieceAt(p, mv.to).value.kind)).None?))
    // When a drop fails: a piece of the other colour, an occupied square, or none of the kind in hand.
    ensures mv.Drop? ==> (r.None? <==>
      mv.piece.color != p.side || PieceAt(p, mv.to).Some? ||
      HandRemoved(HandOfPlayer(p, p.side), mv.piece.kind).None?)
  {
    match mv
    case Normal(from, to, promote) =>
      var moving := PieceAt(p, from);
      var target := PieceAt(p, to);
      if moving.None? || moving.value.color != p.side then None
      else if target.Some? && target.value.color == p.side then None
      else if promote && !(Promotable(moving.value.kind) &&
                           (InPromotionZone(from, p.side) || InPromotionZone(to, p.side))) then None
      else
        var hand' :=
          if target.Some? then HandAdded(HandOfPlayer(p, p.side), Unpromoted(target.value.kind))
          else Some(HandOfPlayer(p, p.side));
        if hand'.None? then None
        else
          var kind := if promote then Promoted(moving.value.kind) else moving.value.kind;
          var q := PieceSet(PieceSet(p, from, None), to, Some(CorePiece(kind, p.side)));
          var q' := SetHandOfPlayer(q, p.side, hand'.value);
          Some(q'.(side := Opponent(p.side), lastMove := Some(mv)))
    case Drop(piece, to) =>
      if piece.color != p.side || PieceAt(p, to).Some? then None
      else
        var hand' := HandRemoved(HandOfPlayer(p, p.side), piece.kind);
        if hand'.None? then None
        else
          var q := SetHandOfPlayer(PieceSet(p, to, Some(piece)), p.side, hand'.value);
          Some(q.(side := Opponent(p.side), lastMove := Some(mv)))
  }

  /** A promoting move that can be made moves a promotable piece in or out of the mover's zone. */
  lemma MakeMovePromotion(p: PartialPosition, mv: CoreMove)
    requires mv.Normal? && mv.promote && MakeMove(p, mv).Some?
    ensures PieceAt(p, mv.from).Some? && Promotable(PieceAt(p, mv.from).value.kind)
    ensures InPromotionZone(mv.from, p.side) || InPromotionZone(mv.to, p.side)
  {
  }

  /** The destination of a move. */
  function MoveTo(mv: CoreMove): Square
  {
    match mv
    case Normal(_, to, _) => to
    case Drop(_, to) => to
  }

  /** Applies moves in order; fails as soon as one cannot be made. */
  function Replay(p: PartialPosition, moves: seq<CoreMove>): Option<PartialPosition>
    decreases |moves|
  {
    if moves == [] then Some(p)
    else
      var q := MakeMove(p, moves[0]);
      if q.None? then None else Replay(q.value, moves[1..])
  }

  lemma {:induction false} ReplaySnoc(p: PartialPosition, moves: seq<CoreMove>, mv: CoreMove)
    requires Replay(p, moves).Some?
    ensures Replay(p, moves + [mv]) == MakeMove(Replay(p, moves).value, mv)
    decreases |moves|
  {
    if moves == [] {
      assert [mv][1..] == [];
    } else {
      assert (moves + [mv])[1..] == moves[1..] + [mv];
      ReplaySnoc(MakeMove(p, moves[0]).value, moves[1..], mv);
    }
  }

  /** A game: the initial position and the moves played from it. */
  datatype Position = Position(initial: PartialPosition, moves: seq<CoreMove>)

  function ArbitraryPosition(p: PartialPosition): Position
  {
    Position(p, [])
  }

  function CurrentOf(g: Position): Option<PartialPosition>
  {
    Replay(g.initial, g.moves)
  }

  /** Plays one more move in a game when it can be made in its current position. */
  function PositionMakeMove(g: Position, mv: CoreMove): (r: Option<Position>)
    requires CurrentOf(g).Some?
    ensures r.Some? <==> MakeMove(CurrentOf(g).value, mv).Some?
    ensures r.Some? ==> r.value.initial == g.initial && r.value.moves == g.moves + [mv]
    ensures r.Some? ==> CurrentOf(r.value) == MakeMove(CurrentOf(g).value, mv)
  {
    ReplaySnoc(g.initial, g.moves, mv);
    if MakeMove(CurrentOf(g).value, mv).Some? then Some(Position(g.initial, g.moves + [mv])) else None
  }
}
