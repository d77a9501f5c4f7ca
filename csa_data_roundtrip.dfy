/**
 * A starting position the CSA writer prints as data (the nine ranks P1..P9,
 * the hand lines P+ and P-, and the side to move) read back: each printed
 * cell names the grid cell the CSA parser builds, each hand token is one
 * placement at square 00, and converting that grid and those placements
 * gives back the state that was written.
 */
module CsaDataRoundTrip {
  import opened Jkf
  import opened Text
  import CsaRecord
  import CsaWriter

  // ------------------------------------------------------------ board cells

  /** A square the writer prints faithfully: empty, or colour and kind both present. */
  predicate WellFormedPiece(p: Piece)
  {
    p.color.Some? == p.kind.Some?
  }

  predicate WellFormedBoard(b: Board)
  {
    forall x, y | 0 <= x < 9 && 0 <= y < 9 :: WellFormedPiece(b[x][y])
  }

  /** The grid cell a printed square stands for. */
  function CellFor(p: Piece): CsaRecord.Cell
  {
    if p.color.Some? && p.kind.Some? then CsaRecord.Occupied(p.color.value, CsaRecord.PieceTypeOf(p.kind.value))
    else CsaRecord.NoCell
  }

  /** A three-character bulk cell as CSA reads it: ` * ` is empty, else a sign and a piece name. */
  function ReadCell(s: string): Option<CsaRecord.Cell>
    requires |s| == 3
  {
    if s == " * " then Some(CsaRecord.NoCell)
    else
      var c := CsaWriter.SignColor(s[0]);
      var pt := CsaWriter.PieceTypeOfName(s[1..]);
      if c.Some? && pt.Some? then Some(CsaRecord.Occupied(c.value, pt.value)) else None
  }

  /** Every printed square reads back as its cell. */
  lemma CellTextReads(p: Piece)
    ensures ReadCell(CsaWriter.CellText(p)) == Some(CellFor(p))
  {
    if p.color.Some? && p.kind.Some? {
      var s := CsaWriter.CellText(p);
      CsaWriter.ColorSignReads(p.color.value);
      CsaWriter.KindNameReads(p.kind.value);
      assert s[1..] == CsaWriter.KindName(p.kind.value);
    }
  }

  /** The grid the nine ranks describe: row i is rank i + 1, from file 9 down to file 1. */
  function GridOf(b: Board): (g: CsaRecord.Grid)
    ensures forall i, j | 0 <= i < 9 && 0 <= j < 9 :: g[i][j] == CellFor(b[8 - j][i])
  {
    var g: CsaRecord.Grid := seq(9, i requires 0 <= i < 9 => seq(9, j requires 0 <= j < 9 => CellFor(b[8 - j][i])));
    g
  }

  lemma CellRoundTrip(p: Piece)
    requires WellFormedPiece(p)
    ensures CsaRecord.CellOf(CellFor(p)) == p
  {
    if p.kind.Some? {
      CsaWriter.KindNameReads(p.kind.value);
    }
  }

  /** The grid of a well-formed board converts back to the board. */
  lemma GridRoundTrip(b: Board)
    requires WellFormedBoard(b)
    ensures CsaRecord.GridBoard(GridOf(b)) == b
  {
    var r := CsaRecord.GridBoard(GridOf(b));
    forall x | 0 <= x < 9
      ensures r[x] == b[x]
    {
      forall y | 0 <= y < 9
        ensures r[x][y] == b[x][y]
      {
        assert r[8 - (8 - x)][y] == CsaRecord.CellOf(GridOf(b)[y][8 - x]);
        CellRoundTrip(b[x][y]);
      }
    }
  }

  lemma {:induction false} RowCellsChunk(b: Board, i: nat, n: nat, j: nat)
    requires i < 9 && j < n <= 9
    ensures 3 * j + 3 <= |CsaWriter.RowCells(b, i, n)|
    ensures CsaWriter.RowCells(b, i, n)[3 * j .. 3 * j + 3] == CsaWriter.CellText(b[8 - j][i])
    decreases n
  {
    if j < n - 1 {
      RowCellsChunk(b, i, n - 1, j);
    }
    ChunkStep(CsaWriter.RowCells(b, i, n - 1), CsaWriter.CellText(b[8 - (n - 1)][i]), CsaWriter.RowCells(b, i, n),
              j, n - 1, CsaWriter.CellText(b[8 - j][i]));
  }

  /** Chunk j of a text of three-character cells, one cell appended at a time. */
  lemma ChunkStep(prev: string, cell: string, whole: string, j: nat, m: nat, c: string)
    requires whole == prev + cell && |cell| == 3 && |prev| == 3 * m && j <= m
    requires j < m ==> 3 * j + 3 <= |prev| && prev[3 * j .. 3 * j + 3] == c
    requires j == m ==> cell == c
    ensures 3 * j + 3 <= |whole| && whole[3 * j .. 3 * j + 3] == c
  {
    if j < m {
      assert whole[3 * j .. 3 * j + 3] == prev[3 * j .. 3 * j + 3];
    } else {
      assert whole[3 * j .. 3 * j + 3] == cell;
    }
  }

  /** Cell j of the line for rank i + 1 reads as grid cell (i, j). */
  lemma RowTextReads(b: Board, i: nat)
    requires i < 9
    ensures |CsaWriter.RowCells(b, i, 9)| == 27
    ensures forall j | 0 <= j < 9 :: ReadCell(CsaWriter.RowCells(b, i, 9)[3 * j .. 3 * j + 3]) == Some(GridOf(b)[i][j])
  {
    forall j | 0 <= j < 9
      ensures ReadCell(CsaWriter.RowCells(b, i, 9)[3 * j .. 3 * j + 3]) == Some(GridOf(b)[i][j])
    {
      RowCellsChunk(b, i, 9, j);
      CellTextReads(b[8 - j][i]);
    }
  }

  // ------------------------------------------------------------ hand pieces

  /** n copies of one placement. */
  function Copies(x: (Color, CsaRecord.PieceType), n: nat): (r: seq<(Color, CsaRecord.PieceType)>)
    ensures |r| == n && forall i | 0 <= i < n :: r[i] == x
  {
    if n == 0 then [] else Copies(x, n - 1) + [x]
  }

  /** The placements the hand line lists, in the writer's order: rooks, bishops, golds, silvers, knights, lances, pawns. */
  function HandPlacements(h: Hand, c: Color): seq<(Color, CsaRecord.PieceType)>
  {
    Copies((c, CsaRecord.Rook), h.HI) + Copies((c, CsaRecord.Bishop), h.KA) +
    Copies((c, CsaRecord.Gold), h.KI) + Copies((c, CsaRecord.Silver), h.GI) +
    Copies((c, CsaRecord.Knight), h.KE) + Copies((c, CsaRecord.Lance), h.KY) +
    Copies((c, CsaRecord.Pawn), h.FU)
  }

  /** Each placement written as square 00 and its piece name. */
  function PlacementsText(hps: seq<(Color, CsaRecord.PieceType)>): string
  {
    if hps == [] then "" else PlacementsText(hps[..|hps| - 1]) + "00" + CsaWriter.PieceTypeName(hps[|hps| - 1].1)
  }

  lemma {:induction false} PlacementsTextAppend(a: seq<(Color, CsaRecord.PieceType)>, b: seq<(Color, CsaRecord.PieceType)>)
    ensures PlacementsText(a + b) == PlacementsText(a) + PlacementsText(b)
    decreases |b|
  {
    if b == [] {
      assert a + b == a;
    } else {
      var n := |b| - 1;
      assert (a + b)[..|a + b| - 1] == a + b[..n];
      PlacementsTextAppend(a, b[..n]);
      Appended3(PlacementsText(a), PlacementsText(b[..n]), "00", CsaWriter.PieceTypeName(b[n].1));
    }
  }

  lemma {:induction false} PlacementsTextRepeat(c: Color, pt: CsaRecord.PieceType, n: nat)
    ensures PlacementsText(Copies((c, pt), n)) == CsaWriter.Repeat("00" + CsaWriter.PieceTypeName(pt), n)
    decreases n
  {
    if n > 0 {
      assert Copies((c, pt), n) == Copies((c, pt), n - 1) + [(c, pt)];
      PlacementsTextRepeat(c, pt, n - 1);
      Appended2(CsaWriter.Repeat("00" + CsaWriter.PieceTypeName(pt), n - 1), "00", CsaWriter.PieceTypeName(pt));
    }
  }

  lemma RookTokens(c: Color, n: nat)
    ensures PlacementsText(Copies((c, CsaRecord.Rook), n)) == CsaWriter.Repeat("00HI", n)
  {
    PlacementsTextRepeat(c, CsaRecord.Rook, n);
    assert "00" + CsaWriter.PieceTypeName(CsaRecord.Rook) == "00HI";
  }

  lemma BishopTokens(c: Color, n: nat)
    ensures PlacementsText(Copies((c, CsaRecord.Bishop), n)) == CsaWriter.Repeat("00KA", n)
  {
    PlacementsTextRepeat(c, CsaRecord.Bishop, n);
    assert "00" + CsaWriter.PieceTypeName(CsaRecord.Bishop) == "00KA";
  }

  lemma GoldTokens(c: Color, n: nat)
    ensures PlacementsText(Copies((c, CsaRecord.Gold), n)) == CsaWriter.Repeat("00KI", n)
  {
    PlacementsTextRepeat(c, CsaRecord.Gold, n);
    assert "00" + CsaWriter.PieceTypeName(CsaRecord.Gold) == "00KI";
  }

  lemma SilverTokens(c: Color, n: nat)
    ensures PlacementsText(Copies((c, CsaRecord.Silver), n)) == CsaWriter.Repeat("00GI", n)
  {
    PlacementsTextRepeat(c, CsaRecord.Silver, n);
    assert "00" + CsaWriter.PieceTypeName(CsaRecord.Silver) == "00GI";
  }

  lemma KnightTokens(c: Color, n: nat)
    ensures PlacementsText(Copies((c, CsaRecord.Knight), n)) == CsaWriter.Repeat("00KE", n)
  {
    PlacementsTextRepeat(c, CsaRecord.Knight, n);
    assert "00" + CsaWriter.PieceTypeName(CsaRecord.Knight) == "00KE";
  }

  lemma LanceTokens(c: Color, n: nat)
    ensures PlacementsText(Copies((c, CsaRecord.Lance), n)) == CsaWriter.Repeat("00KY", n)
  {
    PlacementsTextRepeat(c, CsaRecord.Lance, n);
    assert "00" + CsaWriter.PieceTypeName(CsaRecord.Lance) == "00KY";
  }

  lemma PawnTokens(c: Color, n: nat)
    ensures PlacementsText(Copies((c, CsaRecord.Pawn), n)) == CsaWriter.Repeat("00FU", n)
  {
    PlacementsTextRepeat(c, CsaRecord.Pawn, n);
    assert "00" + CsaWriter.PieceTypeName(CsaRecord.Pawn) == "00FU";
  }

  lemma PlacementsTextSegments(s1: seq<(Color, CsaRecord.PieceType)>, s2: seq<(Color, CsaRecord.PieceType)>,
                               s3: seq<(Color, CsaRecord.PieceType)>, s4: seq<(Color, CsaRecord.PieceType)>,
                               s5: seq<(Color, CsaRecord.PieceType)>, s6: seq<(Color, CsaRecord.PieceType)>,
                               s7: seq<(Color, CsaRecord.PieceType)>)
    ensures PlacementsText(s1 + s2 + s3 + s4 + s5 + s6 + s7) ==
      PlacementsText(s1) + PlacementsText(s2) + PlacementsText(s3) + PlacementsText(s4) +
      PlacementsText(s5) + PlacementsText(s6) + PlacementsText(s7)
  {
    PlacementsTextAppend(s1, s2);
    PlacementsTextAppend(s1 + s2, s3);
    PlacementsTextAppend(s1 + s2 + s3, s4);
    PlacementsTextAppend(s1 + s2 + s3 + s4, s5);
    PlacementsTextAppend(s1 + s2 + s3 + s4 + s5, s6);
    PlacementsTextAppend(s1 + s2 + s3 + s4 + s5 + s6, s7);
  }

  /** The tokens of a hand line are exactly its placements, each at 00. */
  lemma HandTokensArePlacements(h: Hand, c: Color)
    ensures CsaWriter.HandTokens(h) == PlacementsText(HandPlacements(h, c))
  {
    PlacementsTextSegments(Copies((c, CsaRecord.Rook), h.HI), Copies((c, CsaRecord.Bishop), h.KA),
      Copies((c, CsaRecord.Gold), h.KI), Copies((c, CsaRecord.Silver), h.GI),
      Copies((c, CsaRecord.Knight), h.KE), Copies((c, CsaRecord.Lance), h.KY),
      Copies((c, CsaRecord.Pawn), h.FU));
    RookTokens(c, h.HI);
    BishopTokens(c, h.KA);
    GoldTokens(c, h.KI);
    SilverTokens(c, h.GI);
    KnightTokens(c, h.KE);
    LanceTokens(c, h.KY);
    PawnTokens(c, h.FU);
  }

  /** The hand line of side i lists that side's placements; an empty hand prints no line and has none. */
  lemma HandLineReads(hands: Hands, i: nat)
    requires i < 2
    ensures hands[i] == EmptyHand() ==> HandPlacements(hands[i], if i == 0 then Black else White) == []
    ensures hands[i] != EmptyHand() ==>
      CsaWriter.HandLine(hands, i) ==
        (if i == 0 then "P+" else "P-") + PlacementsText(HandPlacements(hands[i], if i == 0 then Black else White)) + "\n"
  {
    HandTokensArePlacements(hands[i], if i == 0 then Black else White);
  }

  /** The single placements the parser collects from both hand lines, each at square 00. */
  function DataPlacements(hands: Hands): seq<(Color, CsaRecord.PieceType)>
  {
    HandPlacements(hands[0], Black) + HandPlacements(hands[1], White)
  }

  function AddsOf(hps: seq<(Color, CsaRecord.PieceType)>): (adds: seq<(Color, CsaRecord.CsaSquare, CsaRecord.PieceType)>)
    ensures |adds| == |hps|
    ensures forall i | 0 <= i < |hps| :: adds[i] == (hps[i].0, CsaRecord.CsaSquare(0, 0), hps[i].1)
  {
    seq(|hps|, i requires 0 <= i < |hps| => (hps[i].0, CsaRecord.CsaSquare(0, 0), hps[i].1))
  }

  /** Placements at 00 all go to the hands, in order, and none to the board. */
  lemma {:induction false} AddsAtHand(hps: seq<(Color, CsaRecord.PieceType)>)
    ensures CsaRecord.HandPieces(AddsOf(hps)) == hps
    ensures CsaRecord.BoardPieces(AddsOf(hps)) == []
    decreases |hps|
  {
    if hps != [] {
      var n := |hps| - 1;
      assert AddsOf(hps)[..n] == AddsOf(hps[..n]);
      AddsAtHand(hps[..n]);
      assert hps[..n] + [(AddsOf(hps)[n].0, AddsOf(hps)[n].2)] == hps;
    }
  }

  /** The placements of one hand are named hand pieces of that side, never AL. */
  predicate NamedPlacements(hps: seq<(Color, CsaRecord.PieceType)>)
  {
    forall i | 0 <= i < |hps| :: hps[i].1 != CsaRecord.All && IsHandKind(CsaRecord.KindOf(hps[i].1).value)
  }

  lemma NamedAppend(a: seq<(Color, CsaRecord.PieceType)>, b: seq<(Color, CsaRecord.PieceType)>)
    requires NamedPlacements(a) && NamedPlacements(b)
    ensures NamedPlacements(a + b)
  {
    assert forall i | |a| <= i < |a + b| :: (a + b)[i] == b[i - |a|];
  }

  lemma CopiesNamed(c: Color, pt: CsaRecord.PieceType, n: nat)
    requires pt != CsaRecord.All && IsHandKind(CsaRecord.KindOf(pt).value)
    ensures NamedPlacements(Copies((c, pt), n))
  {
  }

  lemma HandPlacementsNamed(h: Hand, c: Color)
    ensures NamedPlacements(HandPlacements(h, c))
  {
    var s1, s2, s3, s4 := Copies((c, CsaRecord.Rook), h.HI), Copies((c, CsaRecord.Bishop), h.KA),
      Copies((c, CsaRecord.Gold), h.KI), Copies((c, CsaRecord.Silver), h.GI);
    var s5, s6, s7 := Copies((c, CsaRecord.Knight), h.KE), Copies((c, CsaRecord.Lance), h.KY),
      Copies((c, CsaRecord.Pawn), h.FU);
    CopiesNamed(c, CsaRecord.Rook, h.HI);
    CopiesNamed(c, CsaRecord.Bishop, h.KA);
    CopiesNamed(c, CsaRecord.Gold, h.KI);
    CopiesNamed(c, CsaRecord.Silver, h.GI);
    CopiesNamed(c, CsaRecord.Knight, h.KE);
    CopiesNamed(c, CsaRecord.Lance, h.KY);
    CopiesNamed(c, CsaRecord.Pawn, h.FU);
    NamedAppend(s1, s2);
    NamedAppend(s1 + s2, s3);
    NamedAppend(s1 + s2 + s3, s4);
    NamedAppend(s1 + s2 + s3 + s4, s5);
    NamedAppend(s1 + s2 + s3 + s4 + s5, s6);
    NamedAppend(s1 + s2 + s3 + s4 + s5 + s6, s7);
  }

  lemma DataPlacementsNamed(hands: Hands)
    ensures NamedPlacements(DataPlacements(hands))
    ensures CsaRecord.HandPiecesValid(DataPlacements(hands))
  {
    HandPlacementsNamed(hands[0], Black);
    HandPlacementsNamed(hands[1], White);
    NamedAppend(HandPlacements(hands[0], Black), HandPlacements(hands[1], White));
  }

  lemma {:induction false} NoAlCount(hps: seq<(Color, CsaRecord.PieceType)>, c: Color)
    requires NamedPlacements(hps)
    ensures CsaRecord.AlCount(hps, c) == 0
    decreases |hps|
  {
    if hps != [] {
      NoAlCount(hps[..|hps| - 1], c);
    }
  }

  // ---------------------------------------------------------- counting

  lemma {:induction false} NamedCountAppend(a: seq<(Color, CsaRecord.PieceType)>, b: seq<(Color, CsaRecord.PieceType)>, c: Color, k: Kind)
    ensures CsaRecord.NamedCount(a + b, c, k) == CsaRecord.NamedCount(a, c, k) + CsaRecord.NamedCount(b, c, k)
    decreases |b|
  {
    if b == [] {
      assert a + b == a;
    } else {
      var n := |b| - 1;
      assert (a + b)[..|a + b| - 1] == a + b[..n];
      NamedCountAppend(a, b[..n], c, k);
    }
  }

  /** What n copies of placement x add to side c's count of kind k. */
  function Share(x: (Color, CsaRecord.PieceType), n: nat, c: Color, k: Kind): nat
  {
    if x.0 == c && x.1 != CsaRecord.All && CsaRecord.KindOf(x.1).value == k then n else 0
  }

  /** n copies of one placement count n for its own side and kind, and nothing otherwise. */
  lemma {:induction false} NamedCountRepeat(x: (Color, CsaRecord.PieceType), n: nat, c: Color, k: Kind)
    ensures CsaRecord.NamedCount(Copies(x, n), c, k) == Share(x, n, c, k)
    decreases n
  {
    if n > 0 {
      assert Copies(x, n) == Copies(x, n - 1) + [x];
      NamedCountRepeat(x, n - 1, c, k);
    }
  }

  /** The seven segments of a hand line add up to the hand's count of each kind for its own side. */
  lemma SharesSum(h: Hand, c: Color, c': Color, k: Kind)
    requires IsHandKind(k)
    ensures Share((c, CsaRecord.Rook), h.HI, c', k) + Share((c, CsaRecord.Bishop), h.KA, c', k) +
      Share((c, CsaRecord.Gold), h.KI, c', k) + Share((c, CsaRecord.Silver), h.GI, c', k) +
      Share((c, CsaRecord.Knight), h.KE, c', k) + Share((c, CsaRecord.Lance), h.KY, c', k) +
      Share((c, CsaRecord.Pawn), h.FU, c', k) == if c == c' then HandCountOf(h, k) else 0
  {
    match k
    case FU => case KY => case KE => case GI => case KI => case KA => case HI =>
  }

  lemma CountSegments(h: Hand, c: Color, c': Color, k: Kind)
    ensures CsaRecord.NamedCount(HandPlacements(h, c), c', k) ==
      CsaRecord.NamedCount(Copies((c, CsaRecord.Rook), h.HI), c', k) +
      CsaRecord.NamedCount(Copies((c, CsaRecord.Bishop), h.KA), c', k) +
      CsaRecord.NamedCount(Copies((c, CsaRecord.Gold), h.KI), c', k) +
      CsaRecord.NamedCount(Copies((c, CsaRecord.Silver), h.GI), c', k) +
      CsaRecord.NamedCount(Copies((c, CsaRecord.Knight), h.KE), c', k) +
      CsaRecord.NamedCount(Copies((c, CsaRecord.Lance), h.KY), c', k) +
      CsaRecord.NamedCount(Copies((c, CsaRecord.Pawn), h.FU), c', k)
  {
    var s1, s2, s3, s4 := Copies((c, CsaRecord.Rook), h.HI), Copies((c, CsaRecord.Bishop), h.KA),
      Copies((c, CsaRecord.Gold), h.KI), Copies((c, CsaRecord.Silver), h.GI);
    var s5, s6, s7 := Copies((c, CsaRecord.Knight), h.KE), Copies((c, CsaRecord.Lance), h.KY),
      Copies((c, CsaRecord.Pawn), h.FU);
    NamedCountAppend(s1, s2, c', k);
    NamedCountAppend(s1 + s2, s3, c', k);
    NamedCountAppend(s1 + s2 + s3, s4, c', k);
    NamedCountAppend(s1 + s2 + s3 + s4, s5, c', k);
    NamedCountAppend(s1 + s2 + s3 + s4 + s5, s6, c', k);
    NamedCountAppend(s1 + s2 + s3 + s4 + s5 + s6, s7, c', k);
  }

  /** A hand's placements count, for each side and hand kind, exactly the hand's pieces of that side. */
  lemma PlacementsCount(h: Hand, c: Color, c': Color, k: Kind)
    requires IsHandKind(k)
    ensures CsaRecord.NamedCount(HandPlacements(h, c), c', k) == if c == c' then HandCountOf(h, k) else 0
  {
    CountSegments(h, c, c', k);
    NamedCountRepeat((c, CsaRecord.Rook), h.HI, c', k);
    NamedCountRepeat((c, CsaRecord.Bishop), h.KA, c', k);
    NamedCountRepeat((c, CsaRecord.Gold), h.KI, c', k);
    NamedCountRepeat((c, CsaRecord.Silver), h.GI, c', k);
    NamedCountRepeat((c, CsaRecord.Knight), h.KE, c', k);
    NamedCountRepeat((c, CsaRecord.Lance), h.KY, c', k);
    NamedCountRepeat((c, CsaRecord.Pawn), h.FU, c', k);
    SharesSum(h, c, c', k);
  }

  /** Converting the placements of both hand lines gives back the hands written, whatever the remainder. */
  lemma HandsRoundTrip(hands: Hands, rest: Hand)
    ensures CsaRecord.HandPiecesValid(DataPlacements(hands))
    ensures CsaRecord.HandsOf(DataPlacements(hands), rest) == hands
  {
    var hps := DataPlacements(hands);
    DataPlacementsNamed(hands);
    var r := CsaRecord.HandsOf(hps, rest);
    forall i | 0 <= i < 2
      ensures r[i] == hands[i]
    {
      var c := if i == 0 then Black else White;
      assert ColorIndex(c) == i;
      forall k | IsHandKind(k)
        ensures HandCountOf(r[i], k) == HandCountOf(hands[i], k)
      {
        CsaRecord.HandsCount(hps, rest, c, k);
        NoAlCount(hps, c);
        NamedCountAppend(HandPlacements(hands[0], Black), HandPlacements(hands[1], White), c, k);
        PlacementsCount(hands[0], Black, c, k);
        PlacementsCount(hands[1], White, c, k);
      }
      CsaRecord.HandExtensional(r[i], hands[i]);
    }
  }

  // ------------------------------------------------------------ the state

  /** The position the parser builds from the printed data: no PI line, the grid, the hand placements. */
  function DataPosition(d: StateFormat): CsaRecord.CsaPosition
  {
    CsaRecord.CsaPosition([], Some(GridOf(d.board)), AddsOf(DataPlacements(d.hands)), d.color)
  }

  /**
   * A state whose board the writer prints faithfully converts back to that
   * same state, as data with the preset Other.
   */
  lemma DataRoundTrip(d: StateFormat)
    requires WellFormedBoard(d.board)
    ensures CsaRecord.PositionConvertible(DataPosition(d))
    ensures CsaRecord.InitialOf(DataPosition(d)) == Initial(PresetOther, Some(d))
  {
    var pos := DataPosition(d);
    GridRoundTrip(d.board);
    AddsAtHand(DataPlacements(d.hands));
    assert CsaRecord.BoardOf(pos) == d.board;
    HandsRoundTrip(d.hands, CsaRecord.Remaining(d.board));
  }
}
