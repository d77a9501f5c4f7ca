// The CSA writer: a record as CSA V2.2 text, that is the version line, the
// header lines, the starting position and one block per move. Each piece is
// a function giving the text and a method that appends exactly that text to
// a Sink. Small readers of the written lines give each piece its partner:
// what a CSA parser hands back for it, as the CSA conversion reads it.

module CsaWriter {
  import opened Jkf
  import opened Text
  import Normalizer
  import Tables
  import CsaRecord

  // ------------------------------------------------------- basic tokens

  /** `+` for Black, `-` for White. */
  function ColorSign(c: Color): (s: string)
    ensures |s| == 1
  {
    if c == Black then "+" else "-"
  }

  function SignColor(ch: char): Option<Color>
  {
    if ch == '+' then Some(Black) else if ch == '-' then Some(White) else None
  }

  lemma ColorSignReads(c: Color)
    ensures SignColor(ColorSign(c)[0]) == Some(c)
  {
  }

  /** The two-letter CSA name of each piece, AL included. */
  function PieceTypeName(pt: CsaRecord.PieceType): (s: string)
    ensures |s| == 2
  {
    match pt
    case Pawn => "FU" case Lance => "KY" case Knight => "KE" case Silver => "GI"
    case Gold => "KI" case Bishop => "KA" case Rook => "HI" case King => "OU"
    case ProPawn => "TO" case ProLance => "NY" case ProKnight => "NK" case ProSilver => "NG"
    case Horse => "UM" case Dragon => "RY" case All => "AL"
  }

  /** Every CSA piece name reads back as its piece. */
  lemma PieceTypeNameReads(pt: CsaRecord.PieceType)
    ensures PieceTypeOfName(PieceTypeName(pt)) == Some(pt)
  {
  }

  /** The piece a two-letter CSA name stands for, if any. */
  function PieceTypeOfName(s: string): Option<CsaRecord.PieceType>
  {
    if s == "FU" then Some(CsaRecord.Pawn) else if s == "KY" then Some(CsaRecord.Lance)
    else if s == "KE" then Some(CsaRecord.Knight) else if s == "GI" then Some(CsaRecord.Silver)
    else if s == "KI" then Some(CsaRecord.Gold) else if s == "KA" then Some(CsaRecord.Bishop)
    else if s == "HI" then Some(CsaRecord.Rook) else if s == "OU" then Some(CsaRecord.King)
    else if s == "TO" then Some(CsaRecord.ProPawn) else if s == "NY" then Some(CsaRecord.ProLance)
    else if s == "NK" then Some(CsaRecord.ProKnight) else if s == "NG" then Some(CsaRecord.ProSilver)
    else if s == "UM" then Some(CsaRecord.Horse) else if s == "RY" then Some(CsaRecord.Dragon)
    else if s == "AL" then Some(CsaRecord.All)
    else None
  }

  /** A kind's CSA name: the name of the CSA piece the conversion maps back to that kind. */
  function KindName(k: Kind): (s: string)
    ensures |s| == 2
  {
    match k
    case FU => "FU" case KY => "KY" case KE => "KE" case GI => "GI"
    case KI => "KI" case KA => "KA" case HI => "HI" case OU => "OU"
    case TO => "TO" case NY => "NY" case NK => "NK" case NG => "NG"
    case UM => "UM" case RY => "RY"
  }

  /** A kind's name reads back as the CSA piece that the conversion maps to that kind. */
  lemma KindNameReads(k: Kind)
    ensures KindName(k) == PieceTypeName(CsaRecord.PieceTypeOf(k))
    ensures PieceTypeOfName(KindName(k)) == Some(CsaRecord.PieceTypeOf(k))
    ensures CsaRecord.KindOf(CsaRecord.PieceTypeOf(k)) == Ok(k)
  {
    CsaRecord.KindOfIsBijective(k, CsaRecord.Pawn);
    PieceTypeNameReads(CsaRecord.PieceTypeOf(k));
  }

  /** A square as `{x}{y}`, or `00` when there is none. */
  function PlaceText(p: Option<PlaceFormat>): string
  {
    if p.Some? then Decimal(p.value.x) + Decimal(p.value.y) else "00"
  }

  /** The CSA square a place is written as: 00 for none. */
  function SquareFor(p: Option<PlaceFormat>): CsaRecord.CsaSquare
  {
    if p.Some? then CsaRecord.CsaSquare(p.value.x, p.value.y) else CsaRecord.CsaSquare(0, 0)
  }

  predicate OnBoardPlace(p: PlaceFormat)
  {
    1 <= p.x <= 9 && 1 <= p.y <= 9
  }

  /** Two digits as a CSA square. */
  function SquareOfText(s: string): (sq: CsaRecord.CsaSquare)
    requires |s| == 2 && AllDigits(s)
  {
    CsaRecord.CsaSquare(DigitValue(s[0]), DigitValue(s[1]))
  }

  /**
   * A square of the board, or none, is written as two digits that read
   * back as its CSA square; the conversion maps that square back to the
   * place, and 00 to a drop.
   */
  lemma PlaceTextReads(p: Option<PlaceFormat>)
    requires p.Some? ==> OnBoardPlace(p.value)
    ensures |PlaceText(p)| == 2 && AllDigits(PlaceText(p))
    ensures SquareOfText(PlaceText(p)) == SquareFor(p)
    ensures p.Some? ==> CsaRecord.PlaceOf(SquareFor(p)) == Ok(p.value)
    ensures p.None? ==> CsaRecord.PlaceOf(SquareFor(p)).Err?
  {
    if p.Some? {
      DigitValueOf(p.value.x);
      DigitValueOf(p.value.y);
    } else {
      DigitValueOf(0);
    }
  }

  method WriteColor(sink: Sink, c: Color)
    modifies sink
    ensures sink.text == old(sink.text) + ColorSign(c)
  {
    match c
    case Black => sink.Write("+");
    case White => sink.Write("-");
  }

  method WriteKind(sink: Sink, k: Kind)
    modifies sink
    ensures sink.text == old(sink.text) + KindName(k)
  {
    sink.Write(KindName(k));
  }

  method WritePlace(sink: Sink, p: Option<PlaceFormat>)
    modifies sink
    ensures sink.text == old(sink.text) + PlaceText(p)
  {
    if p.Some? {
      sink.Write(Decimal(p.value.x) + Decimal(p.value.y));
    } else {
      sink.Write("00");
    }
  }

  // ------------------------------------------------------------- header

  function Lookup(h: map<string, string>, k: string): (v: Option<string>)
    ensures v.Some? <==> k in h
    ensures v.Some? ==> v.value == h[k]
  {
    if k in h then Some(h[k]) else None
  }

  /** The first key present, else the second. */
  function Either(h: map<string, string>, k1: string, k2: string): (v: Option<string>)
    ensures k1 in h ==> v == Some(h[k1])
    ensures k1 !in h ==> v == Lookup(h, k2)
  {
    if k1 in h then Some(h[k1]) else Lookup(h, k2)
  }

  /** A header line `{tag}{value}` when there is a value, nothing otherwise. */
  function HeaderLine(tag: string, v: Option<string>): (s: string)
    ensures v.None? <==> s == ""
  {
    if v.Some? then tag + v.value + "\n" else ""
  }

  /**
   * The version line, then the players (先手 or else 下手 for Black, 後手
   * or else 上手 for White), the event, the site and the opening. No other
   * key is written.
   */
  function HeaderText(h: map<string, string>): string
  {
    "V2.2\n" +
    HeaderLine("N+", Either(h, "先手", "下手")) +
    HeaderLine("N-", Either(h, "後手", "上手")) +
    HeaderLine("$EVENT:", Lookup(h, "棋戦")) +
    HeaderLine("$SITE:", Lookup(h, "場所")) +
    HeaderLine("$OPENING:", Lookup(h, "戦型"))
  }

  method WriteHeaderLine(sink: Sink, tag: string, v: Option<string>)
    modifies sink
    ensures sink.text == old(sink.text) + HeaderLine(tag, v)
  {
    if v.Some? {
      sink.Write(tag + v.value + "\n");
    }
  }

  lemma Appended6(t: string, a: string, b: string, c: string, d: string, e: string, f: string)
    ensures t + a + b + c + d + e + f == t + (a + b + c + d + e + f)
  {
  }

  method WriteHeader(sink: Sink, h: map<string, string>)
    modifies sink
    ensures sink.text == old(sink.text) + HeaderText(h)
  {
    var t0 := sink.text;
    sink.Write("V2.2\n");
    var black := if "先手" in h then Some(h["先手"]) else if "下手" in h then Some(h["下手"]) else None;
    WriteHeaderLine(sink, "N+", black);
    var white := if "後手" in h then Some(h["後手"]) else if "上手" in h then Some(h["上手"]) else None;
    WriteHeaderLine(sink, "N-", white);
    WriteHeaderLine(sink, "$EVENT:", if "棋戦" in h then Some(h["棋戦"]) else None);
    WriteHeaderLine(sink, "$SITE:", if "場所" in h then Some(h["場所"]) else None);
    WriteHeaderLine(sink, "$OPENING:", if "戦型" in h then Some(h["戦型"]) else None);
    Appended6(t0, "V2.2\n", HeaderLine("N+", black), HeaderLine("N-", white), HeaderLine("$EVENT:", Lookup(h, "棋戦")),
      HeaderLine("$SITE:", Lookup(h, "場所")), HeaderLine("$OPENING:", Lookup(h, "戦型")));
  }

  /**
   * The header of a converted CSA record written again: the players, the
   * event, the site and the opening come back on their own lines; the
   * start and end times and the time limit are not written.
   */
  lemma HeaderOfNamesText(n: CsaRecord.Names)
    ensures HeaderText(CsaRecord.HeaderOf(n)) ==
      "V2.2\n" + HeaderLine("N+", n.blackPlayer) + HeaderLine("N-", n.whitePlayer) +
      HeaderLine("$EVENT:", n.event) + HeaderLine("$SITE:", n.site) + HeaderLine("$OPENING:", n.opening)
  {
    var h := CsaRecord.HeaderOf(n);
    assert "下手" !in h && "上手" !in h;
    assert Either(h, "先手", "下手") == n.blackPlayer;
    assert Either(h, "後手", "上手") == n.whitePlayer;
    assert Lookup(h, "棋戦") == n.event && Lookup(h, "場所") == n.site && Lookup(h, "戦型") == n.opening;
  }

  // -------------------------------------------------------------- moves

  /** The kind written for a move: promoted when the move promotes. */
  function WrittenKind(mv: MoveMoveFormat): (k: Kind)
    ensures UnwrapOr(mv.promote, false) ==> k == Promoted(mv.piece)
    ensures !UnwrapOr(mv.promote, false) ==> k == mv.piece
  {
    if UnwrapOr(mv.promote, false) then Promoted(mv.piece) else mv.piece
  }

  /** A move: sign, origin (00 for a drop), destination, kind after the move. */
  function MoveText(mv: MoveMoveFormat): string
  {
    ColorSign(mv.color) + PlaceText(mv.from) + PlaceText(Some(mv.to)) + KindName(WrittenKind(mv))
  }

  /** The CSA name of each special; the two illegal actions carry the offender's sign. */
  function SpecialName(sp: MoveSpecial): (s: string)
    ensures |s| > 0
  {
    match sp
    case SpecialToryo => "TORYO" case SpecialChudan => "CHUDAN"
    case SpecialSennichite => "SENNICHITE" case SpecialTimeUp => "TIME_UP"
    case SpecialIllegalMove => "ILLEGAL_MOVE"
    case SpecialIllegalActionBlack => "+ILLEGAL_ACTION" case SpecialIllegalActionWhite => "-ILLEGAL_ACTION"
    case SpecialJishogi => "JISHOGI" case SpecialKachi => "KACHI"
    case SpecialHikiwake => "HIKIWAKE" case SpecialMatta => "MATTA"
    case SpecialTsumi => "TSUMI" case SpecialFuzumi => "FUZUMI" case SpecialError => "ERROR"
  }

  /** A special's name reads back as the action the conversion maps to that special. */
  lemma SpecialNameReads(sp: MoveSpecial)
    ensures ActionOfSpecialName(SpecialName(sp)) == Some(CsaRecord.ActionOf(sp))
    ensures CsaRecord.SpecialOf(CsaRecord.ActionOf(sp)) == Some(sp)
  {
  }

  /** The action a CSA special name stands for. */
  function ActionOfSpecialName(s: string): Option<CsaRecord.Action>
  {
    if s == "TORYO" then Some(CsaRecord.Toryo) else if s == "CHUDAN" then Some(CsaRecord.Chudan)
    else if s == "SENNICHITE" then Some(CsaRecord.Sennichite) else if s == "TIME_UP" then Some(CsaRecord.TimeUp)
    else if s == "ILLEGAL_MOVE" then Some(CsaRecord.IllegalMove)
    else if s == "+ILLEGAL_ACTION" then Some(CsaRecord.IllegalAction(Black))
    else if s == "-ILLEGAL_ACTION" then Some(CsaRecord.IllegalAction(White))
    else if s == "JISHOGI" then Some(CsaRecord.Jishogi) else if s == "KACHI" then Some(CsaRecord.Kachi)
    else if s == "HIKIWAKE" then Some(CsaRecord.Hikiwake) else if s == "MATTA" then Some(CsaRecord.Matta)
    else if s == "TSUMI" then Some(CsaRecord.Tsumi) else if s == "FUZUMI" then Some(CsaRecord.Fuzumi)
    else if s == "ERROR" then Some(CsaRecord.Error)
    else None
  }

  /** The writer stops (unreachable in the source) on an entry with neither a move nor a special. */
  predicate EntryWritable(mf: MoveFormat)
  {
    mf.move.Some? || mf.special.Some?
  }

  /** The first line of an entry: the move, or `%` and the special. */
  function EntryLine(mf: MoveFormat): string
    requires EntryWritable(mf)
  {
    if mf.move.Some? then MoveText(mf.move.value) else "%" + SpecialName(mf.special.value)
  }

  /** `T{seconds}` of this move's time, an absent hour counting as zero. */
  function TimeLine(t: Option<Time>): string
  {
    if t.Some? then "T" + Decimal(Seconds(t.value.now)) + "\n" else ""
  }

  function CommentsText(cs: seq<string>): string
  {
    if cs == [] then "" else CommentsText(cs[..|cs| - 1]) + "'" + cs[|cs| - 1] + "\n"
  }

  function CommentLines(cs: Option<seq<string>>): string
  {
    if cs.Some? then CommentsText(cs.value) else ""
  }

  /** An entry: its line, its time line if it has a time, then a line per comment. */
  function EntryText(mf: MoveFormat): string
    requires EntryWritable(mf)
  {
    EntryLine(mf) + "\n" + TimeLine(mf.time) + CommentLines(mf.comments)
  }

  predicate MovesWritable(moves: seq<MoveFormat>)
  {
    forall i | 0 <= i < |moves| :: EntryWritable(moves[i])
  }

  function MovesText(moves: seq<MoveFormat>): string
    requires MovesWritable(moves)
  {
    if moves == [] then "" else MovesText(moves[..|moves| - 1]) + EntryText(moves[|moves| - 1])
  }

  method WriteComments(sink: Sink, cs: seq<string>)
    modifies sink
    ensures sink.text == old(sink.text) + CommentsText(cs)
  {
    for k := 0 to |cs|
      invariant sink.text == old(sink.text) + CommentsText(cs[..k])
    {
      assert cs[..k + 1][..k] == cs[..k];
      sink.Write("'" + cs[k] + "\n");
    }
    assert cs[..|cs|] == cs;
  }

  method WriteMove(sink: Sink, mv: MoveMoveFormat)
    modifies sink
    ensures sink.text == old(sink.text) + MoveText(mv)
  {
    var t0 := sink.text;
    WriteColor(sink, mv.color);
    WritePlace(sink, mv.from);
    WritePlace(sink, Some(mv.to));
    var kind := if UnwrapOr(mv.promote, false) then Promoted(mv.piece) else mv.piece;
    WriteKind(sink, kind);
    Appended4(t0, ColorSign(mv.color), PlaceText(mv.from), PlaceText(Some(mv.to)), KindName(kind));
  }

  method WriteEntryLine(sink: Sink, mf: MoveFormat)
    requires EntryWritable(mf)
    modifies sink
    ensures sink.text == old(sink.text) + EntryLine(mf)
  {
    if mf.move.Some? {
      WriteMove(sink, mf.move.value);
    } else {
      var t0 := sink.text;
      sink.Write("%");
      sink.Write(SpecialName(mf.special.value));
      Appended2(t0, "%", SpecialName(mf.special.value));
    }
  }

  method WriteTime(sink: Sink, t: Option<Time>)
    modifies sink
    ensures sink.text == old(sink.text) + TimeLine(t)
  {
    if t.Some? {
      var now := t.value.now;
      var sec := UnwrapOr<U8>(now.h, 0) * 3600 + now.m * 60 + now.s;
      sink.Write("T" + Decimal(sec) + "\n");
    }
  }

  method WriteEntry(sink: Sink, mf: MoveFormat)
    requires EntryWritable(mf)
    modifies sink
    ensures sink.text == old(sink.text) + EntryText(mf)
  {
    var t0 := sink.text;
    WriteEntryLine(sink, mf);
    sink.Write("\n");
    WriteTime(sink, mf.time);
    if mf.comments.Some? {
      WriteComments(sink, mf.comments.value);
    }
    Appended4(t0, EntryLine(mf), "\n", TimeLine(mf.time), CommentLines(mf.comments));
  }

  /** Every entry in order. */
  method WriteMoves(sink: Sink, moves: seq<MoveFormat>)
    requires MovesWritable(moves)
    modifies sink
    ensures sink.text == old(sink.text) + MovesText(moves)
  {
    var t0 := sink.text;
    for i := 0 to |moves|
      invariant MovesWritable(moves[..i])
      invariant sink.text == t0 + MovesText(moves[..i])
    {
      MovesTextSnoc(moves, i);
      WriteEntry(sink, moves[i]);
      Appended2(t0, MovesText(moves[..i]), EntryText(moves[i]));
    }
    assert moves[..|moves|] == moves;
  }

  lemma MovesTextSnoc(moves: seq<MoveFormat>, i: nat)
    requires MovesWritable(moves) && i < |moves|
    ensures MovesWritable(moves[..i]) && MovesWritable(moves[..i + 1])
    ensures MovesText(moves[..i + 1]) == MovesText(moves[..i]) + EntryText(moves[i])
  {
    assert moves[..i + 1][..i] == moves[..i];
  }

  // --------------------------------------------------- starting position

  /** A cell: the sign and kind of a piece, ` * ` for anything else. */
  function CellText(p: Piece): (s: string)
    ensures |s| == 3
  {
    if p.color.Some? && p.kind.Some? then ColorSign(p.color.value) + KindName(p.kind.value) else " * "
  }

  /** The first n cells of row i: rank i + 1 from file 9 down to file 10 - n. */
  function RowCells(b: Board, i: nat, n: nat): (s: string)
    requires i < 9 && n <= 9
    ensures |s| == 3 * n
  {
    if n == 0 then "" else RowCells(b, i, n - 1) + CellText(b[8 - (n - 1)][i])
  }

  /** `P{i+1}` and the nine cells of rank i + 1. */
  function RowText(b: Board, i: nat): string
    requires i < 9
  {
    "P" + Decimal(i + 1) + RowCells(b, i, 9) + "\n"
  }

  function RowsText(b: Board, n: nat): string
    requires n <= 9
  {
    if n == 0 then "" else RowsText(b, n - 1) + RowText(b, n - 1)
  }

  function Repeat(s: string, n: nat): (r: string)
    ensures |r| == n * |s|
  {
    if n == 0 then "" else Repeat(s, n - 1) + s
  }

  /** A hand's pieces at square 00: rooks, bishops, golds, silvers, knights, lances, pawns. */
  function HandTokens(h: Hand): string
  {
    Repeat("00HI", h.HI) + Repeat("00KA", h.KA) + Repeat("00KI", h.KI) + Repeat("00GI", h.GI) +
    Repeat("00KE", h.KE) + Repeat("00KY", h.KY) + Repeat("00FU", h.FU)
  }

  /** `P+` or `P-` and the hand's pieces, or nothing for an empty hand. */
  function HandLine(hands: Hands, i: nat): (s: string)
    requires i < 2
    ensures hands[i] == EmptyHand() <==> s == ""
  {
    if hands[i] == EmptyHand() then "" else (if i == 0 then "P+" else "P-") + HandTokens(hands[i]) + "\n"
  }

  function HandLines(hands: Hands, n: nat): string
    requires n <= 2
  {
    if n == 0 then "" else HandLines(hands, n - 1) + HandLine(hands, n - 1)
  }

  /** The nine ranks, the hand lines, then the side to move. */
  function DataText(d: StateFormat): string
  {
    RowsText(d.board, 9) + HandLines(d.hands, 2) + ColorSign(d.color)
  }

  /** The presets the writer has a PI line for; the others are unimplemented in the source. */
  predicate PresetWritable(p: Preset)
  {
    p in {PresetHirate, PresetKY, PresetKYR, PresetKA, PresetHI, PresetHIKY, Preset2, Preset4, Preset6, Preset8, Preset10}
  }

  /** The PI line of each preset: `PI` and the squares and pieces the handicap removes. */
  function PresetLine(p: Preset): string
    requires PresetWritable(p)
  {
    match p
    case PresetHirate => "PI\n"
    case PresetKY => "PI11KY\n"
    case PresetKYR => "PI91KY\n"
    case PresetKA => "PI22KA\n"
    case PresetHI => "PI82HI\n"
    case PresetHIKY => "PI82HI11KY\n"
    case Preset2 => "PI82HI22KA\n"
    case Preset4 => "PI82HI22KA91KY11KY\n"
    case Preset6 => "PI82HI22KA91KY11KY81KE21KE\n"
    case Preset8 => "PI82HI22KA91KY11KY81KE21KE71GI31GI\n"
    case Preset10 => "PI82HI22KA91KY11KY81KE21KE71GI31GI61KI41KI\n"
  }

  /** The PI line, then `+` for Hirate and `-` (White moves first) for a handicap. */
  function PresetText(p: Preset): string
    requires PresetWritable(p)
  {
    PresetLine(p) + (if p == PresetHirate then "+" else "-")
  }

  predicate InitialWritable(initial: Option<Initial>)
  {
    initial.Some? && initial.value.data.None? ==> PresetWritable(initial.value.preset)
  }

  /** The data if there is some, else the preset; `PI` and `+` without an initial; then a line break. */
  function InitialText(initial: Option<Initial>): string
    requires InitialWritable(initial)
  {
    (if initial.None? then "PI\n+"
     else if initial.value.data.Some? then DataText(initial.value.data.value)
     else PresetText(initial.value.preset)) + "\n"
  }

  method WriteCell(sink: Sink, p: Piece)
    modifies sink
    ensures sink.text == old(sink.text) + CellText(p)
  {
    if p.color.Some? && p.kind.Some? {
      var t0 := sink.text;
      WriteColor(sink, p.color.value);
      WriteKind(sink, p.kind.value);
      Appended2(t0, ColorSign(p.color.value), KindName(p.kind.value));
    } else {
      sink.Write(" * ");
    }
  }

  method WriteRepeat(sink: Sink, s: string, n: nat)
    modifies sink
    ensures sink.text == old(sink.text) + Repeat(s, n)
  {
    var t0 := sink.text;
    for k := 0 to n
      invariant sink.text == t0 + Repeat(s, k)
    {
      sink.Write(s);
      Appended2(t0, Repeat(s, k), s);
    }
  }

  method WriteHandTokens(sink: Sink, h: Hand)
    modifies sink
    ensures sink.text == old(sink.text) + HandTokens(h)
  {
    var t0 := sink.text;
    WriteRepeat(sink, "00HI", h.HI);
    WriteRepeat(sink, "00KA", h.KA);
    WriteRepeat(sink, "00KI", h.KI);
    WriteRepeat(sink, "00GI", h.GI);
    WriteRepeat(sink, "00KE", h.KE);
    WriteRepeat(sink, "00KY", h.KY);
    WriteRepeat(sink, "00FU", h.FU);
    Appended7(t0, Repeat("00HI", h.HI), Repeat("00KA", h.KA), Repeat("00KI", h.KI), Repeat("00GI", h.GI),
      Repeat("00KE", h.KE), Repeat("00KY", h.KY), Repeat("00FU", h.FU));
  }

  lemma Appended7(t: string, a: string, b: string, c: string, d: string, e: string, f: string, g: string)
    ensures t + a + b + c + d + e + f + g == t + (a + b + c + d + e + f + g)
  {
  }

  method WriteRow(sink: Sink, b: Board, i: nat)
    requires i < 9
    modifies sink
    ensures sink.text == old(sink.text) + RowText(b, i)
  {
    var t0 := sink.text;
    sink.Write("P" + Decimal(i + 1));
    var t1 := sink.text;
    for j := 0 to 9
      invariant sink.text == t1 + RowCells(b, i, j)
    {
      WriteCell(sink, b[8 - j][i]);
      Appended2(t1, RowCells(b, i, j), CellText(b[8 - j][i]));
    }
    sink.Write("\n");
    Appended3(t0, "P" + Decimal(i + 1), RowCells(b, i, 9), "\n");
  }

  /** The nine ranks, the hands that are not empty, the side to move. */
  method WriteInitialData(sink: Sink, d: StateFormat)
    modifies sink
    ensures sink.text == old(sink.text) + DataText(d)
  {
    var t0 := sink.text;
    for i := 0 to 9
      invariant sink.text == t0 + RowsText(d.board, i)
    {
      WriteRow(sink, d.board, i);
      Appended2(t0, RowsText(d.board, i), RowText(d.board, i));
    }
    var t1 := sink.text;
    for i := 0 to 2
      invariant sink.text == t1 + HandLines(d.hands, i)
    {
      var hand := d.hands[i];
      if hand == EmptyHand() {
        continue;
      }
      var t2 := sink.text;
      if i == 0 {
        sink.Write("P+");
      } else {
        sink.Write("P-");
      }
      WriteHandTokens(sink, hand);
      sink.Write("\n");
      Appended3(t2, if i == 0 then "P+" else "P-", HandTokens(hand), "\n");
      Appended2(t1, HandLines(d.hands, i), HandLine(d.hands, i));
    }
    WriteColor(sink, d.color);
    Appended3(t0, RowsText(d.board, 9), HandLines(d.hands, 2), ColorSign(d.color));
  }

  method WriteInitialPreset(sink: Sink, p: Preset)
    requires PresetWritable(p)
    modifies sink
    ensures sink.text == old(sink.text) + PresetText(p)
  {
    sink.Write(PresetLine(p));
    if p == PresetHirate {
      sink.Write("+");
    } else {
      sink.Write("-");
    }
  }

  method WriteInitial(sink: Sink, initial: Option<Initial>)
    requires InitialWritable(initial)
    modifies sink
    ensures sink.text == old(sink.text) + InitialText(initial)
  {
    if initial.Some? {
      if initial.value.data.Some? {
        WriteInitialData(sink, initial.value.data.value);
      } else {
        WriteInitialPreset(sink, initial.value.preset);
      }
    } else {
      sink.Write("PI\n+");
    }
    sink.Write("\n");
  }

  // ------------------------------------------------------------- record

  /** The source writes the entries after the first, so a record needs at least one entry. */
  predicate RecordWritable(r: JsonKifuFormat)
  {
    |r.moves| >= 1 && InitialWritable(r.initial) && MovesWritable(r.moves[1..])
  }

  /** The header, the starting position, then every entry after the first. */
  function CsaText(r: JsonKifuFormat): string
    requires RecordWritable(r)
  {
    HeaderText(r.header) + InitialText(r.initial) + MovesText(r.moves[1..])
  }

  method ToCsa(sink: Sink, r: JsonKifuFormat)
    requires RecordWritable(r)
    modifies sink
    ensures sink.text == old(sink.text) + CsaText(r)
  {
    var t0 := sink.text;
    WriteHeader(sink, r.header);
    WriteInitial(sink, r.initial);
    WriteMoves(sink, r.moves[1..]);
    Appended3(t0, HeaderText(r.header), InitialText(r.initial), MovesText(r.moves[1..]));
  }

  /** The empty record is the version line and the opening: `V2.2`, `PI`, `+`. */
  lemma DefaultRecordText()
    ensures RecordWritable(DefaultRecord())
    ensures CsaText(DefaultRecord()) == "V2.2\nPI\n+\n"
  {
    var r := DefaultRecord();
    assert r.moves[1..] == [];
    assert HeaderText(r.header) == "V2.2\n";
  }

  // -------------------------------------------------- moves read back

  /**
   * The action an entry line stands for: `%` and a special name, or a
   * sign, two squares and a piece name.
   */
  function ActionOfLine(line: string): Option<CsaRecord.Action>
  {
    if |line| >= 1 && line[0] == '%' then ActionOfSpecialName(line[1..])
    else if |line| == 7 && SignColor(line[0]).Some? && AllDigits(line[1..3]) && AllDigits(line[3..5]) &&
            PieceTypeOfName(line[5..]).Some? then
      Some(CsaRecord.Move(SignColor(line[0]).value, SquareOfText(line[1..3]), SquareOfText(line[3..5]),
                          PieceTypeOfName(line[5..]).value))
    else None
  }

  predicate MoveOnBoard(mv: MoveMoveFormat)
  {
    OnBoardPlace(mv.to) && (mv.from.Some? ==> OnBoardPlace(mv.from.value))
  }

  lemma MoveTextParts(a: string, b: string, c: string, d: string)
    requires |a| == 1 && |b| == 2 && |c| == 2 && |d| == 2
    ensures |a + b + c + d| == 7
    ensures (a + b + c + d)[0] == a[0] && (a + b + c + d)[1..3] == b
    ensures (a + b + c + d)[3..5] == c && (a + b + c + d)[5..] == d
  {
  }

  /** A move on the board reads back as the CSA move of its colour, squares and written kind. */
  lemma MoveLineReads(mv: MoveMoveFormat)
    requires MoveOnBoard(mv)
    ensures ActionOfLine(MoveText(mv)) ==
      Some(CsaRecord.Move(mv.color, SquareFor(mv.from), SquareFor(Some(mv.to)), CsaRecord.PieceTypeOf(WrittenKind(mv))))
  {
    PlaceTextReads(mv.from);
    PlaceTextReads(Some(mv.to));
    KindNameReads(WrittenKind(mv));
    ColorSignReads(mv.color);
    MoveTextParts(ColorSign(mv.color), PlaceText(mv.from), PlaceText(Some(mv.to)), KindName(WrittenKind(mv)));
  }

  /** A special's line reads back as the action of that special. */
  lemma SpecialLineReads(sp: MoveSpecial)
    ensures ActionOfLine("%" + SpecialName(sp)) == Some(CsaRecord.ActionOf(sp))
  {
    assert ("%" + SpecialName(sp))[1..] == SpecialName(sp);
    SpecialNameReads(sp);
  }

  /**
   * A time line is `T`, the decimal seconds and a line break; a time with
   * minutes and seconds below sixty and no zero hour comes back from those
   * seconds unchanged.
   */
  lemma TimeLineReads(t: Time)
    ensures TimeLine(Some(t)) == "T" + Decimal(Seconds(t.now)) + "\n"
    ensures DecimalValue(Decimal(Seconds(t.now))) == Seconds(t.now)
    ensures t.now.m < 60 && t.now.s < 60 && t.now.h != Some(0) ==> CsaRecord.TimeOf(Seconds(t.now)) == t.now
  {
    DecimalRoundTrip(Seconds(t.now));
    if t.now.m < 60 && t.now.s < 60 && t.now.h != Some(0) {
      CsaRecord.TimeOfSeconds(t.now);
    }
  }

  /** The move the CSA conversion rebuilds: the written kind, no same, promote, capture or relative. */
  function CsaMove(mv: MoveMoveFormat): MoveMoveFormat
  {
    MoveMoveFormat(mv.color, mv.from, mv.to, WrittenKind(mv), None, None, None, None)
  }

  /** The seconds a time line carries. */
  function WrittenSeconds(t: Option<Time>): Option<nat>
  {
    if t.Some? then Some(Seconds(t.value.now)) else None
  }

  /**
   * An entry read back through the CSA conversion: the move (with only
   * what CSA keeps) or the special, and the time's seconds as its time.
   * A special next to a move is not written, and comments are read
   * separately.
   */
  lemma EntryReadsBack(mf: MoveFormat)
    requires EntryWritable(mf)
    requires mf.move.Some? ==> MoveOnBoard(mf.move.value)
    ensures ActionOfLine(EntryLine(mf)).Some?
    ensures CsaRecord.EntryOf(CsaRecord.MoveRecord(ActionOfLine(EntryLine(mf)).value, WrittenSeconds(mf.time))) ==
      Ok(MoveFormat(if mf.move.Some? then Some(CsaMove(mf.move.value)) else None, None,
                    CsaRecord.TimeOfRecord(WrittenSeconds(mf.time)),
                    if mf.move.Some? then None else mf.special, NoForks))
  {
    if mf.move.Some? {
      var mv := mf.move.value;
      MoveLineReads(mv);
      CsaRecord.KindOfIsBijective(WrittenKind(mv), CsaRecord.Pawn);
      PlaceTextReads(mv.from);
      PlaceTextReads(Some(mv.to));
    } else {
      SpecialLineReads(mf.special.value);
    }
  }

  // ------------------------------------------------ presets read back

  /** The squares and pieces each PI line names, in the order written. */
  function PresetDrops(p: Preset): seq<(CsaRecord.CsaSquare, CsaRecord.PieceType)>
    requires PresetWritable(p)
  {
    var major := [Rook82(), Bishop22()];
    var lances := [Lance91(), Lance11()];
    var minor := [Knight81(), Knight21(), Silver71(), Silver31()];
    match p
    case PresetHirate => []
    case PresetKY => [Lance11()]
    case PresetKYR => [Lance91()]
    case PresetKA => [Bishop22()]
    case PresetHI => [Rook82()]
    case PresetHIKY => [Rook82(), Lance11()]
    case Preset2 => major
    case Preset4 => major + lances
    case Preset6 => major + lances + minor[..2]
    case Preset8 => major + lances + minor
    case Preset10 => major + lances + minor + [Gold61(), Gold41()]
  }

  function DropText(d: (CsaRecord.CsaSquare, CsaRecord.PieceType)): string
  {
    Decimal(d.0.file) + Decimal(d.0.rank) + PieceTypeName(d.1)
  }

  function DropsText(ds: seq<(CsaRecord.CsaSquare, CsaRecord.PieceType)>): string
  {
    if ds == [] then "" else DropsText(ds[..|ds| - 1]) + DropText(ds[|ds| - 1])
  }

  lemma DropsTextSnoc(ds: seq<(CsaRecord.CsaSquare, CsaRecord.PieceType)>, d: (CsaRecord.CsaSquare, CsaRecord.PieceType))
    ensures DropsText(ds + [d]) == DropsText(ds) + DropText(d)
  {
    assert (ds + [d])[..|ds|] == ds;
  }

  function Rook82(): (CsaRecord.CsaSquare, CsaRecord.PieceType) { (CsaRecord.CsaSquare(8, 2), CsaRecord.Rook) }
  function Bishop22(): (CsaRecord.CsaSquare, CsaRecord.PieceType) { (CsaRecord.CsaSquare(2, 2), CsaRecord.Bishop) }
  function Lance91(): (CsaRecord.CsaSquare, CsaRecord.PieceType) { (CsaRecord.CsaSquare(9, 1), CsaRecord.Lance) }
  function Lance11(): (CsaRecord.CsaSquare, CsaRecord.PieceType) { (CsaRecord.CsaSquare(1, 1), CsaRecord.Lance) }
  function Knight81(): (CsaRecord.CsaSquare, CsaRecord.PieceType) { (CsaRecord.CsaSquare(8, 1), CsaRecord.Knight) }
  function Knight21(): (CsaRecord.CsaSquare, CsaRecord.PieceType) { (CsaRecord.CsaSquare(2, 1), CsaRecord.Knight) }
  function Silver71(): (CsaRecord.CsaSquare, CsaRecord.PieceType) { (CsaRecord.CsaSquare(7, 1), CsaRecord.Silver) }
  function Silver31(): (CsaRecord.CsaSquare, CsaRecord.PieceType) { (CsaRecord.CsaSquare(3, 1), CsaRecord.Silver) }
  function Gold61(): (CsaRecord.CsaSquare, CsaRecord.PieceType) { (CsaRecord.CsaSquare(6, 1), CsaRecord.Gold) }
  function Gold41(): (CsaRecord.CsaSquare, CsaRecord.PieceType) { (CsaRecord.CsaSquare(4, 1), CsaRecord.Gold) }

  lemma Rook82Text()
    ensures DropText(Rook82()) == "82HI"
  {
  }

  lemma Bishop22Text()
    ensures DropText(Bishop22()) == "22KA"
  {
  }

  lemma Lance91Text()
    ensures DropText(Lance91()) == "91KY"
  {
  }

  lemma Lance11Text()
    ensures DropText(Lance11()) == "11KY"
  {
  }

  lemma Knight81Text()
    ensures DropText(Knight81()) == "81KE"
  {
  }

  lemma Knight21Text()
    ensures DropText(Knight21()) == "21KE"
  {
  }

  lemma Silver71Text()
    ensures DropText(Silver71()) == "71GI"
  {
  }

  lemma Silver31Text()
    ensures DropText(Silver31()) == "31GI"
  {
  }

  lemma Gold61Text()
    ensures DropText(Gold61()) == "61KI"
  {
  }

  lemma Gold41Text()
    ensures DropText(Gold41()) == "41KI"
  {
  }

  /** A text followed by the drops, when each drop's text is known. */
  lemma {:induction false} DropsTextOf(prefix: string, ds: seq<(CsaRecord.CsaSquare, CsaRecord.PieceType)>, texts: seq<string>)
    requires |ds| == |texts|
    requires forall i :: 0 <= i < |ds| ==> DropText(ds[i]) == texts[i]
    ensures prefix + DropsText(ds) == ConcatAfter(prefix, texts)
    decreases |ds|
  {
    if ds != [] {
      var n := |ds| - 1;
      DropsTextOf(prefix, ds[..n], texts[..n]);
      Appended2(prefix, DropsText(ds[..n]), DropText(ds[n]));
    } else {
      assert prefix + DropsText(ds) == prefix;
    }
  }

  lemma ConcatStep(prefix: string, ts: seq<string>, k: nat, before: string, after: string)
    requires 0 < k <= |ts| && ConcatAfter(prefix, ts[..k - 1]) == before && before + ts[k - 1] == after
    ensures ConcatAfter(prefix, ts[..k]) == after
  {
    assert ts[..k][..k - 1] == ts[..k - 1];
  }

  function ConcatAfter(prefix: string, ts: seq<string>): string
  {
    if ts == [] then prefix else ConcatAfter(prefix, ts[..|ts| - 1]) + ts[|ts| - 1]
  }

  lemma PiTextHirate(ts: seq<string>)
    requires ts == []
    ensures ConcatAfter("PI", ts) == "PI"
  {
  }

  lemma LineHirateDrops()
    ensures PresetLine(PresetHirate) == "PI" + DropsText(PresetDrops(PresetHirate)) + "\n"
  {
    var ds := [];
    assert PresetDrops(PresetHirate) == ds;
    var ts: seq<string> := [];
    PiTextHirate(ts);
    DropsTextOf("PI", ds, ts);
  }

  lemma PiTextKY(ts: seq<string>)
    requires ts == ["11KY"]
    ensures ConcatAfter("PI", ts) == "PI11KY"
  {
    ConcatStep("PI", ts, 1, "PI", "PI11KY");
    assert ts[..1] == ts;
  }

  lemma LineKYDrops()
    ensures PresetLine(PresetKY) == "PI" + DropsText(PresetDrops(PresetKY)) + "\n"
  {
    var ds := [Lance11()];
    assert PresetDrops(PresetKY) == ds;
    Lance11Text();
    var ts: seq<string> := ["11KY"];
    PiTextKY(ts);
    DropsTextOf("PI", ds, ts);
  }

  lemma PiTextKYR(ts: seq<string>)
    requires ts == ["91KY"]
    ensures ConcatAfter("PI", ts) == "PI91KY"
  {
    ConcatStep("PI", ts, 1, "PI", "PI91KY");
    assert ts[..1] == ts;
  }

  lemma LineKYRDrops()
    ensures PresetLine(PresetKYR) == "PI" + DropsText(PresetDrops(PresetKYR)) + "\n"
  {
    var ds := [Lance91()];
    assert PresetDrops(PresetKYR) == ds;
    Lance91Text();
    var ts: seq<string> := ["91KY"];
    PiTextKYR(ts);
    DropsTextOf("PI", ds, ts);
  }

  lemma PiTextKA(ts: seq<string>)
    requires ts == ["22KA"]
    ensures ConcatAfter("PI", ts) == "PI22KA"
  {
    ConcatStep("PI", ts, 1, "PI", "PI22KA");
    assert ts[..1] == ts;
  }

  lemma LineKADrops()
    ensures PresetLine(PresetKA) == "PI" + DropsText(PresetDrops(PresetKA)) + "\n"
  {
    var ds := [Bishop22()];
    assert PresetDrops(PresetKA) == ds;
    Bishop22Text();
    var ts: seq<string> := ["22KA"];
    PiTextKA(ts);
    DropsTextOf("PI", ds, ts);
  }

  lemma PiTextHI(ts: seq<string>)
    requires ts == ["82HI"]
    ensures ConcatAfter("PI", ts) == "PI82HI"
  {
    ConcatStep("PI", ts, 1, "PI", "PI82HI");
    assert ts[..1] == ts;
  }

  lemma LineHIDrops()
    ensures PresetLine(PresetHI) == "PI" + DropsText(PresetDrops(PresetHI)) + "\n"
  {
    var ds := [Rook82()];
    assert PresetDrops(PresetHI) == ds;
    Rook82Text();
    var ts: seq<string> := ["82HI"];
    PiTextHI(ts);
    DropsTextOf("PI", ds, ts);
  }

  lemma PiTextHIKY(ts: seq<string>)
    requires ts == ["82HI", "11KY"]
    ensures ConcatAfter("PI", ts) == "PI82HI11KY"
  {
    ConcatStep("PI", ts, 1, "PI", "PI82HI");
    ConcatStep("PI", ts, 2, "PI82HI", "PI82HI11KY");
    assert ts[..2] == ts;
  }

  lemma LineHIKYDrops()
    ensures PresetLine(PresetHIKY) == "PI" + DropsText(PresetDrops(PresetHIKY)) + "\n"
  {
    var ds := [Rook82(), Lance11()];
    assert PresetDrops(PresetHIKY) == ds;
    Rook82Text();
    Lance11Text();
    var ts: seq<string> := ["82HI", "11KY"];
    PiTextHIKY(ts);
    DropsTextOf("PI", ds, ts);
  }

  lemma PiText2(ts: seq<string>)
    requires ts == ["82HI", "22KA"]
    ensures ConcatAfter("PI", ts) == "PI82HI22KA"
  {
    ConcatStep("PI", ts, 1, "PI", "PI82HI");
    ConcatStep("PI", ts, 2, "PI82HI", "PI82HI22KA");
    assert ts[..2] == ts;
  }

  lemma Line2Drops()
    ensures PresetLine(Preset2) == "PI" + DropsText(PresetDrops(Preset2)) + "\n"
  {
    var ds := [Rook82(), Bishop22()];
    assert PresetDrops(Preset2) == ds;
    Rook82Text();
    Bishop22Text();
    var ts: seq<string> := ["82HI", "22KA"];
    PiText2(ts);
    DropsTextOf("PI", ds, ts);
  }

  lemma PiText4(ts: seq<string>)
    requires ts == ["82HI", "22KA", "91KY", "11KY"]
    ensures ConcatAfter("PI", ts) == "PI82HI22KA91KY11KY"
  {
    ConcatStep("PI", ts, 1, "PI", "PI82HI");
    ConcatStep("PI", ts, 2, "PI82HI", "PI82HI22KA");
    ConcatStep("PI", ts, 3, "PI82HI22KA", "PI82HI22KA91KY");
    ConcatStep("PI", ts, 4, "PI82HI22KA91KY", "PI82HI22KA91KY11KY");
    assert ts[..4] == ts;
  }

  lemma Line4Drops()
    ensures PresetLine(Preset4) == "PI" + DropsText(PresetDrops(Preset4)) + "\n"
  {
    var ds := [Rook82(), Bishop22(), Lance91(), Lance11()];
    assert PresetDrops(Preset4) == ds;
    Rook82Text();
    Bishop22Text();
    Lance91Text();
    Lance11Text();
    var ts: seq<string> := ["82HI", "22KA", "91KY", "11KY"];
    PiText4(ts);
    DropsTextOf("PI", ds, ts);
  }

  lemma PiText6(ts: seq<string>)
    requires ts == ["82HI", "22KA", "91KY", "11KY", "81KE", "21KE"]
    ensures ConcatAfter("PI", ts) == "PI82HI22KA91KY11KY81KE21KE"
  {
    PiText4(ts[..4]);
    ConcatStep("PI", ts, 5, "PI82HI22KA91KY11KY", "PI82HI22KA91KY11KY81KE");
    ConcatStep("PI", ts, 6, "PI82HI22KA91KY11KY81KE", "PI82HI22KA91KY11KY81KE21KE");
    assert ts[..6] == ts;
  }

  lemma Line6Drops()
    ensures PresetLine(Preset6) == "PI" + DropsText(PresetDrops(Preset6)) + "\n"
  {
    var ds := [Rook82(), Bishop22(), Lance91(), Lance11(), Knight81(), Knight21()];
    assert PresetDrops(Preset6) == ds;
    Rook82Text();
    Bishop22Text();
    Lance91Text();
    Lance11Text();
    Knight81Text();
    Knight21Text();
    var ts: seq<string> := ["82HI", "22KA", "91KY", "11KY", "81KE", "21KE"];
    PiText6(ts);
    DropsTextOf("PI", ds, ts);
  }

  lemma PiText8(ts: seq<string>)
    requires ts == ["82HI", "22KA", "91KY", "11KY", "81KE", "21KE", "71GI", "31GI"]
    ensures ConcatAfter("PI", ts) == "PI82HI22KA91KY11KY81KE21KE71GI31GI"
  {
    PiText6(ts[..6]);
    ConcatStep("PI", ts, 7, "PI82HI22KA91KY11KY81KE21KE", "PI82HI22KA91KY11KY81KE21KE71GI");
    ConcatStep("PI", ts, 8, "PI82HI22KA91KY11KY81KE21KE71GI", "PI82HI22KA91KY11KY81KE21KE71GI31GI");
    assert ts[..8] == ts;
  }

  lemma Line8Drops()
    ensures PresetLine(Preset8) == "PI" + DropsText(PresetDrops(Preset8)) + "\n"
  {
    var ds := [Rook82(), Bishop22(), Lance91(), Lance11(), Knight81(), Knight21(), Silver71(), Silver31()];
    assert PresetDrops(Preset8) == ds;
    Rook82Text();
    Bishop22Text();
    Lance91Text();
    Lance11Text();
    Knight81Text();
    Knight21Text();
    Silver71Text();
    Silver31Text();
    var ts: seq<string> := ["82HI", "22KA", "91KY", "11KY", "81KE", "21KE", "71GI", "31GI"];
    PiText8(ts);
    DropsTextOf("PI", ds, ts);
  }

  lemma PiText10(ts: seq<string>)
    requires ts == ["82HI", "22KA", "91KY", "11KY", "81KE", "21KE", "71GI", "31GI", "61KI", "41KI"]
    ensures ConcatAfter("PI", ts) == "PI82HI22KA91KY11KY81KE21KE71GI31GI61KI41KI"
  {
    PiText8(ts[..8]);
    ConcatStep("PI", ts, 9, "PI82HI22KA91KY11KY81KE21KE71GI31GI", "PI82HI22KA91KY11KY81KE21KE71GI31GI61KI");
    ConcatStep("PI", ts, 10, "PI82HI22KA91KY11KY81KE21KE71GI31GI61KI", "PI82HI22KA91KY11KY81KE21KE71GI31GI61KI41KI");
    assert ts[..10] == ts;
  }

  lemma Line10Drops()
    ensures PresetLine(Preset10) == "PI" + DropsText(PresetDrops(Preset10)) + "\n"
  {
    var ds := [Rook82(), Bishop22(), Lance91(), Lance11(), Knight81(), Knight21(), Silver71(), Silver31(), Gold61(), Gold41()];
    assert PresetDrops(Preset10) == ds;
    Rook82Text();
    Bishop22Text();
    Lance91Text();
    Lance11Text();
    Knight81Text();
    Knight21Text();
    Silver71Text();
    Silver31Text();
    Gold61Text();
    Gold41Text();
    var ts: seq<string> := ["82HI", "22KA", "91KY", "11KY", "81KE", "21KE", "71GI", "31GI", "61KI", "41KI"];
    PiText10(ts);
    DropsTextOf("PI", ds, ts);
  }

  /** Every PI line is `PI`, its drops and a line break. */
  lemma PresetLineIsDrops(p: Preset)
    requires PresetWritable(p)
    ensures PresetLine(p) == "PI" + DropsText(PresetDrops(p)) + "\n"
  {
    match p
    case PresetHirate => LineHirateDrops();
    case PresetKY => LineKYDrops();
    case PresetKYR => LineKYRDrops();
    case PresetKA => LineKADrops();
    case PresetHI => LineHIDrops();
    case PresetHIKY => LineHIKYDrops();
    case Preset2 => Line2Drops();
    case Preset4 => Line4Drops();
    case Preset6 => Line6Drops();
    case Preset8 => Line8Drops();
    case Preset10 => Line10Drops();
  }


  // The PI line as the CSA parser reads it back.

  /** The position the CSA parser builds from a preset's PI line and its side to move. */
  function PresetPosition(p: Preset): (pos: CsaRecord.CsaPosition)
    requires PresetWritable(p)
    ensures pos.bulk.None? && pos.adds == []
  {
    CsaRecord.CsaPosition(PresetDrops(p), None, [], if p == PresetHirate then Black else White)
  }

  lemma DropsCellsOf(ds: seq<(CsaRecord.CsaSquare, CsaRecord.PieceType)>, cells: seq<(nat, nat)>)
    requires |ds| == |cells|
    requires forall i | 0 <= i < |ds| :: CsaRecord.OnBoard(ds[i].0)
    requires forall i | 0 <= i < |ds| :: cells[i] == (ds[i].0.file - 1, ds[i].0.rank - 1)
    ensures CsaRecord.DropCells(ds) == cells
  {
  }

  /** Every square a PI line names is on the board and holds, at the opening, White's piece of the type named. */
  lemma PresetDropsOnOpening(p: Preset)
    requires PresetWritable(p)
    ensures forall i | 0 <= i < |PresetDrops(p)| :: CsaRecord.OnBoard(PresetDrops(p)[i].0)
    ensures forall i | 0 <= i < |PresetDrops(p)| ::
      var (sq, pt) := PresetDrops(p)[i];
      CsaRecord.KindOf(pt).Ok? &&
      Tables.HirateBoard()[sq.file - 1][sq.rank - 1] == Piece(Some(White), Some(CsaRecord.KindOf(pt).value))
  {
  }

  lemma CellsKY()
    ensures forall i | 0 <= i < |PresetDrops(PresetKY)| :: CsaRecord.OnBoard(PresetDrops(PresetKY)[i].0)
    ensures CsaRecord.DropCells(PresetDrops(PresetKY)) == Tables.HandicapCells(PresetKY).value
  {
    var ds := [Lance11()];
    assert PresetDrops(PresetKY) == ds;
    DropsCellsOf(ds, [(0, 0)]);
  }

  lemma CellsKA()
    ensures forall i | 0 <= i < |PresetDrops(PresetKA)| :: CsaRecord.OnBoard(PresetDrops(PresetKA)[i].0)
    ensures CsaRecord.DropCells(PresetDrops(PresetKA)) == Tables.HandicapCells(PresetKA).value
  {
    var ds := [Bishop22()];
    assert PresetDrops(PresetKA) == ds;
    DropsCellsOf(ds, [(1, 1)]);
  }

  lemma CellsHI()
    ensures forall i | 0 <= i < |PresetDrops(PresetHI)| :: CsaRecord.OnBoard(PresetDrops(PresetHI)[i].0)
    ensures CsaRecord.DropCells(PresetDrops(PresetHI)) == Tables.HandicapCells(PresetHI).value
  {
    var ds := [Rook82()];
    assert PresetDrops(PresetHI) == ds;
    DropsCellsOf(ds, [(7, 1)]);
  }

  lemma CellsHIKY()
    ensures forall i | 0 <= i < |PresetDrops(PresetHIKY)| :: CsaRecord.OnBoard(PresetDrops(PresetHIKY)[i].0)
    ensures CsaRecord.DropCells(PresetDrops(PresetHIKY)) == Tables.HandicapCells(PresetHIKY).value
  {
    var ds := [Rook82(), Lance11()];
    assert PresetDrops(PresetHIKY) == ds;
    DropsCellsOf(ds, [(7, 1), (0, 0)]);
  }

  lemma Cells2()
    ensures forall i | 0 <= i < |PresetDrops(Preset2)| :: CsaRecord.OnBoard(PresetDrops(Preset2)[i].0)
    ensures CsaRecord.DropCells(PresetDrops(Preset2)) == Tables.HandicapCells(Preset2).value
  {
    var ds := [Rook82(), Bishop22()];
    assert PresetDrops(Preset2) == ds;
    DropsCellsOf(ds, [(7, 1), (1, 1)]);
  }

  lemma Cells4()
    ensures forall i | 0 <= i < |PresetDrops(Preset4)| :: CsaRecord.OnBoard(PresetDrops(Preset4)[i].0)
    ensures CsaRecord.DropCells(PresetDrops(Preset4)) == Tables.HandicapCells(Preset4).value
  {
    var ds := [Rook82(), Bishop22(), Lance91(), Lance11()];
    assert PresetDrops(Preset4) == ds;
    DropsCellsOf(ds, [(7, 1), (1, 1), (8, 0), (0, 0)]);
  }

  lemma Cells6()
    ensures forall i | 0 <= i < |PresetDrops(Preset6)| :: CsaRecord.OnBoard(PresetDrops(Preset6)[i].0)
    ensures CsaRecord.DropCells(PresetDrops(Preset6)) == Tables.HandicapCells(Preset6).value
  {
    var ds := [Rook82(), Bishop22(), Lance91(), Lance11(), Knight81(), Knight21()];
    assert PresetDrops(Preset6) == ds;
    DropsCellsOf(ds, [(7, 1), (1, 1), (8, 0), (0, 0), (7, 0), (1, 0)]);
  }

  lemma Cells8(p: Preset)
    requires p == Preset8
    ensures forall i | 0 <= i < |PresetDrops(p)| :: CsaRecord.OnBoard(PresetDrops(p)[i].0)
    ensures CsaRecord.DropCells(PresetDrops(p)) == Tables.HandicapCells(p).value
  {
    var ds := [Rook82(), Bishop22(), Lance91(), Lance11(), Knight81(), Knight21(), Silver71(), Silver31()];
    var cells := [(7, 1), (1, 1), (8, 0), (0, 0), (7, 0), (1, 0), (6, 0), (2, 0)];
    assert PresetDrops(p) == ds;
    PresetCells(p, ds, cells);
  }

  /** A preset whose PI squares are ds and whose emptied cells are their board cells. */
  lemma PresetCells(p: Preset, ds: seq<(CsaRecord.CsaSquare, CsaRecord.PieceType)>, cells: seq<(nat, nat)>)
    requires PresetWritable(p) && PresetDrops(p) == ds && Tables.HandicapCells(p) == Some(cells)
    requires |ds| == |cells|
    requires forall i | 0 <= i < |ds| :: CsaRecord.OnBoard(ds[i].0)
    requires forall i | 0 <= i < |ds| :: cells[i] == (ds[i].0.file - 1, ds[i].0.rank - 1)
    ensures forall i | 0 <= i < |PresetDrops(p)| :: CsaRecord.OnBoard(PresetDrops(p)[i].0)
    ensures CsaRecord.DropCells(PresetDrops(p)) == Tables.HandicapCells(p).value
  {
    DropsCellsOf(ds, cells);
  }

  lemma Cells10()
    ensures forall i | 0 <= i < |PresetDrops(Preset10)| :: CsaRecord.OnBoard(PresetDrops(Preset10)[i].0)
    ensures CsaRecord.DropCells(PresetDrops(Preset10)) == Tables.HandicapCells(Preset10).value
  {
    var ds := [Rook82(), Bishop22(), Lance91(), Lance11(), Knight81(), Knight21(), Silver71(), Silver31(), Gold61(), Gold41()];
    assert PresetDrops(Preset10) == ds;
    DropsCellsOf(ds, [(7, 1), (1, 1), (8, 0), (0, 0), (7, 0), (1, 0), (6, 0), (2, 0), (5, 0), (3, 0)]);
  }

  /** The squares a handicap's PI line names are the cells the handicap table empties. */
  lemma PresetDropsCells(p: Preset)
    requires PresetWritable(p) && Tables.HandicapCells(p).Some?
    ensures forall i | 0 <= i < |PresetDrops(p)| :: CsaRecord.OnBoard(PresetDrops(p)[i].0)
    ensures CsaRecord.DropCells(PresetDrops(p)) == Tables.HandicapCells(p).value
  {
    match p
    case PresetKY => CellsKY();
    case PresetKA => CellsKA();
    case PresetHI => CellsHI();
    case PresetHIKY => CellsHIKY();
    case Preset2 => Cells2();
    case Preset4 => Cells4();
    case Preset6 => Cells6();
    case Preset8 => Cells8(p);
    case Preset10 => Cells10();
  }

  lemma PresetTextIsDrops(p: Preset)
    requires PresetWritable(p)
    ensures PresetText(p) == "PI" + DropsText(PresetDrops(p)) + "\n" + ColorSign(PresetPosition(p).side)
  {
    PresetLineIsDrops(p);
  }

  lemma KyrPositionReads(pos: CsaRecord.CsaPosition)
    requires pos == PresetPosition(PresetKYR)
    ensures CsaRecord.PositionConvertible(pos)
    ensures CsaRecord.InitialOf(pos).data == Some(Tables.HandicapState([(8, 0)]))
  {
    PresetDropsOnOpening(PresetKYR);
    DropsCellsOf(pos.drops, [(8, 0)]);
    CsaRecord.ClearedPositionReads(pos, [(8, 0)]);
  }

  lemma HandicapPresetReads(p: Preset, pos: CsaRecord.CsaPosition)
    requires PresetWritable(p) && p != PresetHirate && p != PresetKYR && pos == PresetPosition(p)
    ensures CsaRecord.PositionConvertible(pos)
    ensures Normalizer.NormalizedInitial(Some(CsaRecord.InitialOf(pos))) == Some(Initial(p, None))
  {
    PresetDropsCells(p);
    CsaRecord.HandicapPositionReads(pos, p);
  }

  /**
   * A preset written as a PI line and a side to move reads back, through the
   * CSA conversion and the normalizer, as the same preset; only Kyo-ochi on
   * the right, which no table recognises, comes back as its board.
   */
  lemma PresetReadsBack(p: Preset)
    requires PresetWritable(p)
    ensures PresetText(p) == "PI" + DropsText(PresetDrops(p)) + "\n" + ColorSign(PresetPosition(p).side)
    ensures CsaRecord.PositionConvertible(PresetPosition(p))
    ensures p != PresetKYR ==>
      Normalizer.NormalizedInitial(Some(CsaRecord.InitialOf(PresetPosition(p)))) == Some(Initial(p, None))
    ensures p == PresetKYR ==>
      CsaRecord.InitialOf(PresetPosition(p)).data == Some(Tables.HandicapState([(8, 0)]))
  {
    PresetTextIsDrops(p);
    var pos := PresetPosition(p);
    if p == PresetHirate {
      CsaRecord.HiratePositionReads(pos);
    } else if p == PresetKYR {
      KyrPositionReads(pos);
    } else {
      HandicapPresetReads(p, pos);
    }
  }
}
