// The KIF writer: the header lines and the initial part as the Kakinoki
// writer gives them, then the move section. Each move line is the move
// number in four columns, the move (or the special that ended the game),
// and, when the entry has a time, blanks up to a fixed column followed by
// the time in parentheses. The writer counts the columns the move text
// takes in `offset` (two for a full-width character, one for an ASCII
// one) and pads with 13 - offset blanks. Comments follow their entry, one
// per line. Variations are not written.

module KifWriter {
  import opened Jkf
  import opened Text
  import opened Kakinoki
  import opened KakinokiWriter
  import opened KifReader

  // ------------------------------------------------------------- columns

  /** The columns a character takes: one for ASCII, two for any other (full-width) character. */
  function CharWidth(c: char): (w: nat)
    ensures 1 <= w <= 2
  {
    if c < '\U{0080}' then 1 else 2
  }

  /** The columns a text takes. */
  function Width(s: string): nat
  {
    if s == [] then 0 else CharWidth(s[0]) + Width(s[1..])
  }

  lemma {:induction false} WidthAppend(a: string, b: string)
    ensures Width(a + b) == Width(a) + Width(b)
    decreases |a|
  {
    if a != [] {
      assert (a + b)[0] == a[0];
      assert (a + b)[1..] == a[1..] + b;
      WidthAppend(a[1..], b);
    } else {
      assert a + b == b;
    }
  }

  /** Characters outside ASCII. */
  predicate Wide(s: string)
  {
    forall i | 0 <= i < |s| :: s[i] >= '\U{0080}'
  }

  predicate Narrow(s: string)
  {
    forall i | 0 <= i < |s| :: s[i] < '\U{0080}'
  }

  lemma {:induction false} WideWidth(s: string)
    requires Wide(s)
    ensures Width(s) == 2 * |s|
    decreases |s|
  {
    if s != [] {
      WideWidth(s[1..]);
    }
  }

  lemma {:induction false} NarrowWidth(s: string)
    requires Narrow(s)
    ensures Width(s) == |s|
    decreases |s|
  {
    if s != [] {
      NarrowWidth(s[1..]);
    }
  }

  /** `n` blanks. */
  function Blanks(n: nat): (s: string)
    ensures |s| == n && Narrow(s)
    ensures forall i | 0 <= i < n :: s[i] == ' '
  {
    seq(n, _ => ' ')
  }

  // --------------------------------------------------------------- moves

  /** The destination can be written: 同 needs nothing, else the file must be 1..9 and the rank 1..20. */
  predicate MoveWritable(mv: MoveMoveFormat)
  {
    mv.same.Some? || (1 <= mv.to.x <= 9 && 1 <= mv.to.y <= 20)
  }

  /** `同　` when `same` is set, else the file digit and the rank numeral. */
  function DestinationText(mv: MoveMoveFormat): (s: string)
    requires MoveWritable(mv)
    ensures mv.same.Some? ==> s == "同　"
    ensures mv.same.None? && mv.to.y <= 9 ==> s == [FileGlyph(mv.to.x), KanjiGlyph(mv.to.y)]
  {
    if mv.same.Some? then "同　" else SanyouSujiText(mv.to.x) + KansujiText(mv.to.y)
  }

  /** `(xy)` with both coordinates in decimal for a board move, 打 for a drop. */
  function OriginText(from: Option<PlaceFormat>): (s: string)
    ensures from.None? ==> s == "打"
    ensures from.Some? ==> s == "(" + Decimal(from.value.x) + Decimal(from.value.y) + ")"
  {
    if from.Some? then "(" + Decimal(from.value.x) + Decimal(from.value.y) + ")" else "打"
  }

  /** Whether the move is written with 成: `promote` set and true. */
  function PromoteMark(mv: MoveMoveFormat): (s: string)
    ensures UnwrapOr(mv.promote, false) <==> s == "成"
    ensures !UnwrapOr(mv.promote, false) <==> s == ""
  {
    if UnwrapOr(mv.promote, false) then "成" else ""
  }

  /** The text of a move: destination, piece name, the promotion mark and the origin. */
  function MoveText(mv: MoveMoveFormat): string
    requires MoveWritable(mv)
  {
    DestinationText(mv) + MoveKindName(mv.piece) + PromoteMark(mv) + OriginText(mv.from)
  }

  /**
   * The columns the writer counts for a move: four for the destination,
   * two per glyph of the piece name, two for 成, four for `(xy)` and two
   * for 打.
   */
  function MoveOffset(mv: MoveMoveFormat): (n: nat)
    ensures n >= 8
  {
    4 + (if mv.piece in {NY, NK, NG} then 4 else 2) + (if UnwrapOr(mv.promote, false) then 2 else 0) +
    (if mv.from.Some? then 4 else 2)
  }

  predicate OnBoard(p: PlaceFormat)
  {
    1 <= p.x <= 9 && 1 <= p.y <= 9
  }

  /** Both squares of the move are on the board (a `同` move has its destination elsewhere). */
  predicate SquaresOnBoard(mv: MoveMoveFormat)
  {
    (mv.same.None? ==> OnBoard(mv.to)) && (mv.from.Some? ==> OnBoard(mv.from.value))
  }

  lemma DestinationWidth(mv: MoveMoveFormat)
    requires MoveWritable(mv) && SquaresOnBoard(mv)
    ensures Width(DestinationText(mv)) == 4
  {
    var s := DestinationText(mv);
    assert Wide(s);
    WideWidth(s);
  }

  lemma OriginWidth(from: Option<PlaceFormat>)
    requires from.Some? ==> OnBoard(from.value)
    ensures Width(OriginText(from)) == if from.Some? then 4 else 2
  {
    var s := OriginText(from);
    if from.Some? {
      assert s == ['(', DigitChar(from.value.x), DigitChar(from.value.y), ')'];
      assert Narrow(s);
      NarrowWidth(s);
    } else {
      assert Wide(s);
      WideWidth(s);
    }
  }

  lemma KindNameWidth(k: Kind)
    ensures Width(MoveKindName(k)) == if k in {NY, NK, NG} then 4 else 2
  {
    var s := MoveKindName(k);
    assert Wide(s);
    WideWidth(s);
  }

  /** The columns the writer counts are the columns the move text takes. */
  lemma MoveOffsetIsWidth(mv: MoveMoveFormat)
    requires MoveWritable(mv) && SquaresOnBoard(mv)
    ensures MoveOffset(mv) == Width(MoveText(mv))
  {
    var a, b, c, e := DestinationText(mv), MoveKindName(mv.piece), PromoteMark(mv), OriginText(mv.from);
    WidthAppend(a, b);
    WidthAppend(a + b, c);
    WidthAppend(a + b + c, e);
    DestinationWidth(mv);
    KindNameWidth(mv.piece);
    OriginWidth(mv.from);
    assert Wide(c);
    WideWidth(c);
  }

  /** `promote` is set to true only on kinds that have a promoted form, as the normalizer leaves it. */
  predicate PromotionNormal(mv: MoveMoveFormat)
  {
    UnwrapOr(mv.promote, false) ==> Promotable(mv.piece)
  }

  /** A normal move stays within twelve columns, so the padding 13 - offset never underflows. */
  lemma NormalOffsetFits(mv: MoveMoveFormat)
    requires PromotionNormal(mv)
    ensures MoveOffset(mv) <= 12
  {
  }

  /** A promoted minor piece marked 成 again takes fourteen columns: the padding would underflow. */
  lemma DoublyPromotedOffset(mv: MoveMoveFormat)
    requires mv.piece in {NY, NK, NG} && mv.promote == Some(true) && mv.from.Some?
    ensures MoveOffset(mv) == 14 && !PromotionNormal(mv)
  {
  }

  // ------------------------------------------------------------ specials

  /** The special a move line names: the seven the writer knows, 中断 for the others. */
  function WrittenSpecial(sp: MoveSpecial): (w: MoveSpecial)
    ensures KnownSpecial(w)
    ensures w == sp <==> sp in {SpecialToryo, SpecialChudan, SpecialSennichite, SpecialTimeUp,
                                SpecialIllegalMove, SpecialJishogi, SpecialKachi, SpecialTsumi}
  {
    match sp
    case SpecialToryo => sp case SpecialSennichite => sp case SpecialTimeUp => sp
    case SpecialIllegalMove => sp case SpecialJishogi => sp case SpecialKachi => sp
    case SpecialTsumi => sp
    case _ => SpecialChudan
  }

  function SpecialText(sp: MoveSpecial): string
  {
    SpecialName(WrittenSpecial(sp))
  }

  /** The columns the source counts for a special: nothing at all for 中断. */
  function SpecialOffsetAsWritten(sp: MoveSpecial): (n: nat)
    ensures n <= 8
  {
    match sp
    case SpecialToryo => 4 case SpecialSennichite => 6 case SpecialTimeUp => 8
    case SpecialIllegalMove => 8 case SpecialJishogi => 6 case SpecialKachi => 8
    case SpecialTsumi => 4
    case _ => 0
  }

  /** The columns counted for a special, with 中断 counted as the four it takes. */
  function SpecialOffset(sp: MoveSpecial): (n: nat)
    ensures 4 <= n <= 8
    ensures WrittenSpecial(sp) != SpecialChudan ==> n == SpecialOffsetAsWritten(sp)
  {
    match sp
    case SpecialToryo => 4 case SpecialSennichite => 6 case SpecialTimeUp => 8
    case SpecialIllegalMove => 8 case SpecialJishogi => 6 case SpecialKachi => 8
    case SpecialTsumi => 4
    case _ => 4
  }

  lemma SpecialOffsetIsWidth(sp: MoveSpecial)
    ensures SpecialOffset(sp) == Width(SpecialText(sp))
  {
    var s := SpecialText(sp);
    assert Wide(s);
    WideWidth(s);
  }

  /** Every special written as 中断, 中断 itself included, is counted as zero columns by the source. */
  lemma ChudanOffsetAsWritten(sp: MoveSpecial)
    requires WrittenSpecial(sp) == SpecialChudan
    ensures SpecialOffsetAsWritten(sp) == 0
    ensures Width(SpecialText(sp)) == 4
  {
    SpecialOffsetIsWidth(sp);
  }

  // --------------------------------------------------------------- times

  /** `{:02}`: a byte in decimal, zero-padded to two digits. */
  function TwoDigitText(n: nat): string
  {
    PadLeft(Decimal(n), 2, '0')
  }

  /** This move's time, `{:2}:{:02}` of its minutes and seconds; its hours are not written. */
  function NowText(now: TimeFormat): string
  {
    PadLeft(Decimal(now.m), 2, ' ') + ":" + TwoDigitText(now.s)
  }

  /** The total, `{:02}:{:02}:{:02}`, a missing hour written as 00. */
  function TotalText(total: TimeFormat): string
  {
    TwoDigitText(UnwrapOr<U8>(total.h, 0)) + ":" + TwoDigitText(total.m) + ":" + TwoDigitText(total.s)
  }

  /** `(now/total)`. */
  function TimeText(t: Time): string
  {
    "(" + NowText(t.now) + "/" + TotalText(t.total) + ")"
  }

  // ------------------------------------------------------------- entries

  /** The columns counted for an entry's move or special. */
  function Offset(mf: MoveFormat): nat
  {
    if mf.move.Some? then MoveOffset(mf.move.value)
    else if mf.special.Some? then SpecialOffset(mf.special.value)
    else 0
  }

  /**
   * An entry the writer can write: a move with a writable destination or a
   * special (the source stops on an entry with neither), and room for the
   * padding when it has a time.
   */
  predicate EntryWritable(mf: MoveFormat)
  {
    (mf.move.Some? ==> MoveWritable(mf.move.value)) &&
    (mf.move.Some? || mf.special.Some?) &&
    (mf.time.Some? ==> Offset(mf) <= 13)
  }

  /** The move or special of an entry. */
  function BodyText(mf: MoveFormat): string
    requires EntryWritable(mf)
  {
    if mf.move.Some? then MoveText(mf.move.value) else SpecialText(mf.special.value)
  }

  /** The blanks and the time after the body, when the entry has a time. */
  function TimeSuffix(mf: MoveFormat): string
    requires EntryWritable(mf)
  {
    if mf.time.Some? then Blanks(13 - Offset(mf)) + TimeText(mf.time.value) else ""
  }

  /** The number in four columns, a blank, the body, the time suffix and a line break. */
  function MoveLineText(i: nat, mf: MoveFormat): string
    requires EntryWritable(mf)
  {
    PadLeft(Decimal(i), 4, ' ') + " " + BodyText(mf) + TimeSuffix(mf) + "\n"
  }

  /** A comment line: `&` comments verbatim, all others after `*`. */
  function CommentText(c: string): (s: string)
    ensures |c| > 0 && c[0] == '&' ==> s == c + "\n"
    ensures !(|c| > 0 && c[0] == '&') ==> s == "*" + c + "\n"
  {
    (if |c| > 0 && c[0] == '&' then c else "*" + c) + "\n"
  }

  function CommentsText(cs: seq<string>): string
  {
    if cs == [] then "" else CommentsText(cs[..|cs| - 1]) + CommentText(cs[|cs| - 1])
  }

  /** Entry i: its move line (none for the placeholder entry 0), then its comments. */
  function EntryText(i: nat, mf: MoveFormat): string
    requires i > 0 ==> EntryWritable(mf)
  {
    (if i > 0 then MoveLineText(i, mf) else "") + CommentLinesOf(mf)
  }

  predicate MovesWritable(moves: seq<MoveFormat>)
  {
    forall i | 0 < i < |moves| :: EntryWritable(moves[i])
  }

  /** The text of every entry, entry i at index i. */
  function EntryTexts(moves: seq<MoveFormat>): (r: seq<string>)
    requires MovesWritable(moves)
    ensures |r| == |moves| && forall i | 0 <= i < |moves| :: r[i] == EntryText(i, moves[i])
  {
    seq(|moves|, i requires 0 <= i < |moves| => EntryText(i, moves[i]))
  }

  /** Entries lo..hi-1 written, each with its own number. */
  function EntriesText(moves: seq<MoveFormat>, lo: nat, hi: nat): string
    requires lo <= hi <= |moves| && MovesWritable(moves)
  {
    JoinRange(EntryTexts(moves), lo, hi)
  }

  /** The entries lo..hi-1, split off at the front. */
  lemma EntriesCons(moves: seq<MoveFormat>, lo: nat, hi: nat)
    requires lo < hi <= |moves| && MovesWritable(moves)
    ensures EntriesText(moves, lo, hi) == EntryText(lo, moves[lo]) + EntriesText(moves, lo + 1, hi)
  {
    JoinRangeCons(EntryTexts(moves), lo, hi);
  }

  function ColumnHeader(): string
  {
    "手数----指手---------消費時間--\n"
  }

  /** The line that stands in for a game without moves. */
  function NoMovesLine(): string
  {
    "   1 中断\n"
  }

  /** The move section: the column header, the stand-in line when only the placeholder is there, then the entries. */
  function MovesText(moves: seq<MoveFormat>): string
    requires MovesWritable(moves)
  {
    ColumnHeader() + (if |moves| == 1 then NoMovesLine() else "") + EntriesText(moves, 0, |moves|)
  }

  // ------------------------------------------------------------- methods

  method WriteMoveKind(sink: Sink, k: Kind, offset0: nat) returns (offset: nat)
    modifies sink
    ensures sink.text == old(sink.text) + MoveKindName(k)
    ensures offset == offset0 + (if k in {NY, NK, NG} then 4 else 2)
  {
    offset := offset0;
    match k {
      case NY =>
        sink.Write("成香");
        offset := offset + 2;
      case NK =>
        sink.Write("成桂");
        offset := offset + 2;
      case NG =>
        sink.Write("成銀");
        offset := offset + 2;
      case _ =>
        sink.Write([KindGlyph(k)]);
    }
    offset := offset + 2;
  }

  method WriteDestination(sink: Sink, mv: MoveMoveFormat)
    requires MoveWritable(mv)
    modifies sink
    ensures sink.text == old(sink.text) + DestinationText(mv)
  {
    if mv.same.Some? {
      sink.Write("同　");
    } else {
      WriteSanyouSuji(sink, mv.to.x);
      WriteKansuji(sink, mv.to.y);
      Appended2(old(sink.text), SanyouSujiText(mv.to.x), KansujiText(mv.to.y));
    }
  }

  method WritePromotion(sink: Sink, mv: MoveMoveFormat, offset0: nat) returns (offset: nat)
    modifies sink
    ensures sink.text == old(sink.text) + PromoteMark(mv)
    ensures offset == offset0 + (if UnwrapOr(mv.promote, false) then 2 else 0)
  {
    offset := offset0;
    if UnwrapOr(mv.promote, false) {
      sink.Write("成");
      offset := offset + 2;
    } else {
      assert sink.text == old(sink.text) + "";
    }
  }

  method WriteOrigin(sink: Sink, from: Option<PlaceFormat>, offset0: nat) returns (offset: nat)
    modifies sink
    ensures sink.text == old(sink.text) + OriginText(from)
    ensures offset == offset0 + (if from.Some? then 4 else 2)
  {
    if from.Some? {
      sink.Write("(" + Decimal(from.value.x) + Decimal(from.value.y) + ")");
      offset := offset0 + 4;
    } else {
      sink.Write("打");
      offset := offset0 + 2;
    }
  }

  /** Writes the move text and returns the columns it counted. */
  method WriteMove(sink: Sink, mv: MoveMoveFormat) returns (offset: nat)
    requires MoveWritable(mv)
    modifies sink
    ensures sink.text == old(sink.text) + MoveText(mv)
    ensures offset == MoveOffset(mv)
  {
    WriteDestination(sink, mv);
    offset := WriteMoveKind(sink, mv.piece, 4);
    offset := WritePromotion(sink, mv, offset);
    offset := WriteOrigin(sink, mv.from, offset);
    Appended4(old(sink.text), DestinationText(mv), MoveKindName(mv.piece), PromoteMark(mv), OriginText(mv.from));
  }

  /** Writes a special and returns the columns it counted (four for 中断). */
  method WriteSpecial(sink: Sink, sp: MoveSpecial) returns (offset: nat)
    modifies sink
    ensures sink.text == old(sink.text) + SpecialText(sp)
    ensures offset == SpecialOffset(sp)
  {
    match sp
    case SpecialToryo =>
      sink.Write("投了");
      offset := 4;
    case SpecialSennichite =>
      sink.Write("千日手");
      offset := 6;
    case SpecialTimeUp =>
      sink.Write("切れ負け");
      offset := 8;
    case SpecialIllegalMove =>
      sink.Write("反則負け");
      offset := 8;
    case SpecialJishogi =>
      sink.Write("持将棋");
      offset := 6;
    case SpecialKachi =>
      sink.Write("入玉勝ち");
      offset := 8;
    case SpecialTsumi =>
      sink.Write("詰み");
      offset := 4;
    case _ =>
      sink.Write("中断");
      offset := 4;
  }

  method WriteBlanks(sink: Sink, n: nat)
    modifies sink
    ensures sink.text == old(sink.text) + Blanks(n)
  {
    for k := 0 to n
      invariant sink.text == old(sink.text) + Blanks(k)
    {
      sink.Write(" ");
    }
  }

  method WriteComments(sink: Sink, cs: seq<string>)
    modifies sink
    ensures sink.text == old(sink.text) + CommentsText(cs)
  {
    for k := 0 to |cs|
      invariant sink.text == old(sink.text) + CommentsText(cs[..k])
    {
      assert cs[..k + 1][..k] == cs[..k];
      if !(|cs[k]| > 0 && cs[k][0] == '&') {
        sink.Write("*");
      }
      sink.Write(cs[k]);
      sink.Write("\n");
    }
    assert cs[..|cs|] == cs;
  }

  /** The move or the special, returning the columns counted. */
  method WriteBody(sink: Sink, mf: MoveFormat) returns (offset: nat)
    requires EntryWritable(mf)
    modifies sink
    ensures sink.text == old(sink.text) + BodyText(mf)
    ensures offset == Offset(mf)
  {
    if mf.move.Some? {
      offset := WriteMove(sink, mf.move.value);
    } else if mf.special.Some? {
      offset := WriteSpecial(sink, mf.special.value);
    }
  }

  method WriteTimeSuffix(sink: Sink, mf: MoveFormat, offset: nat)
    requires EntryWritable(mf) && offset == Offset(mf)
    modifies sink
    ensures sink.text == old(sink.text) + TimeSuffix(mf)
  {
    if mf.time.Some? {
      WriteBlanks(sink, 13 - offset);
      sink.Write(TimeText(mf.time.value));
      Appended2(old(sink.text), Blanks(13 - offset), TimeText(mf.time.value));
    } else {
      assert sink.text == old(sink.text) + "";
    }
  }

  method WriteMoveLine(sink: Sink, i: nat, mf: MoveFormat)
    requires EntryWritable(mf)
    modifies sink
    ensures sink.text == old(sink.text) + MoveLineText(i, mf)
  {
    sink.Write(PadLeft(Decimal(i), 4, ' ') + " ");
    var offset := WriteBody(sink, mf);
    WriteTimeSuffix(sink, mf, offset);
    sink.Write("\n");
    Appended4(old(sink.text), PadLeft(Decimal(i), 4, ' ') + " ", BodyText(mf), TimeSuffix(mf), "\n");
  }

  /** The comment lines of an entry, if it has any. */
  function CommentLinesOf(mf: MoveFormat): string
  {
    if mf.comments.Some? then CommentsText(mf.comments.value) else ""
  }

  method WriteEntry(sink: Sink, i: nat, mf: MoveFormat)
    requires i > 0 ==> EntryWritable(mf)
    modifies sink
    ensures sink.text == old(sink.text) + EntryText(i, mf)
  {
    ghost var line := if i > 0 then MoveLineText(i, mf) else "";
    if i > 0 {
      WriteMoveLine(sink, i, mf);
    } else {
      assert sink.text == old(sink.text) + line;
    }
    ghost var middle := sink.text;
    if mf.comments.Some? {
      WriteComments(sink, mf.comments.value);
    } else {
      assert sink.text == middle + CommentLinesOf(mf);
    }
    Appended2(old(sink.text), line, CommentLinesOf(mf));
  }

  lemma EntriesStep(moves: seq<MoveFormat>, i: nat)
    requires i < |moves| && MovesWritable(moves)
    ensures EntriesText(moves, 0, i + 1) == EntriesText(moves, 0, i) + EntryText(i, moves[i])
  {
  }

  method WriteMoves(sink: Sink, moves: seq<MoveFormat>)
    requires MovesWritable(moves)
    modifies sink
    ensures sink.text == old(sink.text) + MovesText(moves)
  {
    sink.Write(ColumnHeader());
    ghost var stand := if |moves| == 1 then NoMovesLine() else "";
    if |moves| == 1 {
      sink.Write(NoMovesLine());
    } else {
      assert sink.text == old(sink.text) + ColumnHeader() + stand;
    }
    ghost var head := sink.text;
    for i := 0 to |moves|
      invariant sink.text == head + EntriesText(moves, 0, i)
    {
      WriteEntry(sink, i, moves[i]);
      EntriesStep(moves, i);
      Appended2(head, EntriesText(moves, 0, i), EntryText(i, moves[i]));
    }
    Appended3(old(sink.text), ColumnHeader(), stand, EntriesText(moves, 0, |moves|));
  }

  // -------------------------------------------------------------- record

  predicate RecordWritable(r: JsonKifuFormat)
  {
    InitialWritable(r.initial, false) && MovesWritable(r.moves)
  }

  /** The header lines in some order of the keys, the initial part (never omitted), then the move section. */
  method ToKif(sink: Sink, r: JsonKifuFormat)
    requires RecordWritable(r)
    modifies sink
    ensures exists order ::
              IsOrdering(order, r.header.Keys) &&
              sink.text == old(sink.text) + HeaderText(order, r.header) + InitialText(r.initial, false) + MovesText(r.moves)
  {
    WriteHeader(sink, r.header);
    WriteInitial(sink, r.initial, false);
    WriteMoves(sink, r.moves);
  }

  // ----------------------------------------------------------- alignment

  /** On a timed line the body and the padding fill exactly thirteen columns, so the times line up. */
  lemma TimeColumnAligned(mf: MoveFormat)
    requires EntryWritable(mf) && mf.time.Some?
    requires mf.move.Some? ==> SquaresOnBoard(mf.move.value)
    ensures Width(BodyText(mf) + Blanks(13 - Offset(mf))) == 13
  {
    WidthAppend(BodyText(mf), Blanks(13 - Offset(mf)));
    NarrowWidth(Blanks(13 - Offset(mf)));
    if mf.move.Some? {
      MoveOffsetIsWidth(mf.move.value);
    } else {
      SpecialOffsetIsWidth(mf.special.value);
    }
  }

  /** With the source's count, a timed 中断 line runs four columns past the others. */
  lemma ChudanMisaligned(sp: MoveSpecial)
    requires WrittenSpecial(sp) == SpecialChudan
    ensures Width(SpecialText(sp) + Blanks(13 - SpecialOffsetAsWritten(sp))) == 17
  {
    ChudanOffsetAsWritten(sp);
    WidthAppend(SpecialText(sp), Blanks(13));
    NarrowWidth(Blanks(13));
  }

  /** The default record's move section. */
  lemma DefaultMovesText()
    ensures MovesText(DefaultRecord().moves) == "手数----指手---------消費時間--\n   1 中断\n"
  {
    assert EntriesText(DefaultRecord().moves, 0, 1) == EntryText(0, DefaultMove());
  }
}
