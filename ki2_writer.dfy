// The KI2 writer: the header and the initial part as in KIF (Hirate
// omitted), then the moves as running text. Each move is a colour mark, 同
// or the destination, the kind, the relative glyph and the promotion word;
// moves are separated by a blank, and an entry with comments ends its line
// and is followed by its comment lines. Specials and times are not written.

module Ki2Writer {
  import opened Jkf
  import opened Text
  import opened Kakinoki
  import opened KakinokiWriter
  import KifWriter
  import Normalizer

  // ---------------------------------------------------------------- moves

  function ColorMark(c: Color): (m: char)
    ensures m == (if c == Black then '▲' else '△')
  {
    match c
    case Black => '▲'
    case White => '△'
  }

  /** The glyphs of a relative token: one or two of 左 直 右 上 寄 引 打. */
  function RelativeText(r: Relative): (s: string)
    ensures 1 <= |s| <= 2
  {
    match r
    case L => "左" case C => "直" case R => "右"
    case U => "上" case M => "寄" case D => "引"
    case LU => "左上" case LM => "左寄" case LD => "左引"
    case RU => "右上" case RM => "右寄" case RD => "右引"
    case H => "打"
  }

  /**
   * The normalizer reads back every written relative token from the end of a
   * rendering, provided a one-glyph token does not follow 左 or 右.
   */
  lemma RelativeTextDisplays(prefix: string, t: Relative)
    requires |RelativeText(t)| == 1 && |prefix| >= 1 ==> prefix[|prefix| - 1] !in "左右"
    ensures Normalizer.RelativeOfDisplay(prefix + RelativeText(t)) == Some(t)
  {
    var s := prefix + RelativeText(t);
    var n := |RelativeText(t)|;
    assert s[|s| - 1] == RelativeText(t)[n - 1];
    if n == 2 {
      assert s[|s| - 2] == RelativeText(t)[0];
    } else if |prefix| >= 1 {
      assert s[|s| - 2] == prefix[|prefix| - 1];
    }
  }

  function RelativeMark(r: Option<Relative>): string
  {
    if r.Some? then RelativeText(r.value) else ""
  }

  /** 成 for a promotion, 不成 for a declined one, nothing when unknown. */
  function PromotionWord(p: Option<bool>): (s: string)
    ensures p == Some(true) ==> s == "成"
    ensures p == Some(false) ==> s == "不成"
    ensures p.None? ==> s == ""
  {
    if p == Some(true) then "成" else if p == Some(false) then "不成" else ""
  }

  /** The glyph tables have nine files and twenty ranks; anything else stops the program. */
  predicate MoveWritable(mv: MoveMoveFormat)
  {
    mv.same.None? ==> 1 <= mv.to.x <= 9 && 1 <= mv.to.y <= 20
  }

  /** 同 whenever `same` is set, whatever its value; otherwise file digit and rank numeral. */
  function DestinationText(mv: MoveMoveFormat): (s: string)
    requires MoveWritable(mv)
    ensures mv.same.Some? ==> s == "同"
    ensures mv.same.None? ==> s == SanyouSujiText(mv.to.x) + KansujiText(mv.to.y)
  {
    if mv.same.Some? then "同" else SanyouSujiText(mv.to.x) + KansujiText(mv.to.y)
  }

  function MoveText(mv: MoveMoveFormat): (s: string)
    requires MoveWritable(mv)
    ensures |s| >= 3 && s[0] == ColorMark(mv.color)
  {
    [ColorMark(mv.color)] + DestinationText(mv) + MoveKindName(mv.piece) + RelativeMark(mv.relative) + PromotionWord(mv.promote)
  }

  // -------------------------------------------------------------- entries

  predicate EntryWritable(mf: MoveFormat)
  {
    mf.move.Some? ==> MoveWritable(mf.move.value)
  }

  predicate MovesWritable(moves: seq<MoveFormat>)
  {
    forall i | 0 < i < |moves| :: EntryWritable(moves[i])
  }

  /** The move of an entry; an entry without one (a special) writes nothing. */
  function BodyText(mf: MoveFormat): string
    requires EntryWritable(mf)
  {
    if mf.move.Some? then MoveText(mf.move.value) else ""
  }

  /**
   * What follows an entry: a line break and its comment lines when it has
   * comments, otherwise a blank when another entry follows it.
   */
  function SeparatorText(mf: MoveFormat, last: bool): string
  {
    if mf.comments.Some? then "\n" + KifWriter.CommentsText(mf.comments.value)
    else if !last then " " else ""
  }

  function EntryText(moves: seq<MoveFormat>, i: nat): string
    requires 0 < i < |moves| && MovesWritable(moves)
  {
    BodyText(moves[i]) + SeparatorText(moves[i], i + 1 == |moves|)
  }

  /** Entries lo..hi-1. */
  function EntriesText(moves: seq<MoveFormat>, lo: nat, hi: nat): string
    requires 0 < lo <= hi <= |moves| && MovesWritable(moves)
    decreases hi
  {
    if lo == hi then "" else EntriesText(moves, lo, hi - 1) + EntryText(moves, hi - 1)
  }

  /** The placeholder's comments, the entries, and a final line break. */
  function MovesText(moves: seq<MoveFormat>): string
    requires |moves| >= 1 && MovesWritable(moves)
  {
    KifWriter.CommentLinesOf(moves[0]) + EntriesText(moves, 1, |moves|) + "\n"
  }

  // -------------------------------------------------------------- methods

  method WriteMoveKind(sink: Sink, k: Kind)
    modifies sink
    ensures sink.text == old(sink.text) + MoveKindName(k)
  {
    match k
    case NY => sink.Write("成香");
    case NK => sink.Write("成桂");
    case NG => sink.Write("成銀");
    case _ => sink.Write([KindGlyph(k)]);
  }

  method WriteDestination(sink: Sink, mv: MoveMoveFormat)
    requires MoveWritable(mv)
    modifies sink
    ensures sink.text == old(sink.text) + DestinationText(mv)
  {
    if mv.same.Some? {
      sink.Write("同");
    } else {
      WriteSanyouSuji(sink, mv.to.x);
      WriteKansuji(sink, mv.to.y);
    }
  }

  method WriteMove(sink: Sink, mv: MoveMoveFormat)
    requires MoveWritable(mv)
    modifies sink
    ensures sink.text == old(sink.text) + MoveText(mv)
  {
    sink.Write([ColorMark(mv.color)]);
    WriteDestination(sink, mv);
    WriteMoveKind(sink, mv.piece);
    if mv.relative.Some? {
      sink.Write(RelativeText(mv.relative.value));
    }
    if mv.promote.Some? {
      if mv.promote.value {
        sink.Write("成");
      } else {
        sink.Write("不成");
      }
    }
    Appended4(old(sink.text), [ColorMark(mv.color)], DestinationText(mv), MoveKindName(mv.piece), RelativeMark(mv.relative));
    assert sink.text == old(sink.text) + ([ColorMark(mv.color)] + DestinationText(mv) + MoveKindName(mv.piece) + RelativeMark(mv.relative)) + PromotionWord(mv.promote);
  }

  method WriteEntry(sink: Sink, moves: seq<MoveFormat>, i: nat)
    requires 0 < i < |moves| && MovesWritable(moves)
    modifies sink
    ensures sink.text == old(sink.text) + EntryText(moves, i)
  {
    var mf := moves[i];
    assert EntryWritable(mf);
    if mf.move.Some? {
      WriteMove(sink, mf.move.value);
    }
    assert sink.text == old(sink.text) + BodyText(mf);
    ghost var middle := sink.text;
    if mf.comments.Some? {
      sink.Write("\n");
      KifWriter.WriteComments(sink, mf.comments.value);
      Appended2(middle, "\n", KifWriter.CommentsText(mf.comments.value));
    } else if i + 1 < |moves| {
      sink.Write(" ");
    }
    assert sink.text == middle + SeparatorText(mf, i + 1 == |moves|);
    Appended2(old(sink.text), BodyText(mf), SeparatorText(mf, i + 1 == |moves|));
  }

  /** The source walks the entries with a look-ahead iterator; the look-ahead is the test `i + 1 < |moves|`. */
  method WriteMoves(sink: Sink, moves: seq<MoveFormat>)
    requires |moves| >= 1 && MovesWritable(moves)
    modifies sink
    ensures sink.text == old(sink.text) + MovesText(moves)
  {
    if moves[0].comments.Some? {
      KifWriter.WriteComments(sink, moves[0].comments.value);
    }
    ghost var head := sink.text;
    assert head == old(sink.text) + KifWriter.CommentLinesOf(moves[0]);
    var i := 1;
    while i < |moves|
      invariant 1 <= i <= |moves|
      invariant sink.text == head + EntriesText(moves, 1, i)
    {
      WriteEntry(sink, moves, i);
      Appended2(head, EntriesText(moves, 1, i), EntryText(moves, i));
      i := i + 1;
    }
    sink.Write("\n");
    Appended3(old(sink.text), KifWriter.CommentLinesOf(moves[0]), EntriesText(moves, 1, |moves|), "\n");
  }

  // --------------------------------------------------------------- record

  predicate RecordWritable(r: JsonKifuFormat)
  {
    InitialWritable(r.initial, true) && |r.moves| >= 1 && MovesWritable(r.moves)
  }

  /** The header lines in some order of the keys, the initial part with Hirate omitted, then the moves. */
  method ToKi2(sink: Sink, r: JsonKifuFormat)
    requires RecordWritable(r)
    modifies sink
    ensures exists order ::
              IsOrdering(order, r.header.Keys) &&
              sink.text == old(sink.text) + HeaderText(order, r.header) + InitialText(r.initial, true) + MovesText(r.moves)
  {
    WriteHeader(sink, r.header);
    WriteInitial(sink, r.initial, true);
    WriteMoves(sink, r.moves);
  }

  // ------------------------------------------------------------- reading

  /**
   * What a KI2 move token carries: the colour, the destination (None for
   * 同), the kind, the relative token and the promotion word. The origin,
   * the capture and the value of `same` are not written.
   */
  datatype Token = Token(color: Color, to: Option<PlaceFormat>, piece: Kind, relative: Option<Relative>, promote: Option<bool>)

  function TokenOf(mv: MoveMoveFormat): (t: Token)
    ensures t.to.None? <==> mv.same.Some?
  {
    Token(mv.color, if mv.same.Some? then None else Some(mv.to), mv.piece, mv.relative, mv.promote)
  }

  function MarkColor(c: char): Option<Color>
  {
    if c == '▲' then Some(Black) else if c == '△' then Some(White) else None
  }

  /** 同, or a file digit and a one-glyph rank numeral. */
  function ReadDestination(s: string): (r: Option<Parsed<Option<PlaceFormat>>>)
    ensures Consumed(r, s)
  {
    if s != [] && s[0] == '同' then Some(Parsed(None, s[1..]))
    else if |s| >= 2 && FileDigitOf(s[0]).Some? && KanjiDigitOf(s[1]).Some? then
      Some(Parsed(Some(PlaceFormat(FileDigitOf(s[0]).value, KanjiDigitOf(s[1]).value)), s[2..]))
    else None
  }

  function SideOf(c: char): Option<Relative>
  {
    match c
    case '左' => Some(L) case '直' => Some(C) case '右' => Some(R)
    case '上' => Some(U) case '寄' => Some(M) case '引' => Some(D)
    case '打' => Some(H) case _ => None
  }

  function CompoundOf(side: char, motion: char): Option<Relative>
  {
    if side == '左' then (if motion == '上' then Some(LU) else if motion == '寄' then Some(LM) else if motion == '引' then Some(LD) else None)
    else if side == '右' then (if motion == '上' then Some(RU) else if motion == '寄' then Some(RM) else if motion == '引' then Some(RD) else None)
    else None
  }

  /** A relative token, the two-glyph ones tried first; none is read when no glyph matches. */
  function ReadRelative(s: string): (r: Parsed<Option<Relative>>)
    ensures |r.rest| <= |s|
  {
    if |s| >= 2 && CompoundOf(s[0], s[1]).Some? then Parsed(CompoundOf(s[0], s[1]), s[2..])
    else if s != [] && SideOf(s[0]).Some? then Parsed(SideOf(s[0]), s[1..])
    else Parsed(None, s)
  }

  function ReadPromotion(s: string): Option<Option<bool>>
  {
    if s == "" then Some(None) else if s == "成" then Some(Some(true)) else if s == "不成" then Some(Some(false)) else None
  }

  /** Reads one whole move token. */
  function ReadToken(s: string): Option<Token>
  {
    if s == [] || MarkColor(s[0]).None? then None
    else
      var dest := ReadDestination(s[1..]);
      if dest.None? then None
      else
        var kind := PieceKind(Current, dest.value.rest);
        if kind.None? then None
        else
          var rel := ReadRelative(kind.value.rest);
          var p := ReadPromotion(rel.rest);
          if p.None? then None
          else Some(Token(MarkColor(s[0]).value, dest.value.value, kind.value.value, rel.value, p.value))
  }

  lemma DestinationReads(mv: MoveMoveFormat, rest: string)
    requires MoveWritable(mv) && (mv.same.None? ==> mv.to.y <= 9)
    ensures ReadDestination(DestinationText(mv) + rest) == Some(Parsed(TokenOf(mv).to, rest))
  {
    if mv.same.Some? {
      assert ("同" + rest)[1..] == rest;
    } else {
      var s := DestinationText(mv) + rest;
      assert s[0] == FileGlyph(mv.to.x) && s[1] == KanjiGlyph(mv.to.y);
      assert s[2..] == rest;
    }
  }

  lemma RelativeReads(r: Option<Relative>, p: Option<bool>)
    ensures ReadRelative(RelativeMark(r) + PromotionWord(p)) == Parsed(r, PromotionWord(p))
  {
    var w := PromotionWord(p);
    var s := RelativeMark(r) + w;
    if r.Some? && |RelativeText(r.value)| == 2 {
      assert s[2..] == w;
    } else if r.Some? {
      assert s[1..] == w;
      assert w != [] ==> w[0] == '成' || w[0] == '不';
    } else {
      assert s == w;
    }
  }

  lemma PromotionReads(p: Option<bool>)
    ensures ReadPromotion(PromotionWord(p)) == Some(p)
  {
    if p.Some? && p.value {
      assert PromotionWord(p) == "成" && "成" != "";
    } else if p.Some? {
      assert PromotionWord(p) == "不成";
      assert "不成" != "" && "不成" != "成" by { assert |"不成"| == 2; }
    }
  }

  lemma TokenParts(s: string, mark: char, dest: string, kind: string, rel: string, word: string)
    requires s == [mark] + dest + kind + rel + word
    ensures s[1..] == dest + (kind + (rel + word))
  {
    assert s == [mark] + (dest + (kind + (rel + word)));
  }

  /**
   * A token written for a move on the board reads back as the fields the
   * token carries. Ranks above nine are writable but are not numerals the
   * reading accepts.
   */
  lemma MoveTextReads(mv: MoveMoveFormat)
    requires MoveWritable(mv) && (mv.same.None? ==> mv.to.y <= 9)
    ensures ReadToken(MoveText(mv)) == Some(TokenOf(mv))
  {
    var s := MoveText(mv);
    var word := PromotionWord(mv.promote);
    var rel := RelativeMark(mv.relative);
    var kind := MoveKindName(mv.piece);
    TokenParts(s, ColorMark(mv.color), DestinationText(mv), kind, rel, word);
    DestinationReads(mv, kind + (rel + word));
    PieceKindOfNames(Current, mv.piece, rel + word);
    RelativeReads(mv.relative, mv.promote);
    PromotionReads(mv.promote);
  }

  /** Two moves on the board that write the same token agree on every field the token carries. */
  lemma MoveTextInjective(a: MoveMoveFormat, b: MoveMoveFormat)
    requires MoveWritable(a) && (a.same.None? ==> a.to.y <= 9)
    requires MoveWritable(b) && (b.same.None? ==> b.to.y <= 9)
    requires MoveText(a) == MoveText(b)
    ensures TokenOf(a) == TokenOf(b)
  {
    MoveTextReads(a);
    MoveTextReads(b);
  }

  /** The thirteen relative tokens are written as thirteen different glyph strings. */
  lemma RelativeTextInjective(a: Relative, b: Relative)
    requires RelativeText(a) == RelativeText(b)
    ensures a == b
  {
    RelativeReads(Some(a), None);
    RelativeReads(Some(b), None);
  }

  // ------------------------------------------------------------- layout

  /** Pieces of text separated by single blanks. */
  function Joined(parts: seq<string>): string
  {
    if |parts| == 0 then "" else if |parts| == 1 then parts[0]
    else Joined(parts[..|parts| - 1]) + " " + parts[|parts| - 1]
  }

  /** The bodies of entries lo..hi-1, one string each. */
  function Bodies(moves: seq<MoveFormat>, lo: nat, hi: nat): (parts: seq<string>)
    requires 0 < lo <= hi <= |moves| && MovesWritable(moves)
    ensures |parts| == hi - lo
    decreases hi
  {
    if lo == hi then [] else Bodies(moves, lo, hi - 1) + [BodyText(moves[hi - 1])]
  }

  predicate Uncommented(moves: seq<MoveFormat>)
  {
    forall i | 0 < i < |moves| :: moves[i].comments.None?
  }

  lemma {:induction false} UncommentedPrefix(moves: seq<MoveFormat>, k: nat)
    requires 1 < k < |moves| && MovesWritable(moves) && Uncommented(moves)
    ensures EntriesText(moves, 1, k) == Joined(Bodies(moves, 1, k)) + " "
    decreases k
  {
    var parts := Bodies(moves, 1, k);
    assert parts[..|parts| - 1] == Bodies(moves, 1, k - 1);
    if k > 2 {
      UncommentedPrefix(moves, k - 1);
    } else {
      assert EntriesText(moves, 1, 1) == "";
    }
  }

  lemma JoinedSnoc(parts: seq<string>)
    requires |parts| >= 2
    ensures Joined(parts) == Joined(parts[..|parts| - 1]) + " " + parts[|parts| - 1]
  {
  }

  lemma LastEntryBare(moves: seq<MoveFormat>)
    requires |moves| >= 2 && MovesWritable(moves) && Uncommented(moves)
    ensures EntryText(moves, |moves| - 1) == BodyText(moves[|moves| - 1])
  {
    assert moves[|moves| - 1].comments.None?;
  }

  lemma EntriesJoinedMore(moves: seq<MoveFormat>)
    requires |moves| > 2 && MovesWritable(moves) && Uncommented(moves)
    ensures EntriesText(moves, 1, |moves|) == Joined(Bodies(moves, 1, |moves|))
  {
    var n := |moves|;
    var parts := Bodies(moves, 1, n);
    assert parts == Bodies(moves, 1, n - 1) + [BodyText(moves[n - 1])];
    assert parts[..|parts| - 1] == Bodies(moves, 1, n - 1);
    JoinedSnoc(parts);
    LastEntryBare(moves);
    UncommentedPrefix(moves, n - 1);
  }

  lemma EntriesJoined(moves: seq<MoveFormat>)
    requires |moves| >= 1 && MovesWritable(moves) && Uncommented(moves)
    ensures EntriesText(moves, 1, |moves|) == Joined(Bodies(moves, 1, |moves|))
  {
    if |moves| == 2 {
      LastEntryBare(moves);
      assert EntriesText(moves, 1, 1) == "";
    } else if |moves| > 2 {
      EntriesJoinedMore(moves);
    }
  }

  /** Without comments the entries are their bodies joined by single blanks, then one line break. */
  lemma UncommentedMovesText(moves: seq<MoveFormat>)
    requires |moves| >= 1 && MovesWritable(moves) && Uncommented(moves)
    ensures MovesText(moves) == KifWriter.CommentLinesOf(moves[0]) + Joined(Bodies(moves, 1, |moves|)) + "\n"
  {
    EntriesJoined(moves);
  }

  /** Entries that agree on their moves and comments are written alike. */
  predicate SameTokens(a: seq<MoveFormat>, b: seq<MoveFormat>)
  {
    |a| == |b| && forall i | 0 <= i < |a| :: a[i].move == b[i].move && a[i].comments == b[i].comments
  }

  lemma {:induction false} SameTokensEntries(a: seq<MoveFormat>, b: seq<MoveFormat>, k: nat)
    requires 1 <= k <= |a| && MovesWritable(a) && MovesWritable(b) && SameTokens(a, b)
    ensures EntriesText(a, 1, k) == EntriesText(b, 1, k)
    decreases k
  {
    if k > 1 {
      SameTokensEntries(a, b, k - 1);
      assert EntryText(a, k - 1) == EntryText(b, k - 1);
    }
  }

  /** Specials, times, forks and the unwritten move fields leave no trace in the output. */
  lemma MovesTextIgnoresRest(a: seq<MoveFormat>, b: seq<MoveFormat>)
    requires |a| >= 1 && MovesWritable(a) && MovesWritable(b) && SameTokens(a, b)
    ensures MovesText(a) == MovesText(b)
  {
    SameTokensEntries(a, b, |a|);
  }

  /** The default record writes a single line break. */
  lemma DefaultRecordText(order: seq<string>)
    requires IsOrdering(order, DefaultRecord().header.Keys)
    ensures HeaderText(order, DefaultRecord().header) + InitialText(DefaultRecord().initial, true) + MovesText(DefaultRecord().moves) == "\n"
  {
    assert order == [];
    assert EntriesText(DefaultRecord().moves, 1, 1) == "";
  }

  function Pawn(c: Color, from: PlaceFormat, to: PlaceFormat): MoveFormat
  {
    MoveFormat(Some(MoveMoveFormat(c, Some(from), to, FU, None, None, None, None)), None, None, None, NoForks)
  }

  lemma PawnBody(c: Color, from: PlaceFormat, to: PlaceFormat)
    requires 1 <= to.x <= 9 && 1 <= to.y <= 9
    ensures EntryWritable(Pawn(c, from, to))
    ensures BodyText(Pawn(c, from, to)) == [ColorMark(c), FileGlyph(to.x), KanjiGlyph(to.y), '歩']
  {
  }

  lemma JoinedThree(a: string, b: string, c: string)
    ensures Joined([a, b, c]) == a + " " + b + " " + c
  {
    assert [a, b, c][..2] == [a, b];
    assert [a, b][..1] == [a];
    assert Joined([a]) == a;
    assert Joined([a, b]) == a + " " + b;
  }

  /** Three pawn moves are written on one line, separated by blanks. */
  lemma ThreePawnMoves()
    ensures MovesText([DefaultMove(), Pawn(Black, PlaceFormat(2, 7), PlaceFormat(2, 6)),
                       Pawn(White, PlaceFormat(8, 3), PlaceFormat(8, 4)), Pawn(Black, PlaceFormat(2, 6), PlaceFormat(2, 5))])
            == "▲２六歩 △８四歩 ▲２五歩\n"
  {
    var moves := [DefaultMove(), Pawn(Black, PlaceFormat(2, 7), PlaceFormat(2, 6)),
                  Pawn(White, PlaceFormat(8, 3), PlaceFormat(8, 4)), Pawn(Black, PlaceFormat(2, 6), PlaceFormat(2, 5))];
    PawnBody(Black, PlaceFormat(2, 7), PlaceFormat(2, 6));
    PawnBody(White, PlaceFormat(8, 3), PlaceFormat(8, 4));
    PawnBody(Black, PlaceFormat(2, 6), PlaceFormat(2, 5));
    assert MovesWritable(moves) && Uncommented(moves);
    ThreeBodiesText(moves, "▲２六歩", "△８四歩", "▲２五歩");
    PawnLine();
  }

  lemma PawnLine()
    ensures "▲２六歩" + " " + "△８四歩" + " " + "▲２五歩" + "\n" == "▲２六歩 △８四歩 ▲２五歩\n"
  {
  }

  /** Three uncommented moves after an uncommented opening entry share one line. */
  lemma ThreeBodiesText(moves: seq<MoveFormat>, a: string, b: string, c: string)
    requires |moves| == 4 && MovesWritable(moves) && Uncommented(moves) && moves[0] == DefaultMove()
    requires BodyText(moves[1]) == a && BodyText(moves[2]) == b && BodyText(moves[3]) == c
    ensures MovesText(moves) == a + " " + b + " " + c + "\n"
  {
    UncommentedMovesText(moves);
    assert Bodies(moves, 1, 2) == [a];
    assert Bodies(moves, 1, 3) == [a, b];
    assert Bodies(moves, 1, 4) == [a, b, c];
    JoinedThree(a, b, c);
  }
}
