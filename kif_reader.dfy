// The move section of a KIF record and the whole-record reader, in the
// current grammar and in the older one.
//
// A move line is a move number, a move (or a special such as 投了) and an
// optional time in parentheses; comment lines may follow it. The main line
// comes first, preceded by the comments of the starting position; then come
// the variation blocks, each a run of move lines starting at some move
// number, possibly after lines that cannot start a move (such as
// "変化：12手"). Where the source would panic on an out-of-range entry, the
// reader here gives no record.

module KifReader {
  import opened Jkf
  import opened Text
  import opened Kakinoki
  import opened KifForks

  /** Move numbers are read into a 64-bit unsigned integer. */
  const IndexBound: nat := 0x1_0000_0000_0000_0000

  /** Squares and times are read into bytes. */
  const ByteBound: nat := 256

  // ------------------------------------------------------------ other lines

  /** What may start a move line or a comment. */
  function MoveLineStarts(): seq<char>
  {
    " 0123456789*"
  }

  /**
   * A line that is not a move line: any first character but a blank, a digit
   * or `*` (a line break counts as a first character too), then the rest of
   * that line.
   */
  function NotMoveLine(s: string): (r: Option<string>)
    ensures r.Some? ==> |r.value| < |s| && s[0] !in MoveLineStarts()
  {
    if s == [] || s[0] in MoveLineStarts() then None
    else
      var l := Line(s[1..]);
      if l.None? then None else Some(l.value.rest)
  }

  /** Any number of such lines, skipped. */
  function SkipNotMoveLines(s: string): (r: string)
    ensures |r| <= |s| && NotMoveLine(r).None?
    decreases |s|
  {
    var l := NotMoveLine(s);
    if l.None? then s else SkipNotMoveLines(l.value)
  }

  // ------------------------------------------------------------ one move

  /**
   * Where the piece comes from: 打 (a drop) gives None, and a parenthesised
   * byte d gives file d / 10 and rank d % 10.
   */
  function MoveFrom(s: string): (r: Option<Parsed<Option<PlaceFormat>>>)
    ensures Consumed(r, s)
    ensures r.Some? && r.value.value.Some? ==> r.value.value.value.x < 26 && r.value.value.value.y < 10
  {
    if "打" <= s then Some(Parsed(None, s[1..]))
    else
      var open := Tag("(", s);
      if open.None? then None
      else
        var d := Number(open.value, ByteBound);
        if d.None? then None
        else
          var close := Tag(")", d.value.rest);
          if close.None? then None
          else Some(Parsed(Some(PlaceFormat(d.value.value / 10, d.value.value % 10)), close.value))
  }

  /** A drop, and a square written as two digits, read back. */
  lemma MoveFromOf(x: nat, y: nat, rest: string)
    requires 1 <= x <= 9 && y <= 9
    ensures MoveFrom("打" + rest) == Some(Parsed(None, rest))
    ensures MoveFrom("(" + [DigitChar(x), DigitChar(y)] + ")" + rest) == Some(Parsed(Some(PlaceFormat(x, y)), rest))
  {
    assert ("打" + rest)[1..] == rest;
    var digits := [DigitChar(x), DigitChar(y)];
    var inner := digits + (")" + rest);
    var s := "(" + [DigitChar(x), DigitChar(y)] + ")" + rest;
    assert s == "(" + inner;
    assert !("打" <= s) by {
      assert s[0] == '(';
    }
    TagOf("(", inner);
    TwoDigits(x, y, ")" + rest);
    TagOf(")", rest);
    assert (x * 10 + y) / 10 == x && (x * 10 + y) % 10 == y;
  }

  /** Two decimal digits read as one number. */
  lemma TwoDigits(x: nat, y: nat, rest: string)
    requires x <= 9 && y <= 9
    requires rest == [] || !IsDigit(rest[0])
    ensures Number([DigitChar(x), DigitChar(y)] + rest, ByteBound) == Some(Parsed(x * 10 + y, rest))
  {
    var digits := [DigitChar(x), DigitChar(y)];
    var s := digits + rest;
    DigitRunOf(digits, rest);
    assert s[..2] == digits;
    assert s[2..] == rest;
    DigitValueOf(x);
    DigitValueOf(y);
    assert DecimalValue(digits[..1]) == x by {
      assert digits[..1][..0] == [];
    }
  }

  /** The ends of a game the KIF grammar names, in the order it tries them. */
  function SpecialOf(s: string): (r: Option<Parsed<MoveSpecial>>)
    ensures Consumed(r, s)
    ensures r.Some? ==> r.value.value in {SpecialToryo, SpecialChudan, SpecialSennichite, SpecialTimeUp,
                                          SpecialIllegalMove, SpecialJishogi, SpecialKachi, SpecialTsumi}
  {
    if "投了" <= s then Some(Parsed(SpecialToryo, s[2..]))
    else if "中断" <= s then Some(Parsed(SpecialChudan, s[2..]))
    else if "千日手" <= s then Some(Parsed(SpecialSennichite, s[3..]))
    else if "切れ負け" <= s then Some(Parsed(SpecialTimeUp, s[4..]))
    else if "反則負け" <= s then Some(Parsed(SpecialIllegalMove, s[4..]))
    else if "持将棋" <= s then Some(Parsed(SpecialJishogi, s[3..]))
    else if "入玉勝ち" <= s then Some(Parsed(SpecialKachi, s[4..]))
    else if "詰み" <= s then Some(Parsed(SpecialTsumi, s[2..]))
    else None
  }

  /** The name of a special in a KIF move line, for those the grammar knows. */
  function SpecialName(sp: MoveSpecial): (s: string)
  {
    match sp
    case SpecialToryo => "投了" case SpecialChudan => "中断" case SpecialSennichite => "千日手"
    case SpecialTimeUp => "切れ負け" case SpecialIllegalMove => "反則負け" case SpecialJishogi => "持将棋"
    case SpecialKachi => "入玉勝ち" case SpecialTsumi => "詰み" case _ => ""
  }

  predicate KnownSpecial(sp: MoveSpecial)
  {
    sp in {SpecialToryo, SpecialChudan, SpecialSennichite, SpecialTimeUp, SpecialIllegalMove, SpecialJishogi, SpecialKachi, SpecialTsumi}
  }

  /** Every special the grammar knows is read back from its name. */
  lemma SpecialOfName(sp: MoveSpecial, rest: string)
    requires KnownSpecial(sp)
    ensures SpecialOf(SpecialName(sp) + rest) == Some(Parsed(sp, rest))
  {
    var name := SpecialName(sp);
    var s := name + rest;
    assert s[..|name|] == name && s[|name|..] == rest;
    assert s[0] == name[0] && s[1] == name[1];
  }

  /**
   * A move: the destination (`同　` for the previous one, stored as the
   * placeholder square (0,0) with `same` set), the piece, an optional 成
   * and the origin. Colour is filled in by the move line; capture and the
   * relative token are left for the normalizer.
   */
  function MoveMove(d: Dialect, s: string): (r: Option<Parsed<MoveMoveFormat>>)
    ensures Consumed(r, s)
    ensures r.Some? ==> r.value.value.capture.None? && r.value.value.relative.None?
    ensures r.Some? ==> r.value.value.promote != Some(false) && r.value.value.same != Some(false)
    ensures r.Some? && r.value.value.same.Some? ==> r.value.value.to == DefaultPlace()
    ensures r.Some? && r.value.value.same.None? ==> 1 <= r.value.value.to.x <= 9 && 1 <= r.value.value.to.y <= 9
  {
    var to := MoveTo(s);
    if to.None? then None
    else
      var kind := PieceKind(d, to.value.rest);
      if kind.None? then None
      else
        var promote := Tag("成", kind.value.rest);
        var afterPromote := if promote.Some? then promote.value else kind.value.rest;
        var from := MoveFrom(afterPromote);
        if from.None? then None
        else
          var dest := to.value.value;
          Some(Parsed(MoveMoveFormat(
            Black,
            from.value.value,
            if dest.Some? then dest.value else DefaultPlace(),
            kind.value.value,
            if dest.None? then Some(true) else None,
            if promote.Some? then Some(true) else None,
            None,
            None), from.value.rest))
  }

  // ------------------------------------------------------------ times

  /** `h:m:s`, each part a byte. */
  function HoursMinutesSeconds(s: string): (r: Option<Parsed<TimeFormat>>)
    ensures r.Some? ==> r.value.value.h.Some? && |r.value.rest| < |s|
  {
    var h := Number(s, ByteBound);
    if h.None? then None
    else
      var c1 := Tag(":", h.value.rest);
      if c1.None? then None
      else
        var m := Number(c1.value, ByteBound);
        if m.None? then None
        else
          var c2 := Tag(":", m.value.rest);
          if c2.None? then None
          else
            var sec := Number(c2.value, ByteBound);
            if sec.None? then None
            else Some(Parsed(TimeFormat(Some(h.value.value), m.value.value, sec.value.value), sec.value.rest))
  }

  /** `m:s`, each part a byte. */
  function MinutesSeconds(s: string): (r: Option<Parsed<TimeFormat>>)
    ensures r.Some? ==> r.value.value.h.None? && |r.value.rest| < |s|
  {
    var m := Number(s, ByteBound);
    if m.None? then None
    else
      var c := Tag(":", m.value.rest);
      if c.None? then None
      else
        var sec := Number(c.value, ByteBound);
        if sec.None? then None
        else Some(Parsed(TimeFormat(None, m.value.value, sec.value.value), sec.value.rest))
  }

  /** A time value: `h:m:s` when it parses, else `m:s`. */
  function MoveTimeFormat(s: string): (r: Option<Parsed<TimeFormat>>)
    ensures Consumed(r, s)
  {
    var hms := HoursMinutesSeconds(s);
    if hms.Some? then hms else MinutesSeconds(s)
  }

  /** `(now/total)`, blanks allowed around either value. */
  function MoveTime(s: string): (r: Option<Parsed<Time>>)
    ensures Consumed(r, s)
  {
    var open := Tag("(", s);
    if open.None? then None else TimeAfterOpen(open.value)
  }

  function TimeAfterOpen(a: string): (r: Option<Parsed<Time>>)
    ensures r.Some? ==> |r.value.rest| < |a|
  {
    var now := MoveTimeFormat(SkipChars(Spaces(), a));
    if now.None? then None else TimeAfterNow(now.value.value, now.value.rest)
  }

  function TimeAfterNow(now: TimeFormat, b: string): (r: Option<Parsed<Time>>)
    ensures r.Some? ==> |r.value.rest| < |b|
  {
    var slash := Tag("/", SkipChars(Spaces(), b));
    if slash.None? then None
    else
      var total := MoveTimeFormat(SkipChars(Spaces(), slash.value));
      if total.None? then None else TimeAfterTotal(now, total.value.value, total.value.rest)
  }

  function TimeAfterTotal(now: TimeFormat, total: TimeFormat, e: string): (r: Option<Parsed<Time>>)
    ensures r.Some? ==> |r.value.rest| < |e|
  {
    var close := Tag(")", SkipChars(Spaces(), e));
    if close.None? then None else Some(Parsed(Time(now, total), close.value))
  }

  // ------------------------------------------------------------ move lines

  /** The side that plays move number i: Black on odd numbers, White on even ones. */
  function MoverOf(i: nat): (c: Color)
  {
    if i % 2 == 1 then Black else White
  }

  /** The entry a special stands for: nothing else set. */
  function SpecialEntry(sp: MoveSpecial): (mf: MoveFormat)
  {
    MoveFormat(None, None, None, Some(sp), NoForks)
  }

  /** The entry a move stands for: nothing else set. */
  function MoveEntry(mv: MoveMoveFormat): (mf: MoveFormat)
  {
    MoveFormat(Some(mv), None, None, None, NoForks)
  }

  /** A special, or else a move played by the side move number i belongs to. */
  function MoveBody(d: Dialect, i: nat, s: string): (r: Option<Parsed<MoveFormat>>)
    ensures Consumed(r, s)
    ensures r.Some? && r.value.value.move.Some? ==> r.value.value.move.value.color == MoverOf(i)
    ensures r.Some? ==> r.value.value.move.Some? != r.value.value.special.Some?
    ensures r.Some? ==> r.value.value.comments.None? && r.value.value.time.None? && r.value.value.forks.NoForks?
  {
    var sp := SpecialOf(s);
    if sp.Some? then Some(Parsed(SpecialEntry(sp.value.value), sp.value.rest))
    else
      var mv := MoveMove(d, s);
      if mv.None? then None
      else Some(Parsed(MoveEntry(mv.value.value.(color := MoverOf(i))), mv.value.rest))
  }

  /**
   * A move line: blanks, the move number, blanks, the move, blanks, an
   * optional time, and whatever else is on the line.
   */
  function MoveLine(d: Dialect, s: string): (r: Option<Parsed<(nat, MoveFormat)>>)
    ensures Consumed(r, s)
    ensures r.Some? ==> r.value.value.1.comments.None? && r.value.value.1.forks.NoForks?
    ensures r.Some? && r.value.value.1.move.Some? ==> r.value.value.1.move.value.color == MoverOf(r.value.value.0)
  {
    var n := Number(SkipChars(Spaces(), s), IndexBound);
    if n.None? then None else LineAfterNumber(d, n.value.value, n.value.rest)
  }

  /** The rest of a move line after its number i. */
  function LineAfterNumber(d: Dialect, i: nat, a: string): (r: Option<Parsed<(nat, MoveFormat)>>)
    ensures r.Some? ==> |r.value.rest| < |a| && r.value.value.0 == i
    ensures r.Some? ==> r.value.value.1.comments.None? && r.value.value.1.forks.NoForks?
    ensures r.Some? && r.value.value.1.move.Some? ==> r.value.value.1.move.value.color == MoverOf(i)
  {
    var body := MoveBody(d, i, SkipChars(Spaces(), a));
    if body.None? then None else LineAfterBody(i, body.value.value, body.value.rest)
  }

  /** The rest of a move line after its body mf: blanks, an optional time, the end of the line. */
  function LineAfterBody(i: nat, mf: MoveFormat, b: string): (r: Option<Parsed<(nat, MoveFormat)>>)
    ensures r.Some? ==> |r.value.rest| < |b| && r.value.value.0 == i
    ensures r.Some? ==> r.value.value.1 == mf.(time := r.value.value.1.time)
  {
    var afterBody := SkipChars(Spaces(), b);
    var time := MoveTime(afterBody);
    var afterTime := if time.Some? then time.value.rest else afterBody;
    var l := Line(afterTime);
    if l.None? then None
    else
      var t := if time.Some? then Some(time.value.value) else None;
      Some(Parsed((i, mf.(time := t)), l.value.rest))
  }

  /** The comments collected for an entry: none at all is stored as None. */
  function CommentsOf(cs: seq<string>): (r: Option<seq<string>>)
    ensures r.Some? <==> cs != []
    ensures r.Some? ==> r.value == cs
  {
    if cs == [] then None else Some(cs)
  }

  /** A move line and the comment lines after it. */
  function MoveWithComments(d: Dialect, s: string): (r: Option<Parsed<(nat, MoveFormat)>>)
    ensures Consumed(r, s)
  {
    var line := MoveLine(d, s);
    if line.None? then None
    else
      var cs := MoveComments(d, line.value.rest);
      Some(Parsed((line.value.value.0, line.value.value.1.(comments := CommentsOf(cs.value))), cs.rest))
  }

  /** Any number of moves with their comments. */
  function MoreMoves(d: Dialect, s: string): (r: Parsed<seq<MoveFormat>>)
    ensures |r.rest| <= |s|
    decreases |s|
  {
    var m := MoveWithComments(d, s);
    if m.None? then Parsed([], s)
    else
      var more := MoreMoves(d, m.value.rest);
      Parsed([m.value.value.1] + more.value, more.rest)
  }

  /**
   * A block: at least one move with its comments, then optionally one line
   * that is not a move line; its anchor is the number of its first move.
   */
  function MovesWithIndex(d: Dialect, s: string): (r: Option<Parsed<Block>>)
    ensures Consumed(r, s)
    ensures r.Some? ==> r.value.value.moves != []
  {
    var first := MoveWithComments(d, s);
    if first.None? then None
    else
      var more := MoreMoves(d, first.value.rest);
      var after := NotMoveLine(more.rest);
      var rest := if after.Some? then after.value else more.rest;
      Some(Parsed(Block(first.value.value.0, [first.value.value.1] + more.value), rest))
  }

  // ------------------------------------------------------------ the move section

  /**
   * The main line: the comments of the starting position become a
   * placeholder entry, followed by the first block's moves. The current
   * grammar allows the main line to have no moves; the older one does not.
   */
  function MainMoves(d: Dialect, s: string): (r: Option<Parsed<seq<MoveFormat>>>)
    ensures r.Some? ==> |r.value.value| >= 1 && r.value.value[0].move.None? && r.value.value[0].special.None?
    ensures r.Some? ==> |r.value.rest| <= |s|
    ensures d == Current ==> r.Some?
  {
    var cs := MoveComments(d, s);
    var head := DefaultMove().(comments := CommentsOf(cs.value));
    var block := MovesWithIndex(d, cs.rest);
    if block.Some? then Some(Parsed([head] + block.value.value.moves, block.value.rest))
    else if d == Current then Some(Parsed([head], cs.rest))
    else None
  }

  /** The next block, after any number of lines that are not move lines. */
  function NextBlock(d: Dialect, s: string): (r: Option<Parsed<Block>>)
    ensures r.Some? ==> |r.value.rest| < |s|
  {
    MovesWithIndex(d, SkipNotMoveLines(s))
  }

  /** The variation blocks, as many as follow. */
  function ForkBlocks(d: Dialect, s: string): (r: Parsed<seq<Block>>)
    ensures |r.rest| <= |s|
    decreases |s|
  {
    var block := NextBlock(d, s);
    if block.None? then Parsed([], s)
    else
      var more := ForkBlocks(d, block.value.rest);
      Parsed([block.value.value] + more.value, more.rest)
  }

  /**
   * The move section: the main line and the blocks, spliced. The current
   * grammar skips at most one line before the main line and nests the
   * blocks; the older one skips any number and attaches every block to the
   * main line. A block that does not fit where it goes leaves no record.
   */
  function EntireMoves(d: Dialect, s: string): (r: Option<Parsed<seq<MoveFormat>>>)
    ensures r.Some? ==> |r.value.value| >= 1 && r.value.value[0].move.None? && r.value.value[0].special.None?
  {
    var main := MainMoves(d, BeforeMain(d, s));
    if main.None? then None else Combined(d, main.value.value, ForkBlocks(d, main.value.rest))
  }

  /**
   * What is skipped before the main line: at most one line that is not a
   * move line in the current grammar, any number of them in the older one.
   */
  function BeforeMain(d: Dialect, s: string): (r: string)
    ensures |r| <= |s|
  {
    if d == Legacy then SkipNotMoveLines(s)
    else var l := NotMoveLine(s); if l.Some? then l.value else s
  }

  /** The main line ms with the blocks after it spliced in, as the grammar d places them. */
  function Combined(d: Dialect, ms: seq<MoveFormat>, blocks: Parsed<seq<Block>>): (r: Option<Parsed<seq<MoveFormat>>>)
    requires |ms| >= 1
    ensures r.Some? ==> |r.value.value| == |ms| && r.value.rest == blocks.rest
    ensures r.Some? ==> r.value.value[0].move == ms[0].move && r.value.value[0].special == ms[0].special
  {
    if d == Current then Nested(ms, blocks) else Flat(ms, blocks)
  }

  /** The current grammar: each block goes into its parent, when all of them fit. */
  function Nested(ms: seq<MoveFormat>, blocks: Parsed<seq<Block>>): (r: Option<Parsed<seq<MoveFormat>>>)
    requires |ms| >= 1
    ensures r.Some? ==> |r.value.value| == |ms| && r.value.rest == blocks.rest
    ensures r.Some? ==> r.value.value[0].move == ms[0].move && r.value.value[0].special == ms[0].special
  {
    if FitsBlocks(blocks.value) && FitsMain(ms, blocks.value) then
      MergedHead(ms, blocks.value);
      Some(Parsed(Spliced(ms, blocks.value), blocks.rest))
    else None
  }

  /** The older grammar: every block goes into the main line, when all of them land on it. */
  function Flat(ms: seq<MoveFormat>, blocks: Parsed<seq<Block>>): (r: Option<Parsed<seq<MoveFormat>>>)
    requires |ms| >= 1
    ensures r.Some? ==> |r.value.value| == |ms| && r.value.rest == blocks.rest
    ensures r.Some? ==> r.value.value[0].move == ms[0].move && r.value.value[0].special == ms[0].special
  {
    if Lands(ms, 0, blocks.value) then
      FlatMergedAt(ms, blocks.value, 0);
      Some(Parsed(FlatMerged(ms, blocks.value), blocks.rest))
    else None
  }

  /** Splicing leaves the placeholder entry a placeholder. */
  lemma MergedHead(main: seq<MoveFormat>, blocks: seq<Block>)
    requires |main| >= 1
    ensures Spliced(main, blocks)[0].move == main[0].move && Spliced(main, blocks)[0].special == main[0].special
  {
    SplicedAt(main, blocks, 0);
  }

  // ------------------------------------------------------------ the record

  /**
   * A whole record: header lines, an optional board diagram, more header
   * lines, then the moves. Nothing here fails except the move section.
   */
  function Parse(d: Dialect, s: string): (r: Option<Parsed<JsonKifuFormat>>)
    ensures r.Some? ==> r.value.value.initial.Some? && |r.value.value.moves| >= 1
  {
    var info1 := Informations(d, s);
    var board := ParseBoard(d, info1.rest);
    var afterBoard := if board.Some? then board.value.rest else info1.rest;
    var info2 := Informations(d, afterBoard);
    var moves := EntireMoves(d, info2.rest);
    if moves.None? then None
    else
      var info := Kakinoki.Merged(info1.value, info2.value);
      var initial := InitialOfInformation(info, if board.Some? then Some(board.value.value) else None);
      Some(Parsed(JsonKifuFormat(info.header, Some(initial), moves.value.value), moves.value.rest))
  }

  /** The current grammar splices exactly when the blocks fit. */
  lemma NestedFits(ms: seq<MoveFormat>, blocks: Parsed<seq<Block>>)
    requires |ms| >= 1
    ensures Nested(ms, blocks).None? <==> !(FitsBlocks(blocks.value) && FitsMain(ms, blocks.value))
  {
  }

  /** The current reader fails exactly when a block does not fit where it goes. */
  lemma CurrentFailsOnlyOnFit(s: string)
    ensures var main := MainMoves(Current, BeforeMain(Current, s)).value;
      var blocks := ForkBlocks(Current, main.rest).value;
      EntireMoves(Current, s).None? <==> !(FitsBlocks(blocks) && FitsMain(main.value, blocks))
  {
    var main := MainMoves(Current, BeforeMain(Current, s));
    EntireMovesOfMain(Current, s, main);
    NestedFits(main.value.value, ForkBlocks(Current, main.value.rest));
  }

  /** The move section, once the main line is read. */
  lemma EntireMovesOfMain(d: Dialect, s: string, main: Option<Parsed<seq<MoveFormat>>>)
    requires main == MainMoves(d, BeforeMain(d, s)) && main.Some?
    ensures EntireMoves(d, s) == Combined(d, main.value.value, ForkBlocks(d, main.value.rest))
  {
  }
}
