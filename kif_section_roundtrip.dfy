// What the KIF reader gives back for a whole move section the KIF writer
// produced: the comment lines, each entry with its comments, and the main
// line as a whole.

module KifSectionRoundTrip {
  import opened Jkf
  import opened Text
  import opened Kakinoki
  import opened KifForks
  import opened KifReader
  import opened KifWriter
  import opened KifRoundTrip

  // ------------------------------------------------------------ comments

  /**
   * A comment the reader can give back: no line break in it and, for the
   * older grammar, no leading `&` (it knows only `*` lines).
   */
  predicate CommentReadable(d: Dialect, c: string)
  {
    (forall i | 0 <= i < |c| :: !IsLineBreak(c[i])) &&
    (d == Legacy ==> !(|c| > 0 && c[0] == '&'))
  }

  predicate CommentsReadable(d: Dialect, cs: seq<string>)
  {
    forall k | 0 <= k < |cs| :: CommentReadable(d, cs[k])
  }

  /** A written comment line reads back as the comment. */
  lemma CommentReads(d: Dialect, c: string, rest: string)
    requires CommentReadable(d, c)
    ensures MoveCommentLine(d, CommentText(c) + rest) == Some(Parsed(c, rest))
  {
    if |c| > 0 && c[0] == '&' {
      var s := CommentText(c) + rest;
      var tail := c[1..] + "\n" + rest;
      assert s == "&" + tail by {
        assert c == "&" + c[1..];
        Appended3("&", c[1..], "\n", rest);
      }
      assert Tag("*", s).None? by {
        assert s[0] == '&';
      }
      TagOf("&", tail);
      LineOf(c[1..], rest);
      assert "&" + c[1..] == c;
    } else {
      Appended3("*", c, "\n", rest);
      TagOf("*", c + "\n" + rest);
      LineOf(c, rest);
    }
  }

  /** In the older grammar an `&` comment ends the comment lines. */
  lemma LegacyDropsAmpersand(c: string, rest: string)
    requires |c| > 0 && c[0] == '&'
    ensures MoveCommentLine(Legacy, CommentText(c) + rest).None?
  {
    assert (CommentText(c) + rest)[0] == '&';
  }

  /** The comment lines, split off at the front. */
  lemma {:induction false} CommentsTextCons(cs: seq<string>)
    requires cs != []
    ensures CommentsText(cs) == CommentText(cs[0]) + CommentsText(cs[1..])
    decreases |cs|
  {
    if |cs| == 1 {
      assert cs[1..] == [];
      assert cs[..0] == [];
    } else {
      var n := |cs|;
      var init := cs[..n - 1];
      CommentsTextCons(init);
      assert init[1..] == cs[1..][..n - 2];
      assert init[0] == cs[0];
      assert cs[1..][n - 2] == cs[n - 1];
      Appended2(CommentText(cs[0]), CommentsText(init[1..]), CommentText(cs[n - 1]));
    }
  }

  lemma MoveCommentsNone(d: Dialect, s: string)
    requires MoveCommentLine(d, s).None?
    ensures MoveComments(d, s) == Parsed([], s)
  {
  }

  lemma MoveCommentsCons(d: Dialect, s: string, c: string, r1: string, more: Parsed<seq<string>>)
    requires MoveCommentLine(d, s) == Some(Parsed(c, r1)) && MoveComments(d, r1) == more
    ensures MoveComments(d, s) == Parsed([c] + more.value, more.rest)
  {
  }

  /** Written comment lines read back as the comments, up to the first line that is not one. */
  lemma {:induction false} CommentsReads(d: Dialect, cs: seq<string>, rest: string)
    requires CommentsReadable(d, cs)
    requires MoveCommentLine(d, rest).None?
    ensures MoveComments(d, CommentsText(cs) + rest) == Parsed(cs, rest)
    decreases |cs|
  {
    if cs == [] {
      assert CommentsText(cs) + rest == rest;
      MoveCommentsNone(d, rest);
    } else {
      assert CommentsReadable(d, cs[1..]);
      CommentsReads(d, cs[1..], rest);
      CommentsReadsStep(d, cs, rest);
    }
  }

  lemma CommentsReadsStep(d: Dialect, cs: seq<string>, rest: string)
    requires cs != [] && CommentsReadable(d, cs)
    requires MoveComments(d, CommentsText(cs[1..]) + rest) == Parsed(cs[1..], rest)
    ensures MoveComments(d, CommentsText(cs) + rest) == Parsed(cs, rest)
  {
    var first, others := CommentText(cs[0]), CommentsText(cs[1..]);
    var tail := others + rest;
    assert CommentsText(cs) + rest == first + tail by {
      CommentsTextCons(cs);
      Appended2(first, others, rest);
    }
    CommentReads(d, cs[0], tail);
    MoveCommentsCons(d, first + tail, cs[0], tail, Parsed(cs[1..], rest));
    assert [cs[0]] + cs[1..] == cs;
  }

  // ------------------------------------------------------------- entries

  /** The comments of an entry, none when it has no list. */
  function Comments(mf: MoveFormat): (cs: seq<string>)
    ensures mf.comments.Some? ==> cs == mf.comments.value
    ensures mf.comments.None? ==> cs == []
  {
    UnwrapOr(mf.comments, [])
  }

  lemma CommentLinesAre(mf: MoveFormat)
    ensures CommentLinesOf(mf) == CommentsText(Comments(mf))
  {
  }

  /** Entry i can be read back: a number the reader takes, squares on the board, readable comments. */
  predicate EntryReadable(d: Dialect, i: nat, mf: MoveFormat)
  {
    0 < i < IndexBound && EntryWritable(mf) && EntryOnBoard(mf) && CommentsReadable(d, Comments(mf))
  }

  /** Entry i as read back: its move line, then its comments (an empty list reads back as none). */
  function ReadBackWithComments(i: nat, mf: MoveFormat): (r: MoveFormat)
    requires EntryWritable(mf)
    ensures r.comments == CommentsOf(Comments(mf))
    ensures r.move == ReadBackEntry(i, mf).move && r.special == ReadBackEntry(i, mf).special
    ensures r.time == ReadBackEntry(i, mf).time && r.forks.NoForks?
  {
    ReadBackEntry(i, mf).(comments := CommentsOf(Comments(mf)))
  }

  /** Text that starts with neither `*` nor `&` is no comment line. */
  lemma NoCommentAt(d: Dialect, s: string)
    requires s != [] && s[0] != '*' && s[0] != '&'
    ensures MoveCommentLine(d, s).None?
  {
  }

  lemma FirstOf(p: string, x: string)
    requires p != []
    ensures (p + x)[0] == p[0]
  {
  }

  /** A move line starts with a blank or a digit. */
  lemma MoveLineStart(i: nat, mf: MoveFormat, rest: string)
    requires EntryWritable(mf)
    ensures var s := MoveLineText(i, mf) + rest; s != [] && (s[0] == ' ' || IsDigit(s[0]))
  {
    var p, bt, st := PadLeft(Decimal(i), 4, ' '), BodyText(mf), TimeSuffix(mf);
    assert MoveLineText(i, mf) + rest == p + (" " + (bt + (st + ("\n" + rest)))) by {
      Regroup5(p, " ", bt, st, "\n", rest);
    }
    FirstOf(p, " " + (bt + (st + ("\n" + rest))));
    if |Decimal(i)| < 4 {
      assert p[0] == ' ';
    } else {
      assert p == Decimal(i);
    }
  }

  /** No comment line starts where a move line does. */
  lemma NoCommentAtMoveLine(d: Dialect, i: nat, mf: MoveFormat, rest: string)
    requires EntryWritable(mf)
    ensures MoveCommentLine(d, MoveLineText(i, mf) + rest).None?
  {
    MoveLineStart(i, mf, rest);
    NoCommentAt(d, MoveLineText(i, mf) + rest);
  }

  /** A written entry reads back as its number and ReadBackWithComments. */
  lemma EntryReads(d: Dialect, i: nat, mf: MoveFormat, rest: string)
    requires EntryReadable(d, i, mf)
    requires MoveCommentLine(d, rest).None?
    ensures MoveWithComments(d, EntryText(i, mf) + rest) == Some(Parsed((i, ReadBackWithComments(i, mf)), rest))
  {
    var cl := CommentLinesOf(mf);
    Appended2(MoveLineText(i, mf), cl, rest);
    MoveLineReads(d, i, mf, cl + rest);
    CommentLinesAre(mf);
    CommentsReads(d, Comments(mf), rest);
  }

  // ------------------------------------------------------------ sections

  /** The entries lo..|moves|-1 as read back, each with its own number. */
  function ReadBackFrom(moves: seq<MoveFormat>, lo: nat): (r: seq<MoveFormat>)
    requires MovesWritable(moves) && lo >= 1
    ensures |r| == if lo <= |moves| then |moves| - lo else 0
    ensures forall k | 0 <= k < |r| :: r[k] == ReadBackWithComments(lo + k, moves[lo + k])
    decreases |moves| - lo
  {
    if lo >= |moves| then [] else [ReadBackWithComments(lo, moves[lo])] + ReadBackFrom(moves, lo + 1)
  }

  /** Entries reachable from lo on are readable. */
  predicate ReadableFrom(d: Dialect, moves: seq<MoveFormat>, lo: nat)
  {
    forall i | lo <= i < |moves| :: EntryReadable(d, i, moves[i])
  }

  lemma EntryTextAt(i: nat, mf: MoveFormat)
    requires i > 0 ==> EntryWritable(mf)
    ensures i > 0 ==> EntryText(i, mf) == MoveLineText(i, mf) + CommentLinesOf(mf)
    ensures i == 0 ==> EntryText(i, mf) == CommentLinesOf(mf)
  {
  }

  /** Written entries from lo on, with the first one split off. */
  lemma EntriesSplit(moves: seq<MoveFormat>, lo: nat, rest: string)
    requires 1 <= lo < |moves| && MovesWritable(moves)
    ensures EntriesText(moves, lo, |moves|) + rest ==
            MoveLineText(lo, moves[lo]) + (CommentLinesOf(moves[lo]) + (EntriesText(moves, lo + 1, |moves|) + rest))
  {
    var ml, cl, t := MoveLineText(lo, moves[lo]), CommentLinesOf(moves[lo]), EntriesText(moves, lo + 1, |moves|);
    EntriesCons(moves, lo, |moves|);
    EntryTextAt(lo, moves[lo]);
    assert EntriesText(moves, lo, |moves|) == ml + cl + t;
    Regroup3(ml, cl, t, rest);
  }

  /** Written entries start with a move line, or are empty. */
  lemma NoCommentAtEntries(d: Dialect, moves: seq<MoveFormat>, lo: nat, rest: string)
    requires 1 <= lo <= |moves| && MovesWritable(moves)
    requires MoveCommentLine(d, rest).None?
    ensures MoveCommentLine(d, EntriesText(moves, lo, |moves|) + rest).None?
  {
    if lo < |moves| {
      EntriesSplit(moves, lo, rest);
      NoCommentAtMoveLine(d, lo, moves[lo], CommentLinesOf(moves[lo]) + (EntriesText(moves, lo + 1, |moves|) + rest));
    } else {
      assert EntriesText(moves, lo, |moves|) + rest == rest;
    }
  }

  lemma MoreMovesNone(d: Dialect, s: string)
    requires MoveWithComments(d, s).None?
    ensures MoreMoves(d, s) == Parsed([], s)
  {
  }

  lemma MoreMovesCons(d: Dialect, s: string, i: nat, mf: MoveFormat, r1: string, more: Parsed<seq<MoveFormat>>)
    requires MoveWithComments(d, s) == Some(Parsed((i, mf), r1)) && MoreMoves(d, r1) == more
    ensures MoreMoves(d, s) == Parsed([mf] + more.value, more.rest)
  {
  }

  /** ReadBackFrom, split off at the front. */
  lemma ReadBackFromCons(moves: seq<MoveFormat>, lo: nat)
    requires 1 <= lo < |moves| && MovesWritable(moves)
    ensures ReadBackFrom(moves, lo) == [ReadBackWithComments(lo, moves[lo])] + ReadBackFrom(moves, lo + 1)
  {
  }

  /** Written entries read back one by one, up to the first line that is not a move line. */
  lemma {:induction false} MoreMovesReads(d: Dialect, moves: seq<MoveFormat>, lo: nat, rest: string)
    requires 1 <= lo <= |moves| && MovesWritable(moves) && ReadableFrom(d, moves, lo)
    requires MoveWithComments(d, rest).None? && MoveCommentLine(d, rest).None?
    ensures MoreMoves(d, EntriesText(moves, lo, |moves|) + rest) == Parsed(ReadBackFrom(moves, lo), rest)
    decreases |moves| - lo
  {
    if lo == |moves| {
      assert EntriesText(moves, lo, |moves|) + rest == rest;
      MoreMovesNone(d, rest);
    } else {
      var e, t := EntryText(lo, moves[lo]), EntriesText(moves, lo + 1, |moves|);
      assert EntriesText(moves, lo, |moves|) + rest == e + (t + rest) by {
        EntriesCons(moves, lo, |moves|);
        Appended2(e, t, rest);
      }
      NoCommentAtEntries(d, moves, lo + 1, rest);
      EntryReads(d, lo, moves[lo], t + rest);
      MoreMovesReads(d, moves, lo + 1, rest);
      MoreMovesCons(d, e + (t + rest), lo, ReadBackWithComments(lo, moves[lo]), t + rest, Parsed(ReadBackFrom(moves, lo + 1), rest));
      ReadBackFromCons(moves, lo);
    }
  }

  /** Nothing is read at the end of the input. */
  lemma NothingAtEnd(d: Dialect)
    ensures MoveWithComments(d, "").None? && MoveCommentLine(d, "").None? && NotMoveLine("").None?
    ensures ForkBlocks(d, "") == Parsed([], "")
  {
  }

  lemma NoBlocksAtEnd(d: Dialect)
    ensures ForkBlocks(d, "") == Parsed([], "")
  {
  }

  lemma MovesWithIndexOf(d: Dialect, s: string, i: nat, mf: MoveFormat, r1: string, more: seq<MoveFormat>)
    requires MoveWithComments(d, s) == Some(Parsed((i, mf), r1)) && MoreMoves(d, r1) == Parsed(more, "")
    ensures MovesWithIndex(d, s) == Some(Parsed(Block(i, [mf] + more), ""))
  {
    NothingAtEnd(d);
  }

  /** The entries from 1 on form the first block, anchored at move 1. */
  lemma FirstBlockReads(d: Dialect, moves: seq<MoveFormat>)
    requires |moves| >= 2 && MovesWritable(moves) && ReadableFrom(d, moves, 1)
    ensures MovesWithIndex(d, EntriesText(moves, 1, |moves|)) == Some(Parsed(Block(1, ReadBackFrom(moves, 1)), ""))
  {
    var e, t := EntryText(1, moves[1]), EntriesText(moves, 2, |moves|);
    assert EntriesText(moves, 1, |moves|) == e + t by {
      EntriesCons(moves, 1, |moves|);
    }
    NothingAtEnd(d);
    NoCommentAtEntries(d, moves, 2, "");
    assert t + "" == t;
    EntryReads(d, 1, moves[1], t);
    MoreMovesReads(d, moves, 2, "");
    MovesWithIndexOf(d, e + t, 1, ReadBackWithComments(1, moves[1]), t, ReadBackFrom(moves, 2));
    ReadBackFromCons(moves, 1);
  }

  /** The main line as read back: the placeholder with entry 0's comments, then the entries from 1 on. */
  function ReadBackMoves(moves: seq<MoveFormat>): (r: seq<MoveFormat>)
    requires |moves| >= 1 && MovesWritable(moves)
    ensures |r| == |moves|
    ensures r[0] == DefaultMove().(comments := CommentsOf(Comments(moves[0])))
    ensures forall k | 1 <= k < |r| :: r[k] == ReadBackWithComments(k, moves[k])
  {
    [DefaultMove().(comments := CommentsOf(Comments(moves[0])))] + ReadBackFrom(moves, 1)
  }

  lemma MainMovesOf(d: Dialect, s: string, cs: seq<string>, r1: string, b: Block)
    requires MoveComments(d, s) == Parsed(cs, r1) && MovesWithIndex(d, r1) == Some(Parsed(b, ""))
    ensures MainMoves(d, s) == Some(Parsed([DefaultMove().(comments := CommentsOf(cs))] + b.moves, ""))
  {
  }

  /** The main line reads back whole. */
  lemma MainMovesReads(d: Dialect, moves: seq<MoveFormat>, s: string)
    requires |moves| >= 2 && MovesWritable(moves) && ReadableFrom(d, moves, 1)
    requires CommentsReadable(d, Comments(moves[0]))
    requires s == EntriesText(moves, 0, |moves|)
    ensures MainMoves(d, s) == Some(Parsed(ReadBackMoves(moves), ""))
  {
    var e1 := EntriesText(moves, 1, |moves|);
    var cs := Comments(moves[0]);
    EntriesFromZero(moves);
    assert MoveComments(d, s) == Parsed(cs, e1) by {
      HeadCommentsReads(d, moves);
    }
    FirstBlockReads(d, moves);
    MainMovesOf(d, s, cs, e1, Block(1, ReadBackFrom(moves, 1)));
  }

  /** The comments of entry 0 read back up to the first move line. */
  lemma HeadCommentsReads(d: Dialect, moves: seq<MoveFormat>)
    requires |moves| >= 2 && MovesWritable(moves) && CommentsReadable(d, Comments(moves[0]))
    ensures var e1 := EntriesText(moves, 1, |moves|);
      MoveComments(d, CommentsText(Comments(moves[0])) + e1) == Parsed(Comments(moves[0]), e1)
  {
    var e1 := EntriesText(moves, 1, |moves|);
    NothingAtEnd(d);
    NoCommentAtEntries(d, moves, 1, "");
    assert e1 + "" == e1;
    CommentsReads(d, Comments(moves[0]), e1);
  }

  /** The column header is one line that is not a move line. */
  lemma HeaderSkipped(x: string)
    ensures NotMoveLine(ColumnHeader() + x) == Some(x)
  {
    var t := "数----指手---------消費時間--";
    HeaderLine(t);
    assert ColumnHeader() + x == ['手'] + t + "\n" + x;
    SkippedLine('手', t, x, ColumnHeader() + x);
  }

  lemma HeaderLine(t: string)
    requires t == "数----指手---------消費時間--"
    ensures ColumnHeader() == ['手'] + t + "\n"
    ensures '手' !in MoveLineStarts() && forall i | 0 <= i < |t| :: !IsLineBreak(t[i])
  {
  }

  /** A line whose first character cannot start a move line is skipped whole. */
  lemma SkippedLine(c: char, t: string, x: string, s: string)
    requires c !in MoveLineStarts() && forall i | 0 <= i < |t| :: !IsLineBreak(t[i])
    requires s == [c] + t + "\n" + x
    ensures NotMoveLine(s) == Some(x)
  {
    assert s[0] == c;
    assert s[1..] == t + "\n" + x;
    LineOf(t, x);
  }

  /** A line that starts like a move line is not skipped. */
  lemma NotMoveLineAt(s: string)
    requires s != [] && (s[0] == ' ' || s[0] == '*' || IsDigit(s[0]))
    ensures NotMoveLine(s).None?
  {
    assert s[0] in MoveLineStarts();
  }

  /** Comment lines start with `*` in the older grammar. */
  lemma CommentsStart(cs: seq<string>, rest: string)
    requires cs != [] && CommentsReadable(Legacy, cs)
    ensures var s := CommentsText(cs) + rest; s != [] && s[0] == '*'
  {
    var c := cs[0];
    assert CommentsText(cs) + rest == CommentText(c) + (CommentsText(cs[1..]) + rest) by {
      CommentsTextCons(cs);
      Appended2(CommentText(c), CommentsText(cs[1..]), rest);
    }
    assert CommentReadable(Legacy, c);
    assert CommentText(c) == "*" + c + "\n";
    FirstOf(CommentText(c), CommentsText(cs[1..]) + rest);
  }

  /** Entries from 1 on start with a move line. */
  lemma EntriesFromOneStart(moves: seq<MoveFormat>)
    requires |moves| >= 2 && MovesWritable(moves)
    ensures var s := EntriesText(moves, 1, |moves|); s != [] && (s[0] == ' ' || IsDigit(s[0]))
  {
    var e1 := EntriesText(moves, 1, |moves|);
    assert e1 == MoveLineText(1, moves[1]) + (CommentLinesOf(moves[1]) + EntriesText(moves, 2, |moves|)) by {
      EntriesSplit(moves, 1, "");
      assert e1 + "" == e1;
      assert EntriesText(moves, 2, |moves|) + "" == EntriesText(moves, 2, |moves|);
    }
    MoveLineStart(1, moves[1], CommentLinesOf(moves[1]) + EntriesText(moves, 2, |moves|));
  }

  /** Entry 0 contributes only its comment lines. */
  lemma EntriesFromZero(moves: seq<MoveFormat>)
    requires |moves| >= 1 && MovesWritable(moves)
    ensures EntriesText(moves, 0, |moves|) == CommentsText(Comments(moves[0])) + EntriesText(moves, 1, |moves|)
  {
    var c := CommentsText(Comments(moves[0]));
    assert EntryText(0, moves[0]) == c by {
      EntryTextAt(0, moves[0]);
      CommentLinesAre(moves[0]);
    }
    EntriesCons(moves, 0, |moves|);
  }

  /** The entries start with a line the older grammar does not skip. */
  lemma EntriesStart(moves: seq<MoveFormat>)
    requires |moves| >= 2 && MovesWritable(moves) && CommentsReadable(Legacy, Comments(moves[0]))
    ensures NotMoveLine(EntriesText(moves, 0, |moves|)).None?
  {
    var e1 := EntriesText(moves, 1, |moves|);
    var cs := Comments(moves[0]);
    EntriesFromZero(moves);
    if cs != [] {
      CommentsStart(cs, e1);
    } else {
      assert CommentsText(cs) + e1 == e1;
      EntriesFromOneStart(moves);
    }
    NotMoveLineAt(CommentsText(cs) + e1);
  }

  lemma NoChildren()
    ensures Children([], -1) == [] && Subtrees([], []) == []
  {
    assert |Children([], -1)| == 0;
  }

  /** No blocks means nothing is spliced in. */
  lemma NothingSpliced(ms: seq<MoveFormat>)
    ensures Spliced(ms, []) == ms && FlatMerged(ms, []) == ms
  {
    NoChildren();
    assert AttachAll(ms, 0, []) == ms;
  }

  /** No blocks always fit. */
  lemma NothingMisfits(ms: seq<MoveFormat>)
    ensures FitsBlocks([]) && FitsMain(ms, []) && Lands(ms, 0, [])
  {
  }

  /** The line skipped before the main line is the column header. */
  lemma SkippedHeader(d: Dialect, e: string)
    requires d == Legacy ==> NotMoveLine(e).None?
    ensures BeforeMain(d, ColumnHeader() + e) == e
  {
    HeaderSkipped(e);
    if d == Legacy {
      SkipOneLine(ColumnHeader() + e, e);
      SkipNoLine(e);
    }
  }

  lemma SkipOneLine(s: string, t: string)
    requires NotMoveLine(s) == Some(t)
    ensures SkipNotMoveLines(s) == SkipNotMoveLines(t)
  {
  }

  lemma SkipNoLine(s: string)
    requires NotMoveLine(s).None?
    ensures SkipNotMoveLines(s) == s
  {
  }

  /** With no blocks, the main line is the move section. */
  lemma CombinedAlone(d: Dialect, ms: seq<MoveFormat>, blocks: Parsed<seq<Block>>)
    requires |ms| >= 1
    requires Nested(ms, blocks) == Some(Parsed(ms, "")) && Flat(ms, blocks) == Some(Parsed(ms, ""))
    ensures Combined(d, ms, blocks) == Some(Parsed(ms, ""))
  {
  }

  lemma CurrentAlone(ms: seq<MoveFormat>, blocks: Parsed<seq<Block>>)
    requires |ms| >= 1 && blocks == Parsed([], "")
    requires Spliced(ms, []) == ms && FitsBlocks([]) && FitsMain(ms, [])
    ensures Nested(ms, blocks) == Some(Parsed(ms, ""))
  {
  }

  lemma LegacyAlone(ms: seq<MoveFormat>, blocks: Parsed<seq<Block>>)
    requires |ms| >= 1 && blocks == Parsed([], "")
    requires FlatMerged(ms, []) == ms && Lands(ms, 0, [])
    ensures Flat(ms, blocks) == Some(Parsed(ms, ""))
  {
  }

  /** The move section after the column header, from the main line. */
  lemma HeaderThenMain(d: Dialect, e: string, ms: seq<MoveFormat>)
    requires MainMoves(d, e) == Some(Parsed(ms, ""))
    requires d == Legacy ==> NotMoveLine(e).None?
    ensures |ms| >= 1 && EntireMoves(d, ColumnHeader() + e) == Combined(d, ms, ForkBlocks(d, ""))
  {
    SkippedHeader(d, e);
    EntireMovesOfMain(d, ColumnHeader() + e, Some(Parsed(ms, "")));
  }

  lemma NoBlocksCombined(d: Dialect, ms: seq<MoveFormat>)
    requires |ms| >= 1
    ensures Combined(d, ms, ForkBlocks(d, "")) == Some(Parsed(ms, ""))
  {
    var blocks := ForkBlocks(d, "");
    NoBlocksAtEnd(d);
    NothingSpliced(ms);
    NothingMisfits(ms);
    CurrentAlone(ms, blocks);
    LegacyAlone(ms, blocks);
    CombinedAlone(d, ms, blocks);
  }

  /** The move section after the column header, from the main line. */
  lemma EntireMovesOf(d: Dialect, e: string, ms: seq<MoveFormat>)
    requires MainMoves(d, e) == Some(Parsed(ms, ""))
    requires d == Legacy ==> NotMoveLine(e).None?
    ensures EntireMoves(d, ColumnHeader() + e) == Some(Parsed(ms, ""))
  {
    HeaderThenMain(d, e, ms);
    NoBlocksCombined(d, ms);
  }

  /** With moves, the section is the column header and the entries. */
  lemma MovesTextIs(moves: seq<MoveFormat>)
    requires |moves| >= 2 && MovesWritable(moves)
    ensures MovesText(moves) == ColumnHeader() + EntriesText(moves, 0, |moves|)
  {
    assert ColumnHeader() + "" == ColumnHeader();
  }

  /**
   * A move section the writer produced, with at least one move, reads back
   * in either grammar as ReadBackMoves says: every entry's move or
   * special, time and comments, and no variations.
   */
  lemma MovesTextReads(d: Dialect, moves: seq<MoveFormat>)
    requires |moves| >= 2 && MovesWritable(moves) && ReadableFrom(d, moves, 1)
    requires CommentsReadable(d, Comments(moves[0]))
    ensures EntireMoves(d, MovesText(moves)) == Some(Parsed(ReadBackMoves(moves), ""))
  {
    var e := EntriesText(moves, 0, |moves|);
    MovesTextIs(moves);
    assert d == Legacy ==> NotMoveLine(e).None? by {
      if d == Legacy {
        EntriesStart(moves);
      }
    }
    assert MainMoves(d, e) == Some(Parsed(ReadBackMoves(moves), "")) by {
      MainMovesReads(d, moves, e);
    }
    EntireMovesOf(d, e, ReadBackMoves(moves));
  }
}
