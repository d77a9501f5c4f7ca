// What the Kakinoki writers produce, read back by the Kakinoki grammar:
// numerals, hands, the board diagram, the preset and header lines, and the
// whole header-and-position part of a record.

module KakinokiRoundTrip {
  import opened Jkf
  import opened Text
  import opened Kakinoki
  import opened KakinokiWriter

  // ------------------------------------------------------------- numerals

  /** What may follow 十 without changing its reading: anything but 一..八. */
  predicate TenMayPrecede(rest: string)
  {
    !StartsWithKanjiDigit(rest) || "九" <= rest
  }

  /** Every count 1..18 is read back as written; after ten, the next glyph must not extend the numeral. */
  lemma KansujiRoundTrip(n: nat, rest: string)
    requires 1 <= n <= 18
    requires n == 10 ==> TenMayPrecede(rest)
    ensures Kansuji(Current, KansujiText(n) + rest) == Some(Parsed(n, rest))
  {
    if n > 10 {
      KansujiLongestFirst(n - 10, rest);
    } else if n == 10 {
      KansujiLongestFirst(1, rest);
    } else {
      KansujiLongestFirst(n, rest);
    }
  }

  // ---------------------------------------------------------------- hands

  /** The entries with a non-zero count, in order. */
  function Nonzero(xs: seq<(Kind, nat)>): (r: seq<(Kind, nat)>)
    ensures forall i | 0 <= i < |r| :: r[i].1 > 0 && r[i] in xs
    ensures (forall i | 0 <= i < |xs| :: xs[i].1 == 0) ==> r == []
  {
    if xs == [] then []
    else (if xs[0].1 > 0 then [xs[0]] else []) + Nonzero(xs[1..])
  }

  lemma NonzeroSkips(xs: seq<(Kind, nat)>)
    requires xs != [] && xs[0].1 == 0
    ensures Nonzero(xs) == Nonzero(xs[1..])
  {
    assert Nonzero(xs) == [] + Nonzero(xs[1..]);
  }

  /** A hand entry read from its parts: the name, then the numeral (or a count of one when there is none). */
  lemma HandItemOf(d: Dialect, s: string, k: Kind, afterName: string, n: nat, afterNumeral: string)
    requires PieceKind(d, s) == Some(Parsed(k, afterName))
    requires Kansuji(d, afterName) == Some(Parsed(n, afterNumeral)) || (Kansuji(d, afterName).None? && n == 1 && afterNumeral == afterName)
    ensures HandItem(d, s) == Some(Parsed((k, n), SkipChars(Blanks(d), afterNumeral)))
  {
  }

  lemma NoNumeralAtBlank(rest: string)
    ensures Kansuji(Current, "　" + rest).None?
  {
  }

  lemma NumeralBeforeBlank(n: nat, rest: string)
    requires 2 <= n <= 18
    ensures Kansuji(Current, KansujiText(n) + ("　" + rest)) == Some(Parsed(n, "　" + rest))
  {
    KansujiRoundTrip(n, "　" + rest);
  }

  lemma EntryTextParts(k: Kind, n: nat, rest: string)
    requires 1 <= n <= 18
    ensures EntryText(k, n) + rest == [KindGlyph(k)] + ((if n > 1 then KansujiText(n) else "") + ("　" + rest))
  {
  }

  /** A full-width space, read as a blank, ends a hand entry. */
  lemma HandEntryRoundTrip(k: Kind, n: nat, rest: string)
    requires 1 <= n <= 18
    requires rest == [] || rest[0] !in Blanks(Current)
    ensures HandItem(Current, EntryText(k, n) + rest) == Some(Parsed((k, n), rest))
  {
    var numeral := if n > 1 then KansujiText(n) else "";
    var after := "　" + rest;
    EntryTextParts(k, n, rest);
    PieceKindOfNames(Current, k, numeral + after);
    if n > 1 {
      NumeralBeforeBlank(n, rest);
    } else {
      NoNumeralAtBlank(rest);
      assert numeral + after == after;
    }
    SkipAll(Blanks(Current), "　", rest);
    HandItemOf(Current, EntryText(k, n) + rest, k, numeral + after, n, after);
  }

  /** The first glyph of a written entry is a piece name, never a blank or a line break. */
  lemma EntriesHead(xs: seq<(Kind, nat)>)
    requires CountsAtMost(xs, 20)
    ensures var t := Concat(EntryTexts(xs)); t == [] || KindOfGlyph(t[0]).Some?
    decreases |xs|
  {
    if xs != [] {
      assert EntryTexts(xs)[1..] == EntryTexts(xs[1..]);
      EntriesHead(xs[1..]);
      var k := xs[0].0;
      assert KindOfGlyph(KindGlyph(k)).Some? by { match k { case _ => } }
    }
  }

  lemma GlyphIsNotBlank(c: char)
    requires KindOfGlyph(c).Some?
    ensures c !in Blanks(Current) && !IsLineBreak(c) && c != 'な'
  {
  }

  /** No hand entry starts at the end of the line. */
  lemma NoHandItemAtLineEnd(d: Dialect, rest: string)
    requires rest == [] || IsLineBreak(rest[0])
    ensures HandItems(d, rest) == Parsed([], rest)
  {
    if rest != [] {
      LineBreakIsNotGlyph(rest[0]);
    }
    assert PieceKind(d, rest).None?;
  }

  lemma LineBreakIsNotGlyph(c: char)
    requires IsLineBreak(c)
    ensures KindOfGlyph(c).None? && c != '成' && c != '王'
  {
  }

  /** The written entries: the first one's text, then the others'. */
  lemma EntriesSplit(xs: seq<(Kind, nat)>, rest: string)
    requires xs != [] && CountsAtMost(xs, 20)
    ensures Concat(EntryTexts(xs)) + rest == EntryText(xs[0].0, xs[0].1) + (Concat(EntryTexts(xs[1..])) + rest)
  {
    assert EntryTexts(xs)[1..] == EntryTexts(xs[1..]);
  }

  lemma HandItemsStep(d: Dialect, s: string, item: (Kind, nat), afterItem: string, more: seq<(Kind, nat)>, rest: string)
    requires HandItem(d, s) == Some(Parsed(item, afterItem))
    requires HandItems(d, afterItem) == Parsed(more, rest)
    ensures HandItems(d, s) == Parsed([item] + more, rest)
  {
  }

  /** One written entry in front of entries that read back. */
  lemma HandEntriesCons(k: Kind, n: nat, tail: string, rest: string, more: seq<(Kind, nat)>)
    requires 1 <= n <= 18
    requires tail == [] || KindOfGlyph(tail[0]).Some?
    requires rest == [] || IsLineBreak(rest[0])
    requires HandItems(Current, tail + rest) == Parsed(more, rest)
    ensures HandItems(Current, EntryText(k, n) + (tail + rest)) == Parsed([(k, n)] + more, rest)
  {
    if tail != [] {
      GlyphIsNotBlank(tail[0]);
      assert (tail + rest)[0] == tail[0];
    }
    HandEntryRoundTrip(k, n, tail + rest);
    HandItemsStep(Current, EntryText(k, n) + (tail + rest), (k, n), tail + rest, more, rest);
  }

  /** The entries of a hand line read back as the non-zero entries, up to the line break. */
  lemma {:induction false} HandEntriesRoundTrip(xs: seq<(Kind, nat)>, rest: string)
    requires CountsAtMost(xs, 18)
    requires rest == [] || IsLineBreak(rest[0])
    ensures HandItems(Current, Concat(EntryTexts(xs)) + rest) == Parsed(Nonzero(xs), rest)
    decreases |xs|
  {
    if xs == [] {
      assert EntryTexts(xs) == [];
      assert Concat(EntryTexts(xs)) + rest == rest;
      NoHandItemAtLineEnd(Current, rest);
    } else {
      var tail := Concat(EntryTexts(xs[1..]));
      EntriesSplit(xs, rest);
      HandEntriesRoundTrip(xs[1..], rest);
      if xs[0].1 > 0 {
        EntriesHead(xs[1..]);
        HandEntriesCons(xs[0].0, xs[0].1, tail, rest, Nonzero(xs[1..]));
      } else {
        NonzeroSkips(xs);
        var head := EntryText(xs[0].0, xs[0].1);
        assert head == [];
        assert head + (tail + rest) == tail + rest;
      }
    }
  }

  lemma {:induction false} CountOfAppend(a: seq<(Kind, nat)>, b: seq<(Kind, nat)>, k: Kind)
    ensures CountOf(a + b, k) == CountOf(a, k) + CountOf(b, k)
    decreases |b|
  {
    if b != [] {
      assert (a + b)[..|a + b| - 1] == a + b[..|b| - 1];
      CountOfAppend(a, b[..|b| - 1], k);
    } else {
      assert a + b == a;
    }
  }

  lemma CountOfCons(xs: seq<(Kind, nat)>, k: Kind)
    requires xs != []
    ensures CountOf(xs, k) == (if xs[0].0 == k then xs[0].1 else 0) + CountOf(xs[1..], k)
  {
    assert xs == [xs[0]] + xs[1..];
    CountOfAppend([xs[0]], xs[1..], k);
    var one := [xs[0]];
    assert one[..|one| - 1] == xs[..0];
  }

  /** Dropping zero counts changes no kind's total. */
  lemma {:induction false} CountOfNonzero(xs: seq<(Kind, nat)>, k: Kind)
    ensures CountOf(Nonzero(xs), k) == CountOf(xs, k)
    decreases |xs|
  {
    if xs != [] {
      CountOfNonzero(xs[1..], k);
      CountOfCons(xs, k);
      var head := if xs[0].1 > 0 then [xs[0]] else [];
      CountOfAppend(head, Nonzero(xs[1..]), k);
      if head != [] {
        assert head[..|head| - 1] == xs[..0];
      }
    }
  }

  /** Each kind appears once in the writing order, with its count. */
  lemma CountOfHandOrder(h: Hand, k: Kind)
    requires IsHandKind(k)
    ensures CountOf(HandOrder(h), k) == HandCountOf(h, k)
  {
    var xs := HandOrder(h);
    CountOfCons(xs, k);
    CountOfCons(xs[1..], k);
    CountOfCons(xs[2..], k);
    CountOfCons(xs[3..], k);
    CountOfCons(xs[4..], k);
    CountOfCons(xs[5..], k);
    CountOfCons(xs[6..], k);
    assert xs[1..][1..] == xs[2..] && xs[2..][1..] == xs[3..] && xs[3..][1..] == xs[4..];
    assert xs[4..][1..] == xs[5..] && xs[5..][1..] == xs[6..] && xs[6..][1..] == xs[7..];
  }

  /** Two hands with the same count of every kind are equal. */
  lemma HandFromCounts(r: Hand, h: Hand)
    requires forall k | IsHandKind(k) :: HandCountOf(r, k) == HandCountOf(h, k)
    ensures r == h
  {
    assert HandCountOf(r, FU) == HandCountOf(h, FU) && HandCountOf(r, KY) == HandCountOf(h, KY);
    assert HandCountOf(r, KE) == HandCountOf(h, KE) && HandCountOf(r, GI) == HandCountOf(h, GI);
    assert HandCountOf(r, KI) == HandCountOf(h, KI) && HandCountOf(r, KA) == HandCountOf(h, KA);
    assert HandCountOf(r, HI) == HandCountOf(h, HI);
  }

  /** The written entries of a hand total its counts. */
  lemma EntriesCount(h: Hand, k: Kind)
    requires IsHandKind(k)
    ensures CountOf(Nonzero(HandOrder(h)), k) == HandCountOf(h, k)
  {
    CountOfNonzero(HandOrder(h), k);
    CountOfHandOrder(h, k);
  }

  /** Only the empty hand writes no entries. */
  lemma NoEntriesIffEmpty(h: Hand)
    ensures Nonzero(HandOrder(h)) == [] <==> h == EmptyHand()
  {
    if Nonzero(HandOrder(h)) == [] {
      forall k | IsHandKind(k) ensures HandCountOf(h, k) == HandCountOf(EmptyHand(), k) {
        EntriesCount(h, k);
      }
      HandFromCounts(h, EmptyHand());
    }
  }

  /** The summed entries of a written hand are that hand again. */
  lemma HandOfWrittenEntries(h: Hand)
    ensures HandOfItems(Nonzero(HandOrder(h))) == Some(h)
  {
    var items := Nonzero(HandOrder(h));
    forall i | 0 <= i < |items| ensures IsHandKind(items[i].0) {
      var j :| 0 <= j < 7 && HandOrder(h)[j] == items[i];
    }
    HandOfItemsSums(items);
    var r := HandOfItems(items).value;
    forall k | IsHandKind(k) ensures HandCountOf(r, k) == HandCountOf(h, k) {
      EntriesCount(h, k);
    }
    HandFromCounts(r, h);
  }

  predicate HandReadable(h: Hand)
  {
    CountsAtMost(HandOrder(h), 18)
  }

  lemma HandValueOf(d: Dialect, s: string, items: seq<(Kind, nat)>, rest: string, h: Hand)
    requires !("なし" <= s)
    requires HandItems(d, s) == Parsed(items, rest) && items != []
    requires HandOfItems(items) == Some(h)
    ensures InformationValueHand(d, s) == Some(Parsed(h, rest))
  {
  }

  /** A written hand value reads back as the same hand, for counts up to 18. */
  lemma HandValueRoundTrip(h: Hand, rest: string)
    requires HandReadable(h)
    requires rest == [] || IsLineBreak(rest[0])
    ensures InformationValueHand(Current, HandValueText(h) + rest) == Some(Parsed(h, rest))
  {
    if h == EmptyHand() {
      assert ("なし" + rest)[2..] == rest;
    } else {
      var t := HandText(h);
      HandOfWrittenEntries(h);
      NoEntriesIffEmpty(h);
      HandEntriesRoundTrip(HandOrder(h), rest);
      EntriesHead(HandOrder(h));
      GlyphIsNotBlank(t[0]);
      assert (t + rest)[0] == t[0];
      HandValueOf(Current, t + rest, Nonzero(HandOrder(h)), rest, h);
    }
  }

  // ---------------------------------------------------------------- board

  /** What a cell reads back as: the piece when colour and kind are both set, otherwise the empty cell. */
  function NormalCell(p: Piece): (r: Piece)
    ensures r == p || r == EmptyPiece()
    ensures r.color.Some? <==> r.kind.Some?
  {
    if p.color.Some? && p.kind.Some? then p else EmptyPiece()
  }

  /** Row i as the reader sees it: cell j is square board[8 - j][i]. */
  function NormalRow(b: Board, i: nat): (r: Row)
    requires i < 9
    ensures forall j | 0 <= j < 9 :: r[j] == NormalCell(b[8 - j][i])
  {
    seq(9, (j: int) requires 0 <= j < 9 => NormalCell(b[8 - j][i]))
  }

  function NormalRows(b: Board): (r: seq<Row>)
    ensures |r| == 9 && forall i | 0 <= i < 9 :: r[i] == NormalRow(b, i)
  {
    seq(9, (i: int) requires 0 <= i < 9 => NormalRow(b, i))
  }

  /** The board with every half-set cell cleared. */
  function NormalBoard(b: Board): (r: Board)
    ensures forall x, y | 0 <= x < 9 && 0 <= y < 9 :: r[x][y] == NormalCell(b[x][y])
  {
    seq(9, (x: int) requires 0 <= x < 9 => seq(9, (y: int) requires 0 <= y < 9 => NormalCell(b[x][y])))
  }

  lemma GlyphIsNotDot(k: Kind)
    ensures KindGlyph(k) != '・'
  {
  }

  /** A written cell reads back as the normalised piece, in either grammar. */
  lemma CellRoundTrip(d: Dialect, p: Piece, rest: string)
    ensures BoardPiece(d, CellText(p) + rest) == Some(Parsed(NormalCell(p), rest))
  {
    var s := CellText(p) + rest;
    if p.color.Some? && p.kind.Some? {
      GlyphIsNotDot(p.kind.value);
      assert s[1] == KindGlyph(p.kind.value);
      assert s[1..] == [KindGlyph(p.kind.value)] + rest;
      PieceKindOfNames(d, p.kind.value, rest);
    } else {
      assert s[2..] == rest;
    }
  }

  /** A text that reads back as one cell when r follows it. */
  ghost predicate ReadsCell(d: Dialect, text: string, p: Piece, r: string)
  {
    BoardPiece(d, text + r) == Some(Parsed(p, r))
  }

  /** Each text reads back as one cell, whatever follows it. */
  ghost predicate CellsRead(d: Dialect, parts: seq<string>, cells: seq<Piece>)
  {
    |parts| == |cells| && forall j, r | 0 <= j < |parts| :: ReadsCell(d, parts[j], cells[j], r)
  }

  lemma CellsReadEach(d: Dialect, parts: seq<string>, cells: seq<Piece>)
    requires CellsRead(d, parts, cells)
    ensures ReadsEach(PieceReader(d), parts, cells)
  {
    forall j, r | 0 <= j < |parts|
      ensures PieceReader(d)(parts[j] + r) == Some(Parsed(cells[j], r))
    {
      assert ReadsCell(d, parts[j], cells[j], r);
    }
  }

  /** The written cells of row i read back as the normalised cells. */
  lemma CellsRoundTrip(d: Dialect, b: Board, i: nat, rest: string)
    requires i < 9
    ensures BoardPieces(d, Concat(CellTexts(b, i)) + rest, 9) == Some(Parsed(NormalRow(b, i), rest))
  {
    forall j, r | 0 <= j < 9 ensures ReadsCell(d, CellTexts(b, i)[j], NormalRow(b, i)[j], r) {
      CellRoundTrip(d, b[8 - j][i], r);
    }
    CellsReadEach(d, CellTexts(b, i), NormalRow(b, i));
    RepeatedAll(PieceReader(d), CellTexts(b, i), NormalRow(b, i), Concat(CellTexts(b, i)) + rest, rest);
  }

  lemma RowTextParts(b: Board, i: nat, rest: string)
    requires i < 9
    ensures RowText(b, i) + rest == "|" + (Concat(CellTexts(b, i)) + ("|" + ([KanjiGlyph(i + 1)] + ("\n" + rest))))
  {
  }

  lemma BoardRowOf(d: Dialect, s: string, cells: string, row: Row, c: char, rest: string)
    requires s == "|" + (cells + ("|" + ([c] + ("\n" + rest))))
    requires BoardPieces(d, cells + ("|" + ([c] + ("\n" + rest))), 9) == Some(Parsed(row, "|" + ([c] + ("\n" + rest))))
    requires KanjiDigitOf(c).Some?
    ensures BoardRow(d, s) == Some(Parsed(row, rest))
  {
    assert s[1..] == cells + ("|" + ([c] + ("\n" + rest)));
    var close := "|" + ([c] + ("\n" + rest));
    assert close[1..] == [c] + ("\n" + rest);
    assert close[1..][1..] == "\n" + rest;
  }

  /** A written row reads back as the normalised row. */
  lemma RowRoundTrip(d: Dialect, b: Board, i: nat, rest: string)
    requires i < 9
    ensures BoardRow(d, RowText(b, i) + rest) == Some(Parsed(NormalRow(b, i), rest))
  {
    var c := KanjiGlyph(i + 1);
    RowTextParts(b, i, rest);
    CellsRoundTrip(d, b, i, "|" + ([c] + ("\n" + rest)));
    BoardRowOf(d, RowText(b, i) + rest, Concat(CellTexts(b, i)), NormalRow(b, i), c, rest);
  }

  /** A text that reads back as one row when r follows it. */
  ghost predicate ReadsRow(d: Dialect, text: string, row: Row, r: string)
  {
    BoardRow(d, text + r) == Some(Parsed(row, r))
  }

  /** Each text reads back as one row, whatever follows it. */
  ghost predicate RowsRead(d: Dialect, parts: seq<string>, rows: seq<Row>)
  {
    |parts| == |rows| && forall j, r | 0 <= j < |parts| :: ReadsRow(d, parts[j], rows[j], r)
  }

  lemma Regrouped(a: string, b: string, c: string, e: string, rest: string)
    ensures (a + "\n") + (b + "\n") + c + (e + "\n") + rest == a + ("\n" + (b + ("\n" + (c + (e + ("\n" + rest))))))
  {
  }

  lemma ParseBoardOf(d: Dialect, s: string, rowsText: string, rows: seq<Row>, rest: string)
    requires s == BoardHeader() + ("\n" + (BoardRule() + ("\n" + (rowsText + (BoardRule() + ("\n" + rest))))))
    requires BoardRows(d, rowsText + (BoardRule() + ("\n" + rest)), 9) == Some(Parsed(rows, BoardRule() + ("\n" + rest)))
    ensures ParseBoard(d, s) == Some(Parsed(BoardOfRows(rows), rest))
  {
    var afterRows := BoardRule() + ("\n" + rest);
    var afterTop := rowsText + afterRows;
    var afterHeader := BoardRule() + ("\n" + afterTop);
    TagOf(BoardHeader(), "\n" + afterHeader);
    LineEndingOf(afterHeader);
    TagOf(BoardRule(), "\n" + afterTop);
    LineEndingOf(afterTop);
    TagOf(BoardRule(), "\n" + rest);
    LineEndingOf(rest);
  }

  lemma NormalBoardOfRows(b: Board)
    ensures BoardOfRows(NormalRows(b)) == NormalBoard(b)
  {
    var l := BoardOfRows(NormalRows(b));
    var r := NormalBoard(b);
    forall x | 0 <= x < 9 ensures l[x] == r[x] {
      forall y | 0 <= y < 9 ensures l[x][y] == r[x][y] {
        assert l[8 - (8 - x)][y] == NormalRows(b)[y][8 - x];
      }
    }
  }

  lemma RowTextsRead(d: Dialect, b: Board)
    ensures RowsRead(d, RowTexts(b), NormalRows(b))
  {
    forall j, r | 0 <= j < 9 ensures ReadsRow(d, RowTexts(b)[j], NormalRows(b)[j], r) {
      RowRoundTrip(d, b, j, r);
    }
  }

  /** The nine written rows read back as the normalised rows. */
  lemma AllRowsRead(d: Dialect, b: Board, parts: seq<string>, rows: seq<Row>, s: string, rest: string)
    requires parts == RowTexts(b) && rows == NormalRows(b) && s == Concat(parts) + rest
    ensures BoardRows(d, s, 9) == Some(Parsed(rows, rest))
  {
    RowTextsRead(d, b);
    NineRowsRead(d, parts, rows, s, rest);
  }

  lemma NineRowsRead(d: Dialect, parts: seq<string>, rows: seq<Row>, s: string, rest: string)
    requires RowsRead(d, parts, rows) && |parts| == 9 && s == Concat(parts) + rest
    ensures BoardRows(d, s, 9) == Some(Parsed(rows, rest))
  {
    RowsReadEach(d, parts, rows);
    RepeatedAll(RowReader(d), parts, rows, s, rest);
  }

  lemma RowsReadEach(d: Dialect, parts: seq<string>, rows: seq<Row>)
    requires RowsRead(d, parts, rows)
    ensures ReadsEach(RowReader(d), parts, rows)
  {
    forall j, r | 0 <= j < |parts|
      ensures RowReader(d)(parts[j] + r) == Some(Parsed(rows[j], r))
    {
      assert ReadsRow(d, parts[j], rows[j], r);
    }
  }

  lemma BoardReads(d: Dialect, b: Board, s: string, rest: string)
    requires s == BoardText(b) + rest
    ensures ParseBoard(d, s) == Some(Parsed(NormalBoard(b), rest))
  {
    var afterRows := BoardRule() + ("\n" + rest);
    AllRowsRead(d, b, RowTexts(b), NormalRows(b), Concat(RowTexts(b)) + afterRows, afterRows);
    Regrouped(BoardHeader(), BoardRule(), Concat(RowTexts(b)), BoardRule(), rest);
    ParseBoardOf(d, s, Concat(RowTexts(b)), NormalRows(b), rest);
    NormalBoardOfRows(b);
  }

  /** The written diagram reads back as the board, with half-set cells cleared. */
  lemma BoardRoundTrip(d: Dialect, b: Board, rest: string)
    ensures ParseBoard(d, BoardText(b) + rest) == Some(Parsed(NormalBoard(b), rest))
  {
    BoardReads(d, b, BoardText(b) + rest, rest);
  }

  // --------------------------------------------------------- header lines

  lemma SkipCommentsNone(s: string)
    requires s == [] || s[0] != '#'
    ensures SkipComments(s) == s
  {
  }

  lemma InformationListStep(d: Dialect, s: string, info: Information, afterLine: string, more: seq<Information>, rest: string)
    requires s == [] || s[0] != '#'
    requires InformationLine(d, s) == Some(Parsed(info, afterLine))
    requires InformationList(d, afterLine) == Parsed(more, rest)
    ensures InformationList(d, s) == Parsed([info] + more, rest)
  {
    SkipCommentsNone(s);
  }

  lemma InformationListStop(d: Dialect, s: string)
    requires s == [] || s[0] != '#'
    requires InformationLine(d, s).None?
    ensures InformationList(d, s) == Parsed([], s)
  {
    SkipCommentsNone(s);
  }

  lemma PresetLineOf(d: Dialect, s: string, t: string, p: Preset, rest: string)
    requires Tag("手合割：", s) == Some(t)
    requires PresetOfName(t) == Some(Parsed(p, "\n" + rest))
    ensures InformationLinePreset(d, s) == Some(Parsed(InfoPreset(p), rest))
  {
    SkipNone(Blanks(d), "\n" + rest);
    LineEndingOf(rest);
  }

  lemma InformationLineIsPreset(d: Dialect, s: string, x: Parsed<Information>)
    requires InformationLinePreset(d, s) == Some(x)
    ensures InformationLine(d, s) == Some(x)
  {
  }

  lemma Regrouped3(a: string, b: string, c: string, rest: string)
    ensures a + b + c + rest == a + (b + (c + rest))
  {
  }

  lemma PresetLineReads(d: Dialect, p: Preset, s: string, rest: string)
    requires s == "手合割：" + (PresetName(p) + ("\n" + rest))
    ensures InformationLinePreset(d, s) == Some(Parsed(InfoPreset(p), rest))
  {
    var t := PresetName(p) + ("\n" + rest);
    TagOf("手合割：", t);
    PresetOfNameRoundTrip(p, "\n" + rest);
    PresetLineOf(d, s, t, p, rest);
  }

  /** The written preset line reads back as that preset, in either grammar. */
  lemma PresetLineRoundTrip(d: Dialect, p: Preset, s: string, rest: string)
    requires s == PresetLineText(p) + rest
    ensures InformationLine(d, s) == Some(Parsed(InfoPreset(p), rest))
  {
    Regrouped3("手合割：", PresetName(p), "\n", rest);
    PresetLineReads(d, p, s, rest);
    InformationLineIsPreset(d, s, Parsed(InfoPreset(p), rest));
  }

  /** The name a hand line is written with: 先手 for Black, 後手 for White. */
  function OwnerName(c: Color): (s: string)
    ensures |s| == 2 && s[1] == '手'
  {
    if c == Black then "先手" else "後手"
  }

  function HandInformation(c: Color, h: Hand): (i: Information)
    ensures i.HandBlack? || i.HandWhite?
    ensures i.hand == h
  {
    if c == Black then HandBlack(h) else HandWhite(h)
  }

  lemma HandLineOf(c: Color, h: Hand, s: string, value: string, rest: string)
    requires s == OwnerName(c) + ("の持駒：" + value)
    requires InformationValueHand(Current, value) == Some(Parsed(h, "\n" + rest))
    ensures InformationLineHands(Current, s) == Some(Parsed(HandInformation(c, h), rest))
  {
    HandOwnerLabels(Current, "の持駒：" + value);
    assert HandOwner(Current, s) == Some(Parsed(c, "の持駒：" + value));
    TagOf("の持駒：", value);
    LineEndingOf(rest);
  }

  /** A written hand line reads back as that player's hand. */
  lemma HandLineRoundTrip(c: Color, h: Hand, s: string, rest: string)
    requires HandReadable(h)
    requires s == HandLineText(OwnerName(c), h) + rest
    ensures InformationLine(Current, s) == Some(Parsed(HandInformation(c, h), rest))
  {
    var value := HandValueText(h) + ("\n" + rest);
    assert s == OwnerName(c) + ("の持駒：" + value);
    assert s[0] != '手';
    HandValueRoundTrip(h, "\n" + rest);
    HandLineOf(c, h, s, value, rest);
  }

  predicate NoLineBreaks(t: string)
  {
    forall i | 0 <= i < |t| :: !IsLineBreak(t[i])
  }

  /** The keys whose lines the grammar reads as something other than a key-value pair. */
  function ReservedKeys(): set<string>
  {
    {"手合割", "先手の持駒", "後手の持駒", "下手の持駒", "上手の持駒"}
  }

  /** A key the header writer can write so that the line reads back as that pair. */
  predicate ValidKey(k: string)
  {
    k != [] && k[0] != '#' && (forall i | 0 <= i < |k| :: IsKeyChar(k[i])) && k !in ReservedKeys()
  }

  lemma {:induction false} KeyLengthOf(k: string, t: string)
    requires forall i | 0 <= i < |k| :: IsKeyChar(k[i])
    requires t != [] && !IsKeyChar(t[0])
    ensures KeyLength(k + t) == |k|
    decreases |k|
  {
    if k != [] {
      assert (k + t)[1..] == k[1..] + t;
      KeyLengthOf(k[1..], t);
    }
  }

  /** A line starting with key k and `：` starts with name + `：` only when k is that name. */
  lemma NotNamedLine(k: string, name: string, t: string)
    requires forall i | 0 <= i < |k| :: IsKeyChar(k[i])
    requires forall i | 0 <= i < |name| :: name[i] != '：'
    requires k != name
    ensures !(name + "：" <= k + ("：" + t))
  {
    var s := k + ("：" + t);
    var prefix := name + "：";
    if |k| < |name| {
      assert s[|k|] == '：';
      assert prefix[|k|] == name[|k|] != '：';
    } else if |k| > |name| {
      assert s[|name|] == k[|name|] != '：';
      assert prefix[|name|] == '：';
    } else {
      var i :| 0 <= i < |k| && k[i] != name[i];
      assert s[i] == k[i];
      assert prefix[i] == name[i];
    }
  }

  lemma PrefixJoin(a: string, b: string, s: string)
    requires a <= s && b <= s[|a|..]
    ensures a + b <= s
  {
  }

  lemma HandLineHead(d: Dialect, s: string)
    requires InformationLineHands(d, s).Some?
    ensures HandOwner(d, s).Some? && "の持駒：" <= HandOwner(d, s).value.rest
  {
  }

  /** A hand line starts with one of the four owner names and `の持駒：`. */
  lemma HandLinePrefix(s: string)
    requires InformationLineHands(Current, s).Some?
    ensures "先手の持駒：" <= s || "後手の持駒：" <= s || "下手の持駒：" <= s || "上手の持駒：" <= s
  {
    HandLineHead(Current, s);
    OwnerPrefix(s, HandOwner(Current, s).value);
  }

  lemma OwnerPrefix(s: string, owned: Parsed<Color>)
    requires HandOwner(Current, s) == Some(owned) && "の持駒：" <= owned.rest
    ensures "先手の持駒：" <= s || "後手の持駒：" <= s || "下手の持駒：" <= s || "上手の持駒：" <= s
  {
    var owner := if s[0] == '先' then "先手" else if s[0] == '後' then "後手" else if s[0] == '下' then "下手" else "上手";
    assert owner <= s && owned.rest == s[2..];
    PrefixJoin(owner, "の持駒：", s);
  }

  lemma NotPresetLine(k: string, t: string)
    requires ValidKey(k)
    ensures InformationLinePreset(Current, k + ("：" + t)).None?
  {
    NotNamedLine(k, "手合割", t);
  }

  lemma NotHandLine(k: string, t: string, s: string)
    requires ValidKey(k) && s == k + ("：" + t)
    ensures InformationLineHands(Current, s).None?
  {
    NotNamedLine(k, "先手の持駒", t);
    NotNamedLine(k, "後手の持駒", t);
    NotNamedLine(k, "下手の持駒", t);
    NotNamedLine(k, "上手の持駒", t);
    if InformationLineHands(Current, s).Some? {
      HandLinePrefix(s);
    }
  }

  lemma KeyValueLineOf(k: string, v: string, s: string, rest: string)
    requires ValidKey(k) && NoLineBreaks(v)
    requires s == k + ("：" + (v + "\n" + rest))
    ensures InformationLineKeyValue(s) == Some(Parsed(KeyValue(k, v), rest))
  {
    var t := v + "\n" + rest;
    KeyLengthOf(k, "：" + t);
    assert s[..|k|] == k;
    assert s[|k|..] == "：" + t;
    TagOf("：", t);
    LineOf(v, rest);
  }

  lemma InformationLineIsKeyValue(d: Dialect, s: string)
    requires InformationLinePreset(d, s).None? && InformationLineHands(d, s).None?
    ensures InformationLine(d, s) == InformationLineKeyValue(s)
  {
  }

  /** A key-value line with a valid key and a one-line value reads back as that pair. */
  lemma KeyValueLineRoundTrip(k: string, v: string, s: string, rest: string)
    requires ValidKey(k) && NoLineBreaks(v)
    requires s == k + "：" + v + "\n" + rest
    ensures InformationLine(Current, s) == Some(Parsed(KeyValue(k, v), rest))
  {
    var t := v + "\n" + rest;
    assert s == k + ("：" + t);
    NotPresetLine(k, t);
    NotHandLine(k, t, s);
    KeyValueLineOf(k, v, s, rest);
    InformationLineIsKeyValue(Current, s);
  }

  /** The diagram's first line is not a header line: it holds no `：`. */
  lemma BoardNotInformation(s: string, x: string)
    requires s == BoardHeader() + ("\n" + x)
    ensures s[0] != '#' && InformationLine(Current, s).None?
  {
    assert s[0] == ' ';
    KeyLengthOf(BoardHeader(), "\n" + x);
    assert s[|BoardHeader()|..] == "\n" + x;
  }

  // ------------------------------------------------------- header blocks

  /** A text that reads back as one header line when r follows it. */
  ghost predicate ReadsLine(line: string, info: Information, r: string)
  {
    InformationLine(Current, line + r) == Some(Parsed(info, r))
  }

  /** A written header line: not a comment, and read back as info whatever follows. */
  ghost predicate LineReads(line: string, info: Information)
  {
    line != [] && line[0] != '#' && forall r :: ReadsLine(line, info, r)
  }

  ghost predicate LinesRead(lines: seq<string>, infos: seq<Information>)
  {
    |lines| == |infos| && forall j | 0 <= j < |lines| :: LineReads(lines[j], infos[j])
  }

  lemma SliceCons<T>(xs: seq<T>, m: nat, more: seq<T>)
    requires m < |xs|
    ensures xs[m..] + more == [xs[m]] + (xs[m + 1..] + more)
  {
    assert xs[m..] == [xs[m]] + xs[m + 1..];
  }

  lemma ListStepAt(lines: seq<string>, infos: seq<Information>, m: nat, s: string, afterLine: string, more: seq<Information>, rest: string)
    requires LinesRead(lines, infos) && m < |lines|
    requires s == lines[m] + afterLine
    requires InformationList(Current, afterLine) == Parsed(more, rest)
    ensures InformationList(Current, s) == Parsed([infos[m]] + more, rest)
  {
    assert LineReads(lines[m], infos[m]);
    assert ReadsLine(lines[m], infos[m], afterLine);
    assert s[0] == lines[m][0];
    InformationListStep(Current, s, infos[m], afterLine, more, rest);
  }

  /** Header lines joined from index m on, then a tail, read back as their informations and the tail's. */
  lemma {:induction false} ListOf(lines: seq<string>, infos: seq<Information>, m: nat, s: string, tail: string, more: seq<Information>, rest: string)
    requires LinesRead(lines, infos) && m <= |lines|
    requires s == Concat(lines[m..]) + tail
    requires InformationList(Current, tail) == Parsed(more, rest)
    ensures InformationList(Current, s) == Parsed(infos[m..] + more, rest)
    decreases |lines| - m
  {
    if m == |lines| {
      assert s == tail;
      assert infos[m..] + more == more;
    } else {
      ConcatFrom(lines, m);
      var after := Concat(lines[m + 1..]) + tail;
      AppendAssoc(lines[m], Concat(lines[m + 1..]), tail);
      ListOf(lines, infos, m + 1, after, tail, more, rest);
      ListStepAt(lines, infos, m, s, after, infos[m + 1..] + more, rest);
      SliceCons(infos, m, more);
    }
  }

  /** All the header lines, then a tail. */
  lemma ListAll(lines: seq<string>, infos: seq<Information>, s: string, tail: string, more: seq<Information>, rest: string)
    requires LinesRead(lines, infos)
    requires s == Concat(lines) + tail
    requires InformationList(Current, tail) == Parsed(more, rest)
    ensures InformationList(Current, s) == Parsed(infos + more, rest)
  {
    assert lines[0..] == lines && infos[0..] == infos;
    ListOf(lines, infos, 0, s, tail, more, rest);
  }

  lemma AppendNil<T>(xs: seq<T>)
    ensures xs + [] == xs
  {
  }

  /** The keys and values the header writer can write so that they read back. */
  ghost predicate HeaderReadable(header: map<string, string>)
  {
    forall k | k in header :: ValidKey(k) && NoLineBreaks(header[k])
  }

  function HeaderLines(order: seq<string>, header: map<string, string>): (lines: seq<string>)
    requires forall i | 0 <= i < |order| :: order[i] in header
    ensures |lines| == |order| && forall i | 0 <= i < |order| :: lines[i] == order[i] + "：" + header[order[i]] + "\n"
  {
    seq(|order|, (i: int) requires 0 <= i < |order| => order[i] + "：" + header[order[i]] + "\n")
  }

  function HeaderInfos(order: seq<string>, header: map<string, string>): (infos: seq<Information>)
    requires forall i | 0 <= i < |order| :: order[i] in header
    ensures |infos| == |order| && forall i | 0 <= i < |order| :: infos[i] == KeyValue(order[i], header[order[i]])
  {
    seq(|order|, (i: int) requires 0 <= i < |order| => KeyValue(order[i], header[order[i]]))
  }

  lemma {:induction false} HeaderTextLines(order: seq<string>, header: map<string, string>)
    requires forall i | 0 <= i < |order| :: order[i] in header
    ensures HeaderText(order, header) == Concat(HeaderLines(order, header))
    decreases |order|
  {
    if order != [] {
      assert HeaderLines(order, header)[1..] == HeaderLines(order[1..], header);
      HeaderTextLines(order[1..], header);
    }
  }

  lemma HeaderLinesRead(order: seq<string>, header: map<string, string>)
    requires forall i | 0 <= i < |order| :: order[i] in header
    requires HeaderReadable(header)
    ensures LinesRead(HeaderLines(order, header), HeaderInfos(order, header))
  {
    var lines := HeaderLines(order, header);
    var infos := HeaderInfos(order, header);
    forall j | 0 <= j < |lines| ensures LineReads(lines[j], infos[j]) {
      var k := order[j];
      forall r ensures ReadsLine(lines[j], infos[j], r) {
        KeyValueLineRoundTrip(k, header[k], lines[j] + r, r);
      }
      assert lines[j][0] == k[0];
    }
  }

  lemma CollectedSnoc(xs: seq<Information>, x: Information)
    ensures Collected(xs + [x]) == Applied(Collected(xs), x)
  {
    assert (xs + [x])[..|xs + [x]| - 1] == xs;
  }

  /** The header restricted to the first n keys of an order. */
  function HeaderPrefix(order: seq<string>, header: map<string, string>, n: nat): (m: map<string, string>)
    requires forall i | 0 <= i < |order| :: order[i] in header
    requires n <= |order|
    ensures forall k :: k in m <==> k in order[..n]
    ensures forall k | k in m :: m[k] == header[k]
  {
    map k | k in order[..n] :: header[k]
  }

  lemma HeaderPrefixSnoc(order: seq<string>, header: map<string, string>, n: nat)
    requires forall i | 0 <= i < |order| :: order[i] in header
    requires 0 < n <= |order|
    ensures HeaderPrefix(order, header, n - 1)[order[n - 1] := header[order[n - 1]]] == HeaderPrefix(order, header, n)
  {
    assert order[..n] == order[..n - 1] + [order[n - 1]];
  }

  lemma HeaderInfosSnoc(order: seq<string>, header: map<string, string>, n: nat)
    requires forall i | 0 <= i < |order| :: order[i] in header
    requires 0 < n <= |order|
    ensures Collected(HeaderInfos(order, header)[..n]) == Applied(Collected(HeaderInfos(order, header)[..n - 1]), KeyValue(order[n - 1], header[order[n - 1]]))
  {
    var infos := HeaderInfos(order, header);
    assert infos[..n] == infos[..n - 1] + [infos[n - 1]];
    CollectedSnoc(infos[..n - 1], infos[n - 1]);
  }

  /** The key-value lines of the first n keys set exactly those keys, and nothing else. */
  lemma {:induction false} CollectedHeaderPrefix(order: seq<string>, header: map<string, string>, n: nat)
    requires forall i | 0 <= i < |order| :: order[i] in header
    requires n <= |order|
    ensures Collected(HeaderInfos(order, header)[..n]) == InformationData(None, [EmptyHand(), EmptyHand()], HeaderPrefix(order, header, n))
    decreases n
  {
    if n == 0 {
      assert HeaderInfos(order, header)[..n] == [];
      assert HeaderPrefix(order, header, n) == map[];
    } else {
      CollectedHeaderPrefix(order, header, n - 1);
      HeaderInfosSnoc(order, header, n);
      HeaderPrefixSnoc(order, header, n);
    }
  }

  lemma HeaderPrefixAll(order: seq<string>, header: map<string, string>)
    requires IsOrdering(order, header.Keys)
    ensures HeaderPrefix(order, header, |order|) == header
  {
    assert order[..|order|] == order;
  }

  /** Header lines written in any ordering of the keys collect to the header itself. */
  lemma CollectedHeader(order: seq<string>, header: map<string, string>)
    requires IsOrdering(order, header.Keys)
    ensures Collected(HeaderInfos(order, header)) == InformationData(None, [EmptyHand(), EmptyHand()], header)
  {
    CollectedHeaderPrefix(order, header, |order|);
    assert HeaderInfos(order, header)[..|order|] == HeaderInfos(order, header);
    HeaderPrefixAll(order, header);
  }

  // ------------------------------------------------------------- records

  /** What may follow the header part so that the reader stops there: no header line and no diagram. */
  ghost predicate EndsHeader(rest: string)
  {
    InformationList(Current, rest) == Parsed([], rest) && ParseBoard(Current, rest).None?
  }

  lemma EmptyEndsHeader()
    ensures EndsHeader("")
  {
    assert SkipComments("") == "";
  }

  /** The hands of an initial position given as data fit the numerals that read back. */
  predicate InitialReadable(initial: Option<Initial>, omitHirate: bool)
  {
    InitialWritable(initial, omitHirate) &&
    (initial.Some? && initial.value.data.Some? ==>
      HandReadable(initial.value.data.value.hands[0]) && HandReadable(initial.value.data.value.hands[1]))
  }

  /**
   * The initial position the reader gives back for what the writer wrote:
   * Hirate when nothing was written, the preset itself when only its name was
   * written, and for data the "other" preset with Black to move, the board with
   * half-set cells cleared, and the same hands.
   */
  function ReadBack(initial: Option<Initial>): (r: Initial)
    ensures initial.None? ==> r == Initial(PresetHirate, None)
    ensures initial.Some? && initial.value.data.None? ==> r == initial.value
    ensures initial.Some? && initial.value.data.Some? ==>
      r.preset == PresetOther && r.data.Some? &&
      r.data.value.color == Black && r.data.value.hands == initial.value.data.value.hands
  {
    if initial.None? then Initial(PresetHirate, None)
    else if initial.value.data.None? then initial.value
    else
      var data := initial.value.data.value;
      Initial(PresetOther, Some(StateFormat(Black, NormalBoard(data.board), data.hands)))
  }

  lemma ConcatNilBefore(rest: string)
    ensures Concat([]) + rest == rest
  {
  }

  lemma ConcatOne(a: string)
    ensures Concat([a]) == a
  {
    assert [a][1..] == [];
  }

  lemma ConcatTwo(a: string, b: string)
    ensures Concat([a, b]) == a + b
  {
    assert [a, b][1..] == [b];
    ConcatOne(b);
  }

  lemma PresetLineIsRead(p: Preset)
    ensures LineReads(PresetLineText(p), InfoPreset(p))
  {
    forall r ensures ReadsLine(PresetLineText(p), InfoPreset(p), r) {
      PresetLineRoundTrip(Current, p, PresetLineText(p) + r, r);
    }
  }

  lemma HandLineIsRead(c: Color, h: Hand)
    requires HandReadable(h)
    ensures LineReads(HandLineText(OwnerName(c), h), HandInformation(c, h))
  {
    forall r ensures ReadsLine(HandLineText(OwnerName(c), h), HandInformation(c, h), r) {
      HandLineRoundTrip(c, h, HandLineText(OwnerName(c), h) + r, r);
    }
  }

  /** A record's header part with its moves cut off, read step by step. */
  lemma ParseWithoutMovesOf(s: string, infos1: seq<Information>, afterInfo: string, board: Option<Board>, afterBoard: string,
                            infos2: seq<Information>, rest: string)
    requires InformationList(Current, s) == Parsed(infos1, afterInfo)
    requires board.Some? ==> ParseBoard(Current, afterInfo) == Some(Parsed(board.value, afterBoard))
    requires board.None? ==> ParseBoard(Current, afterInfo).None? && afterBoard == afterInfo
    requires InformationList(Current, afterBoard) == Parsed(infos2, rest)
    ensures var info := Merged(Collected(infos1), Collected(infos2));
      ParseWithoutMoves(s) == Parsed(JsonKifuFormat(info.header, Some(InitialOfInformation(info, board)), []), rest)
  {
  }

  lemma MergedNothing(x: InformationData)
    ensures Merged(x, NoInformation()) == x
  {
    var m := Merged(x, NoInformation());
    assert m.hands[0] == x.hands[0] && m.hands[1] == x.hands[1];
  }

  lemma MergedBlackHand(x: InformationData, h: Hand)
    ensures Merged(x, Applied(NoInformation(), HandBlack(h))) == x.(hands := [MergedHand(x.hands[0], h), x.hands[1]])
  {
    var m := Merged(x, Applied(NoInformation(), HandBlack(h)));
    assert m.hands[1] == x.hands[1];
  }

  /** Key-value lines, then other header lines, read back up to a tail that holds no header line. */
  lemma HeaderBlockOf(header: map<string, string>, order: seq<string>, lines: seq<string>, infos: seq<Information>,
                      s: string, tail: string)
    requires HeaderReadable(header) && IsOrdering(order, header.Keys)
    requires LinesRead(lines, infos)
    requires s == HeaderText(order, header) + (Concat(lines) + tail)
    requires InformationList(Current, tail) == Parsed([], tail)
    ensures InformationList(Current, s) == Parsed(HeaderInfos(order, header) + infos, tail)
  {
    var initialPart := Concat(lines) + tail;
    ListAll(lines, infos, initialPart, tail, [], tail);
    AppendNil(infos);
    HeaderTextLines(order, header);
    HeaderLinesRead(order, header);
    ListAll(HeaderLines(order, header), HeaderInfos(order, header), s, initialPart, infos, tail);
  }

  /** A diagram is not a header line, so the header lines stop in front of it. */
  lemma BoardStopsHeader(b: Board, s: string, x: string)
    requires s == BoardText(b) + x
    ensures InformationList(Current, s) == Parsed([], s)
  {
    var y := (BoardRule() + "\n") + Concat(RowTexts(b)) + (BoardRule() + "\n") + x;
    Regrouped4(BoardHeader(), BoardRule() + "\n", Concat(RowTexts(b)), BoardRule() + "\n", x);
    BoardNotInformation(s, y);
    InformationListStop(Current, s);
  }

  lemma Regrouped4(a: string, b: string, c: string, e: string, x: string)
    ensures (a + "\n") + b + c + e + x == a + ("\n" + (b + c + e + x))
  {
  }

  lemma Regrouped5(a: string, b: string, c: string, d: string, e: string, f: string)
    ensures a + (b + c + d + e) + f == a + ((b + c) + (d + (e + f)))
  {
  }

  /** The record read step by step, as it comes out. */
  lemma ParseWithoutMovesIs(s: string, infos1: seq<Information>, afterInfo: string, board: Option<Board>, afterBoard: string,
                            infos2: seq<Information>, rest: string, info: InformationData, initial: Initial)
    requires InformationList(Current, s) == Parsed(infos1, afterInfo)
    requires board.Some? ==> ParseBoard(Current, afterInfo) == Some(Parsed(board.value, afterBoard))
    requires board.None? ==> ParseBoard(Current, afterInfo).None? && afterBoard == afterInfo
    requires InformationList(Current, afterBoard) == Parsed(infos2, rest)
    requires Merged(Collected(infos1), Collected(infos2)) == info
    requires InitialOfInformation(info, board) == initial
    ensures ParseWithoutMoves(s) == Parsed(JsonKifuFormat(info.header, Some(initial), []), rest)
  {
    ParseWithoutMovesOf(s, infos1, afterInfo, board, afterBoard, infos2, rest);
  }

  /** A header with nothing written for the initial position reads back with Hirate. */
  lemma RecordWithoutInitial(header: map<string, string>, order: seq<string>, s: string, rest: string)
    requires HeaderReadable(header) && IsOrdering(order, header.Keys)
    requires EndsHeader(rest)
    requires s == HeaderText(order, header) + rest
    ensures ParseWithoutMoves(s) == Parsed(JsonKifuFormat(header, Some(Initial(PresetHirate, None)), []), rest)
  {
    var infos := HeaderInfos(order, header);
    ConcatNilBefore(rest);
    HeaderBlockOf(header, order, [], [], s, rest);
    AppendNil(infos);
    CollectedHeader(order, header);
    var x := Collected(infos);
    MergedWithNothing(x);
    ParseWithoutMovesIs(s, infos, rest, None, rest, [], rest, x, Initial(PresetHirate, None));
  }

  lemma MergedWithNothing(x: InformationData)
    ensures Merged(x, Collected([])) == x
  {
    MergedNothing(x);
  }

  /** A header followed by a preset line reads back with that preset. */
  lemma RecordWithPreset(header: map<string, string>, order: seq<string>, p: Preset, s: string, rest: string)
    requires HeaderReadable(header) && IsOrdering(order, header.Keys)
    requires EndsHeader(rest)
    requires s == HeaderText(order, header) + PresetLineText(p) + rest
    ensures ParseWithoutMoves(s) == Parsed(JsonKifuFormat(header, Some(Initial(p, None)), []), rest)
  {
    var infos := HeaderInfos(order, header) + [InfoPreset(p)];
    var line := PresetLineText(p);
    PresetLineIsRead(p);
    assert LinesRead([line], [InfoPreset(p)]);
    ConcatOne(line);
    AppendAssoc(HeaderText(order, header), line, rest);
    HeaderBlockOf(header, order, [line], [InfoPreset(p)], s, rest);
    PresetCollected(order, header, p);
    var x := Collected(infos);
    MergedWithNothing(x);
    ParseWithoutMovesIs(s, infos, rest, None, rest, [], rest, x, Initial(p, None));
  }

  lemma PresetCollected(order: seq<string>, header: map<string, string>, p: Preset)
    requires IsOrdering(order, header.Keys)
    ensures Collected(HeaderInfos(order, header) + [InfoPreset(p)]) == InformationData(Some(p), [EmptyHand(), EmptyHand()], header)
  {
    CollectedSnoc(HeaderInfos(order, header), InfoPreset(p));
    CollectedHeader(order, header);
  }

  /** The header lines in front of a written position: the header's, the preset line and White's hand. */
  lemma DataHeaderList(header: map<string, string>, order: seq<string>, data: StateFormat, s: string, tail: string)
    requires HeaderReadable(header) && IsOrdering(order, header.Keys)
    requires HandReadable(data.hands[1])
    requires s == HeaderText(order, header) + (PresetLineText(PresetOther) + HandLineText("後手", data.hands[1]) + tail)
    requires InformationList(Current, tail) == Parsed([], tail)
    ensures InformationList(Current, s) ==
      Parsed(HeaderInfos(order, header) + [InfoPreset(PresetOther), HandWhite(data.hands[1])], tail)
  {
    var pl := PresetLineText(PresetOther);
    var wl := HandLineText(OwnerName(White), data.hands[1]);
    PresetLineIsRead(PresetOther);
    HandLineIsRead(White, data.hands[1]);
    var lines := [pl, wl];
    var infos := [InfoPreset(PresetOther), HandWhite(data.hands[1])];
    assert LinesRead(lines, infos);
    ConcatTwo(pl, wl);
    HeaderBlockOf(header, order, lines, infos, s, tail);
  }

  /** What the header lines in front of a written position collect to. */
  lemma DataHeaderCollected(header: map<string, string>, order: seq<string>, h: Hand)
    requires IsOrdering(order, header.Keys)
    ensures Collected(HeaderInfos(order, header) + [InfoPreset(PresetOther), HandWhite(h)]) ==
      InformationData(Some(PresetOther), [EmptyHand(), h], header)
  {
    var infos := HeaderInfos(order, header);
    assert infos + [InfoPreset(PresetOther), HandWhite(h)] == (infos + [InfoPreset(PresetOther)]) + [HandWhite(h)];
    CollectedSnoc(infos + [InfoPreset(PresetOther)], HandWhite(h));
    CollectedSnoc(infos, InfoPreset(PresetOther));
    CollectedHeader(order, header);
  }

  /** Black's hand line after the diagram, read as the only trailing header line. */
  lemma BlackHandList(h: Hand, s: string, rest: string)
    requires HandReadable(h)
    requires s == HandLineText("先手", h) + rest
    requires InformationList(Current, rest) == Parsed([], rest)
    ensures InformationList(Current, s) == Parsed([HandBlack(h)], rest)
  {
    var line := HandLineText(OwnerName(Black), h);
    HandLineIsRead(Black, h);
    assert LinesRead([line], [HandBlack(h)]);
    ConcatOne(line);
    ListAll([line], [HandBlack(h)], s, rest, [], rest);
    AppendNil([HandBlack(h)]);
  }

  /** The lines around a written diagram: before it, the diagram itself, and Black's hand after it. */
  lemma DataLists(header: map<string, string>, order: seq<string>, data: StateFormat, s: string, tail: string,
                  afterBoard: string, rest: string)
    requires HeaderReadable(header) && IsOrdering(order, header.Keys)
    requires HandFits(data.hands[0]) && HandFits(data.hands[1])
    requires HandReadable(data.hands[0]) && HandReadable(data.hands[1])
    requires EndsHeader(rest)
    requires afterBoard == HandLineText("先手", data.hands[0]) + rest
    requires tail == BoardText(data.board) + afterBoard
    requires s == HeaderText(order, header) + InitialDataText(data) + rest
    ensures InformationList(Current, s) ==
      Parsed(HeaderInfos(order, header) + [InfoPreset(PresetOther), HandWhite(data.hands[1])], tail)
    ensures ParseBoard(Current, tail) == Some(Parsed(NormalBoard(data.board), afterBoard))
    ensures InformationList(Current, afterBoard) == Parsed([HandBlack(data.hands[0])], rest)
  {
    Regrouped5(HeaderText(order, header), PresetLineText(PresetOther), HandLineText("後手", data.hands[1]),
      BoardText(data.board), HandLineText("先手", data.hands[0]), rest);
    BoardStopsHeader(data.board, tail, afterBoard);
    DataHeaderList(header, order, data, s, tail);
    BoardRoundTrip(Current, data.board, afterBoard);
    BlackHandList(data.hands[0], afterBoard, rest);
  }

  /** The lines around a written diagram collect to the "other" preset and the two hands. */
  lemma DataCollected(header: map<string, string>, order: seq<string>, hands: Hands)
    requires IsOrdering(order, header.Keys)
    ensures Merged(Collected(HeaderInfos(order, header) + [InfoPreset(PresetOther), HandWhite(hands[1])]),
      Collected([HandBlack(hands[0])])) == InformationData(Some(PresetOther), hands, header)
  {
    DataHeaderCollected(header, order, hands[1]);
    BlackHandCollected(hands[0]);
    var x := InformationData(Some(PresetOther), [EmptyHand(), hands[1]], header);
    MergedBlackHand(x, hands[0]);
    assert [MergedHand(EmptyHand(), hands[0]), hands[1]] == hands;
  }

  lemma BlackHandCollected(h: Hand)
    ensures Collected([HandBlack(h)]) == Applied(NoInformation(), HandBlack(h))
  {
    assert [] + [HandBlack(h)] == [HandBlack(h)];
    CollectedSnoc([], HandBlack(h));
  }

  /** A header followed by a written position reads back as the "other" preset with that board and those hands. */
  lemma RecordWithData(header: map<string, string>, order: seq<string>, data: StateFormat, s: string, rest: string)
    requires HeaderReadable(header) && IsOrdering(order, header.Keys)
    requires HandFits(data.hands[0]) && HandFits(data.hands[1])
    requires HandReadable(data.hands[0]) && HandReadable(data.hands[1])
    requires EndsHeader(rest)
    requires s == HeaderText(order, header) + InitialDataText(data) + rest
    ensures ParseWithoutMoves(s) ==
      Parsed(JsonKifuFormat(header, Some(Initial(PresetOther, Some(StateFormat(Black, NormalBoard(data.board), data.hands)))), []), rest)
  {
    var afterBoard := HandLineText("先手", data.hands[0]) + rest;
    var tail := BoardText(data.board) + afterBoard;
    DataLists(header, order, data, s, tail, afterBoard, rest);
    DataCollected(header, order, data.hands);
    var infos := HeaderInfos(order, header) + [InfoPreset(PresetOther), HandWhite(data.hands[1])];
    var info := InformationData(Some(PresetOther), data.hands, header);
    ParseWithoutMovesIs(s, infos, tail, Some(NormalBoard(data.board)), afterBoard, [HandBlack(data.hands[0])], rest,
      info, Initial(PresetOther, Some(StateFormat(Black, NormalBoard(data.board), data.hands))));
  }

  /** The initial part left out, as the writer does for a missing initial or an omitted Hirate. */
  lemma RecordWithNothingOf(header: map<string, string>, order: seq<string>, initial: Option<Initial>, omitHirate: bool,
                            s: string, rest: string)
    requires HeaderReadable(header) && IsOrdering(order, header.Keys)
    requires initial.None? || (initial.value.data.None? && omitHirate && initial.value.preset == PresetHirate)
    requires EndsHeader(rest)
    requires s == HeaderText(order, header) + InitialText(initial, omitHirate) + rest
    ensures ParseWithoutMoves(s) == Parsed(JsonKifuFormat(header, Some(ReadBack(initial)), []), rest)
  {
    EmptyMiddle(HeaderText(order, header), InitialText(initial, omitHirate), rest);
    RecordWithoutInitial(header, order, s, rest);
  }

  lemma EmptyMiddle(a: string, b: string, c: string)
    requires b == ""
    ensures a + b + c == a + c
  {
  }

  /** The initial part reduced to its preset line. */
  lemma RecordWithPresetOf(header: map<string, string>, order: seq<string>, initial: Option<Initial>, omitHirate: bool,
                           s: string, rest: string)
    requires HeaderReadable(header) && IsOrdering(order, header.Keys)
    requires initial.Some? && initial.value.data.None? && !(omitHirate && initial.value.preset == PresetHirate)
    requires InitialReadable(initial, omitHirate)
    requires EndsHeader(rest)
    requires s == HeaderText(order, header) + InitialText(initial, omitHirate) + rest
    ensures ParseWithoutMoves(s) == Parsed(JsonKifuFormat(header, Some(ReadBack(initial)), []), rest)
  {
    RecordWithPreset(header, order, initial.value.preset, s, rest);
  }

  /** The initial part written as a position. */
  lemma RecordWithDataOf(header: map<string, string>, order: seq<string>, initial: Option<Initial>, omitHirate: bool,
                         s: string, rest: string)
    requires HeaderReadable(header) && IsOrdering(order, header.Keys)
    requires InitialReadable(initial, omitHirate)
    requires initial.Some? && initial.value.data.Some?
    requires EndsHeader(rest)
    requires s == HeaderText(order, header) + InitialText(initial, omitHirate) + rest
    ensures ParseWithoutMoves(s) == Parsed(JsonKifuFormat(header, Some(ReadBack(initial)), []), rest)
  {
    RecordWithData(header, order, initial.value.data.value, s, rest);
  }

  /**
   * A record's header part as the writer writes it, any ordering of the
   * header's keys, reads back as the same header and the initial position the
   * reader makes of what was written.
   */
  lemma RecordRoundTrip(header: map<string, string>, order: seq<string>, initial: Option<Initial>, omitHirate: bool, rest: string)
    requires HeaderReadable(header) && IsOrdering(order, header.Keys)
    requires InitialReadable(initial, omitHirate)
    requires EndsHeader(rest)
    ensures ParseWithoutMoves(HeaderText(order, header) + InitialText(initial, omitHirate) + rest) ==
      Parsed(JsonKifuFormat(header, Some(ReadBack(initial)), []), rest)
  {
    var s := HeaderText(order, header) + InitialText(initial, omitHirate) + rest;
    if initial.Some? && initial.value.data.Some? {
      RecordWithDataOf(header, order, initial, omitHirate, s, rest);
    } else if initial.None? || (omitHirate && initial.value.preset == PresetHirate) {
      RecordWithNothingOf(header, order, initial, omitHirate, s, rest);
    } else {
      RecordWithPresetOf(header, order, initial, omitHirate, s, rest);
    }
  }
}
