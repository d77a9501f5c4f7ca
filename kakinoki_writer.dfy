// The text the KIF and KI2 writers share: numerals, hands, the board
// diagram, the preset line and the header lines. Each piece is a function
// giving the text and a method that appends exactly that text to a Sink.

module KakinokiWriter {
  import opened Jkf
  import opened Text
  import opened Kakinoki

  // ------------------------------------------------------------- numerals

  /** A file as a full-width digit. */
  function SanyouSujiText(n: nat): (s: string)
    requires 1 <= n <= 9
    ensures |s| == 1 && FileDigitOf(s[0]) == Some(n)
  {
    [FileGlyph(n)]
  }

  /**
   * A count as a kanji numeral: above ten, 十 and then the glyph of n - 10;
   * otherwise the single glyph (十 for ten). The glyph table has ten
   * entries, so only 1..20 can be written.
   */
  function KansujiText(n: nat): (s: string)
    requires 1 <= n <= 20
    ensures |s| == if n > 10 then 2 else 1
    ensures n > 10 ==> s[0] == '十' && s[1] == KanjiGlyph(n - 10)
    ensures n <= 10 ==> s[0] == KanjiGlyph(n)
  {
    if n > 10 then "十" + [KanjiGlyph(n - 10)] else [KanjiGlyph(n)]
  }

  method WriteSanyouSuji(sink: Sink, n: nat)
    requires 1 <= n <= 9
    modifies sink
    ensures sink.text == old(sink.text) + SanyouSujiText(n)
  {
    sink.Write([FileGlyph(n)]);
  }

  method WriteKansuji(sink: Sink, n: nat)
    requires 1 <= n <= 20
    modifies sink
    ensures sink.text == old(sink.text) + KansujiText(n)
  {
    var m := n;
    if m > 10 {
      sink.Write("十");
      m := m - 10;
    }
    sink.Write([KanjiGlyph(m)]);
  }

  // ---------------------------------------------------------------- hands

  /** The hand kinds in the order a hand is written: 飛 角 金 銀 桂 香 歩. */
  function HandOrder(h: Hand): (xs: seq<(Kind, nat)>)
    ensures |xs| == 7 && forall i | 0 <= i < 7 :: IsHandKind(xs[i].0) && xs[i].1 == HandCountOf(h, xs[i].0)
  {
    [(HI, h.HI), (KA, h.KA), (KI, h.KI), (GI, h.GI), (KE, h.KE), (KY, h.KY), (FU, h.FU)]
  }

  predicate CountsAtMost(xs: seq<(Kind, nat)>, bound: nat)
  {
    forall i | 0 <= i < |xs| :: xs[i].1 <= bound
  }

  predicate HandFits(h: Hand)
  {
    CountsAtMost(HandOrder(h), 20)
  }

  /** One hand entry: nothing for a zero count, else the glyph, the numeral when above one, and a full-width space. */
  function EntryText(k: Kind, n: nat): (s: string)
    requires n <= 20
    ensures n == 0 <==> s == []
  {
    if n == 0 then "" else [KindGlyph(k)] + (if n > 1 then KansujiText(n) else "") + "　"
  }

  function EntryTexts(xs: seq<(Kind, nat)>): (parts: seq<string>)
    requires CountsAtMost(xs, 20)
    ensures |parts| == |xs| && forall i | 0 <= i < |xs| :: parts[i] == EntryText(xs[i].0, xs[i].1)
  {
    seq(|xs|, (i: int) requires 0 <= i < |xs| => EntryText(xs[i].0, xs[i].1))
  }

  /** The entries of a hand in writing order. */
  function HandText(h: Hand): string
    requires HandFits(h)
  {
    Concat(EntryTexts(HandOrder(h)))
  }

  /** A hand as a header line gives it: なし when empty. */
  function HandValueText(h: Hand): (s: string)
    requires HandFits(h)
    ensures h == EmptyHand() ==> s == "なし"
  {
    if h == EmptyHand() then "なし" else HandText(h)
  }

  /** The source's loop over the seven (glyph, count) pairs. */
  method WriteHand(sink: Sink, h: Hand)
    requires HandFits(h)
    modifies sink
    ensures sink.text == old(sink.text) + HandText(h)
  {
    var order := HandOrder(h);
    ghost var parts := EntryTexts(order);
    for i := 0 to 7
      invariant sink.text == old(sink.text) + Concat(parts[..i])
    {
      var (k, n) := order[i];
      ConcatSnoc(parts, i);
      AppendAssoc(old(sink.text), Concat(parts[..i]), parts[i]);
      WriteEntry(sink, k, n);
    }
    assert parts[..7] == parts;
  }

  method WriteEntry(sink: Sink, k: Kind, n: nat)
    requires n <= 20
    modifies sink
    ensures sink.text == old(sink.text) + EntryText(k, n)
  {
    if n > 0 {
      sink.Write([KindGlyph(k)]);
      if n > 1 {
        WriteKansuji(sink, n);
      }
      sink.Write("　");
      Appended3(old(sink.text), [KindGlyph(k)], if n > 1 then KansujiText(n) else "", "　");
    }
  }

  method WriteHandValue(sink: Sink, h: Hand)
    requires HandFits(h)
    modifies sink
    ensures sink.text == old(sink.text) + HandValueText(h)
  {
    if h != EmptyHand() {
      WriteHand(sink, h);
    } else {
      sink.Write("なし");
    }
  }

  // ---------------------------------------------------------------- board

  /** A cell: a space (Black) or `v` (White) and the glyph when both colour and kind are set, else ` ・`. */
  function CellText(p: Piece): (s: string)
    ensures |s| == 2
  {
    if p.color.Some? && p.kind.Some? then [if p.color.value == Black then ' ' else 'v', KindGlyph(p.kind.value)]
    else " ・"
  }

  /** The cells of row i, left to right: cell j shows board[8 - j][i]. */
  function CellTexts(b: Board, i: nat): (parts: seq<string>)
    requires i < 9
    ensures |parts| == 9 && forall j | 0 <= j < 9 :: parts[j] == CellText(b[8 - j][i])
  {
    seq(9, (j: int) requires 0 <= j < 9 => CellText(b[8 - j][i]))
  }

  /** Row i: the cells between bars, then the rank numeral. */
  function RowText(b: Board, i: nat): string
    requires i < 9
  {
    "|" + Concat(CellTexts(b, i)) + "|" + KansujiText(i + 1) + "\n"
  }

  function RowTexts(b: Board): (parts: seq<string>)
    ensures |parts| == 9 && forall i | 0 <= i < 9 :: parts[i] == RowText(b, i)
  {
    seq(9, (i: int) requires 0 <= i < 9 => RowText(b, i))
  }

  /** The diagram: file numbers, a rule, the nine rows, a rule. */
  function BoardText(b: Board): string
  {
    (BoardHeader() + "\n") + (BoardRule() + "\n") + Concat(RowTexts(b)) + (BoardRule() + "\n")
  }

  /** A hand line: the owner, `の持駒：`, the hand, a line break. */
  function HandLineText(owner: string, h: Hand): string
    requires HandFits(h)
  {
    owner + "の持駒：" + HandValueText(h) + "\n"
  }

  /**
   * A position given as data: the "other" preset line, White's hand, the
   * diagram, Black's hand. The side to move is not written.
   */
  function InitialDataText(data: StateFormat): string
    requires HandFits(data.hands[0]) && HandFits(data.hands[1])
  {
    PresetLineText(PresetOther) + HandLineText("後手", data.hands[1]) + BoardText(data.board)
    + HandLineText("先手", data.hands[0])
  }

  method WriteCells(sink: Sink, b: Board, i: nat)
    requires i < 9
    modifies sink
    ensures sink.text == old(sink.text) + Concat(CellTexts(b, i))
  {
    ghost var parts := CellTexts(b, i);
    for j := 0 to 9
      invariant sink.text == old(sink.text) + Concat(parts[..j])
    {
      ConcatSnoc(parts, j);
      AppendAssoc(old(sink.text), Concat(parts[..j]), parts[j]);
      var p := b[8 - j][i];
      if p.color.Some? && p.kind.Some? {
        sink.Write([if p.color.value == Black then ' ' else 'v', KindGlyph(p.kind.value)]);
      } else {
        sink.Write(" ・");
      }
    }
    assert parts[..9] == parts;
  }

  method WriteRow(sink: Sink, b: Board, i: nat)
    requires i < 9
    modifies sink
    ensures sink.text == old(sink.text) + RowText(b, i)
  {
    sink.Write("|");
    WriteCells(sink, b, i);
    sink.Write("|");
    WriteKansuji(sink, i + 1);
    sink.Write("\n");
  }

  method WriteBoard(sink: Sink, b: Board)
    modifies sink
    ensures sink.text == old(sink.text) + BoardText(b)
  {
    ghost var first := sink.text;
    sink.Write(BoardHeader() + "\n");
    sink.Write(BoardRule() + "\n");
    ghost var start := sink.text;
    ghost var parts := RowTexts(b);
    for i := 0 to 9
      invariant sink.text == start + Concat(parts[..i])
    {
      ConcatSnoc(parts, i);
      AppendAssoc(start, Concat(parts[..i]), parts[i]);
      WriteRow(sink, b, i);
    }
    assert parts[..9] == parts;
    sink.Write(BoardRule() + "\n");
    Appended4(first, BoardHeader() + "\n", BoardRule() + "\n", Concat(parts), BoardRule() + "\n");
  }

  method WriteHandLine(sink: Sink, owner: string, h: Hand)
    requires HandFits(h)
    modifies sink
    ensures sink.text == old(sink.text) + HandLineText(owner, h)
  {
    sink.Write(owner + "の持駒：");
    WriteHandValue(sink, h);
    sink.Write("\n");
  }

  method WriteInitialData(sink: Sink, data: StateFormat)
    requires HandFits(data.hands[0]) && HandFits(data.hands[1])
    modifies sink
    ensures sink.text == old(sink.text) + InitialDataText(data)
  {
    ghost var start := sink.text;
    sink.Write(PresetLineText(PresetOther));
    WriteHandLine(sink, "後手", data.hands[1]);
    WriteBoard(sink, data.board);
    WriteHandLine(sink, "先手", data.hands[0]);
    Appended4(start, PresetLineText(PresetOther), HandLineText("後手", data.hands[1]), BoardText(data.board),
      HandLineText("先手", data.hands[0]));
  }

  // -------------------------------------------------------------- presets

  /** The presets the writer can name; the others stop the program. */
  predicate Writable(p: Preset)
  {
    p in {PresetHirate, PresetKY, PresetKYR, PresetKA, PresetHI, PresetHIKY, Preset2, Preset4, Preset6, Preset8, Preset10}
  }

  function PresetLineText(p: Preset): string
  {
    "手合割：" + PresetName(p) + "\n"
  }

  method WriteInitialPreset(sink: Sink, p: Preset)
    requires Writable(p)
    modifies sink
    ensures sink.text == old(sink.text) + PresetLineText(p)
  {
    sink.Write("手合割：");
    sink.Write(PresetName(p));
    sink.Write("\n");
  }

  // --------------------------------------------------------------- header

  /** One header line per key, in the given order. */
  function HeaderText(order: seq<string>, header: map<string, string>): string
    requires forall i | 0 <= i < |order| :: order[i] in header
  {
    if order == [] then "" else order[0] + "：" + header[order[0]] + "\n" + HeaderText(order[1..], header)
  }

  lemma {:induction false} HeaderTextSnoc(order: seq<string>, k: string, header: map<string, string>)
    requires forall i | 0 <= i < |order| :: order[i] in header
    requires k in header
    ensures HeaderText(order + [k], header) == HeaderText(order, header) + (k + "：" + header[k] + "\n")
    decreases |order|
  {
    if order != [] {
      assert (order + [k])[1..] == order[1..] + [k];
      HeaderTextSnoc(order[1..], k, header);
    }
  }

  /** An order that lists every key of the map exactly once. */
  ghost predicate IsOrdering(order: seq<string>, keys: set<string>)
  {
    |order| == |keys| && (forall i | 0 <= i < |order| :: order[i] in keys) &&
    (forall k | k in keys :: k in order) &&
    (forall i, j | 0 <= i < j < |order| :: order[i] != order[j])
  }

  /** The source iterates the map in its own unspecified order; the model picks any order. */
  method WriteHeader(sink: Sink, header: map<string, string>)
    modifies sink
    ensures exists order :: IsOrdering(order, header.Keys) && sink.text == old(sink.text) + HeaderText(order, header)
  {
    var remaining := header.Keys;
    ghost var order: seq<string> := [];
    while remaining != {}
      invariant remaining <= header.Keys
      invariant forall i | 0 <= i < |order| :: order[i] in header && order[i] !in remaining
      invariant forall i, j | 0 <= i < j < |order| :: order[i] != order[j]
      invariant |order| + |remaining| == |header.Keys|
      invariant forall k | k in header.Keys && k !in remaining :: k in order
      invariant sink.text == old(sink.text) + HeaderText(order, header)
      decreases |remaining|
    {
      var k :| k in remaining;
      HeaderTextSnoc(order, k, header);
      sink.Write(k + "：" + header[k] + "\n");
      order := order + [k];
      remaining := remaining - {k};
    }
    assert IsOrdering(order, header.Keys);
  }

  // -------------------------------------------------------------- initial

  /** Whether the initial part can be written without stopping the program. */
  predicate InitialWritable(initial: Option<Initial>, omitHirate: bool)
  {
    initial.Some? ==>
      if initial.value.data.Some? then HandFits(initial.value.data.value.hands[0]) && HandFits(initial.value.data.value.hands[1])
      else (omitHirate && initial.value.preset == PresetHirate) || Writable(initial.value.preset)
  }

  /**
   * Nothing for a missing initial, the data when there is some, nothing for
   * Hirate when it may be omitted, and otherwise the preset line.
   */
  function InitialText(initial: Option<Initial>, omitHirate: bool): string
    requires InitialWritable(initial, omitHirate)
  {
    if initial.None? then ""
    else if initial.value.data.Some? then InitialDataText(initial.value.data.value)
    else if omitHirate && initial.value.preset == PresetHirate then ""
    else PresetLineText(initial.value.preset)
  }

  method WriteInitial(sink: Sink, initial: Option<Initial>, omitHirate: bool)
    requires InitialWritable(initial, omitHirate)
    modifies sink
    ensures sink.text == old(sink.text) + InitialText(initial, omitHirate)
  {
    if initial.Some? {
      if initial.value.data.Some? {
        WriteInitialData(sink, initial.value.data.value);
      } else {
        if omitHirate && initial.value.preset == PresetHirate {
          return;
        }
        WriteInitialPreset(sink, initial.value.preset);
      }
    }
  }
}
