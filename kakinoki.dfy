// The Kakinoki line grammar shared by the KIF and KI2 readers: numerals,
// piece names, hand lists, header ("information") lines, the board diagram
// and the destination square of a move.
//
// The same grammar appears in two generations. `Current` is the one the
// KIF and KI2 readers use; `Legacy` is the older stand-alone KIF reader,
// which differs in a few tokens (its numerals, piece names, comment marks,
// separators and hand owners), each noted where it applies.

module Kakinoki {
  import opened Jkf
  import opened Text

  datatype Dialect = Current | Legacy

  // ------------------------------------------------------------ comments

  /** A `#` line: skipped wherever header lines are read. */
  function CommentLine(s: string): (r: Option<Parsed<string>>)
    ensures Consumed(r, s)
  {
    var t := Tag("#", s);
    if t.None? then None else Line(t.value)
  }

  /** Any number of `#` lines, skipped. */
  function SkipComments(s: string): (r: string)
    ensures |r| <= |s|
    decreases |s|
  {
    var c := CommentLine(s);
    if c.None? then s else SkipComments(c.value.rest)
  }

  /**
   * A comment attached to a move: `*text` gives the text and `&text` gives
   * "&" followed by the text. The legacy reader knows only `*`.
   */
  function MoveCommentLine(d: Dialect, s: string): (r: Option<Parsed<string>>)
    ensures Consumed(r, s)
  {
    var star := Tag("*", s);
    if star.Some? then Line(star.value)
    else if d == Legacy then None
    else
      var amp := Tag("&", s);
      if amp.None? then None
      else
        var l := Line(amp.value);
        if l.None? then None else Some(Parsed("&" + l.value.value, l.value.rest))
  }

  /** All the comment lines that follow, each as MoveCommentLine reads it. */
  function MoveComments(d: Dialect, s: string): (r: Parsed<seq<string>>)
    ensures |r.rest| <= |s|
    decreases |s|
  {
    var c := MoveCommentLine(d, s);
    if c.None? then Parsed([], s)
    else
      var more := MoveComments(d, c.value.rest);
      Parsed([c.value.value] + more.value, more.rest)
  }

  // --------------------------------------------------------- piece names

  /** The kind a one-glyph piece name stands for, in either spelling (玉/王, 龍/竜). */
  function KindOfGlyph(c: char): (r: Option<Kind>)
  {
    match c
    case '歩' => Some(FU) case '香' => Some(KY) case '桂' => Some(KE) case '銀' => Some(GI)
    case '金' => Some(KI) case '角' => Some(KA) case '飛' => Some(HI) case '玉' => Some(OU)
    case '王' => Some(OU) case 'と' => Some(TO) case '杏' => Some(NY) case '圭' => Some(NK)
    case '全' => Some(NG) case '馬' => Some(UM) case '龍' => Some(RY) case '竜' => Some(RY)
    case _ => None
  }

  /**
   * A piece name: one glyph, or 成 followed by 香, 桂 or 銀. The source tries
   * the names in a fixed order; no name is a prefix of another, so looking
   * at the leading glyphs makes the same choice. 王 is a king only in the
   * current grammar.
   */
  function PieceKind(d: Dialect, s: string): (r: Option<Parsed<Kind>>)
    ensures Consumed(r, s)
  {
    if s == [] then None
    else if s[0] == '成' then
      if |s| < 2 then None
      else if s[1] == '香' then Some(Parsed(NY, s[2..]))
      else if s[1] == '桂' then Some(Parsed(NK, s[2..]))
      else if s[1] == '銀' then Some(Parsed(NG, s[2..]))
      else None
    else if s[0] == '王' && d == Legacy then None
    else
      var k := KindOfGlyph(s[0]);
      if k.None? then None else Some(Parsed(k.value, s[1..]))
  }

  /** The one-glyph name every writer uses for a kind on the board. */
  function KindGlyph(k: Kind): (c: char)
  {
    match k
    case FU => '歩' case KY => '香' case KE => '桂' case GI => '銀' case KI => '金'
    case KA => '角' case HI => '飛' case OU => '玉' case TO => 'と' case NY => '杏'
    case NK => '圭' case NG => '全' case UM => '馬' case RY => '龍'
  }

  /** The name a move line uses for a kind: the promoted minor pieces are spelled out with 成. */
  function MoveKindName(k: Kind): (s: string)
    ensures |s| == if k in {NY, NK, NG} then 2 else 1
  {
    match k
    case NY => "成香" case NK => "成桂" case NG => "成銀"
    case _ => [KindGlyph(k)]
  }

  /** Both readers recognise every name the writers use, in either dialect. */
  lemma PieceKindOfNames(d: Dialect, k: Kind, rest: string)
    ensures PieceKind(d, [KindGlyph(k)] + rest) == Some(Parsed(k, rest))
    ensures PieceKind(d, MoveKindName(k) + rest) == Some(Parsed(k, rest))
  {
    assert ([KindGlyph(k)] + rest)[1..] == rest;
    if k in {NY, NK, NG} {
      assert (MoveKindName(k) + rest)[2..] == rest;
    }
  }

  /**
   * The alternative spellings: 王 is a king only in the current grammar;
   * 杏/成香, 圭/成桂, 全/成銀 and 龍/竜 are the same kinds in both.
   */
  lemma PieceKindSpellings(d: Dialect, rest: string)
    ensures PieceKind(d, "王" + rest) == if d == Current then Some(Parsed(OU, rest)) else None
    ensures PieceKind(d, "竜" + rest) == Some(Parsed(RY, rest))
    ensures PieceKind(d, "成香" + rest) == Some(Parsed(NY, rest))
    ensures PieceKind(d, "成桂" + rest) == Some(Parsed(NK, rest))
    ensures PieceKind(d, "成銀" + rest) == Some(Parsed(NG, rest))
  {
    assert ("王" + rest)[1..] == rest;
    assert ("竜" + rest)[1..] == rest;
    PieceKindOfNames(d, NY, rest);
    PieceKindOfNames(d, NK, rest);
    PieceKindOfNames(d, NG, rest);
  }

  // ------------------------------------------------------------- numerals

  /** The value of a kanji digit 一..九. */
  function KanjiDigitOf(c: char): (r: Option<nat>)
    ensures r.Some? ==> 1 <= r.value <= 9
  {
    match c
    case '一' => Some(1) case '二' => Some(2) case '三' => Some(3) case '四' => Some(4)
    case '五' => Some(5) case '六' => Some(6) case '七' => Some(7) case '八' => Some(8)
    case '九' => Some(9) case _ => None
  }

  /** The kanji glyph of a number 1..10 (十 for ten). */
  function KanjiGlyph(n: nat): (c: char)
    requires 1 <= n <= 10
    ensures n <= 9 ==> KanjiDigitOf(c) == Some(n)
    ensures n == 10 <==> c == '十'
  {
    match n
    case 1 => '一' case 2 => '二' case 3 => '三' case 4 => '四' case 5 => '五'
    case 6 => '六' case 7 => '七' case 8 => '八' case 9 => '九' case _ => '十'
  }

  /**
   * A kanji numeral. The current grammar tries 十八..十一 before 十 and 十
   * before the single digits, so it reads 1..18 and a two-glyph numeral
   * wins over 十 alone. The legacy grammar reads an optional 十 (ten)
   * followed by a required digit, so 11..19 and the digits, but not 十 alone.
   */
  function Kansuji(d: Dialect, s: string): (r: Option<Parsed<nat>>)
    ensures Consumed(r, s)
    ensures r.Some? ==> 1 <= r.value.value <= (if d == Current then 18 else 19)
  {
    if d == Current then
      if s == [] then None
      else if s[0] == '十' then
        var u := if |s| >= 2 then KanjiDigitOf(s[1]) else None;
        if u.Some? && u.value <= 8 then Some(Parsed(10 + u.value, s[2..])) else Some(Parsed(10, s[1..]))
      else
        var u := KanjiDigitOf(s[0]);
        if u.None? then None else Some(Parsed(u.value, s[1..]))
    else
      var ten := s != [] && s[0] == '十';
      var after := if ten then s[1..] else s;
      var u := if after != [] then KanjiDigitOf(after[0]) else None;
      if u.None? then None else Some(Parsed((if ten then 10 else 0) + u.value, after[1..]))
  }

  predicate StartsWithKanjiDigit(s: string)
  {
    s != [] && KanjiDigitOf(s[0]).Some?
  }

  /**
   * The current numeral: 十N reads as 10 + N for N in 1..8, 十 followed by
   * anything but 一..八 as 10, and a single glyph as its digit.
   */
  lemma KansujiLongestFirst(n: nat, rest: string)
    requires 1 <= n <= 9
    ensures n <= 8 ==> Kansuji(Current, "十" + [KanjiGlyph(n)] + rest) == Some(Parsed(10 + n, rest))
    ensures Kansuji(Current, [KanjiGlyph(n)] + rest) == Some(Parsed(n, rest))
    ensures !StartsWithKanjiDigit(rest) || "九" <= rest ==> Kansuji(Current, "十" + rest) == Some(Parsed(10, rest))
  {
    assert ("十" + [KanjiGlyph(n)] + rest)[2..] == rest;
    assert ([KanjiGlyph(n)] + rest)[1..] == rest;
    assert ("十" + rest)[1..] == rest;
  }

  /** The legacy numeral: 十N is 10 + N, a digit alone is itself, and 十 alone does not parse. */
  lemma LegacyKansuji(n: nat, rest: string)
    requires 1 <= n <= 9
    ensures Kansuji(Legacy, "十" + [KanjiGlyph(n)] + rest) == Some(Parsed(10 + n, rest))
    ensures Kansuji(Legacy, [KanjiGlyph(n)] + rest) == Some(Parsed(n, rest))
    ensures !StartsWithKanjiDigit(rest) ==> Kansuji(Legacy, "十" + rest).None?
  {
    assert ("十" + [KanjiGlyph(n)] + rest)[1..] == [KanjiGlyph(n)] + rest;
    assert ([KanjiGlyph(n)] + rest)[1..] == rest;
    assert ("十" + rest)[1..] == rest;
  }

  // ---------------------------------------------------------------- hands

  /** The blanks allowed after a hand entry and after a preset name (the legacy grammar: only the full-width one). */
  function Blanks(d: Dialect): set<char>
  {
    if d == Current then {' ', '　'} else {'　'}
  }

  /** A hand count added to one kind. */
  function AddToHand(h: Hand, k: Kind, n: nat): (r: Hand)
    requires IsHandKind(k)
    ensures HandCountOf(r, k) == HandCountOf(h, k) + n
    ensures forall k' | IsHandKind(k') && k' != k :: HandCountOf(r, k') == HandCountOf(h, k')
  {
    match k
    case FU => h.(FU := h.FU + n)
    case KY => h.(KY := h.KY + n)
    case KE => h.(KE := h.KE + n)
    case GI => h.(GI := h.GI + n)
    case KI => h.(KI := h.KI + n)
    case KA => h.(KA := h.KA + n)
    case HI => h.(HI := h.HI + n)
  }

  /** One hand entry: a piece name, an optional numeral (1 when absent), then blanks. */
  function HandItem(d: Dialect, s: string): (r: Option<Parsed<(Kind, nat)>>)
    ensures Consumed(r, s)
  {
    var k := PieceKind(d, s);
    if k.None? then None
    else
      var n := Kansuji(d, k.value.rest);
      var count := if n.Some? then n.value.value else 1;
      var after := if n.Some? then n.value.rest else k.value.rest;
      Some(Parsed((k.value.value, count), SkipChars(Blanks(d), after)))
  }

  /** As many hand entries as follow. */
  function HandItems(d: Dialect, s: string): (r: Parsed<seq<(Kind, nat)>>)
    ensures |r.rest| <= |s|
    ensures r.value != [] ==> |r.rest| < |s|
    decreases |s|
  {
    var item := HandItem(d, s);
    if item.None? then Parsed([], s)
    else
      var more := HandItems(d, item.value.rest);
      Parsed([item.value.value] + more.value, more.rest)
  }

  /** The sum of the counts given for one kind. */
  function CountOf(items: seq<(Kind, nat)>, k: Kind): nat
  {
    if items == [] then 0
    else CountOf(items[..|items| - 1], k) + (if items[|items| - 1].0 == k then items[|items| - 1].1 else 0)
  }

  /** The entries summed into a hand from left to right; a kind a hand cannot hold fails the whole list. */
  function HandOfItems(items: seq<(Kind, nat)>): Option<Hand>
  {
    if items == [] then Some(EmptyHand())
    else
      var h := HandOfItems(items[..|items| - 1]);
      var (k, n) := items[|items| - 1];
      if h.None? || !IsHandKind(k) then None else Some(AddToHand(h.value, k, n))
  }

  /** The fold succeeds exactly for lists of hand kinds, and then holds every kind's total. */
  lemma {:induction false} HandOfItemsSums(items: seq<(Kind, nat)>)
    ensures HandOfItems(items).Some? <==> forall i | 0 <= i < |items| :: IsHandKind(items[i].0)
    ensures HandOfItems(items).Some? ==> forall k | IsHandKind(k) :: HandCountOf(HandOfItems(items).value, k) == CountOf(items, k)
    decreases |items|
  {
    if items != [] {
      var init := items[..|items| - 1];
      HandOfItemsSums(init);
      assert forall i | 0 <= i < |init| :: init[i] == items[i];
    }
  }

  /** The source's `try_fold`: a loop over the entries that stops at the first kind a hand cannot hold. */
  method SumHandItems(items: seq<(Kind, nat)>) returns (h: Option<Hand>)
    ensures h == HandOfItems(items)
  {
    var acc := EmptyHand();
    for i := 0 to |items|
      invariant HandOfItems(items[..i]) == Some(acc)
    {
      var (k, n) := items[i];
      assert items[..i + 1][..i] == items[..i];
      if !IsHandKind(k) {
        HandFoldStaysFailed(items, i + 1);
        return None;
      }
      acc := AddToHand(acc, k, n);
    }
    assert items[..|items|] == items;
    return Some(acc);
  }

  lemma {:induction false} HandFoldStaysFailed(items: seq<(Kind, nat)>, i: nat)
    requires i <= |items| && HandOfItems(items[..i]).None?
    ensures HandOfItems(items).None?
    decreases |items| - i
  {
    if i < |items| {
      assert items[..i + 1][..i] == items[..i];
      HandFoldStaysFailed(items, i + 1);
    } else {
      assert items[..i] == items;
    }
  }

  /** A hand value: なし for the empty hand, otherwise at least one entry, all of hand kinds. */
  function InformationValueHand(d: Dialect, s: string): (r: Option<Parsed<Hand>>)
    ensures Consumed(r, s)
  {
    var none := Tag("なし", s);
    if none.Some? then Some(Parsed(EmptyHand(), none.value))
    else
      var items := HandItems(d, s);
      if items.value == [] then None
      else
        var h := HandOfItems(items.value);
        if h.None? then None else Some(Parsed(h.value, items.rest))
  }

  /** なし is the empty hand; any entry naming a king or a promoted piece fails the value. */
  lemma HandValueCases(d: Dialect, s: string)
    ensures "なし" <= s ==> InformationValueHand(d, s) == Some(Parsed(EmptyHand(), s[2..]))
    ensures !("なし" <= s) ==>
      var items := HandItems(d, s).value;
      (InformationValueHand(d, s).Some? <==> items != [] && forall i | 0 <= i < |items| :: IsHandKind(items[i].0)) &&
      (InformationValueHand(d, s).Some? ==> forall k | IsHandKind(k) :: HandCountOf(InformationValueHand(d, s).value.value, k) == CountOf(items, k))
  {
    HandOfItemsSums(HandItems(d, s).value);
  }

  // -------------------------------------------------------- header lines

  /** The name of each preset as a header line spells it. */
  function PresetName(p: Preset): (s: string)
    ensures |s| >= 2
  {
    match p
    case PresetHirate => "平手" case PresetKY => "香落ち" case PresetKYR => "右香落ち"
    case PresetKA => "角落ち" case PresetHI => "飛車落ち" case PresetHIKY => "飛香落ち"
    case Preset2 => "二枚落ち" case Preset3 => "三枚落ち" case Preset4 => "四枚落ち"
    case Preset5 => "五枚落ち" case Preset5L => "左五枚落ち" case Preset6 => "六枚落ち"
    case Preset7L => "左七枚落ち" case Preset7R => "右七枚落ち" case Preset8 => "八枚落ち"
    case Preset10 => "十枚落ち" case PresetOther => "その他"
  }

  function Named(p: Preset, s: string): (r: Option<Parsed<Preset>>)
    ensures Consumed(r, s)
  {
    TagAs(PresetName(p), p, s)
  }

  /**
   * A preset name. The source tries the seventeen names in a fixed order;
   * no name is a prefix of another, so dispatching on the leading glyph
   * (and the second one where two names share it) makes the same choice.
   */
  function PresetOfName(s: string): (r: Option<Parsed<Preset>>)
    ensures Consumed(r, s)
  {
    if s == [] then None
    else
      match s[0]
      case '平' => Named(PresetHirate, s)
      case '香' => Named(PresetKY, s)
      case '右' => if PresetName(PresetKYR) <= s then Named(PresetKYR, s) else Named(Preset7R, s)
      case '角' => Named(PresetKA, s)
      case '飛' => if PresetName(PresetHI) <= s then Named(PresetHI, s) else Named(PresetHIKY, s)
      case '二' => Named(Preset2, s)
      case '三' => Named(Preset3, s)
      case '四' => Named(Preset4, s)
      case '五' => Named(Preset5, s)
      case '左' => if PresetName(Preset5L) <= s then Named(Preset5L, s) else Named(Preset7L, s)
      case '六' => Named(Preset6, s)
      case '八' => Named(Preset8, s)
      case '十' => Named(Preset10, s)
      case 'そ' => Named(PresetOther, s)
      case _ => None
  }

  /** Every preset's name reads back as that preset. */
  lemma PresetOfNameRoundTrip(p: Preset, rest: string)
    ensures PresetOfName(PresetName(p) + rest) == Some(Parsed(p, rest))
  {
    var s := PresetName(p) + rest;
    assert s[|PresetName(p)|..] == rest;
    assert PresetName(p) <= s;
    assert s[0] == PresetName(p)[0] && s[1] == PresetName(p)[1];
    match p {
      case Preset7R => assert !(PresetName(PresetKYR) <= s);
      case PresetHIKY => assert !(PresetName(PresetHI) <= s);
      case Preset7L => assert !(PresetName(Preset5L) <= s);
      case _ =>
    }
  }

  /** One header line's meaning. */
  datatype Information = InfoPreset(preset: Preset) | HandBlack(hand: Hand) | HandWhite(hand: Hand) | KeyValue(key: string, value: string)

  /** `手合割：` + preset name + blanks + line ending. */
  function InformationLinePreset(d: Dialect, s: string): (r: Option<Parsed<Information>>)
    ensures Consumed(r, s)
  {
    var t := Tag("手合割：", s);
    if t.None? then None
    else
      var p := PresetOfName(t.value);
      if p.None? then None
      else
        var e := LineEnding(SkipChars(Blanks(d), p.value.rest));
        if e.None? then None else Some(Parsed(InfoPreset(p.value.value), e.value))
  }

  /** Who a hand line belongs to: 先手/下手 are Black and 後手/上手 White; the legacy grammar knows only 先手/後手. */
  function HandOwner(d: Dialect, s: string): (r: Option<Parsed<Color>>)
    ensures Consumed(r, s)
  {
    if s == [] then None
    else if s[0] == '先' then TagAs("先手", Black, s)
    else if s[0] == '後' then TagAs("後手", White, s)
    else if d == Legacy then None
    else if s[0] == '下' then TagAs("下手", Black, s)
    else if s[0] == '上' then TagAs("上手", White, s)
    else None
  }

  /** 先手 and 下手 label Black's hand and 後手 and 上手 White's; the legacy grammar refuses 下手 and 上手. */
  lemma HandOwnerLabels(d: Dialect, rest: string)
    ensures HandOwner(d, "先手" + rest) == Some(Parsed(Black, rest))
    ensures HandOwner(d, "後手" + rest) == Some(Parsed(White, rest))
    ensures HandOwner(d, "下手" + rest) == if d == Current then Some(Parsed(Black, rest)) else None
    ensures HandOwner(d, "上手" + rest) == if d == Current then Some(Parsed(White, rest)) else None
  {
    assert ("先手" + rest)[2..] == rest;
    assert ("後手" + rest)[2..] == rest;
    assert ("下手" + rest)[2..] == rest;
    assert ("上手" + rest)[2..] == rest;
  }

  /** Owner + `の持駒：` + hand value + line ending. */
  function InformationLineHands(d: Dialect, s: string): (r: Option<Parsed<Information>>)
    ensures Consumed(r, s)
  {
    var c := HandOwner(d, s);
    if c.None? then None
    else
      var t := Tag("の持駒：", c.value.rest);
      if t.None? then None
      else
        var h := InformationValueHand(d, t.value);
        if h.None? then None
        else
          var e := LineEnding(h.value.rest);
          if e.None? then None
          else Some(Parsed(if c.value.value == Black then HandBlack(h.value.value) else HandWhite(h.value.value), e.value))
  }

  predicate IsKeyChar(c: char)
  {
    c != '：' && !IsLineBreak(c)
  }

  /** The length of the leading run of characters other than `：`, '\r' and '\n'. */
  function KeyLength(s: string): (n: nat)
    ensures n <= |s|
    ensures forall i | 0 <= i < n :: IsKeyChar(s[i])
    ensures n < |s| ==> !IsKeyChar(s[n])
  {
    if s == [] || !IsKeyChar(s[0]) then 0 else 1 + KeyLength(s[1..])
  }

  /** A non-empty key, `：`, the rest of the line as the value. */
  function InformationLineKeyValue(s: string): (r: Option<Parsed<Information>>)
    ensures Consumed(r, s)
  {
    var n := KeyLength(s);
    if n == 0 then None
    else
      var t := Tag("：", s[n..]);
      if t.None? then None
      else
        var v := Line(t.value);
        if v.None? then None else Some(Parsed(KeyValue(s[..n], v.value.value), v.value.rest))
  }

  /** A header line, tried as a preset line, then a hand line, then a key-value line. */
  function InformationLine(d: Dialect, s: string): (r: Option<Parsed<Information>>)
    ensures Consumed(r, s)
  {
    var p := InformationLinePreset(d, s);
    if p.Some? then p
    else
      var h := InformationLineHands(d, s);
      if h.Some? then h else InformationLineKeyValue(s)
  }

  /** Header lines, each after any number of comment lines. */
  function InformationList(d: Dialect, s: string): (r: Parsed<seq<Information>>)
    ensures |r.rest| <= |s|
    decreases |s|
  {
    var line := InformationLine(d, SkipComments(s));
    if line.None? then Parsed([], s)
    else
      var more := InformationList(d, line.value.rest);
      Parsed([line.value.value] + more.value, more.rest)
  }

  /** What a run of header lines says: the preset, the two hands (Black first) and the other pairs. */
  datatype InformationData = InformationData(preset: Option<Preset>, hands: Hands, header: map<string, string>)

  function NoInformation(): InformationData
  {
    InformationData(None, [EmptyHand(), EmptyHand()], map[])
  }

  function Applied(acc: InformationData, info: Information): InformationData
  {
    match info
    case InfoPreset(p) => acc.(preset := Some(p))
    case HandBlack(h) => acc.(hands := acc.hands[0 := h])
    case HandWhite(h) => acc.(hands := acc.hands[1 := h])
    case KeyValue(k, v) => acc.(header := acc.header[k := v])
  }

  /** The header lines applied in order, each one replacing what it sets. */
  function Collected(infos: seq<Information>): InformationData
  {
    if infos == [] then NoInformation() else Applied(Collected(infos[..|infos| - 1]), infos[|infos| - 1])
  }

  /** The source's fold over the header lines, as a loop. */
  method CollectInformations(infos: seq<Information>) returns (acc: InformationData)
    ensures acc == Collected(infos)
  {
    acc := NoInformation();
    for i := 0 to |infos|
      invariant acc == Collected(infos[..i])
    {
      assert infos[..i + 1][..i] == infos[..i];
      acc := Applied(acc, infos[i]);
    }
    assert infos[..|infos|] == infos;
  }

  /** A later line overrides an earlier one: the value of a key is the one its last line gives. */
  lemma {:induction false} LastKeyWins(before: seq<Information>, k: string, v: string, after: seq<Information>)
    requires forall i | 0 <= i < |after| :: !(after[i].KeyValue? && after[i].key == k)
    ensures k in Collected(before + [KeyValue(k, v)] + after).header
    ensures Collected(before + [KeyValue(k, v)] + after).header[k] == v
    decreases |after|
  {
    var all := before + [KeyValue(k, v)] + after;
    if after != [] {
      var init := after[..|after| - 1];
      assert all[..|all| - 1] == before + [KeyValue(k, v)] + init;
      LastKeyWins(before, k, v, init);
    } else {
      assert all[..|all| - 1] == before;
    }
  }

  /** The same for the preset and the hands: the last line of each kind decides. */
  lemma {:induction false} LastPresetWins(before: seq<Information>, p: Preset, after: seq<Information>)
    requires forall i | 0 <= i < |after| :: !after[i].InfoPreset?
    ensures Collected(before + [InfoPreset(p)] + after).preset == Some(p)
    decreases |after|
  {
    var all := before + [InfoPreset(p)] + after;
    if after != [] {
      var init := after[..|after| - 1];
      assert all[..|all| - 1] == before + [InfoPreset(p)] + init;
      LastPresetWins(before, p, init);
    } else {
      assert all[..|all| - 1] == before;
    }
  }

  lemma {:induction false} LastHandWins(before: seq<Information>, info: Information, after: seq<Information>)
    requires info.HandBlack? || info.HandWhite?
    requires forall i | 0 <= i < |after| :: !(after[i].HandBlack? || after[i].HandWhite?) || after[i].HandBlack? != info.HandBlack?
    ensures Collected(before + [info] + after).hands[if info.HandBlack? then 0 else 1] == info.hand
    decreases |after|
  {
    var all := before + [info] + after;
    if after != [] {
      var init := after[..|after| - 1];
      assert all[..|all| - 1] == before + [info] + init;
      LastHandWins(before, info, init);
    } else {
      assert all[..|all| - 1] == before;
    }
  }

  /** A run of header lines and what it says. */
  function Informations(d: Dialect, s: string): (r: Parsed<InformationData>)
    ensures |r.rest| <= |s|
  {
    var list := InformationList(d, s);
    Parsed(Collected(list.value), list.rest)
  }

  /** Two hands added kind by kind. */
  function MergedHand(l: Hand, r: Hand): (h: Hand)
    ensures forall k | IsHandKind(k) :: HandCountOf(h, k) == HandCountOf(l, k) + HandCountOf(r, k)
  {
    Hand(l.FU + r.FU, l.KY + r.KY, l.KE + r.KE, l.GI + r.GI, l.KI + r.KI, l.KA + r.KA, l.HI + r.HI)
  }

  /**
   * The header lines before and after the board combined: the first preset
   * wins, the hands are summed, and on a key given in both the second wins.
   */
  function Merged(lhs: InformationData, rhs: InformationData): (r: InformationData)
    ensures r.preset == if lhs.preset.Some? then lhs.preset else rhs.preset
    ensures forall c | 0 <= c < 2 :: forall k | IsHandKind(k) ::
      HandCountOf(r.hands[c], k) == HandCountOf(lhs.hands[c], k) + HandCountOf(rhs.hands[c], k)
    ensures r.header.Keys == lhs.header.Keys + rhs.header.Keys
    ensures forall k | k in r.header :: r.header[k] == if k in rhs.header then rhs.header[k] else lhs.header[k]
  {
    InformationData(
      if lhs.preset.Some? then lhs.preset else rhs.preset,
      [MergedHand(lhs.hands[0], rhs.hands[0]), MergedHand(lhs.hands[1], rhs.hands[1])],
      lhs.header + rhs.header)
  }

  // ---------------------------------------------------------------- board

  /** A board cell: ` ・` is empty, a space before a name is Black and `v` is White. */
  function BoardPiece(d: Dialect, s: string): (r: Option<Parsed<Piece>>)
    ensures Consumed(r, s)
  {
    var e := Tag(" ・", s);
    if e.Some? then Some(Parsed(EmptyPiece(), e.value))
    else
      var c := if s != [] && s[0] == ' ' then Some(Parsed(Black, s[1..]))
        else if s != [] && s[0] == 'v' then Some(Parsed(White, s[1..])) else None;
      if c.None? then None
      else
        var k := PieceKind(d, c.value.rest);
        if k.None? then None else Some(Parsed(Piece(Some(c.value.value), Some(k.value.value)), k.value.rest))
  }

  /** The cell parser as a value, for the repetition. */
  function PieceReader(d: Dialect): (p: string -> Option<Parsed<Piece>>)
    ensures forall x :: p(x) == BoardPiece(d, x)
  {
    x => BoardPiece(d, x)
  }

  /** Exactly n cells: the cell parser repeated n times. */
  function BoardPieces(d: Dialect, s: string, n: nat): (r: Option<Parsed<seq<Piece>>>)
    ensures r.Some? ==> |r.value.value| == n && |r.value.rest| <= |s|
  {
    assert Consumes(PieceReader(d));
    Repeated(PieceReader(d), s, n)
  }

  /** `|` + nine cells + `|` + a rank glyph + line ending. */
  function BoardRow(d: Dialect, s: string): (r: Option<Parsed<Row>>)
    ensures r.Some? ==> |r.value.rest| < |s|
  {
    var open := Tag("|", s);
    if open.None? then None
    else
      var cells := BoardPieces(d, open.value, 9);
      if cells.None? then None
      else
        var close := Tag("|", cells.value.rest);
        if close.None? || close.value == [] || KanjiDigitOf(close.value[0]).None? then None
        else
          var e := LineEnding(close.value[1..]);
          if e.None? then None else Some(Parsed(cells.value.value, e.value))
  }

  /** The row parser as a value, for the repetition. */
  function RowReader(d: Dialect): (p: string -> Option<Parsed<Row>>)
    ensures forall x :: p(x) == BoardRow(d, x)
  {
    x => BoardRow(d, x)
  }

  /** Exactly n rows: the row parser repeated n times. */
  function BoardRows(d: Dialect, s: string, n: nat): (r: Option<Parsed<seq<Row>>>)
    ensures r.Some? ==> |r.value.value| == n && |r.value.rest| <= |s|
  {
    assert Consumes(RowReader(d));
    Repeated(RowReader(d), s, n)
  }

  /** Rows as read, top (rank 1) first, left (file 9) first: cell j of row i is file 9 - j, rank i + 1. */
  function BoardOfRows(rows: seq<Row>): (b: Board)
    requires |rows| == 9
    ensures forall i, j | 0 <= i < 9 && 0 <= j < 9 :: b[8 - j][i] == rows[i][j]
  {
    seq(9, (x: int) requires 0 <= x < 9 => seq(9, (y: int) requires 0 <= y < 9 => rows[y][8 - x]))
  }

  /** A board with one cell replaced. */
  function SetCell(b: Board, x: nat, y: nat, p: Piece): (r: Board)
    requires x < 9 && y < 9
    ensures forall x', y' | 0 <= x' < 9 && 0 <= y' < 9 :: r[x'][y'] == if x' == x && y' == y then p else b[x'][y']
  {
    b[x := b[x][y := p]]
  }

  /** The first n cells in reading order (row by row, left to right) hold the rows' cells; the others are empty. */
  ghost predicate FilledUpTo(b: Board, rows: seq<Row>, n: nat)
    requires |rows| == 9
  {
    forall x, y | 0 <= x < 9 && 0 <= y < 9 :: b[x][y] == if 9 * y + (8 - x) < n then rows[y][8 - x] else EmptyPiece()
  }

  /** Storing cell j of row i fills the next cell in reading order. */
  lemma FillStep(b: Board, rows: seq<Row>, i: nat, j: nat, n: nat)
    requires |rows| == 9 && i < 9 && j < 9 && n == 9 * i + j && FilledUpTo(b, rows, n)
    ensures FilledUpTo(SetCell(b, 8 - j, i, rows[i][j]), rows, n + 1)
  {
    var b' := SetCell(b, 8 - j, i, rows[i][j]);
    forall x, y | 0 <= x < 9 && 0 <= y < 9
      ensures b'[x][y] == if 9 * y + (8 - x) < n + 1 then rows[y][8 - x] else EmptyPiece()
    {
      if y < i {
        assert 9 * y + 9 <= 9 * i;
      } else if y > i {
        assert 9 * i + 9 <= 9 * y;
      }
    }
  }

  /** The source's nested loops that store cell j of row i at board[8 - j][i]. */
  method FillBoard(rows: seq<Row>) returns (b: Board)
    requires |rows| == 9
    ensures b == BoardOfRows(rows)
  {
    b := EmptyBoard();
    ghost var n := 0;
    for i := 0 to 9
      invariant n == 9 * i && FilledUpTo(b, rows, n)
    {
      for j := 0 to 9
        invariant n == 9 * i + j && FilledUpTo(b, rows, n)
      {
        FillStep(b, rows, i, j, n);
        b := SetCell(b, 8 - j, i, rows[i][j]);
        n := n + 1;
      }
    }
    var r := BoardOfRows(rows);
    assert forall x | 0 <= x < 9 :: b[x] == r[x];
  }

  function BoardHeader(): string { "  ９ ８ ７ ６ ５ ４ ３ ２ １" }
  function BoardRule(): string { "+---------------------------+" }

  /** The diagram: the file numbers, a rule, nine rows, a rule, each on its own line. */
  function ParseBoard(d: Dialect, s: string): (r: Option<Parsed<Board>>)
    ensures r.Some? ==> |r.value.rest| < |s|
  {
    var h := Tag(BoardHeader(), s);
    if h.None? then None
    else
      var e1 := LineEnding(h.value);
      if e1.None? then None
      else
        var top := Tag(BoardRule(), e1.value);
        if top.None? then None
        else
          var e2 := LineEnding(top.value);
          if e2.None? then None
          else
            var rows := BoardRows(d, e2.value, 9);
            if rows.None? then None
            else
              var bottom := Tag(BoardRule(), rows.value.rest);
              if bottom.None? then None
              else
                var e3 := LineEnding(bottom.value);
                if e3.None? then None else Some(Parsed(BoardOfRows(rows.value.value), e3.value))
  }

  // --------------------------------------------------------------- squares

  /** The value of a full-width file digit １..９. */
  function FileDigitOf(c: char): (r: Option<nat>)
    ensures r.Some? ==> 1 <= r.value <= 9
  {
    match c
    case '１' => Some(1) case '２' => Some(2) case '３' => Some(3) case '４' => Some(4)
    case '５' => Some(5) case '６' => Some(6) case '７' => Some(7) case '８' => Some(8)
    case '９' => Some(9) case _ => None
  }

  /** The full-width digit of a file 1..9. */
  function FileGlyph(n: nat): (c: char)
    requires 1 <= n <= 9
    ensures FileDigitOf(c) == Some(n)
  {
    match n
    case 1 => '１' case 2 => '２' case 3 => '３' case 4 => '４' case 5 => '５'
    case 6 => '６' case 7 => '７' case 8 => '８' case _ => '９'
  }

  /** A destination: `同　` (the previous destination) gives None, a file digit and a rank numeral the square. */
  function MoveTo(s: string): (r: Option<Parsed<Option<PlaceFormat>>>)
    ensures Consumed(r, s)
    ensures r.Some? && r.value.value.Some? ==> 1 <= r.value.value.value.x <= 9 && 1 <= r.value.value.value.y <= 9
  {
    var same := Tag("同　", s);
    if same.Some? then Some(Parsed(None, same.value))
    else if |s| < 2 then None
    else
      var x := FileDigitOf(s[0]);
      var y := KanjiDigitOf(s[1]);
      if x.None? || y.None? then None
      else Some(Parsed(Some(PlaceFormat(x.value, y.value)), s[2..]))
  }

  /** Every on-board square, written as a file digit and a rank numeral, reads back, and so does `同　`. */
  lemma MoveToOf(x: nat, y: nat, rest: string)
    requires 1 <= x <= 9 && 1 <= y <= 9
    ensures MoveTo([FileGlyph(x), KanjiGlyph(y)] + rest) == Some(Parsed(Some(PlaceFormat(x, y)), rest))
    ensures MoveTo("同　" + rest) == Some(Parsed(None, rest))
  {
    assert ([FileGlyph(x), KanjiGlyph(y)] + rest)[2..] == rest;
    assert ("同　" + rest)[2..] == rest;
  }

  // ------------------------------------------------------------ records

  /**
   * The initial position a header and an optional diagram describe: a
   * diagram gives "other" with that board, Black to move and the collected
   * hands; without one the preset named (Hirate when none is named).
   */
  function InitialOfInformation(info: InformationData, board: Option<Board>): (r: Initial)
    ensures board.Some? ==> r == Initial(PresetOther, Some(StateFormat(Black, board.value, info.hands)))
    ensures board.None? ==> r.data.None? && r.preset == UnwrapOr(info.preset, PresetHirate)
  {
    if board.Some? then Initial(PresetOther, Some(StateFormat(Black, board.value, info.hands)))
    else Initial(UnwrapOr(info.preset, PresetHirate), None)
  }

  /** Header lines, an optional diagram, more header lines: a record without moves. */
  function ParseWithoutMoves(s: string): (r: Parsed<JsonKifuFormat>)
    ensures r.value.moves == []
    ensures r.value.initial.Some?
  {
    var info1 := Informations(Current, s);
    var board := ParseBoard(Current, info1.rest);
    var afterBoard := if board.Some? then board.value.rest else info1.rest;
    var info2 := Informations(Current, afterBoard);
    var info := Merged(info1.value, info2.value);
    var initial := InitialOfInformation(info, if board.Some? then Some(board.value.value) else None);
    Parsed(JsonKifuFormat(info.header, Some(initial), []), info2.rest)
  }
}
