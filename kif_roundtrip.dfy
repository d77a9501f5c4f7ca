// What the KIF reader gives back for the text the KIF writer produces: the
// move text, the specials, the times, the comments and whole move lines.

module KifRoundTrip {
  import opened Jkf
  import opened Text
  import opened Kakinoki
  import opened KakinokiWriter
  import opened KifReader
  import opened KifWriter

  // ------------------------------------------------------------- numbers

  /** A zero-padded byte reads back as itself. */
  lemma TwoDigitReads(n: nat, rest: string)
    requires n < ByteBound
    requires rest == [] || !IsDigit(rest[0])
    ensures Number(TwoDigitText(n) + rest, ByteBound) == Some(Parsed(n, rest))
  {
    if n < 10 {
      assert TwoDigitText(n) == [DigitChar(0), DigitChar(n)];
      TwoDigits(0, n, rest);
    } else {
      assert |Decimal(n)| >= 2;
      NumberOf(n, rest, ByteBound);
    }
  }

  /** The blanks in front of a blank-padded number are skipped. */
  lemma BlankPaddedSkips(n: nat, w: nat, rest: string)
    ensures SkipChars(Spaces(), PadLeft(Decimal(n), w, ' ') + rest) == Decimal(n) + rest
  {
    var d := Decimal(n);
    assert (d + rest)[0] == d[0];
    if |d| >= w {
      SkipNone(Spaces(), d + rest);
    } else {
      var fill := seq(w - |d|, _ => ' ');
      Appended2(fill, d, rest);
      SkipAll(Spaces(), fill, d + rest);
    }
  }

  lemma FirstDigit(n: nat, rest: string)
    ensures IsDigit((TwoDigitText(n) + rest)[0])
  {
  }

  // --------------------------------------------------------------- times

  /** What a written time reads back as: the hours of this move are lost, the total always has hours. */
  function ReadBackTime(t: Time): (r: Time)
    ensures r.now.h.None? && r.now.m == t.now.m && r.now.s == t.now.s
    ensures r.total.h == Some(UnwrapOr<U8>(t.total.h, 0)) && r.total.m == t.total.m && r.total.s == t.total.s
  {
    Time(t.now.(h := None), t.total.(h := Some(UnwrapOr<U8>(t.total.h, 0))))
  }

  lemma Regroup3(a: string, b: string, c: string, rest: string)
    ensures a + b + c + rest == a + (b + (c + rest))
  {
  }

  lemma Regroup4(a: string, b: string, c: string, e: string, rest: string)
    ensures a + b + c + e + rest == a + (b + (c + (e + rest)))
  {
  }

  lemma Regroup5(a: string, b: string, c: string, e: string, f: string, rest: string)
    ensures a + b + c + e + f + rest == a + (b + (c + (e + (f + rest))))
  {
  }

  lemma Regroup6(a: string, b: string, c: string, e: string, f: string, g: string, rest: string)
    ensures a + b + c + e + f + g + rest == a + (b + (c + (e + (f + (g + rest)))))
  {
  }

  /** The m:s form, from the facts about its parts. */
  lemma MinutesSecondsOf(s: string, m: nat, s1: string, sec: nat, rest: string)
    requires Number(s, ByteBound) == Some(Parsed(m, ":" + s1))
    requires Number(s1, ByteBound) == Some(Parsed(sec, rest))
    requires Tag(":", rest).None?
    ensures MoveTimeFormat(s) == Some(Parsed(TimeFormat(None, m, sec), rest))
  {
    TagOf(":", s1);
  }

  /** The h:m:s form, from the facts about its parts. */
  lemma HoursMinutesSecondsOf(s: string, h: nat, s1: string, m: nat, s2: string, sec: nat, rest: string)
    requires Number(s, ByteBound) == Some(Parsed(h, ":" + s1))
    requires Number(s1, ByteBound) == Some(Parsed(m, ":" + s2))
    requires Number(s2, ByteBound) == Some(Parsed(sec, rest))
    ensures MoveTimeFormat(s) == Some(Parsed(TimeFormat(Some(h), m, sec), rest))
  {
    TagOf(":", s1);
    TagOf(":", s2);
  }

  /** This move's time is read in the m:s form: the h:m:s form fails at the slash. */
  lemma NowReads(now: TimeFormat, s: string, tail: string)
    requires s == Decimal(now.m) + ":" + TwoDigitText(now.s) + "/" + tail
    ensures MoveTimeFormat(s) == Some(Parsed(now.(h := None), "/" + tail))
  {
    var x := TwoDigitText(now.s) + ("/" + tail);
    Regroup4(Decimal(now.m), ":", TwoDigitText(now.s), "/", tail);
    NumberOf(now.m, ":" + x, ByteBound);
    TwoDigitReads(now.s, "/" + tail);
    MinutesSecondsOf(s, now.m, x, now.s, "/" + tail);
  }

  /** The total is read in the h:m:s form. */
  lemma TotalReads(total: TimeFormat, s: string, tail: string)
    requires s == TotalText(total) + ")" + tail
    ensures MoveTimeFormat(s) == Some(Parsed(total.(h := Some(UnwrapOr<U8>(total.h, 0))), ")" + tail))
  {
    var h := UnwrapOr<U8>(total.h, 0);
    var a, b, c := TwoDigitText(h), TwoDigitText(total.m), TwoDigitText(total.s);
    var sec := c + (")" + tail);
    var min := b + (":" + sec);
    assert s == a + (":" + min) by {
      Regroup6(a, ":", b, ":", c, ")", tail);
    }
    TotalDigits(a, b, c, h, total.m, total.s, min, sec, ")" + tail);
    HoursMinutesSecondsOf(s, h, min, total.m, sec, total.s, ")" + tail);
  }

  lemma TotalDigits(a: string, b: string, c: string, h: nat, m: nat, sec: nat, min: string, secs: string, tail: string)
    requires h < ByteBound && m < ByteBound && sec < ByteBound
    requires a == TwoDigitText(h) && b == TwoDigitText(m) && c == TwoDigitText(sec)
    requires secs == c + tail && min == b + (":" + secs)
    requires tail == [] || !IsDigit(tail[0])
    ensures Number(a + (":" + min), ByteBound) == Some(Parsed(h, ":" + min))
    ensures Number(min, ByteBound) == Some(Parsed(m, ":" + secs))
    ensures Number(secs, ByteBound) == Some(Parsed(sec, tail))
  {
    TwoDigitReads(h, ":" + min);
    TwoDigitReads(m, ":" + secs);
    TwoDigitReads(sec, tail);
  }

  /** `(now/total)`, from the facts about its parts. */
  lemma MoveTimeOf(s: string, a: string, now: TimeFormat, b: string, c: string, total: TimeFormat, e: string, rest: string)
    requires Tag("(", s) == Some(a)
    requires MoveTimeFormat(SkipChars(Spaces(), a)) == Some(Parsed(now, b))
    requires Tag("/", SkipChars(Spaces(), b)) == Some(c)
    requires MoveTimeFormat(SkipChars(Spaces(), c)) == Some(Parsed(total, e))
    requires Tag(")", SkipChars(Spaces(), e)) == Some(rest)
    ensures MoveTime(s) == Some(Parsed(Time(now, total), rest))
  {
    AfterTotalOf(now, total, e, rest);
    AfterNowOf(now, b, c, total, e, rest);
    AfterOpenOf(a, now, b, rest, Time(now, total));
  }

  lemma AfterTotalOf(now: TimeFormat, total: TimeFormat, e: string, rest: string)
    requires Tag(")", SkipChars(Spaces(), e)) == Some(rest)
    ensures TimeAfterTotal(now, total, e) == Some(Parsed(Time(now, total), rest))
  {
  }

  lemma AfterNowOf(now: TimeFormat, b: string, c: string, total: TimeFormat, e: string, rest: string)
    requires Tag("/", SkipChars(Spaces(), b)) == Some(c)
    requires MoveTimeFormat(SkipChars(Spaces(), c)) == Some(Parsed(total, e))
    requires TimeAfterTotal(now, total, e) == Some(Parsed(Time(now, total), rest))
    ensures TimeAfterNow(now, b) == Some(Parsed(Time(now, total), rest))
  {
  }

  lemma AfterOpenOf(a: string, now: TimeFormat, b: string, rest: string, t: Time)
    requires MoveTimeFormat(SkipChars(Spaces(), a)) == Some(Parsed(now, b))
    requires TimeAfterNow(now, b) == Some(Parsed(t, rest))
    ensures TimeAfterOpen(a) == Some(Parsed(t, rest))
  {
  }

  lemma TotalStart(total: TimeFormat, rest: string)
    ensures (TotalText(total) + rest)[0] !in Spaces()
  {
    var h := UnwrapOr<U8>(total.h, 0);
    assert (TotalText(total) + rest)[0] == TwoDigitText(h)[0];
  }

  /** This move's time, blanks in front skipped, up to the slash. */
  lemma NowPartReads(now: TimeFormat, a: string, slash: string, total: string)
    requires a == NowText(now) + slash && slash == "/" + total
    ensures MoveTimeFormat(SkipChars(Spaces(), a)) == Some(Parsed(now.(h := None), slash))
  {
    var p, d, sec := PadLeft(Decimal(now.m), 2, ' '), Decimal(now.m), TwoDigitText(now.s);
    Regroup3(p, ":", sec, slash);
    BlankPaddedSkips(now.m, 2, ":" + (sec + slash));
    Regroup4(d, ":", sec, "/", total);
    NowReads(now, d + (":" + (sec + slash)), total);
  }

  /** The total, up to the closing parenthesis. */
  lemma TotalPartReads(total: TimeFormat, c: string, rest: string)
    requires c == TotalText(total) + (")" + rest)
    ensures MoveTimeFormat(SkipChars(Spaces(), c)) == Some(Parsed(total.(h := Some(UnwrapOr<U8>(total.h, 0))), ")" + rest))
  {
    TotalStart(total, ")" + rest);
    SkipNone(Spaces(), c);
    Appended2(TotalText(total), ")", rest);
    TotalReads(total, c, rest);
  }

  /** A punctuation mark with no blanks in front. */
  lemma MarkReads(mark: string, rest: string)
    requires mark == "/" || mark == ")"
    ensures Tag(mark, SkipChars(Spaces(), mark + rest)) == Some(rest)
  {
    SkipNone(Spaces(), mark + rest);
    TagOf(mark, rest);
  }

  lemma TimeTextReadsAt(t: Time, s: string, rest: string)
    requires s == TimeText(t) + rest
    ensures MoveTime(s) == Some(Parsed(ReadBackTime(t), rest))
  {
    var n, tt := NowText(t.now), TotalText(t.total);
    var total := tt + (")" + rest);
    var slash := "/" + total;
    var afterOpen := n + slash;
    assert s == "(" + afterOpen by {
      Regroup5("(", n, "/", tt, ")", rest);
    }
    TagOf("(", afterOpen);
    NowPartReads(t.now, afterOpen, slash, total);
    MarkReads("/", total);
    TotalPartReads(t.total, total, rest);
    MarkReads(")", rest);
    MoveTimeOf(s, afterOpen, t.now.(h := None), slash, total, t.total.(h := Some(UnwrapOr<U8>(t.total.h, 0))), ")" + rest, rest);
  }

  /** A written time reads back, up to the hours of this move. */
  lemma TimeTextReads(t: Time, rest: string)
    ensures MoveTime(TimeText(t) + rest) == Some(Parsed(ReadBackTime(t), rest))
  {
    TimeTextReadsAt(t, TimeText(t) + rest, rest);
  }

  // --------------------------------------------------------------- moves

  /**
   * What a written move reads back as: `same` becomes Some(true) with the
   * placeholder destination, `promote` survives only when true, the colour
   * is left to the move line and capture and relative are dropped.
   */
  function ReadBackMove(mv: MoveMoveFormat): (r: MoveMoveFormat)
    ensures r.from == mv.from && r.piece == mv.piece
    ensures mv.same.None? ==> r.same.None? && r.to == mv.to
    ensures mv.same.Some? ==> r.same == Some(true) && r.to == DefaultPlace()
    ensures mv.promote != Some(false) ==> r.promote == mv.promote
    ensures mv.promote == Some(false) ==> r.promote.None?
  {
    MoveMoveFormat(Black, mv.from, if mv.same.Some? then DefaultPlace() else mv.to, mv.piece,
      if mv.same.Some? then Some(true) else None, if UnwrapOr(mv.promote, false) then Some(true) else None, None, None)
  }

  lemma DestinationReads(mv: MoveMoveFormat, rest: string)
    requires MoveWritable(mv) && SquaresOnBoard(mv)
    ensures MoveTo(DestinationText(mv) + rest) == Some(Parsed(if mv.same.Some? then None else Some(mv.to), rest))
  {
    if mv.same.None? {
      MoveToOf(mv.to.x, mv.to.y, rest);
    } else {
      MoveToOf(1, 1, rest);
    }
  }

  lemma OriginReads(from: Option<PlaceFormat>, rest: string)
    requires from.Some? ==> OnBoard(from.value)
    ensures MoveFrom(OriginText(from) + rest) == Some(Parsed(from, rest))
  {
    if from.Some? {
      var x, y := from.value.x, from.value.y;
      assert OriginText(from) == "(" + [DigitChar(x), DigitChar(y)] + ")";
      MoveFromOf(x, y, rest);
    } else {
      MoveFromOf(1, 0, rest);
    }
  }

  lemma PromotionReads(mv: MoveMoveFormat, rest: string)
    requires rest != [] && rest[0] != '成'
    ensures Tag("成", PromoteMark(mv) + rest) == if UnwrapOr(mv.promote, false) then Some(rest) else None
    ensures !UnwrapOr(mv.promote, false) ==> PromoteMark(mv) + rest == rest
  {
    if UnwrapOr(mv.promote, false) {
      TagOf("成", rest);
    } else {
      assert PromoteMark(mv) + rest == rest;
    }
  }

  /** A move, from the facts about its parts. */
  lemma MoveMoveOf(d: Dialect, s: string, to: Option<PlaceFormat>, s1: string, k: Kind, s2: string, p: bool, s3: string,
                   from: Option<PlaceFormat>, rest: string)
    requires MoveTo(s) == Some(Parsed(to, s1))
    requires PieceKind(d, s1) == Some(Parsed(k, s2))
    requires p ==> Tag("成", s2) == Some(s3)
    requires !p ==> Tag("成", s2).None? && s3 == s2
    requires MoveFrom(s3) == Some(Parsed(from, rest))
    ensures MoveMove(d, s) == Some(Parsed(MoveMoveFormat(Black, from, if to.Some? then to.value else DefaultPlace(), k,
              if to.None? then Some(true) else None, if p then Some(true) else None, None, None), rest))
  {
  }

  lemma MoveTextReadsAt(d: Dialect, mv: MoveMoveFormat, s: string, rest: string)
    requires MoveWritable(mv) && SquaresOnBoard(mv)
    requires s == MoveText(mv) + rest
    ensures MoveMove(d, s) == Some(Parsed(ReadBackMove(mv), rest))
  {
    var dest, kind, mark, origin := DestinationText(mv), MoveKindName(mv.piece), PromoteMark(mv), OriginText(mv.from);
    var s3 := origin + rest;
    var s2 := mark + s3;
    var s1 := kind + s2;
    Regroup4(dest, kind, mark, origin, rest);
    DestinationReads(mv, s1);
    PieceKindOfNames(d, mv.piece, s2);
    assert s3[0] == origin[0];
    PromotionReads(mv, s3);
    OriginReads(mv.from, rest);
    var p := UnwrapOr(mv.promote, false);
    MoveMoveOf(d, s, if mv.same.Some? then None else Some(mv.to), s1, mv.piece, s2, p, if p then s3 else s2, mv.from, rest);
  }

  /** A written move reads back as ReadBackMove says, in either grammar. */
  lemma MoveTextReads(d: Dialect, mv: MoveMoveFormat, rest: string)
    requires MoveWritable(mv) && SquaresOnBoard(mv)
    ensures MoveMove(d, MoveText(mv) + rest) == Some(Parsed(ReadBackMove(mv), rest))
  {
    MoveTextReadsAt(d, mv, MoveText(mv) + rest, rest);
  }

  // ------------------------------------------------------------ specials

  /** A written special reads back as the special its name stands for. */
  lemma SpecialTextReads(sp: MoveSpecial, rest: string)
    ensures SpecialOf(SpecialText(sp) + rest) == Some(Parsed(WrittenSpecial(sp), rest))
  {
    SpecialOfName(WrittenSpecial(sp), rest);
  }

  /** The characters a move text can start with. */
  predicate MoveStart(c: char)
  {
    c in {'同', '１', '２', '３', '４', '５', '６', '７', '８', '９'}
  }

  lemma NoSpecialAtMove(s: string)
    requires s != [] && MoveStart(s[0])
    ensures SpecialOf(s) == None
  {
    assert !("投了" <= s) && !("中断" <= s) && !("千日手" <= s) && !("切れ負け" <= s) by {
      assert forall t: string | t != [] && t <= s :: t[0] == s[0];
    }
    assert !("反則負け" <= s) && !("持将棋" <= s) && !("入玉勝ち" <= s) && !("詰み" <= s) by {
      assert forall t: string | t != [] && t <= s :: t[0] == s[0];
    }
  }

  lemma MoveTextStart(mv: MoveMoveFormat, rest: string)
    requires MoveWritable(mv) && SquaresOnBoard(mv)
    ensures MoveText(mv) + rest != [] && MoveStart((MoveText(mv) + rest)[0])
  {
    var dest := DestinationText(mv);
    assert (MoveText(mv) + rest)[0] == dest[0];
  }

  // ---------------------------------------------------------- move lines

  /**
   * What a written entry reads back as from its move line: the move as
   * ReadBackMove says, played by the side its number gives, or else the
   * special as written; the time as ReadBackTime says; no comments yet.
   */
  function ReadBackEntry(i: nat, mf: MoveFormat): (r: MoveFormat)
    requires EntryWritable(mf)
    ensures r.comments.None? && r.forks.NoForks?
    ensures mf.move.Some? ==> r.move == Some(ReadBackMove(mf.move.value).(color := MoverOf(i))) && r.special.None?
    ensures mf.move.None? ==> r.move.None? && r.special == Some(WrittenSpecial(mf.special.value))
    ensures mf.time.Some? <==> r.time.Some?
    ensures mf.time.Some? ==> r.time.value == ReadBackTime(mf.time.value)
  {
    var t := if mf.time.Some? then Some(ReadBackTime(mf.time.value)) else None;
    if mf.move.Some? then MoveFormat(Some(ReadBackMove(mf.move.value).(color := MoverOf(i))), None, t, None, NoForks)
    else MoveFormat(None, None, t, Some(WrittenSpecial(mf.special.value)), NoForks)
  }

  /** The squares of an entry's move are on the board. */
  predicate EntryOnBoard(mf: MoveFormat)
  {
    mf.move.Some? ==> SquaresOnBoard(mf.move.value)
  }

  /** A body starts with neither a blank nor a tab. */
  lemma BodyStart(mf: MoveFormat, rest: string)
    requires EntryWritable(mf) && EntryOnBoard(mf)
    ensures BodyText(mf) + rest != [] && (BodyText(mf) + rest)[0] !in Spaces()
  {
    if mf.move.Some? {
      MoveTextStart(mf.move.value, rest);
    } else {
      var t := SpecialText(mf.special.value);
      assert t != [] && t[0] !in Spaces();
      assert (t + rest)[0] == t[0];
    }
  }

  /** The body reads back as the move or special of the entry. */
  lemma BodyReads(d: Dialect, i: nat, mf: MoveFormat, rest: string)
    requires EntryWritable(mf) && EntryOnBoard(mf)
    ensures MoveBody(d, i, BodyText(mf) + rest) == Some(Parsed(ReadBackEntry(i, mf).(time := None), rest))
  {
    if mf.move.Some? {
      MoveTextStart(mf.move.value, rest);
      NoSpecialAtMove(BodyText(mf) + rest);
      MoveTextReads(d, mf.move.value, rest);
    } else {
      SpecialTextReads(mf.special.value, rest);
    }
  }

  /** The end of a move line, from the facts about its parts. */
  lemma LineAfterBodyOf(i: nat, body: MoveFormat, b: string, e: string, tm: Option<Parsed<Time>>, x: string, rest: string)
    requires SkipChars(Spaces(), b) == e && MoveTime(e) == tm
    requires Line(if tm.Some? then tm.value.rest else e) == Some(Parsed(x, rest))
    ensures LineAfterBody(i, body, b) == Some(Parsed((i, body.(time := if tm.Some? then Some(tm.value.value) else None)), rest))
  {
  }

  /** No time starts at a line break. */
  lemma NoTimeAtBreak(rest: string)
    ensures MoveTime("\n" + rest).None?
  {
    assert ("\n" + rest)[0] == '\n';
  }

  /** A line break alone ends a line. */
  lemma EmptyLineReads(rest: string)
    ensures Line("\n" + rest) == Some(Parsed("", rest))
  {
    LineOf("", rest);
    assert "" + "\n" + rest == "\n" + rest;
  }

  /** The line break after a move line, with no time before it. */
  lemma UntimedEndReads(i: nat, body: MoveFormat, rest: string)
    ensures LineAfterBody(i, body, "\n" + rest) == Some(Parsed((i, body.(time := None)), rest))
  {
    SkipNone(Spaces(), "\n" + rest);
    NoTimeAtBreak(rest);
    EmptyLineReads(rest);
    LineAfterBodyOf(i, body, "\n" + rest, "\n" + rest, None, "", rest);
  }

  /** The blanks, the time and the line break after a move line. */
  lemma TimedEndReads(i: nat, body: MoveFormat, k: nat, t: Time, c: string, rest: string)
    requires c == KifWriter.Blanks(k) + (TimeText(t) + ("\n" + rest))
    ensures LineAfterBody(i, body, c) == Some(Parsed((i, body.(time := Some(ReadBackTime(t)))), rest))
  {
    var e := TimeText(t) + ("\n" + rest);
    assert e[0] == '(';
    SkipAll(Spaces(), KifWriter.Blanks(k), e);
    Appended2(TimeText(t), "\n", rest);
    TimeTextReads(t, "\n" + rest);
    EmptyLineReads(rest);
    LineAfterBodyOf(i, body, c, e, Some(Parsed(ReadBackTime(t), "\n" + rest)), "", rest);
  }

  /** Whatever follows the body reads back as the entry's time. */
  lemma SuffixReads(i: nat, body: MoveFormat, mf: MoveFormat, c: string, rest: string)
    requires EntryWritable(mf)
    requires c == TimeSuffix(mf) + ("\n" + rest)
    ensures LineAfterBody(i, body, c) == Some(Parsed((i, body.(time := ReadBackEntry(i, mf).time)), rest))
  {
    if mf.time.Some? {
      TimedSuffixReads(i, body, 13 - Offset(mf), mf.time.value, c, rest);
    } else {
      assert c == "\n" + rest;
      UntimedEndReads(i, body, rest);
    }
  }

  lemma TimedSuffixReads(i: nat, body: MoveFormat, k: nat, t: Time, c: string, rest: string)
    requires c == KifWriter.Blanks(k) + TimeText(t) + ("\n" + rest)
    ensures LineAfterBody(i, body, c) == Some(Parsed((i, body.(time := Some(ReadBackTime(t)))), rest))
  {
    Appended2(KifWriter.Blanks(k), TimeText(t), "\n" + rest);
    TimedEndReads(i, body, k, t, c, rest);
  }

  /** A move line, from the facts about its number and its body. */
  lemma MoveLineOf(d: Dialect, s: string, i: nat, a: string, body: MoveFormat, b: string, r: Option<Parsed<(nat, MoveFormat)>>)
    requires Number(SkipChars(Spaces(), s), IndexBound) == Some(Parsed(i, a))
    requires MoveBody(d, i, SkipChars(Spaces(), a)) == Some(Parsed(body, b))
    requires LineAfterBody(i, body, b) == r
    ensures MoveLine(d, s) == r
  {
  }

  lemma MoveLineReadsAt(d: Dialect, i: nat, mf: MoveFormat, s: string, rest: string)
    requires 0 < i < IndexBound && EntryWritable(mf) && EntryOnBoard(mf)
    requires s == MoveLineText(i, mf) + rest
    ensures MoveLine(d, s) == Some(Parsed((i, ReadBackEntry(i, mf)), rest))
  {
    var p, bt, st := PadLeft(Decimal(i), 4, ' '), BodyText(mf), TimeSuffix(mf);
    var c := st + ("\n" + rest);
    var x := bt + c;
    assert s == p + (" " + x) by {
      Regroup5(p, " ", bt, st, "\n", rest);
    }
    BlankPaddedSkips(i, 4, " " + x);
    NumberOf(i, " " + x, IndexBound);
    BodyStart(mf, c);
    SkipAll(Spaces(), " ", x);
    BodyReads(d, i, mf, c);
    var body := ReadBackEntry(i, mf).(time := None);
    SuffixReads(i, body, mf, c, rest);
    MoveLineOf(d, s, i, " " + x, body, c, Some(Parsed((i, ReadBackEntry(i, mf)), rest)));
  }

  /** A written move line reads back as its number and ReadBackEntry, in either grammar. */
  lemma MoveLineReads(d: Dialect, i: nat, mf: MoveFormat, rest: string)
    requires 0 < i < IndexBound && EntryWritable(mf) && EntryOnBoard(mf)
    ensures MoveLine(d, MoveLineText(i, mf) + rest) == Some(Parsed((i, ReadBackEntry(i, mf)), rest))
  {
    MoveLineReadsAt(d, i, mf, MoveLineText(i, mf) + rest, rest);
  }
}
