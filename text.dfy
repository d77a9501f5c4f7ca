// Text shared by the readers and writers: the growing output buffer every
// writer appends to, decimal formatting of integers, and the token-level
// primitives the line grammars are built from (a parser takes the input and
// returns a value and the unconsumed rest, or nothing).

module Text {
  import opened Jkf

  /** The output a writer appends to; what has been written is never changed. */
  class Sink {
    var text: string

    constructor ()
      ensures text == []
    {
      text := [];
    }

    method Write(s: string)
      modifies this
      ensures text == old(text) + s
    {
      text := text + s;
    }
  }

  // ------------------------------------------------------------- decimals

  predicate IsDigit(c: char)
  {
    '0' <= c <= '9'
  }

  function DigitChar(d: nat): (c: char)
    requires d < 10
    ensures IsDigit(c)
  {
    "0123456789"[d]
  }

  function DigitValue(c: char): (d: nat)
    requires IsDigit(c)
    ensures d < 10 && DigitChar(d) == c
  {
    c as int - '0' as int
  }

  lemma DigitValueOf(d: nat)
    requires d < 10
    ensures DigitValue(DigitChar(d)) == d
  {
    var s := "0123456789";
    assert s[d] as int - '0' as int == d by {
      if d == 0 {} else if d == 1 {} else if d == 2 {} else if d == 3 {} else if d == 4 {}
      else if d == 5 {} else if d == 6 {} else if d == 7 {} else if d == 8 {} else {}
    }
  }

  predicate AllDigits(s: string)
  {
    forall i | 0 <= i < |s| :: IsDigit(s[i])
  }

  /** The number a string of decimal digits stands for. */
  function DecimalValue(s: string): nat
    requires AllDigits(s)
  {
    if s == [] then 0 else DecimalValue(s[..|s| - 1]) * 10 + DigitValue(s[|s| - 1])
  }

  /** Integers as Rust's `{}` prints them: no sign, no leading zero. */
  function Decimal(n: nat): (s: string)
    ensures |s| >= 1 && AllDigits(s)
    ensures n >= 10 ==> s[0] != '0'
    ensures n < 10 ==> s == [DigitChar(n)]
  {
    if n < 10 then [DigitChar(n)] else Decimal(n / 10) + [DigitChar(n % 10)]
  }

  lemma {:induction false} DecimalRoundTrip(n: nat)
    ensures DecimalValue(Decimal(n)) == n
    decreases n
  {
    if n >= 10 {
      DecimalRoundTrip(n / 10);
      var s := Decimal(n);
      assert s[..|s| - 1] == Decimal(n / 10);
      DigitValueOf(n % 10);
      DecimalStep(n, DecimalValue(s[..|s| - 1]), DigitValue(s[|s| - 1]));
    } else {
      DigitValueOf(n);
    }
  }

  lemma DecimalStep(n: nat, high: nat, low: nat)
    requires high == n / 10 && low == n % 10
    ensures high * 10 + low == n
  {
  }

  /** `{:w}` / `{:0w}`: right-aligned in a field of width w, filled on the left. */
  function PadLeft(s: string, w: nat, fill: char): (r: string)
    ensures |r| == if |s| >= w then |s| else w
    ensures r[|r| - |s|..] == s
    ensures forall i | 0 <= i < |r| - |s| :: r[i] == fill
  {
    if |s| >= w then s else seq(w - |s|, _ => fill) + s
  }

  /** Text appended piece by piece is the text followed by the pieces joined. */
  lemma Appended2(t: string, a: string, b: string)
    ensures t + a + b == t + (a + b)
  {
  }

  lemma Appended3(t: string, a: string, b: string, c: string)
    ensures t + a + b + c == t + (a + b + c)
  {
  }

  lemma Appended4(t: string, a: string, b: string, c: string, d: string)
    ensures t + a + b + c + d == t + (a + b + c + d)
  {
  }

  /** Pieces of text joined in order. */
  function Concat(parts: seq<string>): string
  {
    if parts == [] then "" else parts[0] + Concat(parts[1..])
  }

  lemma {:induction false} ConcatSnoc(parts: seq<string>, i: nat)
    requires i < |parts|
    ensures Concat(parts[..i + 1]) == Concat(parts[..i]) + parts[i]
    decreases i
  {
    if i > 0 {
      assert parts[..i + 1][1..] == parts[1..][..i];
      assert parts[..i][1..] == parts[1..][..i - 1];
      ConcatSnoc(parts[1..], i - 1);
    }
  }

  /** Pieces joined from index m: the m-th piece, then the rest joined. */
  lemma ConcatFrom(parts: seq<string>, m: nat)
    requires m < |parts|
    ensures Concat(parts[m..]) == parts[m] + Concat(parts[m + 1..])
  {
    assert parts[m..][1..] == parts[m + 1..];
  }

  /** Pieces lo..hi-1 joined in order, the last one appended last. */
  function JoinRange(parts: seq<string>, lo: nat, hi: nat): string
    requires lo <= hi <= |parts|
    decreases hi
  {
    if lo == hi then "" else JoinRange(parts, lo, hi - 1) + parts[hi - 1]
  }

  /** The same join, split off at the front. */
  lemma {:induction false} JoinRangeCons(parts: seq<string>, lo: nat, hi: nat)
    requires lo < hi <= |parts|
    ensures JoinRange(parts, lo, hi) == parts[lo] + JoinRange(parts, lo + 1, hi)
    decreases hi
  {
    if hi > lo + 1 {
      JoinRangeCons(parts, lo, hi - 1);
      AppendAssoc(parts[lo], JoinRange(parts, lo + 1, hi - 1), parts[hi - 1]);
    }
  }

  lemma AppendAssoc<T>(a: seq<T>, b: seq<T>, c: seq<T>)
    ensures (a + b) + c == a + (b + c)
  {
  }

  /** A suffix from index m is its first element followed by the suffix after it. */
  lemma SliceHead<T>(xs: seq<T>, m: nat)
    requires m < |xs|
    ensures xs[m..] == [xs[m]] + xs[m + 1..]
  {
  }

  // ------------------------------------------------------------- parsing

  /** A parsed value and the input that follows it. */
  datatype Parsed<+T> = Parsed(value: T, rest: string)

  /** A parser applied n times in a row, each time to what the previous one left. */
  function Repeated<T>(p: string -> Option<Parsed<T>>, s: string, n: nat): (r: Option<Parsed<seq<T>>>)
    ensures r.Some? ==> |r.value.value| == n
    ensures Consumes(p) && r.Some? ==> |r.value.rest| <= |s|
    decreases n
  {
    if n == 0 then Some(Parsed([], s))
    else
      var x := p(s);
      if x.None? then None
      else
        var more := Repeated(p, x.value.rest, n - 1);
        if more.None? then None else Some(Parsed([x.value.value] + more.value.value, more.value.rest))
  }

  /** The parser never leaves more input than it was given. */
  ghost predicate Consumes<T>(p: string -> Option<Parsed<T>>)
  {
    forall x :: p(x).Some? ==> |p(x).value.rest| <= |x|
  }

  /** Each text, whatever follows it, is read by p as the matching value. */
  ghost predicate ReadsEach<T>(p: string -> Option<Parsed<T>>, parts: seq<string>, xs: seq<T>)
  {
    |parts| == |xs| && forall j, r | 0 <= j < |parts| :: p(parts[j] + r) == Some(Parsed(xs[j], r))
  }

  /** The texts from index m on, joined, are read back by the repetition as the values. */
  lemma {:induction false} RepeatedOf<T>(p: string -> Option<Parsed<T>>, parts: seq<string>, xs: seq<T>, m: nat, s: string, rest: string)
    requires ReadsEach(p, parts, xs) && m <= |parts|
    requires s == Concat(parts[m..]) + rest
    ensures Repeated(p, s, |parts| - m) == Some(Parsed(xs[m..], rest))
    decreases |parts| - m
  {
    if m == |parts| {
      assert s == rest;
      assert xs[m..] == [];
    } else {
      var after := Concat(parts[m + 1..]) + rest;
      RepeatedOf(p, parts, xs, m + 1, after, rest);
      ConcatFrom(parts, m);
      AppendAssoc(parts[m], Concat(parts[m + 1..]), rest);
      SliceHead(xs, m);
      assert p(parts[m] + after) == Some(Parsed(xs[m], after));
    }
  }

  /** All the texts, joined, are read back by the repetition as all the values. */
  lemma RepeatedAll<T>(p: string -> Option<Parsed<T>>, parts: seq<string>, xs: seq<T>, s: string, rest: string)
    requires ReadsEach(p, parts, xs) && s == Concat(parts) + rest
    ensures Repeated(p, s, |parts|) == Some(Parsed(xs, rest))
  {
    assert parts[0..] == parts && xs[0..] == xs;
    RepeatedOf(p, parts, xs, 0, s, rest);
  }

  /** The input with a literal prefix removed, when it starts with it. */
  function Tag(t: string, s: string): (r: Option<string>)
    ensures r.Some? <==> t <= s
    ensures r.Some? ==> s == t + r.value
  {
    if t <= s then Some(s[|t|..]) else None
  }

  lemma TagOf(t: string, rest: string)
    ensures Tag(t, t + rest) == Some(rest)
  {
    assert (t + rest)[|t|..] == rest;
  }

  /** A line ending: "\n" or "\r\n". */
  function LineEnding(s: string): (r: Option<string>)
    ensures r.Some? <==> ("\n" <= s || "\r\n" <= s)
    ensures r.Some? ==> |r.value| < |s| && r.value == s[|s| - |r.value|..]
  {
    if "\n" <= s then Some(s[1..])
    else if "\r\n" <= s then Some(s[2..])
    else None
  }

  lemma LineEndingOf(rest: string)
    ensures LineEnding("\n" + rest) == Some(rest)
  {
    assert ("\n" + rest)[1..] == rest;
  }

  predicate IsLineBreak(c: char)
  {
    c == '\r' || c == '\n'
  }

  /** The index of the first '\r' or '\n', or the length when there is none. */
  function LineLength(s: string): (n: nat)
    ensures n <= |s|
    ensures forall i | 0 <= i < n :: !IsLineBreak(s[i])
    ensures n < |s| ==> IsLineBreak(s[n])
  {
    if s == [] || IsLineBreak(s[0]) then 0 else 1 + LineLength(s[1..])
  }

  /**
   * The text up to the end of the line. The input fails when the line stops
   * at a '\r' that does not begin "\r\n".
   */
  function NotLineEnding(s: string): (r: Option<Parsed<string>>)
    ensures r.Some? ==> s == r.value.value + r.value.rest
    ensures r.Some? ==> forall i | 0 <= i < |r.value.value| :: !IsLineBreak(r.value.value[i])
    ensures r.Some? ==> r.value.rest == [] || "\n" <= r.value.rest || "\r\n" <= r.value.rest
  {
    var n := LineLength(s);
    if n < |s| && s[n] == '\r' && !("\r\n" <= s[n..]) then None
    else Some(Parsed(s[..n], s[n..]))
  }

  /** A whole line: its text and the input after its line ending. */
  function Line(s: string): (r: Option<Parsed<string>>)
    ensures r.Some? ==> |r.value.rest| < |s| && r.value.rest == s[|s| - |r.value.rest|..]
    ensures r.Some? ==> forall i | 0 <= i < |r.value.value| :: !IsLineBreak(r.value.value[i])
  {
    var text := NotLineEnding(s);
    if text.None? then None
    else
      var rest := LineEnding(text.value.rest);
      if rest.None? then None else Some(Parsed(text.value.value, rest.value))
  }

  /** A line of text without line breaks parses back as that line. */
  lemma LineOf(t: string, rest: string)
    requires forall i | 0 <= i < |t| :: !IsLineBreak(t[i])
    ensures Line(t + "\n" + rest) == Some(Parsed(t, rest))
  {
    var s := t + "\n" + rest;
    LineLengthOf(t, "\n" + rest);
    assert s[|t|..] == "\n" + rest;
    assert s[..|t|] == t;
  }

  lemma {:induction false} LineLengthOf(t: string, rest: string)
    requires forall i | 0 <= i < |t| :: !IsLineBreak(t[i])
    requires rest != [] && IsLineBreak(rest[0])
    ensures LineLength(t + rest) == |t|
    decreases |t|
  {
    if t != [] {
      assert (t + rest)[1..] == t[1..] + rest;
      LineLengthOf(t[1..], rest);
    }
  }

  /** Leading characters from a set, skipped (nom's `many0(one_of(..))` and `space0`). */
  function SkipChars(cs: set<char>, s: string): (r: string)
    ensures |r| <= |s| && r == s[|s| - |r|..]
    ensures r == [] || r[0] !in cs
  {
    if s != [] && s[0] in cs then SkipChars(cs, s[1..]) else s
  }

  lemma SkipNone(cs: set<char>, s: string)
    requires s == [] || s[0] !in cs
    ensures SkipChars(cs, s) == s
  {
  }

  lemma {:induction false} SkipAll(cs: set<char>, t: string, s: string)
    requires forall i | 0 <= i < |t| :: t[i] in cs
    requires s == [] || s[0] !in cs
    ensures SkipChars(cs, t + s) == s
    decreases |t|
  {
    if t != [] {
      assert (t + s)[1..] == t[1..] + s;
      SkipAll(cs, t[1..], s);
    }
  }

  /** Spaces and tabs (nom's `space0`). */
  function Spaces(): set<char>
  {
    {' ', '\t'}
  }

  /** The number of leading decimal digits. */
  function DigitRun(s: string): (n: nat)
    ensures n <= |s| && AllDigits(s[..n])
    ensures n < |s| ==> !IsDigit(s[n])
  {
    if s == [] || !IsDigit(s[0]) then 0
    else
      var n := 1 + DigitRun(s[1..]);
      assert s[..n] == [s[0]] + s[1..][..n - 1];
      n
  }

  /**
   * At least one decimal digit, read as a number smaller than `bound`
   * (nom's `digit1` followed by `str::parse` into an unsigned type).
   */
  function Number(s: string, bound: nat): (r: Option<Parsed<nat>>)
    ensures r.Some? ==> r.value.value < bound && |r.value.rest| < |s| && r.value.rest == s[|s| - |r.value.rest|..]
  {
    var n := DigitRun(s);
    if n == 0 then None
    else
      var v := DecimalValue(s[..n]);
      if v < bound then Some(Parsed(v, s[n..])) else None
  }

  /** A number written by `Decimal` reads back when no digit follows it. */
  lemma NumberOf(n: nat, rest: string, bound: nat)
    requires n < bound
    requires rest == [] || !IsDigit(rest[0])
    ensures Number(Decimal(n) + rest, bound) == Some(Parsed(n, rest))
  {
    var d := Decimal(n);
    DigitRunOf(d, rest);
    assert (d + rest)[..|d|] == d;
    assert (d + rest)[|d|..] == rest;
    DecimalRoundTrip(n);
  }

  lemma {:induction false} DigitRunOf(d: string, rest: string)
    requires AllDigits(d)
    requires rest == [] || !IsDigit(rest[0])
    ensures DigitRun(d + rest) == |d|
    decreases |d|
  {
    if d != [] {
      assert (d + rest)[1..] == d[1..] + rest;
      DigitRunOf(d[1..], rest);
    }
  }

  /** A parse that succeeded consumed at least one character. */
  predicate Consumed<T>(r: Option<Parsed<T>>, s: string)
  {
    r.Some? ==> |r.value.rest| < |s|
  }

  /** A literal that stands for a value (nom's `value(v, tag(t))`). */
  function TagAs<T>(t: string, v: T, s: string): (r: Option<Parsed<T>>)
    requires |t| >= 1
    ensures r.Some? <==> t <= s
    ensures r.Some? ==> r.value == Parsed(v, s[|t|..]) && |r.value.rest| < |s|
  {
    if t <= s then Some(Parsed(v, s[|t|..])) else None
  }
}
