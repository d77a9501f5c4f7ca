// The normalizer: replays a record on a position and fills in what KIF,
// KI2 and CSA leave implicit (the origin of a move, `same`, `promote`,
// `capture`, `relative`, the mover's colour and the cumulative time), and
// collapses known handicap boards back to their preset names.
//
// The legal-move candidate generator and the official move display come
// from libraries outside this model; they are parameters here.

module Normalizer {
  import opened Jkf
  import opened Core
  import opened Errors
  import opened ShogiCoreFrom
  import Tables

  /** The squares from which a piece of the given kind and colour can reach a square. */
  type Candidates = (PartialPosition, Square, CorePiece) -> seq<Square>

  /** The official rendering of a move in a position, when there is one. */
  type Display = (PartialPosition, CoreMove) -> Option<string>

  /** Every candidate square holds exactly the piece that was asked for. */
  ghost predicate SoundCandidates(cands: Candidates)
  {
    forall p: PartialPosition, to: Square, pc: CorePiece, sq: Square | sq in cands(p, to, pc) ::
      PieceAt(p, sq) == Some(pc)
  }

  // ---------------------------------------------------------------- hands

  /** One more piece of a hand kind. */
  function Increment(h: Hand, k: Kind): (r: Hand)
    requires IsHandKind(k)
    ensures HandCountOf(r, k) == HandCountOf(h, k) + 1
    ensures forall k' | IsHandKind(k') && k' != k :: HandCountOf(r, k') == HandCountOf(h, k')
  {
    match k
    case FU => h.(FU := h.FU + 1)
    case KY => h.(KY := h.KY + 1)
    case KE => h.(KE := h.KE + 1)
    case GI => h.(GI := h.GI + 1)
    case KI => h.(KI := h.KI + 1)
    case KA => h.(KA := h.KA + 1)
    case HI => h.(HI := h.HI + 1)
  }

  /** One piece of a hand kind fewer; the count must be positive (an unsigned counter). */
  function Decrement(h: Hand, k: Kind): (r: Hand)
    requires IsHandKind(k) && HandCountOf(h, k) > 0
    ensures HandCountOf(r, k) + 1 == HandCountOf(h, k)
    ensures forall k' | IsHandKind(k') && k' != k :: HandCountOf(r, k') == HandCountOf(h, k')
  {
    match k
    case FU => h.(FU := h.FU - 1)
    case KY => h.(KY := h.KY - 1)
    case KE => h.(KE := h.KE - 1)
    case GI => h.(GI := h.GI - 1)
    case KI => h.(KI := h.KI - 1)
    case KA => h.(KA := h.KA - 1)
    case HI => h.(HI := h.HI - 1)
  }

  /** Incrementing and decrementing the same kind undo each other. */
  lemma IncrementDecrement(h: Hand, k: Kind)
    requires IsHandKind(k)
    ensures Decrement(Increment(h, k), k) == h
    ensures HandCountOf(h, k) > 0 ==> Increment(Decrement(h, k), k) == h
  {
  }

  // ----------------------------------------------------------------- time

  /** The source adds the hour, minute and second fields as unsigned bytes. */
  predicate AddFits(l: TimeFormat, r: TimeFormat)
  {
    UnwrapOr<U8>(l.h, 0) + UnwrapOr<U8>(r.h, 0) < 256 && l.m + r.m < 256 && l.s + r.s < 256
  }

  lemma SplitSeconds(s: nat)
    ensures s == (s / 3600) * 3600 + ((s / 60) % 60) * 60 + s % 60
  {
    assert s == (s / 60) * 60 + s % 60;
    assert s / 60 == ((s / 60) / 60) * 60 + (s / 60) % 60;
    assert (s / 60) / 60 == s / 3600;
  }

  /**
   * Adds two times and carries seconds into minutes and minutes into hours.
   * The hour is a byte, so it wraps above 255 hours.
   */
  function AddTimeFormat(l: TimeFormat, r: TimeFormat): (t: TimeFormat)
    requires AddFits(l, r)
    ensures t.h.Some? && t.m < 60 && t.s < 60
  {
    var s: nat := (UnwrapOr<U8>(l.h, 0) + UnwrapOr<U8>(r.h, 0)) * 3600 + (l.m + r.m) * 60 + (l.s + r.s);
    TimeFormat(Some((s / 3600) % 256), (s / 60) % 60, s % 60)
  }

  /** A number of seconds split into whole hours and a remainder below one hour. */
  lemma Carry(s: nat)
    ensures s == (s / 3600) * 3600 + (((s / 60) % 60) * 60 + s % 60)
    ensures ((s / 60) % 60) * 60 + s % 60 < 3600
  {
    SplitSeconds(s);
  }

  lemma ModuloHours(q: nat, rem: nat)
    requires rem < 3600
    ensures (q * 3600 + rem) % 3600 == rem
  {
  }

  /** The seconds of the two operands add up to the sum the source computes. */
  lemma SecondsSum(l: TimeFormat, r: TimeFormat)
    ensures Seconds(l) + Seconds(r) ==
      (UnwrapOr<U8>(l.h, 0) + UnwrapOr<U8>(r.h, 0)) * 3600 + (l.m + r.m) * 60 + (l.s + r.s)
  {
  }

  /** What the carried fields of a sum of s seconds stand for. */
  lemma HourWrap(s: nat)
    ensures s < 256 * 3600 ==> ((s / 3600) % 256) * 3600 + ((s / 60) % 60) * 60 + s % 60 == s
    ensures (((s / 3600) % 256) * 3600 + ((s / 60) % 60) * 60 + s % 60) % 3600 == s % 3600
  {
    var q := s / 3600;
    var rem := ((s / 60) % 60) * 60 + s % 60;
    Carry(s);
    if s < 256 * 3600 {
      assert q < 256;
      assert q % 256 == q;
    }
    ModuloHours(q % 256, rem);
    ModuloHours(q, rem);
  }

  /**
   * The sum keeps the total number of seconds while it stays below 256
   * hours; the minutes and seconds are exact even when the hour wraps.
   */
  lemma AddTimeFormatSeconds(l: TimeFormat, r: TimeFormat)
    requires AddFits(l, r)
    ensures Seconds(l) + Seconds(r) < 256 * 3600 ==> Seconds(AddTimeFormat(l, r)) == Seconds(l) + Seconds(r)
    ensures Seconds(AddTimeFormat(l, r)) % 3600 == (Seconds(l) + Seconds(r)) % 3600
  {
    var s: nat := Seconds(l) + Seconds(r);
    SecondsSum(l, r);
    var t := AddTimeFormat(l, r);
    assert t == TimeFormat(Some((s / 3600) % 256), (s / 60) % 60, s % 60);
    assert Seconds(t) == ((s / 3600) % 256) * 3600 + ((s / 60) % 60) * 60 + s % 60;
    HourWrap(s);
  }

  // -------------------------------------------------------------- initial

  /** The presets with a table, in the order their tables are tried. */
  const TablePresets: seq<Preset> :=
    [PresetHirate, PresetKY, PresetKA, PresetHI, PresetHIKY, Preset2, Preset4, Preset6, Preset8, Preset10]

  /** The first preset of ps whose table is exactly d. */
  function FirstTable(d: Option<StateFormat>, ps: seq<Preset>): (r: Option<Preset>)
    ensures r.Some? ==> r.value in ps && Tables.PresetState(r.value) == d
    ensures r.None? ==> forall i | 0 <= i < |ps| :: Tables.PresetState(ps[i]) != d
    decreases |ps|
  {
    if ps == [] then None
    else if Tables.PresetState(ps[0]) == d then Some(ps[0])
    else
      var r := FirstTable(d, ps[1..]);
      assert r.None? ==> forall i | 1 <= i < |ps| :: Tables.PresetState(ps[i]) != d by {
        if r.None? {
          forall i | 1 <= i < |ps| ensures Tables.PresetState(ps[i]) != d {
            assert ps[i] == ps[1..][i - 1];
          }
        }
      }
      r
  }

  /** Every preset with a table is one of the tried presets. */
  lemma TablePresetsCover()
    ensures forall p :: Tables.PresetState(p).Some? ==> p in TablePresets
  {
    forall p
      ensures Tables.PresetState(p).Some? ==> p in TablePresets
    {
      match p
      case PresetKYR =>
      case PresetOther =>
      case _ =>
    }
  }

  /** Data that no preset of a covering list matches is no preset's table. */
  lemma NoTableFound(d: Option<StateFormat>, ps: seq<Preset>)
    requires forall p :: Tables.PresetState(p).Some? ==> p in ps
    requires FirstTable(d, ps).None? && d.Some?
    ensures forall p :: Tables.PresetState(p) != d
  {
    forall p
      ensures Tables.PresetState(p) != d
    {
      if Tables.PresetState(p).Some? {
        var i :| 0 <= i < |ps| && ps[i] == p;
        assert Tables.PresetState(ps[i]) != d;
      }
    }
  }

  /** Data equal to one of the tables becomes that preset without data; anything else is kept. */
  function NormalizedInitial(init: Option<Initial>): (r: Option<Initial>)
    ensures r.Some? <==> init.Some?
    ensures init.Some? && init.value.data.None? ==> r == init
    ensures init.Some? && (forall p :: Tables.PresetState(p) != init.value.data) ==> r == init
    ensures init.Some? && init.value.data.Some? && r == init ==> forall p :: Tables.PresetState(p) != init.value.data
    ensures r != init ==> r.value.data.None? && Tables.PresetState(r.value.preset) == init.value.data
  {
    if init.None? || init.value.data.None? then init
    else
      match FirstTable(init.value.data, TablePresets)
      case Some(p) => Some(Initial(p, None))
      case None => TablePresetsCover(); NoTableFound(init.value.data, TablePresets); init
  }

  /**
   * A fingerprint that tells the tables apart: the side to move and whether
   * each of seven cells of White's camp (file and rank in the names) is empty.
   */
  datatype Signature = Signature(blackToMove: bool, c11: bool, c22: bool, c82: bool, c91: bool,
                                 c81: bool, c71: bool, c61: bool)

  function TableSignature(s: StateFormat): Signature
  {
    Signature(s.color == Black, s.board[0][0] == EmptyPiece(), s.board[1][1] == EmptyPiece(),
              s.board[7][1] == EmptyPiece(), s.board[8][0] == EmptyPiece(), s.board[7][0] == EmptyPiece(),
              s.board[6][0] == EmptyPiece(), s.board[5][0] == EmptyPiece())
  }

  /** The fingerprint a handicap table would have if it emptied exactly the given cells. */
  function CellsSignature(cells: seq<(nat, nat)>): Signature
  {
    Signature(false, (0, 0) in cells, (1, 1) in cells, (7, 1) in cells, (8, 0) in cells,
              (7, 0) in cells, (6, 0) in cells, (5, 0) in cells)
  }

  /** The fingerprint of a handicap table records which of the seven cells it empties. */
  lemma HandicapSignature(cells: seq<(nat, nat)>)
    requires forall c | c in cells :: c.0 < 9 && c.1 < 9
    ensures TableSignature(Tables.HandicapState(cells)) == CellsSignature(cells)
  {
    var h := Tables.HirateBoard();
    assert h[0][0] != EmptyPiece() && h[1][1] != EmptyPiece() && h[7][1] != EmptyPiece();
    assert h[8][0] != EmptyPiece() && h[7][0] != EmptyPiece() && h[6][0] != EmptyPiece();
    assert h[5][0] != EmptyPiece();
  }

  /** The fingerprint of each table, written out. */
  function PresetSignature(p: Preset): Signature
  {
    match p
    case PresetHirate => Signature(true, false, false, false, false, false, false, false)
    case PresetKY => Signature(false, true, false, false, false, false, false, false)
    case PresetKA => Signature(false, false, true, false, false, false, false, false)
    case PresetHI => Signature(false, false, false, true, false, false, false, false)
    case PresetHIKY => Signature(false, true, false, true, false, false, false, false)
    case Preset2 => Signature(false, false, true, true, false, false, false, false)
    case Preset4 => Signature(false, true, true, true, true, false, false, false)
    case Preset6 => Signature(false, true, true, true, true, true, false, false)
    case Preset8 => Signature(false, true, true, true, true, true, true, false)
    case Preset10 => Signature(false, true, true, true, true, true, true, true)
    case _ => Signature(false, false, false, false, false, false, false, false)
  }

  /** Reads a preset back from its fingerprint. */
  function PresetOfSignature(sig: Signature): Preset
  {
    if sig.blackToMove then PresetHirate
    else if !sig.c91 then
      (if sig.c11 && sig.c82 then PresetHIKY else if sig.c22 && sig.c82 then Preset2
       else if sig.c11 then PresetKY else if sig.c22 then PresetKA else PresetHI)
    else if !sig.c81 then Preset4
    else if !sig.c71 then Preset6
    else if !sig.c61 then Preset8
    else Preset10
  }

  lemma HirateSignature()
    ensures TableSignature(Tables.StateHirate()) == PresetSignature(PresetHirate)
  {
    var h := Tables.HirateBoard();
    assert h[0][0] != EmptyPiece() && h[1][1] != EmptyPiece() && h[7][1] != EmptyPiece();
    assert h[8][0] != EmptyPiece() && h[7][0] != EmptyPiece() && h[6][0] != EmptyPiece();
    assert h[5][0] != EmptyPiece();
  }

  lemma PresetSignatureOfCells(p: Preset)
    requires Tables.HandicapCells(p).Some?
    ensures PresetSignature(p) == CellsSignature(Tables.HandicapCells(p).value)
    ensures PresetOfSignature(PresetSignature(p)) == p
  {
    match p
    case PresetKY => assert PresetSignature(PresetKY) == CellsSignature(Tables.HandicapCells(PresetKY).value);
    case PresetKA => assert PresetSignature(PresetKA) == CellsSignature(Tables.HandicapCells(PresetKA).value);
    case PresetHI => assert PresetSignature(PresetHI) == CellsSignature(Tables.HandicapCells(PresetHI).value);
    case PresetHIKY => assert PresetSignature(PresetHIKY) == CellsSignature(Tables.HandicapCells(PresetHIKY).value);
    case Preset2 => assert PresetSignature(Preset2) == CellsSignature(Tables.HandicapCells(Preset2).value);
    case Preset4 => assert PresetSignature(Preset4) == CellsSignature(Tables.HandicapCells(Preset4).value);
    case Preset6 => assert PresetSignature(Preset6) == CellsSignature(Tables.HandicapCells(Preset6).value);
    case Preset8 => assert PresetSignature(Preset8) == CellsSignature(Tables.HandicapCells(Preset8).value);
    case Preset10 => assert PresetSignature(Preset10) == CellsSignature(Tables.HandicapCells(Preset10).value);
  }

  lemma TableSignatureOfPreset(p: Preset)
    requires Tables.PresetState(p).Some?
    ensures TableSignature(Tables.PresetState(p).value) == PresetSignature(p)
    ensures PresetOfSignature(PresetSignature(p)) == p
  {
    if p == PresetHirate {
      HirateSignature();
    } else {
      var cells := Tables.HandicapCells(p).value;
      assert Tables.PresetState(p) == Some(Tables.HandicapState(cells));
      HandicapSignature(cells);
      PresetSignatureOfCells(p);
    }
  }

  /** No two presets share a table. */
  lemma PresetStateInjective(p: Preset, q: Preset)
    requires Tables.PresetState(p).Some? && Tables.PresetState(p) == Tables.PresetState(q)
    ensures p == q
  {
    TableSignatureOfPreset(p);
    TableSignatureOfPreset(q);
  }

  /** Data equal to a preset's table collapses to exactly that preset. */
  lemma NormalizedInitialCollapses(init: Initial, p: Preset)
    requires Tables.PresetState(p).Some? && init.data == Tables.PresetState(p)
    ensures NormalizedInitial(Some(init)) == Some(Initial(p, None))
  {
    var r := NormalizedInitial(Some(init));
    assert r != Some(init) by {
      assert Tables.PresetState(p) == init.data;
    }
    PresetStateInjective(p, r.value.preset);
  }

  /**
   * For explicit data, collapsing it to a preset keeps the position the
   * initial stands for.
   */
  lemma NormalizedInitialKeepsPosition(init: Initial)
    requires init.preset == PresetOther
    ensures PositionOfInitial(NormalizedInitial(Some(init)).value) == PositionOfInitial(init)
  {
    var r := NormalizedInitial(Some(init)).value;
    if r != init {
      HandicapMatchesTables(r.preset);
      assert init == Initial(PresetOther, Tables.PresetState(r.preset));
    }
  }

  /** Normalizing the initial twice changes nothing more. */
  lemma NormalizedInitialIdempotent(init: Option<Initial>)
    ensures NormalizedInitial(NormalizedInitial(init)) == NormalizedInitial(init)
  {
  }

  // ----------------------------------------------------------------- from

  /** Whether a candidate square lies on the side a relative token names, seen from the mover. */
  predicate Satisfies(rel: Relative, sq: Square, to: Square, c: Color)
  {
    var left := RelativeFile(sq, c) > RelativeFile(to, c);
    var right := RelativeFile(sq, c) < RelativeFile(to, c);
    var up := RelativeRank(sq, c) > RelativeRank(to, c);
    var down := RelativeRank(sq, c) < RelativeRank(to, c);
    var level := sq.rank == to.rank;
    match rel
    case L => left
    case C => sq.file == to.file
    case R => right
    case U => up
    case M => level
    case D => down
    case LU => left && up
    case LM => left && level
    case LD => left && down
    case RU => right && up
    case RM => right && level
    case RD => right && down
    case H => true
  }

  /** The candidates that satisfy a token, in their original order. */
  function Retained(froms: seq<Square>, rel: Relative, to: Square, c: Color): (r: seq<Square>)
    ensures forall sq :: sq in r <==> sq in froms && Satisfies(rel, sq, to, c)
    ensures |r| <= |froms|
    ensures rel == H ==> r == froms
    decreases |froms|
  {
    if froms == [] then []
    else
      var last := froms[|froms| - 1];
      var init := froms[..|froms| - 1];
      assert froms == init + [last];
      Retained(init, rel, to, c) + (if Satisfies(rel, last, to, c) then [last] else [])
  }

  /**
   * The origin of a move from its candidates: none (a drop), the only one,
   * or the only one that satisfies the relative token.
   */
  function CalculateFrom(froms: seq<Square>, relative: Option<Relative>, to: Square, c: Color)
    : (r: Result<Option<Square>, NormalizerError>)
    ensures |froms| == 0 ==> r == Ok(None)
    ensures |froms| == 1 ==> r == Ok(Some(froms[0]))
    ensures |froms| >= 2 && relative.None? ==> r == Err(AmbiguousMoveFrom(froms))
    ensures |froms| >= 2 && relative.Some? ==>
      (r.Ok? <==> |Retained(froms, relative.value, to, c)| == 1) &&
      (r.Err? ==> r.error == AmbiguousMoveFrom(Retained(froms, relative.value, to, c)))
    ensures r.Ok? && r.value.Some? ==> r.value.value in froms
    ensures r.Ok? && |froms| >= 2 ==>
      r.value.Some? && Satisfies(relative.value, r.value.value, to, c) &&
      forall sq | sq in Retained(froms, relative.value, to, c) :: sq == r.value.value
    ensures |froms| >= 2 && relative == Some(H) ==> r.Err?
  {
    if |froms| == 0 then Ok(None)
    else if |froms| == 1 then Ok(Some(froms[0]))
    else if relative.None? then Err(AmbiguousMoveFrom(froms))
    else
      var kept := Retained(froms, relative.value, to, c);
      if |kept| == 1 then
        assert kept[0] in kept;
        Ok(Some(kept[0]))
      else Err(AmbiguousMoveFrom(kept))
  }

  /** Keeps the candidates that satisfy a token, one at a time. */
  method Retain(froms: seq<Square>, rel: Relative, to: Square, c: Color) returns (kept: seq<Square>)
    ensures kept == Retained(froms, rel, to, c)
  {
    kept := [];
    var i := 0;
    while i < |froms|
      invariant 0 <= i <= |froms|
      invariant kept == Retained(froms[..i], rel, to, c)
    {
      assert froms[..i + 1][..i] == froms[..i];
      if Satisfies(rel, froms[i], to, c) {
        kept := kept + [froms[i]];
      }
      i := i + 1;
    }
    assert froms[..i] == froms;
  }

  /** Determines the origin of a move from its candidate squares. */
  method ComputeFrom(froms: seq<Square>, relative: Option<Relative>, to: Square, c: Color)
    returns (r: Result<Option<Square>, NormalizerError>)
    ensures r == CalculateFrom(froms, relative, to, c)
  {
    if |froms| == 0 {
      return Ok(None);
    } else if |froms| == 1 {
      return Ok(Some(froms[0]));
    }
    if relative.None? {
      return Err(AmbiguousMoveFrom(froms));
    }
    var kept := Retain(froms, relative.value, to, c);
    if |kept| == 1 {
      return Ok(Some(kept[0]));
    }
    return Err(AmbiguousMoveFrom(kept));
  }

  // ------------------------------------------------------------- relative

  /**
   * The relative token of an official move rendering, read from its last
   * two characters.
   */
  function RelativeOfDisplay(s: string): (r: Option<Relative>)
    ensures r.Some? ==> |s| >= 1 && s[|s| - 1] in "左直右上引寄打"
    ensures r == Some(H) <==> |s| >= 1 && s[|s| - 1] == '打'
    ensures |s| >= 1 && s[|s| - 1] in "左直右上引寄打" ==> r.Some?
    // The token of each final glyph; 上 引 寄 read the glyph before them for 左 or 右.
    ensures |s| >= 1 && s[|s| - 1] == '左' ==> r == Some(L)
    ensures |s| >= 1 && s[|s| - 1] == '直' ==> r == Some(C)
    ensures |s| >= 1 && s[|s| - 1] == '右' ==> r == Some(R)
    ensures |s| >= 1 && s[|s| - 1] in "上引寄" ==>
      var left := |s| >= 2 && s[|s| - 2] == '左';
      var right := |s| >= 2 && s[|s| - 2] == '右';
      r == Some(match s[|s| - 1]
        case '上' => if left then LU else if right then RU else U
        case '引' => if left then LD else if right then RD else D
        case _ => if left then LM else if right then RM else M)
  {
    if |s| == 0 then None
    else
      var last := s[|s| - 1];
      var prev := if |s| >= 2 then Some(s[|s| - 2]) else None;
      if last == '左' then Some(L)
      else if last == '直' then Some(C)
      else if last == '右' then Some(R)
      else if last == '上' then
        (if prev == Some('左') then Some(LU) else if prev == Some('右') then Some(RU) else Some(U))
      else if last == '引' then
        (if prev == Some('左') then Some(LD) else if prev == Some('右') then Some(RD) else Some(D))
      else if last == '寄' then
        (if prev == Some('左') then Some(LM) else if prev == Some('右') then Some(RM) else Some(M))
      else if last == '打' then Some(H)
      else None
  }

  /** Only the last two characters of a rendering matter. */
  lemma RelativeOfDisplaySuffix(prefix: string, s: string)
    requires |s| >= 2
    ensures RelativeOfDisplay(prefix + s) == RelativeOfDisplay(s)
  {
    var t := prefix + s;
    assert t[|t| - 1] == s[|s| - 1] && t[|t| - 2] == s[|s| - 2];
  }

  // ----------------------------------------------------------------- move

  /** The colour is the side to move; `same` takes the destination of the last move. */
  function Targeted(mmf: MoveMoveFormat, pos: PartialPosition): (r: Result<MoveMoveFormat, NormalizerError>)
    ensures mmf.same.Some? && pos.lastMove.None? <==> r.Err?
    ensures r.Err? ==> r.error == NoLastMove
    ensures r.Ok? ==> r.value == mmf.(color := pos.side,
      to := if mmf.same.Some? then PlaceOf(MoveTo(pos.lastMove.value)) else mmf.to)
  {
    var m := mmf.(color := pos.side);
    if m.same.Some? then
      if pos.lastMove.None? then Err(NoLastMove) else Ok(m.(to := PlaceOf(MoveTo(pos.lastMove.value))))
    else Ok(m)
  }

  /** `same` as the normalizer sets it: the last move ended on the destination. */
  function SameOf(pos: PartialPosition, to: Square): Option<bool>
  {
    if pos.lastMove.Some? && MoveTo(pos.lastMove.value) == to then Some(true) else None
  }

  /** `promote` as the normalizer sets it: present only where promotion is possible. */
  function PromoteOf(fromKind: Kind, requested: Kind, promote: Option<bool>, from: Square, to: Square, c: Color)
    : Option<bool>
  {
    var toKind := if UnwrapOr(promote, false) then Promoted(requested) else requested;
    if Promotable(fromKind) && (InPromotionZone(from, c) || InPromotionZone(to, c)) then
      Some(fromKind != toKind)
    else None
  }

  /** The kind on a square, if any. */
  function KindAt(pos: PartialPosition, sq: Square): Option<Kind>
  {
    if PieceAt(pos, sq).Some? then Some(PieceAt(pos, sq).value.kind) else None
  }

  /**
   * With an origin on the board, the piece, `same`, `promote` and `capture`
   * are read from the position; an origin off the board is dropped.
   */
  function Completed(mmf: MoveMoveFormat, pos: PartialPosition, to: Square)
    : (r: Result<MoveMoveFormat, NormalizerError>)
    requires mmf.from.Some?
  {
    var from := SquareOf(mmf.from.value);
    if from.Err? then Ok(mmf.(from := None))
    else if PieceAt(pos, from.value).None? then Err(MoveInconsistent("no piece to move found"))
    else
      var fromKind := PieceAt(pos, from.value).value.kind;
      Ok(mmf.(piece := fromKind,
              same := SameOf(pos, to),
              promote := PromoteOf(fromKind, mmf.piece, mmf.promote, from.value, to, pos.side),
              capture := KindAt(pos, to)))
  }

  /** A move normalized against the position it is played in. */
  function NormalizedMove(cands: Candidates, display: Display, mmf: MoveMoveFormat, pos: PartialPosition)
    : (r: Result<MoveMoveFormat, NormalizerError>)
    ensures mmf.same.Some? && pos.lastMove.None? ==> r == Err(NoLastMove)
    ensures r.Ok? ==> r.value.color == pos.side
    ensures r.Ok? ==> r.value.to == (if mmf.same.Some? then PlaceOf(MoveTo(pos.lastMove.value)) else mmf.to)
    ensures r.Ok? ==> SquareOf(r.value.to).Ok? && MoveOf(r.value).Ok?
    ensures r.Ok? && r.value.from.Some? ==>
      var from := SquareOf(r.value.from.value).value;
      var to := SquareOf(r.value.to).value;
      SquareOf(r.value.from.value).Ok? && PieceAt(pos, from).Some? &&
      r.value.piece == PieceAt(pos, from).value.kind &&
      r.value.same == SameOf(pos, to) &&
      r.value.capture == KindAt(pos, to) &&
      r.value.promote ==
        (if Promotable(r.value.piece) && (InPromotionZone(from, pos.side) || InPromotionZone(to, pos.side))
         then Some(r.value.piece != (if UnwrapOr(mmf.promote, false) then Promoted(mmf.piece) else mmf.piece))
         else None)
    ensures r.Ok? && mmf.from.Some? && SquareOf(mmf.from.value).Err? ==> r.value.from.None?
    ensures r.Ok? && mmf.from.Some? && SquareOf(mmf.from.value).Ok? ==> r.value.from == mmf.from
    ensures Targeted(mmf, pos).Ok? && SquareOf(Targeted(mmf, pos).value.to).Err? ==>
      r == Err(CoreConvert(SquareOf(Targeted(mmf, pos).value.to).error))
    ensures Targeted(mmf, pos).Ok? && SquareOf(Targeted(mmf, pos).value.to).Ok? && mmf.from.None? ==>
      var to := SquareOf(Targeted(mmf, pos).value.to).value;
      var origin := CalculateFrom(cands(pos, to, CorePiece(mmf.piece, pos.side)), mmf.relative, to, pos.side);
      (origin.Err? ==> r == Err(origin.error)) &&
      (r.Ok? ==> origin.Ok? && r.value.from == (if origin.value.Some? then Some(PlaceOf(origin.value.value)) else None))
    ensures (Targeted(mmf, pos).Ok? && SquareOf(Targeted(mmf, pos).value.to).Ok? && mmf.from.Some? &&
             SquareOf(mmf.from.value).Ok? && PieceAt(pos, SquareOf(mmf.from.value).value).None?) ==>
      r == Err(MoveInconsistent("no piece to move found"))
    ensures r.Ok? && mmf.relative.Some? ==> r.value.relative == mmf.relative
    ensures r.Ok? && mmf.relative.None? && display(pos, MoveOf(r.value).value).Some? ==>
      r.value.relative == RelativeOfDisplay(display(pos, MoveOf(r.value).value).value)
  {
    var m := Targeted(mmf, pos);
    if m.Err? then Err(m.error)
    else
      var to := SquareOf(m.value.to);
      if to.Err? then Err(CoreConvert(to.error))
      else
        var origin :=
          if m.value.from.None? then
            CalculateFrom(cands(pos, to.value, CorePiece(m.value.piece, pos.side)), m.value.relative, to.value, pos.side)
          else Ok(None);
        if origin.Err? then Err(origin.error)
        else
          var m2 := if origin.value.Some? then m.value.(from := Some(PlaceOf(origin.value.value))) else m.value;
          var m3 := if m2.from.Some? then Completed(m2, pos, to.value) else Ok(m2);
          if m3.Err? then Err(m3.error)
          else
            var mv := MoveOf(m3.value);
            assert mv.Ok?;
            if m3.value.relative.None? && display(pos, mv.value).Some? then
              Ok(m3.value.(relative := RelativeOfDisplay(display(pos, mv.value).value)))
            else Ok(m3.value)
  }

  /** Rewrites a move field by field, as the source does in place. */
  method NormalizeMove(cands: Candidates, display: Display, mmf: MoveMoveFormat, pos: PartialPosition)
    returns (r: Result<MoveMoveFormat, NormalizerError>)
    ensures r == NormalizedMove(cands, display, mmf, pos)
  {
    var m := mmf;
    m := m.(color := pos.side);
    if m.same.Some? {
      if pos.lastMove.None? {
        return Err(NoLastMove);
      }
      m := m.(to := PlaceOf(MoveTo(pos.lastMove.value)));
    }
    assert Targeted(mmf, pos) == Ok(m);
    var to := SquareOf(m.to);
    if to.Err? {
      return Err(CoreConvert(to.error));
    }
    if m.from.None? {
      var froms := cands(pos, to.value, CorePiece(m.piece, pos.side));
      var origin := ComputeFrom(froms, m.relative, to.value, pos.side);
      if origin.Err? {
        return Err(origin.error);
      }
      if origin.value.Some? {
        m := m.(from := Some(PlaceOf(origin.value.value)));
      }
    }
    ghost var m2 := m;
    if m.from.Some? {
      var from := SquareOf(m.from.value);
      if from.Ok? {
        var piece := PieceAt(pos, from.value);
        if piece.None? {
          return Err(MoveInconsistent("no piece to move found"));
        }
        var fromKind := piece.value.kind;
        var toKind := if UnwrapOr(m.promote, false) then Promoted(m.piece) else m.piece;
        m := m.(piece := fromKind);
        m := m.(same := if pos.lastMove.Some? && MoveTo(pos.lastMove.value) == to.value then Some(true) else None);
        m := m.(promote :=
          if Promotable(fromKind) && (InPromotionZone(from.value, pos.side) || InPromotionZone(to.value, pos.side))
          then Some(fromKind != toKind) else None);
        m := m.(capture := KindAt(pos, to.value));
      } else {
        m := m.(from := None);
      }
    }
    assert m2.from.Some? ==> Completed(m2, pos, to.value) == Ok(m);
    assert m2.from.None? ==> m == m2;
    var mv := MoveOf(m);
    assert mv.Ok?;
    if m.relative.None? {
      var shown := display(pos, mv.value);
      if shown.Some? {
        m := m.(relative := RelativeOfDisplay(shown.value));
      }
    }
    return Ok(m);
  }

  /** With sound candidates, a computed origin holds the mover's piece of the requested kind. */
  lemma ComputedOriginHoldsPiece(cands: Candidates, display: Display, mmf: MoveMoveFormat, pos: PartialPosition)
    requires SoundCandidates(cands)
    requires mmf.from.None?
    requires NormalizedMove(cands, display, mmf, pos).Ok?
    requires NormalizedMove(cands, display, mmf, pos).value.from.Some?
    ensures var r := NormalizedMove(cands, display, mmf, pos).value;
      r.piece == mmf.piece &&
      PieceAt(pos, SquareOf(r.from.value).value) == Some(CorePiece(mmf.piece, pos.side))
  {
    var m := Targeted(mmf, pos).value;
    var to := SquareOf(m.to).value;
    var froms := cands(pos, to, CorePiece(m.piece, pos.side));
    var origin := CalculateFrom(froms, m.relative, to, pos.side);
    assert origin.value.Some?;
    assert origin.value.value in froms;
    var sq := origin.value.value;
    assert PieceAt(pos, sq) == Some(CorePiece(mmf.piece, pos.side));
    assert SquareOf(PlaceOf(sq)) == Ok(sq);
  }

  // ---------------------------------------------------------------- lines

  /** Cumulative times per colour, indexed by ColorIndex. */
  type Totals = t: seq<TimeFormat> | |t| == 2 witness [TimeFormat(None, 0, 0), TimeFormat(None, 0, 0)]

  /** The replay state carried along a line: the position and the totals so far. */
  datatype Cursor = Cursor(pos: PartialPosition, totals: Totals)

  /** A timed entry's total becomes the mover's running total plus this move's time. */
  function TimedEntry(time: Option<Time>, side: Color, totals: Totals)
    : (r: Result<(Option<Time>, Totals), NormalizerError>)
    ensures time.None? ==> r == Ok((None, totals))
    ensures time.Some? ==> (r.Ok? <==> AddFits(totals[ColorIndex(side)], time.value.now))
    ensures r.Err? ==> r.error == TimeOverflow
  {
    if time.None? then Ok((None, totals))
    else
      var i := ColorIndex(side);
      if !AddFits(totals[i], time.value.now) then Err(TimeOverflow)
      else
        var t := AddTimeFormat(totals[i], time.value.now);
        Ok((Some(Time(time.value.now, t)), totals[i := t]))
  }

  /**
   * One entry without its forks: its time and its move normalized, and the
   * cursor for the next entry, or None when the entry has no move and the
   * line stops there.
   */
  function EntryStep(cands: Candidates, display: Display, mf: MoveFormat, cur: Cursor)
    : (r: Result<(MoveFormat, Option<Cursor>), NormalizerError>)
    ensures r.Ok? ==> r.value.0.comments == mf.comments && r.value.0.special == mf.special
    ensures r.Ok? ==> r.value.0.forks == mf.forks && (r.value.0.move.Some? <==> mf.move.Some?)
    ensures r.Ok? ==> (r.value.1.None? <==> mf.move.None?)
  {
    var timed := TimedEntry(mf.time, cur.pos.side, cur.totals);
    if timed.Err? then Err(timed.error)
    else
      var mf' := mf.(time := timed.value.0);
      if mf.move.None? then Ok((mf', None))
      else
        var m := NormalizedMove(cands, display, mf.move.value, cur.pos);
        if m.Err? then Err(m.error)
        else
          var mv := MoveOf(m.value);
          assert mv.Ok?;
          var next := MakeMove(cur.pos, mv.value);
          if next.None? then Err(CoreConvert(InvalidMove(mv.value)))
          else Ok((mf'.(move := Some(m.value)), Some(Cursor(next.value, timed.value.1))))
  }

  /**
   * The entries i.. of a line normalized from a cursor. Each entry's forks are
   * normalized from the cursor the entry itself starts from; after the first
   * entry without a move the rest of the line is left as it is.
   */
  function NormalizedLine(cands: Candidates, display: Display, line: Variation, i: nat, cur: Cursor)
    : (r: Result<seq<MoveFormat>, NormalizerError>)
    requires i <= |line.moves|
    ensures r.Ok? ==> |r.value| == |line.moves| - i
    decreases line, |line.moves| - i
  {
    if i == |line.moves| then Ok([])
    else
      var mf := line.moves[i];
      var forks := NormalizedForks(cands, display, mf.forks, cur);
      if forks.Err? then Err(forks.error)
      else
        var step := EntryStep(cands, display, mf, cur);
        if step.Err? then Err(step.error)
        else
          var mf' := step.value.0.(forks := forks.value);
          if step.value.1.None? then Ok([mf'] + line.moves[i + 1..])
          else
            var rest := NormalizedLine(cands, display, line, i + 1, step.value.1.value);
            if rest.Err? then Err(rest.error) else Ok([mf'] + rest.value)
  }

  /** The forks of an entry, each normalized from the same cursor. */
  function NormalizedForks(cands: Candidates, display: Display, f: Forks, cur: Cursor)
    : (r: Result<Forks, NormalizerError>)
    ensures r.Ok? ==> (r.value.Forks? <==> f.Forks?)
    ensures r.Ok? && f.Forks? ==> |r.value.variations| == |f.variations|
    decreases f, if f.Forks? then |f.variations| + 1 else 0
  {
    if f.NoForks? then Ok(NoForks)
    else
      var vs := NormalizedVariations(cands, display, f, 0, cur);
      if vs.Err? then Err(vs.error) else Ok(Forks(vs.value))
  }

  function NormalizedVariations(cands: Candidates, display: Display, f: Forks, k: nat, cur: Cursor)
    : (r: Result<seq<Variation>, NormalizerError>)
    requires f.Forks? && k <= |f.variations|
    ensures r.Ok? ==> |r.value| == |f.variations| - k
    decreases f, |f.variations| - k
  {
    if k == |f.variations| then Ok([])
    else
      var v := NormalizedLine(cands, display, f.variations[k], 0, cur);
      if v.Err? then Err(v.error)
      else
        var rest := NormalizedVariations(cands, display, f, k + 1, cur);
        if rest.Err? then Err(rest.error) else Ok([Variation(v.value)] + rest.value)
  }

  /** Puts already-normalized entries in front of a result. */
  function Prefixed(done: seq<MoveFormat>, r: Result<seq<MoveFormat>, NormalizerError>)
    : Result<seq<MoveFormat>, NormalizerError>
  {
    if r.Err? then r else Ok(done + r.value)
  }

  lemma PrefixedEmpty(r: Result<seq<MoveFormat>, NormalizerError>)
    ensures Prefixed([], r) == r
  {
    if r.Ok? {
      assert [] + r.value == r.value;
    }
  }

  /**
   * How a line normalization continues after its entry i once the entries
   * before it are done: it stops with the rest of the line unchanged, or
   * carries on from the next cursor.
   */
  lemma LineAdvance(cands: Candidates, display: Display, line: Variation, i: nat, cur: Cursor, done: seq<MoveFormat>)
    requires i < |line.moves|
    requires NormalizedForks(cands, display, line.moves[i].forks, cur).Ok?
    requires EntryStep(cands, display, line.moves[i], cur).Ok?
    ensures var step := EntryStep(cands, display, line.moves[i], cur);
      var mf' := step.value.0.(forks := NormalizedForks(cands, display, line.moves[i].forks, cur).value);
      (step.value.1.None? ==>
        Prefixed(done, NormalizedLine(cands, display, line, i, cur)) == Ok(done + [mf'] + line.moves[i + 1..])) &&
      (step.value.1.Some? ==>
        Prefixed(done, NormalizedLine(cands, display, line, i, cur)) ==
        Prefixed(done + [mf'], NormalizedLine(cands, display, line, i + 1, step.value.1.value)))
  {
    var step := EntryStep(cands, display, line.moves[i], cur);
    var mf' := step.value.0.(forks := NormalizedForks(cands, display, line.moves[i].forks, cur).value);
    if step.value.1.None? {
      assert done + [mf'] + line.moves[i + 1..] == done + ([mf'] + line.moves[i + 1..]);
    } else {
      var rest := NormalizedLine(cands, display, line, i + 1, step.value.1.value);
      if rest.Ok? {
        assert (done + [mf']) + rest.value == done + ([mf'] + rest.value);
      }
    }
  }

  /**
   * One entry without its forks: adds its time to the mover's total and
   * normalizes and plays its move.
   */
  method NormalizeEntry(cands: Candidates, display: Display, mf: MoveFormat, cur: Cursor)
    returns (r: Result<(MoveFormat, Option<Cursor>), NormalizerError>)
    ensures r == EntryStep(cands, display, mf, cur)
  {
    var totals := cur.totals;
    var time := mf.time;
    if time.Some? {
      var side := ColorIndex(cur.pos.side);
      if !AddFits(totals[side], time.value.now) {
        return Err(TimeOverflow);
      }
      totals := totals[side := AddTimeFormat(totals[side], time.value.now)];
      time := Some(time.value.(total := totals[side]));
    }
    var mf' := mf.(time := time);
    if mf.move.None? {
      return Ok((mf', None));
    }
    var m := NormalizeMove(cands, display, mf.move.value, cur.pos);
    if m.Err? {
      return Err(m.error);
    }
    var mv := MoveOf(m.value);
    assert mv.Ok?;
    var next := MakeMove(cur.pos, mv.value);
    if next.None? {
      return Err(CoreConvert(InvalidMove(mv.value)));
    }
    return Ok((mf'.(move := Some(m.value)), Some(Cursor(next.value, totals))));
  }

  /**
   * Normalizes a line entry by entry, carrying the position and the totals;
   * each fork is normalized from a copy of them taken before its entry.
   */
  method NormalizeMoves(cands: Candidates, display: Display, line: Variation, cur: Cursor)
    returns (r: Result<seq<MoveFormat>, NormalizerError>)
    ensures r == NormalizedLine(cands, display, line, 0, cur)
    decreases line
  {
    var done: seq<MoveFormat> := [];
    var c := cur;
    var i := 0;
    PrefixedEmpty(NormalizedLine(cands, display, line, 0, cur));
    while i < |line.moves|
      invariant 0 <= i <= |line.moves|
      invariant NormalizedLine(cands, display, line, 0, cur) == Prefixed(done, NormalizedLine(cands, display, line, i, c))
    {
      var mf := line.moves[i];
      var forks := NormalizeForks(cands, display, mf.forks, c);
      if forks.Err? {
        return Err(forks.error);
      }
      var step := NormalizeEntry(cands, display, mf, c);
      if step.Err? {
        return Err(step.error);
      }
      var mf' := step.value.0.(forks := forks.value);
      LineAdvance(cands, display, line, i, c, done);
      if step.value.1.None? {
        return Ok(done + [mf'] + line.moves[i + 1..]);
      }
      done := done + [mf'];
      c := step.value.1.value;
      i := i + 1;
    }
    assert done + [] == done;
    return Ok(done);
  }

  /** Normalizes every variation of a fork list from the same cursor. */
  method NormalizeForks(cands: Candidates, display: Display, f: Forks, cur: Cursor)
    returns (r: Result<Forks, NormalizerError>)
    ensures r == NormalizedForks(cands, display, f, cur)
    decreases f
  {
    if f.NoForks? {
      return Ok(NoForks);
    }
    var vs: seq<Variation> := [];
    var k := 0;
    ghost var all := NormalizedVariations(cands, display, f, 0, cur);
    if all.Ok? {
      assert [] + all.value == all.value;
    }
    while k < |f.variations|
      invariant 0 <= k <= |f.variations|
      invariant NormalizedVariations(cands, display, f, 0, cur) ==
        (var rest := NormalizedVariations(cands, display, f, k, cur);
         if rest.Err? then rest else Ok(vs + rest.value))
    {
      var v := NormalizeMoves(cands, display, f.variations[k], cur);
      if v.Err? {
        return Err(v.error);
      }
      ghost var rest := NormalizedVariations(cands, display, f, k + 1, cur);
      if rest.Ok? {
        assert (vs + [Variation(v.value)]) + rest.value == vs + ([Variation(v.value)] + rest.value);
      }
      vs := vs + [Variation(v.value)];
      k := k + 1;
    }
    assert vs + [] == vs;
    return Ok(Forks(vs));
  }

  // ------------------------------------------------------------ line steps

  /** One step of a successful line normalization, unfolded. */
  lemma LineHead(cands: Candidates, display: Display, line: Variation, i: nat, cur: Cursor)
    requires i < |line.moves|
    requires NormalizedLine(cands, display, line, i, cur).Ok?
    ensures var out := NormalizedLine(cands, display, line, i, cur).value;
      var step := EntryStep(cands, display, line.moves[i], cur);
      step.Ok? && |out| >= 1 &&
      NormalizedForks(cands, display, line.moves[i].forks, cur) == Ok(out[0].forks) &&
      out[0] == step.value.0.(forks := out[0].forks) &&
      (step.value.1.None? ==> out[1..] == line.moves[i + 1..]) &&
      (step.value.1.Some? ==> NormalizedLine(cands, display, line, i + 1, step.value.1.value) == Ok(out[1..]))
  {
    var out := NormalizedLine(cands, display, line, i, cur).value;
    var step := EntryStep(cands, display, line.moves[i], cur);
    var forks := NormalizedForks(cands, display, line.moves[i].forks, cur);
    assert forks.Ok? && step.Ok?;
    var mf' := step.value.0.(forks := forks.value);
    if step.value.1.None? {
      assert out == [mf'] + line.moves[i + 1..];
    } else {
      var rest := NormalizedLine(cands, display, line, i + 1, step.value.1.value);
      assert out == [mf'] + rest.value;
    }
  }

  /** A line whose first entry and remainder both normalize normalizes to their concatenation. */
  lemma LineCons(cands: Candidates, display: Display, line: Variation, i: nat, cur: Cursor)
    requires i < |line.moves|
    requires NormalizedForks(cands, display, line.moves[i].forks, cur).Ok?
    requires EntryStep(cands, display, line.moves[i], cur).Ok?
    requires EntryStep(cands, display, line.moves[i], cur).value.1.Some?
    requires NormalizedLine(cands, display, line, i + 1, EntryStep(cands, display, line.moves[i], cur).value.1.value).Ok?
    ensures NormalizedLine(cands, display, line, i, cur) ==
      Ok([EntryStep(cands, display, line.moves[i], cur).value.0.(forks := NormalizedForks(cands, display, line.moves[i].forks, cur).value)] +
         NormalizedLine(cands, display, line, i + 1, EntryStep(cands, display, line.moves[i], cur).value.1.value).value)
  {
  }

  /** Normalizing a line keeps every entry's comments and special, and whether it has a move. */
  /** Entry by entry, out carries the comments, the special and the presence of a move of moves from index i on. */
  ghost predicate KeepsAnnotations(out: seq<MoveFormat>, moves: seq<MoveFormat>, i: nat)
  {
    i + |out| <= |moves| &&
    forall j | 0 <= j < |out| ::
      out[j].comments == moves[i + j].comments && out[j].special == moves[i + j].special &&
      (out[j].move.Some? <==> moves[i + j].move.Some?)
  }

  lemma {:induction false} LineKeepsAnnotations(cands: Candidates, display: Display, line: Variation, i: nat, cur: Cursor)
    requires i <= |line.moves|
    requires NormalizedLine(cands, display, line, i, cur).Ok?
    ensures KeepsAnnotations(NormalizedLine(cands, display, line, i, cur).value, line.moves, i)
    decreases |line.moves| - i
  {
    if i < |line.moves| {
      LineHead(cands, display, line, i, cur);
      var out := NormalizedLine(cands, display, line, i, cur).value;
      var step := EntryStep(cands, display, line.moves[i], cur);
      if step.value.1.Some? {
        LineKeepsAnnotations(cands, display, line, i + 1, step.value.1.value);
      }
      forall j | 0 <= j < |out|
        ensures out[j].comments == line.moves[i + j].comments && out[j].special == line.moves[i + j].special
        ensures out[j].move.Some? <==> line.moves[i + j].move.Some?
      {
        if j > 0 {
          assert out[j] == out[1..][j - 1];
          if step.value.1.None? {
            assert line.moves[i + 1..][j - 1] == line.moves[i + j];
          }
        }
      }
    }
  }

  /**
   * What normalization makes of entry mf of a line given the cursor the
   * replay reached it with: EntryStep from that cursor with its forks
   * normalized from the same cursor, or the entry as it was once the line
   * stopped before it.
   */
  predicate EntryOutcome(cands: Candidates, display: Display, mf: MoveFormat, c: Option<Cursor>, out: MoveFormat)
  {
    (c.Some? ==>
      EntryStep(cands, display, mf, c.value).Ok? &&
      NormalizedForks(cands, display, mf.forks, c.value) == Ok(out.forks) &&
      out == EntryStep(cands, display, mf, c.value).value.0.(forks := out.forks)) &&
    (c.None? ==> out == mf)
  }

  /** The first entry of a successful line normalization is the outcome of EntryStep from its cursor. */
  lemma LineEntryFirst(cands: Candidates, display: Display, line: Variation, i: nat, cur: Cursor)
    requires i < |line.moves|
    requires NormalizedLine(cands, display, line, i, cur).Ok?
    ensures EntryOutcome(cands, display, line.moves[i], Some(cur), NormalizedLine(cands, display, line, i, cur).value[0])
  {
    LineHead(cands, display, line, i, cur);
  }

  /** Once the first entry stops the line, the later entries come out as they went in. */
  lemma LineEntryStopped(cands: Candidates, display: Display, line: Variation, i: nat, j: nat, cur: Cursor)
    requires i < j < |line.moves|
    requires NormalizedLine(cands, display, line, i, cur).Ok?
    requires EntryStep(cands, display, line.moves[i], cur).Ok? ==> EntryStep(cands, display, line.moves[i], cur).value.1.None?
    ensures NormalizedLine(cands, display, line, i, cur).value[j - i] == line.moves[j]
  {
    LineHead(cands, display, line, i, cur);
    var out := NormalizedLine(cands, display, line, i, cur).value;
    assert out[j - i] == out[1..][j - i - 1] == line.moves[i + 1..][j - i - 1];
  }

  /**
   * A timed entry that the replay reached gets as its total the mover's
   * previous total plus its own time, including the entry without a move
   * that stops the line.
   */
  lemma EntryTotal(cands: Candidates, display: Display, mf: MoveFormat, cur: Cursor)
    requires mf.time.Some?
    requires EntryStep(cands, display, mf, cur).Ok?
    ensures var side := ColorIndex(cur.pos.side);
      AddFits(cur.totals[side], mf.time.value.now) &&
      EntryStep(cands, display, mf, cur).value.0.time ==
        Some(Time(mf.time.value.now, AddTimeFormat(cur.totals[side], mf.time.value.now)))
  {
  }

  // ------------------------------------------------------------ the record

  /** The totals every replay starts from. */
  function ZeroTotals(): (t: Totals)
    ensures t[0] == DefaultTimeFormat() && t[1] == DefaultTimeFormat()
  {
    [DefaultTimeFormat(), DefaultTimeFormat()]
  }

  /**
   * A normalized record: the initial collapsed to a preset where a table
   * matches, then every entry after the placeholder replayed from the
   * position that initial describes. A record without entries is outside
   * what the source accepts (it slices from the second entry).
   */
  function Normalized(cands: Candidates, display: Display, jkf: JsonKifuFormat)
    : (r: Result<JsonKifuFormat, NormalizerError>)
    requires |jkf.moves| >= 1
    ensures r.Ok? ==> r.value.header == jkf.header && r.value.initial == NormalizedInitial(jkf.initial)
    ensures r.Ok? ==> |r.value.moves| == |jkf.moves| && r.value.moves[0] == jkf.moves[0]
    ensures NormalizedInitial(jkf.initial).Some? && PositionOfInitial(NormalizedInitial(jkf.initial).value).Err? ==>
      r == Err(CoreConvert(PositionOfInitial(NormalizedInitial(jkf.initial).value).error))
  {
    var initial := NormalizedInitial(jkf.initial);
    var pos := if initial.Some? then PositionOfInitial(initial.value) else Ok(StartPosition());
    if pos.Err? then Err(CoreConvert(pos.error))
    else
      var line := NormalizedLine(cands, display, Variation(jkf.moves[1..]), 0, Cursor(pos.value, ZeroTotals()));
      if line.Err? then Err(line.error)
      else Ok(jkf.(initial := initial, moves := [jkf.moves[0]] + line.value))
  }

  /** The replay of a normalized record starts at the position of its (normalized) initial. */
  lemma NormalizedReplaysFromInitial(cands: Candidates, display: Display, jkf: JsonKifuFormat)
    requires |jkf.moves| >= 1 && Normalized(cands, display, jkf).Ok?
    ensures var initial := NormalizedInitial(jkf.initial);
      var pos := if initial.Some? then PositionOfInitial(initial.value).value else StartPosition();
      NormalizedLine(cands, display, Variation(jkf.moves[1..]), 0, Cursor(pos, ZeroTotals()))
        == Ok(Normalized(cands, display, jkf).value.moves[1..])
  {
    var r := Normalized(cands, display, jkf).value;
    assert r.moves[1..] == ([jkf.moves[0]] + r.moves[1..])[1..];
  }

  /** Normalizing a record keeps every entry's comments and special, and whether it has a move. */
  lemma NormalizedKeepsAnnotations(cands: Candidates, display: Display, jkf: JsonKifuFormat)
    requires |jkf.moves| >= 1 && Normalized(cands, display, jkf).Ok?
    ensures var r := Normalized(cands, display, jkf).value;
      forall j | 0 <= j < |jkf.moves| ::
        r.moves[j].comments == jkf.moves[j].comments && r.moves[j].special == jkf.moves[j].special &&
        (r.moves[j].move.Some? <==> jkf.moves[j].move.Some?)
  {
    var initial := NormalizedInitial(jkf.initial);
    var pos := if initial.Some? then PositionOfInitial(initial.value).value else StartPosition();
    var line := Variation(jkf.moves[1..]);
    NormalizedReplaysFromInitial(cands, display, jkf);
    LineKeepsAnnotations(cands, display, line, 0, Cursor(pos, ZeroTotals()));
    ShiftedAnnotations(jkf.moves, Normalized(cands, display, jkf).value.moves);
  }

  lemma ShiftedAnnotations(orig: seq<MoveFormat>, res: seq<MoveFormat>)
    requires |orig| == |res| >= 1 && res[0] == orig[0] && KeepsAnnotations(res[1..], orig[1..], 0)
    ensures KeepsAnnotations(res, orig, 0)
  {
    forall j | 1 <= j < |orig|
      ensures res[j] == res[1..][j - 1] && orig[j] == orig[1..][0 + (j - 1)]
    {
    }
  }

  method Normalize(cands: Candidates, display: Display, jkf: JsonKifuFormat)
    returns (r: Result<JsonKifuFormat, NormalizerError>)
    requires |jkf.moves| >= 1
    ensures r == Normalized(cands, display, jkf)
  {
    var initial := NormalizedInitial(jkf.initial);
    var pos := StartPosition();
    if initial.Some? {
      var p := PositionFromInitial(initial.value);
      if p.Err? {
        return Err(CoreConvert(p.error));
      }
      pos := p.value;
    }
    var line := NormalizeMoves(cands, display, Variation(jkf.moves[1..]), Cursor(pos, ZeroTotals()));
    if line.Err? {
      return Err(line.error);
    }
    return Ok(jkf.(initial := initial, moves := [jkf.moves[0]] + line.value));
  }
}
