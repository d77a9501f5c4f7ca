# shogi-kifu-converter, modelled in Dafny

This project models the core of shogi-kifu-converter, a Rust library that converts shogi game records (kifu) between
KIF, KI2, CSA, the JSON Kifu Format (jkf) and a protobuf form (pkf). Every format passes through one in-memory record.
The model covers that record and the code around it, with contracts and lemmas stating what each operation promises.

- **The record** (`Jkf`). Colours, the 14 piece kinds, presets, the relative tokens, the specials, moves with their
  forks, times and the default record. `Tables` holds the Hirate board and the handicap boards.
- **The normalizer** (`Normalizer`). It replays a record and fills in what KIF, KI2 and CSA leave implicit: the
  origin square (from a candidate list filtered by the relative token), `same`, `promote`, `capture`, `relative`, the
  colour and each player's cumulative time. Forks are replayed from the position before their anchor. Known
  handicap boards collapse back to preset names.
- **Positions** (`Core`, `ShogiCoreFrom`, `ShogiCoreInto`). `Core` is a small board-and-hands position with its own
  move application; the construction of a position from a record and the conversion back are modelled on it.
  The legal-move candidates and the kanji move display of the external crates are function parameters whose
  requires state what the normalizer relies on.
- **Readers** (`Text`, `Kakinoki`, `KifReader`, `KifForks`, `CsaRecord`, `FromPkf`). They cover:
  - the Kakinoki primitives: numerals, hands, the board diagram and the header lines;
  - the KIF move grammar, with both the current reader and the older one (`Dialect`);
  - the stack that splices variation blocks into a tree (`KifForks.MergeForks`, proved equal to `Spliced`);
  - the CSA initial-position reconciliation, with the bulk grid, `PI` and per-piece placements with `00AL`;
  - the protobuf reader's field conversions and `set_same`.
  Parsers are functions over `seq<char>` returning the value and the rest of the input.
- **Writers** (`KifWriter`, `Ki2Writer`, `CsaWriter`, `KakinokiWriter`). Each writer is a method on `Text.Sink`, a
  string that only grows. It is proved to append exactly the text a specification function gives. Round-trip lemmas
  (`KakinokiRoundTrip`, `KifRoundTrip`, `KifSectionRoundTrip`, `CsaDataRoundTrip`) read that text back with the
  model's own readers. `Ki2Writer` is checked against a small reference reader instead, because the library's own
  KI2 reader has no move parser.

Integers are unbounded. The byte fields of places and times are the subset type `U8` (0..255). Where the library
truncates a wider value to a byte (`as u8`), the model writes the truncation out (`% 256`). Byte additions that
would overflow are listed under "Left out".

## Model

| member | source | states |
|---|---|---|
| Jkf.ColorIndex | src/jkf.rs:12-17 | Black is serialised as 0 and White as 1; the value is also the index of that player's hand |
| Jkf.ColorOfIndex | src/jkf.rs:12-17 | every serialised colour value 0..1 names the colour that serialises to it |
| Jkf.KindIndexBijective | src/jkf.rs:21-50 | the numbering FU = 0 .. RY = 13 is one-to-one and `KindOfIndex` inverts it |
| Jkf.KindOfIndex | src/jkf.rs:21-50 | every kind number 0..13 names the kind numbered so |
| Jkf.DefaultPlace | src/jkf.rs:303-309 | the default square is x = 0, y = 0 |
| Jkf.DefaultTimeFormat | src/jkf.rs:322-330 | the default time has no hour and zero minutes and seconds |
| Jkf.EmptyPiece | src/normalizer.rs:157-164 | the empty board cell has neither colour nor kind |
| Jkf.Promoted | src/normalizer.rs:167-177 | FU KY KE GI KA HI map to TO NY NK NG UM RY; every other kind is unchanged |
| Jkf.Unpromoted | src/normalizer.rs:178-190 | TO NY NK NG UM RY map back to FU KY KE GI KA HI; every other kind is unchanged |
| Jkf.PromotionRoundTrip | src/normalizer.rs:167-190 | unpromoting a promoted promotable kind gives it back, promoting an unpromoted promoted kind gives it back, and unpromotion is idempotent |
| Jkf.EmptyBoard | src/shogi_core/into.rs:71 | every cell of the empty board is the empty cell |
| Jkf.DefaultMove | src/jkf.rs:255-274 | the default entry has no move, comments, time, special or forks |
| Jkf.PushFork | src/parser/kif.rs:480-494 | appending a variation keeps every other field of the entry and adds exactly that variation after the existing ones |
| Jkf.DefaultRecord | src/jkf.rs:193-201 | the default record has an empty header, no initial position and exactly one default entry |
| Tables.Cleared | src/normalizer.rs:61-155 | a handicap table empties exactly the listed cells of the opening board |
| Tables.HandicapCells | src/normalizer.rs:61-155 | each handicap table lists only cells of the board (indices below 9); KYR has no table |
| Core.NewSquare | src/shogi_core/from.rs:40 | a square exists exactly when both coordinates are in 1..9, and keeps them |
| Core.RelativeFile | src/normalizer.rs:346-369 | Black counts files as they are; for White a file and its counted value add up to 10 |
| Core.RelativeRank | src/normalizer.rs:346-369 | Black counts ranks as they are; for White a rank and its counted value add up to 10 |
| Core.PlaceOf | src/shogi_core/into.rs:45-52 | a board square is written back with the same file and rank |
| Core.SlotKind | src/shogi_core/from.rs:90-98 | the seven hand slots hold FU KY KE GI KI KA HI, the inverse of `HandSlot` |
| Core.HandCount | src/shogi_core/into.rs:55-66 | only the seven hand kinds have a count in a hand |
| Core.HandAdded | src/shogi_core/from.rs:100 | adding a piece succeeds exactly for a hand kind below its capacity, and then raises only that count by one |
| Core.PieceSet | src/shogi_core/from.rs:83 | setting a square changes that square only; hands, side and last move are untouched |
| Core.SetHandOfPlayer | src/shogi_core/from.rs:89 | replacing one player's hand leaves the other hand, the board, the side and the last move untouched |
| Core.EmptyPosition | src/shogi_core/from.rs:73 | the empty position has no piece on any square, empty hands, Black to move and no last move |
| Core.CellOf | src/shogi_core/from.rs:82-84 | a record cell is a piece exactly when it has both a colour and a kind, and keeps them |
| Core.StartPosition | src/shogi_core/from.rs:68 | the opening position holds the Hirate table's piece on every square, empty hands, Black to move |
| Core.MakeMove | src/shogi_core/from.rs:147 | a move that can be made flips the side, becomes the last move, leaves the mover's piece (promoted when asked) on the destination, empties the origin and changes no other square; a capture adds the unpromoted captured kind to the mover's hand, a drop puts the dropped piece on an empty square and takes one of its kind out of the hand, and the opponent's hand is untouched; a normal move fails exactly when the origin does not hold the mover's piece, the destination holds one, the promotion is not allowed or the hand cannot take the captured piece (a king or a full slot); a drop fails exactly for a piece of the other colour, an occupied square or an empty slot |
| Core.MakeMovePromotion | src/shogi_core/from.rs:147 | a promoting move that can be made moves a promotable piece into, out of or inside the mover's promotion zone |
| Core.ReplaySnoc | src/shogi_core/from.rs:144-151 | replaying one more move is making it in the position the earlier moves reach |
| Core.PositionMakeMove | src/shogi_core/from.rs:147-149 | a game accepts a move exactly when its current position does; the game then records it last and its current position is the one the move makes |
| ShogiCoreFrom.SquareOf | src/shogi_core/from.rs:36-42 | a record square converts exactly when both coordinates are 1..9 and keeps them; otherwise the error names the coordinates |
| ShogiCoreFrom.MoveOf | src/shogi_core/from.rs:44-61 | a move with an origin becomes a normal move between the converted squares, promote defaulting to false, with the origin checked first; one without an origin becomes a drop of the mover's piece; failures are invalid squares |
| ShogiCoreFrom.HandCounts | src/shogi_core/from.rs:90-98 | the seven counts of a record hand, in the order FU KY KE GI KI KA HI |
| ShogiCoreFrom.FirstOverflow | src/shogi_core/from.rs:88-103 | the first hand slot from a given one whose count exceeds its capacity, every earlier slot fitting |
| ShogiCoreFrom.LoadedHand | src/shogi_core/from.rs:88-103 | a record hand loads exactly when every count fits its capacity, giving those counts; otherwise the error names the first kind, in slot order, that does not fit |
| ShogiCoreFrom.BoardOfState | src/shogi_core/from.rs:75-86 | cell (i, j) of the position is the record's cell (i, j) when it has both colour and kind |
| ShogiCoreFrom.StatePosition | src/shogi_core/from.rs:69-107 | explicit data gives its board, both hands and its side to move exactly when both hands load; Black's hand is loaded first, so a failing Black hand reports its own error and otherwise a failing White hand reports White's |
| ShogiCoreFrom.HandicapPosition | src/shogi_core/from.rs:108-129 | a handicap position is the opening position with exactly the given squares emptied, White to move |
| ShogiCoreFrom.PositionOfInitial | src/shogi_core/from.rs:63-133 | Hirate is the opening position; PresetOther without data fails with its own error and with data is that data's position; a supported handicap is its handicap position; the other presets fail as unsupported |
| ShogiCoreFrom.PlaceBoard | src/shogi_core/from.rs:73-86 | placing the record's cells one square at a time on the empty position gives the empty position with the record's board |
| ShogiCoreFrom.AddPieces | src/shogi_core/from.rs:99-101 | adding n pieces of one kind to an empty slot one by one succeeds exactly when n fits the capacity, giving count n |
| ShogiCoreFrom.LoadHand | src/shogi_core/from.rs:88-103 | the kind-by-kind loop computes `LoadedHand` |
| ShogiCoreFrom.ClearSquares | src/shogi_core/from.rs:126-128 | clearing squares one at a time empties exactly those squares and leaves the hands, side and last move alone |
| ShogiCoreFrom.PositionExtensional | src/shogi_core/from.rs:63-133 | positions agreeing on every square, both hands, the side and the last move are equal |
| ShogiCoreFrom.PositionFromInitial | src/shogi_core/from.rs:63-133 | the step-by-step construction computes `PositionOfInitial` |
| ShogiCoreFrom.SquaresOfCells | src/shogi_core/from.rs:112-125 | the squares of a cell list, one per cell, in order, and a square is listed exactly when its cell is |
| ShogiCoreFrom.HandicapStatePosition | src/normalizer.rs:61-155 | a handicap table built from cells describes the handicap position of the matching squares |
| ShogiCoreFrom.HandicapSquaresAgree | src/shogi_core/from.rs:112-125 | the squares each preset removes are exactly the cells its normalizer table empties |
| ShogiCoreFrom.HirateMatchesTable | src/normalizer.rs:55-59 | the Hirate table describes the opening position |
| ShogiCoreFrom.HandicapMatchesTables | src/normalizer.rs:274-322 | a preset and the explicit table the normalizer recognises it by describe the same position |
| ShogiCoreFrom.HandicapPresetMatches | src/normalizer.rs:274-322 | the position of a handicap preset is the position of its table |
| ShogiCoreFrom.EntryMoves | src/shogi_core/from.rs:144-145 | the moves of the entries that carry one, never more than the entries |
| ShogiCoreFrom.ReplayEntries | src/shogi_core/from.rs:144-151 | replaying a main line keeps the initial position and reaches a valid current position; its only failures are an invalid square and a move that cannot be made |
| ShogiCoreFrom.ConvertedMoves | src/shogi_core/from.rs:146 | every entry move converted, one for one and in order |
| ShogiCoreFrom.ReplayEntriesPlaysEntryMoves | src/shogi_core/from.rs:144-151 | a successful replay appends exactly the converted moves of the entries that carry one, in order |
| ShogiCoreFrom.PositionFromRecord | src/shogi_core/from.rs:135-154 | the entry-by-entry loop computes the game the record describes |
| ShogiCoreFrom.DefaultRecordPosition | src/shogi_core/from.rs:160-166 | the default record describes the opening position with no move played |
| Normalizer.Increment | src/normalizer.rs:203-214 | one more piece of a hand kind raises that count by one and no other |
| Normalizer.Decrement | src/normalizer.rs:215-227 | one piece fewer of a hand kind with a positive count lowers that count by one and no other |
| Normalizer.IncrementDecrement | src/normalizer.rs:203-227 | incrementing and decrementing the same kind undo each other |
| Normalizer.AddTimeFormat | src/normalizer.rs:229-240 | the sum of two times always has an hour, and minutes and seconds below 60 |
| Normalizer.AddTimeFormatSeconds | src/normalizer.rs:229-240 | the sum stands for the total of the two times' seconds when that is below 256 hours, and always agrees with it modulo one hour (the hour byte wraps) |
| Normalizer.NormalizedInitial | src/normalizer.rs:274-322 | an initial is replaced only when its data is exactly one of the known tables, and then by that table's preset without data; otherwise it is kept |
| Normalizer.FirstTable | src/normalizer.rs:276-316 | the table arms are tried in order: a preset found has exactly the data as its table, and when none is found no tried table equals the data |
| Normalizer.NoTableFound | src/normalizer.rs:317 | data that none of the tried tables matches is no preset's table at all, so the fallback arm keeps the initial |
| Normalizer.HandicapSignature | src/normalizer.rs:61-155 | eight cells tell the tables apart: a handicap table empties exactly the listed ones among them |
| Normalizer.PresetSignatureOfCells | src/normalizer.rs:61-155 | each handicap preset's signature is read off its table's cells and identifies the preset |
| Normalizer.TableSignatureOfPreset | src/normalizer.rs:274-322 | every known table has its preset's signature, from which the preset is recovered |
| Normalizer.PresetStateInjective | src/normalizer.rs:274-322 | no two presets share a table, so the match in the normalizer is unambiguous |
| Normalizer.NormalizedInitialCollapses | src/normalizer.rs:274-322 | data equal to a preset's table collapses to that preset without data |
| Normalizer.NormalizedInitialKeepsPosition | src/normalizer.rs:274-322 | collapsing explicit data to a preset does not change the position it stands for |
| Normalizer.NormalizedInitialIdempotent | src/normalizer.rs:274-322 | normalising an initial twice is normalising it once |
| Normalizer.Retained | src/normalizer.rs:345-370 | the kept candidates are exactly those satisfying the relative token's condition; 打 keeps them all |
| Normalizer.CalculateFrom | src/normalizer.rs:323-382 | no candidate gives no origin, one gives it; with several, an absent relative fails with all of them, otherwise the origin is found exactly when one candidate satisfies the relative token, and the error lists those that do |
| Normalizer.Retain | src/normalizer.rs:347-370 | the in-place filter computes `Retained` |
| Normalizer.ComputeFrom | src/normalizer.rs:323-382 | the step-by-step computation computes `CalculateFrom` |
| Normalizer.RelativeOfDisplay | src/normalizer.rs:441-462 | a relative token is read exactly when the display ends in 左 直 右 上 引 寄 or 打: 左 gives L, 直 C, 右 R, 打 H; 上 引 寄 give LU LD LM after 左, RU RD RM after 右 and U D M otherwise |
| Normalizer.RelativeOfDisplaySuffix | src/normalizer.rs:441-462 | only the last two characters of the display decide the relative token |
| Normalizer.Targeted | src/normalizer.rs:384-397 | the move takes the side to move as its colour and, for 同, the last move's destination; 同 with no last move fails |
| Normalizer.NormalizedMove | src/normalizer.rs:384-464 | a normalised move is by the side to move, has a valid destination and converts to a move; 同 without a last move fails with NoLastMove and an invalid destination with its conversion error; a given origin on the board is kept, one off the board is dropped, and a missing one is the origin `CalculateFrom` finds among the candidates (its AmbiguousMoveFrom error is the move's); an origin with no piece on it fails with MoveInconsistent; with an origin the piece is the one standing there, `same` and `capture` are recomputed from the position, and `promote` is `Some(from kind != requested kind, promoted when asked)` exactly for a promotable piece touching the zone, otherwise absent; a given relative is kept and a missing one is read from the display |
| Normalizer.NormalizeMove | src/normalizer.rs:384-464 | the in-place update computes `NormalizedMove` |
| Normalizer.ComputedOriginHoldsPiece | src/normalizer.rs:398-401 | with sound candidates, an origin the normaliser computes holds the mover's piece of the requested kind |
| Normalizer.TimedEntry | src/normalizer.rs:478-483 | an entry without time keeps the totals; with time it succeeds exactly when the mover's total and the time fit the byte fields |
| Normalizer.EntryStep | src/normalizer.rs:471-492 | normalising an entry keeps its comments, special and forks and whether it has a move, and the replay continues exactly when it has a move |
| Normalizer.NormalizedLine | src/normalizer.rs:466-495 | a normalised line has exactly as many entries as the original from the starting index |
| Normalizer.NormalizedForks | src/normalizer.rs:472-477 | normalised forks exist exactly when the original does and have as many variations |
| Normalizer.NormalizedVariations | src/normalizer.rs:472-477 | each variation is normalised as a line from the branch point's position and totals |
| Normalizer.LineAdvance | src/normalizer.rs:471-492 | one loop step: an entry without a move ends the line with the rest untouched; otherwise the line continues from the new position |
| Normalizer.NormalizeEntry | src/normalizer.rs:471-492 | the in-place body of the loop computes `EntryStep` |
| Normalizer.NormalizeMoves | src/normalizer.rs:466-495 | the loop over a line computes `NormalizedLine` |
| Normalizer.NormalizeForks | src/normalizer.rs:472-477 | the loop over variations computes `NormalizedForks` |
| Normalizer.LineHead | src/normalizer.rs:466-495 | the first entry of a normalised line is its entry step from the cursor, with its forks normalised from that same cursor (the position and totals before the entry); it is followed by the untouched rest when it has no move, else by the rest normalised from the next cursor |
| Normalizer.LineCons | src/normalizer.rs:466-495 | a normalised line is its first normalised entry followed by the rest normalised from the next position |
| Normalizer.LineKeepsAnnotations | src/normalizer.rs:466-495 | every entry of a normalised line keeps its comments, its special and whether it has a move |
| Normalizer.LineEntryFirst | src/normalizer.rs:471-492 | the first entry of a normalised line is its entry step from the starting cursor |
| Normalizer.LineEntryStopped | src/normalizer.rs:490-491 | entries after one without a move are left as they are |
| Normalizer.EntryTotal | src/normalizer.rs:478-483 | an entry's total becomes the mover's running total plus this entry's time |
| Normalizer.ZeroTotals | src/normalizer.rs:269 | both running totals start at zero |
| Normalizer.Normalized | src/normalizer.rs:261-272 | normalising keeps the header, normalises the initial, keeps the number of entries and the first one, and reports an initial that does not convert |
| Normalizer.NormalizedReplaysFromInitial | src/normalizer.rs:261-272 | the entries after the first are the line normalised from the normalised initial position with zero totals |
| Normalizer.NormalizedKeepsAnnotations | src/normalizer.rs:261-272 | normalising keeps every entry's comments, special and whether it has a move |
| Normalizer.Normalize | src/normalizer.rs:261-272 | the in-place update computes `Normalized` |
| ShogiCoreInto.HandToJkf | src/shogi_core/into.rs:54-66 | the record hand holds the position hand's counts kind by kind |
| ShogiCoreInto.HandRoundTrip | src/shogi_core/into.rs:54-66 | writing a hand out and loading it back gives the same hand, and a record hand within capacity survives loading and writing back |
| ShogiCoreInto.PieceToJkf | src/shogi_core/into.rs:36-43 | a written cell reads back as the same piece, and an empty square is the empty cell |
| ShogiCoreInto.BoardToJkf | src/shogi_core/into.rs:70-75 | the record board holds the position's pieces at board[file-1][rank-1] and reads back as the same board |
| ShogiCoreInto.InitialOf | src/shogi_core/into.rs:68-89 | a position is written as PresetOther with data holding its side to move, its board and both hands |
| ShogiCoreInto.InitialFromPosition | src/shogi_core/into.rs:68-89 | the square-by-square loop computes `InitialOf` |
| ShogiCoreInto.InitialRoundTrip | src/shogi_core/into.rs:68-89 | reading back the initial written for a position gives that position |
| ShogiCoreInto.EntryOf | src/shogi_core/into.rs:125-128 | each move becomes an entry with only that move set |
| ShogiCoreInto.EncodedMove | src/shogi_core/into.rs:97-124 | a normal move fails exactly when no piece stands on its origin; otherwise it is written with the mover's colour, the origin, the destination, the piece standing there and promote given; a drop is written with origin (0, 0) and no promote; same, capture and relative are left empty |
| ShogiCoreInto.EncodedMoves | src/shogi_core/into.rs:96-132 | a successful encoding has one entry per move; failures are a missing piece or a move that cannot be made |
| ShogiCoreInto.EncodedMovesStep | src/shogi_core/into.rs:96-132 | one loop step: encode the move, make it, and continue from the new position |
| ShogiCoreInto.EncodedMovesSucceed | src/shogi_core/into.rs:96-132 | the moves encode exactly when they can all be made from the initial position |
| ShogiCoreInto.RecordOfPosition | src/shogi_core/into.rs:93-141 | a game is written with an empty header, its initial position normalised, a leading default entry and one entry per move; a game whose moves cannot be replayed fails |
| ShogiCoreInto.EncodeMove | src/shogi_core/into.rs:97-124 | the match computes `EncodedMove` |
| ShogiCoreInto.EncodeMoves | src/shogi_core/into.rs:96-132 | the loop computes `EncodedMoves` |
| ShogiCoreInto.PositionToRecord | src/shogi_core/into.rs:93-141 | the conversion computes `RecordOfPosition` |
| ShogiCoreInto.SquareRoundTrip | src/shogi_core/into.rs:45-52 | a square written out reads back as the same square |
| ShogiCoreInto.EncodedMoveNormalizes | src/shogi_core/into.rs:97-124 | a move that can be made is encoded, and its normalised encoding converts back to the same move |
| ShogiCoreInto.EncodedEntryStep | src/shogi_core/into.rs:125-131 | normalising an encoded entry makes exactly that move and keeps the totals |
| ShogiCoreInto.EncodedLineReplays | src/shogi_core/into.rs:96-132 | replaying the normalised encoding of moves plays exactly those moves |
| ShogiCoreInto.PositionRoundTrip | src/shogi_core/into.rs:93-141 | a game whose moves can be made is written without error and reads back as the same game |
| ShogiCoreInto.DefaultPositionRecord | src/shogi_core/into.rs:150-163 | the opening position with no moves is written as preset HIRATE with one default entry |
| ShogiCoreInto.StartInitialIsHirate | src/shogi_core/into.rs:150-163 | the opening position is written as exactly the Hirate table, so it normalises to HIRATE |
| Text.Sink.Write | src/converter/kif.rs:9-24 | writing appends exactly the given text to what was written before |
| Text.DigitValueOf | src/parser/kif.rs:321 | a decimal digit reads back as its value |
| Text.Decimal | src/converter/csa.rs:204 | a number is written with at least one digit, all digits, no leading zero |
| Text.DecimalRoundTrip | src/converter/csa.rs:204 | a written number reads back as itself |
| Text.PadLeft | src/converter/kif.rs:208 | left padding keeps the text at the end, fills the front and reaches the width when the text is shorter |
| Text.Tag | src/parser/kakinoki.rs:55-58 | a tag matches exactly when the input starts with it, and the rest follows it |
| Text.LineEnding | src/parser/kakinoki.rs:57 | a line ending is matched exactly at `\n` or `\r\n` and consumes it |
| Text.LineLength | src/parser/kakinoki.rs:57 | the length of the longest prefix without a line-break character |
| Text.NotLineEnding | src/parser/kakinoki.rs:57 | the rest of a line is split off without a line-break character and stops at a line ending or the end of input |
| Text.Line | src/parser/kakinoki.rs:55-58 | a line is read up to and including its line ending, and its text has no line break |
| Text.LineOf | src/parser/kakinoki.rs:55-58 | text without line breaks followed by `\n` is read back as one line |
| Text.SkipChars | src/parser/kakinoki.rs:121 | skipping a set of characters stops at the first character outside it |
| Text.SkipAll | src/parser/kakinoki.rs:121 | skipping consumes exactly a run of characters from the set |
| Text.DigitRun | src/parser/kif.rs:419 | the length of the leading run of digits |
| Text.Number | src/parser/kif.rs:419 | a number is read below its bound and consumes input |
| Text.NumberOf | src/parser/kif.rs:419 | a written number below the bound, followed by a non-digit, reads back as itself |
| Text.TagAs | src/parser/kakinoki.rs:73-90 | a fixed token mapped to a value succeeds exactly when the input starts with t, giving v and the rest after t |
| Kakinoki.CommentLine | src/parser/kakinoki.rs:54-59 | a `#` line is read as its text and consumes input |
| Kakinoki.SkipComments | src/parser/kakinoki.rs:216-218 | skipping comment lines never grows the input |
| Kakinoki.MoveCommentLine | src/parser/kakinoki.rs:61-71 | a `*` line is a comment, and in the current dialect a `&` line is a comment keeping its `&`; the old dialect (src/kif.rs:63-68) accepts `*` only |
| Kakinoki.MoveComments | src/parser/kakinoki.rs:61-71 | the comment lines in a row never grow the input |
| Kakinoki.PieceKind | src/parser/kakinoki.rs:73-90 | a piece name is read and consumed |
| Kakinoki.MoveKindName | src/converter/kakinoki.rs:112-129 | each kind has a one-character name, except 成香 成桂 成銀 which have two |
| Kakinoki.PieceKindOfNames | src/parser/kakinoki.rs:73-90 | every kind's one-character glyph and its written name read back as that kind |
| Kakinoki.PieceKindSpellings | src/parser/kakinoki.rs:73-90 | the alternative spellings 王 (current dialect only), 竜, 成香, 成桂 and 成銀 are read as OU, RY, NY, NK, NG |
| Kakinoki.KanjiDigitOf | src/parser/kakinoki.rs:92-113 | a kanji digit stands for 1..9 |
| Kakinoki.KanjiGlyph | src/parser/kakinoki.rs:92-113 | the kanji of 1..9 read back as their values, and 十 is 10 |
| Kakinoki.Kansuji | src/parser/kakinoki.rs:92-113 | a kanji numeral reads at most 18 (19 in the old dialect, src/kif.rs:70-88) and consumes input |
| Kakinoki.KansujiLongestFirst | src/parser/kakinoki.rs:92-113 | 十 followed by a digit up to 8 reads as 10 plus it, a lone digit as itself, and 十 alone as 10 |
| Kakinoki.LegacyKansuji | src/kif.rs:70-88 | the old dialect reads an optional 十 and then a required digit, so 十 alone is not a numeral |
| Kakinoki.AddToHand | src/parser/kakinoki.rs:123-133 | adding n pieces of a hand kind raises that count by n and no other |
| Kakinoki.HandItem | src/parser/kakinoki.rs:117-120 | a hand item is a kind with an optional count (default 1) followed by blanks |
| Kakinoki.HandItems | src/parser/kakinoki.rs:117-120 | reading hand items consumes input whenever it reads one |
| Kakinoki.HandOfItemsSums | src/parser/kakinoki.rs:121-134 | the fold succeeds exactly when every item is a hand kind, and then each count is the sum of that kind's items |
| Kakinoki.SumHandItems | src/parser/kakinoki.rs:121-134 | the fold loop computes `HandOfItems` |
| Kakinoki.HandFoldStaysFailed | src/parser/kakinoki.rs:121-134 | once the fold meets a non-hand kind it fails for good |
| Kakinoki.InformationValueHand | src/parser/kakinoki.rs:115-137 | a hand value is read and consumed |
| Kakinoki.HandValueCases | src/parser/kakinoki.rs:115-137 | なし is the empty hand; otherwise the value is read exactly when at least one item is read and all are hand kinds, giving the summed counts |
| Kakinoki.PresetName | src/parser/kakinoki.rs:142-168 | every preset has a name of at least two characters |
| Kakinoki.PresetOfName | src/parser/kakinoki.rs:142-168 | a preset name is read and consumed |
| Kakinoki.PresetOfNameRoundTrip | src/parser/kakinoki.rs:142-168 | every preset's name reads back as that preset |
| Kakinoki.InformationLinePreset | src/parser/kakinoki.rs:170-175 | a 手合割 line is read and consumed |
| Kakinoki.HandOwnerLabels | src/parser/kakinoki.rs:181-186 | 先手 and 下手 name Black, 後手 and 上手 White (the old dialect knows only 先手 and 後手) |
| Kakinoki.InformationLineHands | src/parser/kakinoki.rs:177-199 | a hand line is read and consumed |
| Kakinoki.KeyLength | src/parser/kakinoki.rs:204 | a key runs up to the first `：` or line break |
| Kakinoki.InformationLineKeyValue | src/parser/kakinoki.rs:201-213 | a key-value line is read and consumed |
| Kakinoki.InformationLine | src/parser/kakinoki.rs:215-224 | one information line, tried as preset, hands, then key-value, is read and consumed |
| Kakinoki.InformationList | src/parser/kakinoki.rs:215-224 | the information lines in a row never grow the input |
| Kakinoki.CollectInformations | src/parser/kakinoki.rs:225-238 | the fold loop computes `Collected` |
| Kakinoki.LastKeyWins | src/parser/kakinoki.rs:225-238 | a header key takes the value of its last line |
| Kakinoki.LastPresetWins | src/parser/kakinoki.rs:225-238 | the preset is the last 手合割 line's |
| Kakinoki.LastHandWins | src/parser/kakinoki.rs:225-238 | each player's hand is that player's last hand line |
| Kakinoki.Informations | src/parser/kakinoki.rs:215-239 | reading the information block never grows the input |
| Kakinoki.MergedHand | src/parser/kakinoki.rs:41-51 | merged hands add the counts kind by kind |
| Kakinoki.Merged | src/parser/kakinoki.rs:28-34 | the first block's preset wins, hands add up, and the header holds both blocks' keys with the second block's values winning |
| Kakinoki.BoardPiece | src/parser/kakinoki.rs:245-253 | a board cell is read and consumed |
| Kakinoki.BoardPieces | src/parser/kakinoki.rs:259 | n cells are read in order |
| Kakinoki.BoardRow | src/parser/kakinoki.rs:255-264 | a board row is read and consumes input |
| Kakinoki.BoardRows | src/parser/kakinoki.rs:270 | n rows are read in order |
| Text.Repeated | src/parser/kakinoki.rs:259 | the repetition `count` yields exactly n values, and leaves no more input than it was given when the repeated parser never grows the input |
| Text.RepeatedAll | src/parser/kakinoki.rs:270 | texts that each read back as one value whatever follows them, joined, read back under the repetition as all the values in order |
| Kakinoki.BoardOfRows | src/parser/kakinoki.rs:270-278 | cell j of text row i lands at board[8-j][i] (file 9-j, rank i+1) |
| Kakinoki.SetCell | src/parser/kakinoki.rs:273-275 | setting one cell changes that cell only |
| Kakinoki.FillBoard | src/parser/kakinoki.rs:270-278 | the nested loop computes `BoardOfRows` |
| Kakinoki.ParseBoard | src/parser/kakinoki.rs:266-283 | a board is read between its heading and ruler lines and consumes input |
| Kakinoki.FileDigitOf | src/parser/kakinoki.rs:285-297 | a full-width digit stands for a file 1..9 |
| Kakinoki.FileGlyph | src/parser/kakinoki.rs:285-297 | the glyph of each file reads back as that file |
| Kakinoki.MoveTo | src/parser/kakinoki.rs:313-318 | a destination is 同 (none) or a square with file and rank in 1..9 |
| Kakinoki.MoveToOf | src/parser/kakinoki.rs:313-318 | every written square and 同 read back as themselves |
| Kakinoki.InitialOfInformation | src/parser/kakinoki.rs:325-341 | with a board the initial is PresetOther with Black to move, that board and the merged hands; without one it is the preset read, HIRATE when none |
| Kakinoki.ParseWithoutMoves | src/parser/kakinoki.rs:320-348 | reading the part before the moves always gives an initial position and no moves |
| KifReader.NotMoveLine | src/parser/kif.rs:285-287 | a line that cannot start a move begins with none of the characters a move line starts with, and is consumed |
| KifReader.SkipNotMoveLines | src/kif.rs:466-469 | skipping such lines stops at a line that could start a move |
| KifReader.MoveFrom | src/parser/kif.rs:317-330 | an origin is 打 (none) or a parenthesised byte split into file d/10 and rank d%10 |
| KifReader.MoveFromOf | src/parser/kif.rs:317-330 | 打 and every written origin `(xy)` read back as themselves |
| KifReader.TwoDigits | src/parser/kif.rs:320 | two digits read as the number 10x + y |
| KifReader.SpecialOf | src/parser/kif.rs:339-356 | only the eight specials the grammar names (投了 中断 千日手 切れ負け 反則負け 持将棋 入玉勝ち 詰み) can be read |
| KifReader.SpecialOfName | src/parser/kif.rs:339-356 | each of those names reads back as its special |
| KifReader.MoveMove | src/parser/kif.rs:358-377 | a move leaves capture and relative empty, promote is only ever true, 同 sets `same` with destination (0, 0), and otherwise the destination is a square in 1..9 |
| KifReader.HoursMinutesSeconds | src/parser/kif.rs:381-387 | `h:m:s` gives a time with an hour |
| KifReader.MinutesSeconds | src/parser/kif.rs:388-395 | `m:s` gives a time without an hour |
| KifReader.MoveTimeFormat | src/parser/kif.rs:379-397 | a time field is read, `h:m:s` tried first, and consumes input |
| KifReader.MoveTime | src/parser/kif.rs:399-412 | a `( now / total )` time is read and consumes input |
| KifReader.MoveBody | src/parser/kif.rs:418-419 | a move line holds either a move, coloured by its number's parity, or a special, and nothing else |
| KifReader.MoveLine | src/parser/kif.rs:414-433 | a move line gives its number and an entry without comments or forks, a move coloured Black for odd numbers and White for even |
| KifReader.LineAfterNumber | src/parser/kif.rs:414-433 | the rest of a move line after its number keeps that number |
| KifReader.LineAfterBody | src/parser/kif.rs:420-432 | after the move, the line only adds the time |
| KifReader.CommentsOf | src/parser/kif.rs:439-443 | comments are present exactly when at least one comment line was read |
| KifReader.MoveWithComments | src/parser/kif.rs:435-448 | a move line and its comment lines are read and consumed |
| KifReader.MoreMoves | src/parser/kif.rs:452 | the following move lines never grow the input |
| KifReader.MovesWithIndex | src/parser/kif.rs:450-455 | a block has at least one move and takes the first line's number as its anchor |
| KifReader.MainMoves | src/parser/kif.rs:457-468 | the main line starts with an entry holding only the opening comments; the current grammar always reads it, the old one (src/kif.rs:449-460) needs at least one move line |
| KifReader.NextBlock | src/parser/kif.rs:499 | the next variation block consumes input |
| KifReader.ForkBlocks | src/parser/kif.rs:499 | the variation blocks never grow the input |
| KifReader.EntireMoves | src/parser/kif.rs:470-506 | the moves always start with the opening-comment entry |
| KifReader.Combined | src/parser/kif.rs:496-505 | splicing keeps the number of main-line entries and the first entry |
| KifReader.Nested | src/parser/kif.rs:471-495 | the current grammar splices nested variations and keeps the main line's length |
| KifReader.Flat | src/kif.rs:466-480 | the old grammar attaches every block to the main line and keeps its length |
| KifReader.MergedHead | src/parser/kif.rs:471-495 | splicing never changes the first entry's move or special |
| KifReader.Parse | src/parser/kif.rs:508-540 | a parsed record always has an initial position and at least one entry |
| KifReader.NestedFits | src/parser/kif.rs:471-495 | splicing fails exactly when a block's anchor falls outside the entries it lands on (where the source indexes out of range) |
| KifReader.CurrentFailsOnlyOnFit | src/parser/kif.rs:470-506 | the current grammar's move section fails only when an anchor is out of range |
| KifReader.EntireMovesOfMain | src/parser/kif.rs:496-505 | the move section is the main line combined with the blocks read after it |
| KifForks.Nearest | src/parser/kif.rs:477-478 | the nearest earlier block, below a bound, whose anchor does not exceed the given block's |
| KifForks.NearestSkips | src/parser/kif.rs:477-478 | every block between the nearest one and the bound has a greater anchor |
| KifForks.ParentOf | src/parser/kif.rs:474-486 | a block's parent is an earlier block with an anchor not above its own, or the main line (-1) |
| KifForks.ParentSkips | src/parser/kif.rs:474-486 | every block between a block and its parent has a greater anchor |
| KifForks.ParentAtLeast | src/parser/kif.rs:474-486 | an earlier block whose anchor is not above a block's sits at or before its parent |
| KifForks.ParentUnique | src/parser/kif.rs:474-486 | the parent is the only candidate with both properties |
| KifForks.Select | src/parser/kif.rs:474-486 | the blocks from a position on whose parent lies in a range |
| KifForks.SelectComplete | src/parser/kif.rs:474-486 | every block in range whose parent lies in the range is selected |
| KifForks.SelectIncreasing | src/parser/kif.rs:474-486 | selected blocks are listed in file order |
| KifForks.Children | src/parser/kif.rs:474-486 | a block's children are later blocks whose parent it is |
| KifForks.AttachedOnce | src/parser/kif.rs:474-486 | each block is a child of exactly its parent |
| KifForks.Attached | src/parser/kif.rs:480-484 | attaching variations appends them to the entry's forks and keeps its move, comments, time and special |
| KifForks.PushAt | src/parser/kif.rs:480-484 | pushing a block onto a line keeps its length |
| KifForks.AttachAll | src/parser/kif.rs:490-494 | attaching several blocks keeps the line's length |
| KifForks.AttachAllAt | src/parser/kif.rs:490-494 | each entry receives exactly the blocks anchored at it, in order |
| KifForks.Tree | src/parser/kif.rs:474-486 | a block with its children's trees attached keeps its length |
| KifForks.Forest | src/parser/kif.rs:474-486 | one subtree per listed block |
| KifForks.Subtrees | src/parser/kif.rs:474-486 | one subtree per listed block, in order |
| KifForks.SubtreesAt | src/parser/kif.rs:474-486 | the k-th subtree is block k's tree under its own anchor |
| KifForks.TreeUnfold | src/parser/kif.rs:474-486 | a block's tree is its moves with its children's subtrees attached |
| KifForks.Spliced | src/parser/kif.rs:470-506 | the spliced main line keeps its length |
| KifForks.SplicedAt | src/parser/kif.rs:488-494 | each main-line entry receives exactly the subtrees of the main line's children anchored at it |
| KifForks.ChildLands | src/parser/kif.rs:480 | when anchors fit, a child's anchor falls inside its parent's entries |
| KifForks.MergeForks | src/parser/kif.rs:471-496 | the stack algorithm computes `Spliced` when every anchor fits |
| KifForks.AbsorbChildren | src/parser/kif.rs:476-486 | the inner loop pops exactly the block's children off the stack and leaves its tree |
| KifForks.AttachRemaining | src/parser/kif.rs:488-494 | the final loop attaches what is left on the stack to the main line, giving `Spliced` |
| KifForks.FlatMerged | src/kif.rs:466-480 | the old reader's merge keeps the main line's length |
| KifForks.FlatMergedAt | src/kif.rs:470-477 | each main-line entry receives the blocks anchored at it, in file order |
| KifForks.FlatMergeForks | src/kif.rs:470-477 | the old reader's loop computes `FlatMerged` |
| KifRoundTrip.TwoDigitReads | src/parser/kif.rs:379-397 | a zero-padded two-digit field reads back as its value |
| KifRoundTrip.BlankPaddedSkips | src/parser/kif.rs:404 | the blanks before a right-aligned number are skipped up to its digits |
| KifRoundTrip.ReadBackTime | src/parser/kif.rs:379-412 | the time read back from a written time: the current move's time without an hour, the total with its hour (zero when absent), minutes and seconds kept |
| KifRoundTrip.TimeTextReads | src/converter/kif.rs:268-275 | a written time reads back as `ReadBackTime` |
| KifRoundTrip.ReadBackMove | src/parser/kif.rs:358-377 | the move read back from a written move: origin and piece kept; 同 becomes `same` with destination (0, 0); promote true is kept and false is dropped |
| KifRoundTrip.MoveTextReads | src/converter/kif.rs:210-229 | a written move on the board reads back as `ReadBackMove` |
| KifRoundTrip.SpecialTextReads | src/converter/kif.rs:230-262 | a written special reads back as the special that was written (中断 for those the writer does not name) |
| KifRoundTrip.NoSpecialAtMove | src/parser/kif.rs:420 | text starting like a move is never read as a special |
| KifRoundTrip.MoveTextStart | src/converter/kif.rs:211-216 | a written move starts with a character a move can start with |
| KifRoundTrip.ReadBackEntry | src/parser/kif.rs:414-433 | the entry read back from a written move line: the move read back and coloured by the line's number, or the written special; the time read back; no comments or forks |
| KifRoundTrip.MoveLineReads | src/converter/kif.rs:208-277 | a written move line reads back as its number and `ReadBackEntry` |
| KifWriter.CharWidth | src/converter/kif.rs:267 | a character takes one column if it is ASCII and two otherwise |
| KifWriter.WidthAppend | src/converter/kif.rs:267 | the width of joined texts is the sum of their widths |
| KifWriter.Blanks | src/converter/kif.rs:267 | n blanks are n ASCII spaces |
| KifWriter.DestinationText | src/converter/kif.rs:211-216 | the destination is `同　` for a repeated square, else the full-width file and the kanji rank |
| KifWriter.OriginText | src/converter/kif.rs:223-229 | the origin is 打 for a drop, else the file and rank in decimal in parentheses |
| KifWriter.PromoteMark | src/converter/kif.rs:219-222 | 成 is written exactly when promote is true |
| KifWriter.MoveOffset | src/converter/kif.rs:209-229 | the columns counted for a move are at least eight |
| KifWriter.DestinationWidth | src/converter/kif.rs:211-217 | a written destination takes four columns |
| KifWriter.OriginWidth | src/converter/kif.rs:223-229 | an origin on the board takes four columns, a drop two |
| KifWriter.KindNameWidth | src/converter/kif.rs:69-97 | a kind's name takes four columns for 成香 成桂 成銀 and two otherwise, which is what the offset counts |
| KifWriter.MoveOffsetIsWidth | src/converter/kif.rs:209-229 | the offset the writer counts for a move is exactly the columns its text takes |
| KifWriter.NormalOffsetFits | src/converter/kif.rs:267 | a move whose promote is only set on a promotable kind takes at most twelve columns, so the padding never underflows |
| KifWriter.DoublyPromotedOffset | src/converter/kif.rs:267 | a promoted minor piece marked 成 again with an origin counts fourteen columns, past the padding's 13 |
| KifWriter.WrittenSpecial | src/converter/kif.rs:231-262 | the seven specials the writer names are written as themselves, all others as 中断 |
| KifWriter.SpecialOffsetAsWritten | src/converter/kif.rs:231-262 | the columns the source counts for a special, nothing for 中断 |
| KifWriter.SpecialOffset | src/converter/kif.rs:231-262 | the columns counted for a special, 4 to 8, agreeing with the source except for 中断, counted as its four |
| KifWriter.SpecialOffsetIsWidth | src/converter/kif.rs:231-262 | the corrected count for a special is exactly the columns its text takes |
| KifWriter.ChudanOffsetAsWritten | src/converter/kif.rs:261 | the source counts no column for 中断, although it takes four |
| KifWriter.CommentText | src/converter/kif.rs:279-287 | a comment starting with `&` is written as it is, any other after `*`, one per line |
| KifWriter.WriteMoveKind | src/converter/kif.rs:69-97 | writes the kind's name and adds its columns to the offset |
| KifWriter.WriteDestination | src/converter/kif.rs:211-217 | writes `DestinationText` |
| KifWriter.WritePromotion | src/converter/kif.rs:219-222 | writes 成 when promoting and adds two columns |
| KifWriter.WriteOrigin | src/converter/kif.rs:223-229 | writes the origin and adds its columns |
| KifWriter.WriteMove | src/converter/kif.rs:210-229 | writes `MoveText` and returns `MoveOffset` |
| KifWriter.WriteSpecial | src/converter/kif.rs:230-262 | writes the special's name (中断 for those not named) and returns the corrected column count `SpecialOffset` |
| KifWriter.WriteBlanks | src/converter/kif.rs:267 | writes n blanks |
| KifWriter.WriteComments | src/converter/kif.rs:279-287 | writes `CommentsText` |
| KifWriter.WriteBody | src/converter/kif.rs:209-265 | writes the move or special and returns its columns |
| KifWriter.WriteTimeSuffix | src/converter/kif.rs:266-276 | writes the padding and the time when the entry has one |
| KifWriter.WriteMoveLine | src/converter/kif.rs:208-277 | writes `MoveLineText` |
| KifWriter.WriteEntry | src/converter/kif.rs:207-287 | writes the move line (not for the first entry) and the comments |
| KifWriter.EntriesStep | src/converter/kif.rs:206-288 | the entries' text grows by one entry per loop step |
| KifWriter.WriteMoves | src/converter/kif.rs:201-291 | writes `MovesText` |
| KifWriter.ToKif | src/converter/kif.rs:26-33 | writes the header lines in some order of the keys, the initial part and the move section |
| KifWriter.TimeColumnAligned | src/converter/kif.rs:266-267 | with the corrected count, every timed body and its padding fill exactly thirteen columns |
| KifWriter.ChudanMisaligned | src/converter/kif.rs:261-267 | with the source's count, a timed 中断 line's body and padding take seventeen columns |
| KifWriter.DefaultMovesText | src/converter/kif.rs:201-205 | the default record's move section is the header and `   1 中断` |
| KifSectionRoundTrip.CommentReads | src/parser/kif.rs:61-71 | a comment written by the KIF writer reads back unchanged, in both dialects when it is readable there |
| KifSectionRoundTrip.LegacyDropsAmpersand | src/kif.rs:63-68 | the old reader does not accept a written `&` comment as a comment line |
| KifSectionRoundTrip.CommentsReads | src/parser/kif.rs:435-448 | a written run of comments reads back as the same comments |
| KifSectionRoundTrip.Comments | src/jkf.rs:255-274 | an entry's comments, empty when absent |
| KifSectionRoundTrip.ReadBackWithComments | src/parser/kif.rs:435-448 | an entry read back with its comments: the move, special and time of `ReadBackEntry`, comments kept (absent when empty), no forks |
| KifSectionRoundTrip.EntryReads | src/parser/kif.rs:435-448 | a written move line followed by its comments reads back as its number and `ReadBackWithComments` |
| KifSectionRoundTrip.ReadBackFrom | src/parser/kif.rs:450-455 | the entries read back from position lo on, one per written entry |
| KifSectionRoundTrip.MoreMovesReads | src/parser/kif.rs:450-455 | the written entries from lo on read back as `ReadBackFrom` |
| KifSectionRoundTrip.FirstBlockReads | src/parser/kif.rs:450-455 | the written entries from the first move on form one block starting at move 1 |
| KifSectionRoundTrip.ReadBackMoves | src/parser/kif.rs:457-468 | the record read back: the leading entry keeps only its comments, every other entry is `ReadBackWithComments` |
| KifSectionRoundTrip.MainMovesReads | src/parser/kif.rs:457-468 | the written entries read back as the main line `ReadBackMoves` |
| KifSectionRoundTrip.HeadCommentsReads | src/parser/kif.rs:460-463 | the comments before the first move read back unchanged |
| KifSectionRoundTrip.MovesTextReads | src/parser/kif.rs:470-506 | the KIF writer's move section, read by either dialect's move reader, gives back `ReadBackMoves` of the written entries, with nothing left over |
| KakinokiWriter.SanyouSujiText | src/converter/kakinoki.rs:8-11 | a file 1..9 is one full-width digit that reads back as that file |
| KakinokiWriter.KansujiText | src/converter/kakinoki.rs:13-20 | a number up to 10 is one kanji numeral; 11..20 is 十 followed by the numeral of the number minus ten |
| KakinokiWriter.WriteSanyouSuji | src/converter/kakinoki.rs:8-11 | writes `SanyouSujiText` |
| KakinokiWriter.WriteKansuji | src/converter/kakinoki.rs:13-20 | writes `KansujiText` |
| KakinokiWriter.HandOrder | src/converter/kakinoki.rs:43-51 | the seven hand kinds, each paired with its count in the hand |
| KakinokiWriter.EntryText | src/converter/kakinoki.rs:52-58 | a hand entry is written exactly when its count is non-zero |
| KakinokiWriter.EntryTexts | src/converter/kakinoki.rs:43-59 | one written entry per kind, in the writer's order |
| KakinokiWriter.HandValueText | src/converter/kakinoki.rs:65-70 | an empty hand is written as なし |
| KakinokiWriter.WriteHand | src/converter/kakinoki.rs:42-61 | writes the hand's entries in the order 飛 角 金 銀 桂 香 歩 |
| KakinokiWriter.WriteEntry | src/converter/kakinoki.rs:52-58 | writes `EntryText`: the glyph, the numeral when more than one, a full-width blank |
| KakinokiWriter.WriteHandValue | src/converter/kakinoki.rs:65-70 | writes `HandValueText` |
| KakinokiWriter.CellText | src/converter/kakinoki.rs:77-86 | every cell takes two characters |
| KakinokiWriter.CellTexts | src/converter/kakinoki.rs:76-87 | a row's cells are written from file 9 down to file 1 |
| KakinokiWriter.RowTexts | src/converter/kakinoki.rs:74-91 | the board is written as nine rows, rank 1 first |
| KakinokiWriter.WriteCells | src/converter/kakinoki.rs:76-87 | writes the nine cells of one rank |
| KakinokiWriter.WriteRow | src/converter/kakinoki.rs:75-90 | writes `RowText`: the cells between bars and the rank's numeral |
| KakinokiWriter.WriteBoard | src/converter/kakinoki.rs:72-92 | writes `BoardText`: column header, frame and the nine rows |
| KakinokiWriter.WriteHandLine | src/converter/kakinoki.rs:65-71 | writes one hand line: the owner's label and the hand's value |
| KakinokiWriter.WriteInitialData | src/converter/kakinoki.rs:63-101 | writes `InitialDataText`: preset その他, White's hand, the board, Black's hand |
| KakinokiWriter.WriteInitialPreset | src/converter/kakinoki.rs:103-121 | writes the preset's line for the eleven named presets |
| KakinokiWriter.HeaderTextSnoc | src/converter/kakinoki.rs:123-131 | the header text grows by one `key：value` line per key |
| KakinokiWriter.WriteHeader | src/converter/kakinoki.rs:123-131 | writes one `key：value` line per header key, each exactly once, in some order |
| KakinokiWriter.WriteInitial | src/converter/kakinoki.rs:133-149 | writes nothing without an initial position or for an omitted 平手, the data when present, otherwise the preset line |
| KakinokiRoundTrip.KansujiRoundTrip | src/parser/kakinoki.rs:92-113 | a written numeral 1..18 reads back as its number |
| KakinokiRoundTrip.Nonzero | src/converter/kakinoki.rs:52 | only entries with a non-zero count are kept; none when all counts are zero |
| KakinokiRoundTrip.HandEntryRoundTrip | src/parser/kakinoki.rs:115-137 | a written hand entry reads back as its kind and count |
| KakinokiRoundTrip.HandEntriesRoundTrip | src/parser/kakinoki.rs:115-137 | written hand entries read back as the non-zero entries |
| KakinokiRoundTrip.HandOfWrittenEntries | src/parser/kakinoki.rs:115-137 | the hand rebuilt from the written entries is the original hand |
| KakinokiRoundTrip.HandValueRoundTrip | src/parser/kakinoki.rs:115-137 | a written hand value (なし included) reads back as the same hand |
| KakinokiRoundTrip.NormalCell | src/parser/kakinoki.rs:245-253 | a cell read back is the cell written or empty, and has a colour exactly when it has a kind |
| KakinokiRoundTrip.NormalRow | src/parser/kakinoki.rs:255-264 | a rank read back holds the normalised cells from file 9 down to file 1 |
| KakinokiRoundTrip.NormalRows | src/parser/kakinoki.rs:266-283 | nine normalised ranks |
| KakinokiRoundTrip.NormalBoard | src/parser/kakinoki.rs:266-283 | the board read back is the written board with every cell normalised |
| KakinokiRoundTrip.CellRoundTrip | src/parser/kakinoki.rs:245-253 | a written cell reads back as `NormalCell` |
| KakinokiRoundTrip.RowRoundTrip | src/parser/kakinoki.rs:255-264 | a written rank reads back as `NormalRow` |
| KakinokiRoundTrip.BoardRoundTrip | src/parser/kakinoki.rs:266-283 | a written board reads back as `NormalBoard`, in both dialects |
| KakinokiRoundTrip.PresetLineRoundTrip | src/parser/kakinoki.rs:170-175 | a written preset line reads back as the same preset |
| KakinokiRoundTrip.OwnerName | src/parser/kakinoki.rs:177-199 | the hand line label is 先手 for Black and 後手 for White |
| KakinokiRoundTrip.HandInformation | src/parser/kakinoki.rs:177-199 | a hand line carries the hand for its owner's side |
| KakinokiRoundTrip.HandLineRoundTrip | src/parser/kakinoki.rs:177-199 | a written hand line reads back as that side's hand |
| KakinokiRoundTrip.KeyValueLineRoundTrip | src/parser/kakinoki.rs:201-213 | a written `key：value` line whose key is not a reserved name reads back as that pair |
| KakinokiRoundTrip.HeaderLinesRead | src/parser/kakinoki.rs:215-239 | every written header line reads back as its pair |
| KakinokiRoundTrip.CollectedHeader | src/parser/kakinoki.rs:215-239 | the header lines, in any order of the keys, collect back into the original map |
| KakinokiRoundTrip.ReadBack | src/parser/kakinoki.rs:320-348 | the initial position read back: 平手 when absent, the preset when there is no data, else その他 with Black to move and the hands kept |
| KakinokiRoundTrip.RecordWithoutInitial | src/parser/kakinoki.rs:320-348 | a written header alone reads back with the 平手 preset |
| KakinokiRoundTrip.RecordWithPreset | src/parser/kakinoki.rs:320-348 | a written header and preset line read back with that preset |
| KakinokiRoundTrip.RecordWithData | src/parser/kakinoki.rs:320-348 | a written header and position data read back with その他, Black to move, the normalised board and the hands |
| KakinokiRoundTrip.RecordRoundTrip | src/converter/kakinoki.rs:123-150 | the Kakinoki writer's header and initial part read back as the header and `ReadBack` of the initial position |
| Ki2Writer.ColorMark | src/converter/ki2.rs:55-58 | Black's moves are marked ▲ and White's △ |
| Ki2Writer.RelativeText | src/converter/ki2.rs:66-82 | every relative token is written as one or two glyphs |
| Ki2Writer.PromotionWord | src/converter/ki2.rs:83-89 | 成 for a promotion, 不成 for a declined one, nothing when unset |
| Ki2Writer.DestinationText | src/converter/ki2.rs:59-64 | 同 for a repeated square, else the file digit and the rank numeral |
| Ki2Writer.MoveText | src/converter/ki2.rs:54-90 | a written move starts with its colour mark and has at least three glyphs |
| Ki2Writer.WriteMoveKind | src/converter/ki2.rs:23-40 | writes the kind's name |
| Ki2Writer.WriteDestination | src/converter/ki2.rs:59-64 | writes `DestinationText` |
| Ki2Writer.WriteMove | src/converter/ki2.rs:54-90 | writes `MoveText`: mark, destination, kind, relative, promotion |
| Ki2Writer.WriteEntry | src/converter/ki2.rs:53-102 | writes one entry: the move, then its comments on their own lines, or a blank when another entry follows |
| Ki2Writer.WriteMoves | src/converter/ki2.rs:42-106 | writes the leading comments, every entry after the first, and a final line break |
| Ki2Writer.ToKi2 | src/converter/ki2.rs:108-115 | writes the header lines in some order of the keys, the initial part with 平手 omitted, then the moves |
| Ki2Writer.TokenOf | src/converter/ki2.rs:54-90 | what a written move carries; its destination is missing exactly for 同 |
| Ki2Writer.ReadDestination | src/converter/ki2.rs:59-64 | a reference reader for destinations, which consumes what it reads |
| Ki2Writer.ReadRelative | src/converter/ki2.rs:66-82 | a reference reader for relative tokens, which never grows its input |
| Ki2Writer.DestinationReads | src/converter/ki2.rs:59-64 | a written destination on ranks 1..9 reads back as the token's destination |
| Ki2Writer.RelativeReads | src/converter/ki2.rs:66-89 | a written relative token followed by a promotion word reads back as that token |
| Ki2Writer.PromotionReads | src/converter/ki2.rs:83-89 | a written promotion word reads back as the same promotion flag |
| Ki2Writer.MoveTextReads | src/converter/ki2.rs:54-90 | a written move on ranks 1..9 reads back as `TokenOf` the move |
| Ki2Writer.MoveTextInjective | src/converter/ki2.rs:54-90 | two moves written alike carry the same colour, destination, kind, relative token and promotion |
| Ki2Writer.RelativeTextInjective | src/converter/ki2.rs:66-82 | the thirteen relative tokens are written differently |
| Ki2Writer.RelativeTextDisplays | src/normalizer.rs:443-462 | every relative token the KI2 writer writes at the end of a rendering is read back as that token by the normalizer, unless a one-glyph token follows 左 or 右 |
| Ki2Writer.Bodies | src/converter/ki2.rs:53-90 | one written body per entry in the range |
| Ki2Writer.UncommentedPrefix | src/converter/ki2.rs:100-102 | without comments, the entries before the last are their bodies each followed by one blank |
| Ki2Writer.LastEntryBare | src/converter/ki2.rs:100-102 | the last uncommented entry has no trailing blank |
| Ki2Writer.EntriesJoined | src/converter/ki2.rs:52-103 | without comments, the entries are their bodies separated by single blanks |
| Ki2Writer.UncommentedMovesText | src/converter/ki2.rs:42-106 | without comments after the first entry, the moves are one line of bodies separated by blanks |
| Ki2Writer.SameTokensEntries | src/converter/ki2.rs:53-103 | entries that agree on moves and comments are written alike |
| Ki2Writer.MovesTextIgnoresRest | src/converter/ki2.rs:42-106 | the KI2 text does not depend on specials, times or forks |
| Ki2Writer.DefaultRecordText | src/converter/ki2.rs:121-124 | the default record is written as a single line break |
| Ki2Writer.PawnBody | src/converter/ki2.rs:54-90 | a pawn move without relative or promotion is written as mark, file, rank and 歩 |
| Ki2Writer.ThreePawnMoves | src/converter/ki2.rs:126-177 | three pawn moves are written `▲２六歩 △８四歩 ▲２五歩` and a line break |
| CsaRecord.KindOf | src/csa.rs:291-313 | every piece type but AL is a kind; AL fails with PieceTypeAll |
| CsaRecord.PieceTypeOf | src/csa.rs:291-313 | the inverse mapping never yields AL |
| CsaRecord.KindOfIsBijective | src/csa.rs:291-313 | kinds and the piece types other than AL correspond one to one, in both directions |
| CsaRecord.PieceOf | src/csa.rs:245-252 | a placed piece has the given colour and a kind exactly when the type is not AL |
| CsaRecord.PlaceOf | src/csa.rs:276-289 | square 00 fails with SquareZero; every other square keeps its file and rank |
| CsaRecord.TimeOf | src/csa.rs:263-274 | minutes and seconds are the remainders of the duration; an hour is present exactly from 3600 seconds on and is truncated to a byte |
| CsaRecord.TimeOfKeepsSeconds | src/csa.rs:263-274 | below 256 hours, the time format gives back the number of seconds |
| CsaRecord.TimeOfSeconds | src/csa.rs:263-274 | a time format with minutes and seconds below 60 and no zero hour is what its seconds convert to |
| CsaRecord.SpecialOf | src/csa.rs:171-240 | every action but a move is a special |
| CsaRecord.TimeOfRecord | src/csa.rs:152-155 | a move's time is present exactly when the record has one; the total is zero |
| CsaRecord.EntryOf | src/csa.rs:148-243 | a move converts unless its piece is AL or its destination is 00; a special always converts; the colour, kind, destination and time are kept, a 00 origin is a drop, and nothing else is set |
| CsaRecord.EntriesOf | src/csa.rs:51-53 | all moves convert, in order, or the first failure is returned |
| CsaRecord.ActionOf | src/csa.rs:171-240 | each special comes from exactly one action |
| CsaRecord.Put | src/csa.rs:23-46 | a header field is inserted exactly when present |
| CsaRecord.HeaderOf | src/csa.rs:21-46 | the header holds 先手, 後手, 棋戦, 場所 and 戦型 exactly when the record has them, and only the eight known keys |
| CsaRecord.HandPieces | src/csa.rs:76-84 | the placements at square 00 are taken out as hand pieces |
| CsaRecord.BoardPieces | src/csa.rs:76-84 | the remaining placements are the ones on the board |
| CsaRecord.SplitCounts | src/csa.rs:76-84 | every placement goes to exactly one of the two lists |
| CsaRecord.GridBoard | src/csa.rs:88-100 | a bulk grid's row i, column j is the board's file 9-j, rank i+1 |
| CsaRecord.DropCells | src/csa.rs:101-107 | each removed square names the matching board cell |
| CsaRecord.Remaining | src/csa.rs:64-136 | the pieces left for AL are the full set minus those on the board, by unpromoted kind; a kind with more pieces on the board than a full set has none left |
| CsaRecord.AddHand | src/csa.rs:132-134 | adding a set of pieces to a hand adds every count |
| CsaRecord.InitialOf | src/csa.rs:62-146 | the initial position has the その他 preset, the side to move and the board built from the bulk grid, the removals or the placements |
| CsaRecord.SplitPlacements | src/csa.rs:76-84 | computes `HandPieces` and `BoardPieces` in one pass |
| CsaRecord.FillFromGrid | src/csa.rs:88-100 | fills the board from the grid: the result is `GridBoard` |
| CsaRecord.SetCell | src/csa.rs:93 | one cell changes and all others stay |
| CsaRecord.ClearDrops | src/csa.rs:101-107 | the 平手 board with the removed squares emptied |
| CsaRecord.PlacePieces | src/csa.rs:108-114 | an empty board with every placement put, later ones winning |
| CsaRecord.CountRemaining | src/csa.rs:64-124 | the signed counter holds exactly the seven hand kinds, each the full set's count less the pieces of that kind on the board (negative for an over-full kind) |
| CsaRecord.AddRemaining | src/csa.rs:132-134 | adds each kind as many times as its counter says, nothing for a count that is not positive: the result is `AddHand` of the remaining set |
| CsaRecord.AddHandPieces | src/csa.rs:126-136 | builds both hands from the hand placements |
| CsaRecord.ConvertPosition | src/csa.rs:62-146 | converts a position: the result is `InitialOf` |
| CsaRecord.RecordOf | src/csa.rs:17-60 | a record converts exactly when all its moves do; the header is `HeaderOf`, the initial position `InitialOf`, and the moves are the default entry followed by one converted entry per move |
| CsaRecord.ConvertRecord | src/csa.rs:17-60 | converts a record: the result is `RecordOf` |
| CsaRecord.EntriesStopAt | src/csa.rs:51-53 | conversion stops at the first move that fails, with its error |
| CsaRecord.HandsCount | src/csa.rs:126-136 | a hand holds its named pieces plus the remaining set once per AL given to that side |
| CsaRecord.HandsIgnoreRest | src/csa.rs:126-136 | without AL the hands do not depend on the remaining set |
| CsaRecord.TotalWithSingleAl | src/csa.rs:126-136 | with one AL, the pieces of a kind are those on the board, the named hand pieces and the remaining set |
| CsaRecord.AlTotalAsWritten | src/csa.rs:126-136 | as written, one AL makes the total of a kind the full set (or the board's own count when that is larger) plus every named hand piece of it |
| CsaRecord.GoldCountedTwice | src/csa.rs:126-136 | `P+00KI` followed by `P-00AL` on an empty board gives Black one gold and White four: five golds |
| CsaRecord.RemainingAfterNamed | src/csa.rs:64-136 | the corrected remaining set also leaves out the named hand pieces, so board, named pieces and rest make the full set |
| CsaRecord.InitialOfCorrected | src/csa.rs:62-146 | the corrected position keeps the preset, side to move and board of `InitialOf` |
| CsaRecord.AlCompletesSet | src/csa.rs:126-136 | with the correction, one AL makes every kind's total exactly the full set |
| CsaRecord.CorrectedAgreesWithoutAl | src/csa.rs:126-136 | without AL the corrected conversion is the source's |
| CsaRecord.GoldCountedOnce | src/csa.rs:126-136 | with the correction, White gets the three remaining golds |
| CsaRecord.HirateCount | src/normalizer.rs:7-53 | the 平手 board holds the full set of every hand kind |
| CsaRecord.ClearedFits | src/csa.rs:101-107 | the 平手 board with squares removed never holds more than the full set |
| CsaRecord.ClearedPositionReads | src/csa.rs:101-107 | a position given only by removals converts to the cleared 平手 board with empty hands |
| CsaRecord.HandicapPositionReads | src/csa.rs:101-107 | removing a handicap's squares with White to move converts to that preset's state and normalises to the preset |
| CsaRecord.HiratePositionReads | src/csa.rs:101-107 | a position with no removals and Black to move normalises to 平手 |
| CsaWriter.ColorSign | src/converter/csa.rs:32-38 | a colour is written as one sign character |
| CsaWriter.ColorSignReads | src/converter/csa.rs:32-38 | the written sign reads back as the same colour |
| CsaWriter.PieceTypeName | src/converter/csa.rs:40-58 | every CSA piece type has a two-letter name |
| CsaWriter.PieceTypeNameReads | src/converter/csa.rs:40-58 | a piece type's name reads back as that type |
| CsaWriter.KindName | src/converter/csa.rs:40-58 | every kind is written as two letters |
| CsaWriter.KindNameReads | src/converter/csa.rs:40-58 | a kind's name is its CSA piece type's name, which the CSA conversion reads back as the kind |
| CsaWriter.PlaceTextReads | src/converter/csa.rs:60-67 | a square on the board is written as two digits that read back as that square; a drop's origin 00 converts to no square |
| CsaWriter.WriteColor | src/converter/csa.rs:32-38 | writes `ColorSign` |
| CsaWriter.WriteKind | src/converter/csa.rs:40-58 | writes `KindName` |
| CsaWriter.WritePlace | src/converter/csa.rs:60-67 | writes the file and rank, or 00 for none |
| CsaWriter.Lookup | src/converter/csa.rs:71 | a header value is found exactly when its key is present |
| CsaWriter.Either | src/converter/csa.rs:71-76 | the first key's value when present, else the second key's |
| CsaWriter.HeaderLine | src/converter/csa.rs:71-88 | a header line is written exactly when its value is present |
| CsaWriter.WriteHeaderLine | src/converter/csa.rs:71-88 | writes `HeaderLine` |
| CsaWriter.WriteHeader | src/converter/csa.rs:69-90 | writes V2.2, then N+ (先手 or 下手), N- (後手 or 上手), $EVENT, $SITE and $OPENING when present |
| CsaWriter.HeaderOfNamesText | src/converter/csa.rs:69-90 | the header converted from a CSA record is written back as V2.2 and the record's players, event, site and opening |
| CsaWriter.WrittenKind | src/converter/csa.rs:172-176 | a promoting move is written with the promoted kind, any other with its own |
| CsaWriter.SpecialName | src/converter/csa.rs:180-195 | every special has a non-empty CSA name |
| CsaWriter.SpecialNameReads | src/converter/csa.rs:180-195 | a special's name reads back as the action that converts to the same special |
| CsaWriter.WriteComments | src/converter/csa.rs:206-210 | writes each comment after a quote, one per line |
| CsaWriter.WriteMove | src/converter/csa.rs:169-177 | writes sign, origin, destination and written kind |
| CsaWriter.WriteEntryLine | src/converter/csa.rs:168-199 | writes the move or `%` and the special's name, and a line break |
| CsaWriter.WriteTime | src/converter/csa.rs:200-205 | writes `T` and the move's time in seconds when present |
| CsaWriter.WriteEntry | src/converter/csa.rs:167-211 | writes one entry: its line, its time and its comments |
| CsaWriter.WriteMoves | src/converter/csa.rs:166-213 | writes every entry in order |
| CsaWriter.MovesTextSnoc | src/converter/csa.rs:167-211 | the moves' text grows by one entry per loop step |
| CsaWriter.CellText | src/converter/csa.rs:96-102 | every cell takes three characters |
| CsaWriter.RowCells | src/converter/csa.rs:95-103 | the first n cells of a rank take 3n characters |
| CsaWriter.Repeat | src/converter/csa.rs:116-122 | a token repeated n times is n times as long |
| CsaWriter.HandLine | src/converter/csa.rs:106-124 | a hand line is written exactly when the hand is not empty |
| CsaWriter.WriteCell | src/converter/csa.rs:96-102 | writes `CellText` |
| CsaWriter.WriteRepeat | src/converter/csa.rs:116-122 | writes the token n times |
| CsaWriter.WriteHandTokens | src/converter/csa.rs:116-122 | writes one 00 token per piece in the hand, rook first and pawn last |
| CsaWriter.WriteRow | src/converter/csa.rs:94-104 | writes one P line for a rank, from file 9 down to file 1 |
| CsaWriter.WriteInitialData | src/converter/csa.rs:92-127 | writes the nine rank lines, the non-empty hand lines and the side to move |
| CsaWriter.WriteInitialPreset | src/converter/csa.rs:129-150 | writes the preset's PI line and + for 平手, - otherwise |
| CsaWriter.WriteInitial | src/converter/csa.rs:152-164 | writes the data, the preset, or `PI` and `+` without an initial position, and a line break |
| CsaWriter.ToCsa | src/converter/csa.rs:23-30 | writes the header, the initial part and every entry after the first |
| CsaWriter.DefaultRecordText | src/converter/csa.rs:219-229 | the default record is written `V2.2`, `PI`, `+` |
| CsaWriter.MoveLineReads | src/converter/csa.rs:169-177 | a written move on the board reads back as the CSA move with the same colour, squares and written kind |
| CsaWriter.SpecialLineReads | src/converter/csa.rs:178-195 | a written special line reads back as its action |
| CsaWriter.TimeLineReads | src/converter/csa.rs:200-205 | the written time is the decimal of the move's seconds, which the CSA conversion turns back into the same time when it is in normal form |
| CsaWriter.EntryReadsBack | src/converter/csa.rs:167-211 | a written entry, read and converted again, keeps its colour, squares, written kind or special and time, and loses comments and the other move fields |
| CsaWriter.DropsTextSnoc | src/converter/csa.rs:131-141 | the PI text grows by one removed square at a time |
| CsaWriter.PresetPosition | src/converter/csa.rs:129-150 | the written preset is a position given only by removals |
| CsaWriter.PresetDropsOnOpening | src/converter/csa.rs:131-141 | every removed square holds that very piece of White's in the opening position |
| CsaWriter.PresetDropsCells | src/converter/csa.rs:131-141 | the removed squares are exactly the cells of the matching handicap table |
| CsaWriter.PresetTextIsDrops | src/converter/csa.rs:129-150 | the preset's text is PI, its removed squares and the side to move |
| CsaWriter.KyrPositionReads | src/converter/csa.rs:133 | 右香落ち is read back as the opening position without the lance on 9一 |
| CsaWriter.HandicapPresetReads | src/converter/csa.rs:129-150 | every written handicap preset but 右香落ち reads back and normalises to the same preset |
| CsaWriter.PresetReadsBack | src/converter/csa.rs:129-150 | every written preset reads back: 平手 and the handicaps normalise to themselves, 右香落ち to its board |
| CsaDataRoundTrip.CellTextReads | src/converter/csa.rs:96-102 | a written cell reads back as the matching grid cell |
| CsaDataRoundTrip.GridOf | src/converter/csa.rs:93-105 | the grid read from the written ranks: row i, column j is the board's file 9-j, rank i+1 |
| CsaDataRoundTrip.CellRoundTrip | src/csa.rs:93-97 | a well-formed cell converts back to the same piece |
| CsaDataRoundTrip.GridRoundTrip | src/csa.rs:88-100 | the grid of a well-formed board converts back to the same board |
| CsaDataRoundTrip.RowCellsChunk | src/converter/csa.rs:95-103 | the j-th three characters of a written rank are the j-th cell |
| CsaDataRoundTrip.RowTextReads | src/converter/csa.rs:94-104 | each cell of a written rank reads back as the grid's cell |
| CsaDataRoundTrip.Copies | src/converter/csa.rs:116-122 | n copies of one placement |
| CsaDataRoundTrip.PlacementsTextAppend | src/converter/csa.rs:116-122 | the text of joined placements is the joined texts |
| CsaDataRoundTrip.PlacementsTextRepeat | src/converter/csa.rs:116-122 | n copies of a placement are written as its 00 token n times |
| CsaDataRoundTrip.HandTokensArePlacements | src/converter/csa.rs:116-122 | a written hand is the text of its placements, rook first and pawn last |
| CsaDataRoundTrip.HandLineReads | src/converter/csa.rs:106-124 | an empty hand has no placement; any other hand's line is the side's sign and its placements |
| CsaDataRoundTrip.AddsOf | src/csa.rs:76-84 | hand placements read back at square 00 |
| CsaDataRoundTrip.AddsAtHand | src/csa.rs:76-84 | placements at 00 all go to the hands and none to the board |
| CsaDataRoundTrip.DataPlacementsNamed | src/converter/csa.rs:110 | the writer never writes AL, so every hand placement names a hand kind |
| CsaDataRoundTrip.NoAlCount | src/converter/csa.rs:110 | placements that name their kinds contain no AL |
| CsaDataRoundTrip.PlacementsCount | src/csa.rs:126-136 | a side's written placements hold, per kind, exactly its hand's count, and the other side's none |
| CsaDataRoundTrip.HandsRoundTrip | src/csa.rs:126-136 | the written hands convert back to the same hands, whatever the remaining set |
| CsaDataRoundTrip.DataRoundTrip | src/csa.rs:62-146 | position data written by the CSA writer converts back to the same position with preset その他 |
| FromPkf.EnumValue | src/jkf/from_pkf.rs:5-51 | a required enumeration converts exactly when its value is known; unset gives the field's "required" error, an unknown number UnknownEnumValue with the field's name |
| FromPkf.OptionalEnum | src/jkf/from_pkf.rs:235-244 | an optional enumeration fails only for an unknown number; unset gives no value |
| FromPkf.ByteOf | src/jkf/from_pkf.rs:59-60 | a number converts to a byte exactly when it is below 256, else TryFromInt |
| FromPkf.PlaceOf | src/jkf/from_pkf.rs:53-66 | a missing square fails with MissingField("square"); a present one converts exactly when file and rank fit a byte, and keeps them |
| FromPkf.PresetOf | src/jkf/from_pkf.rs:68-86 | the eleven protocol presets map to presets with a protocol counterpart |
| FromPkf.PkfPresetOf | src/jkf/into_pkf.rs:34-55 | the presets without a protocol counterpart are exactly 三枚 五枚 左五枚 左七枚 右七枚 落ち and その他 |
| FromPkf.PresetRoundTrip | src/jkf/into_pkf.rs:34-55 | the two preset mappings are inverse to each other, in both directions |
| FromPkf.TimeFormatOf | src/jkf/from_pkf.rs:200-212 | a number of seconds converts exactly when its hours fit a byte; the result holds the same seconds with minutes and seconds below 60, and has an hour when asked for or when it is at least 3600 |
| FromPkf.TimeOf | src/jkf/from_pkf.rs:196-218 | both times convert, keep their seconds, and only the total always has an hour |
| FromPkf.HandOf | src/jkf/from_pkf.rs:88-102 | a hand converts exactly when every count fits a byte, and keeps the counts |
| FromPkf.CellOf | src/jkf/from_pkf.rs:112-117 | an absent piece is an empty cell; a present one converts exactly when its colour and kind are known |
| FromPkf.FirstFailure | src/jkf/from_pkf.rs:110-119 | the first cell, in the loop's order, that fails to convert |
| FromPkf.BoardOfCells | src/jkf/from_pkf.rs:109-119 | a board converts exactly when every cell does, cell by cell, and otherwise fails with some cell's error |
| FromPkf.ConvertBoard | src/jkf/from_pkf.rs:109-119 | the nested loop over the board: the result is `BoardOf` |
| FromPkf.OptionalHandOf | src/jkf/from_pkf.rs:120-126 | a missing hand is empty, a present one is `HandOf` |
| FromPkf.StateOf | src/jkf/from_pkf.rs:104-133 | a state converts exactly when its colour, board and hands do, and keeps them; an unset colour fails with ColorRequired |
| FromPkf.InitialOf | src/jkf/from_pkf.rs:294-311 | no position is 平手; a preset keeps its preset without data; a state is その他 with the converted state |
| FromPkf.NormalOf | src/jkf/from_pkf.rs:227-246 | a normal move converts exactly when colour, both squares and kind convert and capture and relative are not unknown numbers; it keeps them and its promotion, and is never `same` |
| FromPkf.DropOf | src/jkf/from_pkf.rs:247-262 | a drop converts exactly when colour, destination and kind convert and relative is not an unknown number; it has no origin, promotion or capture |
| FromPkf.ActionOf | src/jkf/from_pkf.rs:224-267 | an entry has a move exactly for a normal move or a drop, a special exactly for a special, and no action is the default entry |
| FromPkf.MoveOf | src/jkf/from_pkf.rs:220-287 | a message move converts exactly when its action, its time and every fork do; the entry keeps the action, has comments exactly when there are some, its time is the message's time converted and its variations are the converted forks, one per fork; a failure is the action's, else the time's, else the forks' |
| FromPkf.ForksOf | src/jkf/from_pkf.rs:274-284 | the forks convert exactly when every fork's moves do; variation k is fork k's converted moves, and a failure is the first failing fork's |
| FromPkf.LineOf | src/jkf/from_pkf.rs:277-280 | a fork converts exactly when each of its moves does; entry j is move j converted, and a failure is the first failing move's |
| FromPkf.MarkedForks | src/jkf/from_pkf.rs:335-339 | marking keeps whether there are forks and how many |
| FromPkf.MarkedLine | src/jkf/from_pkf.rs:328-342 | marking keeps the number of entries |
| FromPkf.MarkedLineAt | src/jkf/from_pkf.rs:329-341 | each entry is marked against the destination of the entry before it, the first against the starting square |
| FromPkf.SetSameEntries | src/jkf/from_pkf.rs:328-342 | marking changes only `same`: it becomes true when the move lands where the previous move landed and stays otherwise; every fork is marked against the same previous square |
| FromPkf.MarkedEntryTo | src/jkf/from_pkf.rs:340 | marking does not change an entry's destination |
| FromPkf.MarkedLineIdempotent | src/jkf/from_pkf.rs:328-342 | marking a marked line again changes nothing |
| FromPkf.MarkedEntryIdempotent | src/jkf/from_pkf.rs:330-334 | marking a marked entry again changes nothing |
| FromPkf.MarkedForksIdempotent | src/jkf/from_pkf.rs:335-339 | marking marked forks again changes nothing |
| FromPkf.SetSame | src/jkf/from_pkf.rs:328-342 | the loop over a line: the result is `MarkedLine` |
| FromPkf.SetSameForks | src/jkf/from_pkf.rs:335-339 | the loop over the forks: the result is `MarkedForks` |
| FromPkf.MovesOf | src/jkf/from_pkf.rs:315-318 | the moves convert exactly when each does; entry k is move k converted, and a failure is the first failing move's |
| FromPkf.ConvertMoves | src/jkf/from_pkf.rs:315-318 | the loop over the moves: the result is `MovesOf` |
| FromPkf.ConvertKifu | src/jkf/from_pkf.rs:289-326 | converts a record: the result is `KifuOf` |
| FromPkf.KifuOfShape | src/jkf/from_pkf.rs:289-326 | a record converts exactly when its initial position and all moves do; header kept, initial position converted, and the moves are the converted moves with `same` set by `set_same` from no previous square; a failure is the initial position's, else the first failing move's |
| FromPkf.FirstMoveNotMarked | src/jkf/from_pkf.rs:319 | the first entry is marked against no square, so its move is as converted |
| FromPkf.DefaultKifu | src/jkf/from_pkf.rs:438-447 | a record with one empty move converts to the default record |

## Left out

- The external crates are not modelled. `PartialPosition::make_move` is replaced by `Core.MakeMove`. It checks that the origin holds the mover's piece, that no own piece is captured, the promotion zone, and that a drop goes to an empty square from the hand. Checks, pins and how pieces move are not modelled. Legal-move candidates and the kanji move display are function parameters, and the normalizer relies only on the stated soundness of the candidates.
- File input in src/parser.rs is I/O and is left out: opening files, choosing Shift-JIS or UTF-8 by extension, and error wrapping.
- The KI2 move parser (src/parser/ki2.rs) is left out because the library leaves it unimplemented. The KI2 writer is checked against a reference reader written for this model.
- src/jkf/into_pkf.rs is left out, apart from its preset mapping (`FromPkf.PkfPresetOf`). It is a field-by-field copy onto generated protobuf types, and its drop and board paths are unimplemented.
- USI output in src/converter.rs is left out because it delegates to the external crate.
- The error types in src/error.rs are modelled as datatypes only. The snapshots disagree on variant names, so one consistent set is used.
- serde/JSON-schema validation, nom combinator internals and the `csa` crate's text parser are left out. The readers are hand-written functions over `seq<char>`, and the CSA reader starts from the crate's parsed record.
- The CSA record's start time, end time and time limit are taken as already-formatted strings, since their `Display` lives in the `csa` crate.
- Protobuf enumerations are closed datatypes. An unknown preset number is therefore not representable, so the panic of `preset.unwrap()` at src/jkf/from_pkf.rs:298 is not modelled.
- `Hand::add`, which the CSA reader calls, is not among the shown files. It is modelled as `Normalizer.Increment`, and hand placements must be a hand kind or AL.
- Hash-map iteration order is unspecified, so it is not modelled. `KakinokiWriter.WriteHeader` and the record writers state that the header lines appear in some order of the keys, not which one.
- Writing forks is left out because none of the writers write them.
- The relative token has 13 values, including LM and RM. The enum in src/jkf.rs:110-133 lists only 11, but the normalizer and the KI2 writer use all 13; the model follows that code.
- Hand counts are `nat`. The byte overflow of the parsers' hand sums is not modelled.
- Normalizer.AddTimeFormat: requires `AddFits`, because the source's per-field byte sums would overflow otherwise. The hour of the result wraps modulo 256, as in the source.
- Normalizer.TimedEntry: a running total whose byte fields would overflow in `add_timeformat` (src/normalizer.rs:229-232) is reported as the model's own error `TimeOverflow`. The source has no such error: its byte sums panic in a debug build and wrap in a release build.
- Normalizer.Normalized: inherits that `TimeOverflow` error from `TimedEntry`, and so does `Normalizer.Normalize`.
- Normalizer.Normalize: requires at least one entry; the source's `moves[1..]` panics on an empty list.
- KifReader.EntireMoves: where the source's `merge_forks` would index past a line (a block anchored beyond its parent), the model fails the parse instead of panicking. KifForks.MergeForks therefore requires `FitsBlocks` and `FitsMain`.
- KifWriter.ToKif: writes the corrected padding for a timed entry whose special is written as 中断 (9 blanks before the time), where src/converter/kif.rs:261,267 writes 13; see "Findings". Every other line is as the source writes it.
- KifWriter.WriteSpecial: returns the corrected count `SpecialOffset` (4 for 中断 and for every special written as 中断), where src/converter/kif.rs:261 adds nothing; the source's count is `KifWriter.SpecialOffsetAsWritten`.
- KifWriter.WriteBody: returns the corrected count for specials written as 中断, not the source's 0.
- KifWriter.WriteMoveLine: pads a timed line whose special is written as 中断 with 9 blanks, where the source writes 13.
- KifWriter.WriteEntry: writes the corrected padding for a timed entry whose special is written as 中断.
- KifWriter.WriteMoves: the move section carries the corrected padding for timed entries whose special is written as 中断. `KifWriter.ChudanMisaligned` states what the source's count gives.
- KifWriter.ToKif: requires `RecordWritable`. An entry with neither a move nor a special (`unreachable!`), a destination beyond the glyph tables, and a body wider than the time column all stop the source.
- KifWriter.NormalOffsetFits: proves the padding cannot underflow only for moves whose `promote` is set on a promotable kind. `KifWriter.DoublyPromotedOffset` shows a 14-column body that would underflow in the source.
- Ki2Writer.ToKi2: requires `RecordWritable`, because a destination beyond the glyph tables stops the source.
- CsaWriter.ToCsa: requires `RecordWritable`. An entry with neither a move nor a special is `unreachable!`, and presets 3, 5, 5L, 7L and 7R are `unimplemented!` in the source (`PresetWritable`).
- KakinokiWriter.WriteInitialPreset: requires `Writable`, because the source stops on the presets it cannot name.
- CsaRecord.InitialOf: requires `BoardSquaresValid` through `PositionConvertible`. Every removed square, and every single placement not at 00, must lie on the board (file and rank 1..9). On any other square src/csa.rs:105,112 compute `sq.file as usize - 1` or index past the ninth file or rank, and the source panics. That panic is not modelled.
- CsaRecord.ConvertPosition: requires `PositionConvertible`, so the off-board squares on which src/csa.rs:105,112 panic are excluded, as for `CsaRecord.InitialOf`.
- CsaRecord.RecordOf: requires `RecordConvertible`, which carries `BoardSquaresValid` for the start position; the off-board squares on which src/csa.rs:105,112 panic are excluded.
- CsaRecord.ConvertRecord: requires `RecordConvertible`; the off-board squares on which src/csa.rs:105,112 panic are excluded, as for `CsaRecord.RecordOf`.
- CsaRecord.ClearDrops: requires every removed square on the board, where src/csa.rs:105 would panic.
- CsaRecord.PlacePieces: requires every placed square on the board, where src/csa.rs:112 would panic.
- ShogiCoreFrom.PositionOfInitial: the handicap presets 3, 5, 5L, 7L and 7R are unimplemented in the source. They are modelled as a failure value instead of a panic.

## Findings

| source | as written | input that shows it | evidently intended | confidence | as-written member | corrected member |
|---|---|---|---|---|---|---|
| src/csa.rs:126-136 | an AL hand entry adds every piece not on the board, ignoring pieces already named for a hand | `P+00KI` then `P-00AL` on an empty board: Black gets one gold, White four (five golds) | AL gives the side the pieces that are on neither the board nor an explicit hand | not executed | CsaRecord.GoldCountedTwice | CsaRecord.GoldCountedOnce |
| src/converter/kif.rs:261 | the offset for 中断 stays 0, so the padding before a time is 13 blanks | an entry with special 中断 and a time: body and padding take 17 columns instead of 13 | 中断 counts its 4 columns, like the other specials | not executed | KifWriter.ChudanMisaligned | KifWriter.TimeColumnAligned |
