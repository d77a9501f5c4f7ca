// The failure values of the position conversions and of the normalizer.
// The source's error enums were renamed between snapshots; one consistent
// set of names is used here.

module Errors {
  import opened Jkf
  import opened Core

  /** Failures of the conversions between the record and a position. */
  datatype ConvertError =
    | InitialBoardNoDataWithPresetOTHER
    | InitialHands(kind: Kind)
    | InvalidPlace(x: int, y: int)
    | InvalidMove(mv: CoreMove)
    | UnsupportedPreset(preset: Preset)
    | NoPieceAt(sq: Square)
    | MakeMoveFailed(mv: CoreMove)
    | Normalize(err: NormalizerError)

  /** Failures of the normalizer. */
  datatype NormalizerError =
    | CoreConvert(err: ConvertError)
    | NoLastMove
    | MoveInconsistent(msg: string)
    | AmbiguousMoveFrom(froms: seq<Square>)
    | TimeOverflow
}
