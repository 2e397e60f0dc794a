/** The shared records of the falling-block engine (`src/game/types.ts`). */
module Types {

  /** The seven tetromino kinds. */
  datatype PieceType = I | O | T | J | L | S | Z

  /** A board cell: empty, or holding the colour tag of the piece that was locked there. */
  datatype Cell = Empty | Filled(colour: string)

  type Row = seq<Cell>

  /** Rows from top (index 0) to bottom; every row is a sequence of cells from left to right. */
  type Board = seq<Row>

  datatype Position = Position(x: int, y: int)

  /** The falling piece: its kind, its orientation index and the board position of its 4x4 box. */
  datatype ActivePiece = ActivePiece(kind: PieceType, rotation: nat, position: Position)

  /** The result of the three-corner T-spin test. */
  datatype TSpinKind = NoSpin | Mini | Double | Triple

  datatype Option<T> = None | Some(value: T)
}
