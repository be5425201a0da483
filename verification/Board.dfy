/** The 0x88 board of the rules engine: squares, pieces, move offsets and the two attack tables. */
module Board {

  datatype Color = White | Black {
    function Other(): Color {
      if this == White then Black else White
    }
  }

  datatype Kind = Pawn | Knight | Bishop | Rook | Queen | King

  datatype Piece = Piece(kind: Kind, color: Color)

  datatype Cell = Empty | Full(piece: Piece) {
    predicate Has(kind: Kind, color: Color) {
      this == Full(Piece(kind, color))
    }

    predicate Owned(color: Color) {
      Full? && piece.color == color
    }
  }

  /** Square number that stands for "no square". */
  const EMPTY := -1

  /** Row 0 is rank 8 and row 7 is rank 1, as in the 0x88 layout. */
  function Rank(i: int): int {
    i / 16
  }

  function File(i: int): int {
    i % 16
  }

  /** The test `i & 0x88` on a two's complement integer: bit 3 or bit 7 is set. */
  predicate OffBoard(i: int) {
    (i / 8) % 2 == 1 || (i / 128) % 2 == 1
  }

  predicate OnBoard(i: int) {
    0 <= i < 128 && i % 16 < 8
  }

  function Abs(n: int): nat {
    if n < 0 then -n else n
  }

  function Sign(n: int): int {
    if n < 0 then -1 else if n == 0 then 0 else 1
  }

  /** Over every index a move offset can reach, the mask test is exactly "not one of the 64 squares". */
  lemma OffBoardIsOutside(i: int)
    requires -128 <= i < 256
    ensures OffBoard(i) <==> !OnBoard(i)
  {
  }

  /** How a scan over all indices proceeds: along a row, then over the eight indices after it. */
  lemma ScanStep(i: int)
    requires 0 <= i <= 119 && i % 16 <= 8
    ensures OffBoard(i) <==> !OnBoard(i)
    ensures OnBoard(i) ==> (i + 1) % 16 <= 8
    ensures !OnBoard(i) ==> i % 16 == 8 && i + 8 <= 112 && (i + 8) % 16 == 0
  {
    var row, column := i / 16, i % 16;
    assert i == 16 * row + column;
    if column < 8 {
      assert (i + 1) / 16 == row && (i + 1) % 16 == column + 1;
    } else {
      assert (i + 8) / 16 == row + 1;
    }
  }

  // ---------------------------------------------------------------- offsets

  /** One step towards the enemy side. */
  function Forward(color: Color): int {
    if color == White then -16 else 16
  }

  function PawnOffsets(color: Color): seq<int> {
    if color == White then [-16, -32, -17, -15] else [16, 32, 17, 15]
  }

  function Offsets(kind: Kind): seq<int>
    requires kind != Pawn
  {
    match kind
    case Knight => [-18, -33, -31, -14, 18, 33, 31, 14]
    case Bishop => [-17, -15, 17, 15]
    case Rook => [-16, 1, 16, -1]
    case Queen => [-17, -16, -15, 1, 17, 16, 15, -1]
    case King => [-17, -16, -15, 1, 17, 16, 15, -1]
  }

  /** Knights and kings make one step along an offset, the other pieces any number. */
  predicate Leaper(kind: Kind) {
    kind == Knight || kind == King
  }

  // ----------------------------------------------------------------- tables

  /** One printed row of the table ATTACKS; entry `16 * row + column` of the table. */
  function AttackRow(row: int): seq<int>
    requires 0 <= row < 15
    ensures |AttackRow(row)| >= 15
  {
    match row
    case 0 => [20, 0, 0, 0, 0, 0, 0, 24, 0, 0, 0, 0, 0, 0, 20, 0]
    case 1 => [0, 20, 0, 0, 0, 0, 0, 24, 0, 0, 0, 0, 0, 20, 0, 0]
    case 2 => [0, 0, 20, 0, 0, 0, 0, 24, 0, 0, 0, 0, 20, 0, 0, 0]
    case 3 => [0, 0, 0, 20, 0, 0, 0, 24, 0, 0, 0, 20, 0, 0, 0, 0]
    case 4 => [0, 0, 0, 0, 20, 0, 0, 24, 0, 0, 20, 0, 0, 0, 0, 0]
    case 5 => [0, 0, 0, 0, 0, 20, 2, 24, 2, 20, 0, 0, 0, 0, 0, 0]
    case 6 => [0, 0, 0, 0, 0, 2, 53, 56, 53, 2, 0, 0, 0, 0, 0, 0]
    case 7 => [24, 24, 24, 24, 24, 24, 56, 0, 56, 24, 24, 24, 24, 24, 24, 0]
    case 8 => [0, 0, 0, 0, 0, 2, 53, 56, 53, 2, 0, 0, 0, 0, 0, 0]
    case 9 => [0, 0, 0, 0, 0, 20, 2, 24, 2, 20, 0, 0, 0, 0, 0, 0]
    case 10 => [0, 0, 0, 0, 20, 0, 0, 24, 0, 0, 20, 0, 0, 0, 0, 0]
    case 11 => [0, 0, 0, 20, 0, 0, 0, 24, 0, 0, 0, 20, 0, 0, 0, 0]
    case 12 => [0, 0, 20, 0, 0, 0, 0, 24, 0, 0, 0, 0, 20, 0, 0, 0]
    case 13 => [0, 20, 0, 0, 0, 0, 0, 24, 0, 0, 0, 0, 0, 20, 0, 0]
    case _ => [20, 0, 0, 0, 0, 0, 0, 24, 0, 0, 0, 0, 0, 0, 20]
  }

  /** One printed row of the table RAYS. */
  function RayRow(row: int): seq<int>
    requires 0 <= row < 15
    ensures |RayRow(row)| >= 15
  {
    match row
    case 0 => [17, 0, 0, 0, 0, 0, 0, 16, 0, 0, 0, 0, 0, 0, 15, 0]
    case 1 => [0, 17, 0, 0, 0, 0, 0, 16, 0, 0, 0, 0, 0, 15, 0, 0]
    case 2 => [0, 0, 17, 0, 0, 0, 0, 16, 0, 0, 0, 0, 15, 0, 0, 0]
    case 3 => [0, 0, 0, 17, 0, 0, 0, 16, 0, 0, 0, 15, 0, 0, 0, 0]
    case 4 => [0, 0, 0, 0, 17, 0, 0, 16, 0, 0, 15, 0, 0, 0, 0, 0]
    case 5 => [0, 0, 0, 0, 0, 17, 0, 16, 0, 15, 0, 0, 0, 0, 0, 0]
    case 6 => [0, 0, 0, 0, 0, 0, 17, 16, 15, 0, 0, 0, 0, 0, 0, 0]
    case 7 => [1, 1, 1, 1, 1, 1, 1, 0, -1, -1, -1, -1, -1, -1, -1, 0]
    case 8 => [0, 0, 0, 0, 0, 0, -15, -16, -17, 0, 0, 0, 0, 0, 0, 0]
    case 9 => [0, 0, 0, 0, 0, -15, 0, -16, 0, -17, 0, 0, 0, 0, 0, 0]
    case 10 => [0, 0, 0, 0, -15, 0, 0, -16, 0, 0, -17, 0, 0, 0, 0, 0]
    case 11 => [0, 0, 0, -15, 0, 0, 0, -16, 0, 0, 0, -17, 0, 0, 0, 0]
    case 12 => [0, 0, -15, 0, 0, 0, 0, -16, 0, 0, 0, 0, -17, 0, 0, 0]
    case 13 => [0, -15, 0, 0, 0, 0, 0, -16, 0, 0, 0, 0, 0, -17, 0, 0]
    case _ => [-15, 0, 0, 0, 0, 0, 0, -16, 0, 0, 0, 0, 0, 0, -17]
  }

  /** ATTACKS[index]. */
  function Attacks(index: int): int
    requires 0 <= index < 239
  {
    AttackRow(index / 16)[index % 16]
  }

  /** RAYS[index]. */
  function Rays(index: int): int
    requires 0 <= index < 239
  {
    RayRow(index / 16)[index % 16]
  }

  /** The value `1 << SHIFTS[kind]`. */
  function Bit(kind: Kind): int {
    match kind
    case Pawn => 1
    case Knight => 2
    case Bishop => 4
    case Rook => 8
    case Queen => 16
    case King => 32
  }

  predicate BitSet(value: int, kind: Kind) {
    (value / Bit(kind)) % 2 == 1
  }
}
