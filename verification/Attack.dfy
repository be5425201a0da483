/** What it means for a piece to bear on a square, and why the two attack tables decide it. */
module Attack {
  import opened Board

  /** The square n steps along an offset. */
  function Walk(from: int, offset: int, n: nat): int {
    if n == 0 then from else Walk(from, offset, n - 1) + offset
  }

  /** From a square one can walk n steps along an offset, meeting nothing before the last step. */
  ghost predicate Clear(board: seq<Cell>, from: int, offset: int, n: nat)
    requires |board| == 128
  {
    && n >= 1
    && (forall t :: 1 <= t <= n ==> OnBoard(Walk(from, offset, t)))
    && (forall t :: 1 <= t < n ==> board[Walk(from, offset, t)].Empty?)
  }

  ghost predicate Slides(board: seq<Cell>, from: int, to: int, offset: int, n: nat)
    requires |board| == 128
  {
    Clear(board, from, offset, n) && Walk(from, offset, n) == to
  }

  /** A piece of this kind (not a pawn) standing on `from` gets to `to` in one move, captures aside. */
  ghost predicate Reaches(board: seq<Cell>, kind: Kind, from: int, to: int)
    requires |board| == 128 && kind != Pawn
  {
    if Leaper(kind) then to - from in Offsets(kind)
    else exists offset, n :: offset in Offsets(kind) && Slides(board, from, to, offset, n)
  }

  /** The direct definition: the piece standing on `from` could capture on `to`. */
  ghost predicate Bears(board: seq<Cell>, from: int, to: int)
    requires |board| == 128 && OnBoard(from) && board[from].Full?
  {
    var piece := board[from].piece;
    if piece.kind == Pawn then to == from + PawnOffsets(piece.color)[2] || to == from + PawnOffsets(piece.color)[3]
    else Reaches(board, piece.kind, from, to)
  }

  ghost predicate AttackedBy(board: seq<Cell>, color: Color, square: int)
    requires |board| == 128
  {
    exists from :: OnBoard(from) && board[from].Owned(color) && Bears(board, from, square)
  }

  // ------------------------------------------------- the geometry of the tables

  predicate Aligned(dr: int, df: int) {
    (dr != 0 || df != 0) && (dr == 0 || df == 0 || Abs(dr) == Abs(df))
  }

  /** Whether a piece of this kind on an empty board may connect squares (dr, df) apart, colour aside. */
  predicate Shape(kind: Kind, dr: int, df: int) {
    match kind
    case Pawn => Abs(dr) == 1 && Abs(df) == 1
    case Knight => (Abs(dr) == 1 && Abs(df) == 2) || (Abs(dr) == 2 && Abs(df) == 1)
    case Bishop => Aligned(dr, df) && dr != 0 && df != 0
    case Rook => Aligned(dr, df) && (dr == 0 || df == 0)
    case Queen => Aligned(dr, df)
    case King => Aligned(dr, df) && Abs(dr) <= 1 && Abs(df) <= 1
  }

  /** The attack bits a displacement ought to have. */
  function Mask(dr: int, df: int): int {
    var a, b := Abs(dr), Abs(df);
    if a == 0 && b == 0 then 0
    else if a == 0 || b == 0 then (if a + b == 1 then 56 else 24)
    else if a == b then (if a == 1 then 53 else 20)
    else if a + b == 3 then 2 else 0
  }

  lemma BitOfLine(kind: Kind)
    ensures BitSet(20, kind) <==> kind == Bishop || kind == Queen
    ensures BitSet(24, kind) <==> kind == Rook || kind == Queen
  {
    match kind case Pawn => case Knight => case Bishop => case Rook => case Queen => case King =>
  }

  lemma BitOfNear(kind: Kind)
    ensures BitSet(53, kind) <==> kind != Knight && kind != Rook
    ensures BitSet(56, kind) <==> kind == Rook || kind == Queen || kind == King
  {
    match kind case Pawn => case Knight => case Bishop => case Rook => case Queen => case King =>
  }

  lemma BitOfLeap(kind: Kind)
    ensures !BitSet(0, kind) && (BitSet(2, kind) <==> kind == Knight)
  {
    match kind case Pawn => case Knight => case Bishop => case Rook => case Queen => case King =>
  }

  lemma MaskIsShape(dr: int, df: int, kind: Kind)
    ensures BitSet(Mask(dr, df), kind) <==> Shape(kind, dr, df)
  {
    BitOfLine(kind);
    BitOfNear(kind);
    BitOfLeap(kind);
  }

  /** Every entry of the table ATTACKS, by the displacement it stands for. */
  lemma AttackEntry(dr: int, df: int)
    requires -7 <= dr <= 7 && -7 <= df <= 7
    ensures AttackRow(dr + 7)[df + 7] == Mask(dr, df)
  {
    if dr <= -5 { AttackEntryTop(dr, df); } else if dr <= -2 { AttackEntryUpper(dr, df); } else if dr <= 1 { AttackEntryMiddle(dr, df); }
    else if dr <= 4 { AttackEntryLower(dr, df); } else { AttackEntryBottom(dr, df); }
  }

  lemma AttackEntryTop(dr: int, df: int)
    requires -7 <= dr <= -5 && -7 <= df <= 7
    ensures AttackRow(dr + 7)[df + 7] == Mask(dr, df)
  {
    if dr == -7 { } else if dr == -6 { } else { }
  }

  lemma AttackEntryUpper(dr: int, df: int)
    requires -4 <= dr <= -2 && -7 <= df <= 7
    ensures AttackRow(dr + 7)[df + 7] == Mask(dr, df)
  {
    if dr == -4 { } else if dr == -3 { } else { }
  }

  lemma AttackEntryMiddle(dr: int, df: int)
    requires -1 <= dr <= 1 && -7 <= df <= 7
    ensures AttackRow(dr + 7)[df + 7] == Mask(dr, df)
  {
    if dr == -1 { } else if dr == 0 { } else { }
  }

  lemma AttackEntryLower(dr: int, df: int)
    requires 2 <= dr <= 4 && -7 <= df <= 7
    ensures AttackRow(dr + 7)[df + 7] == Mask(dr, df)
  {
    if dr == 2 { } else if dr == 3 { } else { }
  }

  lemma AttackEntryBottom(dr: int, df: int)
    requires 5 <= dr <= 7 && -7 <= df <= 7
    ensures AttackRow(dr + 7)[df + 7] == Mask(dr, df)
  {
    if dr == 5 { } else if dr == 6 { } else { }
  }

  /** Every entry of the table RAYS: the offset back along the displacement, on lines only. */
  lemma RayEntry(dr: int, df: int)
    requires -7 <= dr <= 7 && -7 <= df <= 7
    ensures RayRow(dr + 7)[df + 7] == if Aligned(dr, df) then -16 * Sign(dr) - Sign(df) else 0
  {
    if dr <= -5 { RayEntryTop(dr, df); } else if dr <= -2 { RayEntryUpper(dr, df); } else if dr <= 1 { RayEntryMiddle(dr, df); }
    else if dr <= 4 { RayEntryLower(dr, df); } else { RayEntryBottom(dr, df); }
  }

  lemma RayEntryTop(dr: int, df: int)
    requires -7 <= dr <= -5 && -7 <= df <= 7
    ensures RayRow(dr + 7)[df + 7] == if Aligned(dr, df) then -16 * Sign(dr) - Sign(df) else 0
  {
    if dr == -7 { } else if dr == -6 { } else { }
  }

  lemma RayEntryUpper(dr: int, df: int)
    requires -4 <= dr <= -2 && -7 <= df <= 7
    ensures RayRow(dr + 7)[df + 7] == if Aligned(dr, df) then -16 * Sign(dr) - Sign(df) else 0
  {
    if dr == -4 { } else if dr == -3 { } else { }
  }

  lemma RayEntryMiddle(dr: int, df: int)
    requires -1 <= dr <= 1 && -7 <= df <= 7
    ensures RayRow(dr + 7)[df + 7] == if Aligned(dr, df) then -16 * Sign(dr) - Sign(df) else 0
  {
    if dr == -1 { } else if dr == 0 { } else { }
  }

  lemma RayEntryLower(dr: int, df: int)
    requires 2 <= dr <= 4 && -7 <= df <= 7
    ensures RayRow(dr + 7)[df + 7] == if Aligned(dr, df) then -16 * Sign(dr) - Sign(df) else 0
  {
    if dr == 2 { } else if dr == 3 { } else { }
  }

  lemma RayEntryBottom(dr: int, df: int)
    requires 5 <= dr <= 7 && -7 <= df <= 7
    ensures RayRow(dr + 7)[df + 7] == if Aligned(dr, df) then -16 * Sign(dr) - Sign(df) else 0
  {
    if dr == 5 { } else if dr == 6 { } else { }
  }

  function RankStep(from: int, to: int): int { Sign(Rank(to) - Rank(from)) }

  function FileStep(from: int, to: int): int { Sign(File(to) - File(from)) }

  /** The offset that leads from one square straight to another. */
  function Toward(from: int, to: int): int { 16 * RankStep(from, to) + FileStep(from, to) }

  function Distance(from: int, to: int): nat {
    if Abs(Rank(to) - Rank(from)) >= Abs(File(to) - File(from)) then Abs(Rank(to) - Rank(from))
    else Abs(File(to) - File(from))
  }

  ghost predicate Lined(from: int, to: int) { Aligned(Rank(to) - Rank(from), File(to) - File(from)) }

  lemma TableIndex(from: int, to: int)
    requires OnBoard(from) && OnBoard(to)
    ensures var index := from - to + 119;
            0 <= index < 239 && index / 16 == Rank(from) - Rank(to) + 7 && index % 16 == File(from) - File(to) + 7
  {
    assert from - to + 119 == 16 * (Rank(from) - Rank(to) + 7) + (File(from) - File(to) + 7);
  }

  /** Both tables at the index the engine computes for two squares of the board. */
  lemma AttacksAt(from: int, to: int)
    requires OnBoard(from) && OnBoard(to)
    ensures 0 <= from - to + 119 < 239
    ensures Attacks(from - to + 119) == Mask(Rank(from) - Rank(to), File(from) - File(to))
  {
    TableIndex(from, to);
    AttackEntry(Rank(from) - Rank(to), File(from) - File(to));
  }

  lemma RaysAt(from: int, to: int)
    requires OnBoard(from) && OnBoard(to)
    ensures 0 <= from - to + 119 < 239
    ensures Lined(from, to) ==> Rays(from - to + 119) == Toward(from, to)
  {
    TableIndex(from, to);
    RayEntry(Rank(from) - Rank(to), File(from) - File(to));
  }

  function Directions(): seq<int> { [-17, -16, -15, 1, 17, 16, 15, -1] }

  ghost predicate RateOf(from: int, to: int, offset: int, n: int) {
    var a, b := Rank(to) - Rank(from), File(to) - File(from);
    && (offset == -17 ==> a == -n && b == -n) && (offset == -16 ==> a == -n && b == 0)
    && (offset == -15 ==> a == -n && b == n) && (offset == 1 ==> a == 0 && b == n)
    && (offset == 17 ==> a == n && b == n) && (offset == 16 ==> a == n && b == 0)
    && (offset == 15 ==> a == n && b == -n) && (offset == -1 ==> a == 0 && b == -n)
  }

  /** A walk that stays on the board moves its rank and its file at a constant rate. */
  lemma {:induction false} WalkCoordinates(from: int, offset: int, n: nat)
    requires offset in Directions() && OnBoard(from)
    requires forall t :: 1 <= t <= n ==> OnBoard(Walk(from, offset, t))
    ensures RateOf(from, Walk(from, offset, n), offset, n)
  {
    if n > 0 {
      WalkCoordinates(from, offset, n - 1);
      assert OnBoard(Walk(from, offset, n));
      assert n > 1 ==> OnBoard(Walk(from, offset, n - 1));
    }
  }

  /** Hence the squares at its ends determine both its direction and its length. */
  lemma WalkIsToward(from: int, offset: int, n: nat)
    requires offset in Directions() && OnBoard(from) && n >= 1
    requires forall t :: 1 <= t <= n ==> OnBoard(Walk(from, offset, t))
    ensures var to := Walk(from, offset, n);
            Lined(from, to) && offset == Toward(from, to) && n == Distance(from, to)
  {
    WalkCoordinates(from, offset, n);
  }

  lemma TowardIsDirection(from: int, to: int)
    requires Lined(from, to)
    ensures Toward(from, to) in Directions()
  {
  }

  lemma SquareAt(rank: int, file: int)
    requires 0 <= rank < 8 && 0 <= file < 8
    ensures var at := 16 * rank + file; OnBoard(at) && Rank(at) == rank && File(at) == file
  {
  }

  /** One more step towards a square on the same line, while it is not yet reached. */
  lemma LineStep(from: int, to: int, at: int, n: nat)
    requires OnBoard(from) && OnBoard(to) && Lined(from, to) && OnBoard(at) && n < Distance(from, to)
    requires RateOf(from, at, Toward(from, to), n)
    ensures OnBoard(at + Toward(from, to)) && RateOf(from, at + Toward(from, to), Toward(from, to), n + 1)
  {
    var a, b := RankStep(from, to), FileStep(from, to);
    if a == 0 {
      assert Rank(at) == Rank(from);
    } else if a == 1 {
      assert Rank(at) == Rank(from) + n < Rank(to);
    } else {
      assert Rank(at) == Rank(from) - n > Rank(to);
    }
    if b == 0 {
      assert File(at) == File(from);
    } else if b == 1 {
      assert File(at) == File(from) + n < File(to);
    } else {
      assert File(at) == File(from) - n > File(to);
    }
    SquareAt(Rank(at) + a, File(at) + b);
    assert at + Toward(from, to) == 16 * (Rank(at) + a) + (File(at) + b);
  }

  /** Between two squares on one line the walk stays on the board and arrives. */
  lemma {:induction false} LineWalk(from: int, to: int, n: nat)
    requires OnBoard(from) && OnBoard(to) && Lined(from, to) && n <= Distance(from, to)
    ensures var at := Walk(from, Toward(from, to), n);
            && OnBoard(at) && RateOf(from, at, Toward(from, to), n) && (n == Distance(from, to) ==> at == to)
  {
    if n > 0 {
      LineWalk(from, to, n - 1);
      LineStep(from, to, Walk(from, Toward(from, to), n - 1), n - 1);
    }
  }

  /** The straight walk between two squares on one line: on the board throughout, arriving only at its end. */
  lemma LineWalks(from: int, to: int)
    requires OnBoard(from) && OnBoard(to) && Lined(from, to)
    ensures Distance(from, to) >= 1 && Walk(from, Toward(from, to), Distance(from, to)) == to
    ensures forall t :: 1 <= t <= Distance(from, to) ==> OnBoard(Walk(from, Toward(from, to), t))
    ensures forall t :: 1 <= t < Distance(from, to) ==> Walk(from, Toward(from, to), t) != to
  {
    var n := Distance(from, to);
    LineWalk(from, to, n);
    forall t | 1 <= t <= n
      ensures OnBoard(Walk(from, Toward(from, to), t)) && (t < n ==> Walk(from, Toward(from, to), t) != to)
    {
      LineWalk(from, to, t);
      TowardIsDirection(from, to);
    }
  }

  /** The two offset lists of a sliding piece are the lines its shape allows. */
  lemma SliderOffsets(kind: Kind, from: int, to: int)
    requires kind == Bishop || kind == Rook || kind == Queen
    requires Lined(from, to)
    ensures Toward(from, to) in Offsets(kind) <==> Shape(kind, Rank(to) - Rank(from), File(to) - File(from))
  {
    var a, b := RankStep(from, to), FileStep(from, to);
    assert Offsets(Bishop) == [-17, -15, 17, 15];
    assert Offsets(Rook) == [-16, 1, 16, -1];
    assert Offsets(Queen) == [-17, -16, -15, 1, 17, 16, 15, -1];
    assert -1 <= a <= 1 && -1 <= b <= 1;
    match kind
    case Bishop =>
    case Rook =>
    case Queen =>
  }

  lemma OffsetsAreDirections(kind: Kind, offset: int)
    requires kind != Pawn && kind != Knight && offset in Offsets(kind)
    ensures offset in Directions()
  {
    match kind case Bishop => case Rook => case Queen => case King =>
  }

  // ---------------------------------------------- the tables decide Bears

  /** What the table ATTACKS says of two squares and a piece kind. */
  predicate MaskBit(kind: Kind, from: int, to: int) {
    BitSet(Mask(Rank(from) - Rank(to), File(from) - File(to)), kind)
  }

  lemma PawnTable(board: seq<Cell>, from: int, to: int)
    requires |board| == 128 && OnBoard(from) && OnBoard(to) && board[from].Full? && board[from].piece.kind == Pawn
    ensures Bears(board, from, to) <==> MaskBit(Pawn, from, to) && (from - to > 0 <==> board[from].piece.color == White)
  {
    MaskIsShape(Rank(from) - Rank(to), File(from) - File(to), Pawn);
    assert PawnOffsets(White) == [-16, -32, -17, -15] && PawnOffsets(Black) == [16, 32, 17, 15];
  }

  lemma LeaperTable(board: seq<Cell>, from: int, to: int)
    requires |board| == 128 && OnBoard(from) && OnBoard(to) && board[from].Full? && Leaper(board[from].piece.kind)
    ensures Bears(board, from, to) <==> MaskBit(board[from].piece.kind, from, to)
  {
    MaskIsShape(Rank(from) - Rank(to), File(from) - File(to), board[from].piece.kind);
    assert Offsets(Knight) == [-18, -33, -31, -14, 18, 33, 31, 14];
    assert Offsets(King) == [-17, -16, -15, 1, 17, 16, 15, -1];
  }

  lemma SliderTable(board: seq<Cell>, from: int, to: int)
    requires |board| == 128 && OnBoard(from) && OnBoard(to) && board[from].Full?
    requires board[from].piece.kind != Pawn && !Leaper(board[from].piece.kind)
    ensures MaskBit(board[from].piece.kind, from, to) ==>
              Lined(from, to) && Distance(from, to) >= 1 && Walk(from, Toward(from, to), Distance(from, to)) == to
    ensures Bears(board, from, to) <==>
            MaskBit(board[from].piece.kind, from, to) && Clear(board, from, Toward(from, to), Distance(from, to))
  {
    var kind := board[from].piece.kind;
    MaskIsShape(Rank(from) - Rank(to), File(from) - File(to), kind);
    if MaskBit(kind, from, to) {
      SliderOffsets(kind, from, to);
      LineWalk(from, to, Distance(from, to));
      if Clear(board, from, Toward(from, to), Distance(from, to)) {
        assert Slides(board, from, to, Toward(from, to), Distance(from, to));
      }
    }
    if Bears(board, from, to) {
      var offset, n :| offset in Offsets(kind) && Slides(board, from, to, offset, n);
      OffsetsAreDirections(kind, offset);
      WalkIsToward(from, offset, n);
      SliderOffsets(kind, from, to);
    }
  }

  // ------------------------------------------------------- scanning the board

  /** Some piece of the colour on a square below n bears on the given square. */
  ghost predicate HitBelow(board: seq<Cell>, color: Color, square: int, n: nat)
    requires |board| == 128 && n <= 128
  {
    n > 0 && (HitBelow(board, color, square, n - 1)
              || (OnBoard(n - 1) && board[n - 1].Owned(color) && Bears(board, n - 1, square)))
  }

  lemma {:induction false} HitBelowExists(board: seq<Cell>, color: Color, square: int, n: nat)
    requires |board| == 128 && n <= 128
    ensures HitBelow(board, color, square, n) <==>
            exists from :: OnBoard(from) && from < n && board[from].Owned(color) && Bears(board, from, square)
  {
    if n > 0 {
      HitBelowExists(board, color, square, n - 1);
    }
  }

  lemma HitAnywhere(board: seq<Cell>, color: Color, square: int)
    requires |board| == 128
    ensures HitBelow(board, color, square, |board|) <==> AttackedBy(board, color, square)
  {
    HitBelowExists(board, color, square, |board|);
  }

  lemma {:induction false} HitStays(board: seq<Cell>, color: Color, square: int, n: nat, m: nat)
    requires |board| == 128 && n <= m <= 128 && HitBelow(board, color, square, n)
    ensures HitBelow(board, color, square, m)
  {
    if n < m {
      HitStays(board, color, square, n, m - 1);
    }
  }

  /** The eight indices after a row are skipped by the scan. */
  lemma {:induction false} HitSkips(board: seq<Cell>, color: Color, square: int, n: nat, k: nat)
    requires |board| == 128 && n % 16 == 8 && k <= 8 && n + k <= 128
    ensures HitBelow(board, color, square, n + k) == HitBelow(board, color, square, n)
  {
    if k > 0 {
      HitSkips(board, color, square, n, k - 1);
      AfterRow(n, k - 1);
      HitNext(board, color, square, n + k);
    }
  }

  lemma AfterRow(n: nat, k: nat)
    requires n % 16 == 8 && k < 8
    ensures !OnBoard(n + k)
  {
  }

  lemma HitNext(board: seq<Cell>, color: Color, square: int, n: nat)
    requires |board| == 128 && 0 < n <= 128 && !OnBoard(n - 1)
    ensures HitBelow(board, color, square, n) == HitBelow(board, color, square, n - 1)
  {
  }
}
