/** No two generated moves agree on origin, destination and promotion, so those three identify a move. */
module Distinctness {
  import opened Basics
  import opened Board
  import opened Attack
  import opened Rules
  import opened Generation

  /** Two moves a caller could not tell apart by the fields of a move request. */
  predicate SameKey(a: Move, b: Move) {
    a.from == b.from && a.to == b.to && a.promotion == b.promotion
  }

  ghost predicate Distinct(ms: seq<Move>) {
    forall i, j :: 0 <= i < j < |ms| ==> !SameKey(ms[i], ms[j])
  }

  ghost predicate Apart(a: seq<Move>, b: seq<Move>) {
    forall x, y :: x in a && y in b ==> !SameKey(x, y)
  }

  lemma DistinctConcat(a: seq<Move>, b: seq<Move>)
    requires Distinct(a) && Distinct(b) && Apart(a, b)
    ensures Distinct(a + b)
  {
    forall i, j | 0 <= i < j < |a + b|
      ensures !SameKey((a + b)[i], (a + b)[j])
    {
      if i < |a| <= j {
        assert a[i] in a && b[j - |a|] in b;
      }
    }
  }

  lemma AddMoveDistinct(p: Position, from: int, to: int, flag: Flag)
    requires |p.board| == 128 && OnBoard(from) && OnBoard(to) && p.board[from].Full?
    ensures Distinct(AddMove(p, from, to, flag))
    ensures forall m :: m in AddMove(p, from, to, flag) ==> m.from == from && m.to == to
  {
  }

  /** The offset and the number of steps of a walk can be read off its two ends. */
  lemma RayMoveEnds(p: Position, from: int, offset: int, n: nat, m: Move)
    requires PieceHere(p, from) && offset in Offsets(p.board[from].piece.kind) && n > 0
    requires RayMove(p, from, offset, n, m) && (Leaper(p.board[from].piece.kind) ==> n == 1)
    ensures Leaper(p.board[from].piece.kind) ==> n == 1 && offset == m.to - from
    ensures !Leaper(p.board[from].piece.kind) ==> n == Distance(from, m.to) && offset == Toward(from, m.to)
  {
    var kind := p.board[from].piece.kind;
    assert Walk(from, offset, 1) == from + offset;
    if !Leaper(kind) {
      OffsetsAreDirections(kind, offset);
      WalkIsToward(from, offset, n);
    }
  }

  ghost predicate FreeAt(board: seq<Cell>, from: int, offset: int, t: int)
    requires |board| == 128
  {
    t >= 1 && OnBoard(Walk(from, offset, t)) && board[Walk(from, offset, t)].Empty?
  }

  /** The first k steps of a walk stay on empty squares. */
  ghost predicate FreeUpTo(board: seq<Cell>, from: int, offset: int, k: nat)
    requires |board| == 128
  {
    forall t :: 1 <= t <= k ==> FreeAt(board, from, offset, t)
  }

  lemma FreeMore(board: seq<Cell>, from: int, offset: int, k: nat)
    requires |board| == 128 && FreeUpTo(board, from, offset, k)
    requires OnBoard(Walk(from, offset, k + 1)) && board[Walk(from, offset, k + 1)].Empty?
    ensures FreeUpTo(board, from, offset, k + 1)
  {
  }

  lemma FreeSquares(board: seq<Cell>, from: int, offset: int, k: nat)
    requires |board| == 128 && FreeUpTo(board, from, offset, k)
    ensures forall t :: 1 <= t <= k ==> OnBoard(Walk(from, offset, t)) && board[Walk(from, offset, t)].Empty?
  {
    forall t | 1 <= t <= k
      ensures OnBoard(Walk(from, offset, t)) && board[Walk(from, offset, t)].Empty?
    {
      assert FreeAt(board, from, offset, t);
    }
  }

  lemma FirstOnRay(p: Position, from: int, next: int, offset: int, k: nat, m: Move)
    requires PieceHere(p, from) && Step(offset) && FreeUpTo(p.board, from, offset, k + 1)
    requires next == Walk(from, offset, k + 1) && OnBoard(next) && p.board[next].Empty? && m in AddMove(p, from, next, Normal)
    ensures RayMove(p, from, offset, k + 1, m)
  {
    FreeSquares(p.board, from, offset, k + 1);
    RayStep(p, from, offset, k, m);
  }

  lemma RestOnRay(p: Position, from: int, next: int, offset: int, k: nat, m: Move)
    requires PieceHere(p, from) && Step(offset) && !Leaper(p.board[from].piece.kind) && FreeUpTo(p.board, from, offset, k)
    requires next == Walk(from, offset, k) && OnBoard(next) && m in RayMoves(p, from, next, offset)
    ensures Later(p, from, offset, k, m)
  {
    FreeSquares(p.board, from, offset, k);
    RayMember(p, from, offset, k, m);
  }

  /** A move to the next square is none of those further on. */
  lemma NextApart(p: Position, from: int, next: int, offset: int, k: nat, x: Move, y: Move)
    requires PieceHere(p, from) && offset in Offsets(p.board[from].piece.kind) && Step(offset)
    requires !Leaper(p.board[from].piece.kind)
    requires FreeUpTo(p.board, from, offset, k + 1) && next == Walk(from, offset, k + 1) && OnBoard(next) && p.board[next].Empty?
    requires x in AddMove(p, from, next, Normal) && y in RayMoves(p, from, next, offset)
    ensures !SameKey(x, y)
  {
    FirstOnRay(p, from, next, offset, k, x);
    RestOnRay(p, from, next, offset, k + 1, y);
    StepsApart(p, from, offset, k, x, y);
  }

  lemma FirstApart(p: Position, from: int, offset: int, k: nat)
    requires PieceHere(p, from) && offset in Offsets(p.board[from].piece.kind) && Step(offset)
    requires !Leaper(p.board[from].piece.kind)
    requires FreeUpTo(p.board, from, offset, k + 1)
    ensures var next := Walk(from, offset, k + 1);
            OnBoard(next) && Apart(AddMove(p, from, next, Normal), RayMoves(p, from, next, offset))
  {
    var next := Walk(from, offset, k + 1);
    assert FreeAt(p.board, from, offset, k + 1);
    forall x, y | x in AddMove(p, from, next, Normal) && y in RayMoves(p, from, next, offset)
      ensures !SameKey(x, y)
    {
      NextApart(p, from, next, offset, k, x, y);
    }
  }

  lemma RestDistinct(p: Position, from: int, next: int, offset: int, k: nat)
    requires PieceHere(p, from) && offset in Offsets(p.board[from].piece.kind) && Step(offset)
    requires !Leaper(p.board[from].piece.kind)
    requires FreeUpTo(p.board, from, offset, k + 1) && next == Walk(from, offset, k + 1)
    requires OnBoard(next) && Distinct(RayMoves(p, from, next, offset))
    ensures Distinct(AddMove(p, from, next, Normal) + RayMoves(p, from, next, offset))
  {
    AddMoveDistinct(p, from, next, Normal);
    FirstApart(p, from, offset, k);
    DistinctConcat(AddMove(p, from, next, Normal), RayMoves(p, from, next, offset));
  }

  /** A ray is what its next square gives, followed by the rest if that square is empty. */
  lemma RayCases(p: Position, from: int, at: int, offset: int)
    requires PieceHere(p, from) && OnBoard(at) && Step(offset)
    ensures var next, ray := at + offset, RayMoves(p, from, at, offset);
            if !OnBoard(next) then ray == []
            else if p.board[next].Empty? then
              ray == AddMove(p, from, next, Normal) + if Leaper(p.board[from].piece.kind) then [] else RayMoves(p, from, next, offset)
            else ray == [] || ray == AddMove(p, from, next, Capture)
  {
    OffBoardIsOutside(at + offset);
  }

  /** The moves from the k-th square of a walk on. */
  lemma {:induction false} RayDistinct(p: Position, from: int, at: int, offset: int, k: nat)
    requires PieceHere(p, from) && offset in Offsets(p.board[from].piece.kind) && Step(offset)
    requires k > 0 ==> !Leaper(p.board[from].piece.kind)
    requires FreeUpTo(p.board, from, offset, k) && at == Walk(from, offset, k) && OnBoard(at)
    ensures Distinct(RayMoves(p, from, at, offset))
    decreases if offset > 0 then 128 - at else at
  {
    var next := at + offset;
    RayCases(p, from, at, offset);
    if OnBoard(next) {
      AddMoveDistinct(p, from, next, Normal);
      AddMoveDistinct(p, from, next, Capture);
      if p.board[next].Empty? && !Leaper(p.board[from].piece.kind) {
        WalkMore(from, offset, k);
        FreeMore(p.board, from, offset, k);
        RayDistinct(p, from, next, offset, k + 1);
        RestDistinct(p, from, next, offset, k);
      }
    }
  }

  lemma WalkMore(from: int, offset: int, k: nat)
    ensures Walk(from, offset, k + 1) == Walk(from, offset, k) + offset
  {
  }

  lemma OffsetsDiffer(kind: Kind, i: nat, j: nat)
    requires kind != Pawn && i < j < |Offsets(kind)|
    ensures Offsets(kind)[i] != Offsets(kind)[j]
  {
    match kind case Knight => case Bishop => case Rook => case Queen => case King =>
  }

  /** Moves along different offsets of a piece end on different squares. */
  lemma RaysApart(p: Position, from: int, a: int, b: int, x: Move, y: Move)
    requires PieceHere(p, from) && a in Offsets(p.board[from].piece.kind) && b in Offsets(p.board[from].piece.kind) && a != b
    requires OnRay(p, from, a, x) && OnRay(p, from, b, y)
    ensures !SameKey(x, y)
  {
    var kind := p.board[from].piece.kind;
    var n :| n > 0 && (Leaper(kind) ==> n == 1) && RayMove(p, from, a, n, x);
    var k :| k > 0 && (Leaper(kind) ==> k == 1) && RayMove(p, from, b, k, y);
    RayMoveEnds(p, from, a, n, x);
    RayMoveEnds(p, from, b, k, y);
  }

  /** A move to the next square and a move to a later one end on different squares. */
  lemma StepsApart(p: Position, from: int, offset: int, k: nat, x: Move, y: Move)
    requires PieceHere(p, from) && offset in Offsets(p.board[from].piece.kind) && !Leaper(p.board[from].piece.kind)
    requires RayMove(p, from, offset, k + 1, x) && Later(p, from, offset, k + 1, y)
    ensures !SameKey(x, y)
  {
    var n :| n > k + 1 && RayMove(p, from, offset, n, y);
    RayMoveEnds(p, from, offset, k + 1, x);
    RayMoveEnds(p, from, offset, n, y);
  }

  lemma {:induction false} PieceDistinct(p: Position, from: int, n: nat)
    requires PieceHere(p, from) && n <= |Offsets(p.board[from].piece.kind)|
    ensures Distinct(PieceMoves(p, from, n))
  {
    var kind := p.board[from].piece.kind;
    if n > 0 {
      OffsetsAreSteps(kind);
      var last := Offsets(kind)[n - 1];
      PieceDistinct(p, from, n - 1);
      RayDistinct(p, from, from, last, 0);
      var before, ray := PieceMoves(p, from, n - 1), RayMoves(p, from, from, last);
      forall x, y | x in before && y in ray
        ensures !SameKey(x, y)
      {
        PieceMember(p, from, n - 1, x);
        RayMember(p, from, last, 0, y);
        var j :| 0 <= j < n - 1 && OnRay(p, from, Offsets(kind)[j], x);
        OffsetsDiffer(kind, j, n - 1);
        RaysApart(p, from, Offsets(kind)[j], last, x, y);
      }
      DistinctConcat(before, ray);
    }
  }

  lemma PawnPushesDistinct(p: Position, from: int)
    requires PawnHere(p, from)
    ensures Distinct(PawnPushes(p, from))
    ensures forall m :: m in PawnPushes(p, from) ==> File(m.to) == File(from)
  {
    var one, two := from + PawnOffsets(p.turn)[0], from + PawnOffsets(p.turn)[1];
    AddMoveDistinct(p, from, one, Normal);
    if SecondRank(p.turn) == Rank(from) {
      AddMoveDistinct(p, from, two, BigPawn);
      DistinctConcat(AddMove(p, from, one, Normal), AddMove(p, from, two, BigPawn));
    }
  }

  lemma PawnCaptureDistinct(p: Position, from: int, j: int)
    requires PawnHere(p, from) && 2 <= j <= 3
    ensures Distinct(PawnCapture(p, from, j))
    ensures forall m :: m in PawnCapture(p, from, j) ==> m.to == from + PawnOffsets(p.turn)[j] && File(m.to) != File(from)
  {
    var to := from + PawnOffsets(p.turn)[j];
    OffBoardIsOutside(to);
    if OnBoard(to) {
      AddMoveDistinct(p, from, to, Capture);
      AddMoveDistinct(p, from, to, EpCapture);
    }
  }

  lemma PawnDistinct(p: Position, from: int)
    requires PawnHere(p, from)
    ensures Distinct(PawnPushes(p, from) + PawnCapture(p, from, 2) + PawnCapture(p, from, 3))
  {
    PawnPushesDistinct(p, from);
    PawnCaptureDistinct(p, from, 2);
    PawnCaptureDistinct(p, from, 3);
    var pushes, left, right := PawnPushes(p, from), PawnCapture(p, from, 2), PawnCapture(p, from, 3);
    assert PawnOffsets(p.turn)[2] != PawnOffsets(p.turn)[3];
    DistinctConcat(pushes, left);
    DistinctConcat(pushes + left, right);
  }

  lemma SquareDistinct(p: Position, from: int)
    requires |p.board| == 128 && PawnsInside(p.board)
    ensures Distinct(SquareMoves(p, from))
  {
    if OnBoard(from) && p.board[from].Owned(p.turn) {
      if p.board[from].piece.kind == Pawn {
        PawnDistinct(p, from);
      } else {
        PieceDistinct(p, from, |Offsets(p.board[from].piece.kind)|);
      }
    }
  }

  lemma {:induction false} BelowDistinct(p: Position, n: nat)
    requires Sound(p)
    ensures Distinct(MovesBelow(p, n))
  {
    if n > 0 {
      BelowDistinct(p, n - 1);
      SquareDistinct(p, n - 1);
      var below, here := MovesBelow(p, n - 1), SquareMoves(p, n - 1);
      forall x, y | x in below && y in here
        ensures !SameKey(x, y)
      {
        BelowMember(p, n - 1, x);
        SquareMember(p, n - 1, y);
      }
      DistinctConcat(below, here);
    }
  }

  lemma CastleDistinct(p: Position)
    requires Sound(p)
    ensures Distinct(CastleMoves(p))
  {
  }

  /** A castling move shares origin and destination with no ordinary move. */
  lemma CastlingIsApart(p: Position, x: Move, y: Move)
    requires Sound(p) && PseudoLegal(p, x) && !Castling(x) && PseudoLegal(p, y) && Castling(y)
    ensures !SameKey(x, y)
  {
    CastlingIsFromHome(p, y);
    assert Offsets(King) == [-17, -16, -15, 1, 17, 16, 15, -1];
  }

  lemma WithCastlesDistinct(p: Position, plain: seq<Move>)
    requires Sound(p) && Distinct(plain)
    requires forall x :: x in plain ==> PseudoLegal(p, x) && !Castling(x)
    ensures Distinct(plain + CastleMoves(p))
  {
    CastleDistinct(p);
    var castles := CastleMoves(p);
    forall x, y | x in plain && y in castles
      ensures !SameKey(x, y)
    {
      CastleMember(p, y);
      CastlingIsApart(p, x, y);
    }
    DistinctConcat(plain, castles);
  }

  lemma AllMovesDistinct(p: Position)
    requires Sound(p)
    ensures Distinct(MovesBelow(p, |p.board|) + CastleMoves(p))
  {
    forall x | x in MovesBelow(p, |p.board|)
      ensures PseudoLegal(p, x) && !Castling(x)
    {
      BelowMember(p, |p.board|, x);
    }
    BelowDistinct(p, |p.board|);
    WithCastlesDistinct(p, MovesBelow(p, |p.board|));
  }

  lemma OneSquareDistinct(p: Position, square: int)
    requires Sound(p)
    ensures Distinct(SquareMoves(p, square)) && Distinct(SquareMoves(p, square) + CastleMoves(p))
  {
    forall x | x in SquareMoves(p, square)
      ensures PseudoLegal(p, x) && !Castling(x)
    {
      SquareMember(p, square, x);
    }
    SquareDistinct(p, square);
    WithCastlesDistinct(p, SquareMoves(p, square));
  }

  lemma PseudoMovesDistinct(p: Position, only: Option<int>)
    requires Sound(p)
    ensures Distinct(PseudoMoves(p, only))
  {
    match only
    case None => AllMovesDistinct(p);
    case Some(square) =>
      OneSquareDistinct(p, square);
      assert SquareMoves(p, square) + [] == SquareMoves(p, square);
  }

  /** Origin, destination and promotion determine a pseudo-legal move. */
  lemma KeyDeterminesMove(p: Position, x: Move, y: Move)
    requires Sound(p) && PseudoLegal(p, x) && PseudoLegal(p, y) && SameKey(x, y)
    ensures x == y
  {
    PseudoMovesDistinct(p, None);
    GeneratedIffPseudoLegal(p, None, x);
    GeneratedIffPseudoLegal(p, None, y);
    var all := PseudoMoves(p, None);
    var i, j :| 0 <= i < |all| && all[i] == x && 0 <= j < |all| && all[j] == y;
    assert i == j;
  }
}
