/** When castling is allowed, said with home squares and attacks only, and that it then always is legal. */
module Castling {
  import opened Basics
  import opened Board
  import opened Attack
  import opened Rules
  import opened Invariant
  import opened Generation
  import opened Play

  /** King and rook of a side: from the king's home the king goes two squares towards its rook's corner. */
  function CastlingTo(p: Position, kside: bool): Move {
    var home := Home(p.turn) + 4;
    Move(p.turn, home, if kside then home + 2 else home - 2, if kside then KsideCastle else QsideCastle, King, None, None)
  }

  /** The squares between king and rook. */
  function Between(c: Color, kside: bool): set<int> {
    if kside then {Home(c) + 5, Home(c) + 6} else {Home(c) + 1, Home(c) + 2, Home(c) + 3}
  }

  /** The squares the king leaves, passes and reaches. */
  function Crossed(c: Color, kside: bool): set<int> {
    if kside then {Home(c) + 4, Home(c) + 5, Home(c) + 6} else {Home(c) + 4, Home(c) + 3, Home(c) + 2}
  }

  /** The right is held, nothing stands between king and rook, and nothing attacks the squares of the king. */
  ghost predicate Allowed(p: Position, kside: bool)
    requires |p.board| == 128
  {
    && (if kside then p.castling.Of(p.turn).kside else p.castling.Of(p.turn).qside)
    && (forall s :: s in Between(p.turn, kside) ==> p.board[s].Empty?)
    && (forall s :: s in Crossed(p.turn, kside) ==> !AttackedBy(p.board, p.turn.Other(), s))
  }

  lemma KingIsHome(p: Position, kside: bool)
    requires Sound(p) && if kside then p.castling.Of(p.turn).kside else p.castling.Of(p.turn).qside
    ensures p.kings.Of(p.turn) == Home(p.turn) + 4 && p.board[Home(p.turn) + 4].Has(King, p.turn)
    ensures p.board[if kside then Home(p.turn) + 7 else Home(p.turn)].Has(Rook, p.turn)
  {
    assert p.board[Home(p.turn) + 4].Has(King, p.turn);
  }

  lemma PseudoIsAllowed(p: Position, m: Move, kside: bool)
    requires Sound(p) && PseudoLegal(p, m) && m.flag == (if kside then KsideCastle else QsideCastle)
    ensures m == CastlingTo(p, kside) && Allowed(p, kside)
  {
    CastlingIsFromHome(p, m);
    var h := m.from;
    if kside {
      assert h + 1 in [h + 1, h + 2] && h + 2 in [h + 1, h + 2];
      assert h in [h, h + 1, h + 2] && h + 1 in [h, h + 1, h + 2] && h + 2 in [h, h + 1, h + 2];
    } else {
      assert h - 1 in [h - 1, h - 2, h - 3] && h - 2 in [h - 1, h - 2, h - 3] && h - 3 in [h - 1, h - 2, h - 3];
      assert h in [h, h - 1, h - 2] && h - 1 in [h, h - 1, h - 2] && h - 2 in [h, h - 1, h - 2];
    }
  }

  lemma KsideClear(p: Position)
    requires |p.board| == 128 && Allowed(p, true)
    ensures var k := Home(p.turn) + 4; CastleClear(p, [k + 1, k + 2], [k, k + 1, k + 2])
  {
  }

  lemma QsideClear(p: Position)
    requires |p.board| == 128 && Allowed(p, false)
    ensures var k := Home(p.turn) + 4; CastleClear(p, [k - 1, k - 2, k - 3], [k, k - 1, k - 2])
  {
  }

  lemma AllowedIsPseudo(p: Position, kside: bool)
    requires Sound(p) && Allowed(p, kside)
    ensures PseudoLegal(p, CastlingTo(p, kside))
  {
    KingIsHome(p, kside);
    if kside {
      KsideClear(p);
    } else {
      QsideClear(p);
    }
  }

  // ------------------------------------------- why the king stays safe

  /** Squares empty now were empty before unless they were freed, and what the enemy has now it had before. */
  ghost predicate FreesOnly(board: seq<Cell>, after: seq<Cell>, them: Color, freed: set<int>) {
    && |board| == 128 == |after|
    && (forall s :: OnBoard(s) && after[s].Empty? && s !in freed ==> board[s].Empty?)
    && (forall s :: OnBoard(s) && after[s].Owned(them) ==> board[s] == after[s])
  }

  /** A walk of an enemy slider over a freed square on to the target. */
  ghost predicate Through(board: seq<Cell>, them: Color, u: int, to: int, offset: int, k: nat)
    requires |board| == 128
  {
    && offset in Offsets(Queen) && k >= 1 && to == u + k * offset && OnBoard(u - offset) && AttackedBy(board, them, u)
  }

  lemma {:induction false} WalkIs(from: int, offset: int, n: nat)
    ensures Walk(from, offset, n) == from + n * offset
  {
    if n > 0 {
      WalkIs(from, offset, n - 1);
      assert n * offset == (n - 1) * offset + offset;
    }
  }

  /** The first freed square on the way is reached over squares that were empty before. */
  lemma {:induction false} FirstFreed(board: seq<Cell>, after: seq<Cell>, them: Color, freed: set<int>, a: int, offset: int, n: nat, t: nat)
    returns (u: nat)
    requires FreesOnly(board, after, them, freed) && Clear(after, a, offset, n)
    requires 1 <= t < n && Walk(a, offset, t) in freed
    ensures 1 <= u < n && Walk(a, offset, u) in freed && Clear(board, a, offset, u)
    decreases t
  {
    if v: nat :| 1 <= v < t && Walk(a, offset, v) in freed {
      u := FirstFreed(board, after, them, freed, a, offset, n, v);
    } else {
      u := t;
    }
  }

  /** An attack that was not there before goes through a freed square. */
  lemma SliderThrough(board: seq<Cell>, after: seq<Cell>, them: Color, freed: set<int>, a: int, to: int, offset: int, n: nat)
    requires FreesOnly(board, after, them, freed)
    requires OnBoard(a) && after[a].Owned(them) && after[a].piece.kind != Pawn && !Leaper(after[a].piece.kind)
    requires offset in Offsets(after[a].piece.kind) && Slides(after, a, to, offset, n)
    ensures AttackedBy(board, them, to) || exists u, k :: u in freed && Through(board, them, u, to, offset, k)
  {
    if t: nat :| 1 <= t < n && Walk(a, offset, t) in freed {
      var u := FirstFreed(board, after, them, freed, a, offset, n, t);
      var square := Walk(a, offset, u);
      assert Slides(board, a, square, offset, u) && Bears(board, a, square);
      WalkIs(a, offset, u);
      WalkIs(a, offset, u - 1);
      WalkIs(a, offset, n);
      WalkSplits(offset, u, n);
      assert u == 1 || OnBoard(Walk(a, offset, u - 1));
      assert square in freed && Through(board, them, square, to, offset, n - u);
    } else {
      assert Slides(board, a, to, offset, n) && Bears(board, a, to);
    }
  }

  lemma WalkSplits(offset: int, u: nat, n: nat)
    requires u <= n
    ensures n * offset == u * offset + (n - u) * offset
    ensures u > 0 ==> u * offset - offset == (u - 1) * offset
  {
  }

  /** Pawns, knights and kings do not look at other squares. */
  lemma NearAttacks(board: seq<Cell>, after: seq<Cell>, them: Color, freed: set<int>, a: int, to: int)
    requires FreesOnly(board, after, them, freed) && OnBoard(a) && after[a].Owned(them) && Bears(after, a, to)
    requires after[a].piece.kind == Pawn || Leaper(after[a].piece.kind)
    ensures AttackedBy(board, them, to)
  {
    assert board[a] == after[a] && Bears(board, a, to);
  }

  lemma AttackThrough(board: seq<Cell>, after: seq<Cell>, them: Color, freed: set<int>, to: int)
    requires FreesOnly(board, after, them, freed) && AttackedBy(after, them, to) && !AttackedBy(board, them, to)
    ensures exists u, offset, k :: u in freed && Through(board, them, u, to, offset, k)
  {
    var a :| OnBoard(a) && after[a].Owned(them) && Bears(after, a, to);
    var kind := after[a].piece.kind;
    if kind == Pawn || Leaper(kind) {
      NearAttacks(board, after, them, freed, a, to);
    } else {
      var offset, n :| offset in Offsets(kind) && Slides(after, a, to, offset, n);
      SliderThrough(board, after, them, freed, a, to, offset, n);
    }
  }

  // ------------------------------------------- castling out of and through check

  /** One step of the king towards its rook. */
  function KingStep(p: Position, kside: bool): Move {
    var home := Home(p.turn) + 4;
    Move(p.turn, home, if kside then home + 1 else home - 1, Normal, King, None, None)
  }

  lemma StepIsPseudo(p: Position, kside: bool)
    requires Sound(p) && Allowed(p, kside)
    ensures PseudoLegal(p, KingStep(p, kside))
  {
    KingIsHome(p, kside);
  }

  lemma StepFrees(p: Position, kside: bool)
    requires Sound(p) && Allowed(p, kside)
    ensures Playable(p.board, KingStep(p, kside), p.turn)
    ensures Made(p, KingStep(p, kside)).kings.Of(p.turn) == KingStep(p, kside).to
    ensures FreesOnly(p.board, Made(p, KingStep(p, kside)).board, p.turn.Other(), {Home(p.turn) + 4})
  {
    var m := KingStep(p, kside);
    StepIsPseudo(p, kside);
    PseudoLegalIsReversible(p, m);
    KingsAfter(p, m);
    MadeSquares(p.board, m, p.turn);
  }

  /** The king may also step to the square it passes. */
  lemma StepIsLegal(p: Position, kside: bool)
    requires WellFormed(p) && Allowed(p, kside)
    ensures Legal(p, KingStep(p, kside))
  {
    var m, home, them := KingStep(p, kside), Home(p.turn) + 4, p.turn.Other();
    StepIsPseudo(p, kside);
    StepFrees(p, kside);
    assert home in Crossed(p.turn, kside) && m.to in Crossed(p.turn, kside);
    if AttackedBy(Made(p, m).board, them, m.to) {
      AttackThrough(p.board, Made(p, m).board, them, {home}, m.to);
    }
  }

  lemma CastlingFrees(p: Position, kside: bool)
    requires Sound(p) && Allowed(p, kside)
    ensures Playable(p.board, CastlingTo(p, kside), p.turn)
    ensures Made(p, CastlingTo(p, kside)).kings.Of(p.turn) == CastlingTo(p, kside).to
    ensures FreesOnly(p.board, Made(p, CastlingTo(p, kside)).board, p.turn.Other(),
                      {Home(p.turn) + 4, if kside then Home(p.turn) + 7 else Home(p.turn)})
  {
    var m := CastlingTo(p, kside);
    AllowedIsPseudo(p, kside);
    PseudoLegalIsReversible(p, m);
    KingsAfter(p, m);
    MadeSquares(p.board, m, p.turn);
  }

  /** No walk comes from beyond the corner. */
  lemma CornerIsLast(c: Color, kside: bool, offset: int, k: nat)
    requires offset in Offsets(Queen) && k >= 1
    requires if kside then Home(c) + 6 == Home(c) + 7 + k * offset else Home(c) + 2 == Home(c) + k * offset
    ensures !OnBoard((if kside then Home(c) + 7 else Home(c)) - offset)
  {
    assert offset == -17 || offset == -16 || offset == -15 || offset == 1 || offset == 17 || offset == 16 || offset == 15 || offset == -1;
    if kside {
      assert offset == -1;
    } else {
      assert offset == 1;
    }
  }

  /** Neither over the square the king left nor over the rook's corner. */
  lemma NoWayThrough(p: Position, kside: bool, u: int, offset: int, k: nat)
    requires |p.board| == 128 && !AttackedBy(p.board, p.turn.Other(), Home(p.turn) + 4)
    requires u == Home(p.turn) + 4 || u == if kside then Home(p.turn) + 7 else Home(p.turn)
    ensures !Through(p.board, p.turn.Other(), u, CastlingTo(p, kside).to, offset, k)
  {
    if Through(p.board, p.turn.Other(), u, CastlingTo(p, kside).to, offset, k) {
      CornerIsLast(p.turn, kside, offset, k);
    }
  }

  lemma NewSquareIsSafe(p: Position, kside: bool, after: seq<Cell>)
    requires |p.board| == 128 && Allowed(p, kside)
    requires FreesOnly(p.board, after, p.turn.Other(), {Home(p.turn) + 4, if kside then Home(p.turn) + 7 else Home(p.turn)})
    ensures !AttackedBy(after, p.turn.Other(), CastlingTo(p, kside).to)
  {
    var home, them, to := Home(p.turn) + 4, p.turn.Other(), CastlingTo(p, kside).to;
    var corner := if kside then Home(p.turn) + 7 else Home(p.turn);
    assert home in Crossed(p.turn, kside) && to in Crossed(p.turn, kside);
    if AttackedBy(after, them, to) {
      AttackThrough(p.board, after, them, {home, corner}, to);
      var u, offset, k :| u in {home, corner} && Through(p.board, them, u, to, offset, k);
      NoWayThrough(p, kside, u, offset, k);
    }
  }

  lemma CastlingIsLegal(p: Position, kside: bool)
    requires WellFormed(p) && Allowed(p, kside)
    ensures Legal(p, CastlingTo(p, kside))
  {
    AllowedIsPseudo(p, kside);
    CastlingFrees(p, kside);
    NewSquareIsSafe(p, kside, Made(p, CastlingTo(p, kside)).board);
  }

  /** Castling is listed exactly when the right is held, the squares between king and rook are empty, and none of
      the squares the king leaves, passes and reaches is attacked; it is then the king's move from home. */
  lemma CastlingListed(p: Position, m: Move, kside: bool)
    requires WellFormed(p) && m.flag == (if kside then KsideCastle else QsideCastle)
    ensures m in LegalMoves(p, None) <==> m == CastlingTo(p, kside) && Allowed(p, kside)
  {
    LegalMovesExact(p, None);
    if m in LegalMoves(p, None) {
      PseudoIsAllowed(p, m, kside);
    }
    if m == CastlingTo(p, kside) && Allowed(p, kside) {
      CastlingIsLegal(p, kside);
    }
  }

  /** So nobody castles out of check, or through a square on which the king would be in check: the king could also
      legally step there. */
  lemma CastlingIsSafe(p: Position, m: Move)
    requires WellFormed(p) && Legal(p, m) && Castling(m)
    ensures !KingAttacked(p, p.turn)
    ensures var passed := if m.flag == KsideCastle then m.from + 1 else m.from - 1;
            Legal(p, Move(p.turn, m.from, passed, Normal, King, None, None))
  {
    var kside := m.flag == KsideCastle;
    PseudoIsAllowed(p, m, kside);
    KingIsHome(p, kside);
    StepIsLegal(p, kside);
    assert Home(p.turn) + 4 in Crossed(p.turn, kside);
  }
}
