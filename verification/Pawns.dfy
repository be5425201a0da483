/** How pawns move, in the names of squares. */
module Pawns {
  import opened Basics
  import opened Board
  import opened Attack
  import opened Rules
  import opened Invariant
  import opened Generation
  import opened Play
  import opened Spelling
  import C = Castling

  /** One rank ahead, seen by a colour. */
  function Ahead(c: Color, rank: char): char
    requires '1' < rank < '8'
  {
    if c == White then rank + 1 as char else rank - 1 as char
  }

  predicate NextTo(a: char, b: char) {
    a as int - b as int == 1 || b as int - a as int == 1
  }

  /** A legal pawn move goes one rank ahead: along its file to an empty square, or to a neighbouring file where it
      takes an enemy, on the square itself or, in passing, beside it. Only from its own second rank may it go two, over
      empty squares. It turns into another piece exactly on the last rank. */
  lemma PawnMoves(p: Position, m: Move)
    requires WellFormed(p) && Legal(p, m) && m.piece == Pawn
    ensures OnBoard(m.from) && OnBoard(m.to) && '1' < Name(m.from)[1] < '8'
    ensures var from, to, us := Name(m.from), Name(m.to), p.turn;
            && (m.flag == BigPawn ==> from[0] == to[0] && from[1] == (if us == White then '2' else '7') && to[1] == if us == White then '4' else '5')
            && (m.flag != BigPawn ==> to[1] == Ahead(us, from[1]))
            && (m.flag == Normal ==> from[0] == to[0])
            && (m.flag == Capture || m.flag == EpCapture ==> NextTo(from[0], to[0]))
            && (m.flag == Capture <==> p.board[m.to].Full?)
            && (m.promotion.Some? <==> to[1] == if us == White then '8' else '1')
  {
    PawnRanks(p, m);
    PawnTargets(p, m);
  }

  lemma PawnRanks(p: Position, m: Move)
    requires Sound(p) && PseudoLegal(p, m) && m.piece == Pawn
    ensures OnBoard(m.from) && OnBoard(m.to) && 1 <= Rank(m.from) <= 6
    ensures var step := if p.turn == White then -1 else 1;
            if m.flag == BigPawn then Rank(m.from) == (if p.turn == White then 6 else 1) && Rank(m.to) == Rank(m.from) + 2 * step && File(m.to) == File(m.from)
            else Rank(m.to) == Rank(m.from) + step && Abs(File(m.to) - File(m.from)) == if m.flag == Normal then 0 else 1
    ensures m.promotion.Some? <==> Rank(m.to) == if p.turn == White then 0 else 7
  {
  }

  lemma PawnTargets(p: Position, m: Move)
    requires Sound(p) && PseudoLegal(p, m) && m.piece == Pawn
    ensures m.flag == Capture <==> p.board[m.to].Full?
  {
  }

  /** In passing the pawn on the square behind is taken. */
  lemma TakenInPassing(p: Position, m: Move)
    requires WellFormed(p) && Legal(p, m) && m.flag == EpCapture
    ensures var beside := 16 * Rank(m.from) + File(m.to);
            && m.piece == Pawn && p.board[beside].Has(Pawn, p.turn.Other())
            && Playable(p.board, m, p.turn) && Made(p, m).board[beside].Empty?
  {
    LegalIffWellFormedAfter(p, m);
    PseudoLegalIsReversible(p, m);
    MadeSquares(p.board, m, p.turn);
    PawnRanks(p, m);
    assert 16 * Rank(m.from) + File(m.to) == Behind(p.turn, m.to);
  }

  // ------------------------------------------------------------- promotion

  lemma OtherPromotionIsPseudo(p: Position, m: Move, kind: Kind)
    requires Sound(p) && PseudoLegal(p, m) && m.promotion.Some? && kind in {Queen, Rook, Bishop, Knight}
    ensures PseudoLegal(p, m.(promotion := Some(kind)))
  {
  }

  lemma SameButForKind(p: Position, m: Move, kind: Kind)
    requires Sound(p) && PseudoLegal(p, m) && m.promotion.Some? && kind in {Queen, Rook, Bishop, Knight}
    ensures var n := m.(promotion := Some(kind));
            && Playable(p.board, m, p.turn) && Playable(p.board, n, p.turn) && Made(p, m).kings == Made(p, n).kings
            && C.FreesOnly(Made(p, m).board, Made(p, n).board, p.turn.Other(), {})
  {
    var n := m.(promotion := Some(kind));
    OtherPromotionIsPseudo(p, m, kind);
    PseudoLegalIsReversible(p, m);
    PseudoLegalIsReversible(p, n);
    KingsAfter(p, m);
    KingsAfter(p, n);
    MadeSquares(p.board, m, p.turn);
    MadeSquares(p.board, n, p.turn);
  }

  /** Whoever may promote may choose: the same move with any of the four pieces is legal, and with no other. */
  lemma PromotionsComplete(p: Position, m: Move, kind: Kind)
    requires WellFormed(p) && Legal(p, m) && m.promotion.Some?
    ensures Legal(p, m.(promotion := Some(kind))) <==> kind != Pawn && kind != King
  {
    var n := m.(promotion := Some(kind));
    if kind != Pawn && kind != King {
      OtherPromotionIsPseudo(p, m, kind);
      SameButForKind(p, m, kind);
      var king := Made(p, n).kings.Of(p.turn);
      if AttackedBy(Made(p, n).board, p.turn.Other(), king) {
        C.AttackThrough(Made(p, m).board, Made(p, n).board, p.turn.Other(), {}, king);
      }
    }
  }
}
