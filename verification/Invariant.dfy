/** What making a move does to a position, square by square, and why it keeps positions well formed. */
module Invariant {
  import opened Basics
  import opened Board
  import opened Attack
  import opened Rules

  /** The content of one square after a move, stated without any intermediate board. */
  function SquareAfter(board: seq<Cell>, m: Move, us: Color, k: int): Cell
    requires Reversible(board, m, us) && 0 <= k < 128
  {
    if k == m.to then Full(Piece(if m.promotion.Some? then m.promotion.value else m.piece, us))
    else if k == m.from then Empty
    else if m.flag == EpCapture && k == Behind(us, m.to) then Empty
    else if m.flag == KsideCastle && k == Home(us) + 7 then Empty
    else if m.flag == KsideCastle && k == Home(us) + 5 then Full(Piece(Rook, us))
    else if m.flag == QsideCastle && k == Home(us) then Empty
    else if m.flag == QsideCastle && k == Home(us) + 3 then Full(Piece(Rook, us))
    else board[k]
  }

  ghost predicate IsAfter(board: seq<Cell>, m: Move, us: Color, after: seq<Cell>)
    requires Reversible(board, m, us)
  {
    |after| == 128 && forall k :: 0 <= k < 128 ==> after[k] == SquareAfter(board, m, us, k)
  }

  /** The in-place updates of `make_move` have exactly that effect. */
  lemma MadeSquares(board: seq<Cell>, m: Move, us: Color)
    requires Reversible(board, m, us)
    ensures Playable(board, m, us)
    ensures IsAfter(board, m, us, MadeBoard(board, m, us))
  {
  }

  /** No pseudo-legal move of a well-formed position captures a king. */
  lemma NoKingCaptured(p: Position, m: Move)
    requires WellFormed(p) && PseudoLegal(p, m)
    ensures m.captured != Some(King)
    ensures !p.board[m.to].Has(King, p.turn.Other())
  {
    if m.flag == Capture {
      assert p.board[m.from].Owned(p.turn) && Bears(p.board, m.from, m.to);
      assert AttackedBy(p.board, p.turn, m.to);
    }
  }

  lemma KeepsShape(p: Position, m: Move)
    requires Sound(p) && Reversible(p.board, m, p.turn)
    ensures BoardShape(MadeBoard(p.board, m, p.turn))
  {
    MadeSquares(p.board, m, p.turn);
  }

  /** The king cache moves exactly when the king does. */
  lemma KingsAfter(p: Position, m: Move)
    requires Reversible(p.board, m, p.turn)
    ensures Playable(p.board, m, p.turn)
    ensures Made(p, m).kings == if m.piece == King then p.kings.With(p.turn, m.to) else p.kings
  {
  }

  lemma KingAtAfter(board: seq<Cell>, m: Move, us: Color, after: seq<Cell>, c: Color, square: int)
    requires Reversible(board, m, us) && !board[m.to].Has(King, us.Other()) && IsAfter(board, m, us, after)
    requires KingAt(board, c, square)
    ensures KingAt(after, c, if c == us && m.piece == King then m.to else square)
  {
    assert c == us && m.piece == King ==> m.from == square;
    assert square != m.to;
  }

  lemma KeepsKing(p: Position, m: Move, c: Color)
    requires Reversible(p.board, m, p.turn) && !p.board[m.to].Has(King, p.turn.Other())
    requires KingAt(p.board, c, p.kings.Of(c))
    ensures Playable(p.board, m, p.turn)
    ensures KingAt(Made(p, m).board, c, Made(p, m).kings.Of(c))
  {
    KingsAfter(p, m);
    MadeSquares(p.board, m, p.turn);
    KingAtAfter(p.board, m, p.turn, MadeBoard(p.board, m, p.turn), c, p.kings.Of(c));
  }

  /** A pawn that arrives on an end rank is promoted. */
  lemma PawnsInsideAfter(p: Position, m: Move, after: seq<Cell>)
    requires Sound(p) && PseudoLegal(p, m) && Reversible(p.board, m, p.turn) && IsAfter(p.board, m, p.turn, after)
    ensures PawnsInside(after)
  {
  }

  lemma KeepsPawnsInside(p: Position, m: Move)
    requires Sound(p) && PseudoLegal(p, m)
    ensures Playable(p.board, m, p.turn) && PawnsInside(MadeBoard(p.board, m, p.turn))
  {
    PseudoLegalIsReversible(p, m);
    MadeSquares(p.board, m, p.turn);
    PawnsInsideAfter(p, m, MadeBoard(p.board, m, p.turn));
  }

  /** A right survives a move only if it was there before and its king and rook squares were not touched. */
  lemma RightsAfter(p: Position, m: Move, c: Color)
    requires Reversible(p.board, m, p.turn)
    ensures Playable(p.board, m, p.turn)
    ensures var before, after := p.castling.Of(c), Made(p, m).castling.Of(c);
            var touched := if c == p.turn then m.from else m.to;
            && (after.kside <==> before.kside && touched != Home(c) + 7 && !(c == p.turn && m.piece == King))
            && (after.qside <==> before.qside && touched != Home(c) && !(c == p.turn && m.piece == King))
  {
  }

  lemma KeepsRights(p: Position, m: Move, c: Color)
    requires Reversible(p.board, m, p.turn) && !p.board[m.to].Has(King, p.turn.Other())
    requires RightsBacked(p.board, c, p.castling.Of(c))
    ensures Playable(p.board, m, p.turn)
    ensures RightsBacked(Made(p, m).board, c, Made(p, m).castling.Of(c))
  {
    RightsAfter(p, m, c);
    MadeSquares(p.board, m, p.turn);
    var board := Made(p, m).board;
    assert board[Home(c)] == SquareAfter(p.board, m, p.turn, Home(c));
    assert board[Home(c) + 4] == SquareAfter(p.board, m, p.turn, Home(c) + 4);
    assert board[Home(c) + 7] == SquareAfter(p.board, m, p.turn, Home(c) + 7);
  }

  /** After a double step the skipped square is empty and the pawn stands beyond it. */
  lemma KeepsEp(p: Position, m: Move)
    requires Sound(p) && PseudoLegal(p, m)
    ensures Playable(p.board, m, p.turn)
    ensures EpPlausible(Made(p, m).board, Made(p, m).turn, Made(p, m).ep)
  {
    PseudoLegalIsReversible(p, m);
    MadeSquares(p.board, m, p.turn);
  }

  lemma KeepsCounters(p: Position, m: Move)
    requires Playable(p.board, m, p.turn) && p.halfMoves >= 0 && p.moveNumber >= 1
    ensures Made(p, m).halfMoves >= 0 && Made(p, m).moveNumber >= 1 && Made(p, m).turn == p.turn.Other()
  {
  }

  /** Every pseudo-legal move leaves a sound position. */
  lemma MoveKeepsSound(p: Position, m: Move)
    requires WellFormed(p) && PseudoLegal(p, m)
    ensures Playable(p.board, m, p.turn) && Sound(Made(p, m))
  {
    PseudoLegalIsReversible(p, m);
    NoKingCaptured(p, m);
    KeepsShape(p, m);
    KeepsPawnsInside(p, m);
    KeepsKing(p, m, White);
    KeepsKing(p, m, Black);
    KeepsRights(p, m, White);
    KeepsRights(p, m, Black);
    KeepsEp(p, m);
    KeepsCounters(p, m);
  }

  /** A pseudo-legal move leaves a well-formed position exactly when it is legal. */
  lemma LegalIffWellFormedAfter(p: Position, m: Move)
    requires WellFormed(p) && PseudoLegal(p, m)
    ensures Playable(p.board, m, p.turn)
    ensures Legal(p, m) <==> WellFormed(Made(p, m))
  {
    MoveKeepsSound(p, m);
  }
}
