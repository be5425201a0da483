/** The moves of the starting position: sixteen of pawns and four of knights, and no other. */
module Opening {
  import opened Basics
  import opened Board
  import opened Attack
  import opened Rules
  import opened Invariant
  import opened Generation
  import opened Play
  import opened Start
  import C = Castling

  /** A pawn one or two squares ahead, or a knight over the pawns to one of two squares. */
  predicate FirstMove(m: Move) {
    && m.color == White && m.promotion == None && m.captured == None
    && if m.piece == Pawn then
         && OnBoard(m.from) && Rank(m.from) == 6
         && ((m.flag == Normal && m.to == m.from - 16) || (m.flag == BigPawn && m.to == m.from - 32))
       else
         && m.piece == Knight && m.flag == Normal
         && ((m.from == 113 && (m.to == 80 || m.to == 82)) || (m.from == 118 && (m.to == 85 || m.to == 87)))
  }

  lemma StartRanks(i: int)
    requires OnBoard(i)
    ensures StartBoard()[i].Full? <==> Rank(i) <= 1 || Rank(i) >= 6
    ensures StartBoard()[i].Owned(White) <==> Rank(i) >= 6
    ensures StartBoard()[i].Owned(Black) <==> Rank(i) <= 1
    ensures StartBoard()[i].Has(Pawn, White) <==> Rank(i) == 6
    ensures StartBoard()[i].Has(Knight, White) <==> i == 113 || i == 118
  {
  }

  lemma BetweenHas(c: Color, kside: bool)
    ensures (if kside then Home(c) + 5 else Home(c) + 1) in C.Between(c, kside)
  {
  }

  lemma NoCastlingYet(p: Position, m: Move)
    requires p == StartPosition() && PseudoLegal(p, m)
    ensures !Castling(m)
  {
    StartRanks(117);
    StartRanks(113);
    BetweenHas(White, m.flag == KsideCastle);
    if Castling(m) {
      C.PseudoIsAllowed(p, m, m.flag == KsideCastle);
    }
  }

  lemma FirstStepTaken(board: seq<Cell>, from: int, offset: int, n: nat)
    requires board == StartBoard() && OnBoard(from) && Rank(from) == 7 && offset in Offsets(Queen) && Clear(board, from, offset, n)
    ensures n == 1 && Rank(from + offset) >= 6
  {
    assert Walk(from, offset, 1) == Walk(from, offset, 0) + offset == from + offset;
    assert OnBoard(Walk(from, offset, 1));
    StartRanks(from + offset);
  }

  /** The pieces of the first rank, knights aside, only reach squares of their own side. */
  lemma HemmedPieces(board: seq<Cell>, kind: Kind, from: int, to: int)
    requires board == StartBoard() && OnBoard(from) && OnBoard(to) && Rank(from) == 7
    requires kind != Pawn && kind != Knight && Reaches(board, kind, from, to)
    ensures Rank(to) >= 6
  {
    if kind == King {
      assert to - from in Offsets(King);
    } else {
      var offset, n :| offset in Offsets(kind) && Slides(board, from, to, offset, n);
      FirstStepTaken(board, from, offset, n);
      assert Walk(from, offset, 1) == Walk(from, offset, 0) + offset;
    }
  }

  lemma OnlyPawnsAndKnights(p: Position, m: Move)
    requires p == StartPosition() && PseudoLegal(p, m)
    ensures m.piece == Pawn || m.piece == Knight
  {
    NoCastlingYet(p, m);
    StartRanks(m.from);
    StartRanks(m.to);
    if m.piece != Pawn && m.piece != Knight {
      HemmedPieces(p.board, m.piece, m.from, m.to);
    }
  }

  lemma PseudoIsFirst(p: Position, m: Move)
    requires p == StartPosition() && PseudoLegal(p, m)
    ensures FirstMove(m)
  {
    OnlyPawnsAndKnights(p, m);
    NoCastlingYet(p, m);
    StartRanks(m.from);
    StartRanks(m.to);
  }

  lemma FirstIsPseudo(p: Position, m: Move)
    requires p == StartPosition() && FirstMove(m)
    ensures PseudoLegal(p, m)
  {
    StartRanks(m.from);
    StartRanks(m.to);
  }

  // ------------------------------------------------- they leave the king safe

  /** Black's pieces stand as they did, and on the two ranks beside them nothing was left open. */
  ghost predicate BlackAtHome(after: seq<Cell>) {
    && |after| == 128
    && (forall i :: OnBoard(i) && Rank(i) <= 1 ==> after[i] == StartBoard()[i])
    && (forall i :: OnBoard(i) && after[i].Owned(Black) ==> Rank(i) <= 1)
  }

  lemma AfterFirst(p: Position, m: Move)
    requires p == StartPosition() && FirstMove(m)
    ensures Playable(p.board, m, p.turn) && BlackAtHome(Made(p, m).board) && Made(p, m).kings.white == 116
  {
    FirstIsPseudo(p, m);
    StartIsWellFormed();
    PseudoLegalIsReversible(p, m);
    MadeSquares(p.board, m, p.turn);
    KingsAfter(p, m);
    forall i | OnBoard(i)
      ensures Rank(i) <= 1 ==> Made(p, m).board[i] == StartBoard()[i]
      ensures Made(p, m).board[i].Owned(Black) ==> Rank(i) <= 1
    {
      StartRanks(i);
    }
  }

  lemma BlackIsFar(after: seq<Cell>, from: int)
    requires BlackAtHome(after) && OnBoard(from) && after[from].Owned(Black)
    ensures !Bears(after, from, 116)
  {
    StartRanks(from);
    var kind := after[from].piece.kind;
    if kind != Pawn && !Leaper(kind) {
      forall offset, n: nat | offset in Offsets(kind)
        ensures !Slides(after, from, 116, offset, n)
      {
        BlackBlocked(after, from, offset, n);
      }
    }
  }

  lemma BlackBlocked(after: seq<Cell>, from: int, offset: int, n: nat)
    requires BlackAtHome(after) && OnBoard(from) && Rank(from) == 0 && offset in Offsets(Queen)
    ensures !Slides(after, from, 116, offset, n)
  {
    assert Walk(from, offset, 1) == Walk(from, offset, 0) + offset == from + offset;
    if OnBoard(from + offset) {
      StartRanks(from + offset);
      assert after[from + offset].Full?;
    }
  }

  /** The legal moves of the starting position are those twenty. */
  lemma TwentyMoves(p: Position, m: Move)
    requires p == StartPosition()
    ensures WellFormed(p) && (Legal(p, m) <==> FirstMove(m))
  {
    StartIsWellFormed();
    if Legal(p, m) {
      PseudoIsFirst(p, m);
    }
    if FirstMove(m) {
      FirstIsPseudo(p, m);
      AfterFirst(p, m);
      if AttackedBy(Made(p, m).board, Black, 116) {
        var from :| OnBoard(from) && Made(p, m).board[from].Owned(Black) && Bears(Made(p, m).board, from, 116);
        BlackIsFar(Made(p, m).board, from);
      }
    }
  }
}
