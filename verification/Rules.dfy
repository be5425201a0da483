/** Positions, moves, and the two state transitions of the rules engine: making a move and taking it back. */
module Rules {
  import opened Basics
  import opened Board
  import opened Attack

  /** One value per colour. */
  datatype Pair<T> = Pair(white: T, black: T) {
    function Of(color: Color): T {
      if color == White then white else black
    }

    function With(color: Color, value: T): Pair<T> {
      if color == White then Pair(value, black) else Pair(white, value)
    }
  }

  /** The castling bits of one colour. */
  datatype Rights = Rights(kside: bool, qside: bool)

  datatype Position = Position(
    board: seq<Cell>,
    kings: Pair<int>,
    turn: Color,
    castling: Pair<Rights>,
    ep: int,
    halfMoves: int,
    moveNumber: int)

  /** The flag bits of a move; the promotion bit is the presence of `promotion`. */
  datatype Flag = Normal | Capture | BigPawn | EpCapture | KsideCastle | QsideCastle

  datatype Move = Move(
    color: Color,
    from: int,
    to: int,
    flag: Flag,
    piece: Kind,
    promotion: Option<Kind>,
    captured: Option<Kind>)

  /** What `make_move` pushes on the history: everything but the board. */
  datatype Entry = Entry(
    move: Move,
    kings: Pair<int>,
    turn: Color,
    castling: Pair<Rights>,
    ep: int,
    halfMoves: int,
    moveNumber: int)

  // --------------------------------------------------------- making a move

  /** The square behind `to`, seen by the side that moves there. */
  function Behind(color: Color, to: int): int {
    to - Forward(color)
  }

  /** The fields of a move are usable: this is all that making it relies on. */
  predicate Playable(board: seq<Cell>, m: Move, us: Color) {
    && |board| == 128 && OnBoard(m.from) && OnBoard(m.to) && m.from != m.to
    && board[m.from].Full?
    && (m.flag == EpCapture ==> OnBoard(Behind(us, m.to)))
    && (m.flag == KsideCastle ==> OnBoard(m.to - 1) && OnBoard(m.to + 1))
    && (m.flag == QsideCastle ==> OnBoard(m.to + 1) && OnBoard(m.to - 2))
  }

  /** The board once the piece stands on its new square, en passant and promotion included. */
  function Placed(board: seq<Cell>, m: Move, us: Color): seq<Cell>
    requires Playable(board, m, us)
    ensures |Placed(board, m, us)| == 128 && Placed(board, m, us)[m.to].Full?
  {
    var moved := board[m.to := board[m.from]][m.from := Empty];
    var taken := if m.flag == EpCapture then moved[Behind(us, m.to) := Empty] else moved;
    if m.promotion.Some? then taken[m.to := Full(Piece(m.promotion.value, us))] else taken
  }

  function MadeBoard(board: seq<Cell>, m: Move, us: Color): seq<Cell>
    requires Playable(board, m, us)
    ensures |MadeBoard(board, m, us)| == 128
  {
    var placed := Placed(board, m, us);
    if placed[m.to].piece.kind != King then placed
    else if m.flag == KsideCastle then placed[m.to - 1 := placed[m.to + 1]][m.to + 1 := Empty]
    else if m.flag == QsideCastle then placed[m.to + 1 := placed[m.to - 2]][m.to - 2 := Empty]
    else placed
  }

  function Home(color: Color): int {
    if color == White then 112 else 0
  }

  /** The rights of a colour after one of its two rook squares was left or captured on. */
  function RookTouched(rights: Rights, color: Color, square: int): Rights {
    if square == Home(color) && rights.qside then rights.(qside := false)
    else if square == Home(color) + 7 && rights.kside then rights.(kside := false)
    else rights
  }

  function Made(p: Position, m: Move): Position
    requires Playable(p.board, m, p.turn)
  {
    var us, them := p.turn, p.turn.Other();
    var board := MadeBoard(p.board, m, us);
    var mover := Placed(p.board, m, us)[m.to].piece;
    var kings := if mover.kind == King then p.kings.With(mover.color, m.to) else p.kings;
    var ours := RookTouched(if mover.kind == King then Rights(false, false) else p.castling.Of(us), us, m.from);
    var theirs := RookTouched(p.castling.Of(them), them, m.to);
    Position(
      board,
      kings,
      them,
      p.castling.With(us, ours).With(them, theirs),
      if m.flag == BigPawn then Behind(us, m.to) else EMPTY,
      if m.piece == Pawn || m.flag == Capture || m.flag == EpCapture then 0 else p.halfMoves + 1,
      if us == Black then p.moveNumber + 1 else p.moveNumber)
  }

  function EntryOf(p: Position, m: Move): Entry {
    Entry(m, p.kings, p.turn, p.castling, p.ep, p.halfMoves, p.moveNumber)
  }

  // ------------------------------------------------------- taking it back

  predicate Undoable(board: seq<Cell>, e: Entry) {
    && |board| == 128 && OnBoard(e.move.from) && OnBoard(e.move.to) && e.move.from != e.move.to
    && board[e.move.to].Full?
    && (e.move.flag == Capture ==> e.move.captured.Some?)
    && (e.move.flag == EpCapture ==> OnBoard(Behind(e.turn, e.move.to)))
    && (e.move.flag == KsideCastle ==> OnBoard(e.move.to - 1) && OnBoard(e.move.to + 1))
    && (e.move.flag == QsideCastle ==> OnBoard(e.move.to + 1) && OnBoard(e.move.to - 2))
  }

  function UndoneBoard(board: seq<Cell>, e: Entry): seq<Cell>
    requires Undoable(board, e)
    ensures |UndoneBoard(board, e)| == 128
  {
    var m, them := e.move, e.turn.Other();
    var back := board[m.from := Full(Piece(m.piece, board[m.to].piece.color))][m.to := Empty];
    match m.flag
    case Capture => back[m.to := Full(Piece(m.captured.value, them))]
    case EpCapture => back[Behind(e.turn, m.to) := Full(Piece(Pawn, them))]
    case KsideCastle => back[m.to + 1 := back[m.to - 1]][m.to - 1 := Empty]
    case QsideCastle => back[m.to - 2 := back[m.to + 1]][m.to + 1 := Empty]
    case _ => back
  }

  function Undone(p: Position, e: Entry): Position
    requires Undoable(p.board, e)
  {
    Position(UndoneBoard(p.board, e), e.kings, e.turn, e.castling, e.ep, e.halfMoves, e.moveNumber)
  }

  // ------------------------------------------------------- well-formedness

  ghost predicate BoardShape(board: seq<Cell>) {
    |board| == 128 && forall i :: 0 <= i < 128 && !OnBoard(i) ==> board[i].Empty?
  }

  /** A colour has exactly one king and the cached square points at it. */
  ghost predicate KingAt(board: seq<Cell>, color: Color, square: int)
    requires |board| == 128
  {
    && OnBoard(square) && board[square].Has(King, color)
    && forall i :: OnBoard(i) && board[i].Has(King, color) ==> i == square
  }

  ghost predicate KingsFound(board: seq<Cell>, kings: Pair<int>)
    requires |board| == 128
  {
    KingAt(board, White, kings.white) && KingAt(board, Black, kings.black)
  }

  ghost predicate PawnsInside(board: seq<Cell>)
    requires |board| == 128
  {
    forall i :: OnBoard(i) && board[i].Full? && board[i].piece.kind == Pawn ==> 1 <= Rank(i) <= 6
  }

  /** A castling flag implies that king and rook stand at home. */
  ghost predicate RightsBacked(board: seq<Cell>, color: Color, rights: Rights)
    requires |board| == 128
  {
    && (rights.kside || rights.qside ==> board[Home(color) + 4].Has(King, color))
    && (rights.kside ==> board[Home(color) + 7].Has(Rook, color))
    && (rights.qside ==> board[Home(color)].Has(Rook, color))
  }

  ghost predicate CastlingHome(board: seq<Cell>, castling: Pair<Rights>)
    requires |board| == 128
  {
    RightsBacked(board, White, castling.white) && RightsBacked(board, Black, castling.black)
  }

  /** A set en-passant square is empty, on the rank that fits the side to move, before an enemy pawn. */
  ghost predicate EpPlausible(board: seq<Cell>, turn: Color, ep: int)
    requires |board| == 128
  {
    ep == EMPTY ||
    (&& OnBoard(ep) && Rank(ep) == (if turn == White then 2 else 5)
     && board[ep].Empty? && board[Behind(turn, ep)].Has(Pawn, turn.Other()))
  }

  /** Everything that must hold of a position except that the side not to move is safe. */
  ghost predicate Sound(p: Position) {
    && BoardShape(p.board) && KingsFound(p.board, p.kings) && PawnsInside(p.board)
    && CastlingHome(p.board, p.castling) && EpPlausible(p.board, p.turn, p.ep)
    && p.halfMoves >= 0 && p.moveNumber >= 1
  }

  ghost predicate KingAttacked(p: Position, color: Color)
    requires |p.board| == 128
  {
    AttackedBy(p.board, color.Other(), p.kings.Of(color))
  }

  ghost predicate WellFormed(p: Position) {
    Sound(p) && !KingAttacked(p, p.turn.Other())
  }

  // -------------------------------------------------- pseudo-legal and legal

  function SecondRank(color: Color): int {
    if color == White then 6 else 1
  }

  predicate PromotionFits(m: Move) {
    if m.piece == Pawn && (Rank(m.to) == 0 || Rank(m.to) == 7)
    then m.promotion in {Some(Queen), Some(Rook), Some(Bishop), Some(Knight)}
    else m.promotion == None
  }

  ghost predicate CastleClear(p: Position, between: seq<int>, crossed: seq<int>)
    requires |p.board| == 128
  {
    && (forall s :: s in between ==> OnBoard(s) && p.board[s].Empty?)
    && (forall s :: s in crossed ==> !AttackedBy(p.board, p.turn.Other(), s))
  }

  /** The rules of movement, square by square: what one may play before asking about one's own king. */
  ghost predicate PseudoLegal(p: Position, m: Move)
    requires |p.board| == 128
  {
    && m.color == p.turn && OnBoard(m.from) && OnBoard(m.to) && p.board[m.from].Has(m.piece, p.turn)
    && PromotionFits(m)
    && match m.flag
       case Normal =>
         && p.board[m.to].Empty? && m.captured == None
         && (if m.piece == Pawn then m.to == m.from + Forward(p.turn) else Reaches(p.board, m.piece, m.from, m.to))
       case Capture =>
         && p.board[m.to].Owned(p.turn.Other()) && m.captured == Some(p.board[m.to].piece.kind)
         && Bears(p.board, m.from, m.to)
       case BigPawn =>
         && m.piece == Pawn && Rank(m.from) == SecondRank(p.turn) && m.captured == None
         && m.to == m.from + 2 * Forward(p.turn)
         && p.board[m.from + Forward(p.turn)].Empty? && p.board[m.to].Empty?
       case EpCapture =>
         m.piece == Pawn && m.to == p.ep && m.captured == Some(Pawn) && Bears(p.board, m.from, m.to)
       case KsideCastle =>
         && m.piece == King && m.captured == None && p.castling.Of(p.turn).kside && m.to == m.from + 2
         && CastleClear(p, [m.from + 1, m.from + 2], [m.from, m.from + 1, m.from + 2])
       case QsideCastle =>
         && m.piece == King && m.captured == None && p.castling.Of(p.turn).qside && m.to == m.from - 2
         && CastleClear(p, [m.from - 1, m.from - 2, m.from - 3], [m.from, m.from - 1, m.from - 2])
  }

  /** What a move must look like on the board for its undoing to be exact. */
  predicate Reversible(board: seq<Cell>, m: Move, us: Color) {
    && |board| == 128 && OnBoard(m.from) && OnBoard(m.to) && m.from != m.to
    && board[m.from].Has(m.piece, us)
    && (m.promotion.Some? ==> m.piece == Pawn && m.promotion != Some(King))
    && match m.flag
       case Normal => board[m.to].Empty?
       case BigPawn => board[m.to].Empty?
       case Capture => m.captured.Some? && board[m.to].Has(m.captured.value, us.Other())
       case EpCapture =>
         && board[m.to].Empty? && OnBoard(Behind(us, m.to)) && board[Behind(us, m.to)].Has(Pawn, us.Other())
       case KsideCastle =>
         && m.piece == King && m.from == Home(us) + 4 && m.to == m.from + 2
         && board[m.to].Empty? && board[m.to - 1].Empty? && board[m.to + 1].Has(Rook, us)
       case QsideCastle =>
         && m.piece == King && m.from == Home(us) + 4 && m.to == m.from - 2
         && board[m.to].Empty? && board[m.to + 1].Empty? && board[m.to - 2].Has(Rook, us)
  }

  lemma CastlingIsFromHome(p: Position, m: Move)
    requires Sound(p) && PseudoLegal(p, m) && (m.flag == KsideCastle || m.flag == QsideCastle)
    ensures m.from == p.kings.Of(p.turn) == Home(p.turn) + 4
  {
    assert p.board[m.from].Has(King, p.turn);
    assert p.board[Home(p.turn) + 4].Has(King, p.turn);
  }

  lemma PseudoLegalIsReversible(p: Position, m: Move)
    requires Sound(p) && PseudoLegal(p, m)
    ensures Reversible(p.board, m, p.turn)
  {
    if m.flag == KsideCastle {
      CastlingIsFromHome(p, m);
      assert m.from + 1 in [m.from + 1, m.from + 2] && m.from + 2 in [m.from + 1, m.from + 2];
    } else if m.flag == QsideCastle {
      CastlingIsFromHome(p, m);
      assert m.from - 1 in [m.from - 1, m.from - 2, m.from - 3] && m.from - 2 in [m.from - 1, m.from - 2, m.from - 3];
    }
  }

  /** A legal move: pseudo-legal, and it does not leave the mover's king attacked. */
  ghost predicate Legal(p: Position, m: Move)
    requires Sound(p)
  {
    PseudoLegal(p, m) && (PseudoLegalIsReversible(p, m); !KingAttacked(Made(p, m), p.turn))
  }

  // -------------------------------------------------------- undo is exact

  lemma UndoRestoresBoard(board: seq<Cell>, m: Move, e: Entry)
    requires Reversible(board, m, e.turn) && e.move == m
    ensures Undoable(MadeBoard(board, m, e.turn), e)
    ensures UndoneBoard(MadeBoard(board, m, e.turn), e) == board
  {
    var made := MadeBoard(board, m, e.turn);
    assert made[m.to].Full? && made[m.to].piece.color == e.turn;
    var back := UndoneBoard(made, e);
    forall i | 0 <= i < 128
      ensures back[i] == board[i]
    {
    }
  }

  /** Taking back a pseudo-legal move restores every field of the position. */
  lemma UndoRestores(p: Position, m: Move)
    requires Sound(p) && PseudoLegal(p, m)
    ensures Playable(p.board, m, p.turn) && Undoable(Made(p, m).board, EntryOf(p, m))
    ensures Undone(Made(p, m), EntryOf(p, m)) == p
  {
    PseudoLegalIsReversible(p, m);
    UndoRestoresBoard(p.board, m, EntryOf(p, m));
  }
}
