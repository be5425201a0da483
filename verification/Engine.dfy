/** The engine object: one mutable board and its companions, updated in place by every operation. */
module Engine {
  import opened Basics
  import opened Board
  import opened Attack
  import opened Rules
  import opened Invariant
  import opened Generation
  import opened Distinctness
  import opened Replay
  import opened Play
  import opened San
  import opened Text
  import opened Fen
  import opened Repetition
  import opened Material
  import Start

  class Chessboard {
    var board: array<Cell>
    var kings: Pair<int>
    var turn: Color
    var castling: Pair<Rights>
    var ep: int
    var halfMoves: int
    var moveNumber: int
    var history: seq<Entry>

    ghost function Pos(): Position
      reads this, board
    {
      Position(board[..], kings, turn, castling, ep, halfMoves, moveNumber)
    }

    ghost function State(): Game<Position, Entry>
      reads this, board
    {
      Game(Pos(), history)
    }

    // ----------------------------------------------------------- attacks

    /** One lookup in each table at the index of a pair of squares. */
    static method Lookup(from: int, to: int) returns (bits: int, offset: int)
      requires OnBoard(from) && OnBoard(to)
      ensures bits == Mask(Rank(from) - Rank(to), File(from) - File(to))
      ensures Lined(from, to) ==> offset == Toward(from, to)
    {
      var index := from - to + 119;
      AttacksAt(from, to);
      RaysAt(from, to);
      bits := Attacks(index);
      offset := Rays(index);
    }

    /** Whether the piece on `from` bears on `to`, by the tables and, for sliders, a walk. */
    method Hits(from: int, to: int) returns (hit: bool)
      requires board.Length == 128 && OnBoard(from) && OnBoard(to) && board[from].Full?
      ensures hit <==> Bears(board[..], from, to)
    {
      var piece := board[from].piece;
      var difference := from - to;
      var bits, offset := Lookup(from, to);
      if !BitSet(bits, piece.kind) {
        MissedByTable(board[..], from, to);
        return false;
      }
      if piece.kind == Pawn {
        PawnTable(board[..], from, to);
        return if difference > 0 then piece.color == White else piece.color == Black;
      }
      if piece.kind == Knight || piece.kind == King {
        LeaperTable(board[..], from, to);
        return true;
      }
      SliderTable(board[..], from, to);
      LineWalks(from, to);
      var blocked := WalkBlocked(from, to, offset, Distance(from, to));
      return !blocked;
    }

    method WalkBlocked(from: int, to: int, offset: int, ghost n: nat) returns (blocked: bool)
      requires board.Length == 128 && n >= 1 && Walk(from, offset, n) == to
      requires forall t :: 1 <= t <= n ==> OnBoard(Walk(from, offset, t))
      requires forall t :: 1 <= t < n ==> Walk(from, offset, t) != to
      ensures !blocked <==> Clear(board[..], from, offset, n)
    {
      var j := from + offset;
      ghost var k := 1;
      assert Walk(from, offset, 1) == j;
      while j != to
        invariant 1 <= k <= n && j == Walk(from, offset, k)
        invariant forall t :: 1 <= t < k ==> board[Walk(from, offset, t)].Empty?
        decreases n - k
      {
        if board[j].Full? {
          return true;
        }
        j := j + offset;
        k := k + 1;
      }
      return false;
    }

    /** The scan over all squares; a row ends with eight indices that are no squares. */
    method Attacked(color: Color, square: int) returns (attacked: bool)
      requires board.Length == 128 && OnBoard(square)
      ensures attacked <==> AttackedBy(board[..], color, square)
    {
      var i := 0;
      while i <= 119
        invariant 0 <= i <= 120 && i % 16 <= 8
        invariant !HitBelow(board[..], color, square, i)
      {
        ScanStep(i);
        if OffBoard(i) {
          HitSkips(board[..], color, square, i, 8);
          i := i + 8;
          continue;
        }
        if board[i].Owned(color) {
          var hit := Hits(i, square);
          if hit {
            HitStays(board[..], color, square, i + 1, |board[..]|);
            HitAnywhere(board[..], color, square);
            return true;
          }
        }
        i := i + 1;
      }
      HitSkips(board[..], color, square, i, 8);
      HitAnywhere(board[..], color, square);
      return false;
    }

    method IsKingAttacked(color: Color) returns (attacked: bool)
      requires board.Length == 128 && OnBoard(kings.Of(color))
      ensures attacked <==> KingAttacked(Pos(), color)
    {
      attacked := Attacked(color.Other(), kings.Of(color));
    }

    // ------------------------------------------------- making and undoing

    method MovePieces(m: Move)
      requires board.Length == 128 && Playable(board[..], m, turn)
      modifies board
      ensures board[..] == MadeBoard(old(board[..]), m, turn)
      ensures board[..][m.to] == Placed(old(board[..]), m, turn)[m.to]
    {
      ghost var before := board[..];
      board[m.to] := board[m.from];
      board[m.from] := Empty;
      if m.flag == EpCapture {
        board[Behind(turn, m.to)] := Empty;
      }
      if m.promotion.Some? {
        board[m.to] := Full(Piece(m.promotion.value, turn));
      }
      assert board[..] == Placed(before, m, turn);
      if board[m.to].piece.kind == King {
        if m.flag == KsideCastle {
          board[m.to - 1] := board[m.to + 1];
          board[m.to + 1] := Empty;
        } else if m.flag == QsideCastle {
          board[m.to + 1] := board[m.to - 2];
          board[m.to - 2] := Empty;
        }
      }
      assert board[..] == MadeBoard(before, m, turn);
    }

    method MakeMove(m: Move)
      requires board.Length == 128 && Playable(board[..], m, turn)
      modifies this, board
      ensures board == old(board)
      ensures Pos() == Made(old(Pos()), m)
      ensures history == old(history) + [EntryOf(old(Pos()), m)]
    {
      var us, them := turn, turn.Other();
      ghost var p := Pos();
      history := history + [Entry(m, kings, turn, castling, ep, halfMoves, moveNumber)];
      MovePieces(m);
      var mover := board[m.to].piece;
      assert mover == Placed(p.board, m, us)[m.to].piece;
      UpdateRecords(m, mover, p);
      turn := turn.Other();
      assert Pos() == Made(p, m);
    }

    /** King cache, castling rights, en-passant square and counters after a move of `mover`. */
    method UpdateRecords(m: Move, mover: Piece, ghost p: Position)
      requires Playable(p.board, m, p.turn) && mover == Placed(p.board, m, p.turn)[m.to].piece
      requires kings == p.kings && castling == p.castling && turn == p.turn && ep == p.ep
      requires halfMoves == p.halfMoves && moveNumber == p.moveNumber
      modifies `kings, `castling, `ep, `halfMoves, `moveNumber
      ensures kings == Made(p, m).kings && castling == Made(p, m).castling && ep == Made(p, m).ep
      ensures halfMoves == Made(p, m).halfMoves && moveNumber == Made(p, m).moveNumber
    {
      var us, them := turn, turn.Other();
      if mover.kind == King {
        kings := kings.With(mover.color, m.to);
        castling := castling.With(us, Rights(false, false));
      }
      castling := castling.With(us, RookTouched(castling.Of(us), us, m.from));
      castling := castling.With(them, RookTouched(castling.Of(them), them, m.to));
      if m.flag == BigPawn {
        ep := if turn == Black then m.to - 16 else m.to + 16;
      } else {
        ep := EMPTY;
      }
      if m.piece == Pawn {
        halfMoves := 0;
      } else if m.flag == Capture || m.flag == EpCapture {
        halfMoves := 0;
      } else {
        halfMoves := halfMoves + 1;
      }
      if turn == Black {
        moveNumber := moveNumber + 1;
      }
    }

    method UndoMove() returns (undone: Option<Move>)
      requires board.Length == 128 && (history != [] ==> Undoable(board[..], Last(history)))
      modifies this, board
      ensures board == old(board)
      ensures old(history) == [] ==> undone == None && Pos() == old(Pos()) && history == []
      ensures old(history) != [] ==>
                && undone == Some(Last(old(history)).move) && history == old(history)[..|old(history)| - 1]
                && Pos() == Undone(old(Pos()), Last(old(history)))
    {
      if history == [] {
        return None;
      }
      var e := history[|history| - 1];
      history := history[..|history| - 1];
      var m := e.move;
      kings, turn, castling, ep := e.kings, e.turn, e.castling, e.ep;
      halfMoves, moveNumber := e.halfMoves, e.moveNumber;
      PutBack(m, e);
      return Some(m);
    }

    method PutBack(m: Move, ghost e: Entry)
      requires Undoable(board[..], e) && e.move == m && e.turn == turn
      modifies board
      ensures board[..] == UndoneBoard(old(board[..]), e)
    {
      ghost var before := board[..];
      var them := turn.Other();
      board[m.from] := Full(Piece(m.piece, board[m.to].piece.color));
      board[m.to] := Empty;
      if m.flag == Capture {
        board[m.to] := Full(Piece(m.captured.value, them));
      } else if m.flag == EpCapture {
        var index := if turn == Black then m.to - 16 else m.to + 16;
        board[index] := Full(Piece(Pawn, them));
      }
      if m.flag == KsideCastle {
        board[m.to + 1] := board[m.to - 1];
        board[m.to - 1] := Empty;
      } else if m.flag == QsideCastle {
        board[m.to - 2] := board[m.to + 1];
        board[m.to + 1] := Empty;
      }
      assert board[..] == UndoneBoard(before, e);
    }

    // ---------------------------------------------------- generating moves

    method AddMoves(from: int, to: int, flag: Flag) returns (moves: seq<Move>)
      requires board.Length == 128 && OnBoard(from) && OnBoard(to) && board[from].Full?
      ensures moves == AddMove(Pos(), from, to, flag)
    {
      var captured := if board[to].Full? then Some(board[to].piece.kind) else if flag == EpCapture then Some(Pawn) else None;
      var plain := Move(turn, from, to, flag, board[from].piece.kind, None, captured);
      moves := [];
      if board[from].piece.kind == Pawn && (Rank(to) == 0 || Rank(to) == 7) {
        var pieces := [Queen, Rook, Bishop, Knight];
        for i := 0 to |pieces|
          invariant moves == seq(i, k requires 0 <= k < i => plain.(promotion := Some(pieces[k])))
        {
          moves := moves + [plain.(promotion := Some(pieces[i]))];
        }
      } else {
        moves := [plain];
      }
    }

    method PawnPushMoves(from: int) returns (moves: seq<Move>)
      requires board.Length == 128 && PawnHere(Pos(), from)
      ensures moves == PawnPushes(Pos(), from)
    {
      moves := [];
      var square := from + PawnOffsets(turn)[0];
      if board[square].Empty? {
        moves := AddMoves(from, square, Normal);
        square := from + PawnOffsets(turn)[1];
        if SecondRank(turn) == Rank(from) && board[square].Empty? {
          var double := AddMoves(from, square, BigPawn);
          moves := moves + double;
        }
      }
    }

    method PawnCaptureMoves(from: int, j: int) returns (moves: seq<Move>)
      requires board.Length == 128 && PawnHere(Pos(), from) && 2 <= j <= 3
      ensures moves == PawnCapture(Pos(), from, j)
    {
      var square := from + PawnOffsets(turn)[j];
      OffBoardIsOutside(square);
      moves := [];
      if OffBoard(square) {
        return;
      }
      if board[square].Owned(turn.Other()) {
        moves := AddMoves(from, square, Capture);
      } else if square == ep {
        moves := AddMoves(from, ep, EpCapture);
      }
    }

    /** The captures of a pawn, one offset after the other. */
    method PawnCaptures(from: int) returns (moves: seq<Move>)
      requires board.Length == 128 && PawnHere(Pos(), from)
      ensures moves == PawnCapture(Pos(), from, 2) + PawnCapture(Pos(), from, 3)
    {
      moves := [];
      for j := 2 to 4
        invariant j == 3 ==> moves == PawnCapture(Pos(), from, j - 1)
        invariant j == 4 ==> moves == PawnCapture(Pos(), from, j - 2) + PawnCapture(Pos(), from, j - 1)
        invariant j == 2 ==> moves == []
      {
        var captures := PawnCaptureMoves(from, j);
        moves := moves + captures;
      }
    }

    method PawnMoves(from: int) returns (moves: seq<Move>)
      requires board.Length == 128 && PawnHere(Pos(), from)
      ensures moves == PawnPushes(Pos(), from) + PawnCapture(Pos(), from, 2) + PawnCapture(Pos(), from, 3)
    {
      var pushes := PawnPushMoves(from);
      var captures := PawnCaptures(from);
      moves := pushes + captures;
    }

    /** One step of a walk: the moves it yields, and whether the walk goes on. */
    method RayStepMoves(from: int, square: int, offset: int) returns (step: seq<Move>, on: bool)
      requires board.Length == 128 && PieceHere(Pos(), from) && Step(offset) && OnBoard(square)
      ensures on ==> OnBoard(square + offset) && !Leaper(board[from].piece.kind)
      ensures RayMoves(Pos(), from, square, offset) == step + if on then RayMoves(Pos(), from, square + offset, offset) else []
    {
      var next := square + offset;
      OffBoardIsOutside(next);
      if OffBoard(next) {
        return [], false;
      }
      if board[next].Empty? {
        step := AddMoves(from, next, Normal);
        return step, !Leaper(board[from].piece.kind);
      }
      if board[next].piece.color == turn {
        return [], false;
      }
      step := AddMoves(from, next, Capture);
      on := false;
    }

    method WalkRay(from: int, offset: int) returns (moves: seq<Move>)
      requires board.Length == 128 && PieceHere(Pos(), from) && Step(offset)
      ensures moves == RayMoves(Pos(), from, from, offset)
    {
      moves := [];
      var square, on := from, true;
      ghost var all := RayMoves(Pos(), from, from, offset);
      while on
        invariant on ==> OnBoard(square)
        invariant all == moves + if on then RayMoves(Pos(), from, square, offset) else []
        decreases on, if offset > 0 then 128 - square else square
      {
        var step;
        step, on := RayStepMoves(from, square, offset);
        square := square + offset;
        Reassociate(moves, step, if on then RayMoves(Pos(), from, square, offset) else []);
        moves := moves + step;
      }
    }

    method WalkRays(from: int) returns (moves: seq<Move>)
      requires board.Length == 128 && PieceHere(Pos(), from)
      ensures moves == PieceMoves(Pos(), from, |Offsets(board[from].piece.kind)|)
    {
      moves := [];
      var offsets := Offsets(board[from].piece.kind);
      OffsetsAreSteps(board[from].piece.kind);
      for j := 0 to |offsets|
        invariant moves == PieceMoves(Pos(), from, j)
      {
        var ray := WalkRay(from, offsets[j]);
        moves := moves + ray;
      }
    }

    method MovesFrom(from: int) returns (moves: seq<Move>)
      requires board.Length == 128 && PawnsInside(board[..]) && OnBoard(from)
      ensures moves == SquareMoves(Pos(), from)
    {
      if !board[from].Owned(turn) {
        moves := [];
      } else if board[from].piece.kind == Pawn {
        assert board[..][from].Full?;
        moves := PawnMoves(from);
      } else {
        moves := WalkRays(from);
      }
    }

    /** Whether the enemy attacks none of the given squares; stops at the first attacked one. */
    method Unattacked(squares: seq<int>) returns (safe: bool)
      requires board.Length == 128 && forall s :: s in squares ==> OnBoard(s)
      ensures safe <==> forall s :: s in squares ==> !AttackedBy(board[..], turn.Other(), s)
    {
      for i := 0 to |squares|
        invariant forall k :: 0 <= k < i ==> !AttackedBy(board[..], turn.Other(), squares[k])
      {
        assert squares[i] in squares;
        var hit := Attacked(turn.Other(), squares[i]);
        if hit {
          return false;
        }
      }
      return true;
    }

    method KsideCastling() returns (moves: seq<Move>)
      requires board.Length == 128 && Sound(Pos()) && castling.Of(turn).kside
      ensures moves == KsideMoves(Pos())
    {
      var from := kings.Of(turn);
      assert from == Home(turn) + 4 by { assert Pos().board[Home(turn) + 4].Has(King, turn); }
      var clear := board[from + 1].Empty? && board[from + 2].Empty?;
      if clear {
        clear := Unattacked([from, from + 1, from + 2]);
      }
      moves := [];
      assert clear <==> CastleClear(Pos(), [from + 1, from + 2], [from, from + 1, from + 2]) by {
        BothMembers(from + 1, from + 2);
      }
      if clear {
        moves := AddMoves(from, from + 2, KsideCastle);
      }
    }

    method QsideCastling() returns (moves: seq<Move>)
      requires board.Length == 128 && Sound(Pos()) && castling.Of(turn).qside
      ensures moves == QsideMoves(Pos())
    {
      var from := kings.Of(turn);
      assert from == Home(turn) + 4 by { assert Pos().board[Home(turn) + 4].Has(King, turn); }
      var clear := board[from - 1].Empty? && board[from - 2].Empty? && board[from - 3].Empty?;
      if clear {
        clear := Unattacked([from, from - 1, from - 2]);
      }
      moves := [];
      assert clear <==> CastleClear(Pos(), [from - 1, from - 2, from - 3], [from, from - 1, from - 2]) by {
        ThreeMembers(from - 1, from - 2, from - 3);
      }
      if clear {
        moves := AddMoves(from, from - 2, QsideCastle);
      }
    }

    method CastlingMoves() returns (moves: seq<Move>)
      requires board.Length == 128 && Sound(Pos())
      ensures moves == CastleMoves(Pos())
    {
      moves := [];
      if castling.Of(turn).kside {
        moves := KsideCastling();
      }
      if castling.Of(turn).qside {
        var long := QsideCastling();
        moves := moves + long;
      }
    }

    method Extended(before: seq<Move>, i: nat) returns (moves: seq<Move>)
      requires board.Length == 128 && PawnsInside(board[..]) && OnBoard(i)
      requires before == MovesBelow(Pos(), i)
      ensures moves == MovesBelow(Pos(), i + 1)
    {
      var here := MovesFrom(i);
      moves := before + here;
    }

    /** One index of the scan: past a row eight indices are skipped, else the square's moves are added. */
    method ScanIndex(before: seq<Move>, i: nat) returns (moves: seq<Move>, next: nat)
      requires board.Length == 128 && PawnsInside(board[..]) && i <= 119 && i % 16 <= 8
      requires before == MovesBelow(Pos(), i)
      ensures i < next <= 120 && next % 16 <= 8 && moves == MovesBelow(Pos(), next)
    {
      ScanStep(i);
      if OffBoard(i) {
        MovesSkip(Pos(), i, 8);
        return before, i + 8;
      }
      moves := Extended(before, i);
      next := i + 1;
    }

    method AllSquaresMoves() returns (moves: seq<Move>)
      requires board.Length == 128 && PawnsInside(board[..])
      ensures moves == MovesBelow(Pos(), |board[..]|)
    {
      moves := [];
      var i: nat := 0;
      while i <= 119
        invariant i <= 120 && i % 16 <= 8
        invariant moves == MovesBelow(Pos(), i)
      {
        moves, i := ScanIndex(moves, i);
      }
      MovesEnd(Pos(), i);
    }

    /** The moves before legality is asked about: all of them, or those from one square. */
    method PseudoMovesOf(only: Option<int>) returns (moves: seq<Move>)
      requires board.Length == 128 && Sound(Pos())
      ensures moves == PseudoMoves(Pos(), only)
    {
      if only.None? {
        moves := AllSquaresMoves();
      } else if OnBoard(only.value) {
        moves := MovesFrom(only.value);
      } else {
        return [];
      }
      if only.None? || only.value == kings.Of(turn) {
        var castles := CastlingMoves();
        moves := moves + castles;
      }
    }

    /** Make the move, look at one's own king, take the move back. */
    method TryMove(m: Move) returns (legal: bool)
      requires board.Length == 128 && WellFormed(Pos()) && PseudoLegal(Pos(), m)
      modifies this, board
      ensures board == old(board) && State() == old(State())
      ensures legal <==> Legal(old(Pos()), m)
    {
      ghost var p, before := Pos(), history;
      MoveKeepsSound(p, m);
      UndoRestores(p, m);
      var us := turn;
      MakeMove(m);
      assert Last(history) == EntryOf(p, m);
      var attacked := IsKingAttacked(us);
      var undone := UndoMove();
      assert history == before;
      legal := !attacked;
    }

    /** The moves of the list that pass that test, in order. */
    method KeepLegal(moves: seq<Move>) returns (legal: seq<Move>)
      requires board.Length == 128 && WellFormed(Pos()) && forall m :: m in moves ==> PseudoLegal(Pos(), m)
      modifies this, board
      ensures board == old(board) && State() == old(State())
      ensures legal == LegalOnly(old(Pos()), moves)
    {
      legal := [];
      ghost var g := State();
      for i := 0 to |moves|
        invariant board == old(board) && State() == g
        invariant forall m :: m in moves[..i] ==> PseudoLegal(g.pos, m)
        invariant legal == LegalOnly(g.pos, moves[..i])
      {
        assert moves[i] in moves;
        var keep := TryMove(moves[i]);
        if keep {
          legal := legal + [moves[i]];
        }
        assert moves[..i + 1][..i] == moves[..i] && moves[..i + 1][i] == moves[i];
      }
      assert moves[..|moves|] == moves;
    }

    /** The generator: all moves or those from one square, legal or merely pseudo-legal. */
    method GenerateMoves(only: Option<int>, legal: bool) returns (moves: seq<Move>)
      requires board.Length == 128 && WellFormed(Pos())
      modifies this, board
      ensures board == old(board) && State() == old(State())
      ensures moves == if legal then LegalMoves(old(Pos()), only) else PseudoMoves(old(Pos()), only)
    {
      moves := PseudoMovesOf(only);
      if legal {
        PseudoMovesArePseudoLegal(Pos(), only);
        moves := KeepLegal(moves);
      }
    }

    // --------------------------------------------------- algebraic notation

    method GetDisambiguator(m: Move) returns (text: string)
      requires board.Length == 128 && WellFormed(Pos()) && OnBoard(m.from)
      modifies this, board
      ensures board == old(board) && State() == old(State())
      ensures text == Disambiguator(LegalMoves(old(Pos()), None), m)
    {
      var moves := GenerateMoves(None, true);
      text := DisambiguatorAmong(moves, m);
    }

    static method DisambiguatorAmong(moves: seq<Move>, m: Move) returns (text: string)
      requires OnBoard(m.from)
      ensures text == Disambiguator(moves, m)
    {
      var ambiguities, sameRank, sameFile := 0, 0, 0;
      for i := 0 to |moves|
        invariant ambiguities > 0 <==> exists k :: 0 <= k < i && Rival(moves, m, moves[k])
        invariant sameRank > 0 <==> exists k :: 0 <= k < i && Rival(moves, m, moves[k]) && Rank(moves[k].from) == Rank(m.from)
        invariant sameFile > 0 <==> exists k :: 0 <= k < i && Rival(moves, m, moves[k]) && File(moves[k].from) == File(m.from)
        invariant ambiguities >= 0 && sameRank >= 0 && sameFile >= 0
      {
        var other := moves[i];
        if m.piece == other.piece && m.from != other.from && m.to == other.to {
          assert Rival(moves, m, moves[i]);
          ambiguities := ambiguities + 1;
          if Rank(m.from) == Rank(other.from) {
            sameRank := sameRank + 1;
          }
          if File(m.from) == File(other.from) {
            sameFile := sameFile + 1;
          }
        }
      }
      assert ambiguities > 0 <==> Ambiguous(moves, m);
      assert sameRank > 0 <==> SharesRank(moves, m);
      assert sameFile > 0 <==> SharesFile(moves, m);
      if ambiguities > 0 {
        if sameRank > 0 && sameFile > 0 {
          return Algebraic(m.from);
        } else if sameFile > 0 {
          return [Algebraic(m.from)[1]];
        } else {
          return [Algebraic(m.from)[0]];
        }
      }
      return "";
    }

    method CheckMarkNow() returns (mark: string)
      requires board.Length == 128 && WellFormed(Pos())
      modifies this, board
      ensures board == old(board) && State() == old(State())
      ensures mark == CheckMark(old(Pos()))
    {
      var check := IsKingAttacked(turn);
      if !check {
        return "";
      }
      var moves := GenerateMoves(None, true);
      return if |moves| == 0 then "#" else "+";
    }

    method PrintMove(m: Move) returns (text: string)
      requires board.Length == 128 && WellFormed(Pos()) && Legal(Pos(), m)
      modifies this, board
      ensures board == old(board) && State() == old(State())
      ensures text == Unmarked(old(Pos()), m)
    {
      if m.flag == KsideCastle {
        text := "O-O";
      } else if m.flag == QsideCastle {
        text := "O-O-O";
      } else {
        var origin := GetDisambiguator(m);
        text := Stem(origin, m);
        if m.promotion.Some? {
          text := text + ("=" + Promotion(m));
        }
      }
    }

    method SanOf(m: Move) returns (text: string)
      requires board.Length == 128 && WellFormed(Pos()) && Legal(Pos(), m)
      modifies this, board
      ensures board == old(board) && State() == old(State())
      ensures text == MoveToSan(old(Pos()), m)
    {
      ghost var p, before := Pos(), history;
      text := PrintMove(m);
      LegalIffWellFormedAfter(p, m);
      UndoRestores(p, m);
      MakeMove(m);
      ghost var after := history;
      var mark := CheckMarkNow();
      assert history == after && Last(history) == EntryOf(p, m);
      text := text + mark;
      var undone := UndoMove();
      assert history == before;
    }

    method FindSan(text: string) returns (found: Found<Move>)
      requires board.Length == 128 && WellFormed(Pos())
      modifies this, board
      ensures board == old(board) && State() == old(State())
      ensures found == MoveFromSan(old(Pos()), text)
    {
      ghost var g := State();
      var clean := StrippedSan(text);
      var moves := GenerateMoves(None, true);
      LegalMovesExact(g.pos, None);
      for i := 0 to |moves|
        invariant board == old(board) && State() == g
        invariant FirstNamed(g.pos, moves, clean) == FirstNamed(g.pos, moves[i..], clean)
      {
        assert moves[i] in moves;
        FirstNamedNext(g.pos, moves, clean, i);
        var san := SanOf(moves[i]);
        if clean == StrippedSan(san) {
          return Found(moves[i]);
        }
      }
      return Missing;
    }

    // --------------------------------------------------------- playing

    /** Between calls the engine holds a game all of whose moves were legal and can be taken back. */
    ghost predicate Valid()
      reads this, board
    {
      board.Length == 128 && Consistent(Chess(), State())
    }

    method Play(m: Move)
      requires Valid() && Legal(Pos(), m)
      modifies this, board
      ensures board == old(board) && Valid()
      ensures State() == Played(Chess(), old(State()), m)
    {
      LegalIsListed(State(), m);
      ChessMove(Pos(), m);
      ChessIsLawful();
      PlayedKeepsConsistent(Chess(), State(), m);
      MakeMove(m);
    }

    static method FirstAsked(moves: seq<Move>, from: string, to: string, promotion: Option<Kind>) returns (found: Found<Move>)
      requires forall m :: m in moves ==> OnBoard(m.from) && OnBoard(m.to)
      ensures found.Missing? ==> forall m :: m in moves ==> !Asked(m, from, to, promotion)
      ensures found.Found? ==> found.move in moves && Asked(found.move, from, to, promotion)
    {
      for i := 0 to |moves|
        invariant forall k :: 0 <= k < i ==> !Asked(moves[k], from, to, promotion)
      {
        assert moves[i] in moves;
        if from == Algebraic(moves[i].from) && to == Algebraic(moves[i].to)
           && (moves[i].promotion == None || promotion == moves[i].promotion) {
          return Found(moves[i]);
        }
      }
      found := Missing;
    }

    /** A move asked for by its squares and promotion: played if a legal move has them, refused otherwise. */
    method MoveByFields(from: string, to: string, promotion: Option<Kind>) returns (found: Found<Move>)
      requires Valid()
      modifies this, board
      ensures board == old(board) && Valid()
      ensures found.Missing? ==>
                State() == old(State()) && forall m :: Legal(old(Pos()), m) ==> !Asked(m, from, to, promotion)
      ensures found.Found? ==>
                && Legal(old(Pos()), found.move) && Asked(found.move, from, to, promotion)
                && State() == Played(Chess(), old(State()), found.move)
    {
      ghost var g := State();
      ConsistentIsWellFormed(g);
      var moves := GenerateMoves(None, true);
      LegalMovesExact(g.pos, None);
      LegalMovesOnBoard(g.pos);
      found := FirstAsked(moves, from, to, promotion);
      if found.Found? {
        Play(found.move);
      }
    }

    /** A move asked for by its text. */
    method MoveBySan(text: string) returns (found: Found<Move>)
      requires Valid()
      modifies this, board
      ensures board == old(board) && Valid()
      ensures found == MoveFromSan(old(Pos()), text)
      ensures found.Missing? ==> State() == old(State())
      ensures found.Found? ==>
                Legal(old(Pos()), found.move) && State() == Played(Chess(), old(State()), found.move)
    {
      ghost var g := State();
      ConsistentIsWellFormed(g);
      found := FindSan(text);
      FoundIsLegal(g.pos, text);
      if found.Found? {
        Play(found.move);
      }
    }

    method Undo() returns (undone: Option<Move>)
      requires Valid()
      modifies this, board
      ensures board == old(board) && Valid()
      ensures State() == TakenBack(Chess(), old(State()))
      ensures undone == if old(history) == [] then None else Some(Last(old(history)).move)
    {
      LastIsUndoable(State());
      undone := UndoMove();
    }

    // ------------------------------------------------------------- FEN

    /** One square of the board field: count it if empty, else flush the count and print the piece. */
    method PrintSquare(i: int, empty: nat) returns (text: string, pending: nat)
      requires board.Length == 128 && OnBoard(i) && empty <= File(i)
      ensures pending <= File(i) + 1
      ensures RowText(board[..], Rank(i), File(i), empty) == text + RowText(board[..], Rank(i), File(i) + 1, pending)
    {
      assert i == 16 * Rank(i) + File(i);
      if board[i].Empty? {
        RowGoesOn(board[..], Rank(i), File(i), empty);
        return "", empty + 1;
      }
      text := "";
      if empty > 0 {
        text := [DigitChar(empty)];
      }
      text := text + [Symbol(board[i].piece)];
      pending := 0;
      assert text == Count(empty) + [Symbol(board[i].piece)];
      RowTextPiece(board[..], Rank(i), File(i), empty);
    }

    /** The pending count and, but for the last row, the separator. */
    method EndRow(fen: string, empty: nat, i: int, ghost r: nat) returns (text: string)
      requires board.Length == 128 && r < 8 && empty <= 8 && (i == 119 <==> r == 7)
      ensures r < 7 ==> TextFrom(text, board[..], r + 1, 0, 0) == TextFrom(fen, board[..], r, 8, empty)
      ensures r == 7 ==> text == TextFrom(fen, board[..], r, 8, empty)
    {
      text := fen;
      if empty > 0 {
        text := text + [DigitChar(empty)];
      }
      assert text == fen + Count(empty);
      if i != 119 {
        TextNextRow(fen, board[..], r, empty);
        text := text + "/";
      } else {
        TextEnds(fen, board[..], empty);
      }
    }

    /** What is still to come when index i is next; nothing after the last row. */
    ghost predicate Pending(fen: string, i: int, empty: nat, goal: string)
      requires board.Length == 128
      reads this, board
    {
      if i == 128 then fen == goal
      else OnBoard(i) && empty <= File(i) && TextFrom(fen, board[..], Rank(i), File(i), empty) == goal
    }

    /** One index of the scan, with what is printed after the last file of a row. */
    method PrintIndex(fen: string, i: int, empty: nat, ghost r: nat, ghost goal: string) returns (text: string, pending: nat, ended: bool)
      requires board.Length == 128 && OnBoard(i) && Rank(i) == r && empty <= File(i)
      requires TextFrom(fen, board[..], r, File(i), empty) == goal
      ensures ended <==> File(i) == 7
      ensures !ended ==> pending <= File(i) + 1 && TextFrom(text, board[..], r, File(i) + 1, pending) == goal
      ensures ended && r < 7 ==> pending == 0 && TextFrom(text, board[..], r + 1, 0, 0) == goal
      ensures ended && r == 7 ==> text == goal
    {
      ghost var f := File(i);
      assert i == 16 * r + f;
      var here;
      here, pending := PrintSquare(i, empty);
      TextAlong(fen, here, board[..], r, f, empty, pending);
      text := fen + here;
      RowEnds(i, r, f);
      ended := OffBoard(i + 1);
      if ended {
        text := EndRow(text, pending, i, r);
        pending := 0;
      }
    }

    /** The index after a square, and after it if a row ended there. */
    method PrintNext(fen: string, i: int, empty: nat, ghost goal: string) returns (text: string, pending: nat, next: int)
      requires board.Length == 128 && i < 128 && Pending(fen, i, empty, goal)
      ensures i < next && (next <= 119 || next == 128) && Pending(text, next, pending, goal)
    {
      ghost var r, f := Rank(i), File(i);
      assert i == 16 * r + f;
      var ended;
      text, pending, ended := PrintIndex(fen, i, empty, r, goal);
      IndexAfter(i, r, f);
      next := if ended then i + 9 else i + 1;
    }

    /** The board field, one index at a time, with a separator after every row but the last. */
    method PrintBoard() returns (fen: string)
      requires board.Length == 128
      ensures fen == BoardText(board[..])
    {
      var empty: nat := 0;
      fen := "";
      var i := 0;
      ghost var goal := BoardText(board[..]);
      TextStarts(board[..]);
      while i <= 119
        invariant i <= 119 || i == 128
        invariant Pending(fen, i, empty, goal)
        decreases 128 - i
      {
        fen, empty, i := PrintNext(fen, i, empty, goal);
      }
    }

    method PrintFen() returns (fen: string)
      requires board.Length == 128 && Printable(Pos())
      ensures fen == GenerateFen(Pos())
    {
      var text := PrintBoard();
      var flags := "";
      if castling.white.kside {
        flags := flags + "K";
      }
      if castling.white.qside {
        flags := flags + "Q";
      }
      if castling.black.kside {
        flags := flags + "k";
      }
      if castling.black.qside {
        flags := flags + "q";
      }
      assert flags == FlagsText(castling);
      if flags == "" {
        flags := "-";
      }
      var epText := if ep == EMPTY then "-" else Algebraic(ep);
      fen := Join([text, TurnText(turn), flags, epText, NumberText(halfMoves), NumberText(moveNumber)], ' ');
      assert [text, TurnText(turn), flags, epText, NumberText(halfMoves), NumberText(moveNumber)] == Fields(Pos());
    }

    // ------------------------------------------------ rewinding and replaying

    /** The engine stands at the n-th prefix of game g. */
    ghost predicate At(g: Game<Position, Entry>, n: nat)
      reads this, board
    {
      Valid() && Consistent(Chess(), g) && n <= |g.history| && |history| == n && State() == Prefix(Chess(), g, n)
    }

    /** Take back one move of game g. */
    method StepBack(ghost g: Game<Position, Entry>, ghost n: nat) returns (m: Move)
      requires n > 0 && At(g, n)
      modifies this, board
      ensures board == old(board) && At(g, n - 1) && m == g.history[n - 1].move
    {
      PrefixStep(Chess(), g, n - 1);
      assert history == g.history[..n];
      var undone := Undo();
      m := undone.value;
    }

    /** Make the next move of game g again. */
    method StepForward(m: Move, ghost g: Game<Position, Entry>, ghost n: nat)
      requires At(g, n) && n < |g.history| && m == g.history[n].move
      modifies this, board
      ensures board == old(board) && At(g, n + 1)
    {
      PrefixStep(Chess(), g, n);
      ChessMove(Pos(), m);
      Play(m);
    }

    /** Take back the whole game; the moves come out last first. */
    method Rewind(ghost g: Game<Position, Entry>) returns (moves: seq<Move>)
      requires At(g, |g.history|)
      modifies this, board
      ensures board == old(board) && At(g, 0)
      ensures |moves| == |g.history| && ToReplay(g, moves)
    {
      moves := [];
      ghost var n: nat := |g.history|;
      while |history| > 0
        invariant board == old(board) && At(g, n) && n + |moves| == |g.history| && ToReplay(g, moves)
        decreases n
      {
        var m := StepBack(g, n);
        n := n - 1;
        ToReplayMore(g, moves, m);
        moves := moves + [m];
      }
    }

    /** The notation of the next move of game g, and the move itself. */
    method WriteNext(m: Move, ghost g: Game<Position, Entry>, ghost n: nat) returns (san: string)
      requires At(g, n) && n < |g.history| && m == g.history[n].move
      modifies this, board
      ensures board == old(board) && At(g, n + 1)
      ensures Transcript(Chess(), Writer(), Prefix(Chess(), g, n + 1)) == Transcript(Chess(), Writer(), Prefix(Chess(), g, n)) + [san]
    {
      PrefixStep(Chess(), g, n);
      ConsistentIsWellFormed(State());
      ChessMove(Pos(), m);
      san := SanOf(m);
      assert san == Writer()(Prefix(Chess(), g, n).pos, m);
      StepForward(m, g, n);
    }

    /** The game so far in algebraic notation, found by taking it back and playing it again. */
    method History() returns (sans: seq<string>)
      requires Valid()
      modifies this, board
      ensures board == old(board) && State() == old(State()) && Valid()
      ensures sans == Transcript(Chess(), Writer(), old(State()))
    {
      ghost var g := State();
      var moves := Rewind(g);
      sans := [];
      ghost var n := 0;
      while |moves| > 0
        invariant board == old(board) && At(g, n) && n + |moves| == |g.history| && ToReplay(g, moves)
        invariant sans == Transcript(Chess(), Writer(), Prefix(Chess(), g, n))
        decreases |moves|
      {
        var m := moves[|moves| - 1];
        moves := moves[..|moves| - 1];
        var san := WriteNext(m, g, n);
        sans := sans + [san];
        n := n + 1;
      }
    }

    /** The repetition key of the position on the board. */
    method KeyNow(ghost g: Game<Position, Entry>, ghost n: nat) returns (key: string)
      requires At(g, n)
      ensures n < |GameKeys(g)| && key == GameKeys(g)[n]
    {
      ConsistentIsWellFormed(State());
      KeyIsKeyFields(Pos());
      var fen := PrintFen();
      key := FirstFour(fen);
    }

    /** Count one more key of a list. */
    static method Tally(positions: map<string, nat>, repetition: bool, key: string, ghost keys: seq<string>, ghost n: nat)
      returns (counted: map<string, nat>, seen: bool)
      requires n < |keys| && key == keys[n] && Counted(positions, keys[..n])
      requires repetition <==> ThriceAmong(keys[..n])
      ensures Counted(counted, keys[..n + 1]) && (seen <==> ThriceAmong(keys[..n + 1]))
    {
      OneMoreKey(keys, n);
      counted := positions[key := if key in positions then positions[key] + 1 else 1];
      seen := repetition || counted[key] >= 3;
    }

    /** Count the key of the present position. */
    method CountHere(positions: map<string, nat>, repetition: bool, ghost g: Game<Position, Entry>, ghost n: nat)
      returns (counted: map<string, nat>, seen: bool)
      requires At(g, n) && n <= |GameKeys(g)| && Counted(positions, GameKeys(g)[..n])
      requires repetition <==> ThriceAmong(GameKeys(g)[..n])
      ensures Counts(counted, seen, KeysTo(g, n))
    {
      var key := KeyNow(g, n);
      KeysToLast(g, n);
      counted, seen := Tally(positions, repetition, key, GameKeys(g), n);
    }

    /** Replay one move and count the position it leads to. */
    method CountNext(m: Move, positions: map<string, nat>, repetition: bool, ghost g: Game<Position, Entry>, ghost n: nat)
      returns (counted: map<string, nat>, seen: bool)
      requires At(g, n) && n < |g.history| && m == g.history[n].move
      requires Counts(positions, repetition, KeysTo(g, n))
      modifies this, board
      ensures board == old(board) && At(g, n + 1) && Counts(counted, seen, KeysTo(g, n + 1))
    {
      StepForward(m, g, n);
      counted, seen := CountHere(positions, repetition, g, n + 1);
    }

    /** Count the first position. */
    method CountFirst(ghost g: Game<Position, Entry>) returns (counted: map<string, nat>, seen: bool)
      requires At(g, 0)
      ensures Counts(counted, seen, KeysTo(g, 0))
    {
      NothingCounted(GameKeys(g));
      counted, seen := CountHere(map[], false, g, 0);
    }

    /** Replay the rewound moves, the last one first, counting every position on the way. */
    method CountAll(moves: seq<Move>, ghost g: Game<Position, Entry>) returns (repetition: bool)
      requires At(g, 0) && |moves| == |g.history| && ToReplay(g, moves)
      modifies this, board
      ensures board == old(board) && At(g, |g.history|)
      ensures repetition <==> ThriceAmong(KeysTo(g, |g.history|))
    {
      var positions;
      positions, repetition := CountFirst(g);
      ghost var n := 0;
      var k := |moves|;
      while k > 0
        invariant board == old(board) && 0 <= k <= |moves| && n == |moves| - k && At(g, n)
        invariant Counts(positions, repetition, KeysTo(g, n))
      {
        k := k - 1;
        positions, repetition := CountNext(moves[k], positions, repetition, g, n);
        n := n + 1;
      }
    }

    /** Rewind the game, replay it, and tell whether some situation came up three times. */
    method InThreefoldRepetition() returns (repetition: bool)
      requires Valid()
      modifies this, board
      ensures board == old(board) && State() == old(State()) && Valid()
      ensures repetition <==> Threefold(Positions(Chess(), old(State())))
    {
      ghost var g := State();
      var moves := Rewind(g);
      repetition := CountAll(moves, g);
      ThreefoldByKeys(g);
      PrefixIsAll(g);
    }

    // ------------------------------------------------------ counting lines

    /** The lines behind the move just made by `color`, none if it left its king attacked. */
    method CountBehind(color: Color, depth: int) returns (nodes: nat)
      requires board.Length == 128 && Sound(Pos()) && color == turn.Other()
      modifies this, board
      ensures board == old(board) && State() == old(State())
      ensures nodes == if WellFormed(old(Pos())) then |Lines(Chess(), old(Pos()), Depth(depth) - 1)| else 0
      decreases Depth(depth), 0
    {
      var attacked := IsKingAttacked(color);
      if attacked {
        return 0;
      }
      if depth - 1 > 0 {
        nodes := Perft(depth - 1);
      } else {
        nodes := 1;
      }
    }

    /** Make one pseudo-legal move, count the lines behind it, take it back. */
    method CountAfter(m: Move, depth: int) returns (nodes: nat)
      requires board.Length == 128 && WellFormed(Pos()) && PseudoLegal(Pos(), m)
      modifies this, board
      ensures board == old(board) && State() == old(State())
      ensures nodes == LinesBehind(Chess(), old(Pos()), m, LegalAt(old(Pos())), Depth(depth))
      decreases Depth(depth), 1
    {
      ghost var p, before := Pos(), history;
      var color := turn;
      MoveKeepsSound(p, m);
      LegalIffWellFormedAfter(p, m);
      UndoRestores(p, m);
      MakeMove(m);
      ghost var after := State();
      nodes := CountBehind(color, depth);
      assert State() == after;
      assert Last(history) == EntryOf(p, m);
      var undone := UndoMove();
      assert history == before;
    }

    /** The number of lines of play of the given depth, by making and taking back moves. */
    method Perft(depth: int) returns (nodes: nat)
      requires board.Length == 128 && WellFormed(Pos())
      modifies this, board
      ensures board == old(board) && State() == old(State())
      ensures nodes == |Lines(Chess(), old(Pos()), Depth(depth))|
      decreases Depth(depth), 2
    {
      ghost var g := State();
      var moves := PseudoMovesOf(None);
      nodes := 0;
      for i := 0 to |moves|
        invariant board == old(board) && State() == g
        invariant nodes == LinesBehindAll(Chess(), g.pos, moves[..i], LegalAt(g.pos), Depth(depth))
      {
        GeneratedIffPseudoLegal(g.pos, None, moves[i]);
        var more := CountAfter(moves[i], depth);
        LinesBehindOneMore(Chess(), g.pos, moves, i, LegalAt(g.pos), Depth(depth));
        nodes := nodes + more;
      }
      assert moves[..|moves|] == moves;
      LinesBehindPseudoMoves(g.pos, Depth(depth));
    }

    // ----------------------------------------------------------- material

    method CountPieces() returns (pieces: map<Kind, nat>, shades: seq<int>, count: nat)
      requires board.Length == 128
      ensures Scanned(board[..], 128, pieces, shades, count)
    {
      pieces, shades, count := map[], [], 0;
      var shade := 0;
      var i := 0;
      while i <= 119
        invariant 0 <= i <= 120 && i % 16 <= 8 && shade == (i / 16 + i % 16) % 2
        invariant Scanned(board[..], i, pieces, shades, count)
      {
        ShadeAlternates(i);
        shade := (shade + 1) % 2;
        ScanStep(i);
        if OffBoard(i) {
          ScanGap(board[..], i, pieces, shades, count);
          i := i + 8;
          continue;
        }
        ScanPiece(board[..], i, pieces, shades, count);
        if board[i].Full? {
          var kind := board[i].piece.kind;
          pieces := OneMore(pieces, kind);
          if kind == Bishop {
            shades := shades + [shade];
          }
          count := count + 1;
        }
        i := i + 1;
      }
      ScanGap(board[..], i, pieces, shades, count);
    }

    method InsufficientMaterial() returns (insufficient: bool)
      requires board.Length == 128
      ensures insufficient <==> Insufficient(board[..])
    {
      var pieces, shades, count := CountPieces();
      if count == 2 {
        return true;
      } else if count == 3 && ((Bishop in pieces && pieces[Bishop] == 1) || (Knight in pieces && pieces[Knight] == 1)) {
        return true;
      } else if Bishop in pieces && count == pieces[Bishop] + 2 {
        var sum := 0;
        for i := 0 to |shades|
          invariant sum == Sum(shades[..i])
        {
          assert shades[..i + 1][..i] == shades[..i];
          sum := sum + shades[i];
        }
        assert shades[..|shades|] == shades;
        ShadesTellOneShade(board[..], shades);
        if sum == 0 || sum == |shades| {
          return true;
        }
      }
      return false;
    }

    // ------------------------------------------------ validating and loading

    /** One row of the board field, character by character. */
    static method ValidateRow(row: string) returns (error: int)
      ensures error == RowError(row, 0, false)
    {
      var sum := 0;
      var wasNumber := false;
      for k := 0 to |row|
        invariant RowError(row[k..], sum, wasNumber) == RowError(row, 0, false)
      {
        assert row[k..][0] == row[k] && row[k..][1..] == row[k + 1..];
        if IsDigit(row[k]) {
          if wasNumber {
            return 8;
          }
          sum := sum + DigitValue(row[k]);
          wasNumber := true;
        } else {
          if !PieceChar(row[k]) {
            return 9;
          }
          sum := sum + 1;
          wasNumber := false;
        }
      }
      if sum != 8 {
        return 10;
      }
      return 0;
    }

    static method ValidateRows(rows: seq<string>) returns (error: int)
      ensures error == RowsError(rows)
    {
      for i := 0 to |rows|
        invariant RowsError(rows[i..]) == RowsError(rows)
      {
        assert rows[i..][0] == rows[i] && rows[i..][1..] == rows[i + 1..];
        error := ValidateRow(rows[i]);
        if error != 0 {
          return;
        }
      }
      return 0;
    }

    /** The tests on the six fields, in order; the number of the first that fails. */
    static method ValidateFen(fen: string) returns (error: int)
      ensures error == FenError(fen)
    {
      var tokens := SplitSpaces(fen);
      if |tokens| != 6 {
        return 1;
      }
      if BadNumber(tokens[5], 1) {
        return 2;
      }
      if BadNumber(tokens[4], 0) {
        return 3;
      }
      if !ValidEp(tokens[3]) {
        return 4;
      }
      if !ValidRights(tokens[2]) {
        return 5;
      }
      if tokens[1] != "w" && tokens[1] != "b" {
        return 6;
      }
      var rows := SplitOn(tokens[0], '/');
      if |rows| != 8 {
        return 7;
      }
      error := ValidateRows(rows);
      if error != 0 {
        return;
      }
      if EpOfWrongSide(tokens[3], tokens[1]) {
        return 11;
      }
      return 0;
    }

    /** A fresh, empty board with white to move. */
    method ClearBoard()
      modifies this
      ensures fresh(board) && board.Length == 128 && Setup(board[..], kings) == Blank()
      ensures turn == White && castling == Pair(Rights(false, false), Rights(false, false)) && ep == EMPTY
      ensures halfMoves == 0 && moveNumber == 1 && history == []
    {
      board := new Cell[128](i => Empty);
      kings := Pair(EMPTY, EMPTY);
      turn := White;
      castling := Pair(Rights(false, false), Rights(false, false));
      ep, halfMoves, moveNumber, history := EMPTY, 0, 1, [];
      assert board[..] == Blank().board;
    }

    /** Put a piece down, unless the square is none or the colour has its king elsewhere. */
    method PutPiece(piece: Piece, square: int)
      requires board.Length == 128
      modifies `kings, board
      ensures board == old(board) && Setup(board[..], kings) == Put(old(Setup(board[..], kings)), piece, square)
    {
      if !OnBoard(square) {
        return;
      }
      if piece.kind == King && !(kings.Of(piece.color) == EMPTY || kings.Of(piece.color) == square) {
        return;
      }
      board[square] := Full(piece);
      if piece.kind == King {
        kings := kings.With(piece.color, square);
      }
    }

    method FillBoard(position: string)
      requires board.Length == 128
      modifies `kings, board
      ensures board == old(board) && Setup(board[..], kings) == Fill(old(Setup(board[..], kings)), position, 0)
    {
      var square := 0;
      ghost var goal := Fill(Setup(board[..], kings), position, 0);
      for i := 0 to |position|
        invariant board == old(board)
        invariant Fill(Setup(board[..], kings), position[i..], square) == goal
      {
        var piece := position[i];
        assert position[i..][0] == piece && position[i..][1..] == position[i + 1..];
        if piece == '/' {
          square := square + 8;
        } else if IsDigit(piece) {
          square := square + DigitValue(piece);
        } else {
          if PieceChar(piece) {
            PutPiece(PieceOf(piece), square);
          }
          square := square + 1;
        }
      }
    }

    /** Load a text: refused texts change nothing; an accepted one replaces the whole state. */
    method LoadFen(fen: string) returns (outcome: Outcome)
      requires board.Length == 128
      modifies this
      ensures outcome == Load(fen)
      ensures outcome.Refused? ==> board == old(board) && State() == old(State())
      ensures !outcome.Refused? ==> fresh(board) && board.Length == 128 && history == []
      ensures outcome.Loaded? ==> Pos() == outcome.pos
    {
      var error := ValidateFen(fen);
      if error != 0 {
        return Refused(error);
      }
      outcome := LoadTokens(SplitSpaces(fen));
    }

    /** A fresh board with the pieces of a board field, and no history. */
    method SetBoard(position: string)
      modifies this
      ensures fresh(board) && board.Length == 128 && history == []
      ensures Setup(board[..], kings) == Fill(Blank(), position, 0)
    {
      ClearBoard();
      FillBoard(position);
    }

    /** What the three fields after the board field say. */
    method SetRecords(turnText: string, rights: string, epText: string)
      requires ValidEp(epText)
      modifies this`turn, this`castling, this`ep
      ensures turn == if turnText == "w" then White else Black
      ensures castling == RightsOf(rights) && ep == if epText == "-" then EMPTY else SquareOf(epText)
    {
      turn := if turnText == "w" then White else Black;
      castling := RightsOf(rights);
      ep := if epText == "-" then EMPTY else SquareOf(epText);
    }

    /** Replace the whole state by what six valid fields say. */
    method LoadTokens(tokens: seq<string>) returns (outcome: Outcome)
      requires FieldsError(tokens) == 0
      modifies this
      ensures outcome == LoadFields(tokens) && !outcome.Refused?
      ensures fresh(board) && board.Length == 128 && history == []
      ensures outcome.Loaded? ==> Pos() == outcome.pos
    {
      SetBoard(tokens[0]);
      SetRecords(tokens[1], tokens[2], tokens[3]);
      var halfMovesRead, moveNumberRead := ParseInt(tokens[4]), ParseInt(tokens[5]);
      if halfMovesRead.None? || moveNumberRead.None? {
        return Unnumbered;
      }
      halfMoves, moveNumber := halfMovesRead.value, moveNumberRead.value;
      LoadedFields(tokens, Setup(board[..], kings));
      outcome := Loaded(Position(board[..], kings, turn, castling, ep, halfMoves, moveNumber));
    }

    /** Without a text the starting position is loaded. */
    constructor (fen: string := Start.DEFAULT_POSITION)
      ensures board.Length == 128 && fresh(board)
      ensures Load(fen).Loaded? ==> Pos() == Load(fen).pos && history == []
      ensures Load(fen).Loaded? && WellFormed(Load(fen).pos) ==> Valid()
      ensures fen == Start.DEFAULT_POSITION ==> Pos() == Start.StartPosition() && Valid()
    {
      board := new Cell[128](i => Empty);
      kings := Pair(EMPTY, EMPTY);
      turn := White;
      castling := Pair(Rights(false, false), Rights(false, false));
      ep, halfMoves, moveNumber, history := EMPTY, 0, 1, [];
      new;
      var outcome := LoadFen(fen);
      if fen == Start.DEFAULT_POSITION {
        Start.DefaultIsStart(fen);
        Start.StartIsWellFormed();
      }
    }
  }

  /** What six valid fields give, once the board field has been read. */
  lemma LoadedFields(t: seq<string>, s: Setup)
    requires FieldsError(t) == 0 && s == Fill(Blank(), t[0], 0)
    requires ParseInt(t[4]).Some? && ParseInt(t[5]).Some?
    ensures LoadFields(t) == Loaded(Position(s.board, s.kings, if t[1] == "w" then White else Black, RightsOf(t[2]),
                                             if t[3] == "-" then EMPTY else SquareOf(t[3]),
                                             ParseInt(t[4]).value, ParseInt(t[5]).value))
  {
  }

  /** The depth that is actually searched: requests below one count as one. */
  function Depth(depth: int): nat
    ensures Depth(depth) >= 1
  {
    if depth > 1 then depth else 1
  }

  ghost function LegalAt(p: Position): Move -> bool
    requires Sound(p)
  {
    (m: Move) => Sound(p) && Legal(p, m)
  }

  lemma {:induction false} LegalOnlyIsFilter(p: Position, ms: seq<Move>)
    requires Sound(p) && forall m :: m in ms ==> PseudoLegal(p, m)
    ensures LegalOnly(p, ms) == Filter(ms, LegalAt(p))
  {
    if ms != [] {
      LegalOnlyIsFilter(p, ms[..|ms| - 1]);
    }
  }

  /** Counting behind all pseudo-legal moves counts the lines of legal play. */
  lemma LinesBehindPseudoMoves(p: Position, depth: nat)
    requires Sound(p) && depth >= 1
    ensures LinesBehindAll(Chess(), p, PseudoMoves(p, None), LegalAt(p), depth) == |Lines(Chess(), p, depth)|
  {
    PseudoMovesArePseudoLegal(p, None);
    LegalOnlyIsFilter(p, PseudoMoves(p, None));
    LinesBehindKept(Chess(), p, PseudoMoves(p, None), LegalAt(p), depth);
  }

  /** The moves of a game still to be made again, last first. */
  ghost predicate ToReplay(g: Game<Position, Entry>, moves: seq<Move>) {
    |moves| <= |g.history| && forall k :: 0 <= k < |moves| ==> moves[k] == g.history[|g.history| - 1 - k].move
  }

  lemma ToReplayMore(g: Game<Position, Entry>, moves: seq<Move>, m: Move)
    requires ToReplay(g, moves) && |moves| < |g.history| && m == g.history[|g.history| - 1 - |moves|].move
    ensures ToReplay(g, moves + [m])
  {
  }

  lemma NothingCounted(keys: seq<string>)
    ensures Counted(map[], keys[..0]) && !ThriceAmong(keys[..0])
  {
  }

  /** One key for every position of a game. */
  lemma GameKeysCount(g: Game<Position, Entry>)
    requires Consistent(Chess(), g)
    ensures |GameKeys(g)| == |g.history| + 1
  {
    PositionsAreSound(g);
  }

  lemma GameKeysTell(g: Game<Position, Entry>)
    requires Consistent(Chess(), g)
    ensures ThriceAmong(GameKeys(g)) <==> Threefold(Positions(Chess(), g))
  {
    PositionsAreSound(g);
    KeysDecideThreefold(Positions(Chess(), g));
  }

  lemma WholePrefix<T>(s: seq<T>, n: nat)
    requires n == |s|
    ensures s[..n] == s
  {
  }

  /** Counting all keys of a game decides repetition along it. */
  lemma GameKeysDecide(g: Game<Position, Entry>)
    requires Consistent(Chess(), g)
    ensures |GameKeys(g)| == |g.history| + 1
    ensures ThriceAmong(GameKeys(g)[..|g.history| + 1]) <==> Threefold(Positions(Chess(), g))
  {
    GameKeysCount(g);
    GameKeysTell(g);
    WholePrefix(GameKeys(g), |g.history| + 1);
  }

  /** The table holds the number of occurrences of every key. */
  ghost predicate Counted(positions: map<string, nat>, keys: seq<string>) {
    forall key :: (if key in positions then positions[key] else 0) == Occurrences(keys, key)
  }

  /** The table counts the keys, and the answer is whether one of them came up three times. */
  ghost predicate Counts(positions: map<string, nat>, repetition: bool, keys: seq<string>) {
    Counted(positions, keys) && (repetition <==> ThriceAmong(keys))
  }

  /** The keys of the positions up to the n-th. */
  ghost function KeysTo(g: Game<Position, Entry>, n: nat): seq<string>
    requires Consistent(Chess(), g) && n <= |g.history|
  {
    GameKeysDecide(g);
    GameKeys(g)[..n + 1]
  }

  lemma ThreefoldByKeys(g: Game<Position, Entry>)
    requires Consistent(Chess(), g)
    ensures ThriceAmong(KeysTo(g, |g.history|)) <==> Threefold(Positions(Chess(), g))
  {
    GameKeysDecide(g);
  }

  lemma PrefixIsAll(g: Game<Position, Entry>)
    ensures Prefix(Chess(), g, |g.history|) == g
  {
  }

  lemma KeysToLast(g: Game<Position, Entry>, n: nat)
    requires Consistent(Chess(), g) && n <= |g.history|
    ensures n < |GameKeys(g)| && KeysTo(g, n) == GameKeys(g)[..n + 1]
  {
    GameKeysDecide(g);
  }

  /** The rest of the board field after row r. */
  function RowsAfter(board: seq<Cell>, r: nat): string
    requires |board| == 128 && r < 8
    decreases 8 - r
  {
    if r == 7 then "" else "/" + RowText(board, r + 1, 0, 0) + RowsAfter(board, r + 1)
  }

  lemma {:induction false} RowsAfterIsJoin(board: seq<Cell>, r: nat)
    requires |board| == 128 && r < 8
    ensures Join(Rows(board)[r..], '/') == RowText(board, r, 0, 0) + RowsAfter(board, r)
    decreases 8 - r
  {
    JoinFrom(Rows(board), r, '/');
    if r < 7 {
      RowsAfterIsJoin(board, r + 1);
      Reassociate("/", RowText(board, r + 1, 0, 0), RowsAfter(board, r + 1));
    }
  }

  /** The board field when `fen` has been printed, file f of row r is next and `empty` squares are pending. */
  function TextFrom(fen: string, board: seq<Cell>, r: nat, f: nat, empty: nat): string
    requires |board| == 128 && r < 8 && f <= 8 && empty <= f
  {
    fen + RowText(board, r, f, empty) + RowsAfter(board, r)
  }

  lemma TextStarts(board: seq<Cell>)
    requires |board| == 128
    ensures TextFrom("", board, 0, 0, 0) == BoardText(board)
  {
    RowsAfterIsJoin(board, 0);
    assert Rows(board)[0..] == Rows(board);
    assert "" + RowText(board, 0, 0, 0) == RowText(board, 0, 0, 0);
  }

  lemma TextAlong(fen: string, text: string, board: seq<Cell>, r: nat, f: nat, empty: nat, pending: nat)
    requires |board| == 128 && r < 8 && f < 8 && empty <= f && pending <= f + 1
    requires RowText(board, r, f, empty) == text + RowText(board, r, f + 1, pending)
    ensures TextFrom(fen + text, board, r, f + 1, pending) == TextFrom(fen, board, r, f, empty)
  {
    assert fen + (text + RowText(board, r, f + 1, pending)) == fen + text + RowText(board, r, f + 1, pending);
  }

  /** After a row but the last come its pending count and a separator. */
  lemma TextNextRow(fen: string, board: seq<Cell>, r: nat, empty: nat)
    requires |board| == 128 && r < 7 && empty <= 8
    ensures TextFrom(fen + Count(empty) + "/", board, r + 1, 0, 0) == TextFrom(fen, board, r, 8, empty)
  {
    var row, after := RowText(board, r + 1, 0, 0), RowsAfter(board, r + 1);
    assert fen + Count(empty) + ("/" + row + after) == fen + Count(empty) + "/" + row + after;
  }

  lemma TextEnds(fen: string, board: seq<Cell>, empty: nat)
    requires |board| == 128 && empty <= 8
    ensures TextFrom(fen, board, 7, 8, empty) == fen + Count(empty)
  {
  }

  /** Only the last file of a row is followed by an index off the board; the next row begins nine further. */
  lemma RowEnds(i: int, r: nat, f: nat)
    requires i == 16 * r + f && r < 8 && f < 8
    ensures OffBoard(i + 1) <==> f == 7
    ensures f < 7 ==> OnBoard(i + 1) && Rank(i + 1) == r && File(i + 1) == f + 1
    ensures f == 7 && r < 7 ==> OnBoard(i + 9) && Rank(i + 9) == r + 1 && File(i + 9) == 0
    ensures f == 7 ==> (i == 119 <==> r == 7)
  {
    OffBoardIsOutside(i + 1);
    assert (i + 1) / 16 == r && (i + 1) % 16 == f + 1;
    if f == 7 {
      assert i + 9 == 16 * (r + 1);
    }
  }

  lemma IndexAfter(i: int, r: nat, f: nat)
    requires i == 16 * r + f && r < 8 && f < 8
    ensures f < 7 ==> OnBoard(i + 1) && i + 1 <= 119 && Rank(i + 1) == r && File(i + 1) == f + 1
    ensures f == 7 && r < 7 ==> OnBoard(i + 9) && i + 9 <= 112 && Rank(i + 9) == r + 1 && File(i + 9) == 0
    ensures f == 7 && r == 7 ==> i + 9 == 128
  {
    RowEnds(i, r, f);
  }

  /** What a caller asks for; a promotion piece matters only if the move promotes. */
  predicate Asked(m: Move, from: string, to: string, promotion: Option<Kind>) {
    OnBoard(m.from) && OnBoard(m.to) && from == Algebraic(m.from) && to == Algebraic(m.to)
    && (m.promotion == None || promotion == m.promotion)
  }

  /** A request fits at most one legal move. */
  lemma AskedIsUnique(p: Position, a: Move, b: Move, from: string, to: string, promotion: Option<Kind>)
    requires Sound(p) && Legal(p, a) && Legal(p, b)
    requires Asked(a, from, to, promotion) && Asked(b, from, to, promotion)
    ensures a == b
  {
    SquareTextInjective(a.from, b.from);
    SquareTextInjective(a.to, b.to);
    KeyDeterminesMove(p, a, b);
  }

  lemma LegalMovesOnBoard(p: Position)
    requires Sound(p)
    ensures forall m :: m in LegalMoves(p, None) ==> OnBoard(m.from) && OnBoard(m.to)
  {
    LegalMovesExact(p, None);
  }

  lemma ConsistentIsWellFormed(g: Game<Position, Entry>)
    requires Consistent(Chess(), g)
    ensures WellFormed(g.pos)
  {
  }

  lemma LegalIsListed(g: Game<Position, Entry>, m: Move)
    requires Consistent(Chess(), g) && (ConsistentIsWellFormed(g); Legal(g.pos, m))
    ensures m in Chess().moves(g.pos)
  {
    LegalMovesExact(g.pos, None);
  }

  lemma LastIsUndoable(g: Game<Position, Entry>)
    requires Consistent(Chess(), g)
    ensures g.history != [] ==> Undoable(g.pos.board, Last(g.history)) && TakenBack(Chess(), g).pos == Undone(g.pos, Last(g.history))
    ensures Consistent(Chess(), TakenBack(Chess(), g))
  {
    if g.history != [] {
      var before, m := TakenBack(Chess(), g), LastMove(Chess(), g);
      ChessMove(before.pos, m);
    }
  }

  lemma {:induction false} FirstNamedIsListed(p: Position, ms: seq<Move>, clean: string)
    requires WellFormed(p) && forall m :: m in ms ==> Legal(p, m)
    ensures FirstNamed(p, ms, clean).Found? ==> FirstNamed(p, ms, clean).move in ms
  {
    if ms != [] {
      assert ms[0] in ms;
      FirstNamedIsListed(p, ms[1..], clean);
    }
  }

  lemma FoundIsLegal(p: Position, text: string)
    requires WellFormed(p)
    ensures MoveFromSan(p, text).Found? ==> Legal(p, MoveFromSan(p, text).move)
  {
    LegalMovesExact(p, None);
    FirstNamedIsListed(p, LegalMoves(p, None), StrippedSan(text));
  }

  lemma PositionsAreSound(g: Game<Position, Entry>)
    requires Consistent(Chess(), g)
    ensures forall n :: 0 <= n < |Positions(Chess(), g)| ==> Sound(Positions(Chess(), g)[n])
  {
    forall n | 0 <= n <= |g.history|
      ensures Sound(Positions(Chess(), g)[n])
    {
      PrefixConsistent(Chess(), g, n);
    }
  }

  ghost function GameKeys(g: Game<Position, Entry>): seq<string>
    requires Consistent(Chess(), g)
  {
    PositionsAreSound(g);
    Keys(Positions(Chess(), g))
  }

  lemma OneMoreKey(keys: seq<string>, n: nat)
    requires n < |keys|
    ensures forall k :: Occurrences(keys[..n + 1], k) == Occurrences(keys[..n], k) + if k == keys[n] then 1 else 0
    ensures ThriceAmong(keys[..n + 1]) <==> ThriceAmong(keys[..n]) || Occurrences(keys[..n + 1], keys[n]) >= 3
  {
    var more, some := keys[..n + 1], keys[..n];
    assert more[..n] == some && more[n] == keys[n];
    if ThriceAmong(some) {
      var k :| Occurrences(some, k) >= 3;
      assert Occurrences(more, k) >= 3;
    }
    if ThriceAmong(more) {
      var k :| Occurrences(more, k) >= 3;
      assert k != keys[n] ==> Occurrences(some, k) >= 3;
    }
  }

  lemma BothMembers(a: int, b: int)
    ensures forall s :: s in [a, b] <==> s == a || s == b
  {
  }

  lemma ThreeMembers(a: int, b: int, c: int)
    ensures forall s :: s in [a, b, c] <==> s == a || s == b || s == c
  {
  }

  lemma BeyondRow(n: nat, k: nat)
    requires n % 16 == 8 && k < 8
    ensures !OnBoard(n + k)
  {
  }

  /** The eight indices after a row contribute no moves. */
  lemma {:induction false} MovesSkip(p: Position, n: nat, k: nat)
    requires |p.board| == 128 && PawnsInside(p.board) && n % 16 == 8 && k <= 8
    ensures MovesBelow(p, n + k) == MovesBelow(p, n)
  {
    if k > 0 {
      MovesSkip(p, n, k - 1);
      BeyondRow(n, k - 1);
      assert SquareMoves(p, n + k - 1) == [];
    }
  }

  lemma MovesEnd(p: Position, n: nat)
    requires |p.board| == 128 && PawnsInside(p.board) && n == 120
    ensures MovesBelow(p, n) == MovesBelow(p, |p.board|)
  {
    MovesSkip(p, n, |p.board| - n);
  }

  lemma MissedByTable(board: seq<Cell>, from: int, to: int)
    requires |board| == 128 && OnBoard(from) && OnBoard(to) && board[from].Full?
    requires !MaskBit(board[from].piece.kind, from, to)
    ensures !Bears(board, from, to)
  {
    var kind := board[from].piece.kind;
    if kind == Pawn {
      PawnTable(board, from, to);
    } else if Leaper(kind) {
      LeaperTable(board, from, to);
    } else {
      SliderTable(board, from, to);
    }
  }
}
