/** The move generator: the list it builds, in its order, and why that list is exactly the rules of movement. */
module Generation {
  import opened Basics
  import opened Board
  import opened Attack
  import opened Rules

  function BuildMove(p: Position, from: int, to: int, flag: Flag, promotion: Option<Kind>): Move
    requires |p.board| == 128 && OnBoard(from) && OnBoard(to) && p.board[from].Full?
  {
    Move(p.turn, from, to, flag, p.board[from].piece.kind, promotion,
         if p.board[to].Full? then Some(p.board[to].piece.kind) else if flag == EpCapture then Some(Pawn) else None)
  }

  /** A pawn move to an end rank stands for four moves. */
  function AddMove(p: Position, from: int, to: int, flag: Flag): seq<Move>
    requires |p.board| == 128 && OnBoard(from) && OnBoard(to) && p.board[from].Full?
  {
    if p.board[from].piece.kind == Pawn && (Rank(to) == 0 || Rank(to) == 7) then
      [BuildMove(p, from, to, flag, Some(Queen)), BuildMove(p, from, to, flag, Some(Rook)),
       BuildMove(p, from, to, flag, Some(Bishop)), BuildMove(p, from, to, flag, Some(Knight))]
    else
      [BuildMove(p, from, to, flag, None)]
  }

  predicate PawnHere(p: Position, from: int) {
    |p.board| == 128 && OnBoard(from) && 1 <= Rank(from) <= 6 && p.board[from].Has(Pawn, p.turn)
  }

  function PawnPushes(p: Position, from: int): seq<Move>
    requires PawnHere(p, from)
  {
    var one, two := from + PawnOffsets(p.turn)[0], from + PawnOffsets(p.turn)[1];
    if p.board[one].Full? then []
    else
      AddMove(p, from, one, Normal) +
      if SecondRank(p.turn) == Rank(from) && p.board[two].Empty? then AddMove(p, from, two, BigPawn) else []
  }

  /** The capture towards one of the two diagonals, j being 2 or 3. */
  function PawnCapture(p: Position, from: int, j: int): seq<Move>
    requires PawnHere(p, from) && 2 <= j <= 3
  {
    var to := from + PawnOffsets(p.turn)[j];
    OffBoardIsOutside(to);
    if OffBoard(to) then []
    else if p.board[to].Owned(p.turn.Other()) then AddMove(p, from, to, Capture)
    else if to == p.ep then AddMove(p, from, p.ep, EpCapture)
    else []
  }

  predicate PieceHere(p: Position, from: int) {
    |p.board| == 128 && OnBoard(from) && p.board[from].Owned(p.turn) && p.board[from].piece.kind != Pawn
  }

  predicate Step(offset: int) {
    offset != 0 && -33 <= offset <= 33
  }

  /** What is left of the walk along one offset, standing on `at`. */
  function RayMoves(p: Position, from: int, at: int, offset: int): seq<Move>
    requires PieceHere(p, from) && OnBoard(at) && Step(offset)
    decreases if offset > 0 then 128 - at else at
  {
    var next := at + offset;
    OffBoardIsOutside(next);
    if OffBoard(next) then []
    else if p.board[next].Empty? then
      AddMove(p, from, next, Normal) +
      if Leaper(p.board[from].piece.kind) then [] else RayMoves(p, from, next, offset)
    else if p.board[next].piece.color == p.turn then []
    else AddMove(p, from, next, Capture)
  }

  lemma OffsetsAreSteps(kind: Kind)
    requires kind != Pawn
    ensures forall offset :: offset in Offsets(kind) ==> Step(offset)
    ensures |Offsets(kind)| <= 8
  {
    match kind case Knight => case Bishop => case Rook => case Queen => case King =>
  }

  /** The moves of a piece along its first n offsets. */
  function PieceMoves(p: Position, from: int, n: nat): seq<Move>
    requires PieceHere(p, from) && n <= |Offsets(p.board[from].piece.kind)|
  {
    OffsetsAreSteps(p.board[from].piece.kind);
    if n == 0 then []
    else PieceMoves(p, from, n - 1) + RayMoves(p, from, from, Offsets(p.board[from].piece.kind)[n - 1])
  }

  /** The moves, castling aside, of whatever stands on one square. */
  function SquareMoves(p: Position, from: int): seq<Move>
    requires |p.board| == 128 && PawnsInside(p.board)
  {
    if !OnBoard(from) || !p.board[from].Owned(p.turn) then []
    else if p.board[from].piece.kind == Pawn then
      PawnPushes(p, from) + PawnCapture(p, from, 2) + PawnCapture(p, from, 3)
    else PieceMoves(p, from, |Offsets(p.board[from].piece.kind)|)
  }

  function MovesBelow(p: Position, n: nat): seq<Move>
    requires |p.board| == 128 && PawnsInside(p.board)
  {
    if n == 0 then [] else MovesBelow(p, n - 1) + SquareMoves(p, n - 1)
  }

  ghost function KsideMoves(p: Position): seq<Move>
    requires Sound(p)
  {
    var king := p.kings.Of(p.turn);
    if p.castling.Of(p.turn).kside && CastleClear(p, [king + 1, king + 2], [king, king + 1, king + 2])
    then (assert king + 2 in [king + 1, king + 2]; AddMove(p, king, king + 2, KsideCastle))
    else []
  }

  ghost function QsideMoves(p: Position): seq<Move>
    requires Sound(p)
  {
    var king := p.kings.Of(p.turn);
    if p.castling.Of(p.turn).qside && CastleClear(p, [king - 1, king - 2, king - 3], [king, king - 1, king - 2])
    then (assert king - 2 in [king - 1, king - 2, king - 3]; AddMove(p, king, king - 2, QsideCastle))
    else []
  }

  ghost function CastleMoves(p: Position): seq<Move>
    requires Sound(p)
  {
    KsideMoves(p) + QsideMoves(p)
  }

  /** The pseudo-legal moves in the order of the generator, of all squares or of a single one. */
  ghost function PseudoMoves(p: Position, only: Option<int>): seq<Move>
    requires Sound(p)
  {
    match only
    case None => MovesBelow(p, |p.board|) + CastleMoves(p)
    case Some(square) =>
      if !OnBoard(square) then []
      else SquareMoves(p, square) + if square == p.kings.Of(p.turn) then CastleMoves(p) else []
  }

  // ------------------------------------------------------------- membership

  lemma AddMoveMember(p: Position, from: int, to: int, flag: Flag, m: Move)
    requires |p.board| == 128 && OnBoard(from) && OnBoard(to) && p.board[from].Full?
    ensures m in AddMove(p, from, to, flag) <==>
            m == BuildMove(p, from, to, flag, m.promotion) && PromotionFits(m)
  {
  }

  ghost predicate RayMove(p: Position, from: int, offset: int, n: nat, m: Move)
    requires PieceHere(p, from)
  {
    && Slides(p.board, from, m.to, offset, n) && !p.board[m.to].Owned(p.turn)
    && m == BuildMove(p, from, m.to, if p.board[m.to].Empty? then Normal else Capture, None)
  }

  /** A move to a square more than k steps along an offset. */
  ghost predicate Later(p: Position, from: int, offset: int, k: nat, m: Move)
    requires PieceHere(p, from)
  {
    exists n :: n > k && (Leaper(p.board[from].piece.kind) ==> n == 1) && RayMove(p, from, offset, n, m)
  }

  lemma LaterSplits(p: Position, from: int, offset: int, k: nat, m: Move)
    requires PieceHere(p, from)
    ensures Later(p, from, offset, k, m) <==>
            ((Leaper(p.board[from].piece.kind) ==> k == 0) && RayMove(p, from, offset, k + 1, m)) || Later(p, from, offset, k + 1, m)
  {
  }

  lemma LaterOffBoard(p: Position, from: int, offset: int, k: nat, m: Move)
    requires PieceHere(p, from) && !OnBoard(Walk(from, offset, k + 1))
    ensures !Later(p, from, offset, k, m)
  {
  }

  lemma LaterBlocked(p: Position, from: int, offset: int, k: nat, m: Move)
    requires PieceHere(p, from) && OnBoard(Walk(from, offset, k + 1)) && p.board[Walk(from, offset, k + 1)].Full?
    ensures !Later(p, from, offset, k + 1, m)
  {
  }

  lemma LaterForLeaper(p: Position, from: int, offset: int, k: nat, m: Move)
    requires PieceHere(p, from) && Leaper(p.board[from].piece.kind) && k >= 1
    ensures !Later(p, from, offset, k, m)
  {
  }

  /** The walk yields a move for each square reached up to the first piece, that one included if hostile. */
  lemma {:induction false} RayMember(p: Position, from: int, offset: int, k: nat, m: Move)
    requires PieceHere(p, from) && Step(offset)
    requires k > 0 ==> !Leaper(p.board[from].piece.kind)
    requires forall t :: 1 <= t <= k ==> OnBoard(Walk(from, offset, t)) && p.board[Walk(from, offset, t)].Empty?
    ensures OnBoard(Walk(from, offset, k))
    ensures m in RayMoves(p, from, Walk(from, offset, k), offset) <==> Later(p, from, offset, k, m)
    decreases if offset > 0 then 128 - Walk(from, offset, k) else Walk(from, offset, k)
  {
    assert k > 0 ==> OnBoard(Walk(from, offset, k));
    var next := Walk(from, offset, k + 1);
    assert next == Walk(from, offset, k) + offset;
    OffBoardIsOutside(next);
    if !OnBoard(next) {
      LaterOffBoard(p, from, offset, k, m);
    } else {
      RayStep(p, from, offset, k, m);
      LaterSplits(p, from, offset, k, m);
      if p.board[next].Full? {
        LaterBlocked(p, from, offset, k, m);
      } else if Leaper(p.board[from].piece.kind) {
        LaterForLeaper(p, from, offset, k + 1, m);
      } else {
        RayMember(p, from, offset, k + 1, m);
      }
    }
  }

  /** The move to the next square of a walk, if there is one. */
  lemma RayStep(p: Position, from: int, offset: int, k: nat, m: Move)
    requires PieceHere(p, from) && Step(offset) && OnBoard(Walk(from, offset, k + 1))
    requires forall t :: 1 <= t <= k ==> OnBoard(Walk(from, offset, t)) && p.board[Walk(from, offset, t)].Empty?
    ensures var next := Walk(from, offset, k + 1);
            RayMove(p, from, offset, k + 1, m) <==>
            !p.board[next].Owned(p.turn)
            && m in AddMove(p, from, next, if p.board[next].Empty? then Normal else Capture)
  {
    var next := Walk(from, offset, k + 1);
    AddMoveMember(p, from, next, if p.board[next].Empty? then Normal else Capture, m);
    assert Clear(p.board, from, offset, k + 1);
  }

  ghost predicate OnRay(p: Position, from: int, offset: int, m: Move)
    requires PieceHere(p, from)
  {
    Later(p, from, offset, 0, m)
  }

  /** A move on one of the first n rays of a piece. */
  ghost predicate OnRays(p: Position, from: int, n: nat, m: Move)
    requires PieceHere(p, from) && n <= |Offsets(p.board[from].piece.kind)|
  {
    exists j :: 0 <= j < n && OnRay(p, from, Offsets(p.board[from].piece.kind)[j], m)
  }

  lemma OnRaysNext(p: Position, from: int, n: nat, m: Move)
    requires PieceHere(p, from) && 0 < n <= |Offsets(p.board[from].piece.kind)|
    ensures OnRays(p, from, n, m) <==> OnRays(p, from, n - 1, m) || OnRay(p, from, Offsets(p.board[from].piece.kind)[n - 1], m)
  {
  }

  lemma {:induction false} PieceMember(p: Position, from: int, n: nat, m: Move)
    requires PieceHere(p, from) && n <= |Offsets(p.board[from].piece.kind)|
    ensures m in PieceMoves(p, from, n) <==> OnRays(p, from, n, m)
  {
    if n > 0 {
      OffsetsAreSteps(p.board[from].piece.kind);
      PieceMember(p, from, n - 1, m);
      RayMember(p, from, Offsets(p.board[from].piece.kind)[n - 1], 0, m);
      PieceMovesSplit(p, from, n, m);
      OnRaysNext(p, from, n, m);
    }
  }

  lemma PieceMovesSplit(p: Position, from: int, n: nat, m: Move)
    requires PieceHere(p, from) && 0 < n <= |Offsets(p.board[from].piece.kind)| && Step(Offsets(p.board[from].piece.kind)[n - 1])
    ensures m in PieceMoves(p, from, n) <==>
            m in PieceMoves(p, from, n - 1) || m in RayMoves(p, from, from, Offsets(p.board[from].piece.kind)[n - 1])
  {
  }

  /** Being on one of the rays is what `Reaches` says, plus a square one may stand on. */
  lemma OnRayIsReaching(p: Position, from: int, m: Move)
    requires PieceHere(p, from)
    ensures var kind := p.board[from].piece.kind;
            (exists offset :: offset in Offsets(kind) && OnRay(p, from, offset, m)) <==>
            && OnBoard(m.to) && Reaches(p.board, kind, from, m.to) && !p.board[m.to].Owned(p.turn)
            && m == BuildMove(p, from, m.to, if p.board[m.to].Empty? then Normal else Capture, None)
  {
    var kind := p.board[from].piece.kind;
    if exists offset :: offset in Offsets(kind) && OnRay(p, from, offset, m) {
      var offset :| offset in Offsets(kind) && OnRay(p, from, offset, m);
      var n :| n > 0 && (Leaper(kind) ==> n == 1) && RayMove(p, from, offset, n, m);
      assert Walk(from, offset, 1) == from + offset;
    }
    if && OnBoard(m.to) && Reaches(p.board, kind, from, m.to) && !p.board[m.to].Owned(p.turn)
       && m == BuildMove(p, from, m.to, if p.board[m.to].Empty? then Normal else Capture, None) {
      if Leaper(kind) {
        assert Walk(from, m.to - from, 1) == m.to;
        assert RayMove(p, from, m.to - from, 1, m);
      } else {
        var offset, n :| offset in Offsets(kind) && Slides(p.board, from, m.to, offset, n);
        assert RayMove(p, from, offset, n, m);
      }
    }
  }

  predicate Castling(m: Move) {
    m.flag == KsideCastle || m.flag == QsideCastle
  }

  lemma PieceMovesAreLegal(p: Position, from: int, m: Move)
    requires PieceHere(p, from)
    ensures m in PieceMoves(p, from, |Offsets(p.board[from].piece.kind)|) <==>
            m.from == from && PseudoLegal(p, m) && !Castling(m)
  {
    var offsets := Offsets(p.board[from].piece.kind);
    PieceMember(p, from, |offsets|, m);
    OnRayIsReaching(p, from, m);
    assert (exists j :: 0 <= j < |offsets| && OnRay(p, from, offsets[j], m)) <==>
           (exists offset :: offset in offsets && OnRay(p, from, offset, m));
  }

  lemma PawnPushesAreLegal(p: Position, from: int, m: Move)
    requires Sound(p) && PawnHere(p, from)
    ensures m in PawnPushes(p, from) <==>
            m.from == from && PseudoLegal(p, m) && (m.flag == Normal || m.flag == BigPawn)
  {
    AddMoveMember(p, from, from + PawnOffsets(p.turn)[0], Normal, m);
    if Rank(from) == SecondRank(p.turn) {
      AddMoveMember(p, from, from + PawnOffsets(p.turn)[1], BigPawn, m);
    }
  }

  lemma PawnCaptureIsLegal(p: Position, from: int, j: int, m: Move)
    requires Sound(p) && PawnHere(p, from) && 2 <= j <= 3
    ensures m in PawnCapture(p, from, j) <==>
            && m.from == from && m.to == from + PawnOffsets(p.turn)[j]
            && PseudoLegal(p, m) && (m.flag == Capture || m.flag == EpCapture)
  {
    var to := from + PawnOffsets(p.turn)[j];
    OffBoardIsOutside(to);
    if OnBoard(to) {
      AddMoveMember(p, from, to, Capture, m);
      AddMoveMember(p, from, to, EpCapture, m);
    }
  }

  lemma SquareMember(p: Position, from: int, m: Move)
    requires Sound(p)
    ensures m in SquareMoves(p, from) <==> m.from == from && PseudoLegal(p, m) && !Castling(m)
  {
    if OnBoard(from) && p.board[from].Owned(p.turn) {
      if p.board[from].piece.kind == Pawn {
        PawnPushesAreLegal(p, from, m);
        PawnCaptureIsLegal(p, from, 2, m);
        PawnCaptureIsLegal(p, from, 3, m);
      } else {
        PieceMovesAreLegal(p, from, m);
      }
    }
  }

  lemma {:induction false} BelowMember(p: Position, n: nat, m: Move)
    requires Sound(p)
    ensures m in MovesBelow(p, n) <==> m.from < n && PseudoLegal(p, m) && !Castling(m)
  {
    if n > 0 {
      BelowMember(p, n - 1, m);
      SquareMember(p, n - 1, m);
    }
  }

  lemma CastleMember(p: Position, m: Move)
    requires Sound(p)
    ensures m in CastleMoves(p) <==> PseudoLegal(p, m) && Castling(m)
    ensures m in CastleMoves(p) ==> m.from == p.kings.Of(p.turn)
  {
    var king := p.kings.Of(p.turn);
    if PseudoLegal(p, m) && Castling(m) {
      CastlingIsFromHome(p, m);
    }
    if m in KsideMoves(p) {
      AddMoveMember(p, king, king + 2, KsideCastle, m);
    }
    if m in QsideMoves(p) {
      AddMoveMember(p, king, king - 2, QsideCastle, m);
    }
  }

  lemma AllMember(p: Position, m: Move)
    requires Sound(p)
    ensures m in MovesBelow(p, |p.board|) || m in CastleMoves(p) <==> PseudoLegal(p, m)
  {
    BelowMember(p, |p.board|, m);
    CastleMember(p, m);
  }

  lemma OneMember(p: Position, square: int, m: Move)
    requires Sound(p)
    ensures m in SquareMoves(p, square) || (square == p.kings.Of(p.turn) && m in CastleMoves(p)) <==>
            PseudoLegal(p, m) && m.from == square
  {
    SquareMember(p, square, m);
    CastleMember(p, m);
  }

  /** The generator lists exactly the pseudo-legal moves; asked about a square, exactly those from it. */
  lemma GeneratedIffPseudoLegal(p: Position, only: Option<int>, m: Move)
    requires Sound(p)
    ensures m in PseudoMoves(p, only) <==> PseudoLegal(p, m) && (only.Some? ==> m.from == only.value)
  {
    match only
    case None => AllMember(p, m);
    case Some(square) => OneMember(p, square, m);
  }
}
