/** Legal moves, and the rules of chess as a system of replayable games. */
module Play {
  import opened Basics
  import opened Board
  import opened Attack
  import opened Rules
  import opened Invariant
  import opened Generation
  import opened Distinctness
  import opened Replay

  // ------------------------------------------------------------ legal moves

  /** The moves of a list that do not leave the mover's king attacked, in order. */
  ghost function LegalOnly(p: Position, ms: seq<Move>): seq<Move>
    requires Sound(p) && forall m :: m in ms ==> PseudoLegal(p, m)
  {
    if ms == [] then []
    else LegalOnly(p, ms[..|ms| - 1]) + if Legal(p, ms[|ms| - 1]) then [ms[|ms| - 1]] else []
  }

  lemma {:induction false} LegalOnlyMember(p: Position, ms: seq<Move>, m: Move)
    requires Sound(p) && forall x :: x in ms ==> PseudoLegal(p, x)
    ensures m in LegalOnly(p, ms) <==> m in ms && Legal(p, m)
  {
    if ms != [] {
      LegalOnlyMember(p, ms[..|ms| - 1], m);
      assert ms == ms[..|ms| - 1] + [ms[|ms| - 1]];
    }
  }

  lemma {:induction false} LegalOnlyDistinct(p: Position, ms: seq<Move>)
    requires Sound(p) && Distinct(ms) && forall x :: x in ms ==> PseudoLegal(p, x)
    ensures Distinct(LegalOnly(p, ms))
  {
    if ms != [] {
      var front, last := ms[..|ms| - 1], ms[|ms| - 1];
      LegalOnlyDistinct(p, front);
      forall x, y | x in LegalOnly(p, front) && y in [last]
        ensures !SameKey(x, y)
      {
        LegalOnlyMember(p, front, x);
        var i :| 0 <= i < |front| && front[i] == x;
        assert ms[i] == x && ms[|ms| - 1] == y;
      }
      DistinctConcat(LegalOnly(p, front), [last]);
    }
  }

  lemma PseudoMovesArePseudoLegal(p: Position, only: Option<int>)
    requires Sound(p)
    ensures forall m :: m in PseudoMoves(p, only) ==> PseudoLegal(p, m)
  {
    forall m | m in PseudoMoves(p, only)
      ensures PseudoLegal(p, m)
    {
      GeneratedIffPseudoLegal(p, only, m);
    }
  }

  ghost function LegalMoves(p: Position, only: Option<int>): seq<Move>
    requires Sound(p)
  {
    PseudoMovesArePseudoLegal(p, only);
    LegalOnly(p, PseudoMoves(p, only))
  }

  /** The generator yields exactly the legal moves, each once. */
  lemma LegalMovesExact(p: Position, only: Option<int>)
    requires Sound(p)
    ensures forall m :: m in LegalMoves(p, only) <==> Legal(p, m) && (only.Some? ==> m.from == only.value)
    ensures Distinct(LegalMoves(p, only))
  {
    PseudoMovesArePseudoLegal(p, only);
    forall m
      ensures m in LegalMoves(p, only) <==> Legal(p, m) && (only.Some? ==> m.from == only.value)
    {
      LegalOnlyMember(p, PseudoMoves(p, only), m);
      GeneratedIffPseudoLegal(p, only, m);
    }
    PseudoMovesDistinct(p, only);
    LegalOnlyDistinct(p, PseudoMoves(p, only));
  }

  // ---------------------------------------------------- the chess system

  /** The rules of chess as the engine implements them, for the general theory of replayable games. */
  ghost function Chess(): System<Position, Move, Entry> {
    System(
      (p: Position) => WellFormed(p),
      (p: Position) => if Sound(p) then LegalMoves(p, None) else [],
      (p: Position, m: Move) => if Playable(p.board, m, p.turn) then Made(p, m) else p,
      (p: Position, m: Move) => EntryOf(p, m),
      (e: Entry) => e.move,
      (p: Position, e: Entry) => if Undoable(p.board, e) then Undone(p, e) else p)
  }

  lemma ChessMove(p: Position, m: Move)
    requires WellFormed(p) && m in Chess().moves(p)
    ensures Legal(p, m) && Playable(p.board, m, p.turn) && Made(p, m) == Chess().made(p, m)
    ensures WellFormed(Made(p, m))
    ensures Undoable(Made(p, m).board, EntryOf(p, m)) && Undone(Made(p, m), EntryOf(p, m)) == p
  {
    LegalMovesExact(p, None);
    LegalIffWellFormedAfter(p, m);
    UndoRestores(p, m);
  }

  lemma DistinctHasNoRepeats(ms: seq<Move>)
    requires Distinct(ms)
    ensures NoRepeats(ms)
  {
    forall i, j | 0 <= i < j < |ms|
      ensures ms[i] != ms[j]
    {
      assert !SameKey(ms[i], ms[j]);
    }
  }

  /** Legal moves keep positions well formed, are generated once each, and are undone exactly. */
  lemma ChessIsLawful()
    ensures Lawful(Chess())
  {
    var s := Chess();
    forall p: Position, m: Move | s.wellFormed(p) && m in s.moves(p)
      ensures s.wellFormed(s.made(p, m)) && s.undone(s.made(p, m), s.entry(p, m)) == p && s.moveOf(s.entry(p, m)) == m
    {
      ChessMove(p, m);
    }
    forall p: Position | s.wellFormed(p)
      ensures NoRepeats(s.moves(p))
    {
      LegalMovesExact(p, None);
      DistinctHasNoRepeats(s.moves(p));
    }
  }

  /** Whatever is captured stands where the attack test says so; en passant passes such a square. */
  lemma CapturesAreAttacked(p: Position, m: Move)
    requires Sound(p) && PseudoLegal(p, m) && m.captured.Some?
    ensures AttackedBy(p.board, p.turn, m.to)
  {
    assert p.board[m.from].Owned(p.turn) && Bears(p.board, m.from, m.to);
  }

  /** On every run from a well-formed position, every position is well formed, the side that
      just moved is not in check, and no king has been captured. */
  lemma RunsStayWellFormed(start: Position, requests: seq<Request<Move>>)
    requires WellFormed(start)
    ensures var g := Run(Chess(), Game(start, []), requests);
            && Consistent(Chess(), g) && WellFormed(g.pos)
            && !KingAttacked(g.pos, g.pos.turn.Other())
            && forall i :: 0 <= i < |g.history| ==> g.history[i].move.captured != Some(King)
  {
    ChessIsLawful();
    var g := Run(Chess(), Game(start, []), requests);
    RunKeepsConsistent(Chess(), Game(start, []), requests);
    forall i | 0 <= i < |g.history|
      ensures g.history[i].move.captured != Some(King)
    {
      PrefixStep(Chess(), g, i);
      var before := Prefix(Chess(), g, i).pos;
      ChessMove(before, g.history[i].move);
      NoKingCaptured(before, g.history[i].move);
    }
  }
}
