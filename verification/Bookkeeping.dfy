/** What the cached records of a position mean: on every run they can be read off the moves made. */
module Bookkeeping {
  import opened Basics
  import opened Board
  import opened Rules
  import opened Invariant
  import opened Replay
  import opened Play

  /** Neither a pawn move nor a capture. */
  predicate Quiet(m: Move) {
    m.piece != Pawn && m.captured == None
  }

  /** How many quiet moves a list ends with. */
  function QuietTail(ms: seq<Move>): (n: nat)
    ensures n <= |ms|
  {
    if ms == [] || !Quiet(ms[|ms| - 1]) then 0 else 1 + QuietTail(ms[..|ms| - 1])
  }

  /** A move that costs a colour its castling rights on the side of that corner: its king moves, its rook
      leaves the corner, or the enemy moves there. */
  predicate Spoils(m: Move, c: Color, corner: int) {
    if m.color == c then m.piece == King || m.from == corner else m.to == corner
  }

  predicate NoneSpoils(ms: seq<Move>, c: Color, corner: int) {
    forall k :: 0 <= k < |ms| ==> !Spoils(ms[k], c, corner)
  }

  /** White and black take turns. */
  function TurnAfter(start: Color, n: nat): Color {
    if n % 2 == 0 then start else start.Other()
  }

  /** How many of n moves were black's. */
  function BlackMoves(start: Color, n: nat): nat {
    if start == Black then (n + 1) / 2 else n / 2
  }

  ghost predicate CountersTold(start: Position, p: Position, ms: seq<Move>) {
    TurnTold(start, p, |ms|) && QuietTold(start, p, ms)
  }

  /** Whose turn it is, and the number of the move. */
  ghost predicate TurnTold(start: Position, p: Position, n: nat) {
    p.turn == TurnAfter(start.turn, n) && p.moveNumber == start.moveNumber + BlackMoves(start.turn, n)
  }

  /** How many moves ago the last pawn move or capture was. */
  ghost predicate QuietTold(start: Position, p: Position, ms: seq<Move>) {
    p.halfMoves == QuietTail(ms) + if QuietTail(ms) == |ms| then start.halfMoves else 0
  }

  /** The en-passant square is the one a pawn has just passed. */
  ghost predicate EpTold(start: Position, p: Position, ms: seq<Move>) {
    p.ep == if ms == [] then start.ep
            else var last := ms[|ms| - 1]; if last.flag == BigPawn then (last.from + last.to) / 2 else EMPTY
  }

  ghost predicate RightsTold(start: Position, p: Position, ms: seq<Move>, c: Color) {
    && (p.castling.Of(c).kside <==> start.castling.Of(c).kside && NoneSpoils(ms, c, Home(c) + 7))
    && (p.castling.Of(c).qside <==> start.castling.Of(c).qside && NoneSpoils(ms, c, Home(c)))
  }

  ghost predicate Told(start: Position, p: Position, ms: seq<Move>) {
    CountersTold(start, p, ms) && EpTold(start, p, ms) && RightsTold(start, p, ms, White) && RightsTold(start, p, ms, Black)
  }

  lemma TailGrows(ms: seq<Move>, m: Move)
    ensures QuietTail(ms + [m]) == if Quiet(m) then 1 + QuietTail(ms) else 0
  {
    assert (ms + [m])[..|ms|] == ms;
  }

  lemma CountsGrow(start: Color, n: nat)
    ensures TurnAfter(start, n + 1) == TurnAfter(start, n).Other()
    ensures BlackMoves(start, n + 1) == BlackMoves(start, n) + if TurnAfter(start, n) == Black then 1 else 0
  {
  }

  lemma QuietByFlag(p: Position, m: Move)
    requires |p.board| == 128 && PseudoLegal(p, m)
    ensures Quiet(m) <==> !(m.piece == Pawn || m.flag == Capture || m.flag == EpCapture)
  {
  }

  lemma TurnStep(start: Position, p: Position, n: nat, m: Move)
    requires Playable(p.board, m, p.turn) && TurnTold(start, p, n)
    ensures TurnTold(start, Made(p, m), n + 1)
  {
    CountsGrow(start.turn, n);
  }

  lemma QuietStep(start: Position, p: Position, ms: seq<Move>, m: Move)
    requires Playable(p.board, m, p.turn) && PseudoLegal(p, m) && QuietTold(start, p, ms)
    ensures QuietTold(start, Made(p, m), ms + [m])
  {
    QuietByFlag(p, m);
    TailGrows(ms, m);
  }

  lemma CountersStep(start: Position, p: Position, ms: seq<Move>, m: Move)
    requires Sound(p) && PseudoLegal(p, m) && CountersTold(start, p, ms)
    ensures Playable(p.board, m, p.turn) && CountersTold(start, Made(p, m), ms + [m])
  {
    PseudoLegalIsReversible(p, m);
    TurnStep(start, p, |ms|, m);
    QuietStep(start, p, ms, m);
  }

  lemma EpStep(start: Position, p: Position, ms: seq<Move>, m: Move)
    requires Sound(p) && PseudoLegal(p, m)
    ensures Playable(p.board, m, p.turn) && EpTold(start, Made(p, m), ms + [m])
  {
    PseudoLegalIsReversible(p, m);
  }

  lemma SpoilsMore(ms: seq<Move>, m: Move, c: Color, corner: int)
    ensures NoneSpoils(ms + [m], c, corner) <==> NoneSpoils(ms, c, corner) && !Spoils(m, c, corner)
  {
    assert forall k :: 0 <= k < |ms| ==> (ms + [m])[k] == ms[k];
    assert (ms + [m])[|ms|] == m;
  }

  /** One move more: a right survives it exactly if the move does not spoil it. */
  lemma RightsSurvive(p: Position, m: Move, c: Color)
    requires Sound(p) && PseudoLegal(p, m)
    ensures Playable(p.board, m, p.turn)
    ensures var before, after := p.castling.Of(c), Made(p, m).castling.Of(c);
            && (after.kside <==> before.kside && !Spoils(m, c, Home(c) + 7))
            && (after.qside <==> before.qside && !Spoils(m, c, Home(c)))
  {
    PseudoLegalIsReversible(p, m);
    RightsAfter(p, m, c);
  }

  lemma RightsStep(start: Position, p: Position, ms: seq<Move>, m: Move, c: Color)
    requires Sound(p) && PseudoLegal(p, m) && RightsTold(start, p, ms, c)
    ensures Playable(p.board, m, p.turn) && RightsTold(start, Made(p, m), ms + [m], c)
  {
    RightsSurvive(p, m, c);
    SpoilsMore(ms, m, c, Home(c) + 7);
    SpoilsMore(ms, m, c, Home(c));
  }

  lemma ToldStep(start: Position, p: Position, ms: seq<Move>, m: Move)
    requires Sound(p) && PseudoLegal(p, m) && Told(start, p, ms)
    ensures Playable(p.board, m, p.turn) && Told(start, Made(p, m), ms + [m])
  {
    CountersStep(start, p, ms, m);
    EpStep(start, p, ms, m);
    RightsStep(start, p, ms, m, White);
    RightsStep(start, p, ms, m, Black);
  }

  /** The moves of a game, first to last. */
  function MovesOf(history: seq<Entry>): seq<Move> {
    seq(|history|, k requires 0 <= k < |history| => history[k].move)
  }

  lemma MovesMore(history: seq<Entry>, n: nat)
    requires n < |history|
    ensures MovesOf(history[..n + 1]) == MovesOf(history[..n]) + [history[n].move]
  {
  }

  /** The n-th move of a game leads from the n-th position to the next. */
  lemma PrefixMove(g: Game<Position, Entry>, n: nat)
    requires Consistent(Chess(), g) && n < |g.history|
    ensures var p, m := Prefix(Chess(), g, n).pos, g.history[n].move;
            && Sound(p) && PseudoLegal(p, m) && Playable(p.board, m, p.turn) && Prefix(Chess(), g, n + 1).pos == Made(p, m)
  {
    PrefixStep(Chess(), g, n);
    ChessMove(Prefix(Chess(), g, n).pos, g.history[n].move);
  }

  ghost predicate ToldAt(g: Game<Position, Entry>, n: nat)
    requires Consistent(Chess(), g) && n <= |g.history|
  {
    Told(Prefix(Chess(), g, 0).pos, Prefix(Chess(), g, n).pos, MovesOf(g.history[..n]))
  }

  lemma ToldNext(g: Game<Position, Entry>, n: nat)
    requires Consistent(Chess(), g) && n < |g.history| && ToldAt(g, n)
    ensures ToldAt(g, n + 1)
  {
    PrefixMove(g, n);
    MovesMore(g.history, n);
    ToldStep(Prefix(Chess(), g, 0).pos, Prefix(Chess(), g, n).pos, MovesOf(g.history[..n]), g.history[n].move);
  }

  lemma ToldAtOnce(start: Position)
    ensures Told(start, start, [])
  {
  }

  lemma NothingTold(g: Game<Position, Entry>)
    requires Consistent(Chess(), g)
    ensures ToldAt(g, 0)
  {
    ToldAtOnce(Prefix(Chess(), g, 0).pos);
    assert MovesOf(g.history[..0]) == [];
  }

  lemma {:induction false} PrefixTold(g: Game<Position, Entry>, n: nat)
    requires Consistent(Chess(), g) && n <= |g.history|
    ensures ToldAt(g, n)
  {
    if n == 0 {
      NothingTold(g);
    } else {
      PrefixTold(g, n - 1);
      ToldNext(g, n - 1);
    }
  }

  /** On every run the records of the position are what its moves say: whose turn it is, how many moves have
      been made, how many since the last pawn move or capture, which square a pawn has just passed, and that a
      castling right is held exactly if it was held at the start and no move since has spoilt it. */
  lemma RecordsMean(start: Position, requests: seq<Request<Move>>)
    requires WellFormed(start)
    ensures var g := Run(Chess(), Game(start, []), requests); Told(start, g.pos, MovesOf(g.history))
  {
    var g := Run(Chess(), Game(start, []), requests);
    ChessIsLawful();
    RunKeepsConsistent(Chess(), Game(start, []), requests);
    RunKeepsStart(Chess(), Game(start, []), requests);
    PrefixTold(g, |g.history|);
    assert g.history[..|g.history|] == g.history;
  }
}
