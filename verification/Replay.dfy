/** Runs of any game whose moves can be taken back: histories, rewinding, replaying, and lines of play.
    The chess rules enter only through the laws of a `System`. */
module Replay {

  /** A game seen through its positions. `moves` lists the legal moves in generator order, `entry` is
      what making a move records, `undone` is what taking that record back does. */
  datatype System<!P, !M, !E> = System(
    wellFormed: P -> bool,
    moves: P -> seq<M>,
    made: (P, M) -> P,
    entry: (P, M) -> E,
    moveOf: E -> M,
    undone: (P, E) -> P)

  ghost predicate NoRepeats<T>(s: seq<T>) {
    forall i, j :: 0 <= i < j < |s| ==> s[i] != s[j]
  }

  /** Legal moves keep positions well formed, are listed once, and are undone exactly. */
  ghost predicate Lawful<P(!new), M(!new), E(!new)>(s: System<P, M, E>) {
    && (forall p, m :: s.wellFormed(p) && m in s.moves(p) ==>
          && s.wellFormed(s.made(p, m))
          && s.undone(s.made(p, m), s.entry(p, m)) == p
          && s.moveOf(s.entry(p, m)) == m)
    && (forall p :: s.wellFormed(p) ==> NoRepeats(s.moves(p)))
  }

  /** A position together with the records of the moves that led to it. */
  datatype Game<P, E> = Game(pos: P, history: seq<E>)

  ghost function Played<P, M, E>(s: System<P, M, E>, g: Game<P, E>, m: M): Game<P, E> {
    Game(s.made(g.pos, m), g.history + [s.entry(g.pos, m)])
  }

  ghost function Last<T>(history: seq<T>): T
    requires history != []
  {
    history[|history| - 1]
  }

  ghost function TakenBack<P, M, E>(s: System<P, M, E>, g: Game<P, E>): Game<P, E> {
    if g.history == [] then g
    else Game(s.undone(g.pos, Last(g.history)), g.history[..|g.history| - 1])
  }

  ghost function LastMove<P, M, E>(s: System<P, M, E>, g: Game<P, E>): M
    requires g.history != []
  {
    s.moveOf(Last(g.history))
  }

  /** Every position on the way is well formed and every recorded move was legal when it was made. */
  ghost predicate Consistent<P, M, E>(s: System<P, M, E>, g: Game<P, E>)
    decreases |g.history|
  {
    && s.wellFormed(g.pos)
    && (g.history != [] ==>
          var before := TakenBack(s, g);
          && Consistent(s, before) && LastMove(s, g) in s.moves(before.pos)
          && Played(s, before, LastMove(s, g)) == g)
  }

  /** A legal move keeps a game consistent, and taking it back gives the same game again. */
  lemma PlayedKeepsConsistent<P(!new), M(!new), E(!new)>(s: System<P, M, E>, g: Game<P, E>, m: M)
    requires Lawful(s) && Consistent(s, g) && m in s.moves(g.pos)
    ensures Consistent(s, Played(s, g, m))
    ensures TakenBack(s, Played(s, g, m)) == g
  {
    var next := Played(s, g, m);
    assert next.history[..|next.history| - 1] == g.history;
    assert TakenBack(s, next) == g;
  }

  // ------------------------------------------------------------------ runs

  datatype Request<M> = Play(move: M) | Undo

  /** A move that is not legal is refused; an undo at the start does nothing. */
  ghost function Served<P, M, E>(s: System<P, M, E>, g: Game<P, E>, r: Request<M>): Game<P, E> {
    match r
    case Play(m) => if m in s.moves(g.pos) then Played(s, g, m) else g
    case Undo => TakenBack(s, g)
  }

  ghost function Run<P, M, E>(s: System<P, M, E>, g: Game<P, E>, requests: seq<Request<M>>): Game<P, E>
    decreases |requests|
  {
    if requests == [] then g else Run(s, Served(s, g, requests[0]), requests[1..])
  }

  lemma {:induction false} RunKeepsConsistent<P(!new), M(!new), E(!new)>(
    s: System<P, M, E>, g: Game<P, E>, requests: seq<Request<M>>)
    requires Lawful(s) && Consistent(s, g)
    ensures Consistent(s, Run(s, g, requests))
    decreases |requests|
  {
    if requests != [] {
      var r := requests[0];
      if r.Play? && r.move in s.moves(g.pos) {
        PlayedKeepsConsistent(s, g, r.move);
      }
      RunKeepsConsistent(s, Served(s, g, r), requests[1..]);
    }
  }

  /** Undoing n times is the same as having stopped n moves earlier. */
  lemma {:induction false} UndosRewind<P, M, E>(s: System<P, M, E>, g: Game<P, E>, undos: seq<Request<M>>)
    requires |undos| <= |g.history| && forall i :: 0 <= i < |undos| ==> undos[i].Undo?
    ensures Run(s, g, undos) == Prefix(s, g, |g.history| - |undos|)
    decreases |undos|
  {
    if undos != [] {
      UndosRewind(s, TakenBack(s, g), undos[1..]);
    }
  }

  // ------------------------------------------------------------- rewinding

  /** The game as it stood after its first n moves. */
  ghost function Prefix<P, M, E>(s: System<P, M, E>, g: Game<P, E>, n: nat): Game<P, E>
    requires n <= |g.history|
    ensures Prefix(s, g, n).history == g.history[..n]
    decreases |g.history|
  {
    if n == |g.history| then g else Prefix(s, TakenBack(s, g), n)
  }

  /** Neighbouring prefixes differ by one move, legal where it was made. */
  lemma {:induction false} PrefixStep<P, M, E>(s: System<P, M, E>, g: Game<P, E>, n: nat)
    requires Consistent(s, g) && n < |g.history|
    ensures var before, after, m := Prefix(s, g, n), Prefix(s, g, n + 1), s.moveOf(g.history[n]);
            && Consistent(s, before) && Consistent(s, after)
            && m in s.moves(before.pos) && Played(s, before, m) == after && TakenBack(s, after) == before
    decreases |g.history|
  {
    if n + 1 < |g.history| {
      PrefixStep(s, TakenBack(s, g), n);
    }
  }

  /** A run never changes where the game started. */
  lemma {:induction false} RunKeepsStart<P(!new), M(!new), E(!new)>(
    s: System<P, M, E>, g: Game<P, E>, requests: seq<Request<M>>)
    requires Lawful(s) && Consistent(s, g)
    ensures Prefix(s, Run(s, g, requests), 0) == Prefix(s, g, 0)
    decreases |requests|
  {
    if requests != [] {
      var r := requests[0];
      if r.Play? && r.move in s.moves(g.pos) {
        PlayedKeepsConsistent(s, g, r.move);
        PrefixOfPlayed(s, g, r.move);
      }
      RunKeepsStart(s, Served(s, g, r), requests[1..]);
    }
  }

  lemma PrefixOfPlayed<P(!new), M(!new), E(!new)>(s: System<P, M, E>, g: Game<P, E>, m: M)
    requires TakenBack(s, Played(s, g, m)) == g
    ensures Prefix(s, Played(s, g, m), 0) == Prefix(s, g, 0)
  {
    assert |Played(s, g, m).history| > 0;
  }

  lemma {:induction false} PrefixConsistent<P, M, E>(s: System<P, M, E>, g: Game<P, E>, n: nat)
    requires Consistent(s, g) && n <= |g.history|
    ensures Consistent(s, Prefix(s, g, n))
    decreases |g.history|
  {
    if n < |g.history| {
      PrefixConsistent(s, TakenBack(s, g), n);
    }
  }

  /** The positions a game has passed through, the present one included. */
  ghost function Positions<P, M, E>(s: System<P, M, E>, g: Game<P, E>): seq<P> {
    seq(|g.history| + 1, n requires 0 <= n <= |g.history| => Prefix(s, g, n).pos)
  }

  // -------------------------------------------------- transcripts of games

  /** The game written down move by move with a notation that may depend on the position. */
  ghost function Transcript<P, M, E, T>(s: System<P, M, E>, write: (P, M) -> T, g: Game<P, E>): seq<T>
    decreases |g.history|
  {
    if g.history == [] then []
    else Transcript(s, write, TakenBack(s, g)) + [write(TakenBack(s, g).pos, LastMove(s, g))]
  }

  datatype Found<+M> = Missing | Found(move: M)

  /** Reading a transcript back: each word is looked up in the current position and played. */
  ghost function Reread<P, M, E, T>(
    s: System<P, M, E>, read: (P, T) -> Found<M>, g: Game<P, E>, words: seq<T>): Found<Game<P, E>>
    decreases |words|
  {
    if words == [] then Found(g)
    else
      var front := Reread(s, read, g, words[..|words| - 1]);
      if front.Missing? then Missing
      else
        var m := read(front.move.pos, words[|words| - 1]);
        if m.Missing? then Missing else Found(Played(s, front.move, m.move))
  }

  /** If reading inverts writing on legal moves, replaying a transcript from the start position
      reproduces the game, history included. */
  lemma {:induction false} TranscriptReplays<P(!new), M(!new), E, T>(
    s: System<P, M, E>, write: (P, M) -> T, read: (P, T) -> Found<M>, g: Game<P, E>)
    requires Consistent(s, g)
    requires forall p, m :: s.wellFormed(p) && m in s.moves(p) ==> read(p, write(p, m)) == Found(m)
    ensures Reread(s, read, Prefix(s, g, 0), Transcript(s, write, g)) == Found(g)
    decreases |g.history|
  {
    if g.history != [] {
      var before := TakenBack(s, g);
      TranscriptReplays(s, write, read, before);
      var words := Transcript(s, write, g);
      assert words[..|words| - 1] == Transcript(s, write, before);
      assert s.wellFormed(before.pos);
    }
  }

  // ------------------------------------------------------- lines of play

  /** A sequence of moves each of which is legal where it is made. */
  ghost predicate LegalLine<P, M, E>(s: System<P, M, E>, p: P, line: seq<M>)
    decreases |line|
  {
    line == [] || (line[0] in s.moves(p) && LegalLine(s, s.made(p, line[0]), line[1..]))
  }

  ghost function Prepended<M>(m: M, lines: seq<seq<M>>): seq<seq<M>> {
    seq(|lines|, i requires 0 <= i < |lines| => [m] + lines[i])
  }

  /** All lines of the given length that begin with one of `firsts`, grouped by first move. */
  ghost function LinesFrom<P, M, E>(s: System<P, M, E>, p: P, firsts: seq<M>, depth: nat): seq<seq<M>>
    requires depth >= 1
    decreases depth, 0, |firsts|
  {
    if firsts == [] then []
    else
      LinesFrom(s, p, firsts[..|firsts| - 1], depth) + Prepended(Last(firsts), Lines(s, s.made(p, Last(firsts)), depth - 1))
  }

  ghost function Lines<P, M, E>(s: System<P, M, E>, p: P, depth: nat): seq<seq<M>>
    decreases depth, 1
  {
    if depth == 0 then [[]] else LinesFrom(s, p, s.moves(p), depth)
  }

  ghost function Filter<M>(ms: seq<M>, keep: M -> bool): seq<M> {
    if ms == [] then [] else Filter(ms[..|ms| - 1], keep) + if keep(Last(ms)) then [Last(ms)] else []
  }

  /** The number of lines behind one move, none if the move is not kept. */
  ghost function LinesBehind<P, M, E>(s: System<P, M, E>, p: P, m: M, keep: M -> bool, depth: nat): nat
    requires depth >= 1
  {
    if keep(m) then |Lines(s, s.made(p, m), depth - 1)| else 0
  }

  ghost function LinesBehindAll<P, M, E>(s: System<P, M, E>, p: P, ms: seq<M>, keep: M -> bool, depth: nat): nat
    requires depth >= 1
  {
    if ms == [] then 0 else LinesBehindAll(s, p, ms[..|ms| - 1], keep, depth) + LinesBehind(s, p, Last(ms), keep, depth)
  }

  lemma LinesBehindOneMore<P, M, E>(s: System<P, M, E>, p: P, ms: seq<M>, n: nat, keep: M -> bool, depth: nat)
    requires depth >= 1 && n < |ms|
    ensures LinesBehindAll(s, p, ms[..n + 1], keep, depth)
            == LinesBehindAll(s, p, ms[..n], keep, depth) + LinesBehind(s, p, ms[n], keep, depth)
  {
    assert ms[..n + 1][..n] == ms[..n] && Last(ms[..n + 1]) == ms[n];
  }

  /** Filtering while counting gives the number of lines that begin with the kept moves. */
  lemma {:induction false} LinesBehindKept<P, M, E>(s: System<P, M, E>, p: P, ms: seq<M>, keep: M -> bool, depth: nat)
    requires depth >= 1
    ensures LinesBehindAll(s, p, ms, keep, depth) == |LinesFrom(s, p, Filter(ms, keep), depth)|
  {
    if ms != [] {
      LinesBehindKept(s, p, ms[..|ms| - 1], keep, depth);
      var front, all := Filter(ms[..|ms| - 1], keep), Filter(ms, keep);
      assert front + [] == front;
      if keep(Last(ms)) {
        assert all[..|all| - 1] == front && Last(all) == Last(ms);
      }
    }
  }

  lemma {:induction false} LinesFromExact<P, M, E>(
    s: System<P, M, E>, p: P, firsts: seq<M>, depth: nat, line: seq<M>)
    requires depth >= 1
    ensures line in LinesFrom(s, p, firsts, depth) <==>
            |line| == depth && line[0] in firsts && LegalLine(s, s.made(p, line[0]), line[1..])
    decreases depth, 0, |firsts|
  {
    if firsts != [] {
      var front, m := firsts[..|firsts| - 1], Last(firsts);
      assert firsts == front + [m];
      LinesFromExact(s, p, front, depth, line);
      var tails := Lines(s, s.made(p, m), depth - 1);
      if line in Prepended(m, tails) {
        var i :| 0 <= i < |tails| && line == [m] + tails[i];
        assert line[1..] == tails[i];
        LinesExact(s, s.made(p, m), depth - 1, line[1..]);
      }
      if |line| == depth && line[0] == m && LegalLine(s, s.made(p, m), line[1..]) {
        LinesExact(s, s.made(p, m), depth - 1, line[1..]);
        var i :| 0 <= i < |tails| && tails[i] == line[1..];
        assert line == [m] + tails[i] == Prepended(m, tails)[i];
      }
    }
  }

  /** The list of lines contains exactly the legal lines of that length. */
  lemma {:induction false} LinesExact<P, M, E>(s: System<P, M, E>, p: P, depth: nat, line: seq<M>)
    ensures line in Lines(s, p, depth) <==> |line| == depth && LegalLine(s, p, line)
    decreases depth, 1
  {
    if depth > 0 {
      LinesFromExact(s, p, s.moves(p), depth, line);
    }
  }

  lemma {:induction false} LinesFromNoRepeats<P(!new), M(!new), E(!new)>(
    s: System<P, M, E>, p: P, firsts: seq<M>, depth: nat)
    requires Lawful(s) && s.wellFormed(p) && depth >= 1 && NoRepeats(firsts)
    requires forall m :: m in firsts ==> m in s.moves(p)
    ensures NoRepeats(LinesFrom(s, p, firsts, depth))
    decreases depth, 0, |firsts|
  {
    if firsts != [] {
      var front, m := firsts[..|firsts| - 1], Last(firsts);
      assert m in firsts;
      LinesFromNoRepeats(s, p, front, depth);
      LinesNoRepeats(s, s.made(p, m), depth - 1);
      var before, tails := LinesFrom(s, p, front, depth), Lines(s, s.made(p, m), depth - 1);
      var here := Prepended(m, tails);
      forall i, j | 0 <= i < |before| && 0 <= j < |here|
        ensures before[i] != here[j]
      {
        LinesFromExact(s, p, front, depth, before[i]);
        assert before[i] in before && before[i][0] in front;
      }
      forall i, j | 0 <= i < j < |here|
        ensures here[i] != here[j]
      {
        assert here[i][1..] == tails[i] && here[j][1..] == tails[j];
      }
    }
  }

  /** No line is listed twice, so the length of the list is the number of lines. */
  lemma {:induction false} LinesNoRepeats<P(!new), M(!new), E(!new)>(s: System<P, M, E>, p: P, depth: nat)
    requires Lawful(s) && s.wellFormed(p)
    ensures NoRepeats(Lines(s, p, depth))
    decreases depth, 1
  {
    if depth > 0 {
      LinesFromNoRepeats(s, p, s.moves(p), depth);
    }
  }
}
