/** On every run of the game service the published moves and endings are those of the rules and of the players. */
module Outcomes {
  import opened Basics
  import opened Lifecycle

  // ------------------------------------------------- what a step may publish

  /** The move is the next one of a live game, by the player whose turn it is, and the rules take it. */
  predicate Taken(r: Rulebook, w: World, s: Step) {
    && s.Move? && s.game in w.live
    && var g := w.live[s.game];
       var white, black := if g.player1.color == White then g.player1 else g.player2, if g.player1.color == Black then g.player1 else g.player2;
       && s.player == (if |g.moves| % 2 == 0 then white.id else black.id)
       && s.index == |g.moves| + 1 && r.accepts(g.moves, s.move)
  }

  /** A player of a live game claims a draw that the rules allow after its moves. */
  predicate Granted(r: Rulebook, w: World, s: Step) {
    && s.Claim? && (s.how == ThreefoldRepetition || s.how == FiftyMoveRule) && s.game in w.live
    && var g := w.live[s.game];
       (s.player == g.player1.id || s.player == g.player2.id) && r.claimable(g.moves, s.how)
  }

  /** The player on turn offers a draw in a live game, and no offer stands. */
  predicate Offers(w: World, s: Step) {
    && s.Claim? && s.how == DrawOffer && s.game in w.live
    && var g := w.live[s.game];
       && (s.player == g.player1.id || s.player == g.player2.id) && g.offer == None
       && s.player == (if |g.moves| % 2 == 0 then (if g.player1.color == White then g.player1 else g.player2).id
                       else (if g.player1.color == Black then g.player1 else g.player2).id)
  }

  /** A player of a live game answers the other player's standing offer. */
  predicate AnswersOffer(w: World, s: Step) {
    && s.Answer? && s.game in w.live
    && var g := w.live[s.game];
       (s.player == g.player1.id || s.player == g.player2.id) && g.offer.Some? && g.offer.value != s.player
  }

  /** Two users neither of whom plays in a live game, and a game id not used before. */
  ghost predicate MayStart(w: World, s: Step) {
    && s.MatchMade? && s.id !in w.cached
    && forall id :: id in w.live ==>
         var g := w.live[id];
         g.player1.id != s.user1 && g.player1.id != s.user2 && g.player2.id != s.user1 && g.player2.id != s.user2
  }

  predicate OwnResignation(w: World, s: Step) {
    s.Resign? && s.game in w.live && (s.player == w.live[s.game].player1.id || s.player == w.live[s.game].player2.id)
  }

  /** The end of a live game as it stands, with this outcome. */
  function EndOf(w: World, id: Id, outcome: GameOutcome, ending: Ending): Event
    requires id in w.live
  {
    GameEnded(id, w.live[id].player1, w.live[id].player2, outcome, ending)
  }

  /** How a published event comes about, agreements and leavers aside. */
  ghost predicate Earned(r: Rulebook, w: World, s: Step, e: Event) {
    && (e.MoveApproved? ==> Taken(r, w, s) && e == MoveApproved(s.game, s.player, s.move, s.index))
    && (e.ClaimApproved? ==> (Offers(w, s) || Granted(r, w, s)) && e == ClaimApproved(s.game, s.player, s.how))
    && (e.GameCreated? ==> s.MatchMade? && e.game == s.id && MayStart(w, s))
    && (e.GameEnded? && e.ending == ByMove ==>
          Taken(r, w, s) && e == EndOf(w, s.game, r.verdict(w.live[s.game].moves + [s.move]), ByMove))
    && (e.GameEnded? && e.ending == ByClaim ==> Granted(r, w, s) && e == EndOf(w, s.game, Draw, ByClaim))
    && (e.GameEnded? && e.ending == ByResignation ==>
          OwnResignation(w, s) && e == EndOf(w, s.game, e.outcome, ByResignation) && LosesBy(e, s.player))
  }

  ghost predicate AllEarned(r: Rulebook, w: World, s: Step) {
    forall i :: |w.log| <= i < |After(r, w, s).log| ==> Earned(r, w, s, After(r, w, s).log[i])
  }

  lemma MoveEarns(r: Rulebook, w: World, s: Step)
    requires Ok(w) && s.Move?
    ensures AllEarned(r, w, s)
  {
  }

  lemma ClaimEarns(r: Rulebook, w: World, s: Step)
    requires Ok(w) && s.Claim?
    ensures AllEarned(r, w, s)
  {
  }

  lemma ResignEarns(r: Rulebook, w: World, s: Step)
    requires Ok(w) && s.Resign?
    ensures AllEarned(r, w, s)
  {
  }

  lemma OthersEarn(r: Rulebook, w: World, s: Step)
    requires Ok(w) && !s.Move? && !s.Claim? && !s.Resign?
    ensures AllEarned(r, w, s)
  {
    if s.Tick? {
      LeavingPublishes(w.(left := w.left - s.picks.Keys), s.picks, s.games);
    } else if s.MatchMade? {
      MatchMeans(r, w, s);
    }
  }

  lemma StepEarns(r: Rulebook, w: World, s: Step)
    requires Ok(w)
    ensures AllEarned(r, w, s)
  {
    match s
    case Move(id, p, move, index) => MoveEarns(r, w, s);
    case Claim(id, p, how) => ClaimEarns(r, w, s);
    case Resign(id, p) => ResignEarns(r, w, s);
    case _ => OthersEarn(r, w, s);
  }

  /** Conversely, whoever may move is approved: the approval is published next, and the end of the game after it
      exactly if the rules have a verdict. */
  lemma TakenIsApproved(r: Rulebook, w: World, s: Step)
    requires Ok(w) && Taken(r, w, s)
    ensures var log, verdict := After(r, w, s).log, r.verdict(w.live[s.game].moves + [s.move]);
            log == w.log + [MoveApproved(s.game, s.player, s.move, s.index)]
                   + if verdict != NoOutcome then [EndOf(w, s.game, verdict, ByMove)] else []
  {
    var e := MoveApproved(s.game, s.player, s.move, s.index);
    assert w.log + [e] + [] == w.log + [e];
  }

  lemma GrantedIsDrawn(r: Rulebook, w: World, s: Step)
    requires Ok(w) && Granted(r, w, s)
    ensures After(r, w, s).log == w.log + [ClaimApproved(s.game, s.player, s.how), EndOf(w, s.game, Draw, ByClaim)]
  {
  }

  /** An offer of the player on turn is approved and stands from then on. */
  lemma OfferIsApproved(r: Rulebook, w: World, s: Step)
    requires Ok(w) && Offers(w, s)
    ensures var w' := After(r, w, s);
            && w'.log == w.log + [ClaimApproved(s.game, s.player, DrawOffer)]
            && s.game in w'.live && w'.live[s.game] == w.live[s.game].(offer := Some(s.player))
  {
  }

  /** An answer to a standing offer ends the game in a draw or takes the offer away; any other answer changes nothing. */
  lemma AnswerMeans(r: Rulebook, w: World, s: Step)
    requires Ok(w) && s.Answer?
    ensures AnswersOffer(w, s) && s.accept ==> After(r, w, s).log == w.log + [EndOf(w, s.game, Draw, ByAgreement)]
    ensures AnswersOffer(w, s) && !s.accept ==> After(r, w, s) == w.(live := w.live[s.game := w.live[s.game].(offer := None)])
    ensures !AnswersOffer(w, s) ==> After(r, w, s) == w
  {
  }

  /** A game is created exactly for two users who are free, under a new id. */
  lemma MatchMeans(r: Rulebook, w: World, s: Step)
    requires Ok(w) && s.MatchMade?
    ensures MayStart(w, s) ==> |After(r, w, s).log| == |w.log| + 1 && s.id in After(r, w, s).live
    ensures !MayStart(w, s) ==> After(r, w, s) == w
  {
    NewMatchIsOrdered(s.id, s.user1, s.user2, s.whiteFirst);
    var g := NewMatch(s.id, s.user1, s.user2, s.whiteFirst);
    assert g.HasPlayer(s.user1) && g.HasPlayer(s.user2);
    if s.id in w.live {
      assert s.id in w.cached;
    }
  }

  lemma ResignationEnds(r: Rulebook, w: World, s: Step)
    requires Ok(w) && OwnResignation(w, s)
    ensures var log := After(r, w, s).log; |log| == |w.log| + 1 && log[..|w.log|] == w.log && s.game !in After(r, w, s).live
  {
  }

  // ------------------------------------------------------------- every run

  /** On every run each event was earned at the step that published it. */
  lemma RunsEarn(r: Rulebook, steps: seq<Step>, i: nat)
    requires i < |Run(r, steps).log|
    ensures exists k :: 0 <= k < |steps| && PublishedBy(Worlds(r, steps), i, Run(r, steps).log[i], k)
                        && Earned(r, Worlds(r, steps)[k], steps[k], Run(r, steps).log[i])
  {
    var ws := Worlds(r, steps);
    RunIsTrace(r, steps);
    var k := EventHasStep(r, steps, ws, |steps|, i);
    assert Leads(r, steps, ws, k);
    StepEarns(r, ws[k], steps[k]);
  }

  /** Each move of the list was taken by the rules after those before it. */
  predicate AllAccepted(r: Rulebook, moves: seq<string>) {
    forall k :: 0 <= k < |moves| ==> r.accepts(moves[..k], moves[k])
  }

  /** What the rules say of the moves is what has been published: every cached list of moves was taken move by move,
      a game that goes on is undecided after its last move, and one that a move ended has the verdict on its moves. */
  ghost predicate Ruled(r: Rulebook, w: World) {
    && (forall id :: id in w.cached ==> AllAccepted(r, w.cached[id].moves))
    && (forall id :: id in w.live ==> w.live[id].moves == [] || r.verdict(w.live[id].moves) == NoOutcome)
    && EndingsRuled(r, w)
  }

  ghost predicate EndingsRuled(r: Rulebook, w: World) {
    forall i :: 0 <= i < |w.log| && w.log[i].GameEnded? && w.log[i].ending == ByMove ==>
      w.log[i].game in w.cached && w.log[i].outcome == r.verdict(w.cached[w.log[i].game].moves)
  }

  lemma AcceptedMore(r: Rulebook, moves: seq<string>, move: string)
    requires AllAccepted(r, moves) && r.accepts(moves, move)
    ensures AllAccepted(r, moves + [move])
  {
    forall k | 0 <= k < |moves + [move]|
      ensures r.accepts((moves + [move])[..k], (moves + [move])[k])
    {
      assert (moves + [move])[..k] == moves[..k];
      assert moves[..|moves|] == moves;
    }
  }

  /** A step other than a taken move leaves the moves of all games as they are; new games have none. */
  ghost predicate MovesStay(w: World, w': World) {
    && (forall id :: id in w.cached ==> id in w'.cached && w'.cached[id].moves == w.cached[id].moves)
    && (forall id :: id in w'.cached && id !in w.cached ==> w'.cached[id].moves == [])
    && (forall id :: id in w'.live ==> w'.live[id].moves == [] || (id in w.live && w'.live[id].moves == w.live[id].moves))
  }

  lemma OthersStay(r: Rulebook, w: World, s: Step)
    requires Ok(w) && !Taken(r, w, s)
    ensures MovesStay(w, After(r, w, s))
  {
    if s.Tick? {
      var quiet := w.(left := w.left - s.picks.Keys);
      TrackerIsApart(w, quiet.left);
      LeavingKeepsMoves(quiet, s.picks, s.games);
      LeavingKeepsLive(quiet, s.picks, s.games);
    } else if s.Move? {
      NotTaken(r, w, s);
    }
  }

  lemma NotTaken(r: Rulebook, w: World, s: Step)
    requires Ok(w) && s.Move? && !Taken(r, w, s)
    ensures After(r, w, s) == w
  {
  }

  /** A taken move is added to the list of its game and of no other. */
  ghost predicate MoveAdded(r: Rulebook, w: World, s: Step, w': World)
    requires Taken(r, w, s) && s.game in w.cached
  {
    var moves := w.live[s.game].moves + [s.move];
    && w'.cached.Keys == w.cached.Keys && w'.cached[s.game].moves == moves
    && (forall id :: id in w.cached && id != s.game ==> w'.cached[id] == w.cached[id])
    && (forall id :: id in w'.live ==> if id == s.game then w'.live[id].moves == moves && r.verdict(moves) == NoOutcome
                                       else id in w.live && w'.live[id] == w.live[id])
  }

  lemma TakenAdds(r: Rulebook, w: World, s: Step)
    requires Ok(w) && Taken(r, w, s)
    ensures s.game in w.cached && w.cached[s.game].moves == w.live[s.game].moves && MoveAdded(r, w, s, After(r, w, s))
  {
  }

  lemma MoveKeepsRuled(r: Rulebook, w: World, s: Step)
    requires Ok(w) && Ruled(r, w) && Taken(r, w, s)
    ensures Ruled(r, After(r, w, s))
  {
    var w' := After(r, w, s);
    TakenAdds(r, w, s);
    AcceptedMore(r, w.live[s.game].moves, s.move);
    MoveEarns(r, w, s);
    StepPublishes(r, w, s);
    MoveKeepsEndings(r, w, s, w');
  }

  lemma MoveKeepsEndings(r: Rulebook, w: World, s: Step, w': World)
    requires LiveOk(w) && EndingsFinal(w) && EndingsRuled(r, w) && Taken(r, w, s) && s.game in w.cached && MoveAdded(r, w, s, w')
    requires w.log <= w'.log && forall i :: |w.log| <= i < |w'.log| ==> Earned(r, w, s, w'.log[i])
    ensures EndingsRuled(r, w')
  {
    forall i | 0 <= i < |w'.log| && w'.log[i].GameEnded? && w'.log[i].ending == ByMove
      ensures w'.log[i].game in w'.cached && w'.log[i].outcome == r.verdict(w'.cached[w'.log[i].game].moves)
    {
      if i < |w.log| {
        assert w'.log[i] == w.log[i];
      } else {
        assert Earned(r, w, s, w'.log[i]);
      }
    }
  }

  lemma OthersKeepRuled(r: Rulebook, w: World, s: Step)
    requires Ok(w) && Ruled(r, w) && !Taken(r, w, s)
    ensures Ruled(r, After(r, w, s))
  {
    var w' := After(r, w, s);
    OthersStay(r, w, s);
    StepEarns(r, w, s);
    StepPublishes(r, w, s);
    forall i | |w.log| <= i < |w'.log|
      ensures !(w'.log[i].GameEnded? && w'.log[i].ending == ByMove)
    {
      assert Earned(r, w, s, w'.log[i]);
    }
    assert forall i :: 0 <= i < |w.log| ==> w'.log[i] == w.log[i];
  }

  /** On every run the published results of moves are those of the rules. */
  lemma {:induction false} RunsFollowRules(r: Rulebook, steps: seq<Step>)
    ensures Ruled(r, Run(r, steps))
    decreases |steps|
  {
    if steps != [] {
      var front, last := steps[..|steps| - 1], steps[|steps| - 1];
      RunsFollowRules(r, front);
      RunKeepsOk(r, front);
      if Taken(r, Run(r, front), last) {
        MoveKeepsRuled(r, Run(r, front), last);
      } else {
        OthersKeepRuled(r, Run(r, front), last);
      }
    }
  }
}
