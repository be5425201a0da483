/** From games to ratings: what the game service publishes on any run is what the rating service counts on. */
module Standings {
  import opened Elo
  import opened Lifecycle
  import R = Ratings

  /** Matches are made between two different users. */
  predicate TwoUsers(s: Step) {
    s.MatchMade? ==> s.user1 != s.user2
  }

  ghost predicate AllTwoUsers(steps: seq<Step>) {
    forall i :: 0 <= i < |steps| ==> TwoUsers(steps[i])
  }

  ghost predicate LiveProper(w: World) {
    forall id :: id in w.live ==> w.live[id].player1.id != w.live[id].player2.id
  }

  ghost predicate EndingsProper(log: seq<Event>) {
    forall i :: 0 <= i < |log| && log[i].GameEnded? ==> R.Proper(log[i])
  }

  lemma EndedKeepsProper(w: World, g: Match, ending: Ending)
    requires LiveProper(w) && EndingsProper(w.log) && g.player1.id != g.player2.id && g.player1.color != g.player2.color
    ensures LiveProper(Ended(w, g, ending)) && EndingsProper(Ended(w, g, ending).log)
  {
    LogGrows(w.log, GameEnded(g.id, g.player1, g.player2, g.outcome, ending));
  }

  lemma {:induction false} LeavingKeepsProper(w: World, picks: map<Id, Id>, games: seq<Id>)
    requires Ok(w) && LiveProper(w) && EndingsProper(w.log)
    ensures LiveProper(EndedByLeaving(w, picks, games)) && EndingsProper(EndedByLeaving(w, picks, games).log)
    decreases |games|
  {
    if games != [] {
      var before, id := EndedByLeaving(w, picks, games[..|games| - 1]), games[|games| - 1];
      LeavingKeepsProper(w, picks, games[..|games| - 1]);
      LeavingKeepsOk(w, picks, games[..|games| - 1]);
      if EndsOnTick(before, picks, id) {
        EndedKeepsProper(before, ResignedBy(before.live[id], picks[id]), ByLeaving);
      }
    }
  }

  lemma MovedKeepsProper(r: Rulebook, w: World, id: Id, p: Id, move: string, index: int)
    requires Ok(w) && LiveProper(w) && EndingsProper(w.log)
    ensures var w' := PlayerMoved(r, w, id, p, move, index); LiveProper(w') && EndingsProper(w'.log)
  {
    if Handles(w, id) && CanMove(r, w.live[id], p, move, index) {
      var g := Moved(r, w.live[id], move);
      var e := MoveApproved(id, p, move, index);
      LogGrows(w.log, e);
      if g.outcome != NoOutcome {
        var over := g.(status := Deactive);
        EndedKeepsProper(Advanced(w, over, e), over, ByMove);
      }
    }
  }

  lemma ClaimedKeepsProper(r: Rulebook, w: World, id: Id, p: Id, how: Method)
    requires Ok(w) && LiveProper(w) && EndingsProper(w.log)
    ensures var w' := DrawClaimed(r, w, id, p, how); LiveProper(w') && EndingsProper(w'.log)
  {
    LogGrows(w.log, ClaimApproved(id, p, how));
    if Handles(w, id) && how != DrawOffer && CanClaim(r, w.live[id], p, how) {
      EndedKeepsProper(w.(log := w.log + [ClaimApproved(id, p, how)]), w.live[id].(outcome := Draw), ByClaim);
    }
  }

  lemma StepKeepsProper(r: Rulebook, w: World, s: Step)
    requires Ok(w) && LiveProper(w) && EndingsProper(w.log) && TwoUsers(s)
    ensures LiveProper(After(r, w, s)) && EndingsProper(After(r, w, s).log)
  {
    match s
    case MatchMade(id, u1, u2, whiteFirst) =>
      var g := NewMatch(id, u1, u2, whiteFirst);
      LogGrows(w.log, GameCreated(id, g.player1, g.player2));
    case Move(id, p, move, index) => MovedKeepsProper(r, w, id, p, move, index);
    case Claim(id, p, how) => ClaimedKeepsProper(r, w, id, p, how);
    case Answer(id, p, accept) =>
      if Handles(w, id) && CanAnswer(w.live[id], p) && accept {
        EndedKeepsProper(w, w.live[id].(outcome := Draw), ByAgreement);
      }
    case Resign(id, p) =>
      if Handles(w, id) && w.live[id].HasPlayer(p) {
        EndedKeepsProper(w, ResignedBy(w.live[id], p), ByResignation);
      }
    case Leave(id, p, now) =>
    case Join(id, p) =>
    case SeeEnded(id) =>
    case Tick(limit, picks, games) =>
      TrackerIsApart(w, w.left - picks.Keys);
      LeavingKeepsProper(w.(left := w.left - picks.Keys), picks, games);
  }

  lemma {:induction false} RunsKeepProper(r: Rulebook, steps: seq<Step>)
    requires AllTwoUsers(steps)
    ensures LiveProper(Run(r, steps)) && EndingsProper(Run(r, steps).log)
    decreases |steps|
  {
    if steps != [] {
      var front := steps[..|steps| - 1];
      RunsKeepProper(r, front);
      RunKeepsOk(r, front);
      StepKeepsProper(r, Run(r, front), steps[|steps| - 1]);
    }
  }

  /** The endings among published events, in order. */
  function Endings(log: seq<Event>): seq<Event> {
    if log == [] then []
    else Endings(log[..|log| - 1]) + if log[|log| - 1].GameEnded? then [log[|log| - 1]] else []
  }

  lemma {:induction false} EndingsMember(log: seq<Event>, k: nat)
    requires k < |Endings(log)|
    ensures Endings(log)[k].GameEnded? && exists i :: 0 <= i < |log| && log[i] == Endings(log)[k]
  {
    var front := log[..|log| - 1];
    if k < |Endings(front)| {
      EndingsMember(front, k);
      var i :| 0 <= i < |front| && front[i] == Endings(front)[k];
      assert log[i] == Endings(log)[k];
    } else {
      assert log[|log| - 1] == Endings(log)[k];
    }
  }

  /** Whatever happens in the game service, its endings are games between two users with a result; so in the
      ratings computed from them every user's games played are won, lost or drawn, the score is the base plus
      all recorded changes and at least the base, and the best score is the highest reached. */
  lemma RunsFeedRatings(pw: real -> real, r: Rulebook, steps: seq<Step>, u: Id)
    requires PowerLike(pw) && AllTwoUsers(steps)
    ensures var events := Endings(Run(r, steps).log);
            && R.AllProper(events) && R.AllDecided(events, u)
            && R.Accounted(R.Run(pw, events), events, u)
            && var rating := R.RatingOf(R.Run(pw, events), u); rating.played == rating.won + rating.lost + rating.drawn
  {
    var log := Run(r, steps).log;
    var events := Endings(log);
    RunsKeepProper(r, steps);
    forall k | 0 <= k < |events|
      ensures R.Proper(events[k]) && events[k].outcome != NoOutcome
    {
      EndingsMember(log, k);
      var i :| 0 <= i < |log| && log[i] == events[k];
      RunsEndOnce(r, steps, i, i);
    }
    R.RunsAccount(pw, events, u);
    R.PlayedAddsUp(pw, events, u);
  }
}
