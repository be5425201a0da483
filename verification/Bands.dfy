/** In which order those who wait are matched: by bands of scores, the best first, and within a band by arrival. */
module Bands {
  import opened Basics
  import opened Lifecycle
  import opened Matchmaking

  predicate Bound(b: int) {
    b == 1200 || b == 1400 || b == 1600 || b == 1800 || b == 2000
  }

  /** Some bound lies between the two scores: the second is in a higher band. */
  predicate Lower(score: int, other: int) {
    exists b :: Bound(b) && score <= b < other
  }

  lemma BandsAreLevels(score: int, other: int)
    ensures Lower(score, other) <==> LevelNo(score) < LevelNo(other)
  {
    if LevelNo(score) < LevelNo(other) {
      var b := if score <= 1200 then 1200 else if score <= 1400 then 1400 else if score <= 1600 then 1600 else if score <= 1800 then 1800 else 2000;
      assert Bound(b) && score <= b < other;
    }
  }

  // ------------------------------------------------------------- the best first

  /** The levels of a sequence do not rise. */
  ghost predicate Falling(all: seq<Request>) {
    forall i, j :: 0 <= i < j < |all| ==> LevelNo(all[i].score) >= LevelNo(all[j].score)
  }

  ghost predicate AllAt(queue: seq<Request>, l: int) {
    forall i :: 0 <= i < |queue| ==> LevelNo(queue[i].score) == l
  }

  ghost predicate AllBelow(all: seq<Request>, l: int) {
    forall i :: 0 <= i < |all| ==> LevelNo(all[i].score) < l
  }

  lemma FallingConcat(a: seq<Request>, b: seq<Request>, l: int)
    requires AllAt(a, l) && AllBelow(b, l) && Falling(b)
    ensures Falling(a + b) && AllBelow(a + b, l + 1)
  {
  }

  lemma {:induction false} BelowFalls(queue: seq<seq<Request>>, l: nat)
    requires l <= |queue| && forall k :: 0 <= k < l ==> AllAt(queue[k], k)
    ensures Falling(Below(queue, l)) && AllBelow(Below(queue, l), l)
  {
    if l > 0 {
      BelowFalls(queue, l - 1);
      FallingConcat(queue[l - 1], Below(queue, l - 1), l - 1);
    }
  }

  lemma WaitingFalls(s: Lobby)
    requires LevelsKept(s)
    ensures Falling(Waiting(s))
  {
    forall k | 0 <= k < |s.queue|
      ensures AllAt(s.queue[k], k)
    {
    }
    BelowFalls(s.queue, |s.queue|);
  }

  /** Of two who wait, the one that comes first is never in a lower band. */
  lemma BestFirst(s: Lobby, i: nat, j: nat)
    requires LobbyOk(s) && i < j < |Waiting(s)|
    ensures !exists b :: Bound(b) && Waiting(s)[i].score <= b < Waiting(s)[j].score
  {
    WaitingFalls(s);
    BandsAreLevels(Waiting(s)[i].score, Waiting(s)[j].score);
  }

  /** So neither score of a match is in a lower band than one of a later match of the same tick. */
  lemma MatchesBestFirst(s: Lobby, draw: nat -> Id, k: nat, l: nat, b: int)
    requires LobbyOk(s) && k < l < |Waiting(s)| / 2 && Bound(b)
    ensures var matches := Matched(s, draw).matches[|s.matches|..];
            && |matches| == |Waiting(s)| / 2
            && (b < matches[l].score1 || b < matches[l].score2 ==> b < matches[k].score1 && b < matches[k].score2)
  {
    var all := Waiting(s);
    var matches := Matched(s, draw).matches[|s.matches|..];
    assert matches == Pairs(all, draw);
    assert matches[k] == Paired(draw(k), all[2 * k], all[2 * k + 1]) && matches[l] == Paired(draw(l), all[2 * l], all[2 * l + 1]);
    NotLower(s, 2 * k, 2 * l, b);
    NotLower(s, 2 * k, 2 * l + 1, b);
    NotLower(s, 2 * k + 1, 2 * l, b);
    NotLower(s, 2 * k + 1, 2 * l + 1, b);
  }

  lemma NotLower(s: Lobby, i: nat, j: nat, b: int)
    requires LobbyOk(s) && i < j < |Waiting(s)| && Bound(b)
    ensures b < Waiting(s)[j].score ==> b < Waiting(s)[i].score
  {
    BestFirst(s, i, j);
  }

  // ------------------------------------------------------------- then by arrival

  /** Every queue is in the order in which its requests were made. */
  ghost predicate InOrder(queue: seq<Request>, n: nat) {
    && (forall i :: 0 <= i < |queue| ==> queue[i].no < n)
    && forall i, j :: 0 <= i < j < |queue| ==> queue[i].no < queue[j].no
  }

  ghost predicate AllInOrder(s: Lobby) {
    forall l :: 0 <= l < |s.queue| ==> InOrder(s.queue[l], |s.made|)
  }

  lemma AddedInOrder(s: Lobby, user: Id, score: int)
    requires |s.queue| == LEVELS && AllInOrder(s)
    ensures AllInOrder(Added(s, user, score))
  {
    var s' := Added(s, user, score);
    forall l | 0 <= l < |s'.queue|
      ensures InOrder(s'.queue[l], |s'.made|)
    {
      assert InOrder(s.queue[l], |s.made|);
    }
  }

  lemma CutInOrder(queue: seq<Request>, i: nat, n: nat)
    requires InOrder(queue, n) && i < |queue|
    ensures InOrder(queue[..i] + queue[i + 1..], n)
  {
  }

  lemma CancelledInOrder(s: Lobby, r: Request)
    requires |s.queue| == LEVELS && AllInOrder(s)
    ensures AllInOrder(Cancelled(s, r))
  {
    var l := LevelNo(r.score);
    var i := PlaceOf(s.queue[l], r.user);
    assert InOrder(s.queue[l], |s.made|);
    if i < |s.queue[l]| {
      CutInOrder(s.queue[l], i, |s.made|);
    }
  }

  lemma MatchedInOrder(s: Lobby, draw: nat -> Id)
    requires LobbyOk(s) && AllInOrder(s)
    ensures AllInOrder(Matched(s, draw))
  {
    var all, s' := Waiting(s), Matched(s, draw);
    forall l | 0 <= l < |s'.queue|
      ensures InOrder(s'.queue[l], |s'.made|)
    {
      if |all| % 2 == 1 {
        WaitingWasMade(s, all[|all| - 1]);
      }
    }
  }

  lemma WaitingWasMade(s: Lobby, r: Request)
    requires LobbyOk(s) && AllInOrder(s) && r in Waiting(s)
    ensures r.no < |s.made|
  {
    FlatMember(s.queue, r);
    var l :| 0 <= l < |s.queue| && r in s.queue[l];
    assert InOrder(s.queue[l], |s.made|);
  }

  lemma {:induction false} RunsKeepOrder(steps: seq<LobbyStep>)
    ensures AllInOrder(LobbyRun(steps))
    decreases |steps|
  {
    if steps != [] {
      var s := LobbyRun(steps[..|steps| - 1]);
      RunsKeepOrder(steps[..|steps| - 1]);
      RunKeepsLobbyOk(steps[..|steps| - 1]);
      match steps[|steps| - 1]
      case Add(user, score) => AddedInOrder(s, user, score);
      case Cancel(no) => if no < |s.made| { CancelledInOrder(s, s.made[no]); }
      case Find(draw) => MatchedInOrder(s, draw);
    }
  }

  /** In one band the earlier comes first. */
  ghost predicate ByArrival(all: seq<Request>) {
    forall i, j :: 0 <= i < j < |all| && LevelNo(all[i].score) == LevelNo(all[j].score) ==> all[i].no < all[j].no
  }

  lemma ByArrivalConcat(a: seq<Request>, b: seq<Request>, l: int, n: nat)
    requires AllAt(a, l) && InOrder(a, n) && AllBelow(b, l) && ByArrival(b)
    ensures ByArrival(a + b)
  {
  }

  lemma {:induction false} BelowByArrival(queue: seq<seq<Request>>, l: nat, n: nat)
    requires l <= |queue| && forall k :: 0 <= k < l ==> AllAt(queue[k], k) && InOrder(queue[k], n)
    ensures ByArrival(Below(queue, l))
  {
    if l > 0 {
      BelowFalls(queue, l - 1);
      BelowByArrival(queue, l - 1, n);
      ByArrivalConcat(queue[l - 1], Below(queue, l - 1), l - 1, n);
    }
  }

  /** On every run, of two who wait in the same band the one who asked earlier comes first. */
  lemma FirstComeFirstServed(steps: seq<LobbyStep>, i: nat, j: nat)
    requires var all := Waiting(LobbyRun(steps));
             i < j < |all| && !Lower(all[i].score, all[j].score) && !Lower(all[j].score, all[i].score)
    ensures var all := Waiting(LobbyRun(steps)); all[i].no < all[j].no
  {
    var s := LobbyRun(steps);
    RunKeepsLobbyOk(steps);
    RunsKeepOrder(steps);
    forall k | 0 <= k < |s.queue|
      ensures AllAt(s.queue[k], k) && InOrder(s.queue[k], |s.made|)
    {
    }
    BelowByArrival(s.queue, |s.queue|, |s.made|);
    BandsAreLevels(Waiting(s)[i].score, Waiting(s)[j].score);
    BandsAreLevels(Waiting(s)[j].score, Waiting(s)[i].score);
  }
}
