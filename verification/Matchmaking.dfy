/** The matchmaking engine: queues by level, requests added and cancelled, and a ticker that pairs what waits. */
module Matchmaking {
  import opened Basics
  import opened Elo
  import opened Lifecycle

  const LEVELS: nat := 6

  /** Levels in order, counted from 0 for pawns to 5 for kings. */
  function LevelNo(score: int): (n: nat)
    ensures n < LEVELS
  {
    match LevelOf(score)
    case Pawn => 0
    case Knight => 1
    case Bishop => 2
    case Rook => 3
    case Queen => 4
    case King => 5
  }

  /** A request as a value; `no` tells requests apart, as their addresses do. */
  datatype Request = Request(no: nat, user: Id, score: int)

  datatype Pairing = Pairing(id: Id, user1: Id, score1: int, user2: Id, score2: int)

  datatype Send = Send(request: Request, pairing: Pairing)

  /** One queue a level, with all requests ever made, all answers sent, all matches found and all requests cancelled. */
  datatype Lobby = Lobby(
    queue: seq<seq<Request>>,
    made: seq<Request>,
    sent: seq<Send>,
    matches: seq<Pairing>,
    cancelled: seq<Request>)

  /** The queues below level l in one sequence, the highest level first. */
  function Below<T>(queue: seq<seq<T>>, l: nat): seq<T>
    requires l <= |queue|
  {
    if l == 0 then [] else queue[l - 1] + Below(queue, l - 1)
  }

  /** The queues from level l on, the highest level first. */
  function From<T>(queue: seq<seq<T>>, l: nat): seq<T>
    requires l <= |queue|
    decreases |queue| - l
  {
    if l == |queue| then [] else From(queue, l + 1) + queue[l]
  }

  /** All queues in one sequence, the highest level first. */
  function Flat<T>(queue: seq<seq<T>>): seq<T> {
    Below(queue, |queue|)
  }

  function Waiting(s: Lobby): seq<Request> {
    Flat(s.queue)
  }

  predicate Asking(all: seq<Request>, user: Id) {
    exists i :: 0 <= i < |all| && all[i].user == user
  }

  function Added(s: Lobby, user: Id, score: int): Lobby
    requires |s.queue| == LEVELS
  {
    if Asking(Waiting(s), user) then s
    else
      var r, l := Request(|s.made|, user, score), LevelNo(score);
      s.(queue := s.queue[l := s.queue[l] + [r]], made := s.made + [r])
  }

  /** The first position of a user in a queue, or its length. */
  function PlaceOf(queue: seq<Request>, user: Id): (i: nat)
    ensures i <= |queue| && (i < |queue| ==> queue[i].user == user)
    ensures forall j :: 0 <= j < i ==> queue[j].user != user
  {
    if queue == [] || queue[0].user == user then 0 else 1 + PlaceOf(queue[1..], user)
  }

  function Cancelled(s: Lobby, r: Request): Lobby
    requires |s.queue| == LEVELS
  {
    var l := LevelNo(r.score);
    var queue := s.queue[l];
    var i := PlaceOf(queue, r.user);
    if i == |queue| then s
    else s.(queue := s.queue[l := queue[..i] + queue[i + 1..]], cancelled := s.cancelled + [queue[i]])
  }

  function Paired(id: Id, r1: Request, r2: Request): Pairing {
    Pairing(id, r1.user, r1.score, r2.user, r2.score)
  }

  /** The consecutive pairs of a sequence; `draw` gives the id of the k-th match. */
  function Pairs(all: seq<Request>, draw: nat -> Id): seq<Pairing> {
    seq(|all| / 2, k requires 0 <= k < |all| / 2 => Paired(draw(k), all[2 * k], all[2 * k + 1]))
  }

  /** Both requests of a pair are sent the match. */
  function Sends(all: seq<Request>, draw: nat -> Id): seq<Send> {
    var pairs := Pairs(all, draw);
    seq(2 * |pairs|, k requires 0 <= k < 2 * |pairs| => Send(all[k], pairs[k / 2]))
  }

  /** Only the odd last request, if there is one, stays; it waits at its own level. */
  function Left(all: seq<Request>): seq<seq<Request>> {
    seq(LEVELS, l => if |all| % 2 == 1 && l == LevelNo(all[|all| - 1].score) then [all[|all| - 1]] else [])
  }

  /** Everyone waiting, best level first, is paired off two by two. */
  function Matched(s: Lobby, draw: nat -> Id): Lobby {
    var all := Waiting(s);
    s.(queue := Left(all), sent := s.sent + Sends(all, draw), matches := s.matches + Pairs(all, draw))
  }

  // --------------------------------------------------------- queues, cut at one level

  lemma {:induction false} CutAbove<T>(queue: seq<seq<T>>, l: nat)
    requires l <= |queue|
    ensures Flat(queue) == From(queue, l) + Below(queue, l)
    decreases |queue| - l
  {
    if l < |queue| {
      CutAbove(queue, l + 1);
      Reassociate(From(queue, l + 1), queue[l], Below(queue, l));
    }
  }

  lemma CutAt<T>(queue: seq<seq<T>>, l: nat)
    requires l < |queue|
    ensures Flat(queue) == From(queue, l + 1) + queue[l] + Below(queue, l)
  {
    CutAbove(queue, l);
  }

  lemma {:induction false} BelowLocal<T>(queue: seq<seq<T>>, queue': seq<seq<T>>, l: nat)
    requires l <= |queue| && l <= |queue'| && forall k :: 0 <= k < l ==> queue[k] == queue'[k]
    ensures Below(queue, l) == Below(queue', l)
  {
    if l > 0 {
      BelowLocal(queue, queue', l - 1);
    }
  }

  lemma {:induction false} FromLocal<T>(queue: seq<seq<T>>, queue': seq<seq<T>>, l: nat)
    requires l <= |queue| == |queue'| && forall k :: l <= k < |queue| ==> queue[k] == queue'[k]
    ensures From(queue, l) == From(queue', l)
    decreases |queue| - l
  {
    if l < |queue| {
      FromLocal(queue, queue', l + 1);
    }
  }

  /** Replacing one queue replaces one stretch of what waits. */
  lemma ReplaceAt<T>(queue: seq<seq<T>>, l: nat, s: seq<T>)
    requires l < |queue|
    ensures Flat(queue) == From(queue, l + 1) + queue[l] + Below(queue, l)
    ensures Flat(queue[l := s]) == From(queue, l + 1) + s + Below(queue, l)
  {
    CutAt(queue, l);
    CutAt(queue[l := s], l);
    FromLocal(queue, queue[l := s], l + 1);
    BelowLocal(queue, queue[l := s], l);
  }

  lemma {:induction false} BelowNothing<T>(queue: seq<seq<T>>, l: nat)
    requires l <= |queue| && forall k :: 0 <= k < l ==> queue[k] == []
    ensures Below(queue, l) == []
  {
    if l > 0 {
      BelowNothing(queue, l - 1);
    }
  }

  lemma FlatNothing<T>(queue: seq<seq<T>>)
    requires forall l :: 0 <= l < |queue| ==> queue[l] == []
    ensures Flat(queue) == []
  {
    BelowNothing(queue, |queue|);
  }

  /** If only one queue holds anything, that is what waits. */
  lemma OnlyOne<T>(queue: seq<seq<T>>, l: nat, s: seq<T>)
    requires l < |queue| && queue[l] == s && forall k :: 0 <= k < |queue| && k != l ==> queue[k] == []
    ensures Flat(queue) == s
  {
    var none := queue[l := []];
    FlatNothing(none);
    ReplaceAt(none, l, s);
    assert none[l := s] == queue;
    assert From(none, l + 1) == [] && Below(none, l) == [];
  }

  // -------------------------------------------------------------- the invariant

  ghost predicate LevelsKept(s: Lobby) {
    |s.queue| == LEVELS && forall l, i :: 0 <= l < LEVELS && 0 <= i < |s.queue[l]| ==> LevelNo(s.queue[l][i].score) == l
  }

  ghost predicate UsersUnique(all: seq<Request>) {
    forall i, j :: 0 <= i < j < |all| ==> all[i].user != all[j].user
  }

  ghost predicate Numbered(made: seq<Request>) {
    forall i :: 0 <= i < |made| ==> made[i].no == i
  }

  function Answered(sent: seq<Send>): seq<Request> {
    seq(|sent|, i requires 0 <= i < |sent| => sent[i].request)
  }

  /** Every request ever made is, exactly once, answered, cancelled or waiting. */
  ghost predicate Conserved(s: Lobby) {
    multiset(s.made) == multiset(Answered(s.sent)) + multiset(s.cancelled) + multiset(Waiting(s))
  }

  ghost predicate LobbyOk(s: Lobby) {
    LevelsKept(s) && UsersUnique(Waiting(s)) && Numbered(s.made) && Conserved(s) && |s.sent| == 2 * |s.matches|
  }

  lemma InsertUnique(a: seq<Request>, b: seq<Request>, c: seq<Request>, r: Request)
    requires UsersUnique(a + b + c) && forall i :: 0 <= i < |a + b + c| ==> (a + b + c)[i].user != r.user
    ensures UsersUnique(a + (b + [r]) + c)
    ensures multiset(a + (b + [r]) + c) == multiset(a + b + c) + multiset{r}
  {
    var before, after := a + b + c, a + (b + [r]) + c;
    var n := |a + b|;
    assert forall i :: 0 <= i < n ==> after[i] == before[i];
    assert after[n] == r;
    assert forall i :: n < i < |after| ==> after[i] == before[i - 1];
  }

  lemma RemoveUnique(a: seq<Request>, b: seq<Request>, c: seq<Request>, k: nat)
    requires UsersUnique(a + b + c) && k < |b|
    ensures UsersUnique(a + (b[..k] + b[k + 1..]) + c)
    ensures multiset(a + b + c) == multiset(a + (b[..k] + b[k + 1..]) + c) + multiset{b[k]}
  {
    var before, after := a + b + c, a + (b[..k] + b[k + 1..]) + c;
    var n := |a| + k;
    assert forall i :: 0 <= i < n ==> after[i] == before[i];
    assert forall i :: n <= i < |after| ==> after[i] == before[i + 1];
    assert b == b[..k] + [b[k]] + b[k + 1..];
  }

  /** What adding, cancelling and matching do to what waits. */
  lemma AddedWaiting(s: Lobby, user: Id, score: int)
    requires LobbyOk(s) && Added(s, user, score) != s
    ensures var s', r := Added(s, user, score), Request(|s.made|, user, score);
            UsersUnique(Waiting(s')) && multiset(Waiting(s')) == multiset(Waiting(s)) + multiset{r}
  {
    var r, l := Request(|s.made|, user, score), LevelNo(score);
    ReplaceAt(s.queue, l, s.queue[l] + [r]);
    InsertUnique(From(s.queue, l + 1), s.queue[l], Below(s.queue, l), r);
  }

  lemma AddingKeepsOk(s: Lobby, user: Id, score: int)
    requires LobbyOk(s)
    ensures LobbyOk(Added(s, user, score))
  {
    if Added(s, user, score) != s {
      AddedWaiting(s, user, score);
    }
  }

  lemma CancelledWaiting(s: Lobby, r: Request)
    requires LobbyOk(s) && Cancelled(s, r) != s
    ensures var s', out := Cancelled(s, r), s.queue[LevelNo(r.score)][PlaceOf(s.queue[LevelNo(r.score)], r.user)];
            UsersUnique(Waiting(s')) && multiset(Waiting(s)) == multiset(Waiting(s')) + multiset{out}
  {
    var l := LevelNo(r.score);
    var queue := s.queue[l];
    var i := PlaceOf(queue, r.user);
    ReplaceAt(s.queue, l, queue[..i] + queue[i + 1..]);
    RemoveUnique(From(s.queue, l + 1), queue, Below(s.queue, l), i);
  }

  lemma CancelledKeepsLevels(s: Lobby, r: Request)
    requires LevelsKept(s)
    ensures LevelsKept(Cancelled(s, r))
  {
  }

  lemma CancellingKeepsOk(s: Lobby, r: Request)
    requires LobbyOk(s)
    ensures LobbyOk(Cancelled(s, r))
  {
    CancelledKeepsLevels(s, r);
    if Cancelled(s, r) != s {
      CancelledWaiting(s, r);
    }
  }

  /** What waits after matching: nobody, or the odd last request. */
  lemma LeftWaits(all: seq<Request>)
    ensures Flat(Left(all)) == all[2 * (|all| / 2)..]
  {
    if |all| % 2 == 1 {
      OnlyOne(Left(all), LevelNo(all[|all| - 1].score), [all[|all| - 1]]);
    } else {
      FlatNothing(Left(all));
    }
  }

  lemma LeftKeepsLevels(s: Lobby, draw: nat -> Id)
    ensures LevelsKept(Matched(s, draw))
  {
  }

  lemma SendsAnswer(s: Lobby, draw: nat -> Id)
    ensures var all := Waiting(s);
            Answered(s.sent + Sends(all, draw)) == Answered(s.sent) + all[..2 * (|all| / 2)]
  {
  }

  lemma MatchingKeepsOk(s: Lobby, draw: nat -> Id)
    requires LobbyOk(s)
    ensures LobbyOk(Matched(s, draw))
  {
    var all, s' := Waiting(s), Matched(s, draw);
    LeftKeepsLevels(s, draw);
    LeftWaits(all);
    SendsAnswer(s, draw);
    Rejoined(all, 2 * (|all| / 2));
    assert Waiting(s') == all[2 * (|all| / 2)..];
  }

  lemma Rejoined(all: seq<Request>, n: nat)
    requires n <= |all|
    ensures multiset(all) == multiset(all[..n]) + multiset(all[n..])
  {
    assert all == all[..n] + all[n..];
  }

  // ------------------------------------------------------------------ every run

  datatype LobbyStep = Add(user: Id, score: int) | Cancel(no: nat) | Find(draw: nat -> Id)

  /** Requests are cancelled by those who made them, whatever became of them since. */
  function LobbyAfter(s: Lobby, step: LobbyStep): Lobby
    requires |s.queue| == LEVELS
  {
    match step
    case Add(user, score) => Added(s, user, score)
    case Cancel(no) => if no < |s.made| then Cancelled(s, s.made[no]) else s
    case Find(draw) => Matched(s, draw)
  }

  function EmptyLobby(): Lobby {
    Lobby(seq(LEVELS, l => []), [], [], [], [])
  }

  function LobbyRun(steps: seq<LobbyStep>): (s: Lobby)
    ensures |s.queue| == LEVELS
  {
    if steps == [] then EmptyLobby() else LobbyAfter(LobbyRun(steps[..|steps| - 1]), steps[|steps| - 1])
  }

  lemma EmptyLobbyOk()
    ensures LobbyOk(EmptyLobby())
  {
    var s := EmptyLobby();
    FlatNothing(s.queue);
    assert Waiting(s) == [] && Answered(s.sent) == [];
    assert LevelsKept(s) && UsersUnique([]) && Numbered([]);
  }

  lemma {:induction false} RunKeepsLobbyOk(steps: seq<LobbyStep>)
    ensures LobbyOk(LobbyRun(steps))
    decreases |steps|
  {
    if steps == [] {
      EmptyLobbyOk();
    } else {
      var s := LobbyRun(steps[..|steps| - 1]);
      RunKeepsLobbyOk(steps[..|steps| - 1]);
      match steps[|steps| - 1]
      case Add(user, score) => AddingKeepsOk(s, user, score);
      case Cancel(no) => if no < |s.made| { CancellingKeepsOk(s, s.made[no]); }
      case Find(draw) => MatchingKeepsOk(s, draw);
    }
  }

  lemma {:induction false} OnceEach(made: seq<Request>, r: Request)
    requires Numbered(made)
    ensures multiset(made)[r] <= 1
  {
    if made != [] {
      var front, last := made[..|made| - 1], made[|made| - 1];
      assert made == front + [last];
      OnceEach(front, r);
      if r == last {
        assert r !in front;
        assert multiset(front)[r] == 0;
      }
    }
  }

  lemma CountedTwice(s: seq<Request>, i: nat, j: nat)
    requires i < j < |s| && s[i] == s[j]
    ensures multiset(s)[s[i]] >= 2
  {
    var a, b := s[..j], s[j..];
    assert s == a + b && a[i] in a && b[0] in b;
  }

  /** A request is answered at most once, and then is neither cancelled nor still waiting; requests made are
      twice the matches, plus those cancelled, plus those waiting. */
  lemma RunsAnswerOnce(steps: seq<LobbyStep>, i: nat, j: nat)
    requires i < |LobbyRun(steps).sent|
    ensures var s := LobbyRun(steps); var r := s.sent[i].request;
            && r !in s.cancelled && r !in Waiting(s) && r in s.made
            && (j < |s.sent| && s.sent[j].request == r ==> i == j)
    ensures var s := LobbyRun(steps); |s.made| == 2 * |s.matches| + |s.cancelled| + |Waiting(s)|
  {
    var s := LobbyRun(steps);
    RunKeepsLobbyOk(steps);
    Disjointly(s, i, j);
    assert |multiset(s.made)| == |multiset(Answered(s.sent))| + |multiset(s.cancelled)| + |multiset(Waiting(s))|;
  }

  lemma Disjointly(s: Lobby, i: nat, j: nat)
    requires Numbered(s.made) && Conserved(s) && i < |s.sent|
    ensures var r := s.sent[i].request;
            && r !in s.cancelled && r !in Waiting(s) && r in s.made
            && (j < |s.sent| && s.sent[j].request == r ==> i == j)
  {
    var answered := Answered(s.sent);
    var r := answered[i];
    OnceEach(s.made, r);
    assert r in answered && multiset(answered)[r] >= 1;
    if j < |s.sent| && answered[j] == r && i != j {
      CountedTwice(answered, if i < j then i else j, if i < j then j else i);
    }
    assert r in multiset(s.made);
  }

  // ---------------------------------------------------------- what cancelling does

  /** The user waits at a level. */
  ghost predicate WaitsAt(s: Lobby, user: Id, l: nat)
    requires |s.queue| == LEVELS && l < LEVELS
  {
    exists i :: 0 <= i < |s.queue[l]| && s.queue[l][i].user == user
  }

  lemma {:induction false} BelowMember<T>(queue: seq<seq<T>>, l: nat, x: T)
    requires l <= |queue|
    ensures x in Below(queue, l) <==> exists k :: 0 <= k < l && x in queue[k]
  {
    if l > 0 {
      BelowMember(queue, l - 1, x);
    }
  }

  lemma FlatMember<T>(queue: seq<seq<T>>, x: T)
    ensures x in Flat(queue) <==> exists l :: 0 <= l < |queue| && x in queue[l]
  {
    BelowMember(queue, |queue|, x);
  }

  /** A waiting request is found in the queue of its own level, and there by its user. */
  lemma WaitsAtOwnLevel(s: Lobby, r: Request)
    requires LobbyOk(s)
    ensures r in Waiting(s) <==> r in s.queue[LevelNo(r.score)]
  {
    FlatMember(s.queue, r);
    if l :| 0 <= l < |s.queue| && r in s.queue[l] {
      assert l == LevelNo(r.score);
    }
  }

  lemma InTheMiddle<T>(all: seq<T>, a: seq<T>, b: seq<T>, c: seq<T>, i: nat)
    requires i < |b| && (all == a + b + c || all == a + (b + c))
    ensures |a| + i < |all| && all[|a| + i] == b[i]
  {
  }

  lemma PlaceIsRequest(s: Lobby, r: Request)
    requires LobbyOk(s) && r in s.queue[LevelNo(r.score)]
    ensures var queue := s.queue[LevelNo(r.score)]; PlaceOf(queue, r.user) < |queue| && queue[PlaceOf(queue, r.user)] == r
  {
    var l := LevelNo(r.score);
    var queue, above := s.queue[l], |From(s.queue, l + 1)|;
    var i := PlaceOf(queue, r.user);
    var k :| 0 <= k < |queue| && queue[k] == r;
    assert i <= k;
    CutAt(s.queue, l);
    InTheMiddle(Waiting(s), From(s.queue, l + 1), queue, Below(s.queue, l), i);
    InTheMiddle(Waiting(s), From(s.queue, l + 1), queue, Below(s.queue, l), k);
  }

  /** Cancelling takes out the very request exactly if it still waits. It takes out somebody's other request
      exactly if the request does not wait any more and its user waits again at the same level. */
  lemma CancelMeans(s: Lobby, no: nat)
    requires LobbyOk(s) && no < |s.made|
    ensures var r, s' := s.made[no], Cancelled(s, s.made[no]);
            && (s'.cancelled == s.cancelled + [r] <==> r in Waiting(s))
            && (s' != s && s'.cancelled != s.cancelled + [r] <==> r !in Waiting(s) && WaitsAt(s, r.user, LevelNo(r.score)))
            && (s' == s <==> !WaitsAt(s, r.user, LevelNo(r.score)))
  {
    var r, s' := s.made[no], Cancelled(s, s.made[no]);
    var queue := s.queue[LevelNo(r.score)];
    var i := PlaceOf(queue, r.user);
    WaitsAtOwnLevel(s, r);
    if r in queue {
      PlaceIsRequest(s, r);
    }
    if i < |queue| {
      assert WaitsAt(s, r.user, LevelNo(r.score));
      assert |s'.cancelled| == |s.cancelled| + 1 && s'.cancelled[|s.cancelled|] == queue[i];
      assert queue[i] in queue;
    }
  }

  /** After a request was answered, the user's next one at the same level is what cancelling the old one takes out. */
  lemma StaleCancelTakesNewer(s: Lobby, no: nat, score: int)
    requires LobbyOk(s) && no < |s.made| && s.made[no] !in Waiting(s) && LevelNo(score) == LevelNo(s.made[no].score)
    requires !Asking(Waiting(s), s.made[no].user)
    ensures var again := Added(s, s.made[no].user, score);
            && again.made == s.made + [Request(|s.made|, s.made[no].user, score)]
            && Cancelled(again, s.made[no]).cancelled == s.cancelled + [again.made[|s.made|]]
  {
    var r, l := s.made[no], LevelNo(score);
    var queue := s.queue[l];
    var again := Added(s, r.user, score);
    CutAt(s.queue, l);
    forall i | 0 <= i < |queue|
      ensures queue[i].user != r.user
    {
      assert Waiting(s)[|From(s.queue, l + 1)| + i] == queue[i];
    }
    assert again.queue[l] == queue + [Request(|s.made|, r.user, score)];
    var i := PlaceOf(again.queue[l], r.user);
    assert again.queue[l][|queue|].user == r.user;
    assert i == |queue|;
  }

  lemma TwoAreTold(a: Request, b: Request, draw: nat -> Id)
    ensures |Sends([a, b], draw)| == 2 && Sends([a, b], draw)[0].request == a
  {
  }

  ghost predicate OnlyAt(s: Lobby, l: nat) {
    |s.queue| == LEVELS && l < LEVELS && forall k :: 0 <= k < LEVELS && k != l ==> s.queue[k] == []
  }

  /** A new request goes to the end of the only queue in use. */
  lemma AddedBehind(s: Lobby, user: Id, score: int, l: nat)
    requires OnlyAt(s, l) && l == LevelNo(score) && !Asking(s.queue[l], user)
    ensures var s', r := Added(s, user, score), Request(|s.made|, user, score);
            && OnlyAt(s', l) && s'.queue[l] == Waiting(s') == s.queue[l] + [r] && s'.made == s.made + [r]
            && s'.sent == s.sent && s'.cancelled == s.cancelled
  {
    var r := Request(|s.made|, user, score);
    OnlyOne(s.queue, l, s.queue[l]);
    OnlyOne(s.queue[l := s.queue[l] + [r]], l, s.queue[l] + [r]);
  }

  lemma OneWaits(u: Id, score: int, l: nat)
    requires l == LevelNo(score)
    ensures var s, a := Added(EmptyLobby(), u, score), Request(0, u, score);
            LobbyOk(s) && OnlyAt(s, l) && s.queue[l] == s.made == [a] && s.sent == [] && s.cancelled == []
  {
    var s := EmptyLobby();
    RunKeepsLobbyOk([]);
    AddedBehind(s, u, score, l);
    AddingKeepsOk(s, u, score);
  }

  /** Two users of the same level ask, and wait in the order in which they asked. */
  lemma TwoWait(u: Id, v: Id, score: int, l: nat)
    requires u != v && l == LevelNo(score)
    ensures var s, a, b := Added(Added(EmptyLobby(), u, score), v, score), Request(0, u, score), Request(1, v, score);
            LobbyOk(s) && s.sent == [] && s.cancelled == [] && s.made == Waiting(s) == [a, b]
  {
    var s := Added(EmptyLobby(), u, score);
    OneWaits(u, score, l);
    AddedBehind(s, v, score, l);
    AddingKeepsOk(s, v, score);
  }

  /** After matching both are told and nobody waits. */
  lemma TwoMatched(s: Lobby, a: Request, b: Request, draw: nat -> Id)
    requires LobbyOk(s) && s.sent == [] && s.made == Waiting(s) == [a, b]
    ensures var s' := Matched(s, draw);
            && LobbyOk(s') && s'.made == s.made && s'.cancelled == s.cancelled && Waiting(s') == []
            && |s'.sent| == 2 && s'.sent[0].request == a
  {
    MatchingKeepsOk(s, draw);
    TwoAreTold(a, b, draw);
    LeftWaits([a, b]);
  }

  /** Such a run: 1 and 2 are matched, 1 asks again, and cancelling 1's first request cancels the second. */
  lemma CancelHitsNewer(draw: nat -> Id)
    ensures var s := Matched(Added(Added(EmptyLobby(), 1, 1000), 2, 1000), draw);
            && |s.sent| == 2 && s.sent[0].request == Request(0, 1, 1000)
            && Cancelled(Added(s, 1, 1000), Request(0, 1, 1000)).cancelled == [Request(2, 1, 1000)]
  {
    var s := Added(Added(EmptyLobby(), 1, 1000), 2, 1000);
    TwoWait(1, 2, 1000, LevelNo(1000));
    TwoMatched(s, s.made[0], s.made[1], draw);
    NewerIsCancelled(Matched(s, draw));
  }

  lemma NewerIsCancelled(s: Lobby)
    requires LobbyOk(s) && s.made == [Request(0, 1, 1000), Request(1, 2, 1000)] && s.cancelled == [] && Waiting(s) == []
    ensures Cancelled(Added(s, 1, 1000), Request(0, 1, 1000)).cancelled == [Request(2, 1, 1000)]
  {
    StaleCancelTakesNewer(s, 0, 1000);
  }

  /** The k-th two of those waiting are matched with each other and both told, and do not wait any more. */
  lemma NeighboursMatch(s: Lobby, draw: nat -> Id, k: nat)
    requires LobbyOk(s) && 2 * k + 1 < |Waiting(s)|
    ensures var all, s' := Waiting(s), Matched(s, draw);
            && |s.matches| + k < |s'.matches| && |s.sent| + 2 * k + 1 < |s'.sent|
            && var pair := Paired(draw(k), all[2 * k], all[2 * k + 1]);
            && s'.matches[|s.matches| + k] == pair && pair.user1 != pair.user2
            && s'.sent[|s.sent| + 2 * k] == Send(all[2 * k], pair) && s'.sent[|s.sent| + 2 * k + 1] == Send(all[2 * k + 1], pair)
            && all[2 * k] !in Waiting(s') && all[2 * k + 1] !in Waiting(s')
  {
    var all := Waiting(s);
    LeftWaits(all);
    SentTogether(all, draw, k);
    PairedIsGone(all, 2 * k);
    PairedIsGone(all, 2 * k + 1);
  }

  lemma SentTogether(all: seq<Request>, draw: nat -> Id, k: nat)
    requires 2 * k + 1 < |all|
    ensures var pair := Paired(draw(k), all[2 * k], all[2 * k + 1]);
            && k < |Pairs(all, draw)| && Pairs(all, draw)[k] == pair
            && 2 * k + 1 < |Sends(all, draw)|
            && Sends(all, draw)[2 * k] == Send(all[2 * k], pair) && Sends(all, draw)[2 * k + 1] == Send(all[2 * k + 1], pair)
  {
    assert (2 * k) / 2 == k && (2 * k + 1) / 2 == k;
  }

  lemma PairedIsGone(all: seq<Request>, i: nat)
    requires UsersUnique(all) && i < 2 * (|all| / 2)
    ensures all[i] !in all[2 * (|all| / 2)..]
  {
    var n := 2 * (|all| / 2);
    assert forall j :: 0 <= j < |all[n..]| ==> all[n..][j] == all[n + j];
  }

  /** An odd last request alone goes on waiting, at its own level; otherwise nobody does. */
  lemma OddOneWaits(s: Lobby, draw: nat -> Id)
    requires LobbyOk(s)
    ensures var all, s' := Waiting(s), Matched(s, draw);
            if |all| % 2 == 0 then Waiting(s') == []
            else Waiting(s') == [all[|all| - 1]] && s'.queue[LevelNo(all[|all| - 1].score)] == [all[|all| - 1]]
  {
    LeftWaits(Waiting(s));
  }

  // ----------------------------------------------------------------- the engine

  /** A request with its answer channel, which takes one answer and is then closed. */
  class MatchRequest {
    ghost const no: nat
    const user: Id
    const score: int
    const level: nat
    var answer: Option<Pairing>
    var closed: bool

    ghost function Value(): Request {
      Request(no, user, score)
    }

    predicate Open()
      reads this
    {
      answer.None? && !closed
    }

    constructor (user: Id, score: int, level: nat, ghost no: nat)
      ensures Value() == Request(no, user, score) && this.level == level && Open()
    {
      this.user, this.score, this.level, this.no := user, score, level, no;
      answer, closed := None, false;
    }

    /** Sending on a closed channel, or closing it again, would panic; a second answer would block. */
    method SendResponse(m: Pairing)
      requires Open()
      modifies this
      ensures answer == Some(m) && closed
    {
      answer := Some(m);
      closed := true;
    }
  }

  ghost function Values(s: seq<MatchRequest>): seq<Request> {
    seq(|s|, i requires 0 <= i < |s| => s[i].Value())
  }

  ghost function QueueValues(queue: seq<seq<MatchRequest>>): seq<seq<Request>> {
    seq(|queue|, l requires 0 <= l < |queue| => Values(queue[l]))
  }

  lemma {:induction false} BelowValues(queue: seq<seq<MatchRequest>>, l: nat)
    requires l <= |queue|
    ensures Below(QueueValues(queue), l) == Values(Below(queue, l))
  {
    if l > 0 {
      BelowValues(queue, l - 1);
      ConcatValues(queue[l - 1], Below(queue, l - 1));
    }
  }

  lemma ConcatValues(a: seq<MatchRequest>, b: seq<MatchRequest>)
    ensures Values(a + b) == Values(a) + Values(b)
  {
  }

  lemma FlatValues(queue: seq<seq<MatchRequest>>)
    ensures Flat(QueueValues(queue)) == Values(Flat(queue))
  {
    BelowValues(queue, |queue|);
  }

  lemma ReplacedValues(queue: seq<seq<MatchRequest>>, l: nat, s: seq<MatchRequest>)
    requires l < |queue|
    ensures QueueValues(queue[l := s]) == QueueValues(queue)[l := Values(s)]
  {
  }

  lemma AppendedValues(s: seq<MatchRequest>, r: MatchRequest)
    ensures Values(s + [r]) == Values(s) + [r.Value()]
  {
  }

  lemma RemovedValues(s: seq<MatchRequest>, i: nat)
    requires i < |s|
    ensures Values(s[..i] + s[i + 1..]) == Values(s)[..i] + Values(s)[i + 1..]
  {
  }

  lemma PlaceOfValues(s: seq<MatchRequest>, user: Id, i: nat)
    requires i < |s| && s[i].user == user && forall j :: 0 <= j < i ==> s[j].user != user
    ensures PlaceOf(Values(s), user) == i
  {
    var p := PlaceOf(Values(s), user);
    assert Values(s)[i].user == user;
    assert p < |s| ==> Values(s)[p].user == s[p].user;
  }

  ghost function Members(queue: seq<seq<MatchRequest>>): set<MatchRequest> {
    set l, i | 0 <= l < |queue| && 0 <= i < |queue[l]| :: queue[l][i]
  }

  /** Requests that can still be answered, each with the level of its score. */
  ghost predicate Answerable(queue: seq<seq<MatchRequest>>)
    reads Members(queue)
  {
    forall l, i :: 0 <= l < |queue| && 0 <= i < |queue[l]| ==> queue[l][i].Open() && queue[l][i].level == LevelNo(queue[l][i].score)
  }

  lemma StillAnswerable(queue: seq<seq<MatchRequest>>, l: nat, i: nat)
    requires Answerable(queue) && l < |queue| && i < |queue[l]|
    ensures Answerable(queue[l := queue[l][..i] + queue[l][i + 1..]])
  {
  }

  /** The matches are of consecutive requests; their ids are drawn from number `base` on. */
  ghost predicate FoundIn(all: seq<MatchRequest>, found: seq<Pairing>, draw: nat -> Id, base: nat) {
    2 * |found| <= |all| && forall k :: 0 <= k < |found| ==> found[k] == Paired(draw(base + k), all[2 * k].Value(), all[2 * k + 1].Value())
  }

  /** Both requests of every match have been told. */
  ghost predicate Told(all: seq<MatchRequest>, found: seq<Pairing>)
    reads all
  {
    2 * |found| <= |all| && forall k :: 0 <= k < |found| ==>
      all[2 * k].answer == Some(found[k]) && all[2 * k].closed && all[2 * k + 1].answer == Some(found[k]) && all[2 * k + 1].closed
  }

  ghost predicate OpenFrom(all: seq<MatchRequest>, n: nat)
    reads all
  {
    forall i :: n <= i < |all| ==> all[i].Open()
  }

  ghost predicate Distinct(all: seq<MatchRequest>) {
    forall i, j :: 0 <= i < j < |all| ==> all[i] != all[j]
  }

  lemma DistinctByUser(all: seq<MatchRequest>)
    requires UsersUnique(Values(all))
    ensures Distinct(all)
  {
    forall i, j | 0 <= i < j < |all|
      ensures all[i] != all[j]
    {
      assert Values(all)[i].user != Values(all)[j].user;
    }
  }

  lemma FlatAnswerable(queue: seq<seq<MatchRequest>>)
    requires Answerable(queue)
    ensures forall i :: 0 <= i < |Flat(queue)| ==> Flat(queue)[i] in Members(queue)
    ensures OpenFrom(Flat(queue), 0)
    ensures forall i :: 0 <= i < |Flat(queue)| ==> Flat(queue)[i].level == LevelNo(Flat(queue)[i].score)
  {
    forall i | 0 <= i < |Flat(queue)|
      ensures Flat(queue)[i] in Members(queue)
    {
      FlatMember(queue, Flat(queue)[i]);
    }
  }

  /** One sequence is a stretch of another, from place n on. */
  ghost predicate PartOf<T>(current: seq<T>, all: seq<T>, n: nat) {
    n + |current| <= |all| && forall i :: 0 <= i < |current| ==> current[i] == all[n + i]
  }

  /** What is left of the whole after a beginning of one part. */
  lemma Stretch<T>(all: seq<T>, n: nat, current: seq<T>, later: seq<T>, m: nat)
    requires n <= |all| && all[n..] == current + later && m <= |current|
    ensures PartOf(current, all, n) && all[n + m..] == current[m..] + later
  {
    forall i | 0 <= i < |current|
      ensures current[i] == all[n + i]
    {
      assert all[n..][i] == (current + later)[i];
    }
    assert all[n + m..] == all[n..][m..];
  }

  lemma PartIsReady(current: seq<MatchRequest>, all: seq<MatchRequest>, n: nat)
    requires PartOf(current, all, n) && Distinct(all) && OpenFrom(all, n)
    ensures Distinct(current) && OpenFrom(current, 0) && forall i :: 0 <= i < |current| ==> current[i] in all
    ensures forall i, k :: 0 <= i < |all| && 0 <= k < |current| && (i < n || n + |current| <= i) ==> all[i] != current[k]
  {
  }

  /** Requests outside a stretch are as before, so after it everyone is still open. */
  lemma OpenAfter(current: seq<MatchRequest>, all: seq<MatchRequest>, n: nat, m: nat)
    requires PartOf(current, all, n) && OpenFrom(current, m) && m <= |current| && OpenFrom(all, n + |current|)
    ensures OpenFrom(all, n + m)
  {
    forall i | n + m <= i < |all|
      ensures all[i].Open()
    {
      if i < n + |current| {
        assert current[i - n] == all[i];
      }
    }
  }

  lemma FoundMore(all: seq<MatchRequest>, found: seq<Pairing>, current: seq<MatchRequest>, more: seq<Pairing>, draw: nat -> Id)
    requires FoundIn(all, found, draw, 0) && FoundIn(current, more, draw, |found|)
    requires PartOf(current, all, 2 * |found|)
    ensures FoundIn(all, found + more, draw, 0)
  {
    forall k | 0 <= k < |more|
      ensures more[k] == Paired(draw(|found| + k), all[2 * (|found| + k)].Value(), all[2 * (|found| + k) + 1].Value())
    {
      assert current[2 * k] == all[2 * (|found| + k)] && current[2 * k + 1] == all[2 * (|found| + k) + 1];
    }
  }

  lemma ToldMore(all: seq<MatchRequest>, found: seq<Pairing>, current: seq<MatchRequest>, more: seq<Pairing>)
    requires Told(all, found) && Told(current, more) && PartOf(current, all, 2 * |found|)
    ensures Told(all, found + more)
  {
    forall k | |found| <= k < |found + more|
      ensures all[2 * k].answer == Some((found + more)[k]) && all[2 * k].closed
      ensures all[2 * k + 1].answer == Some((found + more)[k]) && all[2 * k + 1].closed
    {
      var j := k - |found|;
      assert more[j] == (found + more)[k] && current[2 * j] == all[2 * k] && current[2 * j + 1] == all[2 * k + 1];
    }
  }

  lemma FoundAll(all: seq<MatchRequest>, found: seq<Pairing>, draw: nat -> Id)
    requires FoundIn(all, found, draw, 0) && |found| == |all| / 2
    ensures found == Pairs(Values(all), draw)
  {
  }

  lemma OddRest(all: seq<MatchRequest>)
    ensures all[2 * (|all| / 2)..] == if |all| % 2 == 1 then [all[|all| - 1]] else []
  {
  }

  lemma ValuesOfOne(m: MatchRequest)
    ensures Values([m]) == [m.Value()]
  {
  }

  /** The queue of one level after putting back the leftover, as values. */
  lemma LeftValue(queue: seq<seq<MatchRequest>>, all: seq<MatchRequest>, l: nat)
    requires |queue| == LEVELS && l < LEVELS
    requires queue[l] == if |all| % 2 == 1 && l == LevelNo(all[|all| - 1].score) then [all[|all| - 1]] else []
    ensures QueueValues(queue)[l] == Left(Values(all))[l]
  {
    assert QueueValues(queue)[l] == Values(queue[l]);
    if |all| % 2 == 1 {
      var last := all[|all| - 1];
      assert Values(all)[|all| - 1] == last.Value();
      ValuesOfOne(last);
    }
  }

  /** The queues after putting back the leftover, as values. */
  lemma LeftValues(queue: seq<seq<MatchRequest>>, all: seq<MatchRequest>)
    requires |queue| == LEVELS
    requires var rest := all[2 * (|all| / 2)..]; forall l :: 0 <= l < LEVELS ==>
               queue[l] == if rest != [] && l == LevelNo(rest[0].score) then rest else []
    ensures QueueValues(queue) == Left(Values(all))
  {
    OddRest(all);
    forall l | 0 <= l < LEVELS
      ensures QueueValues(queue)[l] == Left(Values(all))[l]
    {
      LeftValue(queue, all, l);
    }
  }

  method PairOff(current: seq<MatchRequest>, base: nat, draw: nat -> Id) returns (found: seq<Pairing>, rest: seq<MatchRequest>)
    requires Distinct(current) && OpenFrom(current, 0)
    modifies current
    ensures |found| == |current| / 2 && rest == current[2 * |found|..]
    ensures FoundIn(current, found, draw, base) && Told(current, found) && OpenFrom(current, 2 * |found|)
  {
    found := [];
    var i := 0;
    while |current| - i > 1
      invariant i == 2 * |found| <= |current|
      invariant FoundIn(current, found, draw, base) && Told(current, found) && OpenFrom(current, i)
    {
      var m := PairUp(current[i], current[i + 1], draw(base + |found|));
      found := found + [m];
      i := i + 2;
    }
    rest := current[i..];
  }

  lemma PairedMore(all: seq<MatchRequest>, before: seq<Pairing>, current: seq<MatchRequest>, more: seq<Pairing>, found: seq<Pairing>, draw: nat -> Id)
    requires PartOf(current, all, 2 * |before|) && found == before + more
    requires FoundIn(all, before, draw, 0) && FoundIn(current, more, draw, |before|)
    requires Told(all, before) && Told(current, more)
    requires OpenFrom(current, 2 * |more|) && OpenFrom(all, 2 * |before| + |current|)
    ensures FoundIn(all, found, draw, 0) && Told(all, found) && OpenFrom(all, 2 * |found|)
  {
    FoundMore(all, before, current, more, draw);
    ToldMore(all, before, current, more);
    OpenAfter(current, all, 2 * |before|, 2 * |more|);
  }

  /** Match two requests and tell both. */
  method PairUp(u1: MatchRequest, u2: MatchRequest, id: Id) returns (m: Pairing)
    requires u1 != u2 && u1.Open() && u2.Open()
    modifies u1, u2
    ensures m == Paired(id, u1.Value(), u2.Value())
    ensures u1.answer == Some(m) && u1.closed && u2.answer == Some(m) && u2.closed
  {
    m := Pairing(id, u1.user, u1.score, u2.user, u2.score);
    u1.SendResponse(m);
    u2.SendResponse(m);
  }

  lemma EmptyValues(queue: seq<seq<MatchRequest>>)
    requires |queue| == LEVELS && forall l :: 0 <= l < LEVELS ==> queue[l] == []
    ensures QueueValues(queue) == EmptyLobby().queue && Answerable(queue)
  {
    forall l | 0 <= l < LEVELS
      ensures QueueValues(queue)[l] == []
    {
      assert queue[l] == [];
    }
  }

  class Engine {
    var queue: seq<seq<MatchRequest>>
    ghost var made: seq<Request>
    ghost var sent: seq<Send>
    ghost var matches: seq<Pairing>
    ghost var cancelled: seq<Request>

    ghost function TheLobby(): Lobby
      reads this
    {
      Lobby(QueueValues(queue), made, sent, matches, cancelled)
    }

    /** Everything the engine promises, and every waiting request can still be answered. */
    ghost predicate Valid()
      reads this, Members(queue)
    {
      && LobbyOk(TheLobby()) && |queue| == LEVELS
      && Answerable(queue)
    }

    /** An engine that nobody has asked anything is in order. */
    lemma UnusedIsValid()
      requires |queue| == LEVELS && forall l :: 0 <= l < LEVELS ==> queue[l] == []
      requires made == [] && sent == [] && matches == [] && cancelled == []
      ensures Valid() && TheLobby() == EmptyLobby()
    {
      EmptyValues(queue);
      EmptyLobbyOk();
    }

    constructor ()
      ensures Valid() && TheLobby() == EmptyLobby()
    {
      queue := seq(LEVELS, l => []);
      made, sent, matches, cancelled := [], [], [], [];
      new;
      UnusedIsValid();
    }

    method IsAsking(user: Id) returns (found: bool)
      requires |queue| == LEVELS
      ensures found <==> Asking(Values(Flat(queue)), user)
    {
      for l := 0 to LEVELS
        invariant forall k, i :: 0 <= k < l && 0 <= i < |queue[k]| ==> queue[k][i].user != user
      {
        for i := 0 to |queue[l]|
          invariant forall j :: 0 <= j < i ==> queue[l][j].user != user
        {
          if queue[l][i].user == user {
            FlatMember(queue, queue[l][i]);
            ghost var k :| 0 <= k < |Flat(queue)| && Flat(queue)[k] == queue[l][i];
            assert Values(Flat(queue))[k].user == user;
            return true;
          }
        }
      }
      forall i | 0 <= i < |Flat(queue)|
        ensures Flat(queue)[i].user != user
      {
        FlatMember(queue, Flat(queue)[i]);
      }
      return false;
    }

    /** Put a new request at the end of the queue of its level. */
    method Append(r: MatchRequest)
      requires Valid() && r.Open() && r.level == LevelNo(r.score) && r.no == |made| && !Asking(Waiting(TheLobby()), r.user)
      modifies this
      ensures Valid() && TheLobby() == Added(old(TheLobby()), r.user, r.score)
    {
      ghost var s := TheLobby();
      AddingKeepsOk(s, r.user, r.score);
      ReplacedValues(queue, r.level, queue[r.level] + [r]);
      AppendedValues(queue[r.level], r);
      queue := queue[r.level := queue[r.level] + [r]];
      made := made + [r.Value()];
    }

    method AddToQueue(user: Id, score: int) returns (r: MatchRequest?, ok: bool)
      requires Valid()
      modifies this
      ensures Valid() && TheLobby() == Added(old(TheLobby()), user, score)
      ensures ok <==> !Asking(Waiting(old(TheLobby())), user)
      ensures if ok then r != null && fresh(r) && r.Value() == Request(|old(made)|, user, score) && r.Open() else r == null
    {
      FlatValues(queue);
      var found := IsAsking(user);
      if found {
        return null, false;
      }
      r := new MatchRequest(user, score, LevelNo(score), |made|);
      Append(r);
      ok := true;
    }

    /** A queue without one of its entries. */
    method Shortened(l: nat, i: nat, ghost r: Request) returns (users: seq<MatchRequest>)
      requires |queue| == LEVELS && Answerable(queue) && l == LevelNo(r.score) && i < |queue[l]|
      requires PlaceOf(Values(queue[l]), r.user) == i
      ensures QueueValues(queue[l := users]) == Cancelled(TheLobby(), r).queue && Answerable(queue[l := users])
      ensures cancelled + [queue[l][i].Value()] == Cancelled(TheLobby(), r).cancelled
    {
      users := queue[l][..i] + queue[l][i + 1..];
      ReplacedValues(queue, l, users);
      RemovedValues(queue[l], i);
      StillAnswerable(queue, l, i);
    }

    /** Take one entry out of a queue. */
    method TakeOut(l: nat, i: nat, ghost r: Request)
      requires Valid() && l == LevelNo(r.score) && i < |queue[l]| && PlaceOf(Values(queue[l]), r.user) == i
      modifies this
      ensures Valid() && TheLobby() == Cancelled(old(TheLobby()), r)
    {
      ghost var after := Cancelled(TheLobby(), r);
      CancellingKeepsOk(TheLobby(), r);
      ghost var out := queue[l][i].Value();
      var users := Shortened(l, i, r);
      queue := queue[l := users];
      cancelled := cancelled + [out];
      assert TheLobby() == after;
    }

    method CancelRequest(r: MatchRequest)
      requires Valid() && r.level == LevelNo(r.score)
      modifies this
      ensures Valid() && TheLobby() == Cancelled(old(TheLobby()), r.Value())
    {
      var users := queue[r.level];
      for i := 0 to |users|
        invariant forall j :: 0 <= j < i ==> users[j].user != r.user
      {
        if users[i].user == r.user {
          PlaceOfValues(users, r.user, i);
          TakeOut(r.level, i, r.Value());
          return;
        }
      }
    }

    /** Pair off one stretch of all that waits, from where it was left off. */
    static method PairMore(current: seq<MatchRequest>, before: seq<Pairing>, draw: nat -> Id, ghost all: seq<MatchRequest>, ghost later: seq<MatchRequest>)
      returns (found: seq<Pairing>, leftover: seq<MatchRequest>)
      requires 2 * |before| <= |all| && all[2 * |before|..] == current + later
      requires Distinct(all) && FoundIn(all, before, draw, 0) && Told(all, before) && OpenFrom(all, 2 * |before|)
      modifies all
      ensures 2 * |found| <= |all| && |leftover| <= 1 && all[2 * |found|..] == leftover + later
      ensures FoundIn(all, found, draw, 0) && Told(all, found) && OpenFrom(all, 2 * |found|)
    {
      ghost var n, half := 2 * |before|, |current| / 2;
      Stretch(all, n, current, later, 2 * half);
      PartIsReady(current, all, n);
      var more;
      more, leftover := PairOff(current, |before|, draw);
      found := before + more;
      PairedMore(all, before, current, more, found, draw);
    }

    /** One level: pair off what was carried here and what waits here. */
    method EmptyQueue(l: nat, carried: seq<MatchRequest>, before: seq<Pairing>, draw: nat -> Id, ghost all: seq<MatchRequest>)
      returns (found: seq<Pairing>, leftover: seq<MatchRequest>)
      requires l < |queue| && 2 * |before| <= |all| && all[2 * |before|..] == carried + Below(queue, l + 1)
      requires Distinct(all) && FoundIn(all, before, draw, 0) && Told(all, before) && OpenFrom(all, 2 * |before|)
      modifies this`queue, all
      ensures queue == old(queue)[l := []]
      ensures 2 * |found| <= |all| && |leftover| <= 1 && all[2 * |found|..] == leftover + Below(queue, l)
      ensures FoundIn(all, found, draw, 0) && Told(all, found) && OpenFrom(all, 2 * |found|)
    {
      var current := carried + queue[l];
      ghost var later := Below(queue, l);
      Reassociate(carried, queue[l], later);
      found, leftover := PairMore(current, before, draw, all, later);
      BelowLocal(queue, queue[l := []], l);
      queue := queue[l := []];
    }

    static lemma EmptiedFrom(before: seq<seq<MatchRequest>>, after: seq<seq<MatchRequest>>, l: nat)
      requires l < |before| && after == before[l := []] && forall k :: l + 1 <= k < |before| ==> before[k] == []
      ensures forall k :: l <= k < |after| ==> after[k] == []
    {
    }

    /** Pair off level by level from the top; an odd one out is carried to the next level. */
    method EmptyQueues(draw: nat -> Id, ghost all: seq<MatchRequest>) returns (found: seq<Pairing>, leftover: seq<MatchRequest>)
      requires |queue| == LEVELS && all == Flat(queue) && Distinct(all) && OpenFrom(all, 0)
      modifies this`queue, all
      ensures |found| == |all| / 2 && leftover == all[2 * |found|..]
      ensures FoundIn(all, found, draw, 0) && Told(all, found) && OpenFrom(all, 2 * |found|)
      ensures |queue| == LEVELS && forall l :: 0 <= l < LEVELS ==> queue[l] == []
    {
      found, leftover := [], [];
      var l := |queue|;
      while l > 0
        invariant 0 <= l <= |queue| == LEVELS && |leftover| <= 1 && 2 * |found| <= |all|
        invariant all[2 * |found|..] == leftover + Below(queue, l)
        invariant forall k :: l <= k < LEVELS ==> queue[k] == []
        invariant FoundIn(all, found, draw, 0) && Told(all, found) && OpenFrom(all, 2 * |found|)
      {
        l := l - 1;
        ghost var before := queue;
        found, leftover := EmptyQueue(l, leftover, found, draw, all);
        EmptiedFrom(before, queue, l);
      }
      assert leftover + Below(queue, 0) == leftover;
    }

    /** The leftover returns to the queue of its own level. */
    method PutBack(leftover: seq<MatchRequest>)
      requires |leftover| <= 1 && forall i :: 0 <= i < |leftover| ==> leftover[i].level == LevelNo(leftover[i].score)
      requires |queue| == LEVELS && forall l :: 0 <= l < LEVELS ==> queue[l] == []
      modifies this`queue
      ensures |queue| == LEVELS
      ensures forall l :: 0 <= l < LEVELS ==>
                queue[l] == if leftover != [] && l == LevelNo(leftover[0].score) then leftover else []
    {
      for i := 0 to |leftover|
        invariant |queue| == LEVELS
        invariant forall l :: 0 <= l < LEVELS ==> queue[l] == if i > 0 && l == LevelNo(leftover[0].score) then leftover else []
      {
        var r := leftover[i];
        queue := queue[r.level := queue[r.level] + [r]];
      }
    }

    /** After all queues were emptied: the leftover goes back, the books are kept. */
    method Settle(leftover: seq<MatchRequest>, ghost all: seq<MatchRequest>, ghost found: seq<Pairing>, ghost draw: nat -> Id, ghost s: Lobby)
      requires |queue| == LEVELS && forall l :: 0 <= l < LEVELS ==> queue[l] == []
      requires |found| == |all| / 2 && leftover == all[2 * |found|..] && FoundIn(all, found, draw, 0) && OpenFrom(all, 2 * |found|)
      requires forall i :: 0 <= i < |all| ==> all[i].level == LevelNo(all[i].score)
      requires Waiting(s) == Values(all) && made == s.made && sent == s.sent && matches == s.matches && cancelled == s.cancelled
      modifies this
      ensures |queue| == LEVELS && Answerable(queue) && TheLobby() == Matched(s, draw) && found == Pairs(Waiting(s), draw)
    {
      PutBack(leftover);
      FoundAll(all, found, draw);
      LeftValues(queue, all);
      sent := sent + Sends(Values(all), draw);
      matches := matches + found;
    }

    method PairAll(draw: nat -> Id, ghost all: seq<MatchRequest>, ghost s: Lobby) returns (found: seq<Pairing>)
      requires |queue| == LEVELS && all == Flat(queue) && Distinct(all) && OpenFrom(all, 0)
      requires forall i :: 0 <= i < |all| ==> all[i].level == LevelNo(all[i].score)
      requires Waiting(s) == Values(all) && made == s.made && sent == s.sent && matches == s.matches && cancelled == s.cancelled
      modifies this, all
      ensures |queue| == LEVELS && Answerable(queue) && TheLobby() == Matched(s, draw)
      ensures found == Pairs(Waiting(s), draw) && Told(all, found)
    {
      var leftover;
      found, leftover := EmptyQueues(draw, all);
      Settle(leftover, all, found, draw, s);
    }

    /** Everyone waiting is paired off and told; the odd last one, if any, waits on at its own level. */
    method FindMatches(draw: nat -> Id) returns (found: seq<Pairing>)
      requires Valid()
      modifies this, Members(queue)
      ensures Valid() && TheLobby() == Matched(old(TheLobby()), draw)
      ensures found == Pairs(Waiting(old(TheLobby())), draw) && Told(old(Flat(queue)), found)
    {
      ghost var s, all := TheLobby(), Flat(queue);
      FlatValues(queue);
      DistinctByUser(all);
      FlatAnswerable(queue);
      MatchingKeepsOk(s, draw);
      found := PairAll(draw, all, s);
    }
  }
}
