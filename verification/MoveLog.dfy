/** The move-approval protocol: viewers that apply approvals under any drop, duplication and reordering
    always hold a prefix of the server's move list. */
module MoveLog {
  import opened Lifecycle

  /** A browser showing a game: whose game it is, and the moves it has applied. */
  datatype Client = Client(game: Id, player: Id, opponent: Id, isPlayer: bool, moves: seq<string>)

  /** The three guarded branches of the approval handler: own move, opponent's move, view mode. */
  predicate Applies(c: Client, e: Event) {
    && e.MoveApproved? && e.game == c.game && e.index - 1 == |c.moves|
    && ((c.isPlayer && e.player == c.opponent) || (c.isPlayer && e.player == c.player)
        || e.player == c.player || e.player == c.opponent)
  }

  /** Handling one event; `legal` is whether the client's own engine takes the move. */
  function Handled(c: Client, e: Event, legal: bool): Client {
    if Applies(c, e) && legal then c.(moves := c.moves + [e.move]) else c
  }

  class Viewer {
    const game: Id
    const player: Id
    const opponent: Id
    const isPlayer: bool
    var moves: seq<string>

    ghost function View(): Client
      reads this
    {
      Client(game, player, opponent, isPlayer, moves)
    }

    constructor (game: Id, player: Id, opponent: Id, isPlayer: bool)
      ensures View() == Client(game, player, opponent, isPlayer, [])
    {
      this.game, this.player, this.opponent, this.isPlayer := game, player, opponent, isPlayer;
      moves := [];
    }

    method HandleMoveApproved(e: Event, legal: bool)
      requires e.MoveApproved?
      modifies this
      ensures View() == Handled(old(View()), e, legal)
    {
      if isPlayer && e.game == game && e.player == opponent && e.index - 1 == |moves| {
        if legal {
          moves := moves + [e.move];
        }
        return;
      }
      if isPlayer && e.game == game && e.player == player && e.index - 1 == |moves| {
        if legal {
          moves := moves + [e.move];
        }
        return;
      }
      if e.game == game && (e.player == player || e.player == opponent) && e.index - 1 == |moves| {
        if legal {
          moves := moves + [e.move];
        }
      }
    }
  }

  // ------------------------------------------------------- the whole network

  datatype Net = Net(server: World, clients: seq<Client>)

  /** A server step, a new viewer, a viewer loading a record of the game sent earlier, or the delivery of
      any event ever published, however often and in whatever order. */
  datatype NetStep =
    | Serve(step: Step)
    | Open(game: Id, player: Id, opponent: Id)
    | LoadRecord(client: nat, length: nat)
    | Deliver(client: nat, event: nat, legal: bool)

  function NetAfter(r: Rulebook, n: Net, s: NetStep): Net {
    match s
    case Serve(step) => n.(server := After(r, n.server, step))
    case Open(game, player, opponent) => n.(clients := n.clients + [Client(game, player, opponent, false, [])])
    case LoadRecord(c, length) =>
      if c < |n.clients| && n.clients[c].game in n.server.cached && length <= |n.server.cached[n.clients[c].game].moves|
      then n.(clients := n.clients[c := n.clients[c].(moves := n.server.cached[n.clients[c].game].moves[..length])])
      else n
    case Deliver(c, k, legal) =>
      if c < |n.clients| && k < |n.server.log|
      then n.(clients := n.clients[c := Handled(n.clients[c], n.server.log[k], legal)])
      else n
  }

  function NetRun(r: Rulebook, steps: seq<NetStep>): Net {
    if steps == [] then Net(World(map[], map[], map[], map[], []), [])
    else NetAfter(r, NetRun(r, steps[..|steps| - 1]), steps[|steps| - 1])
  }

  ghost predicate InStep(w: World, c: Client) {
    c.moves == [] || (c.game in w.cached && c.moves <= w.cached[c.game].moves)
  }

  ghost predicate NetOk(n: Net) {
    Ok(n.server) && forall c :: 0 <= c < |n.clients| ==> InStep(n.server, n.clients[c])
  }

  /** Applying an approval extends a prefix by the very move the server has next. */
  lemma HandledStaysInStep(w: World, c: Client, k: nat, legal: bool)
    requires Ok(w) && InStep(w, c) && k < |w.log|
    ensures InStep(w, Handled(c, w.log[k], legal))
  {
    var e := w.log[k];
    if Applies(c, e) && legal {
      var moves := w.cached[c.game].moves;
      assert moves[|c.moves|] == e.move;
      assert c.moves + [e.move] <= moves;
    }
  }

  lemma ServedStaysInStep(r: Rulebook, w: World, step: Step, c: Client)
    requires Ok(w) && InStep(w, c)
    ensures InStep(After(r, w, step), c)
  {
    StepGrowsByOne(r, w, step);
  }

  lemma NetStepKeepsOk(r: Rulebook, n: Net, s: NetStep)
    requires NetOk(n)
    ensures NetOk(NetAfter(r, n, s))
  {
    match s
    case Serve(step) =>
      StepKeepsOk(r, n.server, step);
      forall c | 0 <= c < |n.clients|
        ensures InStep(After(r, n.server, step), n.clients[c])
      {
        ServedStaysInStep(r, n.server, step, n.clients[c]);
      }
    case Open(game, player, opponent) =>
    case LoadRecord(c, length) =>
    case Deliver(c, k, legal) =>
      if c < |n.clients| && k < |n.server.log| {
        HandledStaysInStep(n.server, n.clients[c], k, legal);
      }
  }

  /** On every run of server and network, every viewer's list is a prefix of the server's list. */
  lemma {:induction false} ViewersHoldPrefixes(r: Rulebook, steps: seq<NetStep>)
    ensures NetOk(NetRun(r, steps))
    ensures var n := NetRun(r, steps); forall c :: 0 <= c < |n.clients| && n.clients[c].moves != [] ==>
              n.clients[c].game in n.server.cached && n.clients[c].moves <= n.server.cached[n.clients[c].game].moves
    decreases |steps|
  {
    if steps != [] {
      ViewersHoldPrefixes(r, steps[..|steps| - 1]);
      NetStepKeepsOk(r, NetRun(r, steps[..|steps| - 1]), steps[|steps| - 1]);
    }
  }

  /** The game has the approved move at its index, played by that player's side. */
  ghost predicate Holds(w: World, e: Event)
    requires e.MoveApproved?
  {
    && e.game in w.cached && 1 <= e.index <= |w.cached[e.game].moves|
    && w.cached[e.game].moves[e.index - 1] == e.move && w.cached[e.game].Mover(e.index - 1) == e.player
  }

  lemma HoldsGrown(w: World, w': World, s: Step, e: Event)
    requires e.MoveApproved? && Holds(w, e) && GrowsByOne(w, w', s)
    ensures Holds(w', e)
  {
  }

  lemma HoldsOn(r: Rulebook, w: World, s: Step, e: Event)
    requires Ok(w) && e.MoveApproved? && Holds(w, e)
    ensures Holds(After(r, w, s), e)
  {
    StepGrowsByOne(r, w, s);
    HoldsGrown(w, After(r, w, s), s, e);
  }

  lemma HoldsNow(w: World, i: nat)
    requires ApprovalsTrue(w) && i < |w.log| && w.log[i].MoveApproved?
    ensures Holds(w, w.log[i])
  {
  }

  lemma HoldsInRun(r: Rulebook, steps: seq<Step>, i: nat)
    requires i < |Run(r, steps).log| && Run(r, steps).log[i].MoveApproved?
    ensures Holds(Run(r, steps), Run(r, steps).log[i])
  {
    RunKeepsOk(r, steps);
    HoldsNow(Run(r, steps), i);
  }

  /** The same after the first n of some steps. */
  ghost predicate HoldsAfter(r: Rulebook, steps: seq<Step>, n: nat, e: Event)
    requires n <= |steps| && e.MoveApproved?
  {
    Holds(Run(r, steps[..n]), e)
  }

  lemma HoldsOneMore(r: Rulebook, steps: seq<Step>, n: nat, e: Event)
    requires 0 < n <= |steps| && e.MoveApproved? && HoldsAfter(r, steps, n - 1, e)
    ensures HoldsAfter(r, steps, n, e)
  {
    RunKeepsOk(r, steps[..n - 1]);
    HoldsOn(r, Run(r, steps[..n - 1]), steps[n - 1], e);
    RunNext(r, steps, n);
  }

  lemma {:induction false} HoldsThrough(r: Rulebook, steps: seq<Step>, m: nat, n: nat, e: Event)
    requires m <= n <= |steps| && e.MoveApproved? && HoldsAfter(r, steps, m, e)
    ensures HoldsAfter(r, steps, n, e)
    decreases n
  {
    if m < n {
      HoldsThrough(r, steps, m, n - 1, e);
      HoldsOneMore(r, steps, n, e);
    }
  }

  /** What an approval says stays true: at any later time the game has that move at that index. */
  lemma ApprovalsLast(r: Rulebook, steps: seq<Step>, later: seq<Step>, i: nat)
    requires i < |Run(r, steps).log| && Run(r, steps).log[i].MoveApproved?
    ensures Holds(Run(r, steps + later), Run(r, steps).log[i])
  {
    HoldsInRun(r, steps, i);
    var all := steps + later;
    assert all[..|steps|] == steps && all[..|all|] == all;
    HoldsThrough(r, all, |steps|, |all|, Run(r, steps).log[i]);
  }

  // ------------------------------------------------------------------ arrival

  /** An event reaches a viewer, whose own engine takes the move or not. */
  datatype Delivery = Delivery(event: Event, legal: bool)

  /** A viewer after the first n of some deliveries. */
  function Received(c: Client, ds: seq<Delivery>, n: nat): Client
    requires n <= |ds|
  {
    if n == 0 then c else Handled(Received(c, ds, n - 1), ds[n - 1].event, ds[n - 1].legal)
  }

  /** The viewer knows both players of the game. */
  predicate Watches(c: Client, g: Match) {
    (g.player1.id == c.player || g.player1.id == c.opponent) && (g.player2.id == c.player || g.player2.id == c.opponent)
  }

  /** The approval of a game's k-th move, as the server published it. */
  function ApprovalOf(w: World, id: Id, k: nat): Event
    requires id in w.cached && k < |w.cached[id].moves|
  {
    MoveApproved(id, w.cached[id].Mover(k), w.cached[id].moves[k], k + 1)
  }

  ghost predicate FromLog(w: World, ds: seq<Delivery>) {
    forall k :: 0 <= k < |ds| ==> ds[k].event in w.log
  }

  /** Among the deliveries, at growing places, are all approvals of the game in the order of their indices. */
  ghost predicate AllApproved(w: World, id: Id, ds: seq<Delivery>, at: seq<nat>)
    requires id in w.cached
  {
    && |at| == |w.cached[id].moves|
    && (forall i, j :: 0 <= i < j < |at| ==> at[i] < at[j])
    && (forall k :: 0 <= k < |at| ==> at[k] < |ds| && ds[at[k]] == Delivery(ApprovalOf(w, id, k), true))
  }

  lemma {:induction false} ReceivedStaysInStep(w: World, c: Client, ds: seq<Delivery>, n: nat)
    requires Ok(w) && InStep(w, c) && FromLog(w, ds) && n <= |ds|
    ensures InStep(w, Received(c, ds, n))
    ensures Received(c, ds, n) == c.(moves := Received(c, ds, n).moves)
  {
    if n > 0 {
      ReceivedStaysInStep(w, c, ds, n - 1);
      assert ds[n - 1].event in w.log;
      var k :| 0 <= k < |w.log| && w.log[k] == ds[n - 1].event;
      HandledStaysInStep(w, Received(c, ds, n - 1), k, ds[n - 1].legal);
    }
  }

  lemma {:induction false} ReceivedGrows(c: Client, ds: seq<Delivery>, m: nat, n: nat)
    requires m <= n <= |ds|
    ensures |Received(c, ds, m).moves| <= |Received(c, ds, n).moves|
    decreases n
  {
    if m < n {
      ReceivedGrows(c, ds, m, n - 1);
    }
  }

  /** Whoever has the moves before the approved one has it afterwards. */
  lemma ApprovalArrives(w: World, c: Client, k: nat)
    requires Ok(w) && InStep(w, c) && c.game in w.cached && Watches(c, w.cached[c.game])
    requires k < |w.cached[c.game].moves| && |c.moves| >= k
    ensures |Handled(c, ApprovalOf(w, c.game, k), true).moves| >= k + 1
  {
  }

  lemma {:induction false} ArriveUpTo(w: World, c: Client, ds: seq<Delivery>, at: seq<nat>, k: nat)
    requires Ok(w) && InStep(w, c) && FromLog(w, ds)
    requires c.game in w.cached && Watches(c, w.cached[c.game]) && AllApproved(w, c.game, ds, at)
    requires k < |at|
    ensures |Received(c, ds, at[k] + 1).moves| >= k + 1
  {
    if k > 0 {
      ArriveUpTo(w, c, ds, at, k - 1);
      ReceivedGrows(c, ds, at[k - 1] + 1, at[k]);
    }
    ReceivedStaysInStep(w, c, ds, at[k]);
    ApprovalArrives(w, Received(c, ds, at[k]), k);
  }

  /** A viewer that is delivered all approvals of its game in the order of their indices, among whatever else
      the server ever published, repeated or late, ends up with the server's whole list. */
  lemma {:induction false} ApprovalsArrive(w: World, c: Client, ds: seq<Delivery>, at: seq<nat>)
    requires Ok(w) && InStep(w, c) && FromLog(w, ds)
    requires c.game in w.cached && Watches(c, w.cached[c.game]) && AllApproved(w, c.game, ds, at)
    ensures Received(c, ds, |ds|).moves == w.cached[c.game].moves
  {
    ReceivedStaysInStep(w, c, ds, |ds|);
    if |at| > 0 {
      ArriveUpTo(w, c, ds, at, |at| - 1);
      ReceivedGrows(c, ds, at[|at| - 1] + 1, |ds|);
    }
  }

  /** The approvals of a game are published in the order of their indices. */
  ghost predicate InOrder(log: seq<Event>) {
    forall i, j :: 0 <= i < j < |log| && log[i].MoveApproved? && log[j].MoveApproved? && log[i].game == log[j].game ==>
      log[i].index < log[j].index
  }

  lemma StepKeepsOrder(w: World, s: Step, w': World)
    requires ApprovalsTrue(w) && InOrder(w.log) && Publishes(w, s, w')
    ensures InOrder(w'.log)
  {
    assert forall i :: 0 <= i < |w.log| ==> w'.log[i] == w.log[i];
  }

  lemma {:induction false} RunsPublishInOrder(r: Rulebook, steps: seq<Step>)
    ensures InOrder(Run(r, steps).log)
    decreases |steps|
  {
    if steps != [] {
      var front := steps[..|steps| - 1];
      RunsPublishInOrder(r, front);
      RunKeepsOk(r, front);
      StepPublishes(r, Run(r, front), steps[|steps| - 1]);
      StepKeepsOrder(Run(r, front), steps[|steps| - 1], Run(r, steps));
    }
  }

  ghost function PlaceOf(log: seq<Event>, e: Event): (i: nat)
    requires e in log
    ensures i < |log| && log[i] == e
  {
    var i :| 0 <= i < |log| && log[i] == e;
    i
  }

  /** Where the approvals of a game stand in the log. */
  lemma ApprovalPlaces(w: World, id: Id) returns (at: seq<nat>)
    requires ApprovalsComplete(w) && InOrder(w.log) && id in w.cached
    ensures |at| == |w.cached[id].moves|
    ensures forall k :: 0 <= k < |at| ==> at[k] < |w.log| && w.log[at[k]] == ApprovalOf(w, id, k)
    ensures forall i, j :: 0 <= i < j < |at| ==> at[i] < at[j]
  {
    var n := |w.cached[id].moves|;
    assert forall k :: 0 <= k < n ==> ApprovalOf(w, id, k) in w.log;
    at := seq(n, k requires 0 <= k < n => PlaceOf(w.log, ApprovalOf(w, id, k)));
    forall i, j | 0 <= i < j < |at|
      ensures at[i] < at[j]
    {
      assert w.log[at[i]] == ApprovalOf(w, id, i) && w.log[at[j]] == ApprovalOf(w, id, j);
    }
  }

  /** In particular a new viewer that is delivered all that was published, in that order, holds the whole list. */
  lemma LogArrives(r: Rulebook, steps: seq<Step>, c: Client)
    requires var w := Run(r, steps); c.moves == [] && c.game in w.cached && Watches(c, w.cached[c.game])
    ensures var w := Run(r, steps);
            Received(c, seq(|w.log|, i requires 0 <= i < |w.log| => Delivery(w.log[i], true)), |w.log|).moves == w.cached[c.game].moves
  {
    var w := Run(r, steps);
    var ds := seq(|w.log|, i requires 0 <= i < |w.log| => Delivery(w.log[i], true));
    RunKeepsOk(r, steps);
    RunsPublishInOrder(r, steps);
    var at := ApprovalPlaces(w, c.game);
    assert AllApproved(w, c.game, ds, at);
    ApprovalsArrive(w, c, ds, at);
  }
}
