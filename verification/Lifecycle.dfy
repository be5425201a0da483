/** The life of games in the game service, on values: what each handler and the ticker do to the live
    games, the cache, the disconnection tracker and the published events, and what every run keeps. */
module Lifecycle {
  import opened Basics
  import opened Ids

  /** An object id, the decimal text of a number: here the number. */
  type Id = int

  datatype Color = White | Black

  datatype GameOutcome = NoOutcome | WhiteWon | BlackWon | Draw

  datatype Method = DrawOffer | ThreefoldRepetition | FiftyMoveRule | OtherMethod

  datatype Status = Active | Deactive

  datatype Player = Player(id: Id, color: Color)

  /** The chess library as the service sees it: which move texts it accepts after a list of moves, which
      outcome a list of moves has, and which draws may be claimed. */
  datatype Rulebook = Rulebook(
    accepts: (seq<string>, string) -> bool,
    verdict: seq<string> -> GameOutcome,
    claimable: (seq<string>, Method) -> bool)

  /** A game entity as a value. */
  datatype Match = Match(
    id: Id,
    status: Status,
    player1: Player,
    player2: Player,
    moves: seq<string>,
    outcome: GameOutcome,
    offer: Option<Id>)
  {
    predicate HasPlayer(p: Id) {
      player1.id == p || player2.id == p
    }

    function White(): Player {
      if player1.color == Color.White then player1 else player2
    }

    function Black(): Player {
      if player1.color == Color.Black then player1 else player2
    }

    /** White moves first and the players alternate. */
    function Mover(n: nat): Id {
      if n % 2 == 0 then White().id else Black().id
    }

    function Turn(): Id {
      Mover(|moves|)
    }
  }

  function Other(c: Color): Color {
    if c == White then Black else White
  }

  // -------------------------------------------------- the entity's operations

  /** A new game between two users: the players are ordered by id and the colours drawn by lot. */
  function NewMatch(id: Id, u1: Id, u2: Id, whiteFirst: bool): Match {
    var c1, c2 := if whiteFirst then White else Black, if whiteFirst then Black else White;
    var ordered := IdBefore(u1, u2);
    Match(id, Active, Player(if ordered then u1 else u2, c1), Player(if ordered then u2 else u1, c2), [], NoOutcome, None)
  }

  /** The players of a new game are the two users, the one whose id comes first being player 1 whichever of
      them is named first; one has white and the other black. */
  lemma NewMatchIsOrdered(id: Id, u1: Id, u2: Id, whiteFirst: bool)
    ensures var g := NewMatch(id, u1, u2, whiteFirst);
            && g == NewMatch(id, u2, u1, whiteFirst)
            && (u1 != u2 ==> IdBefore(g.player1.id, g.player2.id))
            && (forall p :: g.HasPlayer(p) <==> p == u1 || p == u2)
            && {g.player1.color, g.player2.color} == {White, Black}
  {
    IdsAreOrdered(u1, u2);
  }

  predicate CanMove(r: Rulebook, g: Match, p: Id, move: string, index: int) {
    g.Turn() == p && index - 1 == |g.moves| && r.accepts(g.moves, move)
  }

  function Moved(r: Rulebook, g: Match, move: string): Match {
    var moves := g.moves + [move];
    g.(moves := moves, outcome := if r.verdict(moves) != NoOutcome then r.verdict(moves) else g.outcome)
  }

  predicate CanOffer(g: Match, p: Id) {
    g.HasPlayer(p) && g.Turn() == p && g.offer == None
  }

  predicate CanAnswer(g: Match, p: Id) {
    g.HasPlayer(p) && g.offer.Some? && g.offer.value != p
  }

  predicate CanClaim(r: Rulebook, g: Match, p: Id, how: Method) {
    (how == ThreefoldRepetition || how == FiftyMoveRule) && g.HasPlayer(p) && r.claimable(g.moves, how)
  }

  function ResignOutcome(g: Match, loser: Color): GameOutcome {
    if g.outcome != NoOutcome then g.outcome else if loser == White then BlackWon else WhiteWon
  }

  /** The colour under which a player resigns; player 1 is looked at first. */
  function ColorOf(g: Match, p: Id): Color {
    if g.player1.id == p then g.player1.color else g.player2.color
  }

  function ResignedBy(g: Match, p: Id): Match {
    g.(outcome := ResignOutcome(g, ColorOf(g, p)), status := Deactive)
  }

  // --------------------------------------------------------------- the world

  datatype Ending = ByMove | ByClaim | ByAgreement | ByResignation | ByLeaving

  datatype Event =
    | GameCreated(game: Id, player1: Player, player2: Player)
    | MoveApproved(game: Id, player: Id, move: string, index: int)
    | ClaimApproved(game: Id, player: Id, how: Method)
    | GameEnded(game: Id, player1: Player, player2: Player, outcome: GameOutcome, ending: Ending)

  /** Live games of the instance, the two Redis maps, the tracker (game to player to time of leaving),
      and everything published so far. */
  datatype World = World(
    live: map<Id, Match>,
    cached: map<Id, Match>,
    playerGame: map<Id, Id>,
    left: map<Id, map<Id, int>>,
    log: seq<Event>)

  predicate InLiveGame(w: World, p: Id) {
    exists id :: id in w.live && w.live[id].HasPlayer(p)
  }

  function Created(w: World, g: Match): World {
    World(w.live[g.id := g], w.cached[g.id := g], w.playerGame[g.player1.id := g.id][g.player2.id := g.id], w.left,
          w.log + [GameCreated(g.id, g.player1, g.player2)])
  }

  /** A live game changes, the cache follows, and something is published. */
  function Advanced(w: World, g: Match, e: Event): World {
    w.(live := w.live[g.id := g], cached := w.cached[g.id := g], log := w.log + [e])
  }

  /** Both players' keys are deleted, the final state is cached, the game leaves the manager, the end is published. */
  function Ended(w: World, g: Match, ending: Ending): World {
    World(w.live - {g.id}, w.cached[g.id := g], w.playerGame - {g.player1.id, g.player2.id}, w.left,
          w.log + [GameEnded(g.id, g.player1, g.player2, g.outcome, ending)])
  }

  function UsersMatched(w: World, g: Match): World {
    if InLiveGame(w, g.player1.id) || InLiveGame(w, g.player2.id) || g.id in w.cached then w
    else if g.id in w.live then w.(cached := Created(w, g).cached, playerGame := Created(w, g).playerGame)
    else Created(w, g)
  }

  predicate Handles(w: World, id: Id) {
    id in w.live && w.live[id].status == Active
  }

  function PlayerMoved(r: Rulebook, w: World, id: Id, p: Id, move: string, index: int): World {
    if !Handles(w, id) || !CanMove(r, w.live[id], p, move, index) then w
    else
      var g := Moved(r, w.live[id], move);
      if g.outcome != NoOutcome then
        var over := g.(status := Deactive);
        Ended(Advanced(w, over, MoveApproved(id, p, move, index)), over, ByMove)
      else Advanced(w, g, MoveApproved(id, p, move, index))
  }

  function DrawClaimed(r: Rulebook, w: World, id: Id, p: Id, how: Method): World {
    if !Handles(w, id) then w
    else
      var g := w.live[id];
      if how == DrawOffer then
        if !CanOffer(g, p) then w
        else w.(live := w.live[id := g.(offer := Some(p))], log := w.log + [ClaimApproved(id, p, how)])
      else if CanClaim(r, g, p, how) then
        var drawn := g.(outcome := Draw);
        Ended(w.(log := w.log + [ClaimApproved(id, p, how)]), drawn, ByClaim)
      else w
  }

  function OfferAnswered(w: World, id: Id, p: Id, accept: bool): World {
    if !Handles(w, id) || !CanAnswer(w.live[id], p) then w
    else if !accept then w.(live := w.live[id := w.live[id].(offer := None)])
    else
      var drawn := w.live[id].(outcome := Draw);
      Ended(w, drawn, ByAgreement)
  }

  function PlayerResigned(w: World, id: Id, p: Id): World {
    if !Handles(w, id) || !w.live[id].HasPlayer(p) then w
    else
      var over := ResignedBy(w.live[id], p);
      Ended(w, over, ByResignation)
  }

  function PlayerLeft(w: World, id: Id, p: Id, now: int): World {
    var players := if id in w.left then w.left[id] else map[];
    w.(left := w.left[id := players[p := now]])
  }

  function PlayerJoined(w: World, id: Id, p: Id): World {
    if id !in w.left then w
    else
      var players := w.left[id] - {p};
      w.(left := if players == map[] then w.left - {id} else w.left[id := players])
  }

  function EndedSeen(w: World, id: Id): World {
    w.(left := w.left - {id})
  }

  // ---------------------------------------------------------------- the ticker

  predicate PastThreshold(left: map<Id, map<Id, int>>, id: Id, p: Id, limit: int) {
    id in left && p in left[id] && left[id][p] < limit
  }

  /** p left game id before the limit, and nobody left it earlier. */
  predicate EarliestLeaver(left: map<Id, map<Id, int>>, id: Id, p: Id, limit: int) {
    PastThreshold(left, id, p, limit) && forall q :: q in left[id] ==> left[id][p] <= left[id][q]
  }

  /** The tracker's answer: for exactly the games somebody left before the limit, an earliest leaver. */
  ghost predicate PicksEarliest(left: map<Id, map<Id, int>>, limit: int, picks: map<Id, Id>) {
    && (forall id, p :: PastThreshold(left, id, p, limit) ==> id in picks)
    && (forall id :: id in picks ==> EarliestLeaver(left, id, picks[id], limit))
  }

  predicate EndsOnTick(w: World, picks: map<Id, Id>, id: Id) {
    id in picks && Handles(w, id) && w.live[id].HasPlayer(picks[id])
  }

  /** End the listed games one after the other, each lost by its picked leaver. */
  function EndedByLeaving(w: World, picks: map<Id, Id>, games: seq<Id>): World {
    if games == [] then w
    else
      var before := EndedByLeaving(w, picks, games[..|games| - 1]);
      var id := games[|games| - 1];
      if !EndsOnTick(before, picks, id) then before
      else
        var over := ResignedBy(before.live[id], picks[id]);
        Ended(before, over, ByLeaving)
  }

  /** The ticker forgets all picked games and ends those whose picked leaver plays in them. */
  function Ticked(w: World, picks: map<Id, Id>, games: seq<Id>): World {
    EndedByLeaving(w.(left := w.left - picks.Keys), picks, games)
  }

  // ----------------------------------------------------------------- the runs

  datatype Step =
    | MatchMade(id: Id, user1: Id, user2: Id, whiteFirst: bool)
    | Move(game: Id, player: Id, move: string, index: int)
    | Claim(game: Id, player: Id, how: Method)
    | Answer(game: Id, player: Id, accept: bool)
    | Resign(game: Id, player: Id)
    | Leave(game: Id, player: Id, now: int)
    | Join(game: Id, player: Id)
    | SeeEnded(game: Id)
    | Tick(limit: int, picks: map<Id, Id>, games: seq<Id>)

  function After(r: Rulebook, w: World, s: Step): World {
    match s
    case MatchMade(id, u1, u2, whiteFirst) => UsersMatched(w, NewMatch(id, u1, u2, whiteFirst))
    case Move(id, p, move, index) => PlayerMoved(r, w, id, p, move, index)
    case Claim(id, p, how) => DrawClaimed(r, w, id, p, how)
    case Answer(id, p, accept) => OfferAnswered(w, id, p, accept)
    case Resign(id, p) => PlayerResigned(w, id, p)
    case Leave(id, p, now) => PlayerLeft(w, id, p, now)
    case Join(id, p) => PlayerJoined(w, id, p)
    case SeeEnded(id) => EndedSeen(w, id)
    case Tick(limit, picks, games) => Ticked(w, picks, games)
  }

  function Run(r: Rulebook, steps: seq<Step>): World {
    if steps == [] then World(map[], map[], map[], map[], [])
    else After(r, Run(r, steps[..|steps| - 1]), steps[|steps| - 1])
  }

  lemma RunMore(r: Rulebook, steps: seq<Step>, s: Step)
    ensures Run(r, steps + [s]) == After(r, Run(r, steps), s)
  {
    assert (steps + [s])[..|steps|] == steps;
  }

  lemma RunNext(r: Rulebook, steps: seq<Step>, n: nat)
    requires 0 < n <= |steps|
    ensures Run(r, steps[..n]) == After(r, Run(r, steps[..n - 1]), steps[n - 1])
  {
    PrefixMore(steps, n);
    RunMore(r, steps[..n - 1], steps[n - 1]);
  }

  lemma PrefixMore(steps: seq<Step>, n: nat)
    requires 0 < n <= |steps|
    ensures steps[..n] == steps[..n - 1] + [steps[n - 1]]
  {
  }

  // -------------------------------------------------------------- the invariant

  /** Live games are active and undecided, and the cache has their players and moves. */
  ghost predicate LiveOk(w: World) {
    forall id :: id in w.live ==>
      var g := w.live[id];
      && g.id == id && g.status == Active && g.outcome == NoOutcome && g.player1.color != g.player2.color
      && id in w.cached && w.cached[id].moves == g.moves
      && w.cached[id].player1 == g.player1 && w.cached[id].player2 == g.player2
  }

  ghost predicate OneGameEach(w: World) {
    forall a, b, p :: a in w.live && b in w.live && w.live[a].HasPlayer(p) && w.live[b].HasPlayer(p) ==> a == b
  }

  /** The player-to-game map is exactly { p -> g : g live, p plays g }. */
  ghost predicate IndexExact(w: World) {
    forall p, id :: (p in w.playerGame && w.playerGame[p] == id) <==> (id in w.live && w.live[id].HasPlayer(p))
  }

  /** An ending is published with a real outcome, once, after every approval of its game. */
  ghost predicate EndingsFinal(w: World) {
    forall i :: 0 <= i < |w.log| && w.log[i].GameEnded? ==>
      && w.log[i].game !in w.live && w.log[i].outcome != NoOutcome
      && forall j :: i < j < |w.log| && w.log[j].game == w.log[i].game ==> !w.log[j].GameEnded? && !w.log[j].MoveApproved?
  }

  ghost predicate LogCached(w: World) {
    forall i :: 0 <= i < |w.log| ==> w.log[i].game in w.cached
  }

  /** Each approval carries the move the game has at its index, played by the side whose turn it was. */
  ghost predicate ApprovalsTrue(w: World) {
    forall i :: 0 <= i < |w.log| && w.log[i].MoveApproved? ==>
      var e := w.log[i];
      && e.game in w.cached && 1 <= e.index <= |w.cached[e.game].moves|
      && w.cached[e.game].moves[e.index - 1] == e.move && e.player == w.cached[e.game].Mover(e.index - 1)
  }

  /** Every move a game has was approved at its index. */
  ghost predicate ApprovalsComplete(w: World) {
    forall id, k :: id in w.cached && 0 <= k < |w.cached[id].moves| ==>
      MoveApproved(id, w.cached[id].Mover(k), w.cached[id].moves[k], k + 1) in w.log
  }

  /** A standing draw offer was made by a player of the game and published. */
  ghost predicate OffersPublished(w: World) {
    forall id :: id in w.live && w.live[id].offer.Some? ==>
      w.live[id].HasPlayer(w.live[id].offer.value) && ClaimApproved(id, w.live[id].offer.value, DrawOffer) in w.log
  }

  ghost predicate Ok(w: World) {
    && LiveOk(w) && OneGameEach(w) && IndexExact(w) && EndingsFinal(w) && LogCached(w)
    && ApprovalsTrue(w) && ApprovalsComplete(w) && OffersPublished(w)
  }

  // ------------------------------------------- each kind of change keeps it

  /** Old events stay where they are when one is appended. */
  lemma LogGrows(log: seq<Event>, e: Event)
    ensures forall i :: 0 <= i < |log| ==> (log + [e])[i] == log[i]
    ensures (log + [e])[|log|] == e
    ensures forall x :: x in log + [e] <==> x in log || x == e
  {
  }

  ghost predicate Fresh(w: World, g: Match) {
    && g.id !in w.cached && !InLiveGame(w, g.player1.id) && !InLiveGame(w, g.player2.id)
    && g.status == Active && g.outcome == NoOutcome && g.player1.color != g.player2.color
    && g.moves == [] && g.offer == None
  }

  lemma CreatedKeepsGames(w: World, g: Match)
    requires LiveOk(w) && OneGameEach(w) && Fresh(w, g)
    ensures LiveOk(Created(w, g)) && OneGameEach(Created(w, g))
  {
    assert forall id, p :: id in w.live && w.live[id].HasPlayer(p) ==> InLiveGame(w, p);
  }

  lemma CreatedKeepsIndex(w: World, g: Match)
    requires LiveOk(w) && IndexExact(w) && Fresh(w, g)
    ensures IndexExact(Created(w, g))
  {
    var w' := Created(w, g);
    assert g.id !in w.live;
    forall p, id
      ensures (p in w'.playerGame && w'.playerGame[p] == id) <==> (id in w'.live && w'.live[id].HasPlayer(p))
    {
      if g.HasPlayer(p) {
        assert !InLiveGame(w, p);
      }
    }
  }

  lemma CreatedKeepsLog(w: World, g: Match)
    requires LiveOk(w) && EndingsFinal(w) && LogCached(w) && Fresh(w, g)
    ensures EndingsFinal(Created(w, g)) && LogCached(Created(w, g))
  {
    LogGrows(w.log, GameCreated(g.id, g.player1, g.player2));
  }

  lemma CreatedKeepsTrue(w: World, g: Match)
    requires LogCached(w) && ApprovalsTrue(w) && Fresh(w, g)
    ensures ApprovalsTrue(Created(w, g))
  {
    LogGrows(w.log, GameCreated(g.id, g.player1, g.player2));
  }

  lemma CreatedKeepsComplete(w: World, g: Match)
    requires ApprovalsComplete(w) && Fresh(w, g)
    ensures ApprovalsComplete(Created(w, g))
  {
    LogGrows(w.log, GameCreated(g.id, g.player1, g.player2));
  }

  lemma CreatedKeepsOffers(w: World, g: Match)
    requires OffersPublished(w) && Fresh(w, g)
    ensures OffersPublished(Created(w, g))
  {
    LogGrows(w.log, GameCreated(g.id, g.player1, g.player2));
  }

  lemma CreatedKeepsOk(w: World, g: Match)
    requires Ok(w) && Fresh(w, g)
    ensures Ok(Created(w, g))
  {
    CreatedKeepsGames(w, g);
    CreatedKeepsIndex(w, g);
    CreatedKeepsLog(w, g);
    CreatedKeepsTrue(w, g);
    CreatedKeepsComplete(w, g);
    CreatedKeepsOffers(w, g);
  }

  // A move is added to a live game.

  /** The live game with one more move, status and outcome aside. */
  ghost predicate OneMoveMore(w: World, g: Match, move: string) {
    && g.id in w.live && g.moves == w.live[g.id].moves + [move] && g.offer == w.live[g.id].offer
    && g.player1 == w.live[g.id].player1 && g.player2 == w.live[g.id].player2
  }

  function Approval(w: World, g: Match, move: string): Event
    requires g.id in w.live
  {
    MoveApproved(g.id, w.live[g.id].Turn(), move, |w.live[g.id].moves| + 1)
  }

  lemma AdvancedKeepsGames(w: World, g: Match, move: string)
    requires LiveOk(w) && OneGameEach(w) && IndexExact(w) && OneMoveMore(w, g, move)
    ensures var w' := Advanced(w, g, Approval(w, g, move));
            && (g.status == Active && g.outcome == NoOutcome ==> LiveOk(w')) && OneGameEach(w') && IndexExact(w')
  {
    var w' := Advanced(w, g, Approval(w, g, move));
    assert forall id, p :: id in w'.live ==> id in w.live && (w'.live[id].HasPlayer(p) <==> w.live[id].HasPlayer(p));
  }

  lemma AdvancedKeepsLog(w: World, g: Match, move: string)
    requires LiveOk(w) && EndingsFinal(w) && LogCached(w) && OneMoveMore(w, g, move)
    ensures var w' := Advanced(w, g, Approval(w, g, move)); EndingsFinal(w') && LogCached(w')
  {
    LogGrows(w.log, Approval(w, g, move));
  }

  lemma AdvancedKeepsApprovals(w: World, g: Match, move: string)
    requires LiveOk(w) && ApprovalsTrue(w) && OneMoveMore(w, g, move)
    ensures ApprovalsTrue(Advanced(w, g, Approval(w, g, move)))
  {
    LogGrows(w.log, Approval(w, g, move));
  }

  lemma AdvancedKeepsComplete(w: World, g: Match, move: string)
    requires LiveOk(w) && ApprovalsComplete(w) && OneMoveMore(w, g, move)
    ensures ApprovalsComplete(Advanced(w, g, Approval(w, g, move)))
  {
    var w' := Advanced(w, g, Approval(w, g, move));
    LogGrows(w.log, Approval(w, g, move));
    forall id, k | id in w'.cached && 0 <= k < |w'.cached[id].moves|
      ensures MoveApproved(id, w'.cached[id].Mover(k), w'.cached[id].moves[k], k + 1) in w'.log
    {
      if id == g.id && k == |w.live[id].moves| {
        assert Approval(w, g, move) == MoveApproved(id, g.Mover(k), g.moves[k], k + 1);
      } else {
        assert MoveApproved(id, w.cached[id].Mover(k), w.cached[id].moves[k], k + 1) in w.log;
      }
    }
  }

  lemma AdvancedKeepsOffers(w: World, g: Match, move: string)
    requires OffersPublished(w) && OneMoveMore(w, g, move)
    ensures OffersPublished(Advanced(w, g, Approval(w, g, move)))
  {
    LogGrows(w.log, Approval(w, g, move));
  }

  // Something is said about a live game: a claim is published, or the standing offer changes.

  /** The same game with another standing offer. */
  function Reoffered(w: World, id: Id, offer: Option<Id>): World
    requires id in w.live
  {
    w.(live := w.live[id := w.live[id].(offer := offer)])
  }

  lemma ReofferedKeepsGames(w: World, id: Id, offer: Option<Id>)
    requires LiveOk(w) && OneGameEach(w) && IndexExact(w) && id in w.live
    ensures LiveOk(Reoffered(w, id, offer)) && OneGameEach(Reoffered(w, id, offer)) && IndexExact(Reoffered(w, id, offer))
  {
    ReofferedKeepsLive(w, id, offer);
    ReofferedKeepsIndex(w, id, offer);
  }

  lemma ReofferedKeepsLive(w: World, id: Id, offer: Option<Id>)
    requires LiveOk(w) && id in w.live
    ensures LiveOk(Reoffered(w, id, offer))
  {
  }

  lemma ReofferedKeepsIndex(w: World, id: Id, offer: Option<Id>)
    requires OneGameEach(w) && IndexExact(w) && id in w.live
    ensures OneGameEach(Reoffered(w, id, offer)) && IndexExact(Reoffered(w, id, offer))
  {
    var w' := Reoffered(w, id, offer);
    assert forall a, p :: a in w'.live ==> a in w.live && (w'.live[a].HasPlayer(p) <==> w.live[a].HasPlayer(p));
  }

  lemma ReofferedKeepsOk(w: World, id: Id, offer: Option<Id>)
    requires Ok(w) && id in w.live
    requires offer.Some? ==> w.live[id].HasPlayer(offer.value) && ClaimApproved(id, offer.value, DrawOffer) in w.log
    ensures Ok(Reoffered(w, id, offer))
  {
    ReofferedKeepsGames(w, id, offer);
    assert EndingsFinal(Reoffered(w, id, offer));
    assert OffersPublished(Reoffered(w, id, offer));
  }

  lemma ClaimKeepsOk(w: World, id: Id, p: Id, how: Method)
    requires Ok(w) && id in w.live
    ensures Ok(w.(log := w.log + [ClaimApproved(id, p, how)]))
  {
    ClaimKeepsLog(w, id, p, how);
    ClaimKeepsApprovals(w, id, p, how);
  }

  lemma ClaimKeepsLog(w: World, id: Id, p: Id, how: Method)
    requires LiveOk(w) && EndingsFinal(w) && LogCached(w) && id in w.live
    ensures var w' := w.(log := w.log + [ClaimApproved(id, p, how)]); EndingsFinal(w') && LogCached(w')
  {
    LogGrows(w.log, ClaimApproved(id, p, how));
  }

  lemma ClaimKeepsApprovals(w: World, id: Id, p: Id, how: Method)
    requires ApprovalsTrue(w) && ApprovalsComplete(w) && OffersPublished(w)
    ensures var w' := w.(log := w.log + [ClaimApproved(id, p, how)]);
            ApprovalsTrue(w') && ApprovalsComplete(w') && OffersPublished(w')
  {
    LogGrows(w.log, ClaimApproved(id, p, how));
  }

  // A live game ends.

  /** The final state of a live game: same players and moves, a real outcome. */
  ghost predicate FinalState(w: World, g: Match) {
    && g.id in w.live && g.outcome != NoOutcome && g.moves == w.live[g.id].moves
    && g.player1 == w.live[g.id].player1 && g.player2 == w.live[g.id].player2
  }

  lemma EndedKeepsGames(w: World, g: Match, ending: Ending)
    requires LiveOk(w.(live := w.live - {g.id})) && OneGameEach(w) && FinalState(w, g)
    ensures LiveOk(Ended(w, g, ending)) && OneGameEach(Ended(w, g, ending))
  {
  }

  lemma EndedKeepsIndex(w: World, g: Match, ending: Ending)
    requires OneGameEach(w) && IndexExact(w) && FinalState(w, g)
    ensures IndexExact(Ended(w, g, ending))
  {
    var w' := Ended(w, g, ending);
    forall p, id
      ensures (p in w'.playerGame && w'.playerGame[p] == id) <==> (id in w'.live && w'.live[id].HasPlayer(p))
    {
      if g.HasPlayer(p) {
        assert w.live[g.id].HasPlayer(p) && p !in w'.playerGame;
      } else {
        assert p in w'.playerGame <==> p in w.playerGame;
      }
    }
  }

  lemma EndedKeepsLog(w: World, g: Match, ending: Ending)
    requires EndingsFinal(w) && LogCached(w) && FinalState(w, g)
    ensures EndingsFinal(Ended(w, g, ending)) && LogCached(Ended(w, g, ending))
  {
    LogGrows(w.log, GameEnded(g.id, g.player1, g.player2, g.outcome, ending));
  }

  lemma EndedKeepsApprovals(w: World, g: Match, ending: Ending)
    requires ApprovalsTrue(w) && OffersPublished(w) && FinalState(w, g) && CachedLike(w, g)
    ensures ApprovalsTrue(Ended(w, g, ending)) && OffersPublished(Ended(w, g, ending))
  {
    LogGrows(w.log, GameEnded(g.id, g.player1, g.player2, g.outcome, ending));
  }

  lemma EndedKeepsComplete(w: World, g: Match, ending: Ending)
    requires ApprovalsComplete(w) && FinalState(w, g) && CachedLike(w, g)
    ensures ApprovalsComplete(Ended(w, g, ending))
  {
    LogGrows(w.log, GameEnded(g.id, g.player1, g.player2, g.outcome, ending));
    assert forall k: nat :: w.cached[g.id].Mover(k) == g.Mover(k);
  }

  ghost predicate CachedLike(w: World, g: Match) {
    && g.id in w.cached && w.cached[g.id].moves == g.moves
    && w.cached[g.id].player1 == g.player1 && w.cached[g.id].player2 == g.player2
  }

  lemma EndedKeepsOk(w: World, g: Match, ending: Ending)
    requires Ok(w) && FinalState(w, g)
    ensures Ok(Ended(w, g, ending))
  {
    EndedKeepsGames(w, g, ending);
    EndedKeepsIndex(w, g, ending);
    EndedKeepsLog(w, g, ending);
    EndedKeepsApprovals(w, g, ending);
    EndedKeepsComplete(w, g, ending);
  }

  // ------------------------------------------------------- every step keeps it

  lemma MovedKeepsOk(r: Rulebook, w: World, id: Id, p: Id, move: string, index: int)
    requires Ok(w)
    ensures Ok(PlayerMoved(r, w, id, p, move, index))
  {
    if Handles(w, id) && CanMove(r, w.live[id], p, move, index) {
      var g := Moved(r, w.live[id], move);
      var next := if g.outcome != NoOutcome then g.(status := Deactive) else g;
      assert Approval(w, next, move) == MoveApproved(id, p, move, index);
      var w' := Advanced(w, next, Approval(w, next, move));
      AdvancedKeepsGames(w, next, move);
      AdvancedKeepsLog(w, next, move);
      AdvancedKeepsApprovals(w, next, move);
      AdvancedKeepsComplete(w, next, move);
      AdvancedKeepsOffers(w, next, move);
      if g.outcome != NoOutcome {
        LiveWithout(w, next, Approval(w, next, move));
        EndedKeepsGames(w', next, ByMove);
        EndedKeepsIndex(w', next, ByMove);
        EndedKeepsLog(w', next, ByMove);
        EndedKeepsApprovals(w', next, ByMove);
        EndedKeepsComplete(w', next, ByMove);
      }
    }
  }

  lemma LiveWithout(w: World, g: Match, e: Event)
    requires LiveOk(w)
    ensures var w' := Advanced(w, g, e); LiveOk(w'.(live := w'.live - {g.id}))
  {
  }

  lemma ClaimedKeepsOk(r: Rulebook, w: World, id: Id, p: Id, how: Method)
    requires Ok(w)
    ensures Ok(DrawClaimed(r, w, id, p, how))
  {
    if Handles(w, id) {
      var g := w.live[id];
      ClaimKeepsOk(w, id, p, how);
      var said := w.(log := w.log + [ClaimApproved(id, p, how)]);
      if how == DrawOffer {
        if CanOffer(g, p) {
          assert ClaimApproved(id, p, DrawOffer) in said.log;
          ReofferedKeepsOk(said, id, Some(p));
        }
      } else if CanClaim(r, g, p, how) {
        EndedKeepsOk(said, g.(outcome := Draw), ByClaim);
      }
    }
  }

  lemma AnsweredKeepsOk(w: World, id: Id, p: Id, accept: bool)
    requires Ok(w)
    ensures Ok(OfferAnswered(w, id, p, accept))
  {
    if Handles(w, id) && CanAnswer(w.live[id], p) {
      if accept {
        EndedKeepsOk(w, w.live[id].(outcome := Draw), ByAgreement);
      } else {
        ReofferedKeepsOk(w, id, None);
      }
    }
  }

  lemma ResignedKeepsOk(w: World, id: Id, p: Id)
    requires Ok(w)
    ensures Ok(PlayerResigned(w, id, p))
  {
    if Handles(w, id) && w.live[id].HasPlayer(p) {
      EndedKeepsOk(w, ResignedBy(w.live[id], p), ByResignation);
    }
  }

  lemma {:induction false} LeavingKeepsOk(w: World, picks: map<Id, Id>, games: seq<Id>)
    requires Ok(w)
    ensures Ok(EndedByLeaving(w, picks, games))
    decreases |games|
  {
    if games != [] {
      var before, id := EndedByLeaving(w, picks, games[..|games| - 1]), games[|games| - 1];
      LeavingKeepsOk(w, picks, games[..|games| - 1]);
      if EndsOnTick(before, picks, id) {
        EndedKeepsOk(before, ResignedBy(before.live[id], picks[id]), ByLeaving);
      }
    }
  }

  lemma TrackerIsApart(w: World, left: map<Id, map<Id, int>>)
    requires Ok(w)
    ensures Ok(w.(left := left))
  {
    GamesApart(w, left);
    LogApart(w, left);
    ApprovalsApart(w, left);
    CompleteApart(w, left);
  }

  lemma GamesApart(w: World, left: map<Id, map<Id, int>>)
    requires LiveOk(w) && OneGameEach(w) && IndexExact(w)
    ensures var w' := w.(left := left); LiveOk(w') && OneGameEach(w') && IndexExact(w')
  {
  }

  lemma LogApart(w: World, left: map<Id, map<Id, int>>)
    requires EndingsFinal(w) && LogCached(w) && OffersPublished(w)
    ensures var w' := w.(left := left); EndingsFinal(w') && LogCached(w') && OffersPublished(w')
  {
  }

  lemma ApprovalsApart(w: World, left: map<Id, map<Id, int>>)
    requires ApprovalsTrue(w)
    ensures ApprovalsTrue(w.(left := left))
  {
  }

  lemma CompleteApart(w: World, left: map<Id, map<Id, int>>)
    requires ApprovalsComplete(w)
    ensures ApprovalsComplete(w.(left := left))
  {
  }

  lemma MatchedKeepsOk(w: World, id: Id, u1: Id, u2: Id, whiteFirst: bool)
    requires Ok(w)
    ensures Ok(UsersMatched(w, NewMatch(id, u1, u2, whiteFirst)))
  {
    var g := NewMatch(id, u1, u2, whiteFirst);
    if UsersMatched(w, g) != w {
      CreatedKeepsOk(w, g);
    }
  }

  lemma StepKeepsOk(r: Rulebook, w: World, s: Step)
    requires Ok(w)
    ensures Ok(After(r, w, s))
  {
    match s
    case MatchMade(id, u1, u2, whiteFirst) => MatchedKeepsOk(w, id, u1, u2, whiteFirst);
    case Move(id, p, move, index) => MovedKeepsOk(r, w, id, p, move, index);
    case Claim(id, p, how) => ClaimedKeepsOk(r, w, id, p, how);
    case Answer(id, p, accept) => AnsweredKeepsOk(w, id, p, accept);
    case Resign(id, p) => ResignedKeepsOk(w, id, p);
    case Leave(id, p, now) => TrackerIsApart(w, PlayerLeft(w, id, p, now).left);
    case Join(id, p) => TrackerIsApart(w, PlayerJoined(w, id, p).left);
    case SeeEnded(id) => TrackerIsApart(w, EndedSeen(w, id).left);
    case Tick(limit, picks, games) =>
      TrackerIsApart(w, w.left - picks.Keys);
      LeavingKeepsOk(w.(left := w.left - picks.Keys), picks, games);
  }

  /** Every run keeps the invariant, whatever events arrive in whatever order. */
  lemma {:induction false} RunKeepsOk(r: Rulebook, steps: seq<Step>)
    ensures Ok(Run(r, steps))
    decreases |steps|
  {
    if steps != [] {
      RunKeepsOk(r, steps[..|steps| - 1]);
      StepKeepsOk(r, Run(r, steps[..|steps| - 1]), steps[|steps| - 1]);
    }
  }

  // --------------------------------------------------------- what runs guarantee

  /** No player is in two live games, and looking a player up gives the live game the player is in, or none. */
  lemma RunsIndexPlayers(r: Rulebook, steps: seq<Step>, p: Id, a: Id, b: Id)
    ensures var w := Run(r, steps);
            && (a in w.live && b in w.live && w.live[a].HasPlayer(p) && w.live[b].HasPlayer(p) ==> a == b)
            && ((p in w.playerGame && w.playerGame[p] == a) <==> (a in w.live && w.live[a].HasPlayer(p)))
  {
    RunKeepsOk(r, steps);
  }

  /** A game id has at most one ending, its outcome is real, and no move of it is approved afterwards. */
  lemma RunsEndOnce(r: Rulebook, steps: seq<Step>, i: nat, j: nat)
    requires var log := Run(r, steps).log; i < |log| && j < |log| && log[i].GameEnded? && log[i].game == log[j].game
    ensures var log := Run(r, steps).log;
            && log[i].outcome != NoOutcome && (log[j].GameEnded? ==> i == j) && (log[j].MoveApproved? ==> j < i)
  {
    RunKeepsOk(r, steps);
  }

  /** The move list of a game, cached for good, changes only by one move at the next index, played by
      the side whose turn it is. */
  ghost predicate GrowsByOne(w: World, w': World, s: Step) {
    forall id :: id in w.cached ==>
      && id in w'.cached
      && (w'.cached[id].moves != w.cached[id].moves ==>
            && s.Move? && s.game == id && s.index == |w.cached[id].moves| + 1 && s.player == w.cached[id].Turn()
            && w'.cached[id].moves == w.cached[id].moves + [s.move])
      && w'.cached[id].player1 == w.cached[id].player1 && w'.cached[id].player2 == w.cached[id].player2
  }

  lemma {:induction false} LeavingKeepsMoves(w: World, picks: map<Id, Id>, games: seq<Id>)
    requires Ok(w)
    ensures var w' := EndedByLeaving(w, picks, games);
            w'.cached.Keys == w.cached.Keys && forall id :: id in w.cached ==>
              && w'.cached[id].moves == w.cached[id].moves
              && w'.cached[id].player1 == w.cached[id].player1 && w'.cached[id].player2 == w.cached[id].player2
    decreases |games|
  {
    if games != [] {
      LeavingKeepsMoves(w, picks, games[..|games| - 1]);
      LeavingKeepsOk(w, picks, games[..|games| - 1]);
    }
  }

  lemma StepGrowsByOne(r: Rulebook, w: World, s: Step)
    requires Ok(w)
    ensures GrowsByOne(w, After(r, w, s), s)
  {
    if s.Tick? {
      TrackerIsApart(w, w.left - s.picks.Keys);
      LeavingKeepsMoves(w.(left := w.left - s.picks.Keys), s.picks, s.games);
    }
  }

  // ------------------------------------------------------ what a step publishes

  predicate Agreed(e: Event) {
    e.GameEnded? && e.ending == ByAgreement
  }

  predicate LostByLeaving(e: Event) {
    e.GameEnded? && e.ending == ByLeaving
  }

  /** The accepting answer of a player facing an offer, and the ending it publishes. */
  ghost predicate AcceptedBy(w: World, s: Step, e: Event) {
    && s.Answer? && s.accept && Handles(w, s.game) && CanAnswer(w.live[s.game], s.player)
    && e == GameEnded(s.game, w.live[s.game].player1, w.live[s.game].player2, Draw, ByAgreement)
  }

  /** The log only grows; a new approval comes first and carries the next index of its game, a new agreement
      is the answer to an offer, and only the tick ends games by leaving. */
  ghost predicate Publishes(w: World, s: Step, w': World) {
    && w.log <= w'.log
    && (forall i :: |w.log| <= i < |w'.log| && w'.log[i].MoveApproved? ==>
          i == |w.log| && w'.log[i].game in w.cached && w'.log[i].index == |w.cached[w'.log[i].game].moves| + 1)
    && (forall i :: |w.log| <= i < |w'.log| && Agreed(w'.log[i]) ==> AcceptedBy(w, s, w'.log[i]))
    && (forall i :: |w.log| <= i < |w'.log| && LostByLeaving(w'.log[i]) ==> s.Tick?)
  }

  lemma TickPublishes(r: Rulebook, w: World, s: Step)
    requires Ok(w) && s.Tick?
    ensures Publishes(w, s, After(r, w, s))
  {
    TrackerIsApart(w, w.left - s.picks.Keys);
    LeavingPublishes(w.(left := w.left - s.picks.Keys), s.picks, s.games);
  }

  lemma {:induction false} LeavingPublishes(w: World, picks: map<Id, Id>, games: seq<Id>)
    ensures var log := EndedByLeaving(w, picks, games).log;
            && w.log <= log
            && forall i :: |w.log| <= i < |log| ==> log[i].GameEnded? && log[i].ending == ByLeaving
    decreases |games|
  {
    if games != [] {
      LeavingPublishes(w, picks, games[..|games| - 1]);
    }
  }

  lemma StepPublishes(r: Rulebook, w: World, s: Step)
    requires Ok(w)
    ensures Publishes(w, s, After(r, w, s))
  {
    match s
    case Move(id, p, move, index) => MovePublishes(r, w, s);
    case Answer(id, p, accept) => AnswerPublishes(r, w, s);
    case Tick(limit, picks, games) => TickPublishes(r, w, s);
    case Claim(id, p, how) => ClaimPublishes(r, w, s);
    case Resign(id, p) => ResignPublishes(r, w, s);
    case _ => OthersPublish(r, w, s);
  }

  lemma ClaimPublishes(r: Rulebook, w: World, s: Step)
    requires Ok(w) && s.Claim?
    ensures Publishes(w, s, After(r, w, s))
  {
  }

  lemma ResignPublishes(r: Rulebook, w: World, s: Step)
    requires Ok(w) && s.Resign?
    ensures Publishes(w, s, After(r, w, s))
  {
  }

  lemma OthersPublish(r: Rulebook, w: World, s: Step)
    requires Ok(w) && (s.MatchMade? || s.Leave? || s.Join? || s.SeeEnded?)
    ensures Publishes(w, s, After(r, w, s))
  {
  }

  lemma MovePublishes(r: Rulebook, w: World, s: Step)
    requires Ok(w) && s.Move?
    ensures Publishes(w, s, After(r, w, s))
  {
  }

  lemma AnswerPublishes(r: Rulebook, w: World, s: Step)
    requires Ok(w) && s.Answer?
    ensures Publishes(w, s, After(r, w, s))
  {
  }

  /** The worlds a run goes through, before each step and after the last. */
  function Worlds(r: Rulebook, steps: seq<Step>): (ws: seq<World>)
    ensures |ws| == |steps| + 1
  {
    seq(|steps| + 1, k requires 0 <= k <= |steps| => Run(r, steps[..k]))
  }

  /** The k-th step leads from the k-th world to the next. */
  ghost predicate Leads(r: Rulebook, steps: seq<Step>, ws: seq<World>, k: nat) {
    k < |steps| && |ws| == |steps| + 1 && Ok(ws[k]) && ws[k + 1] == After(r, ws[k], steps[k])
  }

  ghost predicate Trace(r: Rulebook, steps: seq<Step>, ws: seq<World>) {
    && |ws| == |steps| + 1 && ws[0] == World(map[], map[], map[], map[], [])
    && forall k: nat :: k < |steps| ==> Leads(r, steps, ws, k)
  }

  lemma RunIsTrace(r: Rulebook, steps: seq<Step>)
    ensures Trace(r, steps, Worlds(r, steps)) && Worlds(r, steps)[|steps|] == Run(r, steps)
  {
    assert steps[..0] == [] && steps[..|steps|] == steps;
    forall k: nat | k < |steps|
      ensures Leads(r, steps, Worlds(r, steps), k)
    {
      RunKeepsOk(r, steps[..k]);
      RunNext(r, steps, k + 1);
    }
  }

  lemma LogNext(r: Rulebook, steps: seq<Step>, ws: seq<World>, k: nat)
    requires Trace(r, steps, ws) && k < |steps|
    ensures Publishes(ws[k], steps[k], ws[k + 1])
  {
    assert Leads(r, steps, ws, k);
    StepPublishes(r, ws[k], steps[k]);
  }

  /** The k-th step publishes what stands at place i of the log. */
  ghost predicate PublishedBy(ws: seq<World>, i: nat, e: Event, k: nat) {
    k + 1 < |ws| && |ws[k].log| <= i < |ws[k + 1].log| && ws[k + 1].log[i] == e
  }

  /** Every published event was published by one of the steps. */
  lemma {:induction false} EventHasStep(r: Rulebook, steps: seq<Step>, ws: seq<World>, n: nat, i: nat) returns (k: nat)
    requires Trace(r, steps, ws) && n <= |steps| && i < |ws[n].log|
    ensures PublishedBy(ws, i, ws[n].log[i], k) && k < n && ws[k].log <= ws[n].log
    decreases n
  {
    if n == 0 {
      assert false;
    } else {
      LogNext(r, steps, ws, n - 1);
      if i < |ws[n - 1].log| {
        k := EventHasStep(r, steps, ws, n - 1, i);
      } else {
        k := n - 1;
      }
    }
  }

  // ------------------------------------------------------- agreed draws

  ghost predicate OfferStands(w: World, id: Id, q: Id) {
    id in w.live && w.live[id].offer == Some(q)
  }

  /** The a-th step is the offer, and it stands in every world from then up to the n-th. */
  ghost predicate OfferedAt(steps: seq<Step>, ws: seq<World>, n: nat, id: Id, q: Id, a: nat) {
    a < n <= |steps| && n < |ws| && steps[a] == Claim(id, q, DrawOffer) && forall b :: a < b <= n ==> OfferStands(ws[b], id, q)
  }

  lemma {:induction false} LeavingKeepsLive(w: World, picks: map<Id, Id>, games: seq<Id>)
    ensures var w' := EndedByLeaving(w, picks, games); forall id :: id in w'.live ==> id in w.live && w'.live[id] == w.live[id]
    decreases |games|
  {
    if games != [] {
      LeavingKeepsLive(w, picks, games[..|games| - 1]);
    }
  }

  /** An offer that stands after a step stood before it, or the step is the offer. */
  lemma OfferStep(r: Rulebook, w: World, s: Step, id: Id, q: Id)
    requires Ok(w) && OfferStands(After(r, w, s), id, q)
    ensures OfferStands(w, id, q) || s == Claim(id, q, DrawOffer)
  {
    if s.Tick? {
      LeavingKeepsLive(w.(left := w.left - s.picks.Keys), s.picks, s.games);
    }
  }

  lemma OfferedLater(steps: seq<Step>, ws: seq<World>, n: nat, id: Id, q: Id, a: nat)
    requires 0 < n <= |steps| && n < |ws| && OfferedAt(steps, ws, n - 1, id, q, a) && OfferStands(ws[n], id, q)
    ensures OfferedAt(steps, ws, n, id, q, a)
  {
  }

  lemma {:induction false} OfferHasStep(r: Rulebook, steps: seq<Step>, ws: seq<World>, n: nat, id: Id, q: Id) returns (a: nat)
    requires Trace(r, steps, ws) && n <= |steps| && OfferStands(ws[n], id, q)
    ensures OfferedAt(steps, ws, n, id, q, a)
    decreases n
  {
    if n == 0 {
      assert false;
    } else {
      assert Leads(r, steps, ws, n - 1);
      OfferStep(r, ws[n - 1], steps[n - 1], id, q);
      if OfferStands(ws[n - 1], id, q) {
        a := OfferHasStep(r, steps, ws, n - 1, id, q);
        OfferedLater(steps, ws, n, id, q, a);
      } else {
        a := n - 1;
      }
    }
  }

  lemma StepKeepsPlayers(r: Rulebook, w: World, s: Step, id: Id)
    requires Ok(w) && id in w.live && id in After(r, w, s).live
    ensures After(r, w, s).live[id].player1 == w.live[id].player1 && After(r, w, s).live[id].player2 == w.live[id].player2
  {
    StepKeepsOk(r, w, s);
    StepGrowsByOne(r, w, s);
  }

  /** A rejection by the other player clears a standing offer. */
  lemma RejectionClears(r: Rulebook, w: World, id: Id, q: Id, p: Id)
    requires Ok(w) && OfferStands(w, id, q) && p != q && w.live[id].HasPlayer(p)
    ensures !OfferStands(After(r, w, Answer(id, p, false)), id, q)
  {
  }

  /** While an offer stands its game keeps its players, and the other one has not rejected it. */
  lemma {:induction false} NoRejection(r: Rulebook, steps: seq<Step>, ws: seq<World>, n: nat, id: Id, p: Id, q: Id, a: nat, b: nat)
    requires Trace(r, steps, ws) && OfferedAt(steps, ws, n, id, q, a) && a < b < n
    requires OfferStands(ws[n], id, q) && p != q && ws[n].live[id].HasPlayer(p)
    ensures steps[b] != Answer(id, p, false)
    decreases n
  {
    assert Leads(r, steps, ws, n - 1) && OfferStands(ws[n - 1], id, q);
    StepKeepsPlayers(r, ws[n - 1], steps[n - 1], id);
    if b == n - 1 {
      RejectionClears(r, ws[b], id, q, p);
    } else {
      NoRejection(r, steps, ws, n - 1, id, p, q, a, b);
    }
  }

  /** The k-th step is a player's acceptance; the a-th was the other player's offer, which was published, has
      stood in every world between, and has not been rejected. */
  ghost predicate AgreedAfterOffer(steps: seq<Step>, ws: seq<World>, i: nat, e: Event, p: Id, q: Id, a: nat, k: nat)
    requires e.GameEnded? && |ws| == |steps| + 1
  {
    && p != q && {p, q} == {e.player1.id, e.player2.id}
    && PublishedBy(ws, i, e, k) && steps[k] == Answer(e.game, p, true)
    && OfferedAt(steps, ws, k, e.game, q, a) && ClaimApproved(e.game, q, DrawOffer) in ws[k].log
    && forall b :: a < b < k ==> steps[b] != Answer(e.game, p, false)
  }

  lemma AgreedStep(r: Rulebook, steps: seq<Step>, ws: seq<World>, i: nat, e: Event, k: nat) returns (p: Id, q: Id, a: nat)
    requires Trace(r, steps, ws) && Agreed(e) && PublishedBy(ws, i, e, k)
    ensures AgreedAfterOffer(steps, ws, i, e, p, q, a, k)
  {
    LogNext(r, steps, ws, k);
    assert Leads(r, steps, ws, k);
    var w := ws[k];
    assert AcceptedBy(w, steps[k], e);
    p, q := steps[k].player, w.live[e.game].offer.value;
    a := OfferHasStep(r, steps, ws, k, e.game, q);
    forall b | a < b < k
      ensures steps[b] != Answer(e.game, p, false)
    {
      NoRejection(r, steps, ws, k, e.game, p, q, a, b);
    }
  }

  /** On every run, a draw by agreement is a player's acceptance of the other player's published offer, which
      has been standing ever since it was made and has not been rejected. */
  lemma AgreementNeedsOffer(r: Rulebook, steps: seq<Step>, i: nat)
    requires i < |Run(r, steps).log| && Agreed(Run(r, steps).log[i])
    ensures exists p, q, a, k :: AgreedAfterOffer(steps, Worlds(r, steps), i, Run(r, steps).log[i], p, q, a, k)
  {
    var ws := Worlds(r, steps);
    RunIsTrace(r, steps);
    var k := EventHasStep(r, steps, ws, |steps|, i);
    var p, q, a := AgreedStep(r, steps, ws, i, ws[|steps|].log[i], k);
  }

  /** The winner's side when a player of the game leaves or resigns. */
  function Against(g: Match, loser: Id): GameOutcome {
    if ColorOf(g, loser) == White then BlackWon else WhiteWon
  }

  lemma {:induction false} LeavingEnds(w: World, picks: map<Id, Id>, games: seq<Id>, id: Id)
    requires Ok(w)
    ensures var w' := EndedByLeaving(w, picks, games);
            && (id in w'.live <==> id in w.live && !(id in games && EndsOnTick(w, picks, id)))
            && (id in w'.live ==> w'.live[id] == w.live[id])
            && w.log <= w'.log
            && (forall i :: |w.log| <= i < |w'.log| && w'.log[i].game == id ==>
                  && id in games && EndsOnTick(w, picks, id)
                  && w'.log[i] == GameEnded(id, w.live[id].player1, w.live[id].player2, Against(w.live[id], picks[id]), ByLeaving))
    decreases |games|
  {
    if games != [] {
      var front, last := games[..|games| - 1], games[|games| - 1];
      assert games == front + [last];
      LeavingEnds(w, picks, front, id);
      LeavingEnds(w, picks, front, last);
      LeavingKeepsOk(w, picks, front);
    }
  }

  /** A tick with a correct answer of the tracker ends exactly the live games whose picked leaver plays in
      them; each is lost by a player who left earliest, and before the limit. */
  lemma TickEndsLeavers(w: World, limit: int, picks: map<Id, Id>, games: seq<Id>, id: Id)
    requires Ok(w) && PicksEarliest(w.left, limit, picks) && forall g :: g in w.live ==> g in games
    ensures var w' := Ticked(w, picks, games);
            && (id in w'.live <==> id in w.live && !(id in picks && w.live[id].HasPlayer(picks[id])))
            && (forall i :: |w.log| <= i < |w'.log| && w'.log[i].game == id ==>
                  && id in w.live && id in picks && w.live[id].HasPlayer(picks[id]) && EarliestLeaver(w.left, id, picks[id], limit)
                  && w'.log[i] == GameEnded(id, w.live[id].player1, w.live[id].player2, Against(w.live[id], picks[id]), ByLeaving))
  {
    var w1 := w.(left := w.left - picks.Keys);
    TrackerIsApart(w, w.left - picks.Keys);
    LeavingEnds(w1, picks, games, id);
  }

  // ------------------------------------------------------- lost by leaving

  /** The tick works with a correct answer of the tracker and looks at all live games. */
  ghost predicate FairTick(w: World, s: Step) {
    s.Tick? ==> PicksEarliest(w.left, s.limit, s.picks) && forall g :: g in w.live ==> g in s.games
  }

  ghost predicate FairTicks(steps: seq<Step>, ws: seq<World>) {
    |ws| == |steps| + 1 && forall k :: 0 <= k < |steps| ==> FairTick(ws[k], steps[k])
  }

  ghost predicate Absent(w: World, id: Id, p: Id, t: int) {
    id in w.left && p in w.left[id] && w.left[id][p] == t
  }

  /** The a-th step is the leaving, and the player is on record as absent since then up to the n-th world. */
  ghost predicate LeftAt(steps: seq<Step>, ws: seq<World>, n: nat, id: Id, p: Id, t: int, a: nat) {
    a < n <= |steps| && n < |ws| && steps[a] == Leave(id, p, t) && forall b :: a < b <= n ==> Absent(ws[b], id, p, t)
  }

  lemma AbsenceStep(r: Rulebook, w: World, s: Step, id: Id, p: Id, t: int)
    requires Absent(After(r, w, s), id, p, t)
    ensures Absent(w, id, p, t) || s == Leave(id, p, t)
  {
    if s.Tick? {
      LeavingKeepsTracker(w.(left := w.left - s.picks.Keys), s.picks, s.games);
    }
  }

  lemma LeftLater(steps: seq<Step>, ws: seq<World>, n: nat, id: Id, p: Id, t: int, a: nat)
    requires 0 < n <= |steps| && n < |ws| && LeftAt(steps, ws, n - 1, id, p, t, a) && Absent(ws[n], id, p, t)
    ensures LeftAt(steps, ws, n, id, p, t, a)
  {
  }

  lemma {:induction false} AbsenceHasStep(r: Rulebook, steps: seq<Step>, ws: seq<World>, n: nat, id: Id, p: Id, t: int) returns (a: nat)
    requires Trace(r, steps, ws) && n <= |steps| && Absent(ws[n], id, p, t)
    ensures LeftAt(steps, ws, n, id, p, t, a)
    decreases n
  {
    if n == 0 {
      assert false;
    } else {
      assert Leads(r, steps, ws, n - 1);
      AbsenceStep(r, ws[n - 1], steps[n - 1], id, p, t);
      if Absent(ws[n - 1], id, p, t) {
        a := AbsenceHasStep(r, steps, ws, n - 1, id, p, t);
        LeftLater(steps, ws, n, id, p, t, a);
      } else {
        a := n - 1;
      }
    }
  }

  /** Coming back takes a player off the record. */
  lemma NoReturn(r: Rulebook, steps: seq<Step>, ws: seq<World>, n: nat, id: Id, p: Id, t: int, a: nat, b: nat)
    requires Trace(r, steps, ws) && LeftAt(steps, ws, n, id, p, t, a) && a < b < n
    ensures steps[b] != Join(id, p)
  {
    assert Leads(r, steps, ws, b);
    assert Absent(ws[b], id, p, t) && Absent(ws[b + 1], id, p, t);
  }

  /** The k-th step is a tick. The loser is a player who left at step a, before the limit of the tick, and has not
      come back; nobody else on record for the game left earlier. */
  ghost predicate LostAfterLeaving(steps: seq<Step>, ws: seq<World>, i: nat, e: Event, p: Id, t: int, a: nat, k: nat)
    requires e.GameEnded? && |ws| == |steps| + 1
  {
    && PublishedBy(ws, i, e, k) && steps[k].Tick?
    && EarliestLeaver(ws[k].left, e.game, p, steps[k].limit)
    && (forall q :: q in ws[k].left[e.game] ==> t <= ws[k].left[e.game][q])
    && LeftAt(steps, ws, k, e.game, p, t, a) && t < steps[k].limit && (forall b :: a < b < k ==> steps[b] != Join(e.game, p))
    && LosesBy(e, p)
  }

  predicate LosesBy(e: Event, p: Id)
    requires e.GameEnded?
  {
    && (p == e.player1.id || p == e.player2.id)
    && var color := if p == e.player1.id then e.player1.color else e.player2.color;
       e.outcome == if color == White then BlackWon else WhiteWon
  }

  lemma LeavingStep(r: Rulebook, steps: seq<Step>, ws: seq<World>, i: nat, e: Event, k: nat) returns (p: Id, t: int, a: nat)
    requires Trace(r, steps, ws) && FairTicks(steps, ws) && LostByLeaving(e) && PublishedBy(ws, i, e, k)
    ensures LostAfterLeaving(steps, ws, i, e, p, t, a, k)
  {
    LogNext(r, steps, ws, k);
    assert Leads(r, steps, ws, k);
    var w, s := ws[k], steps[k];
    p := TickLoser(w, s, e, i);
    t := w.left[e.game][p];
    a := AbsenceHasStep(r, steps, ws, k, e.game, p, t);
    forall b | a < b < k
      ensures steps[b] != Join(e.game, p)
    {
      NoReturn(r, steps, ws, k, e.game, p, t, a, b);
    }
  }

  lemma TickLoser(w: World, s: Step, e: Event, i: nat) returns (p: Id)
    requires Ok(w) && s.Tick? && FairTick(w, s)
    requires var log := Ticked(w, s.picks, s.games).log; |w.log| <= i < |log| && log[i] == e
    ensures e.GameEnded? && EarliestLeaver(w.left, e.game, p, s.limit) && LosesBy(e, p)
  {
    TickEndsLeavers(w, s.limit, s.picks, s.games, e.game);
    p := s.picks[e.game];
  }

  /** On every run with fair ticks, a game ended by leaving is lost by a player who left before the limit, as early
      as anybody, and has not come back. */
  lemma LeaversLoseGames(r: Rulebook, steps: seq<Step>, i: nat)
    requires FairTicks(steps, Worlds(r, steps)) && i < |Run(r, steps).log| && LostByLeaving(Run(r, steps).log[i])
    ensures exists p, t, a, k :: LostAfterLeaving(steps, Worlds(r, steps), i, Run(r, steps).log[i], p, t, a, k)
  {
    var ws := Worlds(r, steps);
    RunIsTrace(r, steps);
    var k := EventHasStep(r, steps, ws, |steps|, i);
    var p, t, a := LeavingStep(r, steps, ws, i, ws[|steps|].log[i], k);
  }

  /** Somebody left the game before the limit. */
  ghost predicate Overdue(left: map<Id, map<Id, int>>, id: Id, limit: int) {
    exists p :: PastThreshold(left, id, p, limit)
  }

  /** The tick forgets every game somebody left before the limit. The game ends if all who left it earliest are
      players, and goes on if none of them is: then a player who left later is no longer on record either. */
  lemma TickForgets(w: World, limit: int, picks: map<Id, Id>, games: seq<Id>, id: Id)
    requires Ok(w) && PicksEarliest(w.left, limit, picks) && forall g :: g in w.live ==> g in games
    requires id in w.live && Overdue(w.left, id, limit)
    ensures var w' := Ticked(w, picks, games);
            && id !in w'.left
            && ((forall p :: EarliestLeaver(w.left, id, p, limit) ==> w.live[id].HasPlayer(p)) ==> id !in w'.live)
            && ((forall p :: EarliestLeaver(w.left, id, p, limit) ==> !w.live[id].HasPlayer(p)) ==> id in w'.live)
  {
    TickEndsLeavers(w, limit, picks, games, id);
    LeavingKeepsTracker(w.(left := w.left - picks.Keys), picks, games);
  }

  /** Someone who left earliest. */
  lemma {:induction false} EarliestExists(players: map<Id, int>, keys: set<Id>, any: Id) returns (p: Id)
    requires any in keys && keys <= players.Keys
    ensures p in keys && forall q :: q in keys ==> players[p] <= players[q]
  {
    p := any;
    assert keys == {any} + (keys - {any});
    if other :| other in keys - {any} {
      var q := EarliestExists(players, keys - {any}, other);
      if players[q] < players[any] {
        p := q;
      }
    }
  }

  lemma SomebodyLeftFirst(left: map<Id, map<Id, int>>, id: Id, limit: int)
    requires Overdue(left, id, limit)
    ensures exists p :: EarliestLeaver(left, id, p, limit)
  {
    var late :| PastThreshold(left, id, late, limit);
    var p := EarliestExists(left[id], left[id].Keys, late);
    assert EarliestLeaver(left, id, p, limit);
  }

  /** Whoever left a game earliest, the tracker may answer with. */
  lemma MayPick(left: map<Id, map<Id, int>>, limit: int, id: Id, p: Id) returns (picks: map<Id, Id>)
    requires EarliestLeaver(left, id, p, limit)
    ensures PicksEarliest(left, limit, picks) && id in picks && picks[id] == p
  {
    forall g | g in left && Overdue(left, g, limit)
      ensures exists q :: EarliestLeaver(left, g, q, limit)
    {
      SomebodyLeftFirst(left, g, limit);
    }
    var others := map g | g in left && Overdue(left, g, limit) :: var q :| EarliestLeaver(left, g, q, limit); q;
    picks := others[id := p];
    assert forall g, q :: PastThreshold(left, g, q, limit) ==> Overdue(left, g, limit);
  }

  /** A game is sure to end on a tick exactly if all who left it earliest are its players, and sure to go on
      exactly if none of them is; otherwise it depends on the order in which the tracker reads its map. */
  lemma SureToEnd(w: World, limit: int, games: seq<Id>, id: Id)
    requires Ok(w) && (forall g :: g in w.live ==> g in games) && id in w.live && Overdue(w.left, id, limit)
    ensures (forall picks :: PicksEarliest(w.left, limit, picks) ==> id !in Ticked(w, picks, games).live)
            <==> (forall p :: EarliestLeaver(w.left, id, p, limit) ==> w.live[id].HasPlayer(p))
    ensures (forall picks :: PicksEarliest(w.left, limit, picks) ==> id in Ticked(w, picks, games).live)
            <==> (forall p :: EarliestLeaver(w.left, id, p, limit) ==> !w.live[id].HasPlayer(p))
  {
    forall picks | PicksEarliest(w.left, limit, picks)
      ensures id in picks && EarliestLeaver(w.left, id, picks[id], limit)
      ensures id in Ticked(w, picks, games).live <==> !w.live[id].HasPlayer(picks[id])
    {
      TickEndsLeavers(w, limit, picks, games, id);
    }
    forall p | EarliestLeaver(w.left, id, p, limit)
      ensures exists picks :: PicksEarliest(w.left, limit, picks) && id in picks && picks[id] == p
    {
      var picks := MayPick(w.left, limit, id, p);
    }
  }

  lemma RunOne(r: Rulebook, s: Step)
    ensures Run(r, [s]) == After(r, World(map[], map[], map[], map[], []), s)
  {
    RunMore(r, [], s);
    assert [] + [s] == [s];
  }

  /** Users 7 and 8 are matched in game 1. */
  lemma FirstMatch(r: Rulebook)
    ensures var w := Run(r, [MatchMade(1, 7, 8, true)]); var g := NewMatch(1, 7, 8, true);
            && w == Created(World(map[], map[], map[], map[], []), g)
            && g == Match(1, Active, Player(7, White), Player(8, Black), [], NoOutcome, None)
  {
    RunOne(r, MatchMade(1, 7, 8, true));
    assert IdText(7) == "7" && IdText(8) == "8";
  }

  /** Such a tick: 99, who plays in no game, left game 1 before player 7 did; the game goes on unwatched. */
  lemma StrangerShields(r: Rulebook)
    ensures var steps := [MatchMade(1, 7, 8, true)] + [Leave(1, 99, 3)] + [Leave(1, 7, 5)];
            var picks := map[1 := 99];
            var w, w' := Run(r, steps), Run(r, steps + [Tick(10, picks, [1])]);
            && PicksEarliest(w.left, 10, picks) && PastThreshold(w.left, 1, 7, 10) && 1 in w.live && w.live[1].HasPlayer(7)
            && 1 in w'.live && 1 !in w'.left
  {
    var first, second := [MatchMade(1, 7, 8, true)], [MatchMade(1, 7, 8, true)] + [Leave(1, 99, 3)];
    var picks := map[1 := 99];
    FirstMatch(r);
    RunMore(r, first, Leave(1, 99, 3));
    RunMore(r, second, Leave(1, 7, 5));
    RunMore(r, second + [Leave(1, 7, 5)], Tick(10, picks, [1]));
    var w := Run(r, second + [Leave(1, 7, 5)]);
    assert w.left == map[1 := map[99 := 3, 7 := 5]];
    assert PicksEarliest(w.left, 10, picks) && PastThreshold(w.left, 1, 7, 10);
    RunKeepsOk(r, second + [Leave(1, 7, 5)]);
    assert 1 in [1];
    TickEndsLeavers(w, 10, picks, [1], 1);
    LeavingKeepsTracker(w.(left := w.left - picks.Keys), picks, [1]);
  }

  lemma {:induction false} LeavingKeepsTracker(w: World, picks: map<Id, Id>, games: seq<Id>)
    ensures EndedByLeaving(w, picks, games).left == w.left
    decreases |games|
  {
    if games != [] {
      LeavingKeepsTracker(w, picks, games[..|games| - 1]);
    }
  }

  // ---------------------------------------------- ending games in one batch

  ghost predicate NoRepeats(s: seq<Id>) {
    forall i, j :: 0 <= i < j < |s| ==> s[i] != s[j]
  }

  /** Those of the listed games that a tick ends, in order. */
  function EndingIds(w: World, picks: map<Id, Id>, games: seq<Id>): seq<Id> {
    if games == [] then []
    else
      EndingIds(w, picks, games[..|games| - 1])
      + if EndsOnTick(w, picks, games[|games| - 1]) then [games[|games| - 1]] else []
  }

  predicate AllEnd(w: World, picks: map<Id, Id>, ids: seq<Id>) {
    forall k :: 0 <= k < |ids| ==> EndsOnTick(w, picks, ids[k])
  }

  /** Several games ended together, each from the state it had at the start. */
  function EndMany(w: World, picks: map<Id, Id>, ids: seq<Id>): World
    requires AllEnd(w, picks, ids)
  {
    if ids == [] then w
    else
      var id := ids[|ids| - 1];
      Ended(EndMany(w, picks, ids[..|ids| - 1]), ResignedBy(w.live[id], picks[id]), ByLeaving)
  }

  lemma {:induction false} EndingIdsMember(w: World, picks: map<Id, Id>, games: seq<Id>)
    ensures forall id :: id in EndingIds(w, picks, games) <==> id in games && EndsOnTick(w, picks, id)
  {
    if games != [] {
      var front, last := games[..|games| - 1], games[|games| - 1];
      assert games == front + [last];
      EndingIdsMember(w, picks, front);
    }
  }

  lemma {:induction false} EndingIdsEnd(w: World, picks: map<Id, Id>, games: seq<Id>)
    ensures AllEnd(w, picks, EndingIds(w, picks, games))
  {
    if games != [] {
      EndingIdsEnd(w, picks, games[..|games| - 1]);
    }
  }

  lemma EndingIdsStep(w: World, picks: map<Id, Id>, games: seq<Id>, i: nat)
    requires NoRepeats(games) && i < |games|
    ensures EndingIds(w, picks, games[..i + 1])
            == EndingIds(w, picks, games[..i]) + if EndsOnTick(w, picks, games[i]) then [games[i]] else []
    ensures games[i] !in EndingIds(w, picks, games[..i])
    ensures AllEnd(w, picks, EndingIds(w, picks, games[..i])) && AllEnd(w, picks, EndingIds(w, picks, games[..i + 1]))
  {
    assert games[..i + 1][..i] == games[..i] && games[..i + 1][i] == games[i];
    EndingIdsMember(w, picks, games[..i]);
    EndingIdsEnd(w, picks, games[..i]);
    EndingIdsEnd(w, picks, games[..i + 1]);
  }

  lemma EndManyStep(w: World, picks: map<Id, Id>, ids: seq<Id>, id: Id)
    requires EndsOnTick(w, picks, id) && AllEnd(w, picks, ids)
    ensures EndMany(w, picks, ids + [id]) == Ended(EndMany(w, picks, ids), ResignedBy(w.live[id], picks[id]), ByLeaving)
  {
    assert (ids + [id])[..|ids|] == ids;
  }

  lemma {:induction false} EndManyLive(w: World, picks: map<Id, Id>, ids: seq<Id>)
    requires LiveOk(w) && AllEnd(w, picks, ids)
    ensures EndMany(w, picks, ids).live == map x | x in w.live && x !in ids :: w.live[x]
  {
    if ids != [] {
      var front, last := ids[..|ids| - 1], ids[|ids| - 1];
      assert ids == front + [last] && last in ids;
      EndManyLive(w, picks, front);
      assert ResignedBy(w.live[last], picks[last]).id == last;
    }
  }

  /** The final states of games ended together. */
  function EndedStates(w: World, picks: map<Id, Id>, ids: seq<Id>): seq<Match>
    requires AllEnd(w, picks, ids)
  {
    if ids == [] then []
    else
      var id := ids[|ids| - 1];
      EndedStates(w, picks, ids[..|ids| - 1]) + [ResignedBy(w.live[id], picks[id])]
  }

  lemma EndedStatesStep(w: World, picks: map<Id, Id>, ids: seq<Id>, id: Id)
    requires EndsOnTick(w, picks, id) && AllEnd(w, picks, ids)
    ensures EndedStates(w, picks, ids + [id]) == EndedStates(w, picks, ids) + [ResignedBy(w.live[id], picks[id])]
  {
    assert (ids + [id])[..|ids|] == ids;
  }

  lemma {:induction false} EndedStatesAt(w: World, picks: map<Id, Id>, ids: seq<Id>, k: nat)
    requires k < |ids| && AllEnd(w, picks, ids)
    ensures |EndedStates(w, picks, ids)| == |ids| && ids[k] in ids
    ensures EndedStates(w, picks, ids)[k] == ResignedBy(w.live[ids[k]], picks[ids[k]])
  {
    if k < |ids| - 1 {
      EndedStatesAt(w, picks, ids[..|ids| - 1], k);
    } else if |ids| > 1 {
      EndedStatesAt(w, picks, ids[..|ids| - 1], 0);
    }
  }

  lemma {:induction false} EndManyTracker(w: World, picks: map<Id, Id>, ids: seq<Id>)
    requires AllEnd(w, picks, ids)
    ensures EndMany(w, picks, ids).left == w.left
  {
    if ids != [] {
      EndManyTracker(w, picks, ids[..|ids| - 1]);
    }
  }

  lemma {:induction false} EndedStatesLength(w: World, picks: map<Id, Id>, ids: seq<Id>)
    requires AllEnd(w, picks, ids)
    ensures |EndedStates(w, picks, ids)| == |ids|
  {
    if ids != [] {
      EndedStatesLength(w, picks, ids[..|ids| - 1]);
    }
  }

  lemma SequentialStep(before: World, w: World, picks: map<Id, Id>, ids: seq<Id>, last: Id)
    requires LiveOk(w) && AllEnd(w, picks, ids)
    requires before == EndMany(w, picks, ids) && last !in ids
    ensures EndsOnTick(before, picks, last) <==> EndsOnTick(w, picks, last)
    ensures last in w.live ==> last in before.live && before.live[last] == w.live[last]
  {
    EndManyLive(w, picks, ids);
  }

  /** Ending the games of a tick in one batch is the same as ending them one after the other. */
  lemma {:induction false} BatchIsSequential(w: World, picks: map<Id, Id>, games: seq<Id>)
    requires LiveOk(w) && NoRepeats(games)
    ensures AllEnd(w, picks, EndingIds(w, picks, games))
    ensures EndedByLeaving(w, picks, games) == EndMany(w, picks, EndingIds(w, picks, games))
  {
    EndingIdsEnd(w, picks, games);
    if games != [] {
      var front, last := games[..|games| - 1], games[|games| - 1];
      BatchIsSequential(w, picks, front);
      var ids := EndingIds(w, picks, front);
      EndingIdsStep(w, picks, games, |games| - 1);
      assert games[..|games| - 1 + 1] == games;
      SequentialStep(EndedByLeaving(w, picks, front), w, picks, ids, last);
      if EndsOnTick(w, picks, last) {
        EndManyStep(w, picks, ids, last);
      } else {
        assert ids + [] == ids;
      }
    }
  }

  /** Advancing the cache first makes no difference to an ending. */
  lemma EndedAdvanced(w: World, g: Match, e: Event)
    ensures Ended(Advanced(w, g, e), g, ByMove) == Ended(w.(live := w.live[g.id := g], log := w.log + [e]), g, ByMove)
  {
  }

  // ------------------------------------------------- the status in the cache

  /** The cached copy of an ended game says so, except after a claimed or agreed draw. */
  ghost predicate StatusTold(w: World) {
    forall i :: 0 <= i < |w.log| && w.log[i].GameEnded? ==>
      && w.log[i].game in w.cached
      && (w.cached[w.log[i].game].status == Deactive <==> w.log[i].ending != ByClaim && w.log[i].ending != ByAgreement)
  }

  lemma EndedTellsStatus(w: World, g: Match, ending: Ending)
    requires StatusTold(w) && EndingsFinal(w) && g.id in w.live
    requires g.status == Deactive <==> ending != ByClaim && ending != ByAgreement
    ensures StatusTold(Ended(w, g, ending))
  {
    LogGrows(w.log, GameEnded(g.id, g.player1, g.player2, g.outcome, ending));
  }

  lemma AdvancedTellsStatus(w: World, g: Match, e: Event)
    requires StatusTold(w) && EndingsFinal(w) && g.id in w.live && !e.GameEnded?
    ensures StatusTold(Advanced(w, g, e))
  {
    LogGrows(w.log, e);
  }

  lemma {:induction false} LeavingTellsStatus(w: World, picks: map<Id, Id>, games: seq<Id>)
    requires Ok(w) && StatusTold(w)
    ensures StatusTold(EndedByLeaving(w, picks, games))
    decreases |games|
  {
    if games != [] {
      var before, id := EndedByLeaving(w, picks, games[..|games| - 1]), games[|games| - 1];
      LeavingTellsStatus(w, picks, games[..|games| - 1]);
      LeavingKeepsOk(w, picks, games[..|games| - 1]);
      if EndsOnTick(before, picks, id) {
        EndedTellsStatus(before, ResignedBy(before.live[id], picks[id]), ByLeaving);
      }
    }
  }

  lemma MovedTellsStatus(r: Rulebook, w: World, id: Id, p: Id, move: string, index: int)
    requires Ok(w) && StatusTold(w)
    ensures StatusTold(PlayerMoved(r, w, id, p, move, index))
  {
    if Handles(w, id) && CanMove(r, w.live[id], p, move, index) {
      var g := Moved(r, w.live[id], move);
      var next := if g.outcome != NoOutcome then g.(status := Deactive) else g;
      var e := MoveApproved(id, p, move, index);
      AdvancedTellsStatus(w, next, e);
      if g.outcome != NoOutcome {
        AdvancedKeepsLog(w, next, move);
        LogGrows(w.log, e);
        EndedAfterAdvance(w, next, e);
      }
    }
  }

  lemma EndedAfterAdvance(w: World, g: Match, e: Event)
    requires StatusTold(w) && EndingsFinal(w) && g.id in w.live && g.status == Deactive && !e.GameEnded?
    ensures StatusTold(Ended(Advanced(w, g, e), g, ByMove))
  {
    AdvancedTellsStatus(w, g, e);
    var w' := Advanced(w, g, e);
    LogGrows(w.log, e);
    LogGrows(w'.log, GameEnded(g.id, g.player1, g.player2, g.outcome, ByMove));
  }

  lemma StepTellsStatus(r: Rulebook, w: World, s: Step)
    requires Ok(w) && StatusTold(w)
    ensures StatusTold(After(r, w, s))
  {
    match s
    case MatchMade(id, u1, u2, whiteFirst) =>
      LogGrows(w.log, GameCreated(id, NewMatch(id, u1, u2, whiteFirst).player1, NewMatch(id, u1, u2, whiteFirst).player2));
    case Move(id, p, move, index) => MovedTellsStatus(r, w, id, p, move, index);
    case Claim(id, p, how) =>
      LogGrows(w.log, ClaimApproved(id, p, how));
      if Handles(w, id) && how != DrawOffer && CanClaim(r, w.live[id], p, how) {
        ClaimKeepsOk(w, id, p, how);
        EndedTellsStatus(w.(log := w.log + [ClaimApproved(id, p, how)]), w.live[id].(outcome := Draw), ByClaim);
      }
    case Answer(id, p, accept) =>
      if Handles(w, id) && CanAnswer(w.live[id], p) && accept {
        EndedTellsStatus(w, w.live[id].(outcome := Draw), ByAgreement);
      }
    case Resign(id, p) =>
      if Handles(w, id) && w.live[id].HasPlayer(p) {
        EndedTellsStatus(w, ResignedBy(w.live[id], p), ByResignation);
      }
    case Leave(id, p, now) =>
    case Join(id, p) =>
    case SeeEnded(id) =>
    case Tick(limit, picks, games) =>
      TrackerIsApart(w, w.left - picks.Keys);
      LeavingTellsStatus(w.(left := w.left - picks.Keys), picks, games);
  }

  /** On every run the cached copy of an ended game is marked as ended exactly when the game did not
      end in a claimed or agreed draw. */
  lemma {:induction false} RunsTellStatus(r: Rulebook, steps: seq<Step>)
    ensures StatusTold(Run(r, steps))
    decreases |steps|
  {
    if steps != [] {
      RunsTellStatus(r, steps[..|steps| - 1]);
      RunKeepsOk(r, steps[..|steps| - 1]);
      StepTellsStatus(r, Run(r, steps[..|steps| - 1]), steps[|steps| - 1]);
    }
  }

  /** Such a run: 7 offers a draw and 8 accepts; the cached copy of the ended game still says active. */
  lemma AgreedDrawStaysActive(r: Rulebook)
    ensures var w := Run(r, [MatchMade(1, 7, 8, true)] + [Claim(1, 7, DrawOffer)] + [Answer(1, 8, true)]);
            && 1 !in w.live && |w.log| > 0
            && w.log[|w.log| - 1] == GameEnded(1, Player(7, White), Player(8, Black), Draw, ByAgreement)
            && 1 in w.cached && w.cached[1].status == Active
  {
    FirstMatch(r);
    RunMore(r, [MatchMade(1, 7, 8, true)], Claim(1, 7, DrawOffer));
    RunMore(r, [MatchMade(1, 7, 8, true)] + [Claim(1, 7, DrawOffer)], Answer(1, 8, true));
    var w := Run(r, [MatchMade(1, 7, 8, true)]);
    assert w.live[1].Turn() == 7 && CanOffer(w.live[1], 7);
    var offered := DrawClaimed(r, w, 1, 7, DrawOffer);
    assert CanAnswer(offered.live[1], 8);
  }
}
