/** The game service as objects: game entities, the cache, the connection tracker and the event handlers,
    each updated in place, each tied to its effect on the `World` of module Lifecycle. */
module GameService {
  import opened Basics
  import opened Ids
  import opened Lifecycle

  class GameEntity {
    const id: Id
    const player1: Player
    const player2: Player
    const rules: Rulebook
    var status: Status
    var moves: seq<string>
    var outcome: GameOutcome
    var offer: Option<Id>

    ghost function Value(): Match
      reads this
    {
      Match(id, status, player1, player2, moves, outcome, offer)
    }

    constructor (id: Id, u1: Id, u2: Id, whiteFirst: bool, rules: Rulebook)
      ensures Value() == NewMatch(id, u1, u2, whiteFirst) && this.id == id && this.rules == rules
    {
      this.id, this.rules := id, rules;
      var ordered := IdBefore(u1, u2);
      player1 := Player(if ordered then u1 else u2, if whiteFirst then White else Black);
      player2 := Player(if ordered then u2 else u1, if whiteFirst then Black else White);
      status, moves, outcome, offer := Active, [], NoOutcome, None;
    }

    function Turn(): Id
      reads this
      ensures Turn() == Value().Turn()
    {
      if |moves| % 2 == 0 then (if player1.color == White then player1 else player2).id
      else (if player1.color == Black then player1 else player2).id
    }

    predicate IsPlayer(p: Id) {
      player1.id == p || player2.id == p
    }

    method Move(p: Id, move: string, index: int) returns (ok: bool)
      modifies this
      ensures ok <==> CanMove(rules, old(Value()), p, move, index)
      ensures Value() == if ok then Moved(rules, old(Value()), move) else old(Value())
    {
      if Turn() != p {
        return false;
      }
      if index - 1 != |moves| {
        return false;
      }
      if !rules.accepts(moves, move) {
        return false;
      }
      moves := moves + [move];
      if rules.verdict(moves) != NoOutcome {
        outcome := rules.verdict(moves);
      }
      return true;
    }

    method OfferDraw(p: Id) returns (ok: bool)
      modifies this
      ensures ok <==> CanOffer(old(Value()), p)
      ensures Value() == if ok then old(Value()).(offer := Some(p)) else old(Value())
    {
      if !IsPlayer(p) || Turn() != p || offer.Some? {
        return false;
      }
      offer := Some(p);
      return true;
    }

    method AcceptDraw(p: Id) returns (ok: bool)
      modifies this
      ensures ok <==> CanAnswer(old(Value()), p)
      ensures Value() == if ok then old(Value()).(outcome := Draw) else old(Value())
    {
      if !IsPlayer(p) || offer.None? || offer.value == p {
        return false;
      }
      outcome := Draw;
      return true;
    }

    method RejectDraw(p: Id) returns (ok: bool)
      modifies this
      ensures ok <==> CanAnswer(old(Value()), p)
      ensures Value() == if ok then old(Value()).(offer := None) else old(Value())
    {
      if !IsPlayer(p) || offer.None? || offer.value == p {
        return false;
      }
      offer := None;
      return true;
    }

    method ClaimDraw(p: Id, how: Method) returns (ok: bool)
      modifies this
      ensures ok <==> CanClaim(rules, old(Value()), p, how)
      ensures Value() == if ok then old(Value()).(outcome := Draw) else old(Value())
    {
      if how != ThreefoldRepetition && how != FiftyMoveRule {
        return false;
      }
      if !IsPlayer(p) || !rules.claimable(moves, how) {
        return false;
      }
      outcome := Draw;
      return true;
    }

    method Deactivate()
      modifies this
      ensures Value() == old(Value()).(status := Deactive)
    {
      status := Deactive;
    }

    /** Resigning and leaving: the other side wins, unless the outcome was settled before. */
    method Resign(p: Id) returns (ok: bool)
      modifies this
      ensures ok <==> old(Value()).HasPlayer(p)
      ensures Value() == if ok then ResignedBy(old(Value()), p) else old(Value())
    {
      if player1.id == p {
        if outcome == NoOutcome {
          outcome := if player1.color == White then BlackWon else WhiteWon;
        }
        Deactivate();
        return true;
      } else if player2.id == p {
        if outcome == NoOutcome {
          outcome := if player2.color == White then BlackWon else WhiteWon;
        }
        Deactivate();
        return true;
      }
      return false;
    }
  }

  /** The Redis store: game records and the player-to-game keys. */
  class GameCache {
    var games: map<Id, Match>
    var playerGame: map<Id, Id>

    constructor ()
      ensures games == map[] && playerGame == map[]
    {
      games, playerGame := map[], map[];
    }

    /** The script: set the record if there is none, then point both players at it. */
    method AddGame(g: Match) returns (ok: bool)
      modifies this
      ensures ok <==> g.id !in old(games)
      ensures ok ==> games == old(games)[g.id := g]
                     && playerGame == old(playerGame)[g.player1.id := g.id][g.player2.id := g.id]
      ensures !ok ==> games == old(games) && playerGame == old(playerGame)
    {
      if g.id in games {
        return false;
      }
      games := games[g.id := g];
      playerGame := playerGame[g.player1.id := g.id][g.player2.id := g.id];
      return true;
    }

    method UpdateGameMove(g: Match)
      modifies this
      ensures games == old(games)[g.id := g] && playerGame == old(playerGame)
    {
      games := games[g.id := g];
    }

    method UpdateAndDeactivateGame(g: Match)
      modifies this
      ensures games == old(games)[g.id := g] && playerGame == old(playerGame) - {g.player1.id, g.player2.id}
    {
      playerGame := playerGame - {g.player1.id, g.player2.id};
      games := games[g.id := g];
    }

    method GetGameIdByUserId(p: Id) returns (id: Option<Id>)
      ensures id == if p in playerGame then Some(playerGame[p]) else None
    {
      if p in playerGame {
        return Some(playerGame[p]);
      }
      return None;
    }
  }

  /** Who left which game, and when. */
  class ConnectionTracker {
    const threshold: int
    var list: map<Id, map<Id, int>>

    constructor (threshold: int)
      ensures list == map[] && this.threshold == threshold
    {
      this.threshold := threshold;
      list := map[];
    }

    method Add(game: Id, p: Id, now: int)
      modifies this
      ensures list == old(list)[game := (if game in old(list) then old(list)[game] else map[])[p := now]]
    {
      if game !in list {
        list := list[game := map[]];
      }
      list := list[game := list[game][p := now]];
    }

    method Remove(game: Id, p: Id)
      modifies this
      ensures list == if game !in old(list) then old(list)
                      else if old(list)[game] - {p} == map[] then old(list) - {game}
                      else old(list)[game := old(list)[game] - {p}]
    {
      if game in list {
        list := list[game := list[game] - {p}];
        if list[game] == map[] {
          list := list - {game};
        }
      }
    }

    method RemoveGame(game: Id)
      modifies this
      ensures list == old(list) - {game}
    {
      list := list - {game};
    }

    /** The earliest among the players of one game who left before the limit, in any iteration order. */
    static method EarliestOf(players: map<Id, int>, limit: int) returns (found: Option<Id>)
      ensures found.None? ==> forall p :: p in players ==> players[p] >= limit
      ensures found.Some? ==>
                && found.value in players && players[found.value] < limit
                && forall q :: q in players ==> players[found.value] <= players[q]
    {
      found := None;
      var rest := players.Keys;
      while rest != {}
        invariant rest <= players.Keys
        invariant found.None? ==> forall p :: p in players && p !in rest ==> players[p] >= limit
        invariant found.Some? ==>
                    && found.value in players && players[found.value] < limit
                    && forall q :: q in players && q !in rest ==> players[found.value] <= players[q]
        decreases rest
      {
        var p := PickAny(rest);
        rest := rest - {p};
        if players[p] < limit {
          if found.None? || players[p] < players[found.value] {
            found := Some(p);
          }
        }
      }
    }

    /** For every game somebody left before the limit, an earliest leaver; those games are forgotten. */
    method GetGamesNeedsToRemove(now: int) returns (picks: map<Id, Id>)
      modifies this
      ensures PicksEarliest(old(list), now - threshold, picks)
      ensures list == old(list) - picks.Keys
    {
      var limit := now - threshold;
      picks := map[];
      var rest := list.Keys;
      while rest != {}
        invariant rest <= list.Keys && list == old(list)
        invariant forall id, p :: id !in rest && PastThreshold(list, id, p, limit) ==> id in picks
        invariant forall id :: id in picks ==> id !in rest && EarliestLeaver(list, id, picks[id], limit)
        decreases rest
      {
        var id := PickAny(rest);
        rest := rest - {id};
        var found := EarliestOf(list[id], limit);
        if found.Some? {
          picks := picks[id := found.value];
        }
      }
      list := list - picks.Keys;
    }
  }

  /** The service instance: its live games, its collaborators, and the events it has published. */
  class Service {
    const rules: Rulebook
    const cache: GameCache
    const tracker: ConnectionTracker
    var games: map<Id, GameEntity>
    var log: seq<Event>

    ghost predicate Valid()
      reads this`games, games.Values
    {
      forall id :: id in games ==> games[id].id == id && games[id].rules == rules
    }

    ghost function Live(): map<Id, Match>
      reads this`games, games.Values
    {
      map id | id in games :: games[id].Value()
    }

    ghost function TheWorld(): World
      reads this, cache, tracker, games.Values
    {
      World(Live(), cache.games, cache.playerGame, tracker.list, log)
    }

    constructor (rules: Rulebook, threshold: int)
      ensures Valid() && fresh(cache) && fresh(tracker) && this.rules == rules && tracker.threshold == threshold
      ensures TheWorld() == Run(rules, [])
    {
      this.rules := rules;
      cache := new GameCache();
      tracker := new ConnectionTracker(threshold);
      games, log := map[], [];
    }

    method CheckByPlayer(p: Id) returns (busy: bool)
      requires Valid()
      ensures busy <==> InLiveGame(TheWorld(), p)
    {
      var rest := games.Keys;
      while rest != {}
        invariant rest <= games.Keys
        invariant forall id :: id in games && id !in rest ==> !games[id].IsPlayer(p)
        decreases rest
      {
        var id := PickAny(rest);
        rest := rest - {id};
        if games[id].IsPlayer(p) {
          assert id in TheWorld().live && TheWorld().live[id].HasPlayer(p);
          return true;
        }
      }
      return false;
    }

    method HandleUsersMatched(id: Id, u1: Id, u2: Id, whiteFirst: bool)
      requires Valid()
      modifies this, cache
      ensures Valid()
      ensures TheWorld() == UsersMatched(old(TheWorld()), NewMatch(id, u1, u2, whiteFirst))
    {
      var busy := CheckByPlayer(u1);
      if !busy {
        busy := CheckByPlayer(u2);
      }
      if busy {
        return;
      }
      StartGame(id, u1, u2, whiteFirst);
    }

    /** A game of two users who are in no live game: cached, added to the live games, published. */
    method StartGame(id: Id, u1: Id, u2: Id, whiteFirst: bool)
      requires Valid() && !InLiveGame(TheWorld(), u1) && !InLiveGame(TheWorld(), u2)
      modifies this, cache
      ensures Valid()
      ensures TheWorld() == UsersMatched(old(TheWorld()), NewMatch(id, u1, u2, whiteFirst))
    {
      var game := new GameEntity(id, u1, u2, whiteFirst, rules);
      var value := Record(game);
      var added := cache.AddGame(value);
      if !added || id in games {
        return;
      }
      Admit(game, value);
    }

    /** The new game joins the live games. */
    method Admit(game: GameEntity, ghost value: Match)
      requires Valid() && game.Value() == value && game.rules == rules && game.id !in games
      modifies this
      ensures Valid()
      ensures TheWorld() == old(TheWorld()).(live := old(Live())[value.id := value],
                                             log := old(log) + [GameCreated(value.id, value.player1, value.player2)])
    {
      games := games[game.id := game];
      log := log + [GameCreated(game.id, game.player1, game.player2)];
      assert Live() == old(Live())[value.id := value];
    }

    /** Changing one entity changes one entry of the live games. */
    twostate lemma OneChanged(id: Id)
      requires old(Valid()) && games == old(games) && id in games
      requires forall x :: x in games && games[x] != games[id] ==> unchanged(games[x])
      ensures Valid() && Live() == old(Live())[id := games[id].Value()]
    {
      forall x | x in games && x != id
        ensures games[x].Value() == old(games[x].Value())
      {
        assert games[x].id == x;
      }
    }

    /** The record that the cache keeps of an entity. */
    static method Record(g: GameEntity) returns (record: Match)
      ensures record == g.Value()
    {
      record := Match(g.id, g.status, g.player1, g.player2, g.moves, g.outcome, g.offer);
    }

    method RemoveGame(id: Id)
      requires Valid()
      modifies this
      ensures Valid() && games == old(games) - {id} && log == old(log)
    {
      games := games - {id};
    }

    /** Deactivate in the cache, publish the end, forget the game: what every single ending does last. */
    method Finish(g: GameEntity, ending: Ending, ghost w: World)
      requires Valid() && g.id in games && games[g.id] == g && TheWorld() == w.(live := w.live[g.id := g.Value()])
      modifies this, cache
      ensures Valid() && TheWorld() == Ended(w, g.Value(), ending)
    {
      assert Live() == w.live[g.id := g.Value()];
      ghost var live := Live();
      var record := Record(g);
      cache.UpdateAndDeactivateGame(record);
      log := log + [GameEnded(g.id, g.player1, g.player2, g.outcome, ending)];
      RemoveGame(g.id);
      assert Live() == live - {g.id};
      assert live - {g.id} == w.live - {g.id};
    }

    /** Deactivate a live game and publish something about it. */
    method Settle(game: GameEntity, e: Event, ghost w: World)
      requires Valid() && game.id in games && games[game.id] == game
      requires TheWorld() == w.(live := w.live[game.id := game.Value()])
      modifies this`log, game
      ensures Valid() && game.Value() == old(game.Value()).(status := Deactive)
      ensures TheWorld() == w.(live := w.live[game.id := game.Value()], log := w.log + [e])
    {
      game.Deactivate();
      OneChanged(game.id);
      assert Live() == w.live[game.id := game.Value()];
      log := log + [e];
    }

    /** After a move that settled the outcome: deactivate, publish approval and end. */
    method EndByMove(game: GameEntity, e: Event, ghost w: World)
      requires Valid() && game.id in games && games[game.id] == game
      requires TheWorld() == w.(live := w.live[game.id := game.Value()])
      modifies this, cache, game
      ensures Valid()
      ensures var over := old(game.Value()).(status := Deactive);
              TheWorld() == Ended(Advanced(w, over, e), over, ByMove)
    {
      Settle(game, e, w);
      ghost var over := game.Value();
      Finish(game, ByMove, w.(live := w.live[game.id := over], log := w.log + [e]));
      EndedAdvanced(w, over, e);
    }

    method HandlePlayerMoved(id: Id, p: Id, move: string, index: int)
      requires Valid()
      modifies this, cache, games.Values
      ensures Valid() && TheWorld() == PlayerMoved(rules, old(TheWorld()), id, p, move, index)
    {
      ghost var w := TheWorld();
      if id !in games || games[id].status == Deactive {
        return;
      }
      var game := games[id];
      var ok := game.Move(p, move, index);
      OneChanged(id);
      if !ok {
        assert Live() == w.live;
        return;
      }
      if game.outcome != NoOutcome {
        EndByMove(game, MoveApproved(id, p, move, index), w);
      } else {
        GoOn(game, MoveApproved(id, p, move, index), w);
      }
    }

    /** After any other move: cache and publish. */
    method GoOn(game: GameEntity, e: Event, ghost w: World)
      requires Valid() && game.id in games && games[game.id] == game
      requires TheWorld() == w.(live := w.live[game.id := game.Value()])
      modifies this`log, cache
      ensures Valid() && TheWorld() == Advanced(w, game.Value(), e)
    {
      var record := Record(game);
      cache.UpdateGameMove(record);
      log := log + [e];
    }

    method ConsiderOffer(id: Id, p: Id)
      requires Valid() && Handles(TheWorld(), id)
      modifies this, games.Values
      ensures Valid() && TheWorld() == DrawClaimed(rules, old(TheWorld()), id, p, DrawOffer)
    {
      ghost var w := TheWorld();
      var game := games[id];
      var ok := game.OfferDraw(p);
      OneChanged(id);
      if !ok {
        assert Live() == w.live;
        return;
      }
      log := log + [ClaimApproved(id, p, DrawOffer)];
    }

    method ConsiderClaim(id: Id, p: Id, how: Method)
      requires Valid() && Handles(TheWorld(), id) && how != DrawOffer
      modifies this, cache, games.Values
      ensures Valid() && TheWorld() == DrawClaimed(rules, old(TheWorld()), id, p, how)
    {
      ghost var w := TheWorld();
      var game := games[id];
      var ok := game.ClaimDraw(p, how);
      OneChanged(id);
      if !ok {
        assert Live() == w.live;
        return;
      }
      log := log + [ClaimApproved(id, p, how)];
      Finish(game, ByClaim, w.(log := log));
    }

    method HandlePlayerClaimDraw(id: Id, p: Id, how: Method)
      requires Valid()
      modifies this, cache, games.Values
      ensures Valid() && TheWorld() == DrawClaimed(rules, old(TheWorld()), id, p, how)
    {
      if id !in games || games[id].status == Deactive {
        return;
      }
      match how
      case DrawOffer => ConsiderOffer(id, p);
      case ThreefoldRepetition => ConsiderClaim(id, p, how);
      case FiftyMoveRule => ConsiderClaim(id, p, how);
      case OtherMethod =>
    }

    method HandlePlayerRespondedDrawOffer(id: Id, p: Id, accept: bool)
      requires Valid()
      modifies this, cache, games.Values
      ensures Valid() && TheWorld() == OfferAnswered(old(TheWorld()), id, p, accept)
    {
      ghost var w := TheWorld();
      if id !in games || games[id].status == Deactive {
        return;
      }
      var game := games[id];
      var ok;
      if !accept {
        ok := game.RejectDraw(p);
        OneChanged(id);
        assert !ok ==> Live() == w.live;
        return;
      }
      ok := game.AcceptDraw(p);
      OneChanged(id);
      if !ok {
        assert Live() == w.live;
        return;
      }
      Finish(game, ByAgreement, w);
    }

    method HandlePlayerResigned(id: Id, p: Id)
      requires Valid()
      modifies this, cache, games.Values
      ensures Valid() && TheWorld() == PlayerResigned(old(TheWorld()), id, p)
    {
      ghost var w := TheWorld();
      if id !in games || games[id].status == Deactive {
        return;
      }
      var game := games[id];
      var ok := game.Resign(p);
      OneChanged(id);
      if !ok {
        assert Live() == w.live;
        return;
      }
      Finish(game, ByResignation, w);
    }

    method HandlePlayerLeft(id: Id, p: Id, now: int)
      requires Valid()
      modifies tracker
      ensures Valid() && TheWorld() == PlayerLeft(old(TheWorld()), id, p, now)
    {
      tracker.Add(id, p, now);
    }

    method HandlePlayerJoined(id: Id, p: Id)
      requires Valid()
      modifies tracker
      ensures Valid() && TheWorld() == PlayerJoined(old(TheWorld()), id, p)
    {
      tracker.Remove(id, p);
    }

    method HandleGameEnded(id: Id)
      requires Valid()
      modifies tracker
      ensures Valid() && TheWorld() == EndedSeen(old(TheWorld()), id)
    {
      tracker.RemoveGame(id);
    }

    // ------------------------------------------------------------- the ticker

    /** Let one picked leaver lose; nothing happens unless the leaver plays in an active game. */
    method LeaverLoses(id: Id, p: Id) returns (ok: bool)
      requires Valid() && id in games
      modifies games[id]
      ensures Valid()
      ensures ok <==> Handles(old(TheWorld()), id) && old(TheWorld()).live[id].HasPlayer(p)
      ensures Live() == if ok then old(Live())[id := ResignedBy(old(Live())[id], p)] else old(Live())
    {
      var game := games[id];
      if game.status == Deactive {
        return false;
      }
      ok := game.Resign(p);
      OneChanged(id);
      assert !ok ==> Live() == old(Live());
    }

    /** The live games once the listed ones have been lost by their leavers. */
    ghost predicate LostBy(w: World, picks: map<Id, Id>, ids: seq<Id>)
      reads this`games, games.Values
    {
      && games.Keys == w.live.Keys
      && (forall id :: id in w.live && id !in ids ==> games[id].Value() == w.live[id])
      && (forall id :: id in ids && EndsOnTick(w, picks, id) ==> id in games && games[id].Value() == ResignedBy(w.live[id], picks[id]))
    }

    /** What has been collected for the listed endings: the final states and the events, in order. */
    static ghost predicate Collected(w: World, picks: map<Id, Id>, ids: seq<Id>, ended: seq<Match>, events: seq<Event>) {
      && AllEnd(w, picks, ids)
      && ended == EndedStates(w, picks, ids)
      && w.log + events == EndMany(w, picks, ids).log
    }

    static lemma CollectedStep(w: World, picks: map<Id, Id>, ids: seq<Id>, ended: seq<Match>, events: seq<Event>, id: Id, over: Match)
      requires Collected(w, picks, ids, ended, events) && EndsOnTick(w, picks, id) && over == ResignedBy(w.live[id], picks[id])
      ensures Collected(w, picks, ids + [id], ended + [over],
                        events + [GameEnded(over.id, over.player1, over.player2, over.outcome, ByLeaving)])
    {
      EndedStatesStep(w, picks, ids, id);
      EndManyStep(w, picks, ids, id);
      var e := GameEnded(over.id, over.player1, over.player2, over.outcome, ByLeaving);
      assert w.log + (events + [e]) == (w.log + events) + [e];
    }

    /** The picked leaver of one more game loses it, if the leaver plays in it. */
    method LoseAlso(picks: map<Id, Id>, id: Id, ghost w: World, ghost ids: seq<Id>) returns (ok: bool)
      requires Valid() && id in games && id in picks && id !in ids && LostBy(w, picks, ids)
      modifies games[id]
      ensures Valid() && (ok <==> EndsOnTick(w, picks, id))
      ensures ok ==> games[id].Value() == ResignedBy(w.live[id], picks[id])
      ensures LostBy(w, picks, ids + if ok then [id] else [])
    {
      assert games[id].Value() == w.live[id];
      ok := LeaverLoses(id, picks[id]);
      ghost var ids' := ids + if ok then [id] else [];
      assert forall x :: x in ids' <==> x in ids || (ok && x == id);
      forall x | x in games
        ensures games[x].Value() == Live()[x]
      {
      }
    }

    /** One live game of the tick: if it was picked and can end, its leaver loses it and the end is collected. */
    method EndIfLeft(picks: map<Id, Id>, id: Id, ended: seq<Match>, events: seq<Event>, ghost w: World, ghost ids: seq<Id>)
      returns (ended': seq<Match>, events': seq<Event>)
      requires Valid() && id in games && id !in ids && LostBy(w, picks, ids) && Collected(w, picks, ids, ended, events)
      modifies games.Values
      ensures Valid()
      ensures var ids' := ids + if EndsOnTick(w, picks, id) then [id] else [];
              LostBy(w, picks, ids') && Collected(w, picks, ids', ended', events')
    {
      ended', events' := ended, events;
      if id !in picks {
        assert ids + [] == ids;
        return;
      }
      var ok := LoseAlso(picks, id, w, ids);
      if !ok {
        assert ids + [] == ids;
        return;
      }
      var record := Record(games[id]);
      ended' := ended + [record];
      events' := events + [GameEnded(record.id, record.player1, record.player2, record.outcome, ByLeaving)];
      CollectedStep(w, picks, ids, ended, events, id, record);
    }

    /** Let the picked leavers lose; collects the final states and the events, touching nothing else. */
    method LeaversLose(picks: map<Id, Id>, list: seq<Id>) returns (ended: seq<Match>, events: seq<Event>)
      requires Valid() && NoRepeats(list) && forall id :: id in list ==> id in games
      modifies games.Values
      ensures Valid() && LostBy(old(TheWorld()), picks, EndingIds(old(TheWorld()), picks, list))
      ensures Collected(old(TheWorld()), picks, EndingIds(old(TheWorld()), picks, list), ended, events)
    {
      ghost var w := TheWorld();
      ghost var ids: seq<Id> := [];
      ended, events := [], [];
      for i := 0 to |list|
        invariant Valid() && ids == EndingIds(w, picks, list[..i])
        invariant LostBy(w, picks, ids) && Collected(w, picks, ids, ended, events)
      {
        EndingIdsStep(w, picks, list, i);
        ended, events := EndIfLeft(picks, list[i], ended, events, w, ids);
        ids := EndingIds(w, picks, list[..i + 1]);
      }
      assert list[..|list|] == list;
    }

    /** The live games in some order of the map. */
    method GetList() returns (list: seq<Id>)
      ensures NoRepeats(list) && forall id :: id in list <==> id in games
    {
      list := [];
      var rest := games.Keys;
      while rest != {}
        invariant rest <= games.Keys && NoRepeats(list)
        invariant forall id :: id in list <==> id in games && id !in rest
        decreases rest
      {
        var id := PickAny(rest);
        rest := rest - {id};
        list := list + [id];
      }
    }

    /** Cache the final states, one pipelined step each. */
    method CacheEnded(ended: seq<Match>, picks: map<Id, Id>, ghost w: World, ghost ids: seq<Id>)
      requires AllEnd(w, picks, ids) && ended == EndedStates(w, picks, ids)
      requires cache.games == w.cached && cache.playerGame == w.playerGame
      modifies cache
      ensures cache.games == EndMany(w, picks, ids).cached && cache.playerGame == EndMany(w, picks, ids).playerGame
    {
      EndedStatesLength(w, picks, ids);
      for i := 0 to |ended|
        invariant cache.games == EndMany(w, picks, ids[..i]).cached
        invariant cache.playerGame == EndMany(w, picks, ids[..i]).playerGame
      {
        EndedStatesAt(w, picks, ids, i);
        cache.UpdateAndDeactivateGame(ended[i]);
        EndManyStep(w, picks, ids[..i], ids[i]);
        assert ids[..i] + [ids[i]] == ids[..i + 1];
      }
      assert ids[..|ids|] == ids;
    }

    method RemoveGames(ended: seq<Match>)
      requires Valid()
      modifies this`games
      ensures Valid() && games.Keys <= old(games).Keys
      ensures forall id :: id in old(games) ==> (id in games <==> forall k :: 0 <= k < |ended| ==> ended[k].id != id)
      ensures forall id :: id in games ==> games[id] == old(games)[id]
    {
      for i := 0 to |ended|
        invariant Valid() && games.Keys <= old(games).Keys
        invariant forall id :: id in old(games) ==> (id in games <==> forall k :: 0 <= k < i ==> ended[k].id != id)
        invariant forall id :: id in games ==> games[id] == old(games)[id]
      {
        games := games - {ended[i].id};
      }
    }

    /** The games among the final states are those listed. */
    static lemma EndedIds(w: World, picks: map<Id, Id>, ids: seq<Id>, id: Id)
      requires LiveOk(w) && AllEnd(w, picks, ids)
      ensures |EndedStates(w, picks, ids)| == |ids|
      ensures id in ids <==> exists k :: 0 <= k < |ids| && EndedStates(w, picks, ids)[k].id == id
    {
      EndedStatesLength(w, picks, ids);
      forall k | 0 <= k < |ids|
        ensures EndedStates(w, picks, ids)[k].id == ids[k]
      {
        EndedStatesAt(w, picks, ids, k);
      }
      if id in ids {
        var k :| 0 <= k < |ids| && ids[k] == id;
        assert EndedStates(w, picks, ids)[k].id == id;
      }
    }

    method RemoveEnded(ended: seq<Match>, picks: map<Id, Id>, ghost w: World, ghost ids: seq<Id>)
      requires Valid() && LiveOk(w) && LostBy(w, picks, ids)
      requires AllEnd(w, picks, ids) && ended == EndedStates(w, picks, ids)
      modifies this`games
      ensures Valid() && Live() == EndMany(w, picks, ids).live
    {
      RemoveGames(ended);
      EndManyLive(w, picks, ids);
      EndedStatesLength(w, picks, ids);
      forall id | id in w.live
        ensures id in games <==> id !in ids
      {
        EndedIds(w, picks, ids, id);
      }
      forall id | id in games
        ensures games[id].Value() == w.live[id]
      {
        assert old(games[id].Value()) == w.live[id];
      }
      assert Live().Keys == EndMany(w, picks, ids).live.Keys;
    }

    method CacheAndPublish(ended: seq<Match>, events: seq<Event>, picks: map<Id, Id>, ghost w: World, ghost ids: seq<Id>)
      requires Valid() && LostBy(w, picks, ids) && Collected(w, picks, ids, ended, events)
      requires cache.games == w.cached && cache.playerGame == w.playerGame && log == w.log
      modifies this`log, cache
      ensures Valid() && LostBy(w, picks, ids) && log == EndMany(w, picks, ids).log
      ensures cache.games == EndMany(w, picks, ids).cached && cache.playerGame == EndMany(w, picks, ids).playerGame
    {
      CacheEnded(ended, picks, w, ids);
      log := log + events;
    }

    /** Let the picked leavers lose, then cache, publish and forget their games together. */
    method EndLeavers(picks: map<Id, Id>, list: seq<Id>)
      requires Valid() && LiveOk(TheWorld()) && NoRepeats(list) && forall id :: id in list ==> id in games
      modifies this, cache, games.Values
      ensures Valid() && tracker.list == old(tracker.list)
      ensures AllEnd(old(TheWorld()), picks, EndingIds(old(TheWorld()), picks, list))
      ensures TheWorld() == EndMany(old(TheWorld()), picks, EndingIds(old(TheWorld()), picks, list))
    {
      ghost var w := TheWorld();
      ghost var ids := EndingIds(w, picks, list);
      var ended, events := LeaversLose(picks, list);
      EndManyTracker(w, picks, ids);
      CacheAndPublish(ended, events, picks, w, ids);
      RemoveEnded(ended, picks, w, ids);
    }

    /** The tick: pick the leavers and end their games. */
    method CheckPlayersConnection(now: int) returns (picks: map<Id, Id>, list: seq<Id>)
      requires Valid() && LiveOk(TheWorld())
      modifies this, cache, tracker, games.Values
      ensures Valid() && PicksEarliest(old(tracker.list), now - tracker.threshold, picks)
      ensures forall id :: id in list <==> id in old(games)
      ensures TheWorld() == Ticked(old(TheWorld()), picks, list)
    {
      list := GetList();
      picks := tracker.GetGamesNeedsToRemove(now);
      ghost var w := TheWorld();
      assert w == old(TheWorld()).(left := old(tracker.list) - picks.Keys);
      EndLeavers(picks, list);
      BatchIsSequential(w, picks, list);
    }
  }
}
