/** The rating service: ratings and recorded changes, updated from a stream of ended games. */
module Ratings {
  import opened Elo
  import opened Lifecycle

  datatype GameResult = Loss | Drawn | Win

  datatype Rating = Rating(user: Id, current: int, best: int, played: int, won: int, lost: int, drawn: int)

  datatype Change = Change(user: Id, game: Id, opponent: Id, delta: int, result: GameResult)

  /** What the repository holds. */
  datatype Book = Book(ratings: map<Id, Rating>, changes: seq<Change>)

  function Unrated(u: Id): Rating {
    Rating(u, BASE_SCORE, 0, 0, 0, 0, 0)
  }

  function RatingOf(b: Book, u: Id): Rating {
    if u in b.ratings then b.ratings[u] else Unrated(u)
  }

  /** The score of the first player. */
  function Score1(outcome: GameOutcome, color1: Color): real {
    match outcome
    case WhiteWon => if color1 == White then 1.0 else 0.0
    case BlackWon => if color1 == Black then 1.0 else 0.0
    case _ => 0.5
  }

  function ResultOf(score: real): GameResult {
    if score == 1.0 then Win else if score == 0.0 then Loss else Drawn
  }

  function Rescored(r: Rating, score: int): Rating {
    r.(current := score, best := if r.best < score then score else r.best)
  }

  /** The counters after a game with this outcome, won or lost if it was decided. */
  function Tallied(r: Rating, outcome: GameOutcome, won: bool): Rating {
    var decided := outcome == WhiteWon || outcome == BlackWon;
    r.(played := r.played + 1,
       won := r.won + if decided && won then 1 else 0,
       lost := r.lost + if decided && !won then 1 else 0,
       drawn := r.drawn + if outcome == Draw then 1 else 0)
  }

  function Rated(pw: real -> real, b: Book, e: Event): Book
    requires PowerLike(pw) && e.GameEnded?
  {
    var r1, r2 := RatingOf(b, e.player1.id), RatingOf(b, e.player2.id);
    var s := Score1(e.outcome, e.player1.color);
    var n1 := NewRating(pw, r1.current, r2.current, s);
    var n2 := NewRating(pw, r2.current, r1.current, 1.0 - s);
    Book(
      b.ratings[r1.user := Tallied(Rescored(r1, n1), e.outcome, s == 1.0)]
               [r2.user := Tallied(Rescored(r2, n2), e.outcome, s == 0.0)],
      b.changes + [Change(e.player1.id, e.game, e.player2.id, n1 - r1.current, ResultOf(s)),
                   Change(e.player2.id, e.game, e.player1.id, n2 - r2.current, ResultOf(1.0 - s))])
  }

  // ------------------------------------------------------------- the service

  class RatingEntity {
    const user: Id
    var current: int
    var best: int
    var played: int
    var won: int
    var lost: int
    var drawn: int

    ghost function Value(): Rating
      reads this
    {
      Rating(user, current, best, played, won, lost, drawn)
    }

    constructor (r: Rating)
      ensures Value() == r
    {
      user, current, best := r.user, r.current, r.best;
      played, won, lost, drawn := r.played, r.won, r.lost, r.drawn;
    }

    method SetScore(score: int)
      modifies this
      ensures Value() == Rescored(old(Value()), score)
    {
      current := score;
      if best < score {
        best := score;
      }
    }
  }

  method UpdateGameStats(r1: RatingEntity, r2: RatingEntity, outcome: GameOutcome, color1: Color)
    requires r1 != r2
    modifies r1, r2
    ensures r1.Value() == Tallied(old(r1.Value()), outcome, Score1(outcome, color1) == 1.0)
    ensures r2.Value() == Tallied(old(r2.Value()), outcome, Score1(outcome, color1) == 0.0)
  {
    r1.played := r1.played + 1;
    r2.played := r2.played + 1;
    match outcome
    case WhiteWon =>
      var winner, loser := r1, r2;
      if color1 != White {
        winner, loser := r2, r1;
      }
      winner.won := winner.won + 1;
      loser.lost := loser.lost + 1;
    case BlackWon =>
      var winner, loser := r1, r2;
      if color1 != Black {
        winner, loser := r2, r1;
      }
      winner.won := winner.won + 1;
      loser.lost := loser.lost + 1;
    case Draw =>
      r1.drawn := r1.drawn + 1;
      r2.drawn := r2.drawn + 1;
    case NoOutcome =>
  }

  class RatingService {
    const pw: real -> real
    var ratings: map<Id, Rating>
    var changes: seq<Change>

    ghost function TheBook(): Book
      reads this
    {
      Book(ratings, changes)
    }

    constructor (pw: real -> real)
      ensures TheBook() == Book(map[], []) && this.pw == pw
    {
      this.pw := pw;
      ratings, changes := map[], [];
    }

    /** The stored rating as a new object, or a new one for a user who has none. */
    method Load(u: Id) returns (r: RatingEntity)
      ensures fresh(r) && r.Value() == RatingOf(TheBook(), u)
    {
      r := new RatingEntity(if u in ratings then ratings[u] else Unrated(u));
    }

    method Update(r1: RatingEntity, r2: RatingEntity, c1: Change, c2: Change)
      modifies this
      ensures TheBook() == Book(old(ratings)[r1.user := old(r1.Value())][r2.user := old(r2.Value())], old(changes) + [c1, c2])
    {
      ratings := ratings[r1.user := Rating(r1.user, r1.current, r1.best, r1.played, r1.won, r1.lost, r1.drawn)];
      ratings := ratings[r2.user := Rating(r2.user, r2.current, r2.best, r2.played, r2.won, r2.lost, r2.drawn)];
      changes := changes + [c1, c2];
    }

    method HandleGameEnded(e: Event)
      requires PowerLike(pw) && e.GameEnded?
      modifies this
      ensures TheBook() == Rated(pw, old(TheBook()), e)
    {
      var r1 := Load(e.player1.id);
      var r2 := Load(e.player2.id);
      var s := Score1(e.outcome, e.player1.color);
      var elo1 := NewRating(pw, r1.current, r2.current, s);
      var elo2 := NewRating(pw, r2.current, r1.current, 1.0 - s);
      var result1, result2;
      if s == 1.0 {
        result1, result2 := Win, Loss;
      } else if s == 0.0 {
        result1, result2 := Loss, Win;
      } else {
        result1, result2 := Drawn, Drawn;
      }
      var c1 := Change(e.player1.id, e.game, e.player2.id, elo1 - r1.current, result1);
      var c2 := Change(e.player2.id, e.game, e.player1.id, elo2 - r2.current, result2);
      r1.SetScore(elo1);
      r2.SetScore(elo2);
      UpdateGameStats(r1, r2, e.outcome, e.player1.color);
      Update(r1, r2, c1, c2);
    }
  }

  // -------------------------------------------------------------- every run

  /** An ended game between two different players of different colours, as the game service publishes it. */
  predicate Proper(e: Event) {
    e.GameEnded? && e.player1.id != e.player2.id && e.player1.color != e.player2.color
  }

  predicate AllProper(events: seq<Event>) {
    forall k :: 0 <= k < |events| ==> Proper(events[k])
  }

  function Run(pw: real -> real, events: seq<Event>): Book
    requires PowerLike(pw) && AllProper(events)
  {
    if events == [] then Book(map[], [])
    else Rated(pw, Run(pw, events[..|events| - 1]), events[|events| - 1])
  }

  /** How a game went for one user. */
  datatype Fate = Absent | Won | Lost | Drew | Undecided

  function FateOf(e: Event, u: Id): Fate
    requires Proper(e)
  {
    if u != e.player1.id && u != e.player2.id then Absent
    else
      var color := if u == e.player1.id then e.player1.color else e.player2.color;
      match e.outcome
      case WhiteWon => if color == White then Won else Lost
      case BlackWon => if color == Black then Won else Lost
      case Draw => Drew
      case NoOutcome => Undecided
  }

  function Count(events: seq<Event>, u: Id, f: Fate): nat
    requires AllProper(events)
  {
    if events == [] then 0
    else Count(events[..|events| - 1], u, f) + if FateOf(events[|events| - 1], u) == f then 1 else 0
  }

  /** The sum of the changes recorded for a user. */
  function Sum(changes: seq<Change>, u: Id): int {
    if changes == [] then 0
    else Sum(changes[..|changes| - 1], u) + if changes[|changes| - 1].user == u then changes[|changes| - 1].delta else 0
  }

  function Max(a: int, b: int): int {
    if a < b then b else a
  }

  /** The highest score a user ever had after a game; 0 before the first one. */
  function Peak(changes: seq<Change>, u: Id): int {
    if changes == [] then 0
    else
      var before := Peak(changes[..|changes| - 1], u);
      if changes[|changes| - 1].user == u then Max(before, BASE_SCORE + Sum(changes, u)) else before
  }

  /** The score of a user after the first k changes, one of which, the last, is theirs. */
  predicate ReachedAt(changes: seq<Change>, u: Id, k: int, score: int) {
    0 < k <= |changes| && changes[k - 1].user == u && score == BASE_SCORE + Sum(changes[..k], u)
  }

  /** The peak is the maximum of the scores reached. */
  lemma {:induction false} PeakIsHighest(changes: seq<Change>, u: Id)
    ensures forall k, score :: ReachedAt(changes, u, k, score) ==> score <= Peak(changes, u)
    ensures Peak(changes, u) != 0 ==> exists k :: ReachedAt(changes, u, k, Peak(changes, u))
  {
    if changes != [] {
      var front := changes[..|changes| - 1];
      PeakIsHighest(front, u);
      assert changes[..|changes|] == changes;
      forall k, score | ReachedAt(changes, u, k, score)
        ensures score <= Peak(changes, u)
      {
        if k < |changes| {
          assert changes[..k] == front[..k] && ReachedAt(front, u, k, score);
        }
      }
      if Peak(changes, u) == Peak(front, u) != 0 {
        var k :| ReachedAt(front, u, k, Peak(front, u));
        assert front[..k] == changes[..k] && ReachedAt(changes, u, k, Peak(changes, u));
      } else if Peak(changes, u) != 0 {
        assert ReachedAt(changes, u, |changes|, Peak(changes, u));
      }
    }
  }

  lemma SumStep(changes: seq<Change>, c: Change, u: Id)
    ensures Sum(changes + [c], u) == Sum(changes, u) + if c.user == u then c.delta else 0
    ensures Peak(changes + [c], u)
            == if c.user == u then Max(Peak(changes, u), BASE_SCORE + Sum(changes + [c], u)) else Peak(changes, u)
  {
    assert (changes + [c])[..|changes|] == changes;
  }

  lemma SumTwo(changes: seq<Change>, c: Change, d: Change, u: Id)
    requires c.user != d.user
    ensures var after := changes + [c, d]; var x := if c.user == u then c.delta else if d.user == u then d.delta else 0;
            && Sum(after, u) == Sum(changes, u) + x
            && Peak(after, u)
               == if c.user == u || d.user == u then Max(Peak(changes, u), BASE_SCORE + Sum(after, u)) else Peak(changes, u)
  {
    assert changes + [c, d] == (changes + [c]) + [d];
    SumStep(changes, c, u);
    SumStep(changes + [c], d, u);
  }

  /** The counters, the score and the best score of one user are what the events and changes say. */
  ghost predicate Accounted(b: Book, events: seq<Event>, u: Id)
    requires AllProper(events)
  {
    Account(RatingOf(b, u), b.changes, events, u)
  }

  ghost predicate Account(r: Rating, changes: seq<Change>, events: seq<Event>, u: Id)
    requires AllProper(events)
  {
    r.user == u && TalliesUp(r, events, u) && ScoresUp(r, changes, u)
  }

  ghost predicate TalliesUp(r: Rating, events: seq<Event>, u: Id)
    requires AllProper(events)
  {
    && r.won == Count(events, u, Won) && r.lost == Count(events, u, Lost) && r.drawn == Count(events, u, Drew)
    && r.played == r.won + r.lost + r.drawn + Count(events, u, Undecided)
  }

  ghost predicate ScoresUp(r: Rating, changes: seq<Change>, u: Id) {
    r.current == BASE_SCORE + Sum(changes, u) >= BASE_SCORE && r.best == Peak(changes, u)
  }

  /** The two changes recorded for the k-th event. */
  ghost predicate Recorded(changes: seq<Change>, events: seq<Event>, k: nat)
    requires AllProper(events) && k < |events| && |changes| == 2 * |events|
  {
    var e, c1, c2 := events[k], changes[2 * k], changes[2 * k + 1];
    && c1.game == e.game == c2.game
    && c1.user == e.player1.id == c2.opponent && c2.user == e.player2.id == c1.opponent
    && Fits(c1, FateOf(e, c1.user)) && Fits(c2, FateOf(e, c2.user))
  }

  /** Winners are recorded as such and never lose points; losers are and never gain any. */
  predicate Fits(c: Change, f: Fate) {
    && (c.result == Win <==> f == Won) && (c.result == Loss <==> f == Lost)
    && (f == Won ==> c.delta >= 0) && (f == Lost ==> c.delta <= 0)
  }

  lemma CountStep(events: seq<Event>, e: Event, u: Id, f: Fate)
    requires AllProper(events) && Proper(e)
    ensures Count(events + [e], u, f) == Count(events, u, f) + if FateOf(e, u) == f then 1 else 0
  {
    assert (events + [e])[..|events|] == events;
  }

  /** The record of a player of the event after it. */
  lemma RatedPlayer(pw: real -> real, b: Book, e: Event)
    requires PowerLike(pw) && Proper(e)
    requires RatingOf(b, e.player1.id).user == e.player1.id && RatingOf(b, e.player2.id).user == e.player2.id
    ensures var b', r1, r2, s := Rated(pw, b, e), RatingOf(b, e.player1.id), RatingOf(b, e.player2.id), Score1(e.outcome, e.player1.color);
            && RatingOf(b', e.player1.id) == Tallied(Rescored(r1, NewRating(pw, r1.current, r2.current, s)), e.outcome, s == 1.0)
            && RatingOf(b', e.player2.id) == Tallied(Rescored(r2, NewRating(pw, r2.current, r1.current, 1.0 - s)), e.outcome, s == 0.0)
            && forall u :: u != e.player1.id && u != e.player2.id ==> RatingOf(b', u) == RatingOf(b, u)
  {
  }

  /** The score of a game fits what happened to each player. */
  lemma ScoreFitsFate(e: Event)
    requires Proper(e)
    ensures var s := Score1(e.outcome, e.player1.color);
            && (s == 1.0 <==> FateOf(e, e.player1.id) == Won) && (s == 0.0 <==> FateOf(e, e.player1.id) == Lost)
            && (s == 0.0 <==> FateOf(e, e.player2.id) == Won) && (s == 1.0 <==> FateOf(e, e.player2.id) == Lost)
            && (s == 0.0 || s == 0.5 || s == 1.0)
  {
  }

  lemma CountsMove(events: seq<Event>, e: Event, u: Id)
    requires AllProper(events) && Proper(e)
    ensures AllProper(events + [e])
    ensures Count(events + [e], u, Won) == Count(events, u, Won) + if FateOf(e, u) == Won then 1 else 0
    ensures Count(events + [e], u, Lost) == Count(events, u, Lost) + if FateOf(e, u) == Lost then 1 else 0
    ensures Count(events + [e], u, Drew) == Count(events, u, Drew) + if FateOf(e, u) == Drew then 1 else 0
    ensures Count(events + [e], u, Undecided) == Count(events, u, Undecided) + if FateOf(e, u) == Undecided then 1 else 0
  {
    CountStep(events, e, u, Won);
    CountStep(events, e, u, Lost);
    CountStep(events, e, u, Drew);
    CountStep(events, e, u, Undecided);
  }

  lemma FloorHolds(pw: real -> real, s1: int, s2: int, score: real)
    requires PowerLike(pw)
    ensures NewRating(pw, s1, s2, score) >= BASE_SCORE
  {
  }

  /** What the fate of a player of the event does to the counters. */
  lemma TalliedByFate(r: Rating, e: Event, u: Id, won: bool)
    requires Proper(e) && FateOf(e, u) != Absent && (won <==> FateOf(e, u) == Won)
    ensures var r', f := Tallied(r, e.outcome, won), FateOf(e, u);
            && r'.played == r.played + 1
            && r'.won == r.won + (if f == Won then 1 else 0) && r'.lost == r.lost + (if f == Lost then 1 else 0)
            && r'.drawn == r.drawn + if f == Drew then 1 else 0
  {
  }

  /** The counters of a player of the event. */
  lemma TalliesMove(r: Rating, events: seq<Event>, e: Event, u: Id, won: bool)
    requires AllProper(events) && Proper(e) && TalliesUp(r, events, u)
    requires FateOf(e, u) != Absent && (won <==> FateOf(e, u) == Won)
    ensures AllProper(events + [e]) && TalliesUp(Tallied(r, e.outcome, won), events + [e], u)
  {
    CountsMove(events, e, u);
    TalliedByFate(r, e, u, won);
  }

  /** The score of a player of the event, whose change is one of the two. */
  lemma ScoresMove(r: Rating, changes: seq<Change>, c: Change, d: Change, u: Id, score: int)
    requires ScoresUp(r, changes, u) && c.user != d.user && score >= BASE_SCORE
    requires (c.user == u && c.delta == score - r.current) || (d.user == u && d.delta == score - r.current)
    ensures ScoresUp(Rescored(r, score), changes + [c, d], u)
  {
    SumTwo(changes, c, d, u);
  }

  lemma PlayerAccounts(r: Rating, events: seq<Event>, e: Event, changes: seq<Change>, c: Change, d: Change, u: Id, score: int, won: bool)
    requires AllProper(events) && Proper(e) && TalliesUp(r, events, u) && ScoresUp(r, changes, u)
    requires FateOf(e, u) != Absent && (won <==> FateOf(e, u) == Won)
    requires c.user != d.user && score >= BASE_SCORE
    requires (c.user == u && c.delta == score - r.current) || (d.user == u && d.delta == score - r.current)
    ensures var r' := Tallied(Rescored(r, score), e.outcome, won);
            AllProper(events + [e]) && TalliesUp(r', events + [e], u) && ScoresUp(r', changes + [c, d], u)
  {
    TalliesMove(Rescored(r, score), events, e, u, won);
    ScoresMove(r, changes, c, d, u, score);
  }

  /** Everybody else's record stays as it is, and so does what the events and changes say of them. */
  lemma BystanderAccounts(r: Rating, events: seq<Event>, e: Event, changes: seq<Change>, c: Change, d: Change, u: Id)
    requires AllProper(events) && Proper(e) && TalliesUp(r, events, u) && ScoresUp(r, changes, u)
    requires FateOf(e, u) == Absent && c.user != d.user && c.user != u && d.user != u
    ensures AllProper(events + [e]) && TalliesUp(r, events + [e], u) && ScoresUp(r, changes + [c, d], u)
  {
    CountsMove(events, e, u);
    SumTwo(changes, c, d, u);
  }

  /** The two changes an event leaves. */
  lemma RatedChanges(pw: real -> real, b: Book, e: Event, n1: int, n2: int) returns (c: Change, d: Change)
    requires PowerLike(pw) && Proper(e)
    requires var r1, r2, s := RatingOf(b, e.player1.id), RatingOf(b, e.player2.id), Score1(e.outcome, e.player1.color);
             n1 == NewRating(pw, r1.current, r2.current, s) && n2 == NewRating(pw, r2.current, r1.current, 1.0 - s)
    ensures Rated(pw, b, e).changes == b.changes + [c, d]
    ensures c.user == e.player1.id && c.delta == n1 - RatingOf(b, e.player1.id).current
    ensures d.user == e.player2.id && d.delta == n2 - RatingOf(b, e.player2.id).current
  {
    var s := Score1(e.outcome, e.player1.color);
    c := Change(e.player1.id, e.game, e.player2.id, n1 - RatingOf(b, e.player1.id).current, ResultOf(s));
    d := Change(e.player2.id, e.game, e.player1.id, n2 - RatingOf(b, e.player2.id).current, ResultOf(1.0 - s));
  }

  /** One event more: for a player with a new score, and for everybody else. */
  lemma AccountMoves(r: Rating, r': Rating, events: seq<Event>, e: Event, changes: seq<Change>, c: Change, d: Change, u: Id, score: int)
    requires AllProper(events) && Proper(e) && Account(r, changes, events, u)
    requires c.user == e.player1.id && d.user == e.player2.id
    requires if u == c.user then c.delta == score - r.current && score >= BASE_SCORE
             else u == d.user ==> d.delta == score - r.current && score >= BASE_SCORE
    requires r' == if u == c.user || u == d.user then Tallied(Rescored(r, score), e.outcome, FateOf(e, u) == Won) else r
    ensures AllProper(events + [e]) && Account(r', changes + [c, d], events + [e], u)
  {
    if u == c.user || u == d.user {
      PlayerAccounts(r, events, e, changes, c, d, u, score, FateOf(e, u) == Won);
    } else {
      BystanderAccounts(r, events, e, changes, c, d, u);
    }
  }

  lemma StepAccounts(pw: real -> real, b: Book, events: seq<Event>, e: Event, u: Id)
    requires PowerLike(pw) && AllProper(events) && Proper(e)
    requires Accounted(b, events, u) && Accounted(b, events, e.player1.id) && Accounted(b, events, e.player2.id)
    ensures AllProper(events + [e]) && Accounted(Rated(pw, b, e), events + [e], u)
  {
    var r1, r2, s := RatingOf(b, e.player1.id), RatingOf(b, e.player2.id), Score1(e.outcome, e.player1.color);
    var n1, n2 := NewRating(pw, r1.current, r2.current, s), NewRating(pw, r2.current, r1.current, 1.0 - s);
    RatedPlayer(pw, b, e);
    ScoreFitsFate(e);
    FloorHolds(pw, r1.current, r2.current, s);
    FloorHolds(pw, r2.current, r1.current, 1.0 - s);
    var c, d := RatedChanges(pw, b, e, n1, n2);
    var after := Rated(pw, b, e);
    AccountMoves(RatingOf(b, u), RatingOf(after, u), events, e, b.changes, c, d, u, if u == e.player1.id then n1 else n2);
  }

  /** On every run every user's record adds up: games played are won, lost, drawn or without a result; the
      score is the base plus all recorded changes, never below the base; the best score is the highest reached. */
  lemma {:induction false} RunsAccount(pw: real -> real, events: seq<Event>, u: Id)
    requires PowerLike(pw) && AllProper(events)
    ensures Accounted(Run(pw, events), events, u)
    decreases |events|
  {
    if events != [] {
      var front, e := events[..|events| - 1], events[|events| - 1];
      RunsAccount(pw, front, u);
      RunsAccount(pw, front, e.player1.id);
      RunsAccount(pw, front, e.player2.id);
      StepAccounts(pw, Run(pw, front), front, e, u);
      assert front + [e] == events;
    }
  }

  /** All games of a user had a result. */
  predicate AllDecided(events: seq<Event>, u: Id)
    requires AllProper(events)
  {
    forall k :: 0 <= k < |events| && (u == events[k].player1.id || u == events[k].player2.id) ==> events[k].outcome != NoOutcome
  }

  lemma {:induction false} CountUndecided(events: seq<Event>, u: Id)
    requires AllProper(events)
    ensures Count(events, u, Undecided) == 0 <==> AllDecided(events, u)
  {
    if events != [] {
      var front, e := events[..|events| - 1], events[|events| - 1];
      CountUndecided(front, u);
      assert events == front + [e];
      assert AllDecided(events, u) <==> AllDecided(front, u) && FateOf(e, u) != Undecided;
    }
  }

  /** Played is won plus lost plus drawn exactly for users all of whose games had a result. */
  lemma PlayedAddsUp(pw: real -> real, events: seq<Event>, u: Id)
    requires PowerLike(pw) && AllProper(events)
    ensures var r := RatingOf(Run(pw, events), u);
            r.played == r.won + r.lost + r.drawn <==> AllDecided(events, u)
  {
    RunsAccount(pw, events, u);
    CountUndecided(events, u);
  }

  /** Of a decided game the loser's points do not rise and the winner's do not fall. */
  lemma StepRecords(pw: real -> real, b: Book, e: Event)
    requires PowerLike(pw) && Proper(e)
    requires RatingOf(b, e.player1.id).current >= BASE_SCORE && RatingOf(b, e.player2.id).current >= BASE_SCORE
    ensures var n, after := |b.changes|, Rated(pw, b, e).changes;
            && |after| == n + 2 && after[..n] == b.changes
            && after[n].game == e.game == after[n + 1].game
            && after[n].user == e.player1.id == after[n + 1].opponent && after[n + 1].user == e.player2.id == after[n].opponent
            && Fits(after[n], FateOf(e, e.player1.id)) && Fits(after[n + 1], FateOf(e, e.player2.id))
  {
    var s1, s2 := RatingOf(b, e.player1.id).current, RatingOf(b, e.player2.id).current;
    ScoreFitsFate(e);
    RatingsMoveTheRightWay(pw, s1, s2);
    RatingsMoveTheRightWay(pw, s2, s1);
  }

  lemma RecordStays(changes: seq<Change>, events: seq<Event>, changes': seq<Change>, events': seq<Event>, k: nat)
    requires AllProper(events) && AllProper(events') && events <= events' && changes <= changes'
    requires k < |events| && |changes| == 2 * |events| && |changes'| == 2 * |events'| && Recorded(changes, events, k)
    ensures Recorded(changes', events', k)
  {
    assert changes'[2 * k] == changes[2 * k] && changes'[2 * k + 1] == changes[2 * k + 1];
  }

  /** On every run each event leaves exactly two changes, one for each player, with the right result and sign. */
  lemma {:induction false} RunsRecord(pw: real -> real, events: seq<Event>)
    requires PowerLike(pw) && AllProper(events)
    ensures |Run(pw, events).changes| == 2 * |events|
    ensures forall k :: 0 <= k < |events| ==> Recorded(Run(pw, events).changes, events, k)
    decreases |events|
  {
    if events != [] {
      var front, e := events[..|events| - 1], events[|events| - 1];
      RunsRecord(pw, front);
      RunsAccount(pw, front, e.player1.id);
      RunsAccount(pw, front, e.player2.id);
      StepRecords(pw, Run(pw, front), e);
      RecordsStay(Run(pw, front).changes, front, Run(pw, events).changes, events);
    }
  }

  lemma RecordsStay(changes: seq<Change>, events: seq<Event>, changes': seq<Change>, events': seq<Event>)
    requires AllProper(events) && AllProper(events') && events <= events' && changes <= changes'
    requires |changes| == 2 * |events| && |changes'| == 2 * |events'|
    requires forall k :: 0 <= k < |events| ==> Recorded(changes, events, k)
    ensures forall k :: 0 <= k < |events| ==> Recorded(changes', events', k)
  {
    forall k | 0 <= k < |events|
      ensures Recorded(changes', events', k)
    {
      RecordStays(changes, events, changes', events', k);
    }
  }

  /** What the two changes of a game sum to, when both players have the same K-factor and nobody hits the floor. */
  lemma GamesCreateNoPoints(pw: real -> real, events: seq<Event>, e: Event)
    requires PowerLike(pw) && AllProper(events) && Proper(e)
    requires var b := Run(pw, events); var s1, s2, s := RatingOf(b, e.player1.id).current, RatingOf(b, e.player2.id).current, Score1(e.outcome, e.player1.color);
             && KFactor(s1) == KFactor(s2)
             && Unrounded(pw, s1, s2, s) >= BASE_SCORE as real && Unrounded(pw, s2, s1, 1.0 - s) >= BASE_SCORE as real
    ensures var before, after := Run(pw, events).changes, Rated(pw, Run(pw, events), e).changes;
            -1 <= after[|before|].delta + after[|before| + 1].delta <= 0
  {
    RunsAccount(pw, events, e.player1.id);
    RunsAccount(pw, events, e.player2.id);
    var b := Run(pw, events);
    ChangesBalance(pw, RatingOf(b, e.player1.id).current, RatingOf(b, e.player2.id).current, Score1(e.outcome, e.player1.color));
  }
}
