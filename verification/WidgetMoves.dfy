/** The board widget's animations: how it gets from one position to another. */
module WidgetMoves {
  import opened Basics
  import opened WidgetFen

  datatype Animation =
    | Slide(source: string, destination: string, piece: string)
    | Appear(square: string, piece: string)
    | Vanish(square: string, piece: string)

  // ------------------------------------------------------------- distances

  function Abs(x: int): int {
    if x < 0 then -x else x
  }

  function SquareDistance(a: string, b: string): nat
    requires ValidSquare(a) && ValidSquare(b)
  {
    var dx, dy := Abs(a[0] as int - b[0] as int), Abs(a[1] as int - b[1] as int);
    if dx >= dy then dx else dy
  }

  /** A king could step from one square to the other. */
  predicate KingStep(a: string, b: string) {
    && ValidSquare(a) && ValidSquare(b) && a != b
    && -1 <= a[0] as int - b[0] as int <= 1 && -1 <= a[1] as int - b[1] as int <= 1
  }

  predicate KingPath(path: seq<string>) {
    path != [] && ValidSquare(path[0]) && forall i :: 0 <= i < |path| - 1 ==> KingStep(path[i], path[i + 1])
  }

  lemma OneStepNearer(a: string, b: string, c: string)
    requires KingStep(a, b) && ValidSquare(c)
    ensures SquareDistance(a, c) <= SquareDistance(b, c) + 1
  {
  }

  /** No king gets there in fewer steps than the distance. */
  lemma {:induction false} NoShorterPath(path: seq<string>)
    requires KingPath(path)
    ensures ValidSquare(path[|path| - 1]) && SquareDistance(path[0], path[|path| - 1]) <= |path| - 1
  {
    if |path| > 1 {
      assert KingStep(path[0], path[1]);
      NoShorterPath(path[1..]);
      OneStepNearer(path[0], path[1], path[|path| - 1]);
    }
  }

  function Towards(c: char, d: char): char
    requires '0' < c < 'z'
  {
    if c < d then c + 1 as char else if c > d then c - 1 as char else c
  }

  /** One step along ranks, files and diagonals takes a king nearer. */
  lemma StepTowards(a: string, b: string)
    requires ValidSquare(a) && ValidSquare(b) && a != b
    ensures var next := [Towards(a[0], b[0]), Towards(a[1], b[1])];
            KingStep(a, next) && SquareDistance(next, b) == SquareDistance(a, b) - 1
  {
    assert a == [a[0], a[1]] && b == [b[0], b[1]];
  }

  /** And in as many steps it can: the distance is the least number of king steps. */
  lemma {:induction false} DistanceIsLeast(a: string, b: string) returns (path: seq<string>)
    requires ValidSquare(a) && ValidSquare(b)
    ensures KingPath(path) && path[0] == a && path[|path| - 1] == b && |path| - 1 == SquareDistance(a, b)
    ensures forall other :: KingPath(other) && other[0] == a && other[|other| - 1] == b ==> |other| >= |path|
    decreases SquareDistance(a, b)
  {
    if a == b {
      path := [a];
    } else {
      StepTowards(a, b);
      var rest := DistanceIsLeast([Towards(a[0], b[0]), Towards(a[1], b[1])], b);
      path := [a] + rest;
      assert forall i :: 1 <= i < |path| - 1 ==> path[i] == rest[i - 1] && path[i + 1] == rest[i];
    }
    forall other | KingPath(other) && other[0] == a && other[|other| - 1] == b
      ensures |other| >= |path|
    {
      NoShorterPath(other);
    }
  }

  datatype Spot = Spot(square: string, distance: nat)

  /** One step of the stable sort by distance: behind everything that is not farther. */
  function Insert(s: seq<Spot>, x: Spot): seq<Spot> {
    if s == [] || s[|s| - 1].distance <= x.distance then s + [x]
    else Insert(s[..|s| - 1], x) + [s[|s| - 1]]
  }

  /** The host's sort by distance, which is stable. */
  function SortByDistance(s: seq<Spot>): seq<Spot> {
    if s == [] then [] else Insert(SortByDistance(s[..|s| - 1]), s[|s| - 1])
  }

  ghost predicate Ordered(s: seq<Spot>) {
    forall i, j :: 0 <= i < j < |s| ==> s[i].distance <= s[j].distance
  }

  lemma {:induction false} InsertKeeps(s: seq<Spot>, x: Spot)
    ensures multiset(Insert(s, x)) == multiset(s) + multiset{x}
  {
    if s != [] && s[|s| - 1].distance > x.distance {
      InsertKeeps(s[..|s| - 1], x);
      assert s == s[..|s| - 1] + [s[|s| - 1]];
    }
  }

  ghost predicate AllWithin(s: seq<Spot>, distance: nat) {
    forall i :: 0 <= i < |s| ==> s[i].distance <= distance
  }

  lemma {:induction false} InsertOrders(s: seq<Spot>, x: Spot, limit: nat)
    requires Ordered(s) && AllWithin(s, limit) && x.distance <= limit
    ensures Ordered(Insert(s, x)) && AllWithin(Insert(s, x), limit)
  {
    if s != [] && s[|s| - 1].distance > x.distance {
      InsertOrders(s[..|s| - 1], x, s[|s| - 1].distance);
    }
  }

  /** Sorting orders by distance and keeps exactly what was there. */
  lemma {:induction false} SortOrders(s: seq<Spot>)
    ensures Ordered(SortByDistance(s)) && multiset(SortByDistance(s)) == multiset(s)
  {
    if s != [] {
      var front, last := s[..|s| - 1], s[|s| - 1];
      assert s == front + [last];
      SortOrders(front);
      var sorted := SortByDistance(front);
      InsertKeeps(sorted, last);
      InsertOrders(sorted, last, if sorted == [] || sorted[|sorted| - 1].distance < last.distance then last.distance else sorted[|sorted| - 1].distance);
    }
  }

  /** The spots of all squares but one, as far as cell (column, row) in the scan. */
  ghost predicate Scanned(spots: seq<Spot>, square: string, column: int, row: int)
    requires ValidSquare(square)
  {
    SpotsTrue(spots, square) && SpotsAll(spots, square, column, row)
  }

  ghost predicate SpotsTrue(spots: seq<Spot>, square: string)
    requires ValidSquare(square)
  {
    forall k :: 0 <= k < |spots| ==>
      ValidSquare(spots[k].square) && spots[k].square != square
      && spots[k].distance == SquareDistance(square, spots[k].square)
  }

  ghost predicate SpotsAll(spots: seq<Spot>, square: string, column: int, row: int)
    requires ValidSquare(square)
  {
    forall s :: ValidSquare(s) && s != square && Before(s[0] as int - 'a' as int, s[1] as int - '1' as int, column, row)
      ==> Spot(s, SquareDistance(square, s)) in spots
  }

  /** The squares in order of distance. */
  ghost predicate Nearest(squares: seq<string>, square: string)
    requires ValidSquare(square)
  {
    && (forall s :: s in squares <==> ValidSquare(s) && s != square)
    && (forall i, j :: 0 <= i < j < |squares| ==>
          ValidSquare(squares[i]) && ValidSquare(squares[j])
          && SquareDistance(square, squares[i]) <= SquareDistance(square, squares[j]))
  }

  lemma SpotsAreNearest(spots: seq<Spot>, square: string, squares: seq<string>)
    requires ValidSquare(square) && Scanned(spots, square, 8, 0)
    requires var sorted := SortByDistance(spots); |squares| == |sorted| && forall i :: 0 <= i < |squares| ==> squares[i] == sorted[i].square
    ensures Nearest(squares, square)
  {
    var sorted := SortByDistance(spots);
    SortOrders(spots);
    forall i | 0 <= i < |squares|
      ensures ValidSquare(squares[i]) && squares[i] != square && sorted[i].distance == SquareDistance(square, squares[i])
    {
      assert sorted[i] in multiset(sorted);
      assert sorted[i] in spots;
    }
    forall s | ValidSquare(s) && s != square
      ensures s in squares
    {
      assert Spot(s, SquareDistance(square, s)) in multiset(spots);
      assert Spot(s, SquareDistance(square, s)) in sorted;
      var i :| 0 <= i < |sorted| && sorted[i] == Spot(s, SquareDistance(square, s));
      assert squares[i] == s;
    }
  }

  lemma ScanStep(spots: seq<Spot>, square: string, i: int, j: int)
    requires ValidSquare(square) && 0 <= i < 8 && 0 <= j < 8 && Scanned(spots, square, i, j)
    ensures var s := Named(i, j + 1);
            Scanned(if s != square then spots + [Spot(s, SquareDistance(square, s))] else spots, square, i, j + 1)
  {
    var s := Named(i, j + 1);
    var after := if s != square then spots + [Spot(s, SquareDistance(square, s))] else spots;
    AllScanned(spots, square, i, j, after);
    if s != square {
      SpotsMore(spots, square, s);
    }
  }

  lemma SpotsMore(spots: seq<Spot>, square: string, s: string)
    requires ValidSquare(square) && SpotsTrue(spots, square) && ValidSquare(s) && s != square
    ensures SpotsTrue(spots + [Spot(s, SquareDistance(square, s))], square)
  {
  }

  lemma AllScanned(spots: seq<Spot>, square: string, i: int, j: int, after: seq<Spot>)
    requires ValidSquare(square) && 0 <= i < 8 && 0 <= j < 8 && SpotsAll(spots, square, i, j)
    requires var s := Named(i, j + 1); after == if s != square then spots + [Spot(s, SquareDistance(square, s))] else spots
    ensures SpotsAll(after, square, i, j + 1)
  {
    var s := Named(i, j + 1);
    if s != square {
      assert after[|spots|] == Spot(s, SquareDistance(square, s));
    }
    forall t | ValidSquare(t) && t != square && Before(t[0] as int - 'a' as int, t[1] as int - '1' as int, i, j + 1)
      ensures Spot(t, SquareDistance(square, t)) in after
    {
      SpotScanned(spots, square, i, j, t);
    }
  }

  lemma SpotScanned(spots: seq<Spot>, square: string, i: int, j: int, t: string)
    requires ValidSquare(square) && 0 <= i < 8 && 0 <= j < 8 && SpotsAll(spots, square, i, j)
    requires ValidSquare(t) && t != square && Before(t[0] as int - 'a' as int, t[1] as int - '1' as int, i, j + 1)
    ensures Spot(t, SquareDistance(square, t)) in spots || t == Named(i, j + 1)
  {
    if t[0] as int - 'a' as int == i && t[1] as int - '1' as int == j {
      NamedIsAll(t);
    }
  }

  method CreateRadius(square: string) returns (squares: seq<string>)
    requires ValidSquare(square)
    ensures Nearest(squares, square)
  {
    var spots: seq<Spot> := [];
    for i := 0 to 8
      invariant Scanned(spots, square, i, 0)
    {
      for j := 0 to 8
        invariant Scanned(spots, square, i, j)
      {
        var s := Named(i, j + 1);
        ScanStep(spots, square, i, j);
        if s != square {
          spots := spots + [Spot(s, SquareDistance(square, s))];
        }
      }
    }
    var sorted := SortByDistance(spots);
    squares := [];
    for i := 0 to |sorted|
      invariant |squares| == i && forall k :: 0 <= k < i ==> squares[k] == sorted[k].square
    {
      squares := squares + [sorted[i].square];
    }
    SpotsAreNearest(spots, square, squares);
  }

  /** A square of the position with this piece, none such being nearer. */
  ghost predicate IsClosest(pos: Placing, piece: string, square: string, found: string)
    requires ValidSquare(square) && ValidPosition(pos)
  {
    && found in pos && pos[found] == piece && found != square
    && forall s :: s in pos && pos[s] == piece && s != square ==> SquareDistance(square, found) <= SquareDistance(square, s)
  }

  method FindClosestPiece(pos: Placing, piece: string, square: string) returns (found: Option<string>)
    requires ValidSquare(square) && ValidPosition(pos)
    ensures found.Some? ==> IsClosest(pos, piece, square, found.value)
    ensures found.None? ==> forall s :: s in pos && s != square ==> pos[s] != piece
  {
    var closest := CreateRadius(square);
    for i := 0 to |closest|
      invariant forall k :: 0 <= k < i ==> !(closest[k] in pos && pos[closest[k]] == piece)
    {
      var s := closest[i];
      if s in pos && pos[s] == piece {
        forall t | t in pos && pos[t] == piece && t != square
          ensures SquareDistance(square, s) <= SquareDistance(square, t)
        {
          assert t in closest;
          var k :| 0 <= k < |closest| && closest[k] == t;
          assert k >= i;
        }
        assert s in closest;
        return Some(s);
      }
    }
    forall s | s in pos && s != square
      ensures pos[s] != piece
    {
      assert s in closest;
    }
    return None;
  }

  // ------------------------------------------------------------ animations

  /** The squares of the first position whose piece is not there in the second one. */
  function Changed(pos1: Placing, pos2: Placing): Placing {
    map s | s in pos1 && !(s in pos2 && pos2[s] == pos1[s]) :: pos1[s]
  }

  function Sources(slides: seq<Animation>): set<string>
    requires AllSlides(slides)
  {
    set k | 0 <= k < |slides| :: slides[k].source
  }

  function Destinations(slides: seq<Animation>): set<string>
    requires AllSlides(slides)
  {
    set k | 0 <= k < |slides| :: slides[k].destination
  }

  predicate AllSlides(slides: seq<Animation>) {
    forall k :: 0 <= k < |slides| ==> slides[k].Slide?
  }

  /** A slide takes a changed piece to a changed square that needs that piece, from the nearest square that
      still has one. */
  ghost predicate SlideOk(was: Placing, will: Placing, before: seq<Animation>, a: Animation)
    requires AllSlides(before) && ValidPosition(was) && ValidPosition(will)
  {
    && a.Slide? && a.destination in will && will[a.destination] == a.piece && a.destination !in Destinations(before)
    && IsClosest(was - Sources(before), a.piece, a.destination, a.source)
  }

  ghost predicate SlidesOk(was: Placing, will: Placing, slides: seq<Animation>)
    requires ValidPosition(was) && ValidPosition(will)
  {
    AllSlides(slides) && forall k :: 0 <= k < |slides| ==> SlideOk(was, will, slides[..k], slides[k])
  }

  /** Whatever square needs a piece and is no destination, no changed square that has one is left over. */
  ghost predicate NoneLeft(was: Placing, will: Placing, slides: seq<Animation>, open: set<string>)
    requires AllSlides(slides)
  {
    forall s, t :: s in will && s !in open && s !in Destinations(slides) && t in was && t !in Sources(slides) && s != t ==> was[t] != will[s]
  }

  /** Every square of a position appears, or vanishes, exactly once. */
  ghost predicate Lists(squares: seq<string>, pos: Placing) {
    && (forall s :: s in squares <==> s in pos)
    && forall i, j :: 0 <= i < j < |squares| ==> squares[i] != squares[j]
  }

  function Appears(squares: seq<string>, pos: Placing): seq<Animation>
    requires forall k :: 0 <= k < |squares| ==> squares[k] in pos
  {
    seq(|squares|, k requires 0 <= k < |squares| => Appear(squares[k], pos[squares[k]]))
  }

  function Vanishes(squares: seq<string>, pos: Placing): seq<Animation>
    requires forall k :: 0 <= k < |squares| ==> squares[k] in pos
  {
    seq(|squares|, k requires 0 <= k < |squares| => Vanish(squares[k], pos[squares[k]]))
  }

  /** One changed square of the new position: slide to it a nearest changed piece of its kind, if one is left. */
  method SlideTo(i: string, was: Placing, will: Placing, slides: seq<Animation>, left: Placing, ghost rest: set<string>)
    returns (slides': seq<Animation>, left': Placing)
    requires ValidPosition(was) && ValidPosition(will) && SlidesOk(was, will, slides) && left == was - Sources(slides)
    requires i in will && i !in rest && i !in Destinations(slides) && Destinations(slides) !! rest
    requires NoneLeft(was, will, slides, rest + {i})
    ensures SlidesOk(was, will, slides') && left' == was - Sources(slides')
    ensures Destinations(slides') !! rest && NoneLeft(was, will, slides', rest)
  {
    slides', left' := slides, left;
    var found := FindClosestPiece(left, will[i], i);
    if found.Some? {
      var a := Slide(found.value, i, will[i]);
      SlidesMore(was, will, slides, a);
      slides' := slides + [a];
      left' := left - {found.value};
    } else {
      forall t | t in was && t !in Sources(slides) && t != i
        ensures was[t] != will[i]
      {
        assert left[t] == was[t];
      }
    }
  }

  /** The slides: for each changed square of the new position, if a changed piece of its kind is left. */
  method FindSlides(was: Placing, will: Placing) returns (slides: seq<Animation>)
    requires ValidPosition(was) && ValidPosition(will)
    ensures SlidesOk(was, will, slides)
    ensures NoneLeft(was, will, slides, {})
  {
    slides := [];
    var rest := will.Keys;
    var left := was;
    while rest != {}
      invariant rest <= will.Keys && SlidesOk(was, will, slides) && left == was - Sources(slides)
      invariant Destinations(slides) !! rest && NoneLeft(was, will, slides, rest)
      decreases rest
    {
      var i: string :| i in rest;
      assert rest == (rest - {i}) + {i};
      rest := rest - {i};
      slides, left := SlideTo(i, was, will, slides, left, rest);
    }
  }

  lemma SlidesMore(was: Placing, will: Placing, slides: seq<Animation>, a: Animation)
    requires ValidPosition(was) && ValidPosition(will) && SlidesOk(was, will, slides) && SlideOk(was, will, slides, a)
    ensures SlidesOk(was, will, slides + [a])
    ensures Sources(slides + [a]) == Sources(slides) + {a.source}
    ensures Destinations(slides + [a]) == Destinations(slides) + {a.destination}
  {
    var after := slides + [a];
    forall k | 0 <= k < |after|
      ensures SlideOk(was, will, after[..k], after[k])
    {
      assert after[..k] == slides[..k];
      if k == |slides| {
        assert slides[..k] == slides;
      }
    }
    SourcesGrow(slides, a);
  }

  /** The squares of a position in some order. */
  method ListSquares(pos: Placing) returns (squares: seq<string>)
    ensures Lists(squares, pos)
  {
    squares := [];
    var rest := pos.Keys;
    while rest != {}
      invariant rest <= pos.Keys && Lists(squares, pos - rest) && forall k :: 0 <= k < |squares| ==> squares[k] !in rest
      decreases rest
    {
      var i: string :| i in rest;
      rest := rest - {i};
      squares := squares + [i];
    }
  }

  lemma SourcesGrow(slides: seq<Animation>, a: Animation)
    requires AllSlides(slides) && a.Slide?
    ensures AllSlides(slides + [a])
    ensures Sources(slides + [a]) == Sources(slides) + {a.source}
    ensures Destinations(slides + [a]) == Destinations(slides) + {a.destination}
  {
    var after := slides + [a];
    assert forall k :: 0 <= k < |slides| ==> after[k] == slides[k];
    assert after[|slides|] == a;
  }

  /** The three kinds of animations, for what changed. */
  ghost predicate Complete(was: Placing, will: Placing, slides: seq<Animation>, adds: seq<string>, gone: seq<string>)
    requires ValidPosition(was) && ValidPosition(will)
  {
    && SlidesOk(was, will, slides) && NoneLeft(was, will, slides, {})
    && Lists(adds, will - Destinations(slides))
    && Lists(gone, was - Sources(slides) - Destinations(slides))
  }

  lemma SourcesWere(was: Placing, will: Placing, slides: seq<Animation>)
    requires ValidPosition(was) && ValidPosition(will) && SlidesOk(was, will, slides)
    ensures Sources(slides) <= was.Keys && Destinations(slides) <= will.Keys
  {
    forall k | 0 <= k < |slides|
      ensures slides[k].source in was && slides[k].destination in will
    {
      assert SlideOk(was, will, slides[..k], slides[k]);
    }
  }

  lemma ListsMembers(squares: seq<string>, part: Placing, pos: Placing)
    requires Lists(squares, part) && part.Keys <= pos.Keys
    ensures forall k :: 0 <= k < |squares| ==> squares[k] in pos
    ensures (set s | s in squares) == part.Keys
  {
    forall k | 0 <= k < |squares|
      ensures squares[k] in pos
    {
      assert squares[k] in squares;
    }
  }

  lemma CompleteFits(was: Placing, will: Placing, slides: seq<Animation>, adds: seq<string>, gone: seq<string>)
    requires ValidPosition(was) && ValidPosition(will) && Complete(was, will, slides, adds, gone)
    ensures (forall k :: 0 <= k < |adds| ==> adds[k] in will) && forall k :: 0 <= k < |gone| ==> gone[k] in was
    ensures forall k :: 0 <= k < |slides| ==> slides[k].destination in will && will[slides[k].destination] == slides[k].piece
  {
    ListsMembers(adds, will - Destinations(slides), will);
    ListsMembers(gone, was - Sources(slides) - Destinations(slides), was);
    forall k | 0 <= k < |slides|
      ensures slides[k].destination in will && will[slides[k].destination] == slides[k].piece
    {
      assert SlideOk(was, will, slides[..k], slides[k]);
    }
  }

  /** All animations, in the order in which they are played. */
  function AllOf(was: Placing, will: Placing, slides: seq<Animation>, adds: seq<string>, gone: seq<string>): seq<Animation>
    requires (forall k :: 0 <= k < |adds| ==> adds[k] in will) && forall k :: 0 <= k < |gone| ==> gone[k] in was
  {
    slides + Appears(adds, will) + Vanishes(gone, was)
  }

  /** Some square gets both an appearance and, after it, a disappearance. */
  ghost predicate Crossed(adds: seq<string>, gone: seq<string>) {
    exists s :: s in adds && s in gone
  }

  /** A square gets both exactly if its piece changes and no slide starts or ends there. */
  lemma CrossedSquare(was: Placing, will: Placing, slides: seq<Animation>, adds: seq<string>, gone: seq<string>, s: string)
    requires ValidPosition(was) && ValidPosition(will) && Complete(was, will, slides, adds, gone)
    ensures s in adds && s in gone <==> s in was && s in will && s !in Sources(slides) && s !in Destinations(slides)
  {
  }

  /** The same condition, asked of the positions and the slides: every square occupied by different pieces
      before and after is the source or the destination of a slide. */
  lemma CrossedMeans(pos1: Placing, pos2: Placing, slides: seq<Animation>, adds: seq<string>, gone: seq<string>)
    requires ValidPosition(pos1) && ValidPosition(pos2)
    requires Complete(Changed(pos1, pos2), Changed(pos2, pos1), slides, adds, gone)
    ensures !Crossed(adds, gone) <==>
            forall s :: s in pos1 && s in pos2 && pos1[s] != pos2[s] ==> s in Sources(slides) || s in Destinations(slides)
  {
    var was, will := Changed(pos1, pos2), Changed(pos2, pos1);
    forall s
      ensures s in adds && s in gone <==> s in pos1 && s in pos2 && pos1[s] != pos2[s] && s !in Sources(slides) && s !in Destinations(slides)
    {
      CrossedSquare(was, will, slides, adds, gone, s);
    }
  }

  /** If no changed piece is wanted anywhere, nothing slides. */
  lemma NothingSlides(was: Placing, will: Placing, slides: seq<Animation>)
    requires ValidPosition(was) && ValidPosition(will) && SlidesOk(was, will, slides)
    requires forall s, t :: s in will && t in was ==> was[t] != will[s]
    ensures slides == []
  {
    if slides != [] {
      SlidesAreNearest(was, will, slides, 0, "");
    }
  }

  lemma {:induction false} DestinationsWanted(was: Placing, will: Placing, slides: seq<Animation>, s: string)
    requires ValidPosition(was) && ValidPosition(will) && SlidesOk(was, will, slides) && NoneLeft(was, will, slides, {})
    requires will.Keys == {s} && exists t :: t in was && t != s && was[t] == will[s]
    ensures s in Destinations(slides)
  {
    var t :| t in was && t != s && was[t] == will[s];
    SourcesWere(was, will, slides);
    if slides == [] {
      assert t !in Sources(slides);
    } else {
      assert slides[0].destination in Destinations(slides);
    }
  }

  /** Moving a piece to another square, whatever stood there, gives no square both. */
  lemma PlainMoveCrossesNothing(pos1: Placing, source: string, destination: string, slides: seq<Animation>, adds: seq<string>, gone: seq<string>)
    requires ValidPosition(pos1) && ValidSquare(destination) && source in pos1 && source != destination
    requires var pos2 := (pos1 - {source})[destination := pos1[source]];
             Complete(Changed(pos1, pos2), Changed(pos2, pos1), slides, adds, gone)
    ensures !Crossed(adds, gone)
  {
    var pos2 := (pos1 - {source})[destination := pos1[source]];
    var was, will := Changed(pos1, pos2), Changed(pos2, pos1);
    CrossedMeans(pos1, pos2, slides, adds, gone);
    if destination in pos1 && pos1[destination] != pos2[destination] {
      assert source in was && was[source] == will[destination] && will.Keys == {destination};
      DestinationsWanted(was, will, slides, destination);
    }
  }

  /** A piece that captures and turns into another one, as in a promotion, does not slide: its new square gets
      both an appearance and a disappearance. */
  lemma CapturingPromotionCrosses(pos1: Placing, source: string, destination: string, piece: string,
                                  slides: seq<Animation>, adds: seq<string>, gone: seq<string>)
    requires ValidPosition(pos1) && source in pos1 && destination in pos1 && source != destination
    requires ValidPieceCode(piece) && pos1[source] != piece && pos1[destination] != piece
    requires var pos2 := (pos1 - {source})[destination := piece];
             Complete(Changed(pos1, pos2), Changed(pos2, pos1), slides, adds, gone)
    ensures destination in adds && destination in gone && Crossed(adds, gone)
  {
    var pos2 := (pos1 - {source})[destination := piece];
    var was, will := Changed(pos1, pos2), Changed(pos2, pos1);
    assert was.Keys == {source, destination} && will.Keys == {destination};
    NothingSlides(was, will, slides);
    CrossedSquare(was, will, slides, adds, gone, destination);
  }

  lemma ListedIs(squares: seq<string>, s: string, k: nat)
    requires k < |squares| && forall x :: x in squares <==> x == s
    ensures squares[k] == s
  {
    assert squares[k] in squares;
  }

  lemma OnlyListed(squares: seq<string>, s: string)
    requires (forall x :: x in squares <==> x == s) && forall i, j :: 0 <= i < j < |squares| ==> squares[i] != squares[j]
    ensures squares == [s]
  {
    assert s in squares;
    ListedIs(squares, s, 0);
    if |squares| > 1 {
      ListedIs(squares, s, 1);
    }
  }

  /** One piece takes the place of another on an otherwise unchanged square: the square gets both, and nothing
      else is animated. */
  lemma ReplacedPieceCrosses(s: string, was: string, will: string, slides: seq<Animation>, adds: seq<string>, gone: seq<string>)
    requires ValidSquare(s) && ValidPieceCode(was) && ValidPieceCode(will) && was != will
    requires Complete(Changed(map[s := was], map[s := will]), Changed(map[s := will], map[s := was]), slides, adds, gone)
    ensures slides == [] && adds == [s] && gone == [s]
  {
    var pos1, pos2 := map[s := was], map[s := will];
    assert Changed(pos1, pos2) == pos1 && Changed(pos2, pos1) == pos2;
    NothingSlides(pos1, pos2, slides);
    OnlyListed(adds, s);
    OnlyListed(gone, s);
  }

  /** No two slides share a source or a destination. */
  lemma SlidesDiffer(was: Placing, will: Placing, slides: seq<Animation>, i: nat, j: nat)
    requires ValidPosition(was) && ValidPosition(will) && SlidesOk(was, will, slides) && i < j < |slides|
    ensures slides[i].source != slides[j].source && slides[i].destination != slides[j].destination
  {
    assert SlideOk(was, will, slides[..j], slides[j]);
    assert slides[..j][i] == slides[i];
    assert slides[i].source in Sources(slides[..j]) && slides[i].destination in Destinations(slides[..j]);
  }

  /** Each slide takes a piece of the right kind from the nearest square not used before. */
  lemma SlidesAreNearest(was: Placing, will: Placing, slides: seq<Animation>, k: nat, t: string)
    requires ValidPosition(was) && ValidPosition(will) && SlidesOk(was, will, slides) && k < |slides|
    ensures slides[k].source in was && was[slides[k].source] == slides[k].piece
    ensures slides[k].destination in will && will[slides[k].destination] == slides[k].piece
    ensures t in was && was[t] == slides[k].piece && t != slides[k].destination && t !in Sources(slides[..k]) ==>
              SquareDistance(slides[k].destination, slides[k].source) <= SquareDistance(slides[k].destination, t)
  {
    assert SlideOk(was, will, slides[..k], slides[k]);
  }

  /** Each changed square of the new position gets a slide or an appearance, not both; a piece only appears
      if every other changed square that held one slides away. */
  lemma EachSquareOnce(was: Placing, will: Placing, slides: seq<Animation>, adds: seq<string>, gone: seq<string>, s: string, t: string)
    requires ValidPosition(was) && ValidPosition(will) && Complete(was, will, slides, adds, gone)
    ensures s in will <==> (s in Destinations(slides) || s in adds)
    ensures s in adds ==> s !in Destinations(slides)
    ensures s in adds && t in was && was[t] == will[s] && t != s ==> t in Sources(slides)
  {
    SourcesWere(was, will, slides);
  }

  /** Slides first, then whatever is still to appear, then whatever is to vanish and not slid onto. */
  method CalculateAnimations(pos1: Placing, pos2: Placing)
    returns (anims: seq<Animation>, slides: seq<Animation>, adds: seq<string>, gone: seq<string>)
    requires ValidPosition(pos1) && ValidPosition(pos2)
    ensures Complete(Changed(pos1, pos2), Changed(pos2, pos1), slides, adds, gone)
    ensures (forall k :: 0 <= k < |adds| ==> adds[k] in Changed(pos2, pos1)) && forall k :: 0 <= k < |gone| ==> gone[k] in Changed(pos1, pos2)
    ensures anims == AllOf(Changed(pos1, pos2), Changed(pos2, pos1), slides, adds, gone)
  {
    var was, will := Changed(pos1, pos2), Changed(pos2, pos1);
    slides := FindSlides(was, will);
    adds := ListSquares(will - Destinations(slides));
    gone := ListSquares(was - Sources(slides) - Destinations(slides));
    CompleteFits(was, will, slides, adds, gone);
    anims := slides + Appears(adds, will) + Vanishes(gone, was);
  }
}
