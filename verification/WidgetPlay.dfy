/** Playing the widget's animations: the piece elements on the page, the reports of ended effects, the counter
    that waits for them, and the redraw it brings about. */
module WidgetPlay {
  import opened Basics
  import opened WidgetFen
  import opened WidgetMoves

  /** The piece elements on the squares, each list from the first appended to the last. */
  type Elements = map<string, seq<string>>

  /** An effect ends: a slide arrives and appends its piece, a spare piece replaces what stands on its square,
      or one element has faded in or out, which neither adds nor takes away an element. */
  datatype Report = Arrived(square: string, piece: string) | Replaced(square: string, piece: string) | Faded

  /** The elements on the page and the reports still to come. */
  datatype Screen = Screen(board: Elements, pending: multiset<Report>)

  function On(board: Elements, s: string): seq<string> {
    if s in board then board[s] else []
  }

  /** A board drawn at once: one element for every piece. */
  function Drawn(pos: Placing): Elements {
    map s | s in pos :: [pos[s]]
  }

  /** One animation begins. A slide takes all elements off its source. A new piece is appended and everything on
      its square fades in, or it is to come from the spare pieces. A cleared square fades out, every element. */
  function Begun(screen: Screen, a: Animation, spare: bool): Screen {
    match a
    case Slide(source, destination, piece) =>
      Screen(screen.board - {source}, screen.pending + multiset{Arrived(destination, piece)})
    case Appear(square, piece) =>
      if spare then screen.(pending := screen.pending + multiset{Replaced(square, piece)})
      else
        var there := On(screen.board, square) + [piece];
        Screen(screen.board[square := there], screen.pending[Faded := screen.pending[Faded] + |there|])
    case Vanish(square, piece) =>
      screen.(pending := screen.pending[Faded := screen.pending[Faded] + |On(screen.board, square)|])
  }

  /** The first n animations of a list have begun, in its order. */
  function Started(pos: Placing, anims: seq<Animation>, n: nat, spare: bool): Screen
    requires n <= |anims|
  {
    if n == 0 then Screen(Drawn(pos), multiset{}) else Begun(Started(pos, anims, n - 1, spare), anims[n - 1], spare)
  }

  lemma StartedNext(pos: Placing, anims: seq<Animation>, n: nat, spare: bool)
    requires 0 < n <= |anims|
    ensures Started(pos, anims, n, spare) == Begun(Started(pos, anims, n - 1, spare), anims[n - 1], spare)
  {
  }

  /** The elements, how many reports have come in, and how often the board has been redrawn. */
  datatype Play = Play(board: Elements, finished: nat, redraws: nat)

  function Landed(board: Elements, report: Report): Elements {
    match report
    case Arrived(square, piece) => board[square := On(board, square) + [piece]]
    case Replaced(square, piece) => board[square := [piece]]
    case Faded => board
  }

  /** One report: what it brings, the counter, and the redraw when the counter reaches the number of animations. */
  function Heard(play: Play, report: Report, total: nat, target: Placing): Play {
    if play.finished + 1 == total then Play(Drawn(target), play.finished + 1, play.redraws + 1)
    else Play(Landed(play.board, report), play.finished + 1, play.redraws)
  }

  /** The first n of some reports have come in. */
  function HeardAll(board: Elements, reports: seq<Report>, n: nat, total: nat, target: Placing): Play
    requires n <= |reports|
  {
    if n == 0 then Play(board, 0, 0) else Heard(HeardAll(board, reports, n - 1, total, target), reports[n - 1], total, target)
  }

  /** Whatever element is on the page is the piece of its square, and every piece has one. */
  ghost predicate Shows(board: Elements, pos: Placing) {
    board.Keys == pos.Keys && forall s :: s in board ==> board[s] != [] && forall k :: 0 <= k < |board[s]| ==> board[s][k] == pos[s]
  }

  // ------------------------------------------------------------- the widget

  class Display {
    const spare: bool
    var current: Placing
    var screen: Screen
    var total: nat
    var finished: nat
    var redraws: nat

    ghost function Value(): Play
      reads this
    {
      Play(screen.board, finished, redraws)
    }

    constructor (position: Placing, spare: bool)
      ensures current == position && this.spare == spare && screen == Screen(Drawn(position), multiset{})
    {
      this.spare, current, screen := spare, position, Screen(Drawn(position), multiset{});
      total, finished, redraws := 0, 0, 0;
    }

    /** Clear the board and append the pieces of the current position, in whatever order. */
    method DrawPositionInstant()
      modifies this`screen
      ensures screen == Screen(Drawn(current), old(screen).pending)
    {
      var board: Elements := map[];
      var rest := current.Keys;
      while rest != {}
        invariant screen == old(screen) && rest <= current.Keys
        invariant forall s :: s in board <==> s in current && s !in rest
        invariant forall s :: s in board ==> board[s] == [current[s]]
        decreases rest
      {
        var i := PickAny(rest);
        rest := rest - {i};
        board := board[i := On(board, i) + [current[i]]];
      }
      assert board == Drawn(current);
      screen := screen.(board := board);
    }

    method Begin(animation: Animation)
      modifies this`screen
      ensures screen == Begun(old(screen), animation, spare)
    {
      match animation
      case Vanish(square, piece) =>
        ReportFades(|On(screen.board, square)|);
      case Appear(square, piece) =>
        if !spare {
          var there := On(screen.board, square) + [piece];
          screen := screen.(board := screen.board[square := there]);
          ReportFades(|there|);
        } else {
          screen := screen.(pending := screen.pending + multiset{Replaced(square, piece)});
        }
      case Slide(source, destination, piece) =>
        screen := Screen(screen.board - {source}, screen.pending + multiset{Arrived(destination, piece)});
    }

    /** That many elements begin to fade. */
    method ReportFades(n: nat)
      modifies this`screen
      ensures screen == old(screen).(pending := old(screen).pending[Faded := old(screen).pending[Faded] + n])
    {
      screen := screen.(pending := screen.pending[Faded := screen.pending[Faded] + n]);
    }

    method BeginNext(animations: seq<Animation>, i: nat)
      requires i < |animations| && screen == Started(current, animations, i, spare)
      modifies this`screen
      ensures screen == Started(current, animations, i + 1, spare)
    {
      Begin(animations[i]);
      StartedNext(current, animations, i + 1, spare);
    }

    /** Begin all animations, with a fresh counter. */
    method DoAnimations(animations: seq<Animation>)
      requires screen == Screen(Drawn(current), multiset{})
      modifies this`screen, this`total, this`finished, this`redraws
      ensures screen == Started(current, animations, |animations|, spare)
      ensures total == |animations| && finished == 0 && redraws == 0
    {
      total, finished, redraws := |animations|, 0, 0;
      for i := 0 to |animations|
        invariant screen == Started(current, animations, i, spare)
        invariant total == |animations| && finished == 0 && redraws == 0
      {
        BeginNext(animations, i);
      }
    }

    /** Show another position with animations. */
    method Position(position: Placing) returns (animations: seq<Animation>, ghost slides: seq<Animation>, ghost adds: seq<string>, ghost gone: seq<string>)
      requires ValidPosition(current) && ValidPosition(position) && screen == Screen(Drawn(current), multiset{})
      modifies this
      ensures current == position
      ensures ListBetween(old(current), position, slides, adds, gone, animations)
      ensures screen == Started(old(current), animations, |animations|, spare)
      ensures total == |animations| && finished == 0 && redraws == 0
    {
      animations, slides, adds, gone := CalculateAnimations(current, position);
      DoAnimations(animations);
      current := position;
    }

    /** An effect has ended: what it brings, then the counter, then perhaps the redraw. */
    method Finish(report: Report)
      requires report in screen.pending
      modifies this`screen, this`finished, this`redraws
      ensures Value() == Heard(old(Value()), report, total, current)
      ensures screen.pending == old(screen).pending - multiset{report}
    {
      var board := screen.board;
      match report {
        case Arrived(square, piece) => board := board[square := On(board, square) + [piece]];
        case Replaced(square, piece) => board := board[square := [piece]];
        case Faded =>
      }
      screen := Screen(board, screen.pending - multiset{report});
      finished := finished + 1;
      if finished != total {
        return;
      }
      DrawPositionInstant();
      redraws := redraws + 1;
    }
  }

  // ------------------------------------------------- what is known of the list

  predicate Fits(pos1: Placing, pos2: Placing, adds: seq<string>, gone: seq<string>) {
    && (forall k :: 0 <= k < |adds| ==> adds[k] in Changed(pos2, pos1))
    && forall k :: 0 <= k < |gone| ==> gone[k] in Changed(pos1, pos2)
  }

  /** The animations from one position to another. */
  function Between(pos1: Placing, pos2: Placing, slides: seq<Animation>, adds: seq<string>, gone: seq<string>): seq<Animation>
    requires Fits(pos1, pos2, adds, gone)
  {
    AllOf(Changed(pos1, pos2), Changed(pos2, pos1), slides, adds, gone)
  }

  /** The list between two positions and what it is made of. */
  ghost predicate ListBetween(pos1: Placing, pos2: Placing, slides: seq<Animation>, adds: seq<string>, gone: seq<string>, anims: seq<Animation>) {
    && ValidPosition(pos1) && ValidPosition(pos2)
    && Complete(Changed(pos1, pos2), Changed(pos2, pos1), slides, adds, gone) && Fits(pos1, pos2, adds, gone)
    && anims == Between(pos1, pos2, slides, adds, gone)
  }

  /** Some slide among the first n animations starts on the square. */
  predicate SlidFrom(anims: seq<Animation>, n: nat, s: string)
    requires n <= |anims|
  {
    exists j :: 0 <= j < n && anims[j].Slide? && anims[j].source == s
  }

  /** Some of the first n animations is an appearance on the square. */
  predicate AppearedOn(anims: seq<Animation>, n: nat, s: string)
    requires n <= |anims|
  {
    exists j :: 0 <= j < n && anims[j].Appear? && anims[j].square == s
  }

  /** What one animation brings is what the new position has there; a square is cleared only if it held a piece
      that does not slide away; and pieces appear on different squares. */
  ghost predicate Orderly(pos1: Placing, pos2: Placing, anims: seq<Animation>, k: nat)
    requires k < |anims|
  {
    match anims[k]
    case Slide(source, destination, piece) => destination in pos2 && pos2[destination] == piece
    case Appear(square, piece) => square in pos2 && pos2[square] == piece && !AppearedOn(anims, k, square)
    case Vanish(square, piece) => square in pos1 && !SlidFrom(anims, |anims|, square)
  }

  ghost predicate AllOrderly(pos1: Placing, pos2: Placing, anims: seq<Animation>) {
    forall k: nat :: k < |anims| ==> Orderly(pos1, pos2, anims, k)
  }

  /** The places of the three kinds of animations in the list. */
  lemma BetweenAt(pos1: Placing, pos2: Placing, slides: seq<Animation>, adds: seq<string>, gone: seq<string>, k: nat)
    requires AllSlides(slides) && Fits(pos1, pos2, adds, gone) && k < |Between(pos1, pos2, slides, adds, gone)|
    ensures var anims, m, n := Between(pos1, pos2, slides, adds, gone), |slides|, |slides| + |adds|;
            && |anims| == n + |gone|
            && (k < m ==> anims[k] == slides[k])
            && (m <= k < n ==> anims[k] == Appear(adds[k - m], Changed(pos2, pos1)[adds[k - m]]))
            && (n <= k ==> anims[k] == Vanish(gone[k - n], Changed(pos1, pos2)[gone[k - n]]))
  {
  }

  lemma SlidFromSources(pos1: Placing, pos2: Placing, slides: seq<Animation>, adds: seq<string>, gone: seq<string>, n: nat, s: string)
    requires AllSlides(slides) && Fits(pos1, pos2, adds, gone) && |slides| <= n <= |Between(pos1, pos2, slides, adds, gone)|
    ensures SlidFrom(Between(pos1, pos2, slides, adds, gone), n, s) <==> s in Sources(slides)
  {
    var anims := Between(pos1, pos2, slides, adds, gone);
    if SlidFrom(anims, n, s) {
      var j :| 0 <= j < n && anims[j].Slide? && anims[j].source == s;
      BetweenAt(pos1, pos2, slides, adds, gone, j);
    }
    if s in Sources(slides) {
      var j :| 0 <= j < |slides| && slides[j].source == s;
      BetweenAt(pos1, pos2, slides, adds, gone, j);
    }
  }

  lemma AppearedOnAdds(pos1: Placing, pos2: Placing, slides: seq<Animation>, adds: seq<string>, gone: seq<string>, n: nat, s: string)
    requires AllSlides(slides) && Fits(pos1, pos2, adds, gone) && n <= |Between(pos1, pos2, slides, adds, gone)|
    ensures AppearedOn(Between(pos1, pos2, slides, adds, gone), n, s) <==> exists i :: 0 <= i < |adds| && |slides| + i < n && adds[i] == s
  {
    var anims := Between(pos1, pos2, slides, adds, gone);
    if AppearedOn(anims, n, s) {
      var j :| 0 <= j < n && anims[j].Appear? && anims[j].square == s;
      BetweenAt(pos1, pos2, slides, adds, gone, j);
      assert adds[j - |slides|] == s;
    }
    if i :| 0 <= i < |adds| && |slides| + i < n && adds[i] == s {
      BetweenAt(pos1, pos2, slides, adds, gone, |slides| + i);
      assert anims[|slides| + i].Appear? && anims[|slides| + i].square == s;
    }
  }

  lemma OrderlyAt(pos1: Placing, pos2: Placing, slides: seq<Animation>, adds: seq<string>, gone: seq<string>, anims: seq<Animation>, k: nat)
    requires ListBetween(pos1, pos2, slides, adds, gone, anims)
    requires k < |anims|
    ensures Orderly(pos1, pos2, anims, k)
  {
    CompleteFits(Changed(pos1, pos2), Changed(pos2, pos1), slides, adds, gone);
    BetweenAt(pos1, pos2, slides, adds, gone, k);
    match anims[k]
    case Slide(source, destination, piece) =>
    case Appear(square, piece) =>
      AppearedOnAdds(pos1, pos2, slides, adds, gone, k, square);
    case Vanish(square, piece) =>
      assert square in gone;
      SlidFromSources(pos1, pos2, slides, adds, gone, |anims|, square);
  }

  lemma BetweenIsOrderly(pos1: Placing, pos2: Placing, slides: seq<Animation>, adds: seq<string>, gone: seq<string>, anims: seq<Animation>)
    requires ListBetween(pos1, pos2, slides, adds, gone, anims)
    ensures AllOrderly(pos1, pos2, anims)
  {
    forall k: nat | k < |anims|
      ensures Orderly(pos1, pos2, anims, k)
    {
      OrderlyAt(pos1, pos2, slides, adds, gone, anims, k);
    }
  }

  /** Nothing is animated exactly if nothing changes. */
  lemma NothingToDo(pos1: Placing, pos2: Placing, slides: seq<Animation>, adds: seq<string>, gone: seq<string>, anims: seq<Animation>)
    requires ListBetween(pos1, pos2, slides, adds, gone, anims)
    ensures anims == [] <==> pos1 == pos2
  {
    var was, will := Changed(pos1, pos2), Changed(pos2, pos1);
    SourcesWere(was, will, slides);
    if anims == [] {
      assert slides == [] && adds == [] && gone == [];
      assert Sources(slides) == {} && Destinations(slides) == {};
      assert was - Sources(slides) - Destinations(slides) == was && will - Destinations(slides) == will;
      forall s
        ensures (s in pos1 <==> s in pos2) && (s in pos1 ==> pos1[s] == pos2[s])
      {
        assert s !in was && s !in will;
      }
    }
    if pos1 == pos2 {
      NothingSlides(was, will, slides);
      ListsNothing(adds, will - Destinations(slides));
      ListsNothing(gone, was - Sources(slides) - Destinations(slides));
    }
  }

  lemma ListsNothing(squares: seq<string>, pos: Placing)
    requires Lists(squares, pos) && pos == map[]
    ensures squares == []
  {
    if squares != [] {
      ListedThere(squares, pos, 0);
      assert false;
    }
  }

  lemma ListedThere(squares: seq<string>, pos: Placing, k: nat)
    requires Lists(squares, pos) && k < |squares|
    ensures squares[k] in pos
  {
    assert squares[k] in squares;
  }

  // ------------------------------------------------------- counting the reports

  /** The elements of one square after one more animation has begun. */
  lemma OnNext(screen: Screen, a: Animation, spare: bool, s: string)
    ensures On(Begun(screen, a, spare).board, s)
            == if a.Slide? && a.source == s then []
               else if a.Appear? && !spare && a.square == s then On(screen.board, s) + [a.piece]
               else On(screen.board, s)
  {
  }

  lemma SlidFromNext(anims: seq<Animation>, n: nat, s: string)
    requires 0 < n <= |anims|
    ensures SlidFrom(anims, n, s) <==> SlidFrom(anims, n - 1, s) || (anims[n - 1].Slide? && anims[n - 1].source == s)
    ensures AppearedOn(anims, n, s) <==> AppearedOn(anims, n - 1, s) || (anims[n - 1].Appear? && anims[n - 1].square == s)
  {
  }

  /** A piece whose square no slide has left is still there. */
  lemma {:induction false} StillThere(pos: Placing, anims: seq<Animation>, n: nat, spare: bool, s: string)
    requires n <= |anims| && s in pos && !SlidFrom(anims, n, s)
    ensures On(Started(pos, anims, n, spare).board, s) != []
  {
    if n > 0 {
      SlidFromNext(anims, n, s);
      StillThere(pos, anims, n - 1, spare, s);
      StartedNext(pos, anims, n, spare);
      OnNext(Started(pos, anims, n - 1, spare), anims[n - 1], spare, s);
    }
  }

  /** As long as nothing has been appended on a square, it has what it had, until a slide leaves it. */
  lemma {:induction false} OnlyOld(pos: Placing, anims: seq<Animation>, n: nat, spare: bool, s: string)
    requires n <= |anims| && (spare || !AppearedOn(anims, n, s))
    ensures On(Started(pos, anims, n, spare).board, s) == if s in pos && !SlidFrom(anims, n, s) then [pos[s]] else []
  {
    if n > 0 {
      SlidFromNext(anims, n, s);
      OnlyOld(pos, anims, n - 1, spare, s);
      StartedNext(pos, anims, n, spare);
      OnNext(Started(pos, anims, n - 1, spare), anims[n - 1], spare, s);
    }
  }

  /** How many reports the k-th animation makes. */
  function Reports(pos: Placing, anims: seq<Animation>, k: nat, spare: bool): nat
    requires k < |anims|
  {
    var board := Started(pos, anims, k, spare).board;
    match anims[k]
    case Slide(source, destination, piece) => 1
    case Appear(square, piece) => if spare then 1 else |On(board, square)| + 1
    case Vanish(square, piece) => |On(board, square)|
  }

  lemma PendingNext(pos: Placing, anims: seq<Animation>, n: nat, spare: bool)
    requires 0 < n <= |anims|
    ensures |Started(pos, anims, n, spare).pending| == |Started(pos, anims, n - 1, spare).pending| + Reports(pos, anims, n - 1, spare)
  {
  }

  /** Every animation makes a report: a cleared square is never empty when its turn comes. */
  lemma EachReports(pos1: Placing, pos2: Placing, anims: seq<Animation>, k: nat, spare: bool)
    requires AllOrderly(pos1, pos2, anims) && k < |anims|
    ensures Reports(pos1, anims, k, spare) >= 1
  {
    assert Orderly(pos1, pos2, anims, k);
    if anims[k].Vanish? {
      assert !SlidFrom(anims, k, anims[k].square);
      StillThere(pos1, anims, k, spare, anims[k].square);
    }
  }

  /** The numbers of reports of all animations. */
  function Counts(pos: Placing, anims: seq<Animation>, spare: bool): (counts: seq<nat>)
    ensures |counts| == |anims|
  {
    seq(|anims|, k requires 0 <= k < |anims| => Reports(pos, anims, k, spare))
  }

  function Sum(counts: seq<nat>, n: nat): nat
    requires n <= |counts|
  {
    if n == 0 then 0 else Sum(counts, n - 1) + counts[n - 1]
  }

  lemma {:induction false} PendingIsSum(pos: Placing, anims: seq<Animation>, counts: seq<nat>, n: nat, spare: bool)
    requires n <= |counts| == |anims| && forall k :: 0 <= k < |anims| ==> counts[k] == Reports(pos, anims, k, spare)
    ensures |Started(pos, anims, n, spare).pending| == Sum(counts, n)
  {
    if n > 0 {
      PendingIsSum(pos, anims, counts, n - 1, spare);
      assert counts[n - 1] == Reports(pos, anims, n - 1, spare);
      PendingNext(pos, anims, n, spare);
    }
  }

  /** Positive numbers add up to at least as many as they are, and to just that exactly if all of them are 1. */
  lemma {:induction false} SumAtLeast(counts: seq<nat>, n: nat)
    requires n <= |counts| && forall k :: 0 <= k < |counts| ==> counts[k] >= 1
    ensures Sum(counts, n) >= n
    ensures Sum(counts, n) == n <==> forall k :: 0 <= k < n ==> counts[k] == 1
  {
    if n > 0 {
      SumAtLeast(counts, n - 1);
    }
  }

  ghost predicate OneEach(counts: seq<nat>) {
    forall k :: 0 <= k < |counts| ==> counts[k] == 1
  }

  /** As many reports as animations, or more exactly if one of them makes more than one. */
  lemma PendingCounts(pos1: Placing, pos2: Placing, anims: seq<Animation>, spare: bool)
    requires AllOrderly(pos1, pos2, anims)
    ensures |Started(pos1, anims, |anims|, spare).pending| >= |anims|
    ensures |Started(pos1, anims, |anims|, spare).pending| == |anims| <==> OneEach(Counts(pos1, anims, spare))
  {
    var counts := Counts(pos1, anims, spare);
    forall k | 0 <= k < |counts|
      ensures counts[k] >= 1
    {
      EachReports(pos1, pos2, anims, k, spare);
    }
    PendingIsSum(pos1, anims, counts, |anims|, spare);
    SumAtLeast(counts, |anims|);
  }

  /** An animation makes more than one report only on a square that gets both an appearance and a disappearance. */
  lemma MoreThanOne(pos1: Placing, pos2: Placing, slides: seq<Animation>, adds: seq<string>, gone: seq<string>, anims: seq<Animation>, spare: bool, k: nat)
    requires ListBetween(pos1, pos2, slides, adds, gone, anims) && k < |anims|
    ensures Reports(pos1, anims, k, spare) != 1 ==> !spare && !anims[k].Slide? && anims[k].square in adds && anims[k].square in gone
    ensures !spare && anims[k].Appear? && anims[k].square in gone ==> Reports(pos1, anims, k, spare) == 2
  {
    OrderlyAt(pos1, pos2, slides, adds, gone, anims, k);
    BetweenAt(pos1, pos2, slides, adds, gone, k);
    if !anims[k].Slide? {
      var s := anims[k].square;
      AppearedOnAdds(pos1, pos2, slides, adds, gone, k, s);
      SlidFromSources(pos1, pos2, slides, adds, gone, k, s);
      CrossedSquare(Changed(pos1, pos2), Changed(pos2, pos1), slides, adds, gone, s);
      if anims[k].Appear? {
        assert s in adds;
        OnlyOld(pos1, anims, k, spare, s);
      } else {
        assert s in gone;
        if spare || s !in adds {
          OnlyOld(pos1, anims, k, spare, s);
        }
      }
    }
  }

  /** There are at least as many reports as animations, and more exactly if some square gets both an appearance
      and a disappearance and new pieces do not come from the spare pieces. */
  lemma ReportsSuffice(pos1: Placing, pos2: Placing, slides: seq<Animation>, adds: seq<string>, gone: seq<string>, anims: seq<Animation>, spare: bool)
    requires ListBetween(pos1, pos2, slides, adds, gone, anims)
    ensures var pending := Started(pos1, anims, |anims|, spare).pending;
            && |pending| >= |anims|
            && (|pending| == |anims| <==> spare || !Crossed(adds, gone))
  {
    BetweenIsOrderly(pos1, pos2, slides, adds, gone, anims);
    PendingCounts(pos1, pos2, anims, spare);
    OneEachMeans(pos1, pos2, slides, adds, gone, anims, spare);
  }

  lemma OneEachUncrossed(pos1: Placing, pos2: Placing, slides: seq<Animation>, adds: seq<string>, gone: seq<string>, anims: seq<Animation>, spare: bool)
    requires ListBetween(pos1, pos2, slides, adds, gone, anims) && (spare || !Crossed(adds, gone))
    ensures OneEach(Counts(pos1, anims, spare))
  {
    var counts := Counts(pos1, anims, spare);
    forall k | 0 <= k < |counts|
      ensures counts[k] == 1
    {
      MoreThanOne(pos1, pos2, slides, adds, gone, anims, spare, k);
    }
  }

  lemma AppearanceAt(pos1: Placing, pos2: Placing, slides: seq<Animation>, adds: seq<string>, gone: seq<string>, anims: seq<Animation>, i: nat)
    requires ListBetween(pos1, pos2, slides, adds, gone, anims) && i < |adds|
    ensures |slides| + i < |anims| && anims[|slides| + i].Appear? && anims[|slides| + i].square == adds[i]
  {
    BetweenAt(pos1, pos2, slides, adds, gone, |slides| + i);
  }

  lemma NotOneEach(pos: Placing, anims: seq<Animation>, spare: bool, k: nat)
    requires k < |anims| && Reports(pos, anims, k, spare) == 2
    ensures !OneEach(Counts(pos, anims, spare))
  {
    CountAt(pos, anims, spare, k);
  }

  lemma TwiceReported(pos1: Placing, pos2: Placing, slides: seq<Animation>, adds: seq<string>, gone: seq<string>, anims: seq<Animation>, spare: bool, k: nat)
    requires ListBetween(pos1, pos2, slides, adds, gone, anims) && k < |anims|
    requires !spare && anims[k].Appear? && anims[k].square in gone
    ensures Reports(pos1, anims, k, spare) == 2
  {
    MoreThanOne(pos1, pos2, slides, adds, gone, anims, spare, k);
  }

  lemma CrossedAppearance(pos1: Placing, pos2: Placing, slides: seq<Animation>, adds: seq<string>, gone: seq<string>, anims: seq<Animation>) returns (k: nat)
    requires ListBetween(pos1, pos2, slides, adds, gone, anims) && Crossed(adds, gone)
    ensures k < |anims| && anims[k].Appear? && anims[k].square in gone
  {
    var s :| s in adds && s in gone;
    var i :| 0 <= i < |adds| && adds[i] == s;
    AppearanceAt(pos1, pos2, slides, adds, gone, anims, i);
    k := |slides| + i;
  }

  lemma OneEachMeans(pos1: Placing, pos2: Placing, slides: seq<Animation>, adds: seq<string>, gone: seq<string>, anims: seq<Animation>, spare: bool)
    requires ListBetween(pos1, pos2, slides, adds, gone, anims)
    ensures OneEach(Counts(pos1, anims, spare)) <==> spare || !Crossed(adds, gone)
  {
    if spare || !Crossed(adds, gone) {
      OneEachUncrossed(pos1, pos2, slides, adds, gone, anims, spare);
    } else {
      var k := CrossedAppearance(pos1, pos2, slides, adds, gone, anims);
      TwiceReported(pos1, pos2, slides, adds, gone, anims, spare, k);
      NotOneEach(pos1, anims, spare, k);
    }
  }

  lemma CountAt(pos: Placing, anims: seq<Animation>, spare: bool, k: nat)
    requires k < |anims|
    ensures Counts(pos, anims, spare)[k] == Reports(pos, anims, k, spare)
  {
  }

  /** Elements that an appearance fades in although they are visible already; only those may report at once. */
  function AtOnce(pos: Placing, anims: seq<Animation>, spare: bool): (counts: seq<nat>)
    ensures |counts| == |anims|
  {
    seq(|anims|, k requires 0 <= k < |anims| =>
      if anims[k].Appear? && !spare then |On(Started(pos, anims, k, spare).board, anims[k].square)| else 0)
  }

  lemma {:induction false} SumBelow(counts: seq<nat>, n: nat, j: nat)
    requires n <= |counts| && (forall k :: 0 <= k < |counts| ==> counts[k] <= 1) && j < |counts| && counts[j] == 0
    ensures Sum(counts, n) <= if n > j then n - 1 else n
  {
    if n > 0 {
      SumBelow(counts, n - 1, j);
    }
  }

  lemma AtOnceAt(pos1: Placing, pos2: Placing, slides: seq<Animation>, adds: seq<string>, gone: seq<string>, anims: seq<Animation>, spare: bool, k: nat)
    requires ListBetween(pos1, pos2, slides, adds, gone, anims)
    requires k < |anims|
    ensures AtOnce(pos1, anims, spare)[k] <= 1
    ensures gone == [] || anims[k].Vanish? ==>
              AtOnce(pos1, anims, spare)[k] == 0
  {
    MoreThanOne(pos1, pos2, slides, adds, gone, anims, spare, k);
    assert anims[k].Appear? && !spare ==> AtOnce(pos1, anims, spare)[k] == Reports(pos1, anims, k, spare) - 1;
  }

  /** Reports that come at once are fewer than the animations: all have begun before the board is redrawn. */
  lemma AllBeginFirst(pos1: Placing, pos2: Placing, slides: seq<Animation>, adds: seq<string>, gone: seq<string>, anims: seq<Animation>, spare: bool)
    requires ListBetween(pos1, pos2, slides, adds, gone, anims) && pos1 != pos2
    ensures Sum(AtOnce(pos1, anims, spare), |anims|) < |anims|
  {
    var counts, last := AtOnce(pos1, anims, spare), |anims| - 1;
    NothingToDo(pos1, pos2, slides, adds, gone, anims);
    forall k | 0 <= k < |counts|
      ensures counts[k] <= 1
    {
      AtOnceAt(pos1, pos2, slides, adds, gone, anims, spare, k);
    }
    BetweenAt(pos1, pos2, slides, adds, gone, last);
    AtOnceAt(pos1, pos2, slides, adds, gone, anims, spare, last);
    SumBelow(counts, |anims|, last);
  }

  // ------------------------------------------------------------- the redraw

  /** What a report brings belongs to the position. */
  predicate Brings(report: Report, pos: Placing) {
    !report.Faded? ==> report.square in pos && pos[report.square] == report.piece
  }

  lemma {:induction false} PendingBrings(pos1: Placing, pos2: Placing, anims: seq<Animation>, n: nat, spare: bool)
    requires AllOrderly(pos1, pos2, anims) && n <= |anims|
    ensures forall report :: report in Started(pos1, anims, n, spare).pending ==> Brings(report, pos2)
  {
    if n > 0 {
      PendingBrings(pos1, pos2, anims, n - 1, spare);
      assert Orderly(pos1, pos2, anims, n - 1);
    }
  }

  lemma LandedShows(board: Elements, report: Report, pos: Placing)
    requires Shows(board, pos) && Brings(report, pos)
    ensures Shows(Landed(board, report), pos)
  {
  }

  /** The counter passes the number of animations once; from then on the board shows the position. */
  lemma {:induction false} RedrawnOnce(board: Elements, reports: seq<Report>, n: nat, total: nat, target: Placing)
    requires n <= |reports| && forall k :: 0 <= k < |reports| ==> Brings(reports[k], target)
    ensures var play := HeardAll(board, reports, n, total, target);
            && play.finished == n && play.redraws == (if 0 < total <= n then 1 else 0)
            && (0 < total <= n ==> Shows(play.board, target))
  {
    if n > 0 {
      RedrawnOnce(board, reports, n - 1, total, target);
      if n > total > 0 {
        LandedShows(HeardAll(board, reports, n - 1, total, target).board, reports[n - 1], target);
      }
    }
  }

  lemma StillToCome(pending: multiset<Report>, reports: seq<Report>)
    requires multiset(reports) <= pending && |reports| < |pending|
    ensures pending - multiset(reports) != multiset{}
  {
    assert |pending - multiset(reports)| == |pending| - |reports|;
  }

  lemma NothingPending(pending: multiset<Report>, reports: seq<Report>)
    requires multiset(reports) <= pending && pending == multiset{}
    ensures reports == []
  {
    assert |multiset(reports)| == |reports|;
  }

  lemma AllBring(pending: multiset<Report>, reports: seq<Report>, pos: Placing)
    requires multiset(reports) <= pending && forall report :: report in pending ==> Brings(report, pos)
    ensures forall k :: 0 <= k < |reports| ==> Brings(reports[k], pos)
  {
    forall k | 0 <= k < |reports|
      ensures Brings(reports[k], pos)
    {
      assert reports[k] in multiset(reports);
    }
  }

  /** However the effects take turns: as long as the counter has not reached the number of animations, reports are
      still to come; when it has, the board has been redrawn once and shows the new position, and whatever reports
      come after that leave it so. */
  lemma PlayingArrives(pos1: Placing, pos2: Placing, slides: seq<Animation>, adds: seq<string>, gone: seq<string>, anims: seq<Animation>, spare: bool,
                       screen: Screen, reports: seq<Report>)
    requires ListBetween(pos1, pos2, slides, adds, gone, anims)
    requires screen == Started(pos1, anims, |anims|, spare) && multiset(reports) <= screen.pending
    ensures var play := HeardAll(screen.board, reports, |reports|, |anims|, pos2);
            && (|reports| < |anims| ==> screen.pending - multiset(reports) != multiset{})
            && play.redraws == (if pos1 != pos2 && |reports| >= |anims| then 1 else 0)
            && (|reports| >= |anims| ==> Shows(play.board, pos2))
  {
    BetweenIsOrderly(pos1, pos2, slides, adds, gone, anims);
    NothingToDo(pos1, pos2, slides, adds, gone, anims);
    ReportsSuffice(pos1, pos2, slides, adds, gone, anims, spare);
    PendingBrings(pos1, pos2, anims, |anims|, spare);
    AllBring(screen.pending, reports, pos2);
    RedrawnOnce(screen.board, reports, |reports|, |anims|, pos2);
    if |reports| < |anims| {
      StillToCome(screen.pending, reports);
    } else if anims == [] {
      NothingPending(screen.pending, reports);
    }
  }

  lemma TwoAnimations(s: string, was: string, will: string, anims: seq<Animation>)
    requires anims == [Appear(s, will), Vanish(s, was)]
    ensures Started(map[s := was], anims, 2, false).pending == multiset{Faded, Faded, Faded, Faded}
  {
    var pos := map[s := was];
    var none := Started(pos, anims, 0, false);
    assert On(none.board, s) == [was];
    var one := Started(pos, anims, 1, false);
    assert one == Begun(none, anims[0], false) && |On(one.board, s)| == 2;
    assert Started(pos, anims, 2, false) == Begun(one, anims[1], false);
  }

  /** For instance a queen in the place of a pawn: two animations, four reports, and after any two of them the
      board is redrawn. */
  lemma QueenForPawn(slides: seq<Animation>, adds: seq<string>, gone: seq<string>, anims: seq<Animation>)
    requires ListBetween(map["e4" := "wP"], map["e4" := "bQ"], slides, adds, gone, anims)
    ensures anims == [Appear("e4", "bQ"), Vanish("e4", "wP")]
    ensures Started(map["e4" := "wP"], anims, 2, false).pending == multiset{Faded, Faded, Faded, Faded}
  {
    ReplacedPieceCrosses("e4", "wP", "bQ", slides, adds, gone);
    TwoAnimations("e4", "wP", "bQ", anims);
  }
}
