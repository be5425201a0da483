/** Positions in which neither side can mate: what the engine counts, and what the counts mean. */
module Material {
  import opened Board
  import opened Rules

  /** The squares below n that hold a piece. */
  function MenBelow(board: seq<Cell>, n: nat): set<int>
    requires |board| == 128 && n <= 128
  {
    set i | 0 <= i < n && OnBoard(i) && board[i].Full?
  }

  function KindBelow(board: seq<Cell>, kind: Kind, n: nat): set<int>
    requires |board| == 128 && n <= 128
  {
    set i | 0 <= i < n && OnBoard(i) && board[i].Full? && board[i].piece.kind == kind
  }

  function Men(board: seq<Cell>): set<int>
    requires |board| == 128
  {
    MenBelow(board, 128)
  }

  function OfKind(board: seq<Cell>, kind: Kind): set<int>
    requires |board| == 128
  {
    KindBelow(board, kind, 128)
  }

  /** 1 on the squares of one shade, 0 on those of the other. */
  function Shade(square: int): int {
    (Rank(square) + File(square) + 1) % 2
  }

  predicate OneShade(squares: set<int>) {
    forall i, j :: i in squares && j in squares ==> Shade(i) == Shade(j)
  }

  /** The three counting tests of the engine. */
  predicate Insufficient(board: seq<Cell>)
    requires |board| == 128
  {
    var men, bishops, knights := |Men(board)|, |OfKind(board, Bishop)|, |OfKind(board, Knight)|;
    || men == 2
    || (men == 3 && (bishops == 1 || knights == 1))
    || (bishops > 0 && men == bishops + 2 && OneShade(OfKind(board, Bishop)))
  }

  /** What the tests mean when each side has its king: besides the kings there is nothing, or one knight,
      or only bishops on squares of one shade. */
  lemma InsufficientMeans(board: seq<Cell>, kings: Pair<int>)
    requires |board| == 128 && KingsFound(board, kings)
    ensures var others := Men(board) - {kings.white, kings.black};
            Insufficient(board) <==>
            || others == {}
            || (|others| == 1 && others == OfKind(board, Knight))
            || (others == OfKind(board, Bishop) && OneShade(others))
  {
    var men, bishops, knights := Men(board), OfKind(board, Bishop), OfKind(board, Knight);
    var others := men - {kings.white, kings.black};
    assert board[kings.white].Has(King, White) && board[kings.black].Has(King, Black);
    assert kings.white in men && kings.black in men;
    assert {kings.white, kings.black} <= men;
    assert |others| == |men| - |{kings.white, kings.black}| == |men| - 2;
    assert bishops <= others && knights <= others;
    SubsetSize(bishops, others);
    SubsetSize(knights, others);
    if |bishops| == 1 {
      SingletonShade(bishops);
    }
  }

  lemma SubsetSize(a: set<int>, b: set<int>)
    requires a <= b
    ensures |a| <= |b| && (|a| == |b| <==> a == b)
  {
    assert b == a + (b - a);
    assert |b| == |a| + |b - a|;
  }

  lemma SingletonShade(squares: set<int>)
    requires |squares| == 1
    ensures OneShade(squares)
  {
    forall i, j | i in squares && j in squares
      ensures i == j
    {
      SubsetSize({i}, squares);
    }
  }

  // ------------------------------------------------------- counting by a scan

  ghost predicate KindsCounted(board: seq<Cell>, n: nat, pieces: map<Kind, nat>)
    requires |board| == 128 && n <= 128
  {
    forall kind :: (if kind in pieces then pieces[kind] else 0) == |KindBelow(board, kind, n)|
  }

  ghost predicate ShadesListed(board: seq<Cell>, n: nat, shades: seq<int>)
    requires |board| == 128 && n <= 128
  {
    forall v :: v in shades <==> exists s :: s in KindBelow(board, Bishop, n) && Shade(s) == v
  }

  /** What a scan of the squares below n has counted. */
  ghost predicate Scanned(board: seq<Cell>, n: nat, pieces: map<Kind, nat>, shades: seq<int>, count: nat)
    requires |board| == 128 && n <= 128
  {
    count == |MenBelow(board, n)| && KindsCounted(board, n, pieces) && ShadesListed(board, n, shades)
  }

  lemma MenStep(board: seq<Cell>, n: nat)
    requires |board| == 128 && n < 128 && OnBoard(n)
    ensures |MenBelow(board, n + 1)| == |MenBelow(board, n)| + if board[n].Full? then 1 else 0
  {
    assert MenBelow(board, n + 1) == MenBelow(board, n) + if board[n].Full? then {n} else {};
  }

  lemma KindStep(board: seq<Cell>, n: nat, kind: Kind)
    requires |board| == 128 && n < 128 && OnBoard(n)
    ensures var here := board[n].Full? && board[n].piece.kind == kind;
            && KindBelow(board, kind, n + 1) == KindBelow(board, kind, n) + (if here then {n} else {})
            && |KindBelow(board, kind, n + 1)| == |KindBelow(board, kind, n)| + if here then 1 else 0
  {
  }

  function OneMore(pieces: map<Kind, nat>, kind: Kind): map<Kind, nat> {
    pieces[kind := if kind in pieces then pieces[kind] + 1 else 1]
  }

  lemma KindsStep(board: seq<Cell>, n: nat, pieces: map<Kind, nat>)
    requires |board| == 128 && n < 128 && OnBoard(n) && KindsCounted(board, n, pieces)
    ensures KindsCounted(board, n + 1, if board[n].Full? then OneMore(pieces, board[n].piece.kind) else pieces)
  {
    forall kind
      ensures |KindBelow(board, kind, n + 1)|
              == |KindBelow(board, kind, n)| + if board[n].Full? && board[n].piece.kind == kind then 1 else 0
    {
      KindStep(board, n, kind);
    }
  }

  lemma ShadesStep(board: seq<Cell>, n: nat, shades: seq<int>)
    requires |board| == 128 && n < 128 && OnBoard(n) && ShadesListed(board, n, shades)
    ensures ShadesListed(board, n + 1,
                         if board[n].Full? && board[n].piece.kind == Bishop then shades + [Shade(n)] else shades)
  {
    KindStep(board, n, Bishop);
    if board[n].Full? && board[n].piece.kind == Bishop {
      assert n in KindBelow(board, Bishop, n + 1);
      forall v
        ensures v in shades + [Shade(n)] <==> exists s :: s in KindBelow(board, Bishop, n + 1) && Shade(s) == v
      {
        if v in shades {
          var s :| s in KindBelow(board, Bishop, n) && Shade(s) == v;
          assert s in KindBelow(board, Bishop, n + 1);
        }
      }
    } else {
      assert KindBelow(board, Bishop, n + 1) == KindBelow(board, Bishop, n);
    }
  }

  /** How the shade flips along the scan. */
  lemma ShadeAlternates(i: int)
    requires 0 <= i <= 119 && i % 16 <= 8
    ensures var shade := (i / 16 + i % 16) % 2;
            && (OnBoard(i) ==> (shade + 1) % 2 == Shade(i) == ((i + 1) / 16 + (i + 1) % 16) % 2)
            && (!OnBoard(i) ==> (shade + 1) % 2 == ((i + 8) / 16 + (i + 8) % 16) % 2)
  {
    var row, column := i / 16, i % 16;
    assert i == 16 * row + column;
    if column < 8 {
      assert (i + 1) / 16 == row && (i + 1) % 16 == column + 1;
    } else {
      assert (i + 8) / 16 == row + 1 && (i + 8) % 16 == 0;
    }
  }

  lemma ScanPiece(board: seq<Cell>, n: nat, pieces: map<Kind, nat>, shades: seq<int>, count: nat)
    requires |board| == 128 && n < 128 && OnBoard(n) && Scanned(board, n, pieces, shades, count)
    ensures board[n].Empty? ==> Scanned(board, n + 1, pieces, shades, count)
    ensures board[n].Full? ==>
              var kind := board[n].piece.kind;
              Scanned(board, n + 1, OneMore(pieces, kind), if kind == Bishop then shades + [Shade(n)] else shades, count + 1)
  {
    MenStep(board, n);
    KindsStep(board, n, pieces);
    ShadesStep(board, n, shades);
  }

  lemma ScanGap(board: seq<Cell>, n: nat, pieces: map<Kind, nat>, shades: seq<int>, count: nat)
    requires |board| == 128 && n + 8 <= 128 && n % 16 == 8 && Scanned(board, n, pieces, shades, count)
    ensures Scanned(board, n + 8, pieces, shades, count)
  {
    assert forall i :: n <= i < n + 8 ==> !OnBoard(i);
    assert MenBelow(board, n + 8) == MenBelow(board, n);
    assert forall kind :: KindBelow(board, kind, n + 8) == KindBelow(board, kind, n);
  }

  function Sum(values: seq<int>): int {
    if values == [] then 0 else Sum(values[..|values| - 1]) + values[|values| - 1]
  }

  /** A sum of zeros and ones is extreme exactly when they are all the same. */
  lemma {:induction false} ExtremeSum(values: seq<int>)
    requires forall v :: v in values ==> v == 0 || v == 1
    ensures 0 <= Sum(values) <= |values|
    ensures Sum(values) == 0 <==> 1 !in values
    ensures Sum(values) == |values| <==> 0 !in values
  {
    if values != [] {
      var front, last := values[..|values| - 1], values[|values| - 1];
      assert values == front + [last];
      assert last in values && forall v :: v in front ==> v in values;
      ExtremeSum(front);
    }
  }

  lemma ShadesTellOneShade(board: seq<Cell>, shades: seq<int>)
    requires |board| == 128
    requires ShadesListed(board, 128, shades)
    ensures Sum(shades) == 0 || Sum(shades) == |shades| <==> OneShade(OfKind(board, Bishop))
  {
    var bishops := OfKind(board, Bishop);
    forall v | v in shades
      ensures v == 0 || v == 1
    {
      var s :| s in bishops && Shade(s) == v;
    }
    ExtremeSum(shades);
    if 0 in shades && 1 in shades {
      var i :| i in bishops && Shade(i) == 0;
      var j :| j in bishops && Shade(j) == 1;
    } else {
      forall i, j | i in bishops && j in bishops
        ensures Shade(i) == Shade(j)
      {
        assert Shade(i) in shades && Shade(j) in shades;
      }
    }
  }
}
