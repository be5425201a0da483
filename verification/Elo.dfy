/** Elo arithmetic over the reals, with the power of ten left abstract. */
module Elo {
  const BASE_SCORE := 1000

  datatype Level = Pawn | Knight | Bishop | Rook | Queen | King

  function LevelOf(score: int): Level {
    if score <= 1200 then Pawn
    else if score <= 1400 then Knight
    else if score <= 1600 then Bishop
    else if score <= 1800 then Rook
    else if score <= 2000 then Queen
    else King
  }

  function KFactor(score: int): int {
    match LevelOf(score)
    case Pawn => 32
    case Knight => 32
    case Bishop => 24
    case Rook => 24
    case Queen => 16
    case King => 16
  }

  /** By score: 32 for pawns and knights, 24 for bishops and rooks, 16 above; it never rises with the score. */
  lemma KFactorFalls(s: int, t: int)
    ensures KFactor(s) == if s <= 1400 then 32 else if s <= 1800 then 24 else 16
    ensures s <= t ==> KFactor(s) >= KFactor(t)
  {
  }

  ghost predicate Inverts(pw: real -> real) {
    (forall x :: pw(x) > 0.0) && (forall x :: AreInverse(pw(x), pw(-x)))
  }

  ghost predicate AreInverse(a: real, b: real) {
    a * b == 1.0
  }

  ghost predicate Grows(pw: real -> real) {
    forall x, y :: x < y ==> pw(x) < pw(y)
  }

  /** What is assumed of the power function x -> 10^x. */
  ghost predicate PowerLike(pw: real -> real) {
    Inverts(pw) && Grows(pw)
  }

  function Clamped(score: int): int {
    if score < BASE_SCORE then BASE_SCORE else score
  }

  function Expected(pw: real -> real, s1: int, s2: int): real
    requires PowerLike(pw)
  {
    1.0 / (1.0 + pw((s2 - s1) as real / 400.0))
  }

  /** The new rating before the floor and the truncation. */
  function Unrounded(pw: real -> real, s1: int, s2: int, score: real): real
    requires PowerLike(pw)
  {
    s1 as real + KFactor(s1) as real * (score - Expected(pw, s1, s2))
  }

  /** The rating of the first player after a game scored 1, 1/2 or 0. */
  function NewRating(pw: real -> real, s1: int, s2: int, score: real): int
    requires PowerLike(pw)
  {
    var x := Unrounded(pw, Clamped(s1), Clamped(s2), score);
    if x < BASE_SCORE as real then BASE_SCORE else x.Floor
  }

  /** The two expected scores are between 0 and 1 and add up to 1. */
  lemma ExpectedIsFair(pw: real -> real, s1: int, s2: int)
    requires PowerLike(pw)
    ensures 0.0 < Expected(pw, s1, s2) < 1.0
    ensures Expected(pw, s1, s2) + Expected(pw, s2, s1) == 1.0
  {
    var x := (s2 - s1) as real / 400.0;
    assert (s1 - s2) as real / 400.0 == -x;
    assert AreInverse(pw(x), pw(-x)) && AreInverse(pw(-x), pw(x));
    InverseShares(pw(x), pw(-x));
  }

  lemma InverseShares(p: real, q: real)
    requires p > 0.0 && q > 0.0 && p * q == 1.0
    ensures 0.0 < 1.0 / (1.0 + p) < 1.0
    ensures 1.0 / (1.0 + p) + 1.0 / (1.0 + q) == 1.0
  {
    var a, b := 1.0 / (1.0 + p), 1.0 / (1.0 + q);
    assert a * (1.0 + p) == 1.0 && b * (1.0 + q) == 1.0;
    calc {
      (1.0 + p) * (1.0 + q);
      1.0 + p + q + p * q;
      (1.0 + p) + (1.0 + q);
    }
    calc {
      (a + b) * ((1.0 + p) * (1.0 + q));
      (a * (1.0 + p)) * (1.0 + q) + (b * (1.0 + q)) * (1.0 + p);
      (1.0 + q) + (1.0 + p);
      1.0 * ((1.0 + p) * (1.0 + q));
    }
    SameFactor(a + b, 1.0, (1.0 + p) * (1.0 + q));
  }

  lemma SameFactor(a: real, b: real, c: real)
    requires c > 0.0 && a * c == b * c
    ensures a == b
  {
    assert (a - b) * c == 0.0;
  }

  /** A win never lowers a rating and a loss never raises it; neither moves it by more than the K-factor,
      and no game takes it below the floor. */
  lemma RatingsMoveTheRightWay(pw: real -> real, s1: int, s2: int)
    requires PowerLike(pw)
    ensures Clamped(s1) <= NewRating(pw, s1, s2, 1.0) <= Clamped(s1) + KFactor(Clamped(s1))
    ensures BASE_SCORE <= NewRating(pw, s1, s2, 0.0) <= Clamped(s1)
    ensures NewRating(pw, s1, s2, 0.0) >= Clamped(s1) - KFactor(Clamped(s1))
    ensures BASE_SCORE <= NewRating(pw, s1, s2, 0.5)
  {
    var a, b := Clamped(s1), Clamped(s2);
    ExpectedIsFair(pw, a, b);
    var k, e := KFactor(a) as real, Expected(pw, a, b);
    assert 0.0 < k * e < k by { Scaled(k, e); }
    assert k * (1.0 - e) == k - k * e;
    assert k * (0.0 - e) == -(k * e);
  }

  lemma ShareShrinks(p: real, q: real)
    requires 0.0 < p < q
    ensures 1.0 / (1.0 + q) < 1.0 / (1.0 + p)
  {
    InverseShrinks(1.0 + p, 1.0 + q);
  }

  /** The expected score depends on the difference alone, and strictly grows with it. */
  lemma ExpectedGrows(pw: real -> real, s1: int, s2: int, t1: int, t2: int)
    requires PowerLike(pw)
    ensures Expected(pw, s1, s2) < Expected(pw, t1, t2) <==> s1 - s2 < t1 - t2
  {
    var x, y := (s2 - s1) as real / 400.0, (t2 - t1) as real / 400.0;
    if s1 - s2 < t1 - t2 {
      assert y < x && pw(y) < pw(x);
      ShareShrinks(pw(y), pw(x));
    } else if t1 - t2 < s1 - s2 {
      assert x < y && pw(x) < pw(y);
      ShareShrinks(pw(x), pw(y));
    }
  }

  /** Every 400 points are one step of the power: equal players expect a half, and someone behind by n times 400
      points expects 1 against the n-th power. */
  lemma FourHundredPoints(pw: real -> real, s: int, n: int)
    requires PowerLike(pw)
    ensures Expected(pw, s, s + 400 * n) == 1.0 / (1.0 + pw(n as real))
    ensures Expected(pw, s, s) == 0.5
  {
    assert (400 * n) as real / 400.0 == n as real;
    var one := pw(0.0);
    assert AreInverse(pw(0.0), pw(-0.0)) && -0.0 == 0.0;
    if one < 1.0 {
      Products(one, 1.0, one, 1.0);
      assert false;
    } else if one > 1.0 {
      Products(1.0, one, 1.0, one);
      assert false;
    }
  }

  /** Between equals a win brings half the K-factor, a loss costs as much unless it meets the floor, and a draw
      changes nothing. */
  lemma AmongEquals(pw: real -> real, s: int)
    requires PowerLike(pw) && s >= BASE_SCORE
    ensures NewRating(pw, s, s, 1.0) == s + KFactor(s) / 2
    ensures NewRating(pw, s, s, 0.5) == s
    ensures NewRating(pw, s, s, 0.0) == if s - KFactor(s) / 2 < BASE_SCORE then BASE_SCORE else s - KFactor(s) / 2
  {
    FourHundredPoints(pw, s, 0);
    var half := KFactor(s) / 2;
    assert KFactor(s) as real * 0.5 == half as real && KFactor(s) as real * (0.0 - 0.5) == -(half as real);
    assert KFactor(s) as real * (1.0 - 0.5) == half as real && KFactor(s) as real * (0.5 - 0.5) == 0.0;
  }

  lemma Scaled(k: real, e: real)
    requires k > 0.0 && 0.0 < e < 1.0
    ensures 0.0 < k * e < k
  {
  }

  lemma HalfOrMore(p: real)
    requires p > 0.0
    ensures 1.0 / (1.0 + p) >= 0.5 <==> p <= 1.0
  {
    var a := 1.0 / (1.0 + p);
    assert a * (1.0 + p) == 1.0;
    if p <= 1.0 {
      if a < 0.5 {
        Products(a, 0.5, 1.0 + p, 2.0);
        assert false;
      }
    } else if a >= 0.5 {
      Products(0.5, a, 2.0, 1.0 + p);
      assert false;
    }
  }

  lemma Products(a: real, b: real, c: real, d: real)
    requires 0.0 < a <= b && 0.0 < c <= d && (a < b || c < d)
    ensures a * c < b * d
  {
    assert a * c <= b * c && b * c <= b * d;
    assert a < b ==> a * c < b * c;
    assert c < d ==> b * c < b * d;
  }

  /** A draw never lowers the weaker player and never raises the stronger one. */
  lemma DrawFavoursTheWeaker(pw: real -> real, s1: int, s2: int)
    requires PowerLike(pw) && BASE_SCORE <= s1 <= s2
    ensures NewRating(pw, s1, s2, 0.5) >= s1
    ensures NewRating(pw, s2, s1, 0.5) <= s2
  {
    ExpectedIsFair(pw, s1, s2);
    var x := (s1 - s2) as real / 400.0;
    PowerAtMostOne(pw, x);
    HalfOrMore(pw(x));
    var e2 := Expected(pw, s2, s1);
    assert e2 >= 0.5;
    var k1, k2 := KFactor(s1) as real, KFactor(s2) as real;
    assert k1 * (0.5 - Expected(pw, s1, s2)) >= 0.0;
    assert k2 * (0.5 - e2) <= 0.0;
  }

  lemma PowerAtMostOne(pw: real -> real, x: real)
    requires PowerLike(pw) && x <= 0.0
    ensures pw(x) <= 1.0
  {
    assert AreInverse(pw(x), pw(-x));
    if x < 0.0 {
      assert x < -x && pw(x) < pw(-x);
    } else {
      assert x == -x;
    }
    if pw(x) > 1.0 {
      Products(1.0, pw(x), 1.0, pw(-x));
      assert false;
    }
  }

  lemma FloorsOfSum(x: real, y: real, n: int)
    requires x + y == n as real
    ensures x.Floor + y.Floor == if x.Floor as real == x then n else n - 1
  {
    var a, b := x.Floor, y.Floor;
    assert a as real <= x < a as real + 1.0 && b as real <= y < b as real + 1.0;
    assert (a + b) as real <= n as real < (a + b) as real + 2.0;
    if a as real == x {
      assert y == (n - a) as real;
    }
  }

  /** With equal K-factors and no floor, a game creates no points: the two changes sum to 0 when the exact
      ratings are whole numbers, and otherwise to -1, which is what truncation takes. */
  lemma ChangesBalance(pw: real -> real, s1: int, s2: int, score: real)
    requires PowerLike(pw) && BASE_SCORE <= s1 && BASE_SCORE <= s2
    requires KFactor(s1) == KFactor(s2)
    requires Unrounded(pw, s1, s2, score) >= BASE_SCORE as real && Unrounded(pw, s2, s1, 1.0 - score) >= BASE_SCORE as real
    ensures (NewRating(pw, s1, s2, score) - s1) + (NewRating(pw, s2, s1, 1.0 - score) - s2)
            == if Unrounded(pw, s1, s2, score).Floor as real == Unrounded(pw, s1, s2, score) then 0 else -1
  {
    ExpectedIsFair(pw, s1, s2);
    var k, e1, e2 := KFactor(s1) as real, Expected(pw, s1, s2), Expected(pw, s2, s1);
    assert k * (score - e1) + k * (1.0 - score - e2) == k * (1.0 - e1 - e2) == 0.0;
    FloorsOfSum(Unrounded(pw, s1, s2, score), Unrounded(pw, s2, s1, 1.0 - score), s1 + s2);
  }

  /** A function as assumed of the power, so that what is proved is about something. */
  function SamplePower(x: real): real {
    if x >= 0.0 then 1.0 + x else 1.0 / (1.0 - x)
  }

  lemma Inverse(x: real)
    requires x > 0.0
    ensures 1.0 / x > 0.0 && x * (1.0 / x) == 1.0
  {
  }

  lemma InverseShrinks(x: real, y: real)
    requires 0.0 < x < y
    ensures 1.0 / y < 1.0 / x
  {
    Inverse(x);
    Inverse(y);
    if 1.0 / y >= 1.0 / x {
      Products(1.0 / x, 1.0 / y, x, y);
      assert false;
    }
  }

  lemma SampleInverse(x: real)
    ensures SamplePower(x) > 0.0 && AreInverse(SamplePower(x), SamplePower(-x))
  {
    Inverse(if x >= 0.0 then 1.0 + x else 1.0 - x);
  }

  lemma SampleInverts()
    ensures Inverts(SamplePower)
  {
    forall x: real
      ensures SamplePower(x) > 0.0 && AreInverse(SamplePower(x), SamplePower(-x))
    {
      SampleInverse(x);
    }
  }

  lemma SampleGrows()
    ensures Grows(SamplePower)
  {
    forall x: real, y: real | x < y
      ensures SamplePower(x) < SamplePower(y)
    {
      if y < 0.0 {
        InverseShrinks(1.0 - y, 1.0 - x);
      } else if x < 0.0 {
        InverseShrinks(1.0, 1.0 - x);
      }
    }
  }

  lemma SomePower()
    ensures PowerLike(SamplePower)
  {
    SampleInverts();
    SampleGrows();
  }
}
