/** What the printed text of a move spells out, character by character, and what its check mark says. */
module Spelling {
  import opened Basics
  import opened Board
  import opened Rules
  import opened Invariant
  import opened Generation
  import opened Play
  import opened San

  // ------------------------------------------------------------ the check mark

  /** The side to move is in check and has no legal move. */
  ghost predicate Mated(p: Position)
    requires Sound(p)
  {
    KingAttacked(p, p.turn) && forall m :: !Legal(p, m)
  }

  ghost predicate JustChecked(p: Position)
    requires Sound(p)
  {
    KingAttacked(p, p.turn) && exists m :: Legal(p, m)
  }

  lemma MarkMeans(p: Position)
    requires Sound(p)
    ensures CheckMark(p) == "#" <==> Mated(p)
    ensures CheckMark(p) == "+" <==> JustChecked(p)
    ensures CheckMark(p) == "" <==> !KingAttacked(p, p.turn)
  {
    LegalMovesExact(p, None);
    if |LegalMoves(p, None)| > 0 {
      assert LegalMoves(p, None)[0] in LegalMoves(p, None);
    }
  }

  predicate Marks(c: char) {
    c == '+' || c == '#'
  }

  predicate NoMarks(text: string) {
    forall i :: 0 <= i < |text| ==> !Marks(text[i])
  }

  lemma StemHasNoMarks(origin: string, m: Move)
    requires OriginLike(origin) && OnBoard(m.from) && OnBoard(m.to)
    ensures NoMarks(Stem(origin, m)) && Stem(origin, m) != ""
  {
    SquareText(m.from);
    SquareText(m.to);
    StemText(origin, m);
    forall i | 0 <= i < |origin|
      ensures !Marks(origin[i])
    {
      assert origin[i] in origin;
    }
  }

  lemma NoMarksConcat(a: string, b: string)
    requires NoMarks(a) && NoMarks(b) && a != ""
    ensures NoMarks(a + b) && a + b != ""
  {
  }

  lemma PromotionHasNoMarks(m: Move)
    ensures NoMarks(if m.promotion.Some? then "=" + Promotion(m) else "")
  {
    if m.promotion.Some? {
      var text := "=" + Promotion(m);
      assert |text| == 2 && text[0] == '=' && !Marks(text[1]);
    }
  }

  lemma UnmarkedHasNoMarks(p: Position, m: Move)
    requires Sound(p) && OnBoard(m.from) && OnBoard(m.to)
    ensures NoMarks(Unmarked(p, m)) && Unmarked(p, m) != ""
  {
    var moves := LegalMoves(p, None);
    OriginTextIsOriginLike(Ambiguous(moves, m), SharesRank(moves, m), SharesFile(moves, m), m.from);
    StemHasNoMarks(Disambiguator(moves, m), m);
    PromotionHasNoMarks(m);
    NoMarksConcat(Stem(Disambiguator(moves, m), m), if m.promotion.Some? then "=" + Promotion(m) else "");
  }

  lemma MarkOccurs(body: string, mark: string, c: char)
    requires NoMarks(body) && body != "" && Marks(c) && (mark == "" || mark == "+" || mark == "#")
    ensures body + mark != "" && (c in body + mark <==> mark == [c]) && ((body + mark)[|body + mark| - 1] == c <==> mark == [c])
  {
  }

  lemma MarkAtEnd(p: Position, m: Move, text: string, q: Position) returns (body: string)
    requires WellFormed(p) && Legal(p, m) && text == MoveToSan(p, m) && Playable(p.board, m, p.turn) && q == Made(p, m)
    ensures WellFormed(q) && NoMarks(body) && body != "" && text == body + CheckMark(q)
  {
    LegalIffWellFormedAfter(p, m);
    UnmarkedHasNoMarks(p, m);
    body := Unmarked(p, m);
  }

  /** The text of a move ends in '#' exactly if it mates and in '+' exactly if it gives check and leaves a legal
      reply; otherwise neither occurs in it. */
  lemma MarkIsRight(p: Position, m: Move, text: string, q: Position)
    requires WellFormed(p) && Legal(p, m) && text == MoveToSan(p, m) && Playable(p.board, m, p.turn) && q == Made(p, m)
    ensures WellFormed(q) && text != ""
    ensures text[|text| - 1] == '#' <==> KingAttacked(q, q.turn) && forall r :: !Legal(q, r)
    ensures text[|text| - 1] == '+' <==> KingAttacked(q, q.turn) && exists r :: Legal(q, r)
    ensures ('#' in text <==> text[|text| - 1] == '#') && ('+' in text <==> text[|text| - 1] == '+')
  {
    var body := MarkAtEnd(p, m, text, q);
    MarkMeans(q);
    MarkOccurs(body, CheckMark(q), '#');
    MarkOccurs(body, CheckMark(q), '+');
  }

  // ------------------------------------------------------------ the parts

  /** A square's name: files a to h from the queen's side on, ranks 1 to 8 from white's side on. */
  function Name(square: int): string
    requires OnBoard(square)
  {
    ['a' + File(square) as char, '8' - Rank(square) as char]
  }

  lemma AlgebraicIsName(square: int)
    requires OnBoard(square)
    ensures Algebraic(square) == Name(square)
  {
    var f, r := File(square), Rank(square);
    assert f == 0 || f == 1 || f == 2 || f == 3 || f == 4 || f == 5 || f == 6 || f == 7;
    assert r == 0 || r == 1 || r == 2 || r == 3 || r == 4 || r == 5 || r == 6 || r == 7;
  }

  /** Another piece of the same kind may go to the same square. */
  ghost predicate Twin(p: Position, m: Move, other: Move)
    requires Sound(p)
  {
    Legal(p, other) && other.piece == m.piece && other.to == m.to && other.from != m.from
  }

  /** A description of an origin: nothing, a file, a rank or both. */
  predicate Describes(text: string, square: int)
    requires OnBoard(square)
  {
    text == "" || text == [Name(square)[0]] || text == [Name(square)[1]] || text == Name(square)
  }

  /** It fits the origin of the move and of no twin. */
  ghost predicate Singles(p: Position, m: Move, text: string)
    requires Sound(p) && OnBoard(m.from)
  {
    Describes(text, m.from) && forall other :: Twin(p, m, other) ==> !(OnBoard(other.from) && Describes(text, other.from))
  }

  lemma RivalsAreTwins(p: Position, m: Move)
    requires Sound(p)
    ensures forall other :: Rival(LegalMoves(p, None), m, other) <==> Twin(p, m, other)
    ensures Ambiguous(LegalMoves(p, None), m) <==> exists other :: Twin(p, m, other)
    ensures SharesFile(LegalMoves(p, None), m) <==> exists other :: Twin(p, m, other) && File(other.from) == File(m.from)
    ensures SharesRank(LegalMoves(p, None), m) <==> exists other :: Twin(p, m, other) && Rank(other.from) == Rank(m.from)
  {
    LegalMovesExact(p, None);
  }

  lemma NamesDiffer(a: int, b: int)
    requires OnBoard(a) && OnBoard(b) && a != b
    ensures Name(a) != Name(b) && Name(a)[0] != Name(b)[1] && Name(a)[1] != Name(b)[0]
    ensures Name(a)[0] == Name(b)[0] <==> File(a) == File(b)
    ensures Name(a)[1] == Name(b)[1] <==> Rank(a) == Rank(b)
  {
  }

  lemma FileSingles(p: Position, m: Move)
    requires Sound(p) && Legal(p, m)
    ensures Singles(p, m, [Name(m.from)[0]]) <==> forall other :: Twin(p, m, other) ==> File(other.from) != File(m.from)
  {
    forall other | Twin(p, m, other)
      ensures OnBoard(other.from) && (Describes([Name(m.from)[0]], other.from) <==> File(other.from) == File(m.from))
    {
      NamesDiffer(m.from, other.from);
    }
  }

  lemma RankSingles(p: Position, m: Move)
    requires Sound(p) && Legal(p, m)
    ensures Singles(p, m, [Name(m.from)[1]]) <==> forall other :: Twin(p, m, other) ==> Rank(other.from) != Rank(m.from)
  {
    forall other | Twin(p, m, other)
      ensures OnBoard(other.from) && (Describes([Name(m.from)[1]], other.from) <==> Rank(other.from) == Rank(m.from))
    {
      NamesDiffer(m.from, other.from);
    }
  }

  lemma NameSingles(p: Position, m: Move)
    requires Sound(p) && Legal(p, m)
    ensures Singles(p, m, Name(m.from))
    ensures Singles(p, m, "") <==> forall other :: !Twin(p, m, other)
  {
    forall other | Twin(p, m, other)
      ensures OnBoard(other.from) && !Describes(Name(m.from), other.from) && Describes("", other.from)
    {
      NamesDiffer(m.from, other.from);
    }
  }

  /** The origin part is a shortest description that singles the move out; of the two short ones the file is
      preferred. */
  lemma OriginIsShortest(p: Position, m: Move, origin: string, text: string)
    requires Sound(p) && Legal(p, m) && origin == Disambiguator(LegalMoves(p, None), m)
    ensures Singles(p, m, origin) && (Singles(p, m, text) ==> |origin| <= |text|)
    ensures |origin| == 1 && Singles(p, m, [Name(m.from)[0]]) ==> origin == [Name(m.from)[0]]
  {
    RivalsAreTwins(p, m);
    AlgebraicIsName(m.from);
    FileSingles(p, m);
    RankSingles(p, m);
    NameSingles(p, m);
  }

  // ------------------------------------------------------------ the whole text

  /** Something is taken exactly if the flag says so. */
  lemma CapturesMeans(p: Position, m: Move)
    requires |p.board| == 128 && PseudoLegal(p, m)
    ensures Captures(m) <==> m.captured.Some?
  {
  }

  /** The letters of a move: castling by its length, a pawn by its file if it captures, its square and what it turns
      into, a piece by its letter, its origin part, 'x' if it captures, and its square. */
  function Spell(m: Move, origin: string): string
    requires OnBoard(m.from) && OnBoard(m.to)
  {
    var takes := if m.captured.Some? then "x" else "";
    if m.flag == KsideCastle then "O-O"
    else if m.flag == QsideCastle then "O-O-O"
    else if m.piece == Pawn then
      (if m.captured.Some? then [Name(m.from)[0]] else "") + takes + Name(m.to)
      + if m.promotion.Some? then "=" + [Letter(m.promotion.value)] else ""
    else [Letter(m.piece)] + origin + takes + Name(m.to)
  }

  lemma StemSpelled(m: Move, origin: string)
    requires OnBoard(m.from) && OnBoard(m.to) && (Captures(m) <==> m.captured.Some?)
    requires m.promotion.Some? ==> m.piece == Pawn && !Castling(m)
    ensures Stem(origin, m) + (if m.promotion.Some? then "=" + Promotion(m) else "") == Spell(m, origin)
  {
    AlgebraicIsName(m.from);
    AlgebraicIsName(m.to);
    var stem := Stem(origin, m);
    if m.promotion.None? {
      assert stem + "" == stem;
    }
  }

  lemma OnlyPawnsPromote(p: Position, m: Move)
    requires |p.board| == 128 && PseudoLegal(p, m) && m.promotion.Some?
    ensures m.piece == Pawn && !Castling(m)
  {
  }

  lemma UnmarkedSpelled(p: Position, m: Move)
    requires Sound(p) && Legal(p, m)
    ensures Unmarked(p, m) == Spell(m, Disambiguator(LegalMoves(p, None), m))
  {
    CapturesMeans(p, m);
    if m.promotion.Some? {
      OnlyPawnsPromote(p, m);
    }
    StemSpelled(m, Disambiguator(LegalMoves(p, None), m));
  }

  /** A description that fits the origin of the move and of no twin, and than which no such is shorter. */
  ghost predicate Shortest(p: Position, m: Move, origin: string)
    requires Sound(p) && OnBoard(m.from)
  {
    Singles(p, m, origin) && forall text :: Singles(p, m, text) ==> |origin| <= |text|
  }

  lemma DisambiguatorIsShortest(p: Position, m: Move)
    requires Sound(p) && Legal(p, m)
    ensures Shortest(p, m, Disambiguator(LegalMoves(p, None), m))
  {
    var origin := Disambiguator(LegalMoves(p, None), m);
    forall text | Singles(p, m, text)
      ensures |origin| <= |text|
    {
      OriginIsShortest(p, m, origin, text);
    }
    OriginIsShortest(p, m, origin, "");
  }

  /** The text of a move is these letters, with a shortest origin that singles it out, and then the mark. */
  lemma Spelled(p: Position, m: Move) returns (origin: string, mark: string)
    requires WellFormed(p) && Legal(p, m)
    ensures Shortest(p, m, origin) && (mark == "" || mark == "+" || mark == "#")
    ensures MoveToSan(p, m) == Spell(m, origin) + mark
  {
    LegalIffWellFormedAfter(p, m);
    origin, mark := Disambiguator(LegalMoves(p, None), m), CheckMark(Made(p, m));
    DisambiguatorIsShortest(p, m);
    UnmarkedSpelled(p, m);
  }
}
