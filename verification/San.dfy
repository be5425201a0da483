/** Standard Algebraic Notation: writing a move, and finding the one move a text denotes. */
module San {
  import opened Basics
  import opened Board
  import opened Rules
  import opened Invariant
  import opened Generation
  import opened Distinctness
  import opened Replay
  import opened Play

  const FILES := "abcdefgh"
  const RANKS := "87654321"

  function Algebraic(square: int): (r: string)
    requires OnBoard(square)
    ensures |r| == 2
  {
    [FILES[File(square)], RANKS[Rank(square)]]
  }

  function Letter(kind: Kind): char {
    match kind
    case Pawn => 'P'
    case Knight => 'N'
    case Bishop => 'B'
    case Rook => 'R'
    case Queen => 'Q'
    case King => 'K'
  }

  // ------------------------------------------------------------ the printer

  /** Another move of the list, by the same kind of piece to the same square. */
  predicate Rival(moves: seq<Move>, m: Move, other: Move) {
    other in moves && other.piece == m.piece && other.from != m.from && other.to == m.to
  }

  predicate Ambiguous(moves: seq<Move>, m: Move) {
    exists other :: other in moves && Rival(moves, m, other)
  }

  predicate SharesRank(moves: seq<Move>, m: Move) {
    exists other :: other in moves && Rival(moves, m, other) && Rank(other.from) == Rank(m.from)
  }

  predicate SharesFile(moves: seq<Move>, m: Move) {
    exists other :: other in moves && Rival(moves, m, other) && File(other.from) == File(m.from)
  }

  /** The origin square, its rank digit or its file letter, whatever is needed. */
  function OriginText(ambiguous: bool, sharesRank: bool, sharesFile: bool, from: int): string
    requires OnBoard(from)
  {
    if !ambiguous then ""
    else if sharesRank && sharesFile then Algebraic(from)
    else if sharesFile then [Algebraic(from)[1]]
    else [Algebraic(from)[0]]
  }

  function Disambiguator(moves: seq<Move>, m: Move): string
    requires OnBoard(m.from)
  {
    OriginText(Ambiguous(moves, m), SharesRank(moves, m), SharesFile(moves, m), m.from)
  }

  predicate Captures(m: Move) {
    m.flag == Capture || m.flag == EpCapture
  }

  function CaptureMark(m: Move): string
    requires OnBoard(m.from)
  {
    if !Captures(m) then "" else if m.piece == Pawn then [Algebraic(m.from)[0], 'x'] else "x"
  }

  /** Piece letter, disambiguator, capture mark and destination. */
  function Stem(origin: string, m: Move): string
    requires OnBoard(m.from) && OnBoard(m.to)
  {
    match m.flag
    case KsideCastle => "O-O"
    case QsideCastle => "O-O-O"
    case _ => (if m.piece == Pawn then "" else [Letter(m.piece)] + origin) + CaptureMark(m) + Algebraic(m.to)
  }

  function Promotion(m: Move): string {
    if m.promotion.Some? then [Letter(m.promotion.value)] else ""
  }

  /** The text of a move up to its check mark. */
  ghost function Unmarked(p: Position, m: Move): string
    requires Sound(p) && OnBoard(m.from) && OnBoard(m.to)
  {
    Stem(Disambiguator(LegalMoves(p, None), m), m) + if m.promotion.Some? then "=" + Promotion(m) else ""
  }

  ghost predicate InCheck(p: Position)
    requires Sound(p)
  {
    KingAttacked(p, p.turn)
  }

  ghost function CheckMark(p: Position): string
    requires Sound(p)
  {
    if !InCheck(p) then "" else if |LegalMoves(p, None)| == 0 then "#" else "+"
  }

  ghost function MoveToSan(p: Position, m: Move): string
    requires WellFormed(p) && Legal(p, m)
  {
    LegalIffWellFormedAfter(p, m);
    Unmarked(p, m) + CheckMark(Made(p, m))
  }

  // ------------------------------------------------------------- the parser

  function RemoveFirst(text: string, c: char): string {
    if text == "" then "" else if text[0] == c then text[1..] else [text[0]] + RemoveFirst(text[1..], c)
  }

  predicate Glyphs(text: string) {
    forall i :: 0 <= i < |text| ==> text[i] == '?' || text[i] == '!'
  }

  /** The pattern `[+#]?[?!]*` over a whole text. */
  predicate Decoration(text: string) {
    Glyphs(text) || (text != "" && (text[0] == '+' || text[0] == '#') && Glyphs(text[1..]))
  }

  /** The text before the leftmost place from which only decoration follows. */
  function StripDecoration(text: string): string {
    if Decoration(text) then "" else [text[0]] + StripDecoration(text[1..])
  }

  function StrippedSan(text: string): string {
    StripDecoration(RemoveFirst(text, '='))
  }

  /** The first move of the list whose stripped text is the given one. */
  ghost function FirstNamed(p: Position, ms: seq<Move>, clean: string): Found<Move>
    requires WellFormed(p) && forall m :: m in ms ==> Legal(p, m)
  {
    if ms == [] then Missing
    else if StrippedSan(MoveToSan(p, ms[0])) == clean then Found(ms[0])
    else FirstNamed(p, ms[1..], clean)
  }

  lemma FirstNamedNext(p: Position, ms: seq<Move>, clean: string, i: nat)
    requires WellFormed(p) && i < |ms| && forall m :: m in ms ==> Legal(p, m)
    ensures FirstNamed(p, ms[i..], clean)
            == if StrippedSan(MoveToSan(p, ms[i])) == clean then Found(ms[i]) else FirstNamed(p, ms[i + 1..], clean)
  {
    assert ms[i..][0] == ms[i] && ms[i..][1..] == ms[i + 1..];
  }

  ghost function MoveFromSan(p: Position, text: string): Found<Move>
    requires WellFormed(p)
  {
    LegalMovesExact(p, None);
    FirstNamed(p, LegalMoves(p, None), StrippedSan(text))
  }

  // ------------------------------------------------- stripping what was printed

  lemma {:induction false} RemoveAbsent(a: string, c: char)
    requires c !in a
    ensures RemoveFirst(a, c) == a
  {
    if a != "" {
      RemoveAbsent(a[1..], c);
    }
  }

  lemma RemoveHead(head: char, tail: string, c: char)
    ensures RemoveFirst([head] + tail, c) == if head == c then tail else [head] + RemoveFirst(tail, c)
  {
    assert ([head] + tail)[1..] == tail;
  }

  lemma {:induction false} RemoveBeyond(a: string, rest: string, c: char)
    requires c !in a
    ensures RemoveFirst(a + rest, c) == a + RemoveFirst(rest, c)
  {
    if a == "" {
      assert a + rest == rest;
    } else {
      RemoveBeyond(a[1..], rest, c);
      HeadApart(a, rest);
      RemoveHead(a[0], a[1..] + rest, c);
      HeadApart(a, RemoveFirst(rest, c));
    }
  }

  lemma RemovePresent(a: string, b: string, c: char)
    requires c !in a
    ensures RemoveFirst(a + [c] + b, c) == a + b
  {
    RemoveBeyond(a, [c] + b, c);
    RemoveHead(c, b, c);
    assert a + [c] + b == a + ([c] + b);
  }

  predicate Plain(c: char) {
    c != '+' && c != '#' && c != '?' && c != '!' && c != '='
  }

  lemma {:induction false} StripAfterPlain(body: string, tail: string)
    requires body != "" && Plain(body[|body| - 1]) && Decoration(tail)
    ensures StripDecoration(body + tail) == body
    decreases |body|
  {
    assert (body + tail)[0] == body[0];
    assert (body + tail)[|body| - 1] == body[|body| - 1];
    assert !Decoration(body + tail) by {
      if |body| > 1 {
        assert (body + tail)[1..][|body| - 2] == body[|body| - 1];
      }
    }
    assert (body + tail)[1..] == body[1..] + tail;
    if |body| > 1 {
      StripAfterPlain(body[1..], tail);
    } else {
      assert body[1..] + tail == tail;
    }
  }

  /** Files and ranks are printed as letters and digits, so none of the text marks occurs among them. */
  lemma SquareText(square: int)
    requires OnBoard(square)
    ensures 'a' <= Algebraic(square)[0] <= 'h' && '1' <= Algebraic(square)[1] <= '8'
  {
  }

  lemma SquareTextInjective(a: int, b: int)
    requires OnBoard(a) && OnBoard(b)
    ensures Algebraic(a)[0] == Algebraic(b)[0] ==> File(a) == File(b)
    ensures Algebraic(a)[1] == Algebraic(b)[1] ==> Rank(a) == Rank(b)
    ensures Algebraic(a) == Algebraic(b) ==> a == b
  {
    assert Algebraic(a)[0] == FILES[File(a)] && Algebraic(b)[0] == FILES[File(b)];
    assert Algebraic(a)[1] == RANKS[Rank(a)] && Algebraic(b)[1] == RANKS[Rank(b)];
  }

  predicate OriginLike(text: string) {
    |text| <= 2 && forall c :: c in text ==> 'a' <= c <= 'h' || '1' <= c <= '8'
  }

  lemma OriginTextIsOriginLike(ambiguous: bool, sharesRank: bool, sharesFile: bool, from: int)
    requires OnBoard(from)
    ensures OriginLike(OriginText(ambiguous, sharesRank, sharesFile, from))
  {
    SquareText(from);
    assert Algebraic(from) == [Algebraic(from)[0], Algebraic(from)[1]];
  }

  /** The printed stem holds no '=' and ends in a letter or digit. */
  lemma StemText(origin: string, m: Move)
    requires OriginLike(origin) && OnBoard(m.from) && OnBoard(m.to)
    ensures var stem := Stem(origin, m); '=' !in stem && stem != "" && Plain(stem[|stem| - 1])
  {
    SquareText(m.from);
    SquareText(m.to);
    var stem := Stem(origin, m);
    if !Castling(m) {
      assert stem[|stem| - 1] == Algebraic(m.to)[1];
    }
  }

  /** A printed move without its '=' and check mark. */
  function CleanText(origin: string, m: Move): string
    requires OnBoard(m.from) && OnBoard(m.to)
  {
    Stem(origin, m) + Promotion(m)
  }

  ghost function Clean(p: Position, m: Move): string
    requires Sound(p) && Legal(p, m)
  {
    CleanText(Disambiguator(LegalMoves(p, None), m), m)
  }

  lemma StripText(origin: string, m: Move, tail: string)
    requires OriginLike(origin) && OnBoard(m.from) && OnBoard(m.to) && Decoration(tail)
    ensures StrippedSan(Stem(origin, m) + (if m.promotion.Some? then "=" + Promotion(m) else "") + tail)
            == CleanText(origin, m)
  {
    StemText(origin, m);
    assert '=' !in tail;
    var stem, promo := Stem(origin, m), Promotion(m);
    if m.promotion.Some? {
      assert stem + ("=" + promo) + tail == stem + ['='] + (promo + tail);
      RemovePresent(stem, promo + tail, '=');
      assert stem + (promo + tail) == CleanText(origin, m) + tail;
    } else {
      RemoveAbsent(stem + tail, '=');
      assert stem + "" == stem == CleanText(origin, m);
    }
    StripAfterPlain(CleanText(origin, m), tail);
  }

  /** Stripping recovers it, whatever check mark or annotation glyphs follow. */
  lemma StripPrinted(p: Position, m: Move, tail: string)
    requires Sound(p) && Legal(p, m) && Decoration(tail)
    ensures StrippedSan(Unmarked(p, m) + tail) == Clean(p, m)
  {
    var moves := LegalMoves(p, None);
    OriginTextIsOriginLike(Ambiguous(moves, m), SharesRank(moves, m), SharesFile(moves, m), m.from);
    StripText(Disambiguator(moves, m), m, tail);
  }

  // ------------------------------------------------------- reading the text

  lemma FirstCharacter(origin: string, m: Move)
    requires OnBoard(m.from) && OnBoard(m.to) && (Castling(m) ==> m.piece == King)
    ensures CleanText(origin, m) != ""
    ensures Castling(m) <==> CleanText(origin, m)[0] == 'O'
    ensures Castling(m) ==> |CleanText(origin, m)| == (if m.flag == KsideCastle then 3 else 5) + |Promotion(m)|
    ensures m.piece == Pawn <==> 'a' <= CleanText(origin, m)[0] <= 'h'
  {
    SquareText(m.from);
    SquareText(m.to);
  }

  /** The parts of a text put together from a letter, an origin part, a capture mark and a square. */
  lemma PartsOf(letter: char, x: string, mark: string, square: string)
    requires |square| == 2
    ensures var s := [letter] + x + mark + square;
            s[0] == letter && s[|s| - 2..] == square && s[1..|s| - 2 - |mark|] == x
  {
  }

  /** What the text of a piece move tells: piece and destination, then the origin part. */
  lemma PieceParts(x: string, a: Move, y: string, b: Move)
    requires OnBoard(a.from) && OnBoard(a.to) && OnBoard(b.from) && OnBoard(b.to)
    requires a.piece != Pawn && b.piece != Pawn && !Castling(a) && !Castling(b)
    requires a.promotion == None && b.promotion == None && CleanText(x, a) == CleanText(y, b)
    ensures a.piece == b.piece && a.to == b.to
    ensures Captures(a) == Captures(b) ==> x == y
  {
    var s, t := CleanText(x, a), CleanText(y, b);
    assert s == [Letter(a.piece)] + x + CaptureMark(a) + Algebraic(a.to);
    assert t == [Letter(b.piece)] + y + CaptureMark(b) + Algebraic(b.to);
    PartsOf(Letter(a.piece), x, CaptureMark(a), Algebraic(a.to));
    PartsOf(Letter(b.piece), y, CaptureMark(b), Algebraic(b.to));
    SquareTextInjective(a.to, b.to);
  }

  /** What the text of a pawn move tells: destination, promotion, and for a capture the origin file. */
  lemma PawnParts(x: string, a: Move, y: string, b: Move)
    requires OnBoard(a.from) && OnBoard(a.to) && OnBoard(b.from) && OnBoard(b.to)
    requires a.piece == Pawn && b.piece == Pawn && !Castling(a) && !Castling(b) && CleanText(x, a) == CleanText(y, b)
    ensures Captures(a) == Captures(b) && a.to == b.to && a.promotion == b.promotion
    ensures Captures(a) ==> File(a.from) == File(b.from)
  {
    var s, t := CleanText(x, a), CleanText(y, b);
    assert s == CaptureMark(a) + Algebraic(a.to) + Promotion(a);
    assert t == CaptureMark(b) + Algebraic(b.to) + Promotion(b);
    var n := |CaptureMark(a)|;
    assert n == |CaptureMark(b)|;
    assert s[n..n + 2] == Algebraic(a.to) && t[n..n + 2] == Algebraic(b.to);
    SquareTextInjective(a.to, b.to);
    assert s[n + 2..] == Promotion(a) && t[n + 2..] == Promotion(b);
    SamePromotion(a, b);
    if Captures(a) {
      assert s[0] == Algebraic(a.from)[0] && t[0] == Algebraic(b.from)[0];
      SquareTextInjective(a.from, b.from);
    }
  }

  lemma SamePromotion(a: Move, b: Move)
    requires Promotion(a) == Promotion(b)
    ensures a.promotion == b.promotion
  {
    if a.promotion.Some? {
      assert Promotion(a)[0] == Promotion(b)[0];
    }
  }

  // ------------------------------------------------------------ injectivity

  /** Two origins that share what their texts are told they share never get the same text. */
  lemma OriginTextSeparates(a: int, b: int, rankA: bool, fileA: bool, rankB: bool, fileB: bool)
    requires OnBoard(a) && OnBoard(b) && a != b
    requires Rank(a) == Rank(b) ==> rankA && rankB
    requires File(a) == File(b) ==> fileA && fileB
    ensures OriginText(true, rankA, fileA, a) != OriginText(true, rankB, fileB, b)
  {
    SquareText(a);
    SquareText(b);
    SquareTextInjective(a, b);
    assert Algebraic(a) == [Algebraic(a)[0], Algebraic(a)[1]] && Algebraic(b) == [Algebraic(b)[0], Algebraic(b)[1]];
  }

  lemma DisambiguatorSeparates(moves: seq<Move>, a: Move, b: Move)
    requires a in moves && b in moves && OnBoard(a.from) && OnBoard(b.from)
    requires a.piece == b.piece && a.to == b.to && a.from != b.from
    ensures Disambiguator(moves, a) != Disambiguator(moves, b)
  {
    assert Rival(moves, a, b) && Rival(moves, b, a);
    OriginTextSeparates(a.from, b.from, SharesRank(moves, a), SharesFile(moves, a),
                        SharesRank(moves, b), SharesFile(moves, b));
  }

  /** A piece captures exactly when its destination is occupied. */
  lemma PieceCaptureIsOccupied(p: Position, m: Move)
    requires Sound(p) && PseudoLegal(p, m) && m.piece != Pawn && !Castling(m)
    ensures Captures(m) <==> p.board[m.to].Full?
    ensures m.promotion == None
  {
  }

  /** The square a pawn came from without capturing: one step back, or two over an empty square. */
  lemma PawnPushOrigin(p: Position, m: Move)
    requires Sound(p) && PseudoLegal(p, m) && m.piece == Pawn && !Captures(m)
    ensures var back := m.to - Forward(p.turn);
            OnBoard(back) && m.from == if p.board[back].Empty? then back - Forward(p.turn) else back
  {
  }

  lemma PawnCaptureOrigin(p: Position, m: Move)
    requires Sound(p) && PseudoLegal(p, m) && m.piece == Pawn && Captures(m)
    ensures Rank(m.from) == Rank(m.to - Forward(p.turn))
  {
  }

  /** A pawn's destination, with its origin file if it captures, leaves one origin. */
  lemma PawnOrigin(p: Position, a: Move, b: Move)
    requires Sound(p) && PseudoLegal(p, a) && PseudoLegal(p, b) && a.piece == Pawn && b.piece == Pawn
    requires a.to == b.to && Captures(a) == Captures(b) && (Captures(a) ==> File(a.from) == File(b.from))
    ensures a.from == b.from
  {
    if Captures(a) {
      PawnCaptureOrigin(p, a);
      PawnCaptureOrigin(p, b);
    } else {
      PawnPushOrigin(p, a);
      PawnPushOrigin(p, b);
    }
  }

  lemma MoveFields(p: Position, m: Move)
    requires |p.board| == 128 && PseudoLegal(p, m)
    ensures OnBoard(m.from) && OnBoard(m.to) && (Castling(m) ==> m.piece == King)
  {
  }

  /** The first character tells castling, pawns and pieces apart. */
  lemma TextKinds(x: string, a: Move, y: string, b: Move)
    requires OnBoard(a.from) && OnBoard(a.to) && (Castling(a) ==> a.piece == King)
    requires OnBoard(b.from) && OnBoard(b.to) && (Castling(b) ==> b.piece == King)
    requires CleanText(x, a) == CleanText(y, b)
    ensures Castling(a) == Castling(b) && (a.piece == Pawn <==> b.piece == Pawn)
  {
    FirstCharacter(x, a);
    FirstCharacter(y, b);
  }

  lemma PieceTextInjective(p: Position, moves: seq<Move>, a: Move, b: Move)
    requires Sound(p) && PseudoLegal(p, a) && PseudoLegal(p, b) && a in moves && b in moves
    requires a.piece != Pawn && b.piece != Pawn && !Castling(a) && !Castling(b)
    requires CleanText(Disambiguator(moves, a), a) == CleanText(Disambiguator(moves, b), b)
    ensures SameKey(a, b)
  {
    PieceCaptureIsOccupied(p, a);
    PieceCaptureIsOccupied(p, b);
    PieceParts(Disambiguator(moves, a), a, Disambiguator(moves, b), b);
    if a.from != b.from {
      DisambiguatorSeparates(moves, a, b);
    }
  }

  lemma PawnTextInjective(p: Position, x: string, a: Move, y: string, b: Move)
    requires Sound(p) && PseudoLegal(p, a) && PseudoLegal(p, b)
    requires a.piece == Pawn && b.piece == Pawn && CleanText(x, a) == CleanText(y, b)
    ensures SameKey(a, b)
  {
    MoveFields(p, a);
    MoveFields(p, b);
    PawnParts(x, a, y, b);
    PawnOrigin(p, a, b);
  }

  lemma CastlingTextInjective(p: Position, x: string, a: Move, y: string, b: Move)
    requires Sound(p) && PseudoLegal(p, a) && PseudoLegal(p, b)
    requires Castling(a) && Castling(b) && CleanText(x, a) == CleanText(y, b)
    ensures SameKey(a, b)
  {
    FirstCharacter(x, a);
    FirstCharacter(y, b);
    CastlingIsFromHome(p, a);
    CastlingIsFromHome(p, b);
  }

  /** The stripped texts of pseudo-legal moves, disambiguated over any list that has them, differ. */
  lemma TextInjective(p: Position, moves: seq<Move>, a: Move, b: Move)
    requires Sound(p) && PseudoLegal(p, a) && PseudoLegal(p, b) && a in moves && b in moves
    requires CleanText(Disambiguator(moves, a), a) == CleanText(Disambiguator(moves, b), b)
    ensures a == b
  {
    var x, y := Disambiguator(moves, a), Disambiguator(moves, b);
    MoveFields(p, a);
    MoveFields(p, b);
    TextKinds(x, a, y, b);
    if Castling(a) {
      CastlingTextInjective(p, x, a, y, b);
    } else if a.piece == Pawn {
      PawnTextInjective(p, x, a, y, b);
    } else {
      PieceTextInjective(p, moves, a, b);
    }
    KeyDeterminesMove(p, a, b);
  }

  // ------------------------------------------------------------- round trip

  lemma PrintedIsClean(p: Position, m: Move)
    requires WellFormed(p) && Legal(p, m)
    ensures StrippedSan(MoveToSan(p, m)) == Clean(p, m)
  {
    LegalIffWellFormedAfter(p, m);
    StripPrinted(p, m, CheckMark(Made(p, m)));
  }

  lemma {:induction false} FirstNamedFinds(p: Position, ms: seq<Move>, m: Move)
    requires WellFormed(p) && m in ms && forall x :: x in ms ==> Legal(p, x)
    ensures Legal(p, m) && FirstNamed(p, ms, Clean(p, m)) == Found(m)
  {
    assert ms[0] in ms;
    PrintedIsClean(p, ms[0]);
    if ms[0] != m {
      if Clean(p, ms[0]) == Clean(p, m) {
        LegalMovesExact(p, None);
        TextInjective(p, LegalMoves(p, None), ms[0], m);
      }
      FirstNamedFinds(p, ms[1..], m);
    }
  }

  /** Parsing what was printed gives the move back, and so does the same text with the check mark
      left out or replaced by any annotation glyphs. */
  lemma SanRoundTrip(p: Position, m: Move, tail: string)
    requires WellFormed(p) && Legal(p, m) && Decoration(tail)
    ensures MoveFromSan(p, MoveToSan(p, m)) == Found(m)
    ensures MoveFromSan(p, Unmarked(p, m) + tail) == Found(m)
  {
    LegalMovesExact(p, None);
    PrintedIsClean(p, m);
    StripPrinted(p, m, tail);
    FirstNamedFinds(p, LegalMoves(p, None), m);
  }

  ghost function Writer(): (Position, Move) -> string {
    (p: Position, m: Move) => if WellFormed(p) && Legal(p, m) then MoveToSan(p, m) else ""
  }

  ghost function Reader(): (Position, string) -> Found<Move> {
    (p: Position, text: string) => if WellFormed(p) then MoveFromSan(p, text) else Missing
  }

  /** Replaying the SAN history of a game from its first position rebuilds the game, history included. */
  lemma HistoryReplays(g: Game<Position, Entry>)
    requires Consistent(Chess(), g)
    ensures Reread(Chess(), Reader(), Prefix(Chess(), g, 0), Transcript(Chess(), Writer(), g)) == Found(g)
  {
    var s, write, read := Chess(), Writer(), Reader();
    forall p: Position, m: Move | s.wellFormed(p) && m in s.moves(p)
      ensures read(p, write(p, m)) == Found(m)
    {
      ChessMove(p, m);
      SanRoundTrip(p, m, "");
    }
    TranscriptReplays(s, write, read, g);
  }
}
