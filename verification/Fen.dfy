/** Forsyth-Edwards Notation: printing a position, validating a text and loading it back. */
module Fen {
  import opened Basics
  import opened Board
  import opened Rules
  import opened Text
  import San

  // ------------------------------------------------------------ the printer

  function Symbol(piece: Piece): char {
    var upper := San.Letter(piece.kind);
    if piece.color == White then upper else upper - 'A' + 'a'
  }

  function Count(n: nat): string
    requires n <= 8
  {
    if n == 0 then "" else [DigitChar(n)]
  }

  /** The text of one rank from file f on, `empty` empty squares being pending. */
  function RowText(board: seq<Cell>, r: nat, f: nat, empty: nat): string
    requires |board| == 128 && r < 8 && f <= 8 && empty <= f
    decreases 8 - f
  {
    if f == 8 then Count(empty)
    else if board[16 * r + f].Empty? then RowText(board, r, f + 1, empty + 1)
    else Count(empty) + [Symbol(board[16 * r + f].piece)] + RowText(board, r, f + 1, 0)
  }

  function Rows(board: seq<Cell>): seq<string>
    requires |board| == 128
  {
    seq(8, r requires 0 <= r < 8 => RowText(board, r, 0, 0))
  }

  function BoardText(board: seq<Cell>): string
    requires |board| == 128
  {
    Join(Rows(board), '/')
  }

  function FlagText(on: bool, c: char): string {
    if on then [c] else ""
  }

  function FlagsText(castling: Pair<Rights>): string {
    FlagText(castling.white.kside, 'K') + (FlagText(castling.white.qside, 'Q')
      + (FlagText(castling.black.kside, 'k') + FlagText(castling.black.qside, 'q')))
  }

  function RightsText(castling: Pair<Rights>): string {
    if FlagsText(castling) == "" then "-" else FlagsText(castling)
  }

  function TurnText(turn: Color): string {
    if turn == White then "w" else "b"
  }

  function EpText(ep: int): string
    requires ep == EMPTY || OnBoard(ep)
  {
    if ep == EMPTY then "-" else San.Algebraic(ep)
  }

  predicate Printable(p: Position) {
    |p.board| == 128 && (p.ep == EMPTY || OnBoard(p.ep)) && p.halfMoves >= 0 && p.moveNumber >= 0
  }

  /** The four fields that decide whether two positions count as repeated. */
  function KeyFields(p: Position): seq<string>
    requires Printable(p)
  {
    [BoardText(p.board), TurnText(p.turn), RightsText(p.castling), EpText(p.ep)]
  }

  function Fields(p: Position): seq<string>
    requires Printable(p)
  {
    KeyFields(p) + [NumberText(p.halfMoves), NumberText(p.moveNumber)]
  }

  function GenerateFen(p: Position): string
    requires Printable(p)
  {
    Join(Fields(p), ' ')
  }

  // ---------------------------------------------------------- the validator

  predicate PieceChar(c: char) {
    c == 'p' || c == 'r' || c == 'n' || c == 'b' || c == 'q' || c == 'k'
    || c == 'P' || c == 'R' || c == 'N' || c == 'B' || c == 'Q' || c == 'K'
  }

  /** The verdict on the rest of a row: 0, or the number of the error found. */
  function RowError(row: string, sum: int, wasNumber: bool): int
    decreases |row|
  {
    if row == "" then (if sum == 8 then 0 else 10)
    else if IsDigit(row[0]) then
      if wasNumber then 8 else RowError(row[1..], sum + DigitValue(row[0]), true)
    else if !PieceChar(row[0]) then 9
    else RowError(row[1..], sum + 1, false)
  }

  function RowsError(rows: seq<string>): int {
    if rows == [] then 0
    else if RowError(rows[0], 0, false) != 0 then RowError(rows[0], 0, false)
    else RowsError(rows[1..])
  }

  function DropIf(s: string, c: char): string {
    if s != "" && s[0] == c then s[1..] else s
  }

  /** The pattern `KQ?k?q?|Qk?q?|kq?|q|-`. */
  predicate ValidRights(s: string) {
    s == "-" || (s != "" && DropIf(DropIf(DropIf(DropIf(s, 'K'), 'Q'), 'k'), 'q') == "")
  }

  /** The pattern `-|[abcdefgh][36]`. */
  predicate ValidEp(s: string) {
    s == "-" || (|s| == 2 && 'a' <= s[0] <= 'h' && (s[1] == '3' || s[1] == '6'))
  }

  /** A number field that is not a number, or below its least value. */
  predicate BadNumber(s: string, least: int) {
    !Numeric(s) || (ParseInt(s).Some? && ParseInt(s).value < least)
  }

  /** The number of the first error in the order in which the fields are tested, 0 if there is none. */
  function FieldsError(t: seq<string>): int {
    if |t| != 6 then 1
    else if BadNumber(t[5], 1) then 2
    else if BadNumber(t[4], 0) then 3
    else if !ValidEp(t[3]) then 4
    else if !ValidRights(t[2]) then 5
    else if t[1] != "w" && t[1] != "b" then 6
    else
      var rows := SplitOn(t[0], '/');
      if |rows| != 8 then 7
      else if RowsError(rows) != 0 then RowsError(rows)
      else if EpOfWrongSide(t[3], t[1]) then 11
      else 0
  }

  predicate EpOfWrongSide(ep: string, turn: string) {
    |ep| == 2 && ((ep[1] == '3' && turn == "w") || (ep[1] == '6' && turn == "b"))
  }

  function FenError(fen: string): int {
    FieldsError(SplitSpaces(fen))
  }

  // -------------------------------------------------------------- the loader

  /** The part of the state that `put` builds up. */
  datatype Setup = Setup(board: seq<Cell>, kings: Pair<int>)

  function PieceOf(c: char): Piece
    requires PieceChar(c)
  {
    var color := if c < 'a' then White else Black;
    var kind := if c == 'p' || c == 'P' then Pawn else if c == 'r' || c == 'R' then Rook
    else if c == 'n' || c == 'N' then Knight else if c == 'b' || c == 'B' then Bishop
    else if c == 'q' || c == 'Q' then Queen else King;
    Piece(kind, color)
  }

  /** Placing a piece is refused off the board, and for a second king of the same colour. */
  function Put(s: Setup, piece: Piece, square: int): Setup
    requires |s.board| == 128
    ensures |Put(s, piece, square).board| == 128
  {
    if !OnBoard(square) then s
    else if piece.kind == King && s.kings.Of(piece.color) != EMPTY && s.kings.Of(piece.color) != square then s
    else Setup(s.board[square := Full(piece)],
               if piece.kind == King then s.kings.With(piece.color, square) else s.kings)
  }

  function Fill(s: Setup, text: string, square: int): Setup
    requires |s.board| == 128
    ensures |Fill(s, text, square).board| == 128
    decreases |text|
  {
    if text == "" then s
    else if text[0] == '/' then Fill(s, text[1..], square + 8)
    else if IsDigit(text[0]) then Fill(s, text[1..], square + DigitValue(text[0]))
    else Fill(if PieceChar(text[0]) then Put(s, PieceOf(text[0]), square) else s, text[1..], square + 1)
  }

  function Blank(): Setup {
    Setup(seq(128, i => Empty), Pair(EMPTY, EMPTY))
  }

  /** SQUARES[text] for the text of a square. */
  function SquareOf(text: string): int
    requires |text| == 2 && 'a' <= text[0] <= 'h' && '1' <= text[1] <= '8'
    ensures OnBoard(SquareOf(text))
  {
    16 * ('8' as int - text[1] as int) + (text[0] as int - 'a' as int)
  }

  /** The outcome of loading: refused, a position, or a position with not-a-number in a counter. */
  datatype Outcome = Refused(error: int) | Loaded(pos: Position) | Unnumbered

  function RightsOf(text: string): Pair<Rights> {
    Pair(Rights('K' in text, 'Q' in text), Rights('k' in text, 'q' in text))
  }

  function LoadFields(t: seq<string>): Outcome
    requires FieldsError(t) == 0
  {
    var setup := Fill(Blank(), t[0], 0);
    var ep := if t[3] == "-" then EMPTY else SquareOf(t[3]);
    if ParseInt(t[4]).None? || ParseInt(t[5]).None? then Unnumbered
    else
      Loaded(Position(setup.board, setup.kings, if t[1] == "w" then White else Black, RightsOf(t[2]), ep,
                      ParseInt(t[4]).value, ParseInt(t[5]).value))
  }

  function Load(fen: string): Outcome {
    if FenError(fen) != 0 then Refused(FenError(fen)) else LoadFields(SplitSpaces(fen))
  }

  // -------------------------------------------------- what loading can give

  /** A colour has no king and none is cached, or it has one and the cached square points at it. */
  ghost predicate KingCached(board: seq<Cell>, color: Color, square: int)
    requires |board| == 128
  {
    if square == EMPTY then forall i :: OnBoard(i) ==> !board[i].Has(King, color)
    else KingAt(board, color, square)
  }

  ghost predicate KingsCached(board: seq<Cell>, kings: Pair<int>)
    requires |board| == 128
  {
    KingCached(board, White, kings.white) && KingCached(board, Black, kings.black)
  }

  /** The en-passant square stands on the rank that fits the side to move. */
  predicate EpOfSide(turn: Color, ep: int) {
    ep == EMPTY || (OnBoard(ep) && Rank(ep) == if turn == White then 2 else 5)
  }

  /** Far less than sound: there may be no kings, pawns on the end ranks and rights that nothing backs. */
  ghost predicate Loadable(p: Position) {
    && BoardShape(p.board) && KingsCached(p.board, p.kings) && EpOfSide(p.turn, p.ep)
    && p.halfMoves >= 0 && p.moveNumber >= 1
  }

  lemma SoundIsLoadable(p: Position)
    requires Sound(p)
    ensures Loadable(p) && Printable(p)
  {
  }

  /** Nothing stands yet on the squares still to be read. */
  ghost predicate FilledBelow(s: Setup, square: int) {
    BoardShape(s.board) && KingsCached(s.board, s.kings) && forall i :: square <= i && OnBoard(i) ==> s.board[i].Empty?
  }

  lemma PutKeepsCache(s: Setup, piece: Piece, square: int)
    requires FilledBelow(s, square)
    ensures FilledBelow(Put(s, piece, square), square + 1)
  {
    var t := Put(s, piece, square);
    if t != s {
      PutShows(s, piece, square);
      KingPut(s, piece, square, White);
      KingPut(s, piece, square, Black);
    }
  }

  lemma PutShows(s: Setup, piece: Piece, square: int)
    requires BoardShape(s.board) && Put(s, piece, square) != s
    ensures OnBoard(square) && BoardShape(Put(s, piece, square).board)
    ensures Put(s, piece, square).board == s.board[square := Full(piece)]
    ensures piece.kind == King ==> s.kings.Of(piece.color) == EMPTY || s.kings.Of(piece.color) == square
  {
  }

  lemma KingPut(s: Setup, piece: Piece, square: int, color: Color)
    requires BoardShape(s.board) && KingCached(s.board, color, s.kings.Of(color)) && Put(s, piece, square) != s
    requires OnBoard(square) && s.board[square].Empty?
    ensures KingCached(Put(s, piece, square).board, color, Put(s, piece, square).kings.Of(color))
  {
    var board := Put(s, piece, square).board;
    if piece == Piece(King, color) {
      assert s.kings.Of(color) == EMPTY;
      assert KingAt(board, color, square);
    } else {
      assert forall i :: OnBoard(i) ==> (board[i].Has(King, color) <==> s.board[i].Has(King, color));
    }
  }

  lemma {:induction false} FillKeepsCache(s: Setup, text: string, square: int)
    requires FilledBelow(s, square)
    ensures var t := Fill(s, text, square); BoardShape(t.board) && KingsCached(t.board, t.kings)
    decreases |text|
  {
    if text == "" {
    } else if text[0] == '/' {
      FillKeepsCache(s, text[1..], square + 8);
    } else if IsDigit(text[0]) {
      FillKeepsCache(s, text[1..], square + DigitValue(text[0]));
    } else if PieceChar(text[0]) {
      PutKeepsCache(s, PieceOf(text[0]), square);
      FillKeepsCache(Put(s, PieceOf(text[0]), square), text[1..], square + 1);
    } else {
      FillKeepsCache(s, text[1..], square + 1);
    }
  }

  lemma EpLoaded(ep: string, turn: string)
    requires ValidEp(ep) && !EpOfWrongSide(ep, turn) && (turn == "w" || turn == "b")
    ensures EpOfSide(if turn == "w" then White else Black, if ep == "-" then EMPTY else SquareOf(ep))
  {
  }

  /** Whatever text is accepted, the position it gives is loadable. */
  lemma LoadedIsLoadable(fen: string, p: Position)
    requires Load(fen) == Loaded(p)
    ensures Loadable(p)
  {
    var t := SplitSpaces(fen);
    FillKeepsCache(Blank(), t[0], 0);
    EpLoaded(t[3], t[1]);
  }

  // ------------------------------------------------- the printed text is valid

  lemma SymbolRoundTrip(piece: Piece)
    ensures PieceChar(Symbol(piece)) && PieceOf(Symbol(piece)) == piece
    ensures !IsDigit(Symbol(piece)) && Symbol(piece) != '/' && !IsSpace(Symbol(piece))
  {
    match piece.kind case Pawn => case Knight => case Bishop => case Rook => case Queen => case King =>
  }

  predicate RowChars(s: string) {
    forall i :: 0 <= i < |s| ==> PieceChar(s[i]) || IsDigit(s[i])
  }

  lemma {:induction false} RowTextChars(board: seq<Cell>, r: nat, f: nat, empty: nat)
    requires |board| == 128 && r < 8 && f <= 8 && empty <= f
    ensures RowChars(RowText(board, r, f, empty))
    decreases 8 - f
  {
    if f < 8 {
      if board[16 * r + f].Empty? {
        RowTextChars(board, r, f + 1, empty + 1);
      } else {
        SymbolRoundTrip(board[16 * r + f].piece);
        RowTextChars(board, r, f + 1, 0);
      }
    }
  }

  /** An optional count and a piece are read as that many empty squares and one more. */
  lemma RowErrorStep(empty: nat, symbol: char, rest: string, sum: int)
    requires empty <= 8 && PieceChar(symbol)
    ensures RowError(Count(empty) + [symbol] + rest, sum, false) == RowError(rest, sum + empty + 1, false)
  {
    assert ([symbol] + rest)[1..] == rest;
    if empty > 0 {
      assert (Count(empty) + [symbol] + rest)[1..] == [symbol] + rest;
    } else {
      assert Count(empty) + [symbol] + rest == [symbol] + rest;
    }
  }

  lemma PieceValid(text: string, empty: nat, symbol: char, rest: string, sum: int)
    requires empty <= 8 && PieceChar(symbol) && text == Count(empty) + [symbol] + rest
    requires RowError(rest, sum + empty + 1, false) == 0
    ensures RowError(text, sum, false) == 0
  {
    RowErrorStep(empty, symbol, rest, sum);
  }

  lemma RowErrorEnd(empty: nat)
    requires empty <= 8
    ensures RowError(Count(empty), 8 - empty, false) == 0
  {
    if empty > 0 {
      assert Count(empty)[1..] == "";
    }
  }

  /** The text of a rank from file f on is valid, some empty squares being pending. */
  ghost predicate RowFits(board: seq<Cell>, r: nat, f: nat, empty: nat)
    requires |board| == 128 && r < 8 && f <= 8 && empty <= f
  {
    RowError(RowText(board, r, f, empty), f - empty, false) == 0
  }

  lemma RowEndValid(board: seq<Cell>, r: nat, empty: nat)
    requires |board| == 128 && r < 8 && empty <= 8
    ensures RowFits(board, r, 8, empty)
  {
    RowErrorEnd(empty);
  }

  lemma RowPieceValid(board: seq<Cell>, r: nat, f: nat, empty: nat)
    requires |board| == 128 && r < 8 && f < 8 && empty <= f && board[16 * r + f].Full? && RowFits(board, r, f + 1, 0)
    ensures RowFits(board, r, f, empty)
  {
    var piece := board[16 * r + f].piece;
    SymbolRoundTrip(piece);
    PieceValid(RowText(board, r, f, empty), empty, Symbol(piece), RowText(board, r, f + 1, 0), f - empty);
  }

  lemma RowEmptyValid(board: seq<Cell>, r: nat, f: nat, empty: nat)
    requires |board| == 128 && r < 8 && f < 8 && empty <= f && board[16 * r + f].Empty? && RowFits(board, r, f + 1, empty + 1)
    ensures RowFits(board, r, f, empty)
  {
    RowGoesOn(board, r, f, empty);
  }

  lemma RowGoesOn(board: seq<Cell>, r: nat, f: nat, empty: nat)
    requires |board| == 128 && r < 8 && f < 8 && empty <= f && board[16 * r + f].Empty?
    ensures RowText(board, r, f, empty) == RowText(board, r, f + 1, empty + 1)
  {
  }

  lemma {:induction false} RowTextValid(board: seq<Cell>, r: nat, f: nat, empty: nat)
    requires |board| == 128 && r < 8 && f <= 8 && empty <= f
    ensures RowFits(board, r, f, empty)
    decreases 8 - f
  {
    if f == 8 {
      RowEndValid(board, r, empty);
    } else if board[16 * r + f].Empty? {
      RowTextValid(board, r, f + 1, empty + 1);
      RowEmptyValid(board, r, f, empty);
    } else {
      RowTextValid(board, r, f + 1, 0);
      RowPieceValid(board, r, f, empty);
    }
  }

  lemma {:induction false} RowsValid(rows: seq<string>)
    requires forall i :: 0 <= i < |rows| ==> RowError(rows[i], 0, false) == 0
    ensures RowsError(rows) == 0
  {
    if rows != [] {
      RowsValid(rows[1..]);
    }
  }

  lemma {:induction false} JoinSolid(words: seq<string>, c: char)
    requires !IsSpace(c) && forall i :: 0 <= i < |words| ==> Solid(words[i])
    ensures Solid(Join(words, c))
  {
    if |words| > 1 {
      JoinSolid(words[1..], c);
    }
  }

  lemma RowCharsAreSolid(row: string)
    requires RowChars(row)
    ensures Solid(row) && '/' !in row
  {
  }

  lemma RowsText(board: seq<Cell>)
    requires |board| == 128
    ensures forall r :: 0 <= r < 8 ==>
              Solid(Rows(board)[r]) && '/' !in Rows(board)[r] && RowError(Rows(board)[r], 0, false) == 0
  {
    forall r | 0 <= r < 8
      ensures Solid(Rows(board)[r]) && '/' !in Rows(board)[r] && RowError(Rows(board)[r], 0, false) == 0
    {
      RowTextChars(board, r, 0, 0);
      RowCharsAreSolid(RowText(board, r, 0, 0));
      RowTextValid(board, r, 0, 0);
    }
  }

  lemma JoinNonempty(words: seq<string>, c: char)
    requires |words| > 1
    ensures Join(words, c) != ""
  {
  }

  lemma BoardTextValid(board: seq<Cell>)
    requires |board| == 128
    ensures BoardText(board) != "" && Solid(BoardText(board))
    ensures |SplitOn(BoardText(board), '/')| == 8 && RowsError(SplitOn(BoardText(board), '/')) == 0
  {
    var rows := Rows(board);
    RowsText(board);
    RowsValid(rows);
    JoinSolid(rows, '/');
    JoinNonempty(rows, '/');
    SplitOnJoin(rows, '/');
  }

  lemma DropStep(flag: string, c: char, rest: string)
    requires (flag == "" || flag == [c]) && c !in rest
    ensures DropIf(flag + rest, c) == rest
  {
    assert flag == "" ==> flag + rest == rest;
    assert flag == [c] ==> (flag + rest)[1..] == rest;
  }

  predicate Flag(flag: string, c: char) {
    flag == "" || flag == [c]
  }

  /** One more optional flag in front of a text that lacks its letter. */
  lemma FlagInFront(flag: string, c: char, rest: string, letter: char)
    requires Flag(flag, c) && c !in rest
    ensures c in flag + rest <==> flag != ""
    ensures letter != c ==> (letter in flag + rest <==> letter in rest)
    ensures DropIf(flag + rest, c) == rest
  {
    DropStep(flag, c, rest);
  }

  lemma FlagsValid(K: string, Q: string, k: string, q: string)
    requires Flag(K, 'K') && Flag(Q, 'Q') && Flag(k, 'k') && Flag(q, 'q')
    ensures var all := K + (Q + (k + q));
            && (all != "" ==> ValidRights(all))
            && ('K' in all <==> K != "") && ('Q' in all <==> Q != "")
            && ('k' in all <==> k != "") && ('q' in all <==> q != "")
  {
    var two, three := k + q, Q + (k + q);
    FlagInFront(k, 'k', q, 'q');
    FlagInFront(k, 'k', q, 'Q');
    FlagInFront(k, 'k', q, 'K');
    FlagInFront(Q, 'Q', two, 'k');
    FlagInFront(Q, 'Q', two, 'q');
    FlagInFront(Q, 'Q', two, 'K');
    FlagInFront(K, 'K', three, 'Q');
    FlagInFront(K, 'K', three, 'k');
    FlagInFront(K, 'K', three, 'q');
    DropStep(q, 'q', "");
    assert q + "" == q;
  }

  lemma SolidConcat(a: string, b: string)
    requires Solid(a) && Solid(b)
    ensures Solid(a + b)
  {
  }

  lemma FlagsSolid(castling: Pair<Rights>)
    ensures Solid(FlagsText(castling))
  {
    var K, Q := FlagText(castling.white.kside, 'K'), FlagText(castling.white.qside, 'Q');
    var k, q := FlagText(castling.black.kside, 'k'), FlagText(castling.black.qside, 'q');
    SolidConcat(k, q);
    SolidConcat(Q, k + q);
    SolidConcat(K, Q + (k + q));
  }

  lemma RightsRoundTrip(castling: Pair<Rights>)
    ensures RightsText(castling) != "" && Solid(RightsText(castling)) && ValidRights(RightsText(castling))
    ensures RightsOf(RightsText(castling)) == castling
  {
    FlagsSolid(castling);
    FlagsValid(FlagText(castling.white.kside, 'K'), FlagText(castling.white.qside, 'Q'),
               FlagText(castling.black.kside, 'k'), FlagText(castling.black.qside, 'q'));
  }

  lemma SquareOfAlgebraic(square: int)
    requires OnBoard(square)
    ensures var text := San.Algebraic(square);
            && Solid(text) && 'a' <= text[0] <= 'h' && '1' <= text[1] <= '8' && SquareOf(text) == square
  {
    San.SquareText(square);
    assert San.Algebraic(square)[0] as int == 'a' as int + File(square);
    assert San.Algebraic(square)[1] as int == '8' as int - Rank(square);
  }

  /** The en-passant field is one the validator accepts for the side to move. */
  lemma EpRoundTrip(turn: Color, ep: int)
    requires EpOfSide(turn, ep)
    ensures EpText(ep) != "" && Solid(EpText(ep)) && ValidEp(EpText(ep))
    ensures ep == if EpText(ep) == "-" then EMPTY else SquareOf(EpText(ep))
    ensures !EpOfWrongSide(EpText(ep), TurnText(turn))
  {
    if ep != EMPTY {
      SquareOfAlgebraic(ep);
      assert San.Algebraic(ep)[1] == San.RANKS[Rank(ep)];
    }
  }

  // ------------------------------------------------ loading what was printed

  /** The setup after the pieces on the squares below n have been put down one by one. */
  function Below(board: seq<Cell>, n: nat): Setup
    requires |board| == 128 && n <= 128
    ensures |Below(board, n).board| == 128
  {
    if n == 0 then Blank()
    else if OnBoard(n - 1) && board[n - 1].Full? then Put(Below(board, n - 1), board[n - 1].piece, n - 1)
    else Below(board, n - 1)
  }

  lemma FillStep(s: Setup, empty: nat, symbol: char, rest: string, square: int)
    requires |s.board| == 128 && empty <= 8 && PieceChar(symbol)
    ensures Fill(s, Count(empty) + [symbol] + rest, square) ==
            Fill(Put(s, PieceOf(symbol), square + empty), rest, square + empty + 1)
  {
    assert ([symbol] + rest)[1..] == rest;
    if empty > 0 {
      assert (Count(empty) + [symbol] + rest)[1..] == [symbol] + rest;
    } else {
      assert Count(empty) + [symbol] + rest == [symbol] + rest;
    }
  }

  lemma FillCount(s: Setup, empty: nat, rest: string, square: int)
    requires |s.board| == 128 && empty <= 8
    ensures Fill(s, Count(empty) + rest, square) == Fill(s, rest, square + empty)
  {
    if empty > 0 {
      assert (Count(empty) + rest)[1..] == rest;
    } else {
      assert Count(empty) + rest == rest;
    }
  }

  /** The same with the rest of the row and of the text apart. */
  lemma FillPiece(s: Setup, empty: nat, symbol: char, text: string, tail: string, rest: string, square: int)
    requires |s.board| == 128 && empty <= 8 && PieceChar(symbol) && text == Count(empty) + [symbol] + tail
    ensures Fill(s, text + rest, square) == Fill(Put(s, PieceOf(symbol), square + empty), tail + rest, square + empty + 1)
  {
    Reassociate(Count(empty) + [symbol], tail, rest);
    FillStep(s, empty, symbol, tail + rest, square);
  }

  lemma BelowNext(board: seq<Cell>, r: nat, f: nat)
    requires |board| == 128 && r < 8 && f < 8
    ensures var n := 16 * r + f;
            Below(board, n + 1) == if board[n].Full? then Put(Below(board, n), board[n].piece, n) else Below(board, n)
  {
  }

  /** Reading the text of a rank from file f on, with some empty squares pending, leads to the end of the rank. */
  ghost predicate ReadsOn(board: seq<Cell>, r: nat, f: nat, empty: nat, rest: string)
    requires |board| == 128 && r < 8 && f <= 8 && empty <= f
  {
    Fill(Below(board, 16 * r + f), RowText(board, r, f, empty) + rest, 16 * r + f - empty)
    == Fill(Below(board, 16 * r + 8), rest, 16 * r + 8)
  }

  lemma ReadsEnd(board: seq<Cell>, r: nat, empty: nat, rest: string)
    requires |board| == 128 && r < 8 && empty <= 8
    ensures ReadsOn(board, r, 8, empty, rest)
  {
    FillCount(Below(board, 16 * r + 8), empty, rest, 16 * r + 8 - empty);
  }

  lemma ReadsEmpty(board: seq<Cell>, r: nat, f: nat, empty: nat, rest: string)
    requires |board| == 128 && r < 8 && f < 8 && empty <= f && board[16 * r + f].Empty?
    requires ReadsOn(board, r, f + 1, empty + 1, rest)
    ensures ReadsOn(board, r, f, empty, rest)
  {
    BelowNext(board, r, f);
    RowGoesOn(board, r, f, empty);
  }

  lemma RowTextPiece(board: seq<Cell>, r: nat, f: nat, empty: nat)
    requires |board| == 128 && r < 8 && f < 8 && empty <= f && board[16 * r + f].Full?
    ensures RowText(board, r, f, empty) == Count(empty) + [Symbol(board[16 * r + f].piece)] + RowText(board, r, f + 1, 0)
  {
  }

  lemma ReadsPiece(board: seq<Cell>, r: nat, f: nat, empty: nat, rest: string)
    requires |board| == 128 && r < 8 && f < 8 && empty <= f && board[16 * r + f].Full?
    requires ReadsOn(board, r, f + 1, 0, rest)
    ensures ReadsOn(board, r, f, empty, rest)
  {
    RowTextPiece(board, r, f, empty);
    PieceReads(board, r, f, empty, RowText(board, r, f, empty), RowText(board, r, f + 1, 0), rest);
  }

  lemma PieceReads(board: seq<Cell>, r: nat, f: nat, empty: nat, text: string, tail: string, rest: string)
    requires |board| == 128 && r < 8 && f < 8 && empty <= f && board[16 * r + f].Full?
    requires text == Count(empty) + [Symbol(board[16 * r + f].piece)] + tail
    ensures var n := 16 * r + f; Fill(Below(board, n), text + rest, n - empty) == Fill(Below(board, n + 1), tail + rest, n + 1)
  {
    var n := 16 * r + f;
    BelowNext(board, r, f);
    SymbolRoundTrip(board[n].piece);
    FillPiece(Below(board, n), empty, Symbol(board[n].piece), text, tail, rest, n - empty);
  }

  /** Reading a printed rank puts down the pieces of that rank and nothing else. */
  lemma {:induction false} RowFills(board: seq<Cell>, r: nat, f: nat, empty: nat, rest: string)
    requires |board| == 128 && r < 8 && f <= 8 && empty <= f
    ensures ReadsOn(board, r, f, empty, rest)
    decreases 8 - f
  {
    if f == 8 {
      ReadsEnd(board, r, empty, rest);
    } else if board[16 * r + f].Empty? {
      RowFills(board, r, f + 1, empty + 1, rest);
      ReadsEmpty(board, r, f, empty, rest);
    } else {
      RowFills(board, r, f + 1, 0, rest);
      ReadsPiece(board, r, f, empty, rest);
    }
  }

  /** The eight indices after a row hold no pieces. */
  lemma {:induction false} BelowGap(board: seq<Cell>, n: nat, k: nat)
    requires |board| == 128 && n % 16 == 8 && k <= 8 && n + k <= 128
    ensures Below(board, n + k) == Below(board, n)
  {
    if k > 0 {
      BelowGap(board, n, k - 1);
      GapIsOff(n, k - 1);
    }
  }

  lemma GapIsOff(n: nat, k: nat)
    requires n % 16 == 8 && k < 8
    ensures !OnBoard(n + k)
  {
  }

  lemma JoinFrom(words: seq<string>, r: nat, c: char)
    requires r < |words|
    ensures Join(words[r..], c) == if r == |words| - 1 then words[r] else words[r] + ([c] + Join(words[r + 1..], c))
  {
    assert words[r..][0] == words[r] && words[r..][1..] == words[r + 1..];
    Reassociate(words[r], [c], Join(words[r + 1..], c));
  }

  /** The separator moves on to the next row. */
  lemma NextRowFills(board: seq<Cell>, r: nat, rest: string)
    requires |board| == 128 && r < 7
    ensures Fill(Below(board, 16 * r + 8), ['/'] + rest, 16 * r + 8) == Fill(Below(board, 16 * (r + 1)), rest, 16 * (r + 1))
  {
    BelowGap(board, 16 * r + 8, 8);
    assert (['/'] + rest)[1..] == rest;
  }

  lemma RowAndSeparator(board: seq<Cell>, r: nat, rest: string)
    requires |board| == 128 && r < 7
    ensures Fill(Below(board, 16 * r), RowText(board, r, 0, 0) + (['/'] + rest), 16 * r)
            == Fill(Below(board, 16 * (r + 1)), rest, 16 * (r + 1))
  {
    RowFills(board, r, 0, 0, ['/'] + rest);
    NextRowFills(board, r, rest);
  }

  lemma LastRowFills(board: seq<Cell>, r: nat)
    requires |board| == 128 && r == 7
    ensures Fill(Below(board, 16 * r), RowText(board, r, 0, 0), 16 * r) == Below(board, |board|)
  {
    assert RowText(board, r, 0, 0) + "" == RowText(board, r, 0, 0);
    RowFills(board, r, 0, 0, "");
    BelowGap(board, 16 * r + 8, 8);
  }

  lemma {:induction false} RowsFill(board: seq<Cell>, r: nat)
    requires |board| == 128 && r < 8
    ensures Fill(Below(board, 16 * r), Join(Rows(board)[r..], '/'), 16 * r) == Below(board, |board|)
    decreases 8 - r
  {
    JoinFrom(Rows(board), r, '/');
    if r == 7 {
      LastRowFills(board, r);
    } else {
      RowAndSeparator(board, r, Join(Rows(board)[r + 1..], '/'));
      RowsFill(board, r + 1);
    }
  }

  /** With at most one king a side nothing is refused: the setup holds what the board holds. */
  lemma {:induction false} BelowAgrees(board: seq<Cell>, kings: Pair<int>, n: nat)
    requires |board| == 128 && KingsCached(board, kings) && n <= 128
    ensures var s := Below(board, n);
            && (forall i :: 0 <= i < 128 ==> s.board[i] == if i < n && OnBoard(i) then board[i] else Empty)
            && s.kings.white == (if kings.white < n then kings.white else EMPTY)
            && s.kings.black == (if kings.black < n then kings.black else EMPTY)
  {
    if n > 0 {
      BelowAgrees(board, kings, n - 1);
      if OnBoard(n - 1) && board[n - 1].Full? {
        var piece := board[n - 1].piece;
        assert piece.kind == King <==> n - 1 == kings.Of(piece.color);
      }
    }
  }

  lemma BoardRoundTrip(board: seq<Cell>, kings: Pair<int>)
    requires BoardShape(board) && KingsCached(board, kings)
    ensures Fill(Blank(), BoardText(board), 0) == Setup(board, kings)
  {
    assert Rows(board)[0..] == Rows(board);
    RowsFill(board, 0);
    BelowAgrees(board, kings, |board|);
    assert Below(board, |board|).board == board;
  }

  lemma NumberSolid(n: nat)
    ensures NumberText(n) != "" && Solid(NumberText(n))
  {
    NumberTextParses(n);
    DigitsAreSolid(NumberText(n));
  }

  lemma DigitsAreSolid(s: string)
    requires AllDigits(s)
    ensures Solid(s)
  {
  }

  ghost predicate SolidWords(words: seq<string>) {
    forall i :: 0 <= i < |words| ==> words[i] != "" && Solid(words[i])
  }

  lemma SolidMore(words: seq<string>, more: seq<string>)
    requires SolidWords(words) && SolidWords(more)
    ensures SolidWords(words + more)
  {
  }

  lemma FourSolid(a: string, b: string, c: string, d: string)
    requires a != "" && b != "" && c != "" && d != "" && Solid(a) && Solid(b) && Solid(c) && Solid(d)
    ensures SolidWords([a, b, c, d])
  {
  }

  lemma EpSolid(p: Position)
    requires Loadable(p)
    ensures EpText(p.ep) != "" && Solid(EpText(p.ep))
  {
    EpRoundTrip(p.turn, p.ep);
  }

  lemma KeyFieldsSolid(p: Position)
    requires Loadable(p)
    ensures Printable(p) && SolidWords(KeyFields(p))
  {
    BoardTextValid(p.board);
    RightsRoundTrip(p.castling);
    EpSolid(p);
    FourSolid(BoardText(p.board), TurnText(p.turn), RightsText(p.castling), EpText(p.ep));
  }

  lemma FieldsSolid(p: Position)
    requires Loadable(p)
    ensures Printable(p) && SolidWords(KeyFields(p)) && SolidWords(Fields(p))
  {
    KeyFieldsSolid(p);
    NumberSolid(p.halfMoves);
    NumberSolid(p.moveNumber);
    SolidMore(KeyFields(p), [NumberText(p.halfMoves), NumberText(p.moveNumber)]);
  }

  ghost predicate BoardDescribed(text: string, p: Position) {
    && |SplitOn(text, '/')| == 8 && RowsError(SplitOn(text, '/')) == 0
    && Fill(Blank(), text, 0) == Setup(p.board, p.kings)
  }

  ghost predicate EpDescribed(text: string, p: Position) {
    ValidEp(text) && p.ep == (if text == "-" then EMPTY else SquareOf(text)) && !EpOfWrongSide(text, TurnText(p.turn))
  }

  ghost predicate NumberDescribed(text: string, n: int) {
    Numeric(text) && ParseInt(text) == Some(n)
  }

  /** Six fields that say of a position all that loading needs to rebuild it. */
  lemma DescribedIsLoaded(board: string, rights: string, ep: string, halfMoves: string, moveNumber: string, p: Position)
    requires BoardDescribed(board, p) && EpDescribed(ep, p)
    requires ValidRights(rights) && RightsOf(rights) == p.castling
    requires NumberDescribed(halfMoves, p.halfMoves) && p.halfMoves >= 0
    requires NumberDescribed(moveNumber, p.moveNumber) && p.moveNumber >= 1
    ensures var t := [board, TurnText(p.turn), rights, ep, halfMoves, moveNumber];
            FieldsError(t) == 0 && LoadFields(t) == Loaded(p)
  {
  }

  lemma FieldsLoad(p: Position)
    requires Loadable(p)
    ensures Printable(p) && FieldsError(Fields(p)) == 0 && LoadFields(Fields(p)) == Loaded(p)
  {
    var board, rights, ep := BoardText(p.board), RightsText(p.castling), EpText(p.ep);
    var halfMoves, moveNumber := NumberText(p.halfMoves), NumberText(p.moveNumber);
    assert Fields(p) == [board, TurnText(p.turn), rights, ep, halfMoves, moveNumber];
    assert BoardDescribed(board, p) by {
      BoardTextValid(p.board);
      BoardRoundTrip(p.board, p.kings);
    }
    assert EpDescribed(ep, p) by { EpRoundTrip(p.turn, p.ep); }
    RightsRoundTrip(p.castling);
    NumberRoundTrip(p.halfMoves);
    NumberRoundTrip(p.moveNumber);
    DescribedIsLoaded(board, rights, ep, halfMoves, moveNumber, p);
  }

  /** The printed text of a loadable position is accepted, and loading it rebuilds the whole position. */
  lemma FenRoundTrip(p: Position)
    requires Loadable(p)
    ensures Printable(p) && FenError(GenerateFen(p)) == 0 && Load(GenerateFen(p)) == Loaded(p)
  {
    FieldsSolid(p);
    SplitJoin(Fields(p));
    FieldsLoad(p);
  }

  /** Some text gives a position exactly if it is loadable. */
  lemma LoadableExactly(p: Position)
    ensures Loadable(p) <==> exists fen :: Load(fen) == Loaded(p)
  {
    if Loadable(p) {
      FenRoundTrip(p);
    }
    if fen :| Load(fen) == Loaded(p) {
      LoadedIsLoadable(fen, p);
    }
  }

  /** What any accepted text gives, printed and loaded again, is the same position. */
  lemma PrintingKeepsLoaded(fen: string, p: Position)
    requires Load(fen) == Loaded(p)
    ensures Printable(p) && Load(GenerateFen(p)) == Loaded(p)
  {
    LoadedIsLoadable(fen, p);
    FenRoundTrip(p);
  }

  // ------------------------------------------------------ the repetition key

  /** `fen.split(' ').slice(0, 4).join(' ')`. */
  function FirstFour(fen: string): string {
    var t := SplitOn(fen, ' ');
    Join(if |t| <= 4 then t else t[..4], ' ')
  }

  function FenKey(p: Position): string
    requires Printable(p)
  {
    FirstFour(GenerateFen(p))
  }

  lemma SolidWordsSplit(words: seq<string>)
    requires words != [] && SolidWords(words)
    ensures SplitOn(Join(words, ' '), ' ') == words
  {
    forall i | 0 <= i < |words|
      ensures ' ' !in words[i]
    {
      assert Solid(words[i]);
    }
    SplitOnJoin(words, ' ');
  }

  lemma KeyIsKeyFields(p: Position)
    requires Sound(p)
    ensures Printable(p) && FenKey(p) == Join(KeyFields(p), ' ')
    ensures SplitOn(FenKey(p), ' ') == KeyFields(p)
  {
    SoundIsLoadable(p);
    FieldsSolid(p);
    SolidWordsSplit(Fields(p));
    assert Fields(p)[..4] == KeyFields(p);
    SolidWordsSplit(KeyFields(p));
  }

  /** What repetition is about: everything in a position but the two counters. */
  predicate SameSituation(p: Position, q: Position) {
    p.board == q.board && p.turn == q.turn && p.castling == q.castling && p.ep == q.ep
  }

  lemma SoundWithCounters(p: Position, halfMoves: nat, moveNumber: nat)
    requires Sound(p) && moveNumber >= 1
    ensures Sound(p.(halfMoves := halfMoves, moveNumber := moveNumber))
  {
  }

  lemma KeyFieldsDecide(p: Position, q: Position)
    requires Sound(p) && Sound(q) && Printable(p) && Printable(q) && KeyFields(p) == KeyFields(q)
    ensures SameSituation(p, q)
  {
    var q' := q.(halfMoves := p.halfMoves, moveNumber := p.moveNumber);
    SoundWithCounters(q, p.halfMoves, p.moveNumber);
    assert Fields(q') == Fields(p);
    SoundIsLoadable(p);
    SoundIsLoadable(q');
    FenRoundTrip(p);
    FenRoundTrip(q');
  }

  /** Two positions have equal keys exactly when board, turn, castling rights and en-passant square agree. */
  lemma KeyEquality(p: Position, q: Position)
    requires Sound(p) && Sound(q)
    ensures Printable(p) && Printable(q)
    ensures FenKey(p) == FenKey(q) <==> SameSituation(p, q)
  {
    KeyIsKeyFields(p);
    KeyIsKeyFields(q);
    if FenKey(p) == FenKey(q) {
      KeyFieldsDecide(p, q);
    }
  }
}
