/** The starting position, that it is one of those everything else is about, and the text it is loaded from. */
module Start {
  import opened Board
  import opened Attack
  import opened Rules
  import opened Text
  import opened Fen

  /** The piece that starts on a file of the first and the last rank. */
  function BackRank(file: int): Kind {
    match file
    case 0 => Rook
    case 1 => Knight
    case 2 => Bishop
    case 3 => Queen
    case 4 => King
    case 5 => Bishop
    case 6 => Knight
    case _ => Rook
  }

  function StartCell(i: int): Cell {
    if !OnBoard(i) then Empty
    else if Rank(i) == 0 then Full(Piece(BackRank(File(i)), Black))
    else if Rank(i) == 1 then Full(Piece(Pawn, Black))
    else if Rank(i) == 6 then Full(Piece(Pawn, White))
    else if Rank(i) == 7 then Full(Piece(BackRank(File(i)), White))
    else Empty
  }

  function StartBoard(): (board: seq<Cell>)
    ensures |board| == 128
  {
    seq(128, i => StartCell(i))
  }

  function StartPosition(): Position {
    Position(StartBoard(), Pair(116, 4), White, Pair(Rights(true, true), Rights(true, true)), EMPTY, 0, 1)
  }

  /** White's pieces start hemmed in: whatever they bear on is nearer than the black king. */
  lemma HemmedIn(board: seq<Cell>, from: int)
    requires board == StartBoard() && OnBoard(from) && board[from].Owned(White)
    ensures !Bears(board, from, 4)
  {
    assert Rank(from) == 6 || Rank(from) == 7;
    var kind := board[from].piece.kind;
    if kind != Pawn && !Leaper(kind) {
      forall offset, n: nat | offset in Offsets(kind)
        ensures !Slides(board, from, 4, offset, n)
      {
        FirstStepBlocked(board, from, offset, n);
      }
    }
  }

  lemma FirstStepBlocked(board: seq<Cell>, from: int, offset: int, n: nat)
    requires board == StartBoard() && OnBoard(from) && Rank(from) == 7 && offset in Offsets(Queen)
    ensures !Slides(board, from, 4, offset, n)
  {
    assert Walk(from, offset, 1) == Walk(from, offset, 0) + offset == from + offset;
    if OnBoard(from + offset) {
      assert board[from + offset].Full?;
    }
  }

  lemma StartIsWellFormed()
    ensures WellFormed(StartPosition())
  {
    var p := StartPosition();
    assert Sound(p);
    if KingAttacked(p, Black) {
      var from :| OnBoard(from) && p.board[from].Owned(White) && Bears(p.board, from, 4);
      HemmedIn(p.board, from);
    }
  }

  // ---------------------------------------------------- the text it is loaded from

  const DEFAULT_POSITION := "rnbqkbnr/pppppppp/8/8/8/8/PPPPPPPP/RNBQKBNR w KQkq - 0 1"

  /** The piece on a square is the one its character stands for. */
  predicate Shows(board: seq<Cell>, i: int, c: char)
    requires |board| == 128
  {
    OnBoard(i) && board[i].Full? && c == Symbol(board[i].piece)
  }

  lemma {:induction false} RowOfPieces(board: seq<Cell>, r: nat, f: nat, text: string)
    requires |board| == 128 && r < 8 && f <= 8 && |text| == 8
    requires forall k :: 0 <= k < 8 ==> Shows(board, 16 * r + k, text[k])
    ensures RowText(board, r, f, 0) == text[f..]
    decreases 8 - f
  {
    if f < 8 {
      RowOfPieces(board, r, f + 1, text);
      assert Shows(board, 16 * r + f, text[f]);
      assert text[f..] == [text[f]] + text[f + 1..];
    }
  }

  lemma {:induction false} RowOfNothing(board: seq<Cell>, r: nat, f: nat)
    requires |board| == 128 && r < 8 && f <= 8
    requires forall i :: 16 * r <= i < 16 * r + 8 ==> board[i].Empty?
    ensures RowText(board, r, f, f) == "8"
    decreases 8 - f
  {
    if f < 8 {
      RowOfNothing(board, r, f + 1);
    }
  }

  const ROWS := ["rnbqkbnr", "pppppppp", "8", "8", "8", "8", "PPPPPPPP", "RNBQKBNR"]

  lemma StartRow(r: nat)
    requires r < 8
    ensures RowText(StartBoard(), r, 0, 0) == ROWS[r]
  {
    if 2 <= r <= 5 {
      RowOfNothing(StartBoard(), r, 0);
    } else {
      RowOfPieces(StartBoard(), r, 0, ROWS[r]);
    }
  }

  lemma {:induction false} StartRows(r: nat, words: seq<string>)
    requires r <= 8 && words == Fen.Rows(StartBoard())
    ensures words[r..] == ROWS[r..]
    decreases 8 - r
  {
    if r < 8 {
      StartRow(r);
      StartRows(r + 1, words);
      assert words[r..] == [words[r]] + words[r + 1..] && ROWS[r..] == [ROWS[r]] + ROWS[r + 1..];
    }
  }

  lemma JoinOf8(w: seq<string>, c: char)
    requires |w| == 8
    ensures Join(w, c) == w[0] + ([c] + (w[1] + ([c] + (w[2] + ([c] + (w[3] + ([c] + (w[4] + ([c] + (w[5] + ([c] + (w[6] + ([c] + w[7])))))))))))))
  {
    assert w[0..] == w;
    JoinFrom(w, 0, c);
    JoinFrom(w, 1, c);
    JoinFrom(w, 2, c);
    JoinFrom(w, 3, c);
    JoinFrom(w, 4, c);
    JoinFrom(w, 5, c);
    JoinFrom(w, 6, c);
    JoinFrom(w, 7, c);
  }

  lemma StartBoardText()
    ensures BoardText(StartBoard()) == "rnbqkbnr/pppppppp/8/8/8/8/PPPPPPPP/RNBQKBNR"
  {
    var words := Fen.Rows(StartBoard());
    StartRows(0, words);
    JoinOf8(words, '/');
    LowerRows();
    UpperRows();
  }

  lemma LowerRows()
    ensures "8" + ("/" + ("8" + ("/" + ("PPPPPPPP" + ("/" + "RNBQKBNR"))))) == "8/8/PPPPPPPP/RNBQKBNR"
  {
  }

  lemma UpperRows()
    ensures "rnbqkbnr" + ("/" + ("pppppppp" + ("/" + ("8" + ("/" + ("8" + ("/" + "8/8/PPPPPPPP/RNBQKBNR")))))))
            == "rnbqkbnr/pppppppp/8/8/8/8/PPPPPPPP/RNBQKBNR"
  {
  }

  lemma JoinOf6(w: seq<string>, c: char)
    requires |w| == 6
    ensures Join(w, c) == w[0] + ([c] + (w[1] + ([c] + (w[2] + ([c] + (w[3] + ([c] + (w[4] + ([c] + w[5])))))))))
  {
    assert w[0..] == w;
    JoinFrom(w, 0, c);
    JoinFrom(w, 1, c);
    JoinFrom(w, 2, c);
    JoinFrom(w, 3, c);
    JoinFrom(w, 4, c);
    JoinFrom(w, 5, c);
  }

  /** The other fields of a position in which nothing has happened yet. */
  predicate Fresh(p: Position) {
    && p.turn == White && p.castling == Pair(Rights(true, true), Rights(true, true)) && p.ep == EMPTY
    && p.halfMoves == 0 && p.moveNumber == 1
  }

  lemma FreshRights(castling: Pair<Rights>)
    requires castling == Pair(Rights(true, true), Rights(true, true))
    ensures RightsText(castling) == "KQkq"
  {
    assert FlagsText(castling) == "KQkq";
  }

  lemma FreshFields(p: Position)
    requires Printable(p) && Fresh(p)
    ensures Fields(p) == [BoardText(p.board), "w", "KQkq", "-", "0", "1"]
  {
    FreshRights(p.castling);
    assert NumberText(p.halfMoves) == "0" && NumberText(p.moveNumber) == "1";
  }

  lemma FreshText(p: Position)
    requires Printable(p) && Fresh(p)
    ensures GenerateFen(p) == BoardText(p.board) + " w KQkq - 0 1"
  {
    var board := BoardText(p.board);
    FreshFields(p);
    JoinOf6(Fields(p), ' ');
    assert board + (" " + ("w" + (" " + ("KQkq" + (" " + ("-" + (" " + ("0" + (" " + "1"))))))))) == board + " w KQkq - 0 1";
  }

  lemma DefaultFields(board: string)
    requires board == "rnbqkbnr/pppppppp/8/8/8/8/PPPPPPPP/RNBQKBNR"
    ensures board + " w KQkq - 0 1" == DEFAULT_POSITION
  {
  }

  lemma StartIsFresh(p: Position)
    requires p == StartPosition()
    ensures Printable(p) && Fresh(p) && BoardText(p.board) == "rnbqkbnr/pppppppp/8/8/8/8/PPPPPPPP/RNBQKBNR"
  {
    StartBoardText();
  }

  /** The default text is the printed starting position. */
  lemma StartIsPrinted(p: Position)
    requires p == StartPosition()
    ensures Printable(p) && GenerateFen(p) == DEFAULT_POSITION
  {
    StartIsFresh(p);
    PrintedAs(p, BoardText(p.board));
  }

  lemma PrintedAs(p: Position, board: string)
    requires Printable(p) && Fresh(p) && board == BoardText(p.board)
    requires board == "rnbqkbnr/pppppppp/8/8/8/8/PPPPPPPP/RNBQKBNR"
    ensures GenerateFen(p) == DEFAULT_POSITION
  {
    FreshText(p);
    DefaultFields(board);
  }

  /** So loading it gives the starting position. */
  lemma DefaultIsStart(fen: string)
    requires fen == DEFAULT_POSITION
    ensures Load(fen) == Loaded(StartPosition())
  {
    StartIsWellFormed();
    StartIsPrinted(StartPosition());
    SoundIsLoadable(StartPosition());
    FenRoundTrip(StartPosition());
  }
}
