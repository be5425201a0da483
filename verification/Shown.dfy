/** Engine and widget agree: the widget shows what the engine prints, and prints what the engine would. */
module Shown {
  import opened Basics
  import opened Board
  import opened Rules
  import opened Text
  import F = Fen
  import San
  import Spelling
  import V = FenVerdict
  import W = WidgetFen

  /** The widget's code of a piece. */
  function Code(piece: Piece): string {
    [if piece.color == White then 'w' else 'b', San.Letter(piece.kind)]
  }

  /** The square of a column and a row as the widget counts them, rows from white's side on. */
  function SquareAt(column: int, row: int): int {
    16 * (8 - row) + column
  }

  function SquareNamed(s: string): int
    requires W.ValidSquare(s)
  {
    SquareAt(s[0] as int - 'a' as int, s[1] as int - '0' as int)
  }

  const NAMES := set column, row | 0 <= column < 8 && 1 <= row <= 8 :: W.Named(column, row)

  /** The pieces of a board under the names of their squares. */
  function Shown(board: seq<Cell>): W.Placing
    requires |board| == 128
  {
    map s | s in NAMES && board[SquareNamed(s)].Full? :: Code(board[SquareNamed(s)].piece)
  }

  lemma SquareParts(column: int, row: int)
    requires 0 <= column < 8 && 1 <= row <= 8
    ensures var i := SquareAt(column, row); OnBoard(i) && Rank(i) == 8 - row && File(i) == column
  {
  }

  lemma NamedSquare(column: int, row: int)
    requires 0 <= column < 8 && 1 <= row <= 8
    ensures W.Named(column, row) in NAMES && SquareNamed(W.Named(column, row)) == SquareAt(column, row)
    ensures OnBoard(SquareAt(column, row)) && San.Algebraic(SquareAt(column, row)) == W.Named(column, row)
  {
    SquareParts(column, row);
    Spelling.AlgebraicIsName(SquareAt(column, row));
  }

  lemma ShownIsValid(board: seq<Cell>)
    requires |board| == 128
    ensures W.ValidPosition(Shown(board))
  {
  }

  /** The widget's letter for a piece is the engine's. */
  lemma SameSymbol(piece: Piece)
    ensures W.ValidPieceCode(Code(piece)) && W.PieceCodeToFen(Code(piece)) == F.Symbol(piece)
    ensures F.Symbol(piece) != '1' && F.Symbol(piece) != '/'
  {
    match piece.kind case Pawn => case Knight => case Bishop => case Rook => case Queen => case King =>
  }

  // ------------------------------------------------------------ squeezing runs

  function Count(k: nat): string
    requires k <= 8
  {
    if k == 0 then "" else [W.Digit(k)]
  }

  lemma OnesHead(k: nat, rest: string)
    requires k > 0
    ensures (W.Ones(k) + rest)[0] == '1' && (W.Ones(k) + rest)[1..] == W.Ones(k - 1) + rest
  {
  }

  lemma ReplacePass(c: char, rest: string, n: nat, d: char)
    requires c != '1' && n > 0
    ensures W.ReplaceOnes([c] + rest, n, d) == [c] + W.ReplaceOnes(rest, n, d)
  {
    var s := [c] + rest;
    assert s[0] == c && s[1..] == rest;
    if |s| >= n {
      assert s[..n][0] == c && W.Ones(n)[0] == '1';
    }
  }

  /** A run that is too short is left as it is. */
  lemma {:induction false} ReplaceShort(k: nat, c: char, rest: string, n: nat, d: char)
    requires k < n && c != '1'
    ensures W.ReplaceOnes(W.Ones(k) + ([c] + rest), n, d) == W.Ones(k) + ([c] + W.ReplaceOnes(rest, n, d))
    decreases k
  {
    var s := W.Ones(k) + ([c] + rest);
    if k == 0 {
      assert s == [c] + rest && W.Ones(k) + ([c] + W.ReplaceOnes(rest, n, d)) == [c] + W.ReplaceOnes(rest, n, d);
      ReplacePass(c, rest, n, d);
    } else {
      assert s[k] == c;
      if |s| >= n {
        assert s[..n][k] == c && W.Ones(n)[k] == '1';
      }
      OnesHead(k, [c] + rest);
      ReplaceShort(k - 1, c, rest, n, d);
      OnesHead(k, [c] + W.ReplaceOnes(rest, n, d));
      assert W.Ones(k) + ([c] + W.ReplaceOnes(rest, n, d)) == ['1'] + (W.Ones(k - 1) + ([c] + W.ReplaceOnes(rest, n, d)));
    }
  }

  /** A run of just the right length becomes its digit. */
  lemma ReplaceExact(n: nat, c: char, rest: string, d: char)
    requires n > 0 && c != '1'
    ensures W.ReplaceOnes(W.Ones(n) + ([c] + rest), n, d) == [d] + ([c] + W.ReplaceOnes(rest, n, d))
  {
    var s := W.Ones(n) + ([c] + rest);
    assert s[..n] == W.Ones(n) && s[n..] == [c] + rest;
    ReplacePass(c, rest, n, d);
  }

  lemma {:induction false} SqueezePass(c: char, rest: string, n: nat)
    requires c != '1' && 1 <= n <= 8
    ensures W.SqueezeFrom([c] + rest, n) == [c] + W.SqueezeFrom(rest, n)
    decreases n
  {
    if n > 1 {
      ReplacePass(c, rest, n, W.Digit(n));
      SqueezePass(c, W.ReplaceOnes(rest, n, W.Digit(n)), n - 1);
    }
  }

  /** Squeezing a run of empty squares before something else. */
  lemma {:induction false} SqueezeRun(k: nat, c: char, rest: string, n: nat)
    requires k <= n && c != '1' && 1 <= n <= 8
    ensures W.SqueezeFrom(W.Ones(k) + ([c] + rest), n) == Count(k) + ([c] + W.SqueezeFrom(rest, n))
    decreases n
  {
    var d := W.Digit(n);
    if n == 1 {
      assert W.Ones(k) == Count(k);
    } else if k < n {
      ReplaceShort(k, c, rest, n, d);
      SqueezeRun(k, c, W.ReplaceOnes(rest, n, d), n - 1);
    } else {
      var tail := W.ReplaceOnes(rest, n, d);
      ReplaceExact(n, c, rest, d);
      SqueezePass(d, [c] + tail, n - 1);
      SqueezePass(c, tail, n - 1);
    }
  }

  lemma {:induction false} ReplaceShortEnd(k: nat, n: nat, d: char)
    requires k < n
    ensures W.ReplaceOnes(W.Ones(k), n, d) == W.Ones(k)
    decreases k
  {
    if k > 0 {
      assert W.Ones(k)[1..] == W.Ones(k - 1) && W.Ones(k) == ['1'] + W.Ones(k - 1);
      ReplaceShortEnd(k - 1, n, d);
    }
  }

  lemma {:induction false} SqueezeEnd(k: nat, n: nat)
    requires k <= n && 1 <= n <= 8
    ensures W.SqueezeFrom(W.Ones(k), n) == Count(k)
    decreases n
  {
    var d := W.Digit(n);
    if n == 1 {
      assert W.Ones(k) == Count(k);
    } else if k < n {
      ReplaceShortEnd(k, n, d);
      SqueezeEnd(k, n - 1);
    } else {
      assert W.Ones(n)[..n] == W.Ones(n) && W.Ones(n)[n..] == "";
      assert W.ReplaceOnes(W.Ones(n), n, d) == [d] + "";
      SqueezePass(d, "", n - 1);
      SqueezeNothing(n - 1);
    }
  }

  lemma {:induction false} SqueezeNothing(n: nat)
    requires 1 <= n <= 8
    ensures W.SqueezeFrom("", n) == ""
    decreases n
  {
    if n > 1 {
      SqueezeNothing(n - 1);
    }
  }

  // ------------------------------------------------------------ row by row

  /** A rank from file f on, every empty square written as 1. */
  function PlainRow(board: seq<Cell>, r: nat, f: nat): string
    requires |board| == 128 && r < 8 && f <= 8
    decreases 8 - f
  {
    if f == 8 then "" else [if board[16 * r + f].Full? then F.Symbol(board[16 * r + f].piece) else '1'] + PlainRow(board, r, f + 1)
  }

  lemma {:induction false} PlainRowAt(board: seq<Cell>, r: nat, f: nat, k: nat)
    requires |board| == 128 && r < 8 && f <= k < 8
    ensures |PlainRow(board, r, f)| == 8 - f
    ensures PlainRow(board, r, f)[k - f] == if board[16 * r + k].Full? then F.Symbol(board[16 * r + k].piece) else '1'
    decreases 8 - f
  {
    if f < k {
      PlainRowAt(board, r, f + 1, k);
    } else if f < 7 {
      PlainRowAt(board, r, f + 1, f + 1);
    }
  }

  lemma CellShown(board: seq<Cell>, column: int, row: int)
    requires |board| == 128 && 0 <= column < 8 && 1 <= row <= 8
    ensures W.ValidPosition(Shown(board))
    ensures W.CellText(Shown(board), column, row)
            == if board[SquareAt(column, row)].Full? then F.Symbol(board[SquareAt(column, row)].piece) else '1'
  {
    ShownIsValid(board);
    NamedSquare(column, row);
    if board[SquareAt(column, row)].Full? {
      SameSymbol(board[SquareAt(column, row)].piece);
    }
  }

  lemma RowsAt(pos: W.Placing, r: nat, k: nat)
    requires W.ValidPosition(pos) && r < 8 && k < 8
    ensures |W.Rows(pos)[r]| == 8 && W.Rows(pos)[r][k] == W.CellText(pos, k, 8 - r)
  {
  }

  lemma CellOfRow(board: seq<Cell>, r: nat, k: nat)
    requires |board| == 128 && r < 8 && k < 8
    ensures W.ValidPosition(Shown(board)) && |W.Rows(Shown(board))[r]| == 8 == |PlainRow(board, r, 0)|
    ensures W.Rows(Shown(board))[r][k] == PlainRow(board, r, 0)[k]
  {
    CellShown(board, k, 8 - r);
    PlainRowAt(board, r, 0, k);
    RowsAt(Shown(board), r, k);
    assert SquareAt(k, 8 - r) == 16 * r + k;
  }

  lemma SameText(a: string, b: string)
    requires |a| == |b| == 8 && forall k: nat :: k < 8 ==> a[k] == b[k]
    ensures a == b
  {
  }

  /** The widget's rows are the ranks of the board, the eighth first. */
  lemma RowsShown(board: seq<Cell>, r: nat)
    requires |board| == 128 && r < 8
    ensures W.ValidPosition(Shown(board)) && W.Rows(Shown(board))[r] == PlainRow(board, r, 0)
  {
    CellOfRow(board, r, 0);
    forall k: nat | k < 8
      ensures W.Rows(Shown(board))[r][k] == PlainRow(board, r, 0)[k]
    {
      CellOfRow(board, r, k);
    }
    SameText(W.Rows(Shown(board))[r], PlainRow(board, r, 0));
  }

  lemma OnesMore(e: nat, rest: string)
    ensures W.Ones(e) + (['1'] + rest) == W.Ones(e + 1) + rest
  {
  }

  lemma RowEndSqueezed(e: nat, tail: string)
    requires e <= 8 && (tail == "" || tail[0] == '/')
    ensures W.SqueezeFrom(W.Ones(e) + tail, 8) == F.Count(e) + W.SqueezeFrom(tail, 8)
  {
    assert Count(e) == F.Count(e);
    if tail == "" {
      assert W.Ones(e) + "" == W.Ones(e) && Count(e) + "" == Count(e);
      SqueezeEnd(e, 8);
      SqueezeNothing(8);
    } else {
      assert tail == ['/'] + tail[1..];
      SqueezeRun(e, '/', tail[1..], 8);
      SqueezePass('/', tail[1..], 8);
    }
  }

  /** Some empty squares before a rank are counted together with those it begins with. */
  lemma {:induction false} RowSqueezed(board: seq<Cell>, r: nat, f: nat, e: nat, tail: string)
    requires |board| == 128 && r < 8 && e <= f <= 8 && (tail == "" || tail[0] == '/')
    ensures W.SqueezeFrom(W.Ones(e) + (PlainRow(board, r, f) + tail), 8) == F.RowText(board, r, f, e) + W.SqueezeFrom(tail, 8)
    decreases 8 - f
  {
    if f == 8 {
      assert "" + tail == tail;
      RowEndSqueezed(e, tail);
    } else if board[16 * r + f].Empty? {
      RowSqueezed(board, r, f + 1, e + 1, tail);
      EmptySqueezed(board, r, f, e, tail);
    } else {
      RowSqueezed(board, r, f + 1, 0, tail);
      assert W.Ones(0) + (PlainRow(board, r, f + 1) + tail) == PlainRow(board, r, f + 1) + tail;
      PieceSqueezed(board, r, f, e, tail);
    }
  }

  lemma EmptySqueezed(board: seq<Cell>, r: nat, f: nat, e: nat, tail: string)
    requires |board| == 128 && r < 8 && e <= f < 8 && board[16 * r + f].Empty?
    ensures W.Ones(e) + (PlainRow(board, r, f) + tail) == W.Ones(e + 1) + (PlainRow(board, r, f + 1) + tail)
    ensures F.RowText(board, r, f, e) == F.RowText(board, r, f + 1, e + 1)
  {
    var rest := PlainRow(board, r, f + 1);
    Reassociate(['1'], rest, tail);
    OnesMore(e, rest + tail);
  }

  lemma PieceStep(e: nat, c: char, rest: string, row: string, squeezed: string)
    requires e <= 8 && c != '1' && W.SqueezeFrom(rest, 8) == row + squeezed
    ensures W.SqueezeFrom(W.Ones(e) + ([c] + rest), 8) == F.Count(e) + [c] + row + squeezed
  {
    SqueezeRun(e, c, rest, 8);
    assert Count(e) == F.Count(e);
    Reassociate(F.Count(e), [c], row + squeezed);
    Reassociate(F.Count(e) + [c], row, squeezed);
  }

  lemma PieceSqueezed(board: seq<Cell>, r: nat, f: nat, e: nat, tail: string)
    requires |board| == 128 && r < 8 && e <= f < 8 && board[16 * r + f].Full?
    requires W.SqueezeFrom(PlainRow(board, r, f + 1) + tail, 8) == F.RowText(board, r, f + 1, 0) + W.SqueezeFrom(tail, 8)
    ensures W.SqueezeFrom(W.Ones(e) + (PlainRow(board, r, f) + tail), 8) == F.RowText(board, r, f, e) + W.SqueezeFrom(tail, 8)
  {
    var c, rest := F.Symbol(board[16 * r + f].piece), PlainRow(board, r, f + 1);
    SameSymbol(board[16 * r + f].piece);
    assert [c] + rest + tail == [c] + (rest + tail);
    PieceStep(e, c, rest + tail, F.RowText(board, r, f + 1, 0), W.SqueezeFrom(tail, 8));
    F.RowTextPiece(board, r, f, e);
  }

  lemma {:induction false} RowsSqueezed(board: seq<Cell>, rows: seq<string>, r: nat)
    requires |board| == 128 && r < 8 && |rows| == 8 && forall i :: 0 <= i < 8 ==> rows[i] == PlainRow(board, i, 0)
    ensures W.SqueezeFrom(Join(rows[r..], '/'), 8) == Join(F.Rows(board)[r..], '/')
    decreases 8 - r
  {
    F.JoinFrom(rows, r, '/');
    F.JoinFrom(F.Rows(board), r, '/');
    var tail := if r == 7 then "" else ['/'] + Join(rows[r + 1..], '/');
    var row := PlainRow(board, r, 0);
    assert W.Ones(0) + (row + tail) == row + tail && rows[r] + "" == rows[r];
    RowSqueezed(board, r, 0, 0, tail);
    if r == 7 {
      SqueezeNothing(8);
      assert F.RowText(board, r, 0, 0) + "" == F.RowText(board, r, 0, 0);
    } else {
      SqueezePass('/', Join(rows[r + 1..], '/'), 8);
      RowsSqueezed(board, rows, r + 1);
    }
  }

  /** The widget prints the pieces of a board as the engine prints the board. */
  lemma PrintsAlike(board: seq<Cell>)
    requires |board| == 128
    ensures W.ValidPosition(Shown(board)) && W.FenOf(Shown(board)) == F.BoardText(board)
  {
    ShownIsValid(board);
    var rows := W.Rows(Shown(board));
    forall i | 0 <= i < 8
      ensures rows[i] == PlainRow(board, i, 0)
    {
      RowsShown(board, i);
    }
    RowsSqueezed(board, rows, 0);
    assert rows[0..] == rows && F.Rows(board)[0..] == F.Rows(board);
  }

  // --------------------------------------------------- reading the whole text

  lemma {:induction false} CutAt(a: string, rest: string)
    requires ' ' !in a && rest != "" && forall i :: 0 <= i < |rest| ==> !W.IsBreak(rest[i])
    ensures W.Cut(a + ([' '] + rest)) == a
    decreases |a|
  {
    var s := a + ([' '] + rest);
    if a == "" {
      assert s == [' '] + rest;
      assert forall i :: 1 <= i < |s| ==> s[i] == rest[i - 1];
    } else {
      assert s[0] == a[0] && a[0] in a && s[1..] == a[1..] + ([' '] + rest);
      CutAt(a[1..], rest);
    }
  }

  lemma {:induction false} JoinedHasNoBreak(words: seq<string>)
    requires F.SolidWords(words)
    ensures forall i :: 0 <= i < |Join(words, ' ')| ==> !W.IsBreak(Join(words, ' ')[i])
  {
    if |words| > 1 {
      JoinedHasNoBreak(words[1..]);
    } else if |words| == 1 {
      assert Solid(words[0]);
    }
  }

  lemma TextParts(p: Position) returns (rest: string)
    requires F.Loadable(p)
    ensures F.Printable(p) && F.GenerateFen(p) == F.BoardText(p.board) + ([' '] + rest)
    ensures rest != "" && forall i :: 0 <= i < |rest| ==> !W.IsBreak(rest[i])
  {
    F.FieldsSolid(p);
    var fields := F.Fields(p);
    rest := Join(fields[1..], ' ');
    SolidRest(fields);
    JoinedHasNoBreak(fields[1..]);
    F.JoinNonempty(fields[1..], ' ');
    assert fields[0..] == fields;
    F.JoinFrom(fields, 0, ' ');
  }

  lemma SolidRest(words: seq<string>)
    requires F.SolidWords(words) && words != []
    ensures F.SolidWords(words[1..])
  {
  }

  /** Of the engine's text the widget reads the board field. */
  lemma CutsToBoard(p: Position)
    requires F.Loadable(p)
    ensures F.Printable(p) && W.Cut(F.GenerateFen(p)) == F.BoardText(p.board)
  {
    var rest := TextParts(p);
    F.BoardTextValid(p.board);
    CutAt(F.BoardText(p.board), rest);
  }

  /** Given any text the engine prints, the widget shows the engine's pieces, each on its square, and nothing else. */
  lemma ShowsTheGame(p: Position, pos: W.Placing)
    requires F.Loadable(p)
    ensures F.Printable(p) && W.ValidFen(F.GenerateFen(p))
    ensures W.Describes(W.Chunks(F.GenerateFen(p)), pos) <==> pos == Shown(p.board)
  {
    CutsToBoard(p);
    PrintsAlike(p.board);
    W.WidgetRoundTrip(Shown(p.board), pos);
    W.FenHasNoSpace(Shown(p.board));
    W.CutNothing(W.FenOf(Shown(p.board)));
  }

  /** What stands on one square of the shown position. */
  lemma ShownSquare(board: seq<Cell>, i: int)
    requires |board| == 128 && OnBoard(i)
    ensures var s := San.Algebraic(i);
            && (s in Shown(board) <==> board[i].Full?)
            && (board[i].Full? ==> Shown(board)[s] == [if board[i].piece.color == White then 'w' else 'b', San.Letter(board[i].piece.kind)])
  {
    NamedSquare(File(i), 8 - Rank(i));
    assert SquareAt(File(i), 8 - Rank(i)) == i;
  }

  // --------------------------------------------------- squeezing is complete

  function PieceOfCode(code: string): Piece
    requires W.ValidPieceCode(code)
  {
    Piece(if code[1] == 'K' then King else if code[1] == 'Q' then Queen else if code[1] == 'R' then Rook
          else if code[1] == 'N' then Knight else if code[1] == 'B' then Bishop else Pawn,
          if code[0] == 'w' then White else Black)
  }

  lemma CodeRoundTrip(code: string)
    requires W.ValidPieceCode(code)
    ensures Code(PieceOfCode(code)) == code
  {
    assert code == [code[0], code[1]];
  }

  /** The board with these pieces. */
  function BoardOf(pos: W.Placing): (board: seq<Cell>)
    requires W.ValidPosition(pos)
    ensures |board| == 128
  {
    seq(128, i requires 0 <= i < 128 =>
      if OnBoard(i) && San.Algebraic(i) in pos then Full(PieceOfCode(pos[San.Algebraic(i)])) else Empty)
  }

  lemma SquareShown(pos: W.Placing, s: string)
    requires W.ValidPosition(pos) && W.ValidSquare(s)
    ensures s in Shown(BoardOf(pos)) <==> s in pos
    ensures s in pos ==> Shown(BoardOf(pos))[s] == pos[s]
  {
    W.NamedIsAll(s);
    var column, row := s[0] as int - 'a' as int, s[1] as int - '0' as int;
    NamedSquare(column, row);
    assert BoardOf(pos)[SquareAt(column, row)] == if s in pos then Full(PieceOfCode(pos[s])) else Empty;
    if s in pos {
      CodeRoundTrip(pos[s]);
    }
  }

  lemma SamePlacing(a: W.Placing, b: W.Placing)
    requires W.ValidPosition(a) && W.ValidPosition(b)
    requires forall s :: W.ValidSquare(s) ==> (s in a <==> s in b) && (s in b ==> a[s] == b[s])
    ensures a == b
  {
  }

  lemma BoardOfShown(pos: W.Placing)
    requires W.ValidPosition(pos)
    ensures Shown(BoardOf(pos)) == pos
  {
    ShownIsValid(BoardOf(pos));
    forall s | W.ValidSquare(s)
      ensures (s in Shown(BoardOf(pos)) <==> s in pos) && (s in pos ==> Shown(BoardOf(pos))[s] == pos[s])
    {
      SquareShown(pos, s);
    }
    SamePlacing(Shown(BoardOf(pos)), pos);
  }

  /** The text of every valid position is one the engine takes as a board field: eight rows, each of eight files, and
      no two digits side by side. */
  lemma SqueezedCompletely(pos: W.Placing)
    requires W.ValidPosition(pos)
    ensures V.GoodBoard(W.FenOf(pos))
  {
    BoardOfShown(pos);
    PrintsAlike(BoardOf(pos));
    F.BoardTextValid(BoardOf(pos));
    V.BoardAccepted(F.BoardText(BoardOf(pos)));
  }
}
