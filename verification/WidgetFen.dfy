/** The board widget's positions and their FEN text, with runs of empty squares squeezed into digits. */
module WidgetFen {
  import opened Basics
  import opened Text

  /** From squares such as "e2" to piece codes such as "wP". */
  type Placing = map<string, string>

  predicate ValidSquare(s: string) {
    |s| == 2 && 'a' <= s[0] <= 'h' && '1' <= s[1] <= '8'
  }

  predicate ValidPieceCode(code: string) {
    |code| == 2 && (code[0] == 'b' || code[0] == 'w') && code[1] in "KQRNBP"
  }

  predicate ValidPosition(pos: Placing) {
    forall s :: s in pos ==> ValidSquare(s) && ValidPieceCode(pos[s])
  }

  /** The square in column 0..7 and row 1..8. */
  function Named(column: int, row: int): (s: string)
    requires 0 <= column < 8 && 1 <= row <= 8
    ensures ValidSquare(s)
  {
    ['a' + column as char, '0' + row as char]
  }

  // -------------------------------------------------- the text replacements

  function Ones(n: nat): string {
    seq(n, i => '1')
  }

  function Digit(n: nat): char
    requires n < 10
  {
    '0' + n as char
  }

  /** `s.replace(/c/g, "1...1")` with n ones. */
  function ReplaceChar(s: string, c: char, n: nat): string {
    if s == "" then "" else (if s[0] == c then Ones(n) else [s[0]]) + ReplaceChar(s[1..], c, n)
  }

  /** `s.replace(/1...1/g, c)` with n ones: leftmost runs first, without overlap. */
  function ReplaceOnes(s: string, n: nat, c: char): string
    requires n > 0
    decreases |s|
  {
    if s == "" then ""
    else if |s| >= n && s[..n] == Ones(n) then [c] + ReplaceOnes(s[n..], n, c)
    else [s[0]] + ReplaceOnes(s[1..], n, c)
  }

  /** The replacements of n down to 2, largest first. */
  function SqueezeFrom(s: string, n: nat): string
    requires 1 <= n <= 8
    decreases n
  {
    if n == 1 then s else SqueezeFrom(ReplaceOnes(s, n, Digit(n)), n - 1)
  }

  function ExpandFrom(s: string, n: nat): string
    requires 1 <= n <= 8
    decreases n
  {
    if n == 1 then s else ExpandFrom(ReplaceChar(s, Digit(n), n), n - 1)
  }

  function SqueezeFenEmptySquares(fen: string): string {
    SqueezeFrom(fen, 8)
  }

  function ExpandFenEmptySquares(fen: string): string {
    ExpandFrom(fen, 8)
  }

  /** What one character stands for: a digit for that many empty squares, anything else for itself. */
  function Width(c: char): nat {
    if '2' <= c <= '8' then c as int - '0' as int else 1
  }

  function Cells(c: char): string {
    if '2' <= c <= '8' then Ones(Width(c)) else [c]
  }

  /** What a text stands for, read once from left to right. */
  function Spread(s: string): string {
    if s == "" then "" else Cells(s[0]) + Spread(s[1..])
  }

  lemma {:induction false} SpreadConcat(a: string, b: string)
    ensures Spread(a + b) == Spread(a) + Spread(b)
  {
    if a == "" {
      assert a + b == b;
    } else {
      assert (a + b)[1..] == a[1..] + b && (a + b)[0] == a[0];
      SpreadConcat(a[1..], b);
      assert Cells(a[0]) + (Spread(a[1..]) + Spread(b)) == (Cells(a[0]) + Spread(a[1..])) + Spread(b);
    }
  }

  lemma {:induction false} SpreadPlain(s: string)
    requires forall i :: 0 <= i < |s| ==> !('2' <= s[i] <= '8')
    ensures Spread(s) == s
  {
    if s != "" {
      SpreadPlain(s[1..]);
      assert [s[0]] + s[1..] == s;
    }
  }

  lemma SpreadOnes(n: nat)
    ensures Spread(Ones(n)) == Ones(n)
  {
    SpreadPlain(Ones(n));
  }

  /** Replacing a run by its digit keeps what the text stands for. */
  lemma {:induction false} ReplaceOnesSpreads(s: string, n: nat)
    requires 2 <= n <= 8
    ensures Spread(ReplaceOnes(s, n, Digit(n))) == Spread(s)
    decreases |s|
  {
    if s != "" {
      if |s| >= n && s[..n] == Ones(n) {
        ReplaceOnesSpreads(s[n..], n);
        assert s == Ones(n) + s[n..];
        SpreadConcat(Ones(n), s[n..]);
        SpreadOnes(n);
        SpreadHead(Digit(n), ReplaceOnes(s[n..], n, Digit(n)));
      } else {
        ReplaceOnesSpreads(s[1..], n);
        SpreadHead(s[0], ReplaceOnes(s[1..], n, Digit(n)));
      }
    }
  }

  lemma SpreadHead(c: char, s: string)
    ensures Spread([c] + s) == Cells(c) + Spread(s)
  {
    assert ([c] + s)[1..] == s;
  }

  lemma {:induction false} SqueezeSpreads(s: string, n: nat)
    requires 1 <= n <= 8
    ensures Spread(SqueezeFrom(s, n)) == Spread(s)
    decreases n
  {
    if n > 1 {
      ReplaceOnesSpreads(s, n);
      SqueezeSpreads(ReplaceOnes(s, n, Digit(n)), n - 1);
    }
  }

  lemma {:induction false} ReplaceCharSpreads(s: string, n: nat)
    requires 2 <= n <= 8
    ensures Spread(ReplaceChar(s, Digit(n), n)) == Spread(s)
  {
    if s != "" {
      var rest := ReplaceChar(s[1..], Digit(n), n);
      ReplaceCharSpreads(s[1..], n);
      if s[0] == Digit(n) {
        SpreadConcat(Ones(n), rest);
        SpreadOnes(n);
      } else {
        SpreadHead(s[0], rest);
      }
    }
  }

  /** After the replacement that digit is gone, and no other character but 1 is new. */
  lemma {:induction false} ReplaceCharGone(s: string, c: char, n: nat, x: char)
    requires x in ReplaceChar(s, c, n) && c != '1'
    ensures x != c && (x == '1' || x in s)
  {
    var head := if s[0] == c then Ones(n) else [s[0]];
    if x !in head {
      ReplaceCharGone(s[1..], c, n, x);
    }
  }

  lemma ReplaceCharBelow(s: string, n: nat)
    requires 2 <= n <= 8 && forall c :: c in s ==> !(Digit(n) < c <= '8')
    ensures forall c :: c in ReplaceChar(s, Digit(n), n) ==> !(Digit(n - 1) < c <= '8')
  {
    forall c | c in ReplaceChar(s, Digit(n), n)
      ensures !(Digit(n - 1) < c <= '8')
    {
      ReplaceCharGone(s, Digit(n), n, c);
    }
  }

  lemma {:induction false} ExpandSpreads(s: string, n: nat)
    requires 1 <= n <= 8
    requires forall c :: c in s ==> !(Digit(n) < c <= '8')
    ensures ExpandFrom(s, n) == Spread(s)
    decreases n
  {
    if n > 1 {
      ReplaceCharSpreads(s, n);
      ReplaceCharBelow(s, n);
      ExpandSpreads(ReplaceChar(s, Digit(n), n), n - 1);
    } else {
      assert forall i :: 0 <= i < |s| ==> s[i] in s;
      SpreadPlain(s);
    }
  }

  /** Seven replacements in a row amount to one reading of the text. */
  lemma ExpandIsSpread(s: string)
    ensures ExpandFenEmptySquares(s) == Spread(s)
  {
    ExpandSpreads(s, 8);
  }

  /** Squeezing undone by expanding gives what the text stands for, and squeezing loses nothing. */
  lemma SqueezeExpand(s: string)
    ensures ExpandFenEmptySquares(SqueezeFenEmptySquares(s)) == ExpandFenEmptySquares(s)
  {
    SqueezeSpreads(s, 8);
    ExpandIsSpread(s);
    ExpandIsSpread(SqueezeFenEmptySquares(s));
  }

  // -------------------------------------------------------------- validity

  predicate IsBreak(c: char) {
    c == '\n' || c == '\r' || c == '\U{2028}' || c == '\U{2029}'
  }

  /** `s.replace(/ .+$/, "")`. */
  function Cut(s: string): string {
    if s == "" then ""
    else if s[0] == ' ' && |s| > 1 && forall i :: 1 <= i < |s| ==> !IsBreak(s[i]) then ""
    else [s[0]] + Cut(s[1..])
  }

  const PIECES := "kqrnbpKQRNBP"

  predicate ValidChunk(chunk: string) {
    |chunk| == 8 && forall j :: 0 <= j < 8 ==> chunk[j] in PIECES || chunk[j] == '1'
  }

  predicate ValidChunks(chunks: seq<string>) {
    |chunks| == 8 && forall i :: 0 <= i < 8 ==> ValidChunk(chunks[i])
  }

  /** The eight rows of a text, spread out. */
  function Chunks(fen: string): seq<string> {
    SplitOn(ExpandFenEmptySquares(Cut(fen)), '/')
  }

  predicate ValidFen(fen: string) {
    ValidChunks(Chunks(fen))
  }

  // ----------------------------------------------------------- piece letters

  predicate IsLower(c: char) {
    'a' <= c <= 'z'
  }

  function Upper(c: char): char {
    if IsLower(c) then c - 'a' + 'A' else c
  }

  function Lower(c: char): char {
    if 'A' <= c <= 'Z' then c - 'A' + 'a' else c
  }

  function FenToPieceCode(c: char): string {
    (if Lower(c) == c then "b" else "w") + [Upper(c)]
  }

  function PieceCodeToFen(code: string): char
    requires |code| == 2
  {
    if code[0] == 'w' then Upper(code[1]) else Lower(code[1])
  }

  /** Letters and codes correspond one to one. */
  lemma LettersRoundTrip(code: string, c: char)
    ensures ValidPieceCode(code) ==> PieceCodeToFen(code) in PIECES && FenToPieceCode(PieceCodeToFen(code)) == code
    ensures c in PIECES ==> ValidPieceCode(FenToPieceCode(c)) && PieceCodeToFen(FenToPieceCode(c)) == c
  {
  }

  // --------------------------------------------------- what a position's text is

  function CellText(pos: Placing, column: int, row: int): char
    requires ValidPosition(pos) && 0 <= column < 8 && 1 <= row <= 8
  {
    if Named(column, row) in pos then PieceCodeToFen(pos[Named(column, row)]) else '1'
  }

  function RowText(pos: Placing, row: int): string
    requires ValidPosition(pos) && 1 <= row <= 8
  {
    seq(8, j requires 0 <= j < 8 => CellText(pos, j, row))
  }

  /** The eight rows of a position, the eighth row first. */
  function Rows(pos: Placing): seq<string>
    requires ValidPosition(pos)
  {
    seq(8, i requires 0 <= i < 8 => RowText(pos, 8 - i))
  }

  /** The text of a position: its rows joined and squeezed. */
  function FenOf(pos: Placing): string
    requires ValidPosition(pos)
  {
    SqueezeFenEmptySquares(Join(Rows(pos), '/'))
  }

  /** The cell (i, j) is read before the cell (row, column). */
  predicate Before(i: int, j: int, row: int, column: int) {
    i < row || (i == row && j < column)
  }

  /** Cell (i, j) is in the position if it was read before cell (row, column) and holds a piece. */
  ghost predicate CellRead(pos: Placing, chunks: seq<string>, i: int, j: int, row: int, column: int)
    requires ValidChunks(chunks) && 0 <= i < 8 && 0 <= j < 8
  {
    if Before(i, j, row, column) && chunks[i][j] != '1'
    then Named(j, 8 - i) in pos && pos[Named(j, 8 - i)] == FenToPieceCode(chunks[i][j])
    else Named(j, 8 - i) !in pos
  }

  /** The position in the cells of the rows read before cell (row, column). */
  ghost predicate ReadsTo(pos: Placing, chunks: seq<string>, row: int, column: int)
    requires ValidChunks(chunks)
  {
    && (forall s :: s in pos ==> ValidSquare(s))
    && (forall i, j :: 0 <= i < 8 && 0 <= j < 8 ==> CellRead(pos, chunks, i, j, row, column))
  }

  /** The position that the rows describe. */
  ghost predicate Describes(chunks: seq<string>, pos: Placing)
    requires ValidChunks(chunks)
  {
    ReadsTo(pos, chunks, 8, 0)
  }

  lemma NamedIsAll(s: string)
    requires ValidSquare(s)
    ensures var column, row := s[0] as int - 'a' as int, s[1] as int - '0' as int;
            0 <= column < 8 && 1 <= row <= 8 && Named(column, row) == s
  {
  }

  /** Rows describe one position, and a position has one set of rows. */
  lemma DescriptionUnique(chunks: seq<string>, pos: Placing)
    requires ValidChunks(chunks) && Describes(chunks, pos)
    ensures ValidPosition(pos) && Rows(pos) == chunks
  {
    forall s | s in pos
      ensures ValidPieceCode(pos[s])
    {
      NamedIsAll(s);
      var column, row := s[0] as int - 'a' as int, s[1] as int - '0' as int;
      assert CellRead(pos, chunks, 8 - row, column, 8, 0);
      LettersRoundTrip(pos[s], chunks[8 - row][column]);
    }
    forall i, j | 0 <= i < 8 && 0 <= j < 8
      ensures Rows(pos)[i][j] == chunks[i][j]
    {
      assert CellRead(pos, chunks, i, j, 8, 0);
      LettersRoundTrip("", chunks[i][j]);
      assert Rows(pos)[i][j] == CellText(pos, j, 8 - i);
    }
    forall i | 0 <= i < 8
      ensures Rows(pos)[i] == chunks[i]
    {
    }
  }

  lemma RowsDescribe(pos: Placing)
    requires ValidPosition(pos)
    ensures ValidChunks(Rows(pos)) && Describes(Rows(pos), pos)
  {
    forall i, j | 0 <= i < 8 && 0 <= j < 8
      ensures Rows(pos)[i][j] in PIECES || Rows(pos)[i][j] == '1'
      ensures Rows(pos)[i][j] != '1' <==> Named(j, 8 - i) in pos
      ensures Named(j, 8 - i) in pos ==> pos[Named(j, 8 - i)] == FenToPieceCode(Rows(pos)[i][j])
    {
      assert Rows(pos)[i][j] == CellText(pos, j, 8 - i);
      if Named(j, 8 - i) in pos {
        LettersRoundTrip(pos[Named(j, 8 - i)], '1');
      }
    }
  }

  lemma SamePlacing(chunks: seq<string>, p: Placing, q: Placing)
    requires ValidChunks(chunks) && Describes(chunks, p) && Describes(chunks, q)
    ensures p == q
  {
    forall s | ValidSquare(s)
      ensures (s in p <==> s in q) && (s in p ==> p[s] == q[s])
    {
      NamedIsAll(s);
      var column, row := s[0] as int - 'a' as int, s[1] as int - '0' as int;
      assert CellRead(p, chunks, 8 - row, column, 8, 0) && CellRead(q, chunks, 8 - row, column, 8, 0);
    }
  }

  // ------------------------------------------------------------ the methods

  /** What follows row i in the joined text. */
  function After(rows: seq<string>, i: nat): string
    requires i < |rows|
  {
    if i == |rows| - 1 then "" else ['/'] + Join(rows[i + 1..], '/')
  }

  lemma JoinAt(rows: seq<string>, i: nat)
    requires i < |rows|
    ensures Join(rows[i..], '/') == rows[i] + After(rows, i)
  {
    assert rows[i..][0] == rows[i] && rows[i..][1..] == rows[i + 1..];
    Reassociate(rows[i], ['/'], Join(rows[i + 1..], '/'));
    assert rows[i] + "" == rows[i];
  }

  /** One row, cell after cell. */
  method PrintRow(pos: Placing, currentRow: int, before: string) returns (text: string)
    requires ValidPosition(pos) && 1 <= currentRow <= 8
    ensures text == before + RowText(pos, currentRow)
  {
    var row := "";
    for j := 0 to 8
      invariant |row| == j && forall k :: 0 <= k < j ==> row[k] == CellText(pos, k, currentRow)
    {
      var square := Named(j, currentRow);
      if square in pos {
        row := row + [PieceCodeToFen(pos[square])];
      } else {
        row := row + ['1'];
      }
    }
    assert row == RowText(pos, currentRow);
    text := before + row;
  }

  /** Printing row i moves the text on by it and, but for the last one, a slash. */
  lemma RowPrinted(rows: seq<string>, i: nat, text: string)
    requires i < |rows|
    ensures text + Join(rows[i..], '/')
            == if i == |rows| - 1 then text + rows[i] else text + rows[i] + ['/'] + Join(rows[i + 1..], '/')
  {
    JoinAt(rows, i);
    Reassociate(text, rows[i], After(rows, i));
    if i < |rows| - 1 {
      Reassociate(text + rows[i], ['/'], Join(rows[i + 1..], '/'));
    } else {
      assert text + rows[i] + "" == text + rows[i];
    }
  }

  /** Position object to FEN; fails exactly for an invalid object. */
  method ObjToFen(pos: Placing) returns (fen: Option<string>)
    ensures fen == if ValidPosition(pos) then Some(FenOf(pos)) else None
  {
    if !ValidPosition(pos) {
      return None;
    }
    var text := "";
    var currentRow := 8;
    ghost var rows, goal := Rows(pos), Join(Rows(pos), '/');
    assert rows[0..] == rows && "" + goal == goal;
    for i := 0 to 8
      invariant currentRow == 8 - i
      invariant if i == 8 then text == goal else text + Join(rows[i..], '/') == goal
    {
      RowPrinted(rows, i, text);
      text := PrintRow(pos, currentRow, text);
      if i != 7 {
        text := text + ['/'];
      }
      currentRow := currentRow - 1;
    }
    fen := Some(SqueezeFenEmptySquares(text));
  }

  lemma {:induction false} SpreadSlash(s: string)
    ensures '/' in Spread(s) <==> '/' in s
  {
    if s != "" {
      SpreadSlash(s[1..]);
    }
  }

  lemma SplitFirst(word: string, rest: string)
    requires '/' !in word
    ensures SplitOn(word + (['/'] + rest), '/') == [word] + SplitOn(rest, '/')
  {
    var s := word + (['/'] + rest);
    PrefixBeforeWord(word, ['/'] + rest, '/');
    assert s[..|word|] == word && s[|word| + 1..] == rest;
  }

  lemma SplitNone(word: string)
    requires '/' !in word
    ensures SplitOn(word, '/') == [word]
  {
    PrefixBeforeWord(word, "", '/');
    assert word + "" == word;
  }

  /** A text is one row, or a row, a slash and the rest. */
  lemma FirstRow(s: string) returns (word: string, rest: Option<string>)
    ensures '/' !in word && (rest.Some? ==> |rest.value| < |s|)
    ensures s == if rest.Some? then word + (['/'] + rest.value) else word
  {
    var n := PrefixBefore(s, '/');
    word, rest := s[..n], if n < |s| then Some(s[n + 1..]) else None;
  }

  function SpreadAll(words: seq<string>): seq<string> {
    seq(|words|, i requires 0 <= i < |words| => Spread(words[i]))
  }

  lemma SpreadAllCons(word: string, rest: seq<string>)
    ensures SpreadAll([word] + rest) == [Spread(word)] + SpreadAll(rest)
    ensures SpreadAll([word]) == [Spread(word)]
  {
  }

  /** Spreading and splitting into rows may be done in either order. */
  lemma {:induction false} SplitSpread(s: string)
    ensures SplitOn(Spread(s), '/') == SpreadAll(SplitOn(s, '/'))
    decreases |s|
  {
    var word, rest := FirstRow(s);
    SpreadSlash(word);
    match rest
    case None =>
      SplitNone(word);
      SplitNone(Spread(word));
      SpreadAllCons(word, []);
    case Some(tail) =>
      SpreadConcat(word, ['/'] + tail);
      SpreadHead('/', tail);
      SplitFirst(word, tail);
      SplitFirst(Spread(word), Spread(tail));
      SplitSpread(tail);
      SpreadAllCons(word, SplitOn(tail, '/'));
  }

  /** Where in the spread row the cells of the j-th character are. */
  lemma CellsAt(row: string, j: nat)
    requires j < |row|
    ensures var k, cells, all := |Spread(row[..j])|, Cells(row[j]), Spread(row);
            && Spread(row[..j + 1]) == Spread(row[..j]) + cells && k + |cells| <= |all|
            && all[k..k + |cells|] == cells
  {
    assert row[..j + 1] == row[..j] + [row[j]] && row == row[..j + 1] + row[j + 1..];
    SpreadConcat(row[..j], [row[j]]);
    SpreadHead(row[j], "");
    assert [row[j]] + "" == [row[j]] && Cells(row[j]) + "" == Cells(row[j]);
    SpreadConcat(row[..j + 1], row[j + 1..]);
  }

  lemma EmptyRead(pos: Placing, chunks: seq<string>, i: nat, k: nat, n: nat)
    requires ValidChunks(chunks) && i < 8 && k + n <= 8 && ReadsTo(pos, chunks, i, k)
    requires forall j :: k <= j < k + n ==> chunks[i][j] == '1'
    ensures ReadsTo(pos, chunks, i, k + n)
  {
    var end := k + n;
    forall a, b | 0 <= a < 8 && 0 <= b < 8
      ensures CellRead(pos, chunks, a, b, i, end)
    {
      assert CellRead(pos, chunks, a, b, i, k);
    }
  }

  lemma RowRead(pos: Placing, chunks: seq<string>, i: nat)
    requires ValidChunks(chunks) && i < 8 && ReadsTo(pos, chunks, i, 8)
    ensures ReadsTo(pos, chunks, i + 1, 0)
  {
    var next := i + 1;
    forall a, b | 0 <= a < 8 && 0 <= b < 8
      ensures CellRead(pos, chunks, a, b, next, 0)
    {
      assert CellRead(pos, chunks, a, b, i, 8);
    }
  }

  lemma NamesDiffer(a: int, b: int, c: int, d: int)
    requires 0 <= a < 8 && 1 <= b <= 8 && 0 <= c < 8 && 1 <= d <= 8 && (a != c || b != d)
    ensures Named(a, b) != Named(c, d)
  {
    assert Named(a, b)[0] != Named(c, d)[0] || Named(a, b)[1] != Named(c, d)[1];
  }

  lemma PieceRead(pos: Placing, chunks: seq<string>, i: nat, k: nat)
    requires ValidChunks(chunks) && i < 8 && k < 8 && ReadsTo(pos, chunks, i, k) && chunks[i][k] != '1'
    ensures ReadsTo(pos[Named(k, 8 - i) := FenToPieceCode(chunks[i][k])], chunks, i, k + 1)
  {
    var pos' := pos[Named(k, 8 - i) := FenToPieceCode(chunks[i][k])];
    var end := k + 1;
    forall a, b | 0 <= a < 8 && 0 <= b < 8
      ensures CellRead(pos', chunks, a, b, i, end)
    {
      assert CellRead(pos, chunks, a, b, i, k);
      if a != i || b != k {
        NamesDiffer(b, 8 - a, k, 8 - i);
      }
    }
  }

  /** The cells of the j-th character, in the row they belong to. */
  lemma CellsThere(row: string, j: nat, k: nat, chunk: string)
    requires j < |row| && chunk == Spread(row) && k == |Spread(row[..j])|
    ensures k + |Cells(row[j])| == |Spread(row[..j + 1])| <= |chunk|
    ensures forall i :: k <= i < k + |Cells(row[j])| ==> chunk[i] == if '2' <= row[j] <= '8' then '1' else row[j]
  {
    CellsAt(row, j);
    var cells := Cells(row[j]);
    forall i | k <= i < k + |cells|
      ensures chunk[i] == cells[i - k]
    {
      assert chunk[k..k + |cells|][i - k] == cells[i - k];
    }
  }

  /** One character of a row: skip as many squares as the digit says, or place a piece. */
  method ReadCharacter(pos: Placing, c: char, colIdx: nat, currentRow: int, ghost chunks: seq<string>, ghost chunk: string)
    returns (pos': Placing, colIdx': nat)
    requires ValidChunks(chunks) && 1 <= currentRow <= 8 && chunk == chunks[8 - currentRow] && colIdx + |Cells(c)| <= 8
    requires forall i :: colIdx <= i < colIdx + |Cells(c)| ==> chunk[i] == if '2' <= c <= '8' then '1' else c
    requires ReadsTo(pos, chunks, 8 - currentRow, colIdx)
    ensures colIdx' == colIdx + |Cells(c)| && ReadsTo(pos', chunks, 8 - currentRow, colIdx')
  {
    if '1' <= c <= '8' {
      colIdx' := colIdx + (c as int - '0' as int);
      pos' := pos;
      EmptyRead(pos, chunks, 8 - currentRow, colIdx, |Cells(c)|);
    } else {
      PieceRead(pos, chunks, 8 - currentRow, colIdx);
      pos' := pos[Named(colIdx, currentRow) := FenToPieceCode(c)];
      colIdx' := colIdx + 1;
    }
  }

  /** One row of the text, character after character. */
  method ReadRow(before: Placing, row: string, currentRow: int, ghost chunks: seq<string>) returns (pos: Placing)
    requires ValidChunks(chunks) && 1 <= currentRow <= 8 && chunks[8 - currentRow] == Spread(row)
    requires ReadsTo(before, chunks, 8 - currentRow, 0)
    ensures ReadsTo(pos, chunks, 9 - currentRow, 0)
  {
    pos := before;
    var colIdx := 0;
    for j := 0 to |row|
      invariant colIdx == |Spread(row[..j])| && ReadsTo(pos, chunks, 8 - currentRow, colIdx)
    {
      CellsThere(row, j, colIdx, chunks[8 - currentRow]);
      pos, colIdx := ReadCharacter(pos, row[j], colIdx, currentRow, chunks, chunks[8 - currentRow]);
    }
    assert row[..|row|] == row;
    RowRead(pos, chunks, 8 - currentRow);
  }

  /** The rows of the text and the rows of its spread form. */
  lemma RowsOfChunks(fen: string)
    requires ValidFen(fen)
    ensures |SplitOn(Cut(fen), '/')| == 8
    ensures forall i :: 0 <= i < 8 ==> Chunks(fen)[i] == Spread(SplitOn(Cut(fen), '/')[i])
  {
    ExpandIsSpread(Cut(fen));
    SplitSpread(Cut(fen));
  }

  /** FEN to position object; fails exactly for an invalid text. */
  method FenToObj(fen: string) returns (pos: Option<Placing>)
    ensures pos.Some? <==> ValidFen(fen)
    ensures pos.Some? ==> Describes(Chunks(fen), pos.value)
  {
    if !ValidFen(fen) {
      return None;
    }
    ghost var chunks := Chunks(fen);
    var rows := SplitOn(Cut(fen), '/');
    RowsOfChunks(fen);
    var position: Placing := map[];
    var currentRow := 8;
    for i := 0 to 8
      invariant currentRow == 8 - i && ReadsTo(position, chunks, i, 0)
    {
      position := ReadRow(position, rows[i], currentRow, chunks);
      currentRow := currentRow - 1;
    }
    pos := Some(position);
  }

  // --------------------------------------------------------- the round trips

  lemma {:induction false} CutNothing(s: string)
    requires ' ' !in s
    ensures Cut(s) == s
  {
    if s != "" {
      assert s[0] in s && forall c :: c in s[1..] ==> c in s;
      CutNothing(s[1..]);
      assert [s[0]] + s[1..] == s;
    }
  }

  lemma {:induction false} SqueezeAdds(s: string, n: nat, x: char)
    requires 1 <= n <= 8 && x in SqueezeFrom(s, n) && !('2' <= x <= '8')
    ensures x in s
    decreases n
  {
    if n > 1 {
      SqueezeAdds(ReplaceOnes(s, n, Digit(n)), n - 1, x);
      ReplaceOnesAdds(s, n, Digit(n), x);
    }
  }

  lemma {:induction false} ReplaceOnesAdds(s: string, n: nat, c: char, x: char)
    requires n > 0 && x in ReplaceOnes(s, n, c) && x != c
    ensures x in s
    decreases |s|
  {
    if |s| >= n && s[..n] == Ones(n) {
      ReplaceOnesAdds(s[n..], n, c, x);
    } else if x != s[0] {
      ReplaceOnesAdds(s[1..], n, c, x);
    }
  }

  lemma {:induction false} JoinMember(words: seq<string>, c: char, x: char)
    requires x in Join(words, c)
    ensures x == c || exists i :: 0 <= i < |words| && x in words[i]
  {
    if |words| == 1 {
      assert x in words[0];
    } else if x !in words[0] && x != c {
      JoinMember(words[1..], c, x);
      var i :| 0 <= i < |words[1..]| && x in words[1..][i];
      assert x in words[i + 1];
    }
  }

  lemma {:induction false} JoinSplit(s: string, c: char)
    ensures Join(SplitOn(s, c), c) == s
    decreases |s|
  {
    var n := PrefixBefore(s, c);
    if n < |s| {
      JoinSplit(s[n + 1..], c);
      assert SplitOn(s, c)[1..] == SplitOn(s[n + 1..], c);
      assert s[..n] + [s[n]] + s[n + 1..] == s;
    }
  }

  lemma RowsArePlain(pos: Placing, x: char)
    requires ValidPosition(pos) && x in Join(Rows(pos), '/')
    ensures x == '/' || x in PIECES || x == '1'
  {
    JoinMember(Rows(pos), '/', x);
    RowsDescribe(pos);
    if x != '/' {
      var i :| 0 <= i < 8 && x in Rows(pos)[i];
      var j :| 0 <= j < 8 && Rows(pos)[i][j] == x;
    }
  }

  lemma FenHasNoSpace(pos: Placing)
    requires ValidPosition(pos)
    ensures ' ' !in FenOf(pos)
  {
    if ' ' in FenOf(pos) {
      SqueezeAdds(Join(Rows(pos), '/'), 8, ' ');
      RowsArePlain(pos, ' ');
    }
  }

  lemma RowsSpread(pos: Placing)
    requires ValidPosition(pos)
    ensures Spread(Join(Rows(pos), '/')) == Join(Rows(pos), '/')
  {
    var text := Join(Rows(pos), '/');
    forall i | 0 <= i < |text|
      ensures !('2' <= text[i] <= '8')
    {
      RowsArePlain(pos, text[i]);
    }
    SpreadPlain(text);
  }

  lemma FenExpands(pos: Placing)
    requires ValidPosition(pos)
    ensures ExpandFenEmptySquares(Cut(FenOf(pos))) == Join(Rows(pos), '/')
  {
    FenHasNoSpace(pos);
    CutNothing(FenOf(pos));
    SqueezeExpand(Join(Rows(pos), '/'));
    ExpandIsSpread(Join(Rows(pos), '/'));
    RowsSpread(pos);
  }

  lemma RowsSplit(pos: Placing)
    requires ValidPosition(pos)
    ensures SplitOn(Join(Rows(pos), '/'), '/') == Rows(pos)
  {
    RowsDescribe(pos);
    SplitOnJoin(Rows(pos), '/');
  }

  /** The rows of the text of a valid position are the position's rows. */
  lemma FenOfReads(pos: Placing)
    requires ValidPosition(pos)
    ensures Chunks(FenOf(pos)) == Rows(pos)
  {
    FenExpands(pos);
    RowsSplit(pos);
  }

  /** For every valid position, reading its text gives the position back. */
  lemma WidgetRoundTrip(pos: Placing, read: Placing)
    requires ValidPosition(pos)
    ensures ValidFen(FenOf(pos))
    ensures Describes(Chunks(FenOf(pos)), read) <==> read == pos
  {
    FenOfReads(pos);
    RowsDescribe(pos);
    if Describes(Rows(pos), read) {
      SamePlacing(Rows(pos), read, pos);
    }
  }

  /** For every valid text, the text of what was read stands for the same rows, and is read the same way. */
  lemma TextRoundTrip(fen: string, pos: Placing)
    requires ValidFen(fen) && Describes(Chunks(fen), pos)
    ensures ValidPosition(pos) && Chunks(FenOf(pos)) == Chunks(fen)
    ensures ExpandFenEmptySquares(FenOf(pos)) == ExpandFenEmptySquares(Cut(fen))
  {
    DescriptionUnique(Chunks(fen), pos);
    FenOfReads(pos);
    SqueezeExpand(Join(Rows(pos), '/'));
    JoinSplit(ExpandFenEmptySquares(Cut(fen)), '/');
    ExpandIsSpread(Cut(fen));
    SpreadTwice(Cut(fen));
    ExpandIsSpread(Spread(Cut(fen)));
  }

  lemma {:induction false} SpreadTwice(s: string)
    ensures Spread(Spread(s)) == Spread(s)
  {
    if s != "" {
      SpreadTwice(s[1..]);
      SpreadConcat(Cells(s[0]), Spread(s[1..]));
      SpreadPlain(Cells(s[0]));
    }
  }
}
