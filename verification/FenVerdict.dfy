/** What the validator of FEN texts accepts, read off the text by index: independent of the order of its tests. */
module FenVerdict {
  import opened Basics
  import opened Text
  import opened Fen

  // ------------------------------------------------------------------- rows

  predicate Known(c: char) {
    c in "0123456789" || c in "prnbqkPRNBQK"
  }

  /** A character that may not stand where it stands: unknown, or a digit after a digit. */
  predicate Offends(row: string, i: nat)
    requires i < |row|
  {
    !Known(row[i]) || (i > 0 && row[i] in "0123456789" && row[i - 1] in "0123456789")
  }

  predicate FirstOffence(row: string, i: nat) {
    i < |row| && Offends(row, i) && forall j: nat :: j < i ==> !Offends(row, j)
  }

  predicate Clean(row: string) {
    forall j: nat :: j < |row| ==> !Offends(row, j)
  }

  /** The files that the first n characters stand for. */
  function Width(row: string, n: nat): int
    requires n <= |row|
  {
    if n == 0 then 0 else Width(row, n - 1) + if IsDigit(row[n - 1]) then row[n - 1] as int - '0' as int else 1
  }

  lemma KnownMeans(c: char)
    ensures c in "0123456789" <==> IsDigit(c)
    ensures c in "prnbqkPRNBQK" <==> PieceChar(c)
  {
    var digits, pieces := "0123456789", "prnbqkPRNBQK";
    if c in digits {
      var i :| 0 <= i < |digits| && digits[i] == c;
    }
    if IsDigit(c) {
      assert digits[c as int - '0' as int] == c;
    }
    if PieceChar(c) {
      assert pieces[0] == 'p' && pieces[1] == 'r' && pieces[2] == 'n' && pieces[3] == 'b' && pieces[4] == 'q' && pieces[5] == 'k';
      assert pieces[6] == 'P' && pieces[7] == 'R' && pieces[8] == 'N' && pieces[9] == 'B' && pieces[10] == 'Q' && pieces[11] == 'K';
    }
  }

  /** The verdict on the rest of a row from index n on. */
  ghost predicate VerdictFrom(row: string, n: nat, error: int) {
    && (error == 0 || error == 8 || error == 9 || error == 10)
    && (error == 0 ==> Clean(row) && n <= |row| && Width(row, |row|) == 8)
    && (error == 10 ==> Clean(row) && n <= |row| && Width(row, |row|) != 8)
    && (error == 8 ==> exists i: nat :: FirstOffence(row, i) && Known(row[i]))
    && (error == 9 ==> exists i: nat :: FirstOffence(row, i) && !Known(row[i]))
  }

  lemma {:induction false} RestVerdict(row: string, n: nat)
    requires n <= |row| && forall j: nat :: j < n ==> !Offends(row, j)
    ensures VerdictFrom(row, n, RowError(row[n..], Width(row, n), n > 0 && IsDigit(row[n - 1])))
    decreases |row| - n
  {
    if n < |row| {
      KnownMeans(row[n]);
      if n > 0 {
        KnownMeans(row[n - 1]);
      }
      assert row[n..][0] == row[n] && row[n..][1..] == row[n + 1..];
      if Offends(row, n) {
        assert FirstOffence(row, n);
      } else {
        RestVerdict(row, n + 1);
      }
    }
  }

  lemma OneFirst(row: string, i: nat, j: nat)
    requires FirstOffence(row, i) && FirstOffence(row, j)
    ensures i == j
  {
  }

  /** The verdict on a row: 9 or 8 for its first offending character, an unknown one or a digit after a digit; 10 if
      none offends but the widths do not add up to 8; 0 if they do. */
  lemma RowVerdict(row: string)
    ensures var error := RowError(row, 0, false);
            && (error == 0 <==> Clean(row) && Width(row, |row|) == 8)
            && (error == 10 <==> Clean(row) && Width(row, |row|) != 8)
            && (error == 8 <==> exists i: nat :: FirstOffence(row, i) && Known(row[i]))
            && (error == 9 <==> exists i: nat :: FirstOffence(row, i) && !Known(row[i]))
  {
    assert row[0..] == row;
    RestVerdict(row, 0);
    if i: nat, j: nat :| FirstOffence(row, i) && FirstOffence(row, j) && Known(row[i]) && !Known(row[j]) {
      OneFirst(row, i, j);
    }
  }

  // ------------------------------------------------------------- the fields

  predicate GoodRow(row: string) {
    Clean(row) && Width(row, |row|) == 8
  }

  lemma {:induction false} PiecesJoin(s: string, c: char)
    ensures Join(SplitOn(s, c), c) == s
    ensures forall i :: 0 <= i < |SplitOn(s, c)| ==> c !in SplitOn(s, c)[i]
    decreases |s|
  {
    var n := PrefixBefore(s, c);
    if n < |s| {
      var rest := SplitOn(s[n + 1..], c);
      PiecesJoin(s[n + 1..], c);
      JoinMore(s[..n], rest, c);
      assert s == s[..n] + [c] + s[n + 1..];
    } else {
      assert s[..n] == s;
    }
  }

  lemma JoinMore(word: string, words: seq<string>, c: char)
    requires words != []
    ensures Join([word] + words, c) == word + [c] + Join(words, c)
  {
    assert ([word] + words)[1..] == words;
  }

  /** Eight rows with strokes between them, each row well filled. */
  ghost predicate GoodBoard(text: string) {
    exists rows: seq<string> :: |rows| == 8 && text == Join(rows, '/') && (forall i :: 0 <= i < 8 ==> '/' !in rows[i] && GoodRow(rows[i]))
  }

  lemma {:induction false} RowsAreGood(rows: seq<string>)
    ensures RowsError(rows) == 0 <==> forall i :: 0 <= i < |rows| ==> GoodRow(rows[i])
  {
    if rows != [] {
      RowVerdict(rows[0]);
      RowsAreGood(rows[1..]);
      assert forall i :: 1 <= i < |rows| ==> rows[i] == rows[1..][i - 1];
      assert forall i :: 0 <= i < |rows| - 1 ==> rows[1..][i] == rows[i + 1];
    }
  }

  lemma BoardAccepted(text: string)
    ensures |SplitOn(text, '/')| == 8 && RowsError(SplitOn(text, '/')) == 0 <==> GoodBoard(text)
  {
    PiecesJoin(text, '/');
    RowsAreGood(SplitOn(text, '/'));
    if GoodBoard(text) {
      var rows :| |rows| == 8 && text == Join(rows, '/') && forall i :: 0 <= i < 8 ==> '/' !in rows[i] && GoodRow(rows[i]);
      SplitOnJoin(rows, '/');
    }
  }

  /** Some of the letters K, Q, k and q in this order, or a dash for none. */
  ghost predicate GoodRights(text: string) {
    text == "-" || (text != "" && exists K, Q, k, q :: Selection(text, K, Q, k, q))
  }

  predicate Selection(text: string, K: bool, Q: bool, k: bool, q: bool) {
    text == FlagText(K, 'K') + (FlagText(Q, 'Q') + (FlagText(k, 'k') + FlagText(q, 'q')))
  }

  lemma Dropped(text: string, c: char) returns (on: bool)
    ensures text == FlagText(on, c) + DropIf(text, c)
  {
    on := text != "" && text[0] == c;
    assert FlagText(false, c) + text == text;
  }

  lemma RightsAccepted(text: string)
    ensures ValidRights(text) <==> GoodRights(text)
  {
    if ValidRights(text) && text != "-" {
      var K := Dropped(text, 'K');
      var t1 := DropIf(text, 'K');
      var Q := Dropped(t1, 'Q');
      var t2 := DropIf(t1, 'Q');
      var k := Dropped(t2, 'k');
      var t3 := DropIf(t2, 'k');
      var q := Dropped(t3, 'q');
      assert FlagText(q, 'q') + "" == FlagText(q, 'q');
      assert Selection(text, K, Q, k, q);
    }
    if text != "" && text != "-" && GoodRights(text) {
      var K, Q, k, q :| Selection(text, K, Q, k, q);
      FlagsValid(FlagText(K, 'K'), FlagText(Q, 'Q'), FlagText(k, 'k'), FlagText(q, 'q'));
    }
  }

  /** A dash, or a file and the rank behind a pawn of the side that is not on turn. */
  ghost predicate GoodEp(text: string, turn: string) {
    text == "-" || (|text| == 2 && 'a' <= text[0] <= 'h' && text[1] == if turn == "w" then '6' else '3')
  }

  predicate GoodNumber(text: string, least: int) {
    Numeric(text) && (ParseInt(text) == None || ParseInt(text).value >= least)
  }

  /** Six fields, each of which is good. */
  ghost predicate GoodFields(t: seq<string>) {
    && |t| == 6 && GoodBoard(t[0]) && (t[1] == "w" || t[1] == "b") && GoodRights(t[2]) && GoodEp(t[3], t[1])
    && GoodNumber(t[4], 0) && GoodNumber(t[5], 1)
  }

  lemma EpAccepted(text: string, turn: string)
    requires turn == "w" || turn == "b"
    ensures ValidEp(text) && !EpOfWrongSide(text, turn) <==> GoodEp(text, turn)
  {
  }

  lemma FieldsAccepted(t: seq<string>)
    ensures FieldsError(t) == 0 <==> GoodFields(t)
  {
    if |t| == 6 {
      BoardAccepted(t[0]);
      RightsAccepted(t[2]);
      if t[1] == "w" || t[1] == "b" {
        EpAccepted(t[3], t[1]);
      }
    }
  }

  /** A text is accepted exactly if it has six good fields. */
  lemma AcceptedExactly(fen: string)
    ensures FenError(fen) == 0 <==> GoodFields(SplitSpaces(fen))
  {
    FieldsAccepted(SplitSpaces(fen));
  }

  /** For instance two digits in a row are refused as such, whatever they add up to. */
  lemma TwoDigits()
    ensures RowError("44", 0, false) == 8
  {
    RowVerdict("44");
    assert FirstOffence("44", 1);
  }

  // -------------------------------------------------- which number is reported

  /** The first row that is not good. */
  ghost predicate FirstBadRow(rows: seq<string>, i: nat) {
    i < |rows| && !GoodRow(rows[i]) && forall j :: 0 <= j < i ==> GoodRow(rows[j])
  }

  lemma BadRowLater(rows: seq<string>, i: nat)
    requires FirstBadRow(rows, i) && i > 0
    ensures GoodRow(rows[0]) && FirstBadRow(rows[1..], i - 1) && rows[1..][i - 1] == rows[i]
  {
    assert forall j :: 0 <= j < i - 1 ==> rows[1..][j] == rows[j + 1];
  }

  lemma RowsErrorStep(rows: seq<string>)
    requires rows != []
    ensures RowError(rows[0], 0, false) == 0 <==> GoodRow(rows[0])
    ensures RowsError(rows) == if GoodRow(rows[0]) then RowsError(rows[1..]) else RowError(rows[0], 0, false)
  {
    RowVerdict(rows[0]);
  }

  lemma {:induction false} RowReported(rows: seq<string>, i: nat)
    requires FirstBadRow(rows, i)
    ensures RowsError(rows) == RowError(rows[i], 0, false) != 0
    decreases i
  {
    RowsErrorStep(rows);
    if i > 0 {
      BadRowLater(rows, i);
      RowReported(rows[1..], i - 1);
    }
  }

  /** The number reported for a text that is not accepted: the fields are looked at from the last to the first,
      the rows from the top, and the side of the en-passant square at the end. */
  lemma Reported(t: seq<string>)
    ensures var e := FieldsError(t);
            && (e == 1 <==> |t| != 6)
            && (e == 2 <==> |t| == 6 && !GoodNumber(t[5], 1))
            && (e == 3 <==> |t| == 6 && GoodNumber(t[5], 1) && !GoodNumber(t[4], 0))
            && (|t| == 6 && GoodNumber(t[5], 1) && GoodNumber(t[4], 0) ==>
                  && (e == 4 <==> !GoodEp(t[3], "w") && !GoodEp(t[3], "b"))
                  && (GoodEp(t[3], "w") || GoodEp(t[3], "b") ==>
                        && (e == 5 <==> !GoodRights(t[2]))
                        && (e == 6 <==> GoodRights(t[2]) && t[1] != "w" && t[1] != "b")))
  {
    if |t| == 6 {
      RightsAccepted(t[2]);
      RowsInRange(SplitOn(t[0], '/'));
    }
  }

  lemma {:induction false} RowsInRange(rows: seq<string>)
    ensures RowsError(rows) == 0 || 8 <= RowsError(rows) <= 10
  {
    if rows != [] {
      RowVerdict(rows[0]);
      RestVerdict(rows[0], 0);
      assert rows[0][0..] == rows[0];
      RowsInRange(rows[1..]);
    }
  }

  /** Of the board field: 7 if there are not eight rows, else the verdict on the first bad row. */
  lemma BoardReported(t: seq<string>, i: nat)
    requires |t| == 6 && GoodNumber(t[5], 1) && GoodNumber(t[4], 0) && (GoodEp(t[3], "w") || GoodEp(t[3], "b"))
    requires GoodRights(t[2]) && (t[1] == "w" || t[1] == "b")
    ensures |SplitOn(t[0], '/')| != 8 ==> FieldsError(t) == 7
    ensures |SplitOn(t[0], '/')| == 8 && FirstBadRow(SplitOn(t[0], '/'), i) ==> FieldsError(t) == RowError(SplitOn(t[0], '/')[i], 0, false)
    ensures GoodBoard(t[0]) && !GoodEp(t[3], t[1]) ==> FieldsError(t) == 11
  {
    RightsAccepted(t[2]);
    BoardAccepted(t[0]);
    if FirstBadRow(SplitOn(t[0], '/'), i) {
      RowReported(SplitOn(t[0], '/'), i);
    }
  }
}
