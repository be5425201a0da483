/** The text under which a game is cached: a header line and the rules library's own text. */
module Record {
  import opened Basics
  import opened Lifecycle
  import Text

  /** The header fields as numbers: status and colours are unsigned bytes. */
  datatype Header = Header(id: Id, status: int, player1: Id, color1: int, player2: Id, color2: int)

  predicate Byte(n: int) {
    0 <= n < 256
  }

  predicate Int64(n: int) {
    -0x8000_0000_0000_0000 <= n < 0x8000_0000_0000_0000
  }

  predicate Storable(h: Header) {
    && Int64(h.id) && Int64(h.player1) && Int64(h.player2)
    && Byte(h.status) && Byte(h.color1) && Byte(h.color2)
  }

  function IntText(n: int): string {
    if n < 0 then "-" + Text.NumberText(-n) else Text.NumberText(n)
  }

  /** Digits only, at least one. */
  predicate Digits(s: string) {
    s != "" && Text.AllDigits(s)
  }

  /** An optional sign and digits. */
  function ReadSigned(s: string): Option<int> {
    if !Digits(Text.Unsigned(s)) then None
    else
      var n: int := Text.DigitsValue(Text.Unsigned(s));
      Some(if s[0] == '-' then -n else n)
  }

  function ReadUnsigned(s: string): Option<int> {
    if Digits(s) then Some(Text.DigitsValue(s)) else None
  }

  /** Reading a signed number, which must fit 64 bits. */
  function ParseId(s: string): Option<Id> {
    var n := ReadSigned(s);
    if n.Some? && Int64(n.value) then n else None
  }

  /** Reading an unsigned number, which must fit 64 bits, and cutting it down to a byte. */
  function ParseByte(s: string): Option<int> {
    var n := ReadUnsigned(s);
    if n.Some? && n.value < 0x1_0000_0000_0000_0000 then Some(n.value % 256) else None
  }

  /** The i-th field of the header line: ids at 0, 2 and 4, bytes at 1, 3 and 5. */
  function Field(h: Header, i: int): int {
    if i == 0 then h.id else if i == 1 then h.status
    else if i == 2 then h.player1 else if i == 3 then h.color1
    else if i == 4 then h.player2 else h.color2
  }

  function ParseField(i: int, s: string): Option<int> {
    if i % 2 == 0 then ParseId(s) else ParseByte(s)
  }

  function HeaderFields(h: Header): seq<string> {
    seq(6, i => IntText(Field(h, i)))
  }

  function Encode(h: Header, body: string): string {
    Text.Join(HeaderFields(h), ':') + (['\n'] + body)
  }

  /** The first n fields as numbers, if all of them can be read. */
  function ParseFields(f: seq<string>, n: nat): (r: Option<seq<int>>)
    requires n <= |f|
    ensures r.Some? ==> |r.value| == n
  {
    if n == 0 then Some([])
    else
      var front, last := ParseFields(f, n - 1), ParseField(n - 1, f[n - 1]);
      if front.None? || last.None? then None else Some(front.value + [last.value])
  }

  function DecodeFields(f: seq<string>): Option<Header> {
    if |f| != 6 then None
    else
      var v := ParseFields(f, |f|);
      if v.None? then None
      else Some(Header(v.value[0], v.value[1], v.value[2], v.value[3], v.value[4], v.value[5]))
  }

  /** The header up to the first line break, and what follows it. */
  function Decode(data: string): Option<(Header, string)> {
    var n := Text.PrefixBefore(data, '\n');
    if n == |data| then None
    else
      var header := DecodeFields(Text.SplitOn(data[..n], ':'));
      if header.None? then None else Some((header.value, data[n + 1..]))
  }

  // ------------------------------------------------------------- round trip

  predicate Numeral(s: string) {
    forall i :: 0 <= i < |s| ==> Text.IsDigit(s[i]) || s[i] == '-'
  }

  lemma DigitsRead(digits: string, negative: bool)
    requires Digits(digits)
    ensures var s, n: int := (if negative then "-" else "") + digits, Text.DigitsValue(digits);
            Numeral(s) && ReadSigned(s) == Some(if negative then -n else n)
  {
    assert Text.IsDigit(digits[0]);
    if negative {
      assert ("-" + digits)[1..] == digits;
    } else {
      assert "" + digits == digits;
    }
  }

  lemma IdRoundTrip(n: int)
    requires Int64(n)
    ensures Numeral(IntText(n)) && ParseId(IntText(n)) == Some(n)
  {
    var size: nat := if n < 0 then -n else n;
    var digits := Text.NumberText(size);
    Text.NumberTextParses(size);
    DigitsRead(digits, n < 0);
    assert "" + digits == digits;
    assert IntText(n) == (if n < 0 then "-" else "") + digits;
  }

  lemma DigitsReadUnsigned(digits: string)
    requires Digits(digits)
    ensures Numeral(digits) && ReadUnsigned(digits) == Some(Text.DigitsValue(digits))
  {
  }

  lemma ByteRoundTrip(n: int)
    requires Byte(n)
    ensures Numeral(IntText(n)) && ParseByte(IntText(n)) == Some(n)
  {
    var digits := Text.NumberText(n);
    Text.NumberTextParses(n);
    DigitsReadUnsigned(digits);
    assert IntText(n) == digits;
  }

  lemma FieldRoundTrip(h: Header, i: int)
    requires Storable(h) && 0 <= i < 6
    ensures Numeral(IntText(Field(h, i))) && ParseField(i, IntText(Field(h, i))) == Some(Field(h, i))
  {
    if i % 2 == 0 {
      IdRoundTrip(Field(h, i));
    } else {
      ByteRoundTrip(Field(h, i));
    }
  }

  lemma {:induction false} FieldsParse(f: seq<string>, h: Header, n: nat)
    requires n <= |f| == 6 && forall i :: 0 <= i < 6 ==> ParseField(i, f[i]) == Some(Field(h, i))
    ensures ParseFields(f, n).Some? && forall i :: 0 <= i < n ==> ParseFields(f, n).value[i] == Field(h, i)
  {
    if n > 0 {
      FieldsParse(f, h, n - 1);
    }
  }

  lemma FieldsDecode(f: seq<string>, h: Header)
    requires |f| == 6 && forall i :: 0 <= i < 6 ==> ParseField(i, f[i]) == Some(Field(h, i))
    ensures DecodeFields(f) == Some(h)
  {
    FieldsParse(f, h, |f|);
    assert forall i :: 0 <= i < 6 ==> ParseFields(f, |f|).value[i] == Field(h, i);
  }

  lemma FieldsRead(h: Header, f: seq<string>)
    requires Storable(h) && f == HeaderFields(h)
    ensures forall i :: 0 <= i < 6 ==> Numeral(f[i]) && ParseField(i, f[i]) == Some(Field(h, i))
  {
    forall i | 0 <= i < 6
      ensures Numeral(f[i]) && ParseField(i, f[i]) == Some(Field(h, i))
    {
      FieldRoundTrip(h, i);
    }
  }

  lemma FieldsRoundTrip(h: Header, f: seq<string>)
    requires Storable(h) && f == HeaderFields(h)
    ensures forall i :: 0 <= i < 6 ==> Numeral(f[i])
    ensures DecodeFields(f) == Some(h)
  {
    FieldsRead(h, f);
    FieldsDecode(f, h);
  }

  lemma {:induction false} JoinHas(words: seq<string>, c: char, x: char)
    requires x in Text.Join(words, c) && x != c
    ensures exists i :: 0 <= i < |words| && x in words[i]
  {
    if x in words[0] {
    } else {
      JoinHas(words[1..], c, x);
      var i :| 0 <= i < |words[1..]| && x in words[1..][i];
      assert x in words[i + 1];
    }
  }

  /** Fields of digits and signs, joined into a line, are split off again. */
  lemma LineSplits(f: seq<string>, body: string)
    requires |f| == 6 && forall i :: 0 <= i < 6 ==> Numeral(f[i])
    ensures var data := Text.Join(f, ':') + (['\n'] + body); var n := Text.PrefixBefore(data, '\n');
            n < |data| && Text.SplitOn(data[..n], ':') == f && data[n + 1..] == body
  {
    var line := Text.Join(f, ':');
    forall i | 0 <= i < 6
      ensures ':' !in f[i] && '\n' !in f[i]
    {
      assert Numeral(f[i]);
    }
    if '\n' in line {
      JoinHas(f, ':', '\n');
    }
    Text.SplitOnJoin(f, ':');
    Text.PrefixBeforeWord(line, ['\n'] + body, '\n');
    var data := line + (['\n'] + body);
    assert data[..|line|] == line && data[|line| + 1..] == body;
  }

  lemma LineDecodes(f: seq<string>, h: Header, body: string)
    requires |f| == 6 && (forall i :: 0 <= i < 6 ==> Numeral(f[i])) && DecodeFields(f) == Some(h)
    ensures Decode(Text.Join(f, ':') + (['\n'] + body)) == Some((h, body))
  {
    LineSplits(f, body);
  }

  /** Whatever is stored is read back, header and body, even if the body has line breaks of its own. */
  lemma RecordRoundTrip(h: Header, body: string)
    requires Storable(h)
    ensures Decode(Encode(h, body)) == Some((h, body))
  {
    FieldsRoundTrip(h, HeaderFields(h));
    LineDecodes(HeaderFields(h), h, body);
  }

  // ---------------------------------------------------------- stored games

  /** The library's text of a game, from which it can read the game back. */
  datatype Notation = Notation(write: (seq<string>, GameOutcome) -> string, read: string -> Option<(seq<string>, GameOutcome)>)

  ghost predicate Faithful(n: Notation) {
    forall moves, outcome :: n.read(n.write(moves, outcome)) == Some((moves, outcome))
  }

  function StatusNumber(s: Status): int {
    if s == Active then 1 else 2
  }

  function ColorNumber(c: Color): int {
    if c == White then 1 else 2
  }

  function HeaderOf(g: Match): Header {
    Header(g.id, StatusNumber(g.status), g.player1.id, ColorNumber(g.player1.color), g.player2.id, ColorNumber(g.player2.color))
  }

  function Store(n: Notation, g: Match): string {
    Encode(HeaderOf(g), n.write(g.moves, g.outcome))
  }

  /** The game with a given header and library text; a reloaded game has no standing draw offer. */
  ghost predicate Reloads(n: Notation, data: string, g: Match) {
    && Decode(data).Some?
    && Decode(data).value.0 == HeaderOf(g)
    && n.read(Decode(data).value.1) == Some((g.moves, g.outcome))
    && g.offer == None
  }

  /** A stored game is reloaded with players, status, moves and outcome; it is reloaded unchanged exactly if
      no draw offer was standing. */
  lemma StoredGameReloads(n: Notation, g: Match, again: Match)
    requires Faithful(n) && Int64(g.id) && Int64(g.player1.id) && Int64(g.player2.id)
    ensures Reloads(n, Store(n, g), again) <==> again == g.(offer := None)
    ensures Reloads(n, Store(n, g), g) <==> g.offer == None
  {
    RecordRoundTrip(HeaderOf(g), n.write(g.moves, g.outcome));
  }
}
