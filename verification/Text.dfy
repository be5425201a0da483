/** The string operations the engine borrows from its host language: decimal numbers and splitting. */
module Text {
  import opened Basics

  // -------------------------------------------------------------- numbers

  predicate IsDigit(c: char) {
    '0' <= c <= '9'
  }

  predicate AllDigits(s: string) {
    forall i :: 0 <= i < |s| ==> IsDigit(s[i])
  }

  function DigitChar(d: int): char
    requires 0 <= d < 10
  {
    '0' + d as char
  }

  function DigitValue(c: char): int
    requires IsDigit(c)
  {
    c as int - '0' as int
  }

  function NumberText(n: nat): string {
    (if n < 10 then "" else NumberText(n / 10)) + [DigitChar(n % 10)]
  }

  function DigitsValue(s: string): nat
    requires AllDigits(s)
  {
    if s == "" then 0 else 10 * DigitsValue(s[..|s| - 1]) + DigitValue(s[|s| - 1])
  }

  /** The length of the run of digits a text begins with. */
  function DigitPrefix(s: string): (n: nat)
    ensures n <= |s| && AllDigits(s[..n]) && (n < |s| ==> !IsDigit(s[n]))
  {
    if s == "" || !IsDigit(s[0]) then 0 else 1 + DigitPrefix(s[1..])
  }

  function Unsigned(s: string): string {
    if s != "" && (s[0] == '+' || s[0] == '-') then s[1..] else s
  }

  /** `parseInt(s, 10)` of a text without white space; None is not-a-number. */
  function ParseInt(s: string): Option<int> {
    var body := Unsigned(s);
    var n := DigitPrefix(body);
    if n == 0 then None
    else
      var value: int := DigitsValue(body[..n]);
      Some(if s[0] == '-' then -value else value)
  }

  predicate Exponent(s: string) {
    s == "" || ((s[0] == 'e' || s[0] == 'E') && Unsigned(s[1..]) != "" && AllDigits(Unsigned(s[1..])))
  }

  predicate DecimalLiteral(s: string) {
    var n := DigitPrefix(s);
    if n < |s| && s[n] == '.' then
      var k := DigitPrefix(s[n + 1..]);
      n + k > 0 && Exponent(s[n + 1 + k..])
    else n > 0 && Exponent(s[n..])
  }

  predicate RadixDigit(c: char, radix: char) {
    match radix
    case 'x' => IsDigit(c) || 'a' <= c <= 'f' || 'A' <= c <= 'F'
    case 'o' => '0' <= c <= '7'
    case _ => c == '0' || c == '1'
  }

  predicate RadixLiteral(s: string) {
    |s| > 2 && s[0] == '0' &&
    var radix := if s[1] == 'X' then 'x' else if s[1] == 'O' then 'o' else if s[1] == 'B' then 'b' else s[1];
    (radix == 'x' || radix == 'o' || radix == 'b') && forall i :: 2 <= i < |s| ==> RadixDigit(s[i], radix)
  }

  /** `!isNaN(s)` of a text without white space: what the host's number conversion accepts. */
  predicate Numeric(s: string) {
    s == "" || RadixLiteral(s) || Unsigned(s) == "Infinity" || DecimalLiteral(Unsigned(s))
  }

  lemma LastDigit(n: nat)
    ensures 10 * (n / 10) + n % 10 == n && IsDigit(DigitChar(n % 10)) && DigitValue(DigitChar(n % 10)) == n % 10
  {
  }

  /** One digit more. */
  lemma DigitsMore(s: string, c: char)
    requires AllDigits(s) && IsDigit(c)
    ensures AllDigits(s + [c]) && DigitsValue(s + [c]) == 10 * DigitsValue(s) + DigitValue(c)
  {
    assert (s + [c])[..|s|] == s;
  }

  lemma {:induction false} NumberTextParses(n: nat)
    ensures NumberText(n) != "" && AllDigits(NumberText(n)) && DigitsValue(NumberText(n)) == n
  {
    var digit := DigitChar(n % 10);
    LastDigit(n);
    if n >= 10 {
      NumberTextParses(n / 10);
      DigitsMore(NumberText(n / 10), digit);
    } else {
      DigitsMore("", digit);
    }
  }

  lemma {:induction false} DigitPrefixOfDigits(s: string)
    requires AllDigits(s)
    ensures DigitPrefix(s) == |s|
  {
    if s != "" {
      DigitPrefixOfDigits(s[1..]);
    }
  }

  /** A printed number is accepted by both number tests and read back unchanged. */
  lemma NumberRoundTrip(n: nat)
    ensures Numeric(NumberText(n)) && ParseInt(NumberText(n)) == Some(n)
  {
    NumberTextParses(n);
    DigitsAreNumbers(NumberText(n));
  }

  /** Any digits are accepted by both number tests and read as their decimal value. */
  lemma DigitsAreNumbers(s: string)
    requires s != "" && AllDigits(s)
    ensures Numeric(s) && ParseInt(s) == Some(DigitsValue(s))
  {
    DigitPrefixOfDigits(s);
    assert IsDigit(s[0]) && Unsigned(s) == s;
    assert s[..|s|] == s && s[|s|..] == "";
  }

  /** A text that begins with none of the characters a number can begin with is not a number. */
  lemma WordsAreNoNumbers(s: string)
    requires s != "" && !IsDigit(s[0]) && s[0] != '+' && s[0] != '-' && s[0] != '.' && s[0] != 'I'
    ensures !Numeric(s) && ParseInt(s) == None
  {
    assert Unsigned(s) == s && DigitPrefix(s) == 0;
    assert s[0..] == s;
  }

  // ------------------------------------------------------------- splitting

  /** The characters matched by `\s`. */
  predicate IsSpace(c: char) {
    c == ' ' || '\t' <= c <= '\r' || c == '\U{00A0}' || c == '\U{1680}' || '\U{2000}' <= c <= '\U{200A}'
    || c == '\U{2028}' || c == '\U{2029}' || c == '\U{202F}' || c == '\U{205F}' || c == '\U{3000}' || c == '\U{FEFF}'
  }

  predicate Solid(s: string) {
    forall i :: 0 <= i < |s| ==> !IsSpace(s[i])
  }

  function SpacePrefix(s: string): (n: nat)
    ensures n <= |s| && (n < |s| ==> !IsSpace(s[n]))
  {
    if s == "" || !IsSpace(s[0]) then 0 else 1 + SpacePrefix(s[1..])
  }

  /** The length of the text before the first space. */
  function SolidPrefix(s: string): (n: nat)
    ensures n <= |s| && Solid(s[..n]) && (n < |s| ==> IsSpace(s[n]))
  {
    if s == "" || IsSpace(s[0]) then 0 else 1 + SolidPrefix(s[1..])
  }

  /** `s.split(/\s+/)`. */
  function SplitSpaces(s: string): seq<string>
    decreases |s|
  {
    var n := SolidPrefix(s);
    if n == |s| then [s] else [s[..n]] + SplitSpaces(s[n + 1 + SpacePrefix(s[n + 1..])..])
  }

  function Join(words: seq<string>, separator: char): string {
    if words == [] then "" else if |words| == 1 then words[0] else words[0] + [separator] + Join(words[1..], separator)
  }

  lemma {:induction false} SolidPrefixOfWord(word: string, rest: string)
    requires Solid(word) && (rest == "" || IsSpace(rest[0]))
    ensures SolidPrefix(word + rest) == |word|
  {
    if word == "" {
      assert word + rest == rest;
    } else {
      assert (word + rest)[1..] == word[1..] + rest && (word + rest)[0] == word[0];
      SolidPrefixOfWord(word[1..], rest);
    }
  }

  /** Joining words by single spaces and splitting again gives the words. */
  lemma {:induction false} SplitJoin(words: seq<string>)
    requires words != [] && forall i :: 0 <= i < |words| ==> words[i] != "" && Solid(words[i])
    ensures SplitSpaces(Join(words, ' ')) == words
  {
    var text := Join(words, ' ');
    if |words| == 1 {
      SolidPrefixOfWord(words[0], "");
      assert words[0] + "" == words[0];
    } else {
      var rest := Join(words[1..], ' ');
      SplitJoin(words[1..]);
      assert text == words[0] + ([' '] + rest);
      SolidPrefixOfWord(words[0], [' '] + rest);
      var n := |words[0]|;
      assert text[..n] == words[0] && text[n + 1..] == rest;
      assert rest[0] == words[1][0];
      assert SpacePrefix(rest) == 0;
      assert rest[0..] == rest;
      assert text[n + 1 + 0..] == rest;
    }
  }

  /** The length of the text before the first occurrence of a character. */
  function PrefixBefore(s: string, c: char): (n: nat)
    ensures n <= |s| && c !in s[..n] && (n < |s| ==> s[n] == c)
  {
    if s == "" || s[0] == c then 0 else 1 + PrefixBefore(s[1..], c)
  }

  /** `s.split(c)` for a single character. */
  function SplitOn(s: string, c: char): seq<string>
    decreases |s|
  {
    var n := PrefixBefore(s, c);
    if n == |s| then [s] else [s[..n]] + SplitOn(s[n + 1..], c)
  }

  lemma {:induction false} PrefixBeforeWord(word: string, rest: string, c: char)
    requires c !in word && (rest == "" || rest[0] == c)
    ensures PrefixBefore(word + rest, c) == |word|
  {
    if word == "" {
      assert word + rest == rest;
    } else {
      assert (word + rest)[1..] == word[1..] + rest && (word + rest)[0] == word[0];
      PrefixBeforeWord(word[1..], rest, c);
    }
  }

  lemma {:induction false} SplitOnJoin(words: seq<string>, c: char)
    requires words != [] && forall i :: 0 <= i < |words| ==> c !in words[i]
    ensures SplitOn(Join(words, c), c) == words
  {
    var text := Join(words, c);
    if |words| == 1 {
      PrefixBeforeWord(words[0], "", c);
      assert words[0] + "" == words[0];
    } else {
      var rest := Join(words[1..], c);
      SplitOnJoin(words[1..], c);
      assert text == words[0] + ([c] + rest);
      PrefixBeforeWord(words[0], [c] + rest, c);
      assert text[..|words[0]|] == words[0] && text[|words[0]| + 1..] == rest;
    }
  }
}
