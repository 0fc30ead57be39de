/**
 * The string predicates the bot's filters rely on: Python's str.isalpha(),
 * str.isdigit() and int() on a digit string, and aiogram's Command filter.
 * Letters are ASCII and basic Cyrillic (the alphabets the bot's users write
 * names in); digits are ASCII '0'..'9'.
 */
module Strings {

  predicate IsLetter(c: char) {
    ('a' <= c <= 'z') || ('A' <= c <= 'Z')
    || ('\U{0410}' <= c <= '\U{044F}')   // А..я
    || c == '\U{0401}' || c == '\U{0451}' // Ё, ё
  }

  predicate IsDigit(c: char) {
    '0' <= c <= '9'
  }

  predicate IsSpace(c: char) {
    c == ' ' || c == '\t' || c == '\n' || c == '\r'
  }

  /** str.isalpha(): at least one character, and every character a letter. */
  predicate IsAlphaStr(s: string) {
    |s| > 0 && forall i :: 0 <= i < |s| ==> IsLetter(s[i])
  }

  predicate AllDigits(s: string) {
    forall i :: 0 <= i < |s| ==> IsDigit(s[i])
  }

  /** str.isdigit(): at least one character, and every character a digit. */
  predicate IsDigitStr(s: string) {
    |s| > 0 && AllDigits(s)
  }

  /** A string the store's statements can splice between single quotes. */
  predicate SqlSafe(s: string) {
    '\'' !in s
  }

  function Pow10(n: nat): (p: nat)
    ensures p >= 1
  {
    if n == 0 then 1 else 10 * Pow10(n - 1)
  }

  function DigitValue(c: char): (d: nat)
    requires IsDigit(c)
    ensures d < 10
  {
    c as int - '0' as int
  }

  function DigitChar(d: nat): (c: char)
    requires d < 10
    ensures IsDigit(c) && DigitValue(c) == d
  {
    ('0' as int + d) as char
  }

  /** int(s) for a string of decimal digits; leading zeros are allowed. */
  function ParseNat(s: string): (n: nat)
    requires AllDigits(s)
    ensures n < Pow10(|s|)
  {
    if s == [] then 0
    else
      var prefix := s[..|s| - 1];
      var m := ParseNat(prefix);
      assert m <= Pow10(|s| - 1) - 1;
      10 * m + DigitValue(s[|s| - 1])
  }

  /** str(n): the shortest decimal rendering of n. */
  function ShowNat(n: nat): (s: string)
    ensures IsDigitStr(s)
    ensures n < 10 <==> |s| == 1
  {
    if n < 10 then [DigitChar(n)] else ShowNat(n / 10) + [DigitChar(n % 10)]
  }

  /** int(str(n)) == n */
  lemma {:induction false} ParseShowNat(n: nat)
    ensures ParseNat(ShowNat(n)) == n
  {
    if n >= 10 {
      var s := ShowNat(n);
      assert s[..|s| - 1] == ShowNat(n / 10);
      ParseShowNat(n / 10);
    }
  }

  /** A leading zero does not change the value int() gives. */
  lemma {:induction false} ParseLeadingZero(s: string)
    requires AllDigits(s)
    ensures AllDigits("0" + s) && ParseNat("0" + s) == ParseNat(s)
  {
    var t := "0" + s;
    assert AllDigits(t) by {
      forall i | 0 <= i < |t| ensures IsDigit(t[i]) {
        if i > 0 { assert t[i] == s[i - 1]; }
      }
    }
    if s != [] {
      var p := s[..|s| - 1];
      assert t[..|t| - 1] == "0" + p;
      ParseLeadingZero(p);
    }
  }

  /** n written with exactly `width` digits, zero-padded on the left (modulo 10^width). */
  function Pad(n: nat, width: nat): (s: string)
    ensures |s| == width && AllDigits(s)
  {
    if width == 0 then [] else Pad(n / 10, width - 1) + [DigitChar(n % 10)]
  }

  /** Dropping the last decimal digit of a number below 10^width leaves one below 10^(width - 1). */
  lemma SplitLastDigit(n: nat, width: nat)
    requires 0 < width && n < Pow10(width)
    ensures n == 10 * (n / 10) + n % 10 && n / 10 < Pow10(width - 1)
  {
    assert Pow10(width) == 10 * Pow10(width - 1);
  }

  /** A number below 10^width reads back from its padded rendering. */
  lemma {:induction false} ParsePad(n: nat, width: nat)
    requires n < Pow10(width)
    ensures ParseNat(Pad(n, width)) == n
  {
    if width > 0 {
      var s := Pad(n, width);
      var q, d := n / 10, n % 10;
      SplitLastDigit(n, width);
      assert s[..width - 1] == Pad(q, width - 1) && s[width - 1] == DigitChar(d);
      ParsePad(q, width - 1);
      assert ParseNat(s) == 10 * ParseNat(Pad(q, width - 1)) + DigitValue(DigitChar(d));
    }
  }

  /** str.lstrip() */
  function TrimLeft(s: string): (t: string)
    ensures |t| <= |s| && t == s[|s| - |t|..]
  {
    if s != [] && IsSpace(s[0]) then TrimLeft(s[1..]) else s
  }

  /** The characters before the first whitespace. */
  function FirstWord(s: string): (w: string)
    ensures w <= s
  {
    if s == [] || IsSpace(s[0]) then [] else [s[0]] + FirstWord(s[1..])
  }

  /**
   * aiogram's Command(commands=name) filter: the first word of the text is
   * "/" followed by the command name.
   */
  predicate IsCommand(text: string, name: string) {
    FirstWord(TrimLeft(text)) == "/" + name
  }

  /** A text of one word, with no whitespace, is a command exactly when it is "/" + name. */
  lemma {:induction false} SingleWordCommand(text: string, name: string)
    requires forall i :: 0 <= i < |text| ==> !IsSpace(text[i])
    ensures IsCommand(text, name) <==> text == "/" + name
  {
    assert TrimLeft(text) == text;
    FirstWordOfWord(text);
  }

  lemma {:induction false} FirstWordOfWord(s: string)
    requires forall i :: 0 <= i < |s| ==> !IsSpace(s[i])
    ensures FirstWord(s) == s
  {
    if s != [] {
      FirstWordOfWord(s[1..]);
      assert [s[0]] + s[1..] == s;
    }
  }

  /**
   * A command is never a name, a subject or a score: it fails both
   * isalpha() and isdigit().
   */
  lemma CommandIsNotInput(text: string, name: string)
    requires IsCommand(text, name)
    ensures !IsAlphaStr(text) && !IsDigitStr(text)
  {
    if !IsSpace(text[0]) {
      assert TrimLeft(text) == text;
      assert text[0] == '/';
    }
  }

  /** Names and subjects pass the store's quoting. */
  lemma AlphaIsSqlSafe(s: string)
    requires IsAlphaStr(s)
    ensures SqlSafe(s)
  {
  }
}
