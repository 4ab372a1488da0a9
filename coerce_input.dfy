/**
 * `coerceInput`: turns the text typed into a constant field into an
 * integer, a decimal, a boolean, or leaves it as text. The regular
 * expressions of the editor carry the multiline flag, so `^` and `$` also
 * match at line breaks; CoerceAsWritten models that, and Coerce the
 * whole-string reading the function evidently intends.
 */
module CoerceInput {

  /** What `coerceInput` returns. A decimal is kept as its text: `parseFloat` is not modelled. */
  datatype Coerced =
    | Integer(n: int)
    | NotANumber
    | Decimal(text: string)
    | Boolean(b: bool)
    | Text(s: string)

  /** `[\d]`: an ASCII digit. */
  predicate IsDigit(c: char) {
    '0' <= c <= '9'
  }

  predicate AllDigits(s: string) {
    forall i :: 0 <= i < |s| ==> IsDigit(s[i])
  }

  /** The text after an optional leading minus sign. */
  function Unsigned(s: string): string {
    if |s| > 0 && s[0] == '-' then s[1..] else s
  }

  /** `-?[\d]+` matched against all of `s`. */
  predicate IsIntegerText(s: string) {
    |Unsigned(s)| > 0 && AllDigits(Unsigned(s))
  }

  /** `-?[\d]+\.[\d]+` matched against all of `s`. */
  predicate IsDecimalText(s: string) {
    var body := Unsigned(s);
    exists k :: 0 < k < |body| - 1 && body[k] == '.' && AllDigits(body[..k]) && AllDigits(body[k + 1..])
  }

  /** The value of a run of decimal digits. */
  function DigitsValue(s: string): nat
    requires AllDigits(s)
    decreases |s|
  {
    if s == [] then 0 else DigitsValue(s[..|s| - 1]) * 10 + (s[|s| - 1] as int - '0' as int)
  }

  function IntegerValue(s: string): int
    requires IsIntegerText(s)
  {
    if s[0] == '-' then -(DigitsValue(s[1..]) as int) else DigitsValue(s)
  }

  /** The intended `coerceInput`: each pattern must match the whole input. */
  function Coerce(input: string): (r: Coerced)
    ensures IsIntegerText(input) ==> r == Integer(IntegerValue(input))
    ensures !IsIntegerText(input) && IsDecimalText(input) ==> r == Decimal(input)
    ensures r.Boolean? <==> input == "true" || input == "false"
    ensures r.Boolean? ==> r.b == (input == "true")
    ensures r.Text? <==> !IsIntegerText(input) && !IsDecimalText(input) && input != "true" && input != "false"
    ensures r.Text? ==> r.s == input
    ensures r != NotANumber
  {
    if IsIntegerText(input) then Integer(IntegerValue(input))
    else if IsDecimalText(input) then Decimal(input)
    else if input == "true" then Boolean(true)
    else if input == "false" then Boolean(false)
    else Text(input)
  }

  // ---------------------------------------------------------------
  // The code as written
  // ---------------------------------------------------------------

  /** The characters at which the multiline `^` and `$` also match. */
  predicate IsLineTerminator(c: char) {
    c == '\n' || c == '\r' || c == '\U{2028}' || c == '\U{2029}'
  }

  /** `s[i..j]` is a whole line of `s`, as the multiline anchors see it. */
  predicate IsLine(s: string, i: int, j: int) {
    0 <= i <= j <= |s|
    && (i == 0 || IsLineTerminator(s[i - 1]))
    && (j == |s| || IsLineTerminator(s[j]))
  }

  /** `input.match(/^-?[\d]+$/gim)` is non-null: some line is an integer. */
  predicate SomeLineInteger(s: string) {
    exists i, j | 0 <= i <= j <= |s| :: IsLine(s, i, j) && IsIntegerText(s[i..j])
  }

  /** `input.match(/^-?[\d]+\.[\d]+$/gim)` is non-null: some line is a decimal. */
  predicate SomeLineDecimal(s: string) {
    exists i, j | 0 <= i <= j <= |s| :: IsLine(s, i, j) && IsDecimalText(s[i..j])
  }

  /** The white space `parseInt` skips before the number. */
  predicate IsWhiteSpace(c: char) {
    IsLineTerminator(c) || c == ' ' || c == '\t' || c == '\U{000B}' || c == '\U{000C}' || c == '\U{00A0}'
    || c == '\U{FEFF}' || c == '\U{1680}' || ('\U{2000}' <= c <= '\U{200A}') || c == '\U{202F}'
    || c == '\U{205F}' || c == '\U{3000}'
  }

  function TrimStart(s: string): (r: string)
    ensures |r| <= |s| && (r == [] || !IsWhiteSpace(r[0]))
    ensures r == s[|s| - |r|..]
    decreases |s|
  {
    if |s| > 0 && IsWhiteSpace(s[0]) then TrimStart(s[1..]) else s
  }

  /** Nothing is trimmed from a text that starts with anything but white space. */
  lemma TrimStartKeeps(s: string)
    requires |s| > 0 && !IsWhiteSpace(s[0])
    ensures TrimStart(s) == s
  {
  }

  predicate IsHexDigit(c: char) {
    IsDigit(c) || ('a' <= c <= 'f') || ('A' <= c <= 'F')
  }

  function HexDigitValue(c: char): nat
    requires IsHexDigit(c)
  {
    if IsDigit(c) then c as int - '0' as int
    else if 'a' <= c <= 'f' then c as int - 'a' as int + 10
    else c as int - 'A' as int + 10
  }

  /** The longest prefix of `s` made of digits of the radix, 10 or 16. */
  function DigitPrefix(s: string, hex: bool): (r: string)
    ensures |r| <= |s| && r == s[..|r|]
    ensures forall i :: 0 <= i < |r| ==> (if hex then IsHexDigit(r[i]) else IsDigit(r[i]))
    ensures |r| < |s| ==> !(if hex then IsHexDigit(s[|r|]) else IsDigit(s[|r|]))
    decreases |s|
  {
    if |s| > 0 && (if hex then IsHexDigit(s[0]) else IsDigit(s[0])) then [s[0]] + DigitPrefix(s[1..], hex)
    else []
  }

  function HexValue(s: string): nat
    requires forall i :: 0 <= i < |s| ==> IsHexDigit(s[i])
    decreases |s|
  {
    if s == [] then 0 else HexValue(s[..|s| - 1]) * 16 + HexDigitValue(s[|s| - 1])
  }

  /**
   * `parseInt(input)` with no radix: skip leading white space, read a
   * sign, take a `0x` prefix as radix 16, then read the longest run of
   * digits; none at all is NaN.
   */
  function ParseInt(input: string): (r: Coerced)
    ensures r.Integer? || r.NotANumber?
  {
    var t := TrimStart(input);
    var negative := |t| > 0 && t[0] == '-';
    var u := if |t| > 0 && (t[0] == '-' || t[0] == '+') then t[1..] else t;
    var hex := |u| >= 2 && u[0] == '0' && (u[1] == 'x' || u[1] == 'X');
    var body := if hex then u[2..] else u;
    var digits := DigitPrefix(body, hex);
    if digits == [] then NotANumber
    else
      var magnitude := if hex then HexValue(digits) else DigitsValue(digits);
      Integer(if negative then -magnitude else magnitude)
  }

  /** `coerceInput(input)` as written: a match on any line sends the whole input to the parser. */
  function CoerceAsWritten(input: string): (r: Coerced)
    ensures SomeLineInteger(input) ==> r == ParseInt(input)
    ensures !SomeLineInteger(input) && SomeLineDecimal(input) ==> r == Decimal(input)
    ensures r.Text? ==> r.s == input
  {
    if SomeLineInteger(input) then ParseInt(input)
    else if SomeLineDecimal(input) then Decimal(input)
    else if input == "true" then Boolean(true)
    else if input == "false" then Boolean(false)
    else Text(input)
  }

  // ---------------------------------------------------------------
  // Where the two part, and where they agree
  // ---------------------------------------------------------------

  /** Text before an integer line makes the code answer NaN where the text should be kept. */
  lemma LeadingTextGivesNaN()
    ensures CoerceAsWritten("a\n5") == NotANumber
    ensures Coerce("a\n5") == Text("a\n5")
  {
    var s := "a\n5";
    assert IsLine(s, 2, 3) && s[2..3] == "5";
    assert IsIntegerText(s[2..3]);
    assert !IsDecimalText(s) by {
      assert Unsigned(s) == s;
      assert forall k :: 0 < k < |s| - 1 ==> s[k] != '.';
    }
    TrimStartKeeps(s);
    assert DigitPrefix(s, false) == [];
  }

  /** Text after an integer line is silently dropped by the code. */
  lemma TrailingTextIsDropped()
    ensures CoerceAsWritten("5\na") == Integer(5)
    ensures Coerce("5\na") == Text("5\na")
  {
    var s := "5\na";
    assert IsLine(s, 0, 1) && s[0..1] == "5";
    assert IsIntegerText(s[0..1]);
    assert !IsDecimalText(s) by {
      assert Unsigned(s) == s;
      assert forall k :: 0 < k < |s| - 1 ==> s[k] != '.';
    }
    TrimStartKeeps(s);
    assert DigitPrefix(s, false) == "5" by {
      assert DigitPrefix(s[1..], false) == [];
    }
    assert DigitsValue("5") == DigitsValue("") * 10 + 5;
  }

  /** In a text without line breaks the only line is the whole text. */
  lemma OnlyLineIsWhole(s: string, i: int, j: int)
    requires forall k :: 0 <= k < |s| ==> !IsLineTerminator(s[k])
    requires IsLine(s, i, j)
    ensures i == 0 && j == |s|
  {
  }

  /** The digit prefix of a run of digits is the whole run. */
  lemma {:induction false} DigitPrefixOfDigits(s: string)
    requires AllDigits(s)
    ensures DigitPrefix(s, false) == s
    decreases |s|
  {
    if s != [] {
      DigitPrefixOfDigits(s[1..]);
    }
  }

  /** `parseInt` reads an integer text as its value. */
  lemma ParseIntOfIntegerText(s: string)
    requires IsIntegerText(s)
    ensures ParseInt(s) == Integer(IntegerValue(s))
  {
    TrimStartKeeps(s);
    var u := Unsigned(s);
    if s[0] == '-' {
      assert u == s[1..];
    } else {
      assert IsDigit(s[0]) && u == s;
    }
    assert !(|u| >= 2 && u[1] == 'x') && !(|u| >= 2 && u[1] == 'X');
    DigitPrefixOfDigits(u);
  }

  /** On a text without line breaks the code computes exactly the intended result. */
  lemma AgreeWithoutLineBreaks(s: string)
    requires forall k :: 0 <= k < |s| ==> !IsLineTerminator(s[k])
    ensures CoerceAsWritten(s) == Coerce(s)
  {
    assert IsLine(s, 0, |s|) && s[0..|s|] == s;
    if SomeLineInteger(s) {
      var i, j :| IsLine(s, i, j) && IsIntegerText(s[i..j]);
      OnlyLineIsWhole(s, i, j);
      ParseIntOfIntegerText(s);
    } else if SomeLineDecimal(s) {
      var i, j :| IsLine(s, i, j) && IsDecimalText(s[i..j]);
      OnlyLineIsWhole(s, i, j);
    }
  }

  // ---------------------------------------------------------------
  // Round trip of the intended reading
  // ---------------------------------------------------------------

  function DigitChar(d: nat): char
    requires d < 10
  {
    ('0' as int + d) as char
  }

  /** `String(n)` for a natural number. */
  function NatText(n: nat): (r: string)
    ensures |r| > 0 && AllDigits(r)
    decreases n
  {
    if n < 10 then [DigitChar(n)] else NatText(n / 10) + [DigitChar(n % 10)]
  }

  /** `String(n)`: the decimal text of an integer. */
  function IntText(n: int): string {
    if n < 0 then "-" + NatText(-n) else NatText(n)
  }

  lemma {:induction false} NatTextValue(n: nat)
    ensures DigitsValue(NatText(n)) == n
    decreases n
  {
    var r := NatText(n);
    if n >= 10 {
      NatTextValue(n / 10);
      assert r[..|r| - 1] == NatText(n / 10);
    }
  }

  /** Typing a number's own text gives back that number. */
  lemma CoerceIntText(n: int)
    ensures Coerce(IntText(n)) == Integer(n)
  {
    var s := IntText(n);
    NatTextValue(if n < 0 then -n else n);
    if n < 0 {
      assert Unsigned(s) == NatText(-n);
    } else {
      assert Unsigned(s) == s;
    }
  }
}
