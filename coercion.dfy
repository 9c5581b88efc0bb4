/**
 * JavaScript's unary `+` applied to the text typed into a port field
 * (`set('httpProxyPort', +httpProxyPort)` and its three siblings).
 *
 * Only the integer part of JavaScript's string-to-number conversion is
 * computed: surrounding whitespace is dropped, blank text is 0, and an
 * optional sign followed by decimal digits is that integer. Every other text
 * yields `NotInteger`, which stands for NaN and for the non-integer,
 * hexadecimal and exponent forms this model does not evaluate.
 */
module NumberCoercion {

  /** The value a port field holds: an integer, or something that is not one. */
  datatype Num = Int(value: int) | NotInteger

  predicate IsDigit(c: char) {
    '0' <= c <= '9'
  }

  predicate AllDigits(s: string) {
    forall i :: 0 <= i < |s| ==> IsDigit(s[i])
  }

  /** The white-space characters JavaScript strips before converting text to a number (a subset). */
  predicate IsJsSpace(c: char) {
    c == ' ' || c == '\t' || c == '\n' || c == '\r' || c == '\U{000B}' || c == '\U{000C}'
    || c == '\U{00A0}' || c == '\U{FEFF}'
  }

  /** `s` without its leading white space. */
  function TrimStart(s: string): (r: string)
    ensures |r| <= |s| && r == s[|s| - |r|..]
    ensures r == [] || !IsJsSpace(r[0])
    ensures forall i :: 0 <= i < |s| - |r| ==> IsJsSpace(s[i])
  {
    if s != [] && IsJsSpace(s[0]) then TrimStart(s[1..]) else s
  }

  /** `s` without its trailing white space. */
  function TrimEnd(s: string): (r: string)
    ensures |r| <= |s| && r == s[..|r|]
    ensures r == [] || !IsJsSpace(r[|r| - 1])
    ensures forall i :: |r| <= i < |s| ==> IsJsSpace(s[i])
  {
    if s != [] && IsJsSpace(s[|s| - 1]) then TrimEnd(s[..|s| - 1]) else s
  }

  /** The value of a string of decimal digits, most significant first. */
  function DigitsValue(s: string): (n: nat)
    requires AllDigits(s)
  {
    if s == [] then 0 else DigitsValue(s[..|s| - 1]) * 10 + (s[|s| - 1] as int - '0' as int)
  }

  /** `+text` for a port field. */
  function ToNumber(text: string): (r: Num)
    ensures (forall i :: 0 <= i < |text| ==> IsJsSpace(text[i])) ==> r == Int(0)
    ensures r.Int? && text != [] && IsDigit(text[0]) ==> r.value >= 0
  {
    var t := TrimEnd(TrimStart(text));
    if t == [] then Int(0)
    else if AllDigits(t) then Int(DigitsValue(t))
    else if |t| >= 2 && t[0] == '-' && AllDigits(t[1..]) then Int(-(DigitsValue(t[1..]) as int))
    else if |t| >= 2 && t[0] == '+' && AllDigits(t[1..]) then Int(DigitsValue(t[1..]))
    else NotInteger
  }

  function DigitChar(d: nat): (c: char)
    requires d < 10
    ensures IsDigit(c) && c as int - '0' as int == d
  {
    ('0' as int + d) as char
  }

  /** The decimal text of a natural number, as JavaScript renders an integer in an input box. */
  function ShowNat(n: nat): (s: string)
    decreases n
  {
    if n < 10 then [DigitChar(n)] else ShowNat(n / 10) + [DigitChar(n % 10)]
  }

  /** The decimal text of an integer, with a leading `-` when negative. */
  function ShowInt(n: int): (s: string)
  {
    if n < 0 then "-" + ShowNat(-n) else ShowNat(n)
  }

  lemma {:induction false} ShowNatDigits(n: nat)
    ensures ShowNat(n) != [] && AllDigits(ShowNat(n))
    ensures DigitsValue(ShowNat(n)) == n
    decreases n
  {
    var s := ShowNat(n);
    if n >= 10 {
      ShowNatDigits(n / 10);
      assert s[..|s| - 1] == ShowNat(n / 10);
    }
  }

  /** Text with no white space at either end is left as it is by trimming. */
  lemma TrimUntouched(s: string)
    requires s != [] && !IsJsSpace(s[0]) && !IsJsSpace(s[|s| - 1])
    ensures TrimEnd(TrimStart(s)) == s
  {
    assert TrimStart(s) == s;
  }

  lemma ToNumberDigits(s: string)
    requires s != [] && AllDigits(s)
    ensures ToNumber(s) == Int(DigitsValue(s))
  {
    assert !IsJsSpace(s[0]) && !IsJsSpace(s[|s| - 1]) by {
      assert IsDigit(s[0]) && IsDigit(s[|s| - 1]);
    }
    TrimUntouched(s);
  }

  lemma ToNumberNegative(d: string)
    requires d != [] && AllDigits(d)
    ensures ToNumber("-" + d) == Int(-(DigitsValue(d) as int))
  {
    var s := "-" + d;
    assert !IsJsSpace(s[|s| - 1]) by {
      assert s[|s| - 1] == d[|d| - 1] && IsDigit(d[|d| - 1]);
    }
    TrimUntouched(s);
    assert s[1..] == d;
    assert !AllDigits(s) by {
      assert !IsDigit(s[0]);
    }
  }

  /**
   * Rendering an integer into the input box and reading the unchanged text
   * back through `+` gives the same integer.
   */
  lemma ToNumberShowInt(n: int)
    ensures ToNumber(ShowInt(n)) == Int(n)
  {
    if n < 0 {
      ShowNatDigits(-n);
      ToNumberNegative(ShowNat(-n));
    } else {
      ShowNatDigits(n);
      ToNumberDigits(ShowNat(n));
    }
  }
}
