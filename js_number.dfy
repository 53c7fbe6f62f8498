/**
 * `Number.parseInt(value, 10)` and the acceptance test of `Number.parseFloat`,
 * as ECMAScript defines them. JavaScript numbers are doubles; here an integer
 * result is an unbounded `int`, and `None` stands for `NaN`.
 */
module JsNumber {
  import opened Wrappers
  import opened Text

  predicate IsSign(c: char) {
    c == '+' || c == '-'
  }

  /** An optional sign: nothing, `+` or `-`. */
  predicate IsSignText(sign: string) {
    |sign| == 0 || (|sign| == 1 && IsSign(sign[0]))
  }

  predicate IsMinus(sign: string) {
    |sign| == 1 && sign[0] == '-'
  }

  function Signed(v: nat, negative: bool): int
  {
    if negative then -(v as int) else v
  }

  /** The signed value of the longest digit run at the start of `u`, if there is one. */
  function LeadingInteger(u: string, negative: bool): Option<int>
  {
    var ds := DigitPrefix(u);
    if |ds| == 0 then None else Some(Signed(DigitsValue(ds), negative))
  }

  /** An optional sign, then the longest digit run. */
  function SignedLeadingInteger(t: string): Option<int>
  {
    if |t| > 0 && IsSign(t[0]) then LeadingInteger(t[1..], t[0] == '-') else LeadingInteger(t, false)
  }

  /**
   * `Number.parseInt(s, 10)`: skip white space, take an optional sign, read the
   * longest run of decimal digits; no digit at all is `NaN`.
   */
  function ParseInt(s: string): Option<int>
    decreases |s|
  {
    if |s| > 0 && IsJsWhitespace(s[0]) then ParseInt(s[1..])
    else if |s| > 0 && IsSign(s[0]) then LeadingInteger(s[1..], s[0] == '-')
    else LeadingInteger(s, false)
  }

  /** `parseInt` reads a signed digit run from where the leading white space ends. */
  lemma {:induction false} ParseIntReadsAfterSpace(s: string)
    ensures ParseInt(s) == SignedLeadingInteger(TrimStart(s))
    decreases |s|
  {
    if |s| > 0 && IsJsWhitespace(s[0]) {
      ParseIntReadsAfterSpace(s[1..]);
    }
  }

  /** Leading white space does not change the integer reading. */
  lemma {:induction false} ParseIntSkipsWhitespace(ws: string, x: string)
    requires AllWhitespace(ws)
    ensures ParseInt(ws + x) == ParseInt(x)
    decreases |ws|
  {
    if |ws| > 0 {
      var s := ws + x;
      assert s[0] == ws[0] && IsJsWhitespace(s[0]);
      assert s[1..] == ws[1..] + x;
      ParseIntSkipsWhitespace(ws[1..], x);
    } else {
      assert ws + x == x;
    }
  }

  /** A sign is the last character `parseInt` skips. */
  lemma ParseIntAfterSign(c: char, u: string)
    requires IsSign(c)
    ensures ParseInt([c] + u) == LeadingInteger(u, c == '-')
  {
    assert ([c] + u)[0] == c && ([c] + u)[1..] == u;
  }

  /** A text that starts with a digit is read from its first character. */
  lemma ParseIntAtDigit(u: string)
    requires |u| > 0 && IsDigit(u[0])
    ensures ParseInt(u) == LeadingInteger(u, false)
  {
    assert !IsJsWhitespace(u[0]) && !IsSign(u[0]);
  }

  lemma LeadingIntegerOf(ds: string, rest: string, negative: bool)
    requires |ds| > 0 && AllDigits(ds)
    requires rest == [] || !IsDigit(rest[0])
    ensures LeadingInteger(ds + rest, negative) == Some(Signed(DigitsValue(ds), negative))
  {
    DigitPrefixOf(ds, rest);
  }

  /** A digit run after a sign reads as the signed value of the run. */
  lemma ParseIntOfSignDigits(c: char, ds: string, rest: string)
    requires IsSign(c)
    requires |ds| > 0 && AllDigits(ds)
    requires rest == [] || !IsDigit(rest[0])
    ensures ParseInt([c] + ds + rest) == Some(Signed(DigitsValue(ds), c == '-'))
  {
    ConcatAssoc([c], ds, rest);
    ParseIntAfterSign(c, ds + rest);
    LeadingIntegerOf(ds, rest, c == '-');
  }

  /** An unsigned digit run reads as its value. */
  lemma ParseIntOfDigits(ds: string, rest: string)
    requires |ds| > 0 && AllDigits(ds)
    requires rest == [] || !IsDigit(rest[0])
    ensures ParseInt(ds + rest) == Some(DigitsValue(ds))
  {
    ParseIntAtDigit(ds + rest);
    LeadingIntegerOf(ds, rest, false);
  }

  /** A digit run after an optional sign reads as the signed value of the run. */
  lemma ParseIntOfSignedDigits(sign: string, ds: string, rest: string)
    requires IsSignText(sign)
    requires |ds| > 0 && AllDigits(ds)
    requires rest == [] || !IsDigit(rest[0])
    ensures ParseInt(sign + ds + rest) == Some(Signed(DigitsValue(ds), IsMinus(sign)))
  {
    if |sign| == 1 {
      assert sign == [sign[0]];
      ParseIntOfSignDigits(sign[0], ds, rest);
    } else {
      assert sign + ds + rest == ds + rest;
      ParseIntOfDigits(ds, rest);
    }
  }

  /**
   * The integer reading of a text laid out as white space, a sign, digits and a
   * rest that does not continue the digits is the signed value of the digits.
   */
  lemma ParseIntOfParts(ws: string, sign: string, ds: string, rest: string)
    requires AllWhitespace(ws)
    requires IsSignText(sign)
    requires |ds| > 0 && AllDigits(ds)
    requires rest == [] || !IsDigit(rest[0])
    ensures ParseInt(ws + sign + ds + rest)
         == Some(Signed(DigitsValue(ds), IsMinus(sign)))
  {
    var x := sign + ds + rest;
    ConcatAssoc(ws + sign, ds, rest);
    ConcatAssoc(ws, sign, ds + rest);
    ConcatAssoc(sign, ds, rest);
    ParseIntSkipsWhitespace(ws, x);
    ParseIntOfSignedDigits(sign, ds, rest);
  }

  /**
   * A text with no digit right after its white space and sign has no integer
   * reading; after a sign, even a second sign or white space ends the number.
   */
  lemma ParseIntOfNonNumber(ws: string, sign: string, rest: string)
    requires AllWhitespace(ws)
    requires IsSignText(sign)
    requires rest == [] || !IsDigit(rest[0])
    requires |sign| == 0 ==> rest == [] || (!IsSign(rest[0]) && !IsJsWhitespace(rest[0]))
    ensures ParseInt(ws + sign + rest) == None
  {
    var x := sign + rest;
    ConcatAssoc(ws, sign, rest);
    ParseIntSkipsWhitespace(ws, x);
    if |sign| == 1 {
      assert x[0] == sign[0] && x[1..] == rest;
    } else {
      assert x == rest;
    }
  }

  /** `parseInt` reads back every integer that `String` renders. */
  lemma ParseIntOfIntToString(n: int, rest: string)
    requires rest == [] || !IsDigit(rest[0])
    ensures ParseInt(IntToString(n) + rest) == Some(n)
  {
    var m: nat := if n < 0 then -n else n;
    var ds := NatToString(m);
    NatToStringValue(m);
    if n < 0 {
      assert IntToString(n) == ['-'] + ds;
      ParseIntOfSignDigits('-', ds, rest);
    } else {
      assert IntToString(n) == ds;
      ParseIntOfDigits(ds, rest);
    }
  }

  lemma ParseIntOfNatToString(n: nat)
    ensures ParseInt(NatToString(n)) == Some(n)
  {
    ParseIntOfIntToString(n, "");
    assert IntToString(n) + "" == NatToString(n);
  }

  /** A text that starts like a decimal literal: `Infinity`, a digit, or a point and a digit. */
  predicate StartsDecimal(u: string) {
    || "Infinity" <= u
    || (|u| > 0 && IsDigit(u[0]))
    || (|u| > 1 && u[0] == '.' && IsDigit(u[1]))
  }

  /**
   * `Number.parseFloat(s)` is not `NaN`: after white space and at most one sign
   * the text starts like a decimal literal.
   */
  predicate HasDecimalPrefix(s: string)
    decreases |s|
  {
    if |s| > 0 && IsJsWhitespace(s[0]) then HasDecimalPrefix(s[1..])
    else if |s| > 0 && IsSign(s[0]) then StartsDecimal(s[1..])
    else StartsDecimal(s)
  }

  /** The `parseFloat` test looks at the text where its leading white space ends. */
  lemma {:induction false} HasDecimalPrefixAfterSpace(s: string)
    ensures var t := TrimStart(s);
      HasDecimalPrefix(s) <==> if |t| > 0 && IsSign(t[0]) then StartsDecimal(t[1..]) else StartsDecimal(t)
    decreases |s|
  {
    if |s| > 0 && IsJsWhitespace(s[0]) {
      HasDecimalPrefixAfterSpace(s[1..]);
    }
  }

  /** Whatever `parseInt` accepts, `parseFloat` accepts. */
  lemma {:induction false} IntegerIsDecimal(s: string)
    requires ParseInt(s).Some?
    ensures HasDecimalPrefix(s)
    decreases |s|
  {
    if |s| > 0 && IsJsWhitespace(s[0]) {
      IntegerIsDecimal(s[1..]);
    }
  }
}
