/**
 * String primitives with ECMAScript semantics: the white-space set shared by
 * `parseInt`, `parseFloat`, `String.prototype.trim` and the regular-expression
 * class `\s`; decimal digits; `split` on a one-character separator; `join`;
 * global replacement of one character; decimal rendering of integers.
 */
module Text {
  import opened Wrappers

  /** ECMAScript WhiteSpace and LineTerminator code points. */
  predicate IsJsWhitespace(c: char) {
    || c == '\t' || c == '\n' || c == '\U{B}' || c == '\U{C}' || c == '\r'
    || c == ' ' || c == '\U{A0}' || c == '\U{1680}'
    || ('\U{2000}' <= c <= '\U{200A}')
    || c == '\U{2028}' || c == '\U{2029}' || c == '\U{202F}' || c == '\U{205F}'
    || c == '\U{3000}' || c == '\U{FEFF}'
  }

  predicate AllWhitespace(s: string) {
    forall k :: 0 <= k < |s| ==> IsJsWhitespace(s[k])
  }

  /** Regrouping a concatenation of three texts. */
  lemma ConcatAssoc(a: string, b: string, c: string)
    ensures a + b + c == a + (b + c)
  {
  }

  /** An optional text is truthy when it is defined and not the empty string. */
  predicate Truthy(v: Option<string>) {
    v.Some? && v.value != ""
  }

  predicate IsDigit(c: char) {
    '0' <= c <= '9'
  }

  predicate AllDigits(s: string) {
    forall k :: 0 <= k < |s| ==> IsDigit(s[k])
  }

  function DigitValue(c: char): (d: nat)
    ensures d < 10
  {
    if IsDigit(c) then c as int - '0' as int else 0
  }

  function DigitChar(d: nat): (c: char)
    requires d < 10
    ensures IsDigit(c) && DigitValue(c) == d
  {
    "0123456789"[d]
  }

  /** Drops the leading white space, as `trimStart` does. */
  function TrimStart(s: string): (r: string)
    ensures |r| <= |s|
    ensures r == [] || !IsJsWhitespace(r[0])
  {
    if |s| > 0 && IsJsWhitespace(s[0]) then TrimStart(s[1..]) else s
  }

  /** Drops the trailing white space, as `trimEnd` does. */
  function TrimEnd(s: string): (r: string)
    ensures r <= s
    ensures r == [] || !IsJsWhitespace(r[|r| - 1])
  {
    if |s| > 0 && IsJsWhitespace(s[|s| - 1]) then TrimEnd(s[..|s| - 1]) else s
  }

  /** `String.prototype.trim`: both ends. */
  function Trim(s: string): (r: string)
    ensures |r| <= |s|
    ensures r == [] || (!IsJsWhitespace(r[0]) && !IsJsWhitespace(r[|r| - 1]))
  {
    TrimEnd(TrimStart(s))
  }

  /** `trimStart` keeps a suffix and drops only white space before it. */
  lemma {:induction false} TrimStartDropsSpace(s: string)
    ensures TrimStart(s) == s[|s| - |TrimStart(s)|..]
    ensures AllWhitespace(s[..|s| - |TrimStart(s)|])
  {
    if |s| > 0 && IsJsWhitespace(s[0]) {
      TrimStartDropsSpace(s[1..]);
      var n := |s| - |TrimStart(s)|;
      assert s[..n] == [s[0]] + s[1..][..n - 1];
    }
  }

  /** `trimEnd` drops only white space behind the prefix it keeps. */
  lemma {:induction false} TrimEndDropsSpace(s: string)
    ensures AllWhitespace(s[|TrimEnd(s)|..])
  {
    if |s| > 0 && IsJsWhitespace(s[|s| - 1]) {
      TrimEndDropsSpace(s[..|s| - 1]);
      var n := |TrimEnd(s)|;
      assert s[n..] == s[..|s| - 1][n..] + [s[|s| - 1]];
    }
  }

  /**
   * A text is the white space `trim` drops in front, the trimmed text, and the
   * white space it drops behind.
   */
  lemma TrimDecomposes(s: string)
    ensures var lead := |s| - |TrimStart(s)|;
      && lead + |Trim(s)| <= |s|
      && s[lead..lead + |Trim(s)|] == Trim(s)
      && AllWhitespace(s[..lead])
      && AllWhitespace(s[lead + |Trim(s)|..])
  {
    var t := TrimStart(s);
    var r := TrimEnd(t);
    TrimStartDropsSpace(s);
    TrimEndDropsSpace(t);
    SliceOfSuffix(s, t, r);
  }

  /** Where a prefix `r` of a suffix `t` of `s` sits in `s`. */
  lemma SliceOfSuffix(s: string, t: string, r: string)
    requires |t| <= |s| && t == s[|s| - |t|..] && r <= t
    ensures s[|s| - |t|..|s| - |t| + |r|] == r
    ensures s[|s| - |t| + |r|..] == t[|r|..]
  {
    assert t[..|r|] == r;
  }

  lemma {:induction false} TrimStartOfWhitespace(ws: string, x: string)
    requires AllWhitespace(ws)
    requires x == [] || !IsJsWhitespace(x[0])
    ensures TrimStart(ws + x) == x
  {
    if ws != [] {
      assert (ws + x)[1..] == ws[1..] + x;
      TrimStartOfWhitespace(ws[1..], x);
    }
  }

  lemma {:induction false} TrimEndOfWhitespace(x: string, ws: string)
    requires AllWhitespace(ws)
    requires x == [] || !IsJsWhitespace(x[|x| - 1])
    ensures TrimEnd(x + ws) == x
  {
    if ws != [] {
      assert (x + ws)[..|x + ws| - 1] == x + ws[..|ws| - 1];
      TrimEndOfWhitespace(x, ws[..|ws| - 1]);
    }
  }

  /** Trimming removes exactly the white space padding around a text whose ends are not white space. */
  lemma TrimOfPadded(before: string, x: string, after: string)
    requires AllWhitespace(before) && AllWhitespace(after)
    requires x == [] || (!IsJsWhitespace(x[0]) && !IsJsWhitespace(x[|x| - 1]))
    ensures Trim(before + x + after) == x
  {
    if x == [] {
      assert before + x + after == before + after;
      TrimStartOfWhitespace(before + after, []);
      assert before + after + [] == before + after;
      assert TrimStart(before + after) == [];
    } else {
      assert before + x + after == before + (x + after);
      TrimStartOfWhitespace(before, x + after);
      TrimEndOfWhitespace(x, after);
    }
  }

  /** The longest prefix of `s` made of decimal digits. */
  function DigitPrefix(s: string): (r: string)
    ensures r <= s && AllDigits(r)
    ensures |r| == |s| || !IsDigit(s[|r|])
  {
    if |s| > 0 && IsDigit(s[0]) then [s[0]] + DigitPrefix(s[1..]) else ""
  }

  lemma {:induction false} DigitPrefixOf(ds: string, rest: string)
    requires AllDigits(ds)
    requires rest == [] || !IsDigit(rest[0])
    ensures DigitPrefix(ds + rest) == ds
  {
    if ds != [] {
      assert (ds + rest)[1..] == ds[1..] + rest;
      DigitPrefixOf(ds[1..], rest);
    }
  }

  /** The number a string of decimal digits denotes (most significant first). */
  function DigitsValue(ds: string): nat
  {
    if |ds| == 0 then 0 else 10 * DigitsValue(ds[..|ds| - 1]) + DigitValue(ds[|ds| - 1])
  }

  /** The decimal rendering of `n`, without leading zeros. */
  function NatToString(n: nat): (r: string)
    ensures |r| >= 1 && AllDigits(r)
    ensures r[0] == '0' ==> n == 0
  {
    if n < 10 then [DigitChar(n)] else NatToString(n / 10) + [DigitChar(n % 10)]
  }

  /** `String(n)` for an integer-valued number. */
  function IntToString(n: int): (r: string)
    ensures |r| >= 1
  {
    if n < 0 then "-" + NatToString(-n) else NatToString(n)
  }

  lemma {:induction false} NatToStringValue(n: nat)
    ensures DigitsValue(NatToString(n)) == n
  {
    if n >= 10 {
      NatToStringValue(n / 10);
      var s := NatToString(n);
      assert s[..|s| - 1] == NatToString(n / 10);
    }
  }

  /** `s.split(sep)` for a one-character separator: never empty, one more segment than separators. */
  function Split(s: string, sep: char): (r: seq<string>)
    ensures |r| >= 1
  {
    if |s| == 0 then [""]
    else
      var rest := Split(s[1..], sep);
      if s[0] == sep then [""] + rest else [[s[0]] + rest[0]] + rest[1..]
  }

  /** `segs.join(sep)`. */
  function Join(segs: seq<string>, sep: string): string
  {
    if |segs| == 0 then ""
    else if |segs| == 1 then segs[0]
    else segs[0] + sep + Join(segs[1..], sep)
  }

  lemma JoinPrepend(c: char, segs: seq<string>, sep: string)
    requires |segs| >= 1
    ensures Join([[c] + segs[0]] + segs[1..], sep) == [c] + Join(segs, sep)
  {
    var t := [[c] + segs[0]] + segs[1..];
    assert t[1..] == segs[1..];
  }

  /** No segment contains the separator. */
  lemma {:induction false} SplitSegmentsFree(s: string, sep: char)
    ensures forall k :: 0 <= k < |Split(s, sep)| ==> sep !in Split(s, sep)[k]
  {
    if |s| > 0 {
      SplitSegmentsFree(s[1..], sep);
    }
  }

  /** Joining the segments with the separator gives back the string. */
  lemma {:induction false} JoinSplit(s: string, sep: char)
    ensures Join(Split(s, sep), [sep]) == s
  {
    if |s| > 0 {
      var rest := Split(s[1..], sep);
      JoinSplit(s[1..], sep);
      if s[0] == sep {
        assert ([""] + rest)[1..] == rest;
      } else {
        JoinPrepend(s[0], rest, [sep]);
      }
      assert s == [s[0]] + s[1..];
    }
  }

  /** A string without the separator is one segment. */
  lemma {:induction false} SplitWithoutSeparator(x: string, sep: char)
    requires sep !in x
    ensures Split(x, sep) == [x]
  {
    if |x| > 0 {
      SplitWithoutSeparator(x[1..], sep);
      assert x == [x[0]] + x[1..];
    }
  }

  /** A separator-free segment followed by the separator splits off as the first segment. */
  lemma {:induction false} SplitAfterSegment(x: string, sep: char, y: string)
    requires sep !in x
    ensures Split(x + [sep] + y, sep) == [x] + Split(y, sep)
  {
    var s := x + [sep] + y;
    if |x| == 0 {
      assert s[1..] == y;
    } else {
      assert s[1..] == x[1..] + [sep] + y;
      SplitAfterSegment(x[1..], sep, y);
      assert x == [x[0]] + x[1..];
    }
  }

  /** Two separator-free segments joined by the separator split back into them. */
  lemma SplitOfTwo(a: string, b: string, sep: char)
    requires sep !in a && sep !in b
    ensures Split(a + [sep] + b, sep) == [a, b]
  {
    SplitAfterSegment(a, sep, b);
    SplitWithoutSeparator(b, sep);
  }

  /** Three separator-free segments joined by the separator split back into them. */
  lemma SplitOfThree(a: string, b: string, c: string, sep: char)
    requires sep !in a && sep !in b && sep !in c
    ensures Split(a + [sep] + b + [sep] + c, sep) == [a, b, c]
  {
    ConcatAssoc(a + [sep] + b, [sep], c);
    ConcatAssoc(a + [sep], b, [sep] + c);
    ConcatAssoc(b, [sep], c);
    SplitAfterSegment(a, sep, b + [sep] + c);
    SplitOfTwo(b, c, sep);
  }

  /** A rendered number holds no character other than digits. */
  lemma NatToStringHasNo(n: nat, c: char)
    requires !IsDigit(c)
    ensures c !in NatToString(n)
  {
  }

  /** `s.replace(/c/g, t)` for a single character `c`. */
  function ReplaceAll(s: string, c: char, t: string): (r: string)
    ensures c !in s ==> r == s
    ensures c !in t ==> c !in r
  {
    if |s| == 0 then "" else (if s[0] == c then t else [s[0]]) + ReplaceAll(s[1..], c, t)
  }

  /** Global replacement is splitting on the character and joining with the replacement. */
  lemma {:induction false} ReplaceAllIsSplitJoin(s: string, c: char, t: string)
    ensures ReplaceAll(s, c, t) == Join(Split(s, c), t)
  {
    if |s| > 0 {
      ReplaceAllIsSplitJoin(s[1..], c, t);
      var rest := Split(s[1..], c);
      if s[0] == c {
        assert ([""] + rest)[1..] == rest;
      } else {
        JoinPrepend(s[0], rest, t);
      }
    }
  }
}
