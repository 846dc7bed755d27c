/**
 * The JavaScript string and number primitives the tuner relies on,
 * restricted to integers: String(n), padStart(2, '0'), String.prototype.trim,
 * Number.parseInt with radix 10 or 16, and the truncating `%` operator.
 */
module Text {
  import opened Wrappers

  /** JavaScript's `%`: the remainder keeps the sign of the dividend. */
  function JsRem(a: int, b: int): (r: int)
    requires b > 0
    ensures a >= 0 ==> r == a % b
    ensures a < 0 ==> -b < r <= 0 && r == -((-a) % b)
  {
    if a >= 0 then a % b else -((-a) % b)
  }

  /** WhiteSpace and LineTerminator code points of ECMA-262, skipped by trim and parseInt. */
  predicate IsSpace(c: char)
  {
    c == '\t' || c == '\n' || c == '\U{000B}' || c == '\U{000C}' || c == '\r' || c == ' '
    || c == '\U{00A0}' || c == '\U{1680}' || ('\U{2000}' <= c <= '\U{200A}')
    || c == '\U{2028}' || c == '\U{2029}' || c == '\U{202F}' || c == '\U{205F}'
    || c == '\U{3000}' || c == '\U{FEFF}'
  }

  /** Drops leading white space (String.prototype.trimStart). */
  function TrimStart(s: string): (r: string)
    ensures |r| <= |s| && r == s[|s| - |r|..]
    ensures r == [] || !IsSpace(r[0])
    ensures forall i :: 0 <= i < |s| - |r| ==> IsSpace(s[i])
  {
    if s != [] && IsSpace(s[0]) then TrimStart(s[1..]) else s
  }

  /** Drops trailing white space (String.prototype.trimEnd). */
  function TrimEnd(s: string): (r: string)
    ensures |r| <= |s| && r == s[..|r|]
    ensures r == [] || !IsSpace(r[|r| - 1])
    ensures forall i :: |r| <= i < |s| ==> IsSpace(s[i])
  {
    if s != [] && IsSpace(s[|s| - 1]) then TrimEnd(s[..|s| - 1]) else s
  }

  /** String.prototype.trim. */
  function Trim(s: string): string
  {
    TrimEnd(TrimStart(s))
  }

  /** A string is its own trim exactly when it neither starts nor ends with white space. */
  lemma TrimFixedPoint(s: string)
    ensures Trim(s) == s <==> (s == [] || (!IsSpace(s[0]) && !IsSpace(s[|s| - 1])))
  {
    if s != [] && !IsSpace(s[0]) && !IsSpace(s[|s| - 1]) {
      assert TrimStart(s) == s;
      assert TrimEnd(s) == s;
    }
  }

  /** Trimming twice is trimming once. */
  lemma TrimIdempotent(s: string)
    ensures Trim(Trim(s)) == Trim(s)
  {
    var t := Trim(s);
    var u := TrimStart(s);
    if t != [] {
      assert t == u[..|t|];
      assert t[0] == u[0];
    }
    TrimFixedPoint(t);
  }

  /** The value of a digit character in radices up to 36, and 36 for any other character. */
  function DigitValue(c: char): (v: nat)
    ensures v <= 36
  {
    if '0' <= c <= '9' then (c - '0') as nat
    else if 'a' <= c <= 'z' then (c - 'a') as nat + 10
    else if 'A' <= c <= 'Z' then (c - 'A') as nat + 10
    else 36
  }

  /**
   * The digit table parseInt reads: '0'..'9' are 0..9, letters of either case are 10..35
   * from 'a', and 36 ("not a digit in any radix") is exactly every other character.
   */
  lemma DigitValueTable(c: char)
    ensures '0' <= c <= '9' ==> DigitValue(c) as int == c as int - '0' as int
    ensures 'a' <= c <= 'z' ==> DigitValue(c) as int == c as int - 'a' as int + 10
    ensures 'A' <= c <= 'Z' ==> DigitValue(c) as int == c as int - 'A' as int + 10
    ensures DigitValue(c) == 36 <==> !('0' <= c <= '9' || 'a' <= c <= 'z' || 'A' <= c <= 'Z')
  {
  }

  predicate AllDigits(s: string, radix: nat)
  {
    forall i :: 0 <= i < |s| ==> DigitValue(s[i]) < radix
  }

  /** The number a digit string denotes, read most significant digit first. */
  function Value(s: string, radix: nat): nat
  {
    if s == [] then 0 else Value(s[..|s| - 1], radix) * radix + DigitValue(s[|s| - 1])
  }

  function DigitChar(d: nat): (c: char)
    requires d < 10
    ensures DigitValue(c) == d
  {
    ('0' as int + d) as char
  }

  /** The decimal numeral of a non-negative integer, without leading zeros: String(n). */
  function Digits(n: nat): (r: string)
    ensures 1 <= |r| && AllDigits(r, 10)
    ensures n < 10 ==> |r| == 1
    ensures 10 <= n < 100 ==> |r| == 2
  {
    if n < 10 then [DigitChar(n)] else Digits(n / 10) + [DigitChar(n % 10)]
  }

  /** Reading back a numeral gives the number it was written from. */
  lemma {:induction false} ValueOfDigits(n: nat)
    ensures Value(Digits(n), 10) == n
  {
    if n >= 10 {
      ValueOfDigits(n / 10);
      var s := Digits(n);
      assert s[..|s| - 1] == Digits(n / 10);
    }
  }

  /** A leading zero does not change the value of a numeral. */
  lemma {:induction false} ValueLeadingZero(s: string, radix: nat)
    ensures Value("0" + s, radix) == Value(s, radix)
  {
    if s != [] {
      ValueLeadingZero(s[..|s| - 1], radix);
      assert ("0" + s)[..|"0" + s| - 1] == "0" + s[..|s| - 1];
    }
  }

  /** String(n) for any integer. */
  function IntToString(n: int): (r: string)
    ensures n >= 0 ==> r == Digits(n)
    ensures n < 0 ==> r == "-" + Digits(-n)
  {
    if n < 0 then "-" + Digits(-n) else Digits(n)
  }

  /** String(n) is a decimal numeral denoting n: bare digits for n >= 0, a minus sign and the digits of -n otherwise. */
  lemma IntToStringDenotes(n: int)
    ensures n >= 0 ==> 1 <= |IntToString(n)| && AllDigits(IntToString(n), 10) && Value(IntToString(n), 10) == n
    ensures n < 0 ==> 2 <= |IntToString(n)| && IntToString(n)[0] == '-'
    ensures n < 0 ==> AllDigits(IntToString(n)[1..], 10) && Value(IntToString(n)[1..], 10) == -n
  {
    if n < 0 {
      ValueOfDigits(-n);
      assert IntToString(n)[1..] == Digits(-n);
    } else {
      ValueOfDigits(n);
    }
  }

  /** String(n).padStart(2, '0'): one zero in front of a one-character numeral, nothing cut off. */
  function Pad2(n: int): string
  {
    var s := IntToString(n);
    if |s| < 2 then "0" + s else s
  }

  /** For 0..99 the padded numeral is two digits denoting n; longer numerals are kept whole. */
  lemma Pad2Digits(n: int)
    ensures 0 <= n < 100 ==> |Pad2(n)| == 2 && AllDigits(Pad2(n), 10) && Value(Pad2(n), 10) == n
    ensures n >= 10 ==> Pad2(n) == IntToString(n)
  {
    if 0 <= n {
      ValueOfDigits(n);
      if n < 10 {
        ValueLeadingZero(Digits(n), 10);
      }
    }
  }

  /** The longest prefix of `s` made of digits valid in `radix`. */
  function DigitRun(s: string, radix: nat): (r: string)
    ensures |r| <= |s| && r == s[..|r|] && AllDigits(r, radix)
    ensures |r| < |s| ==> DigitValue(s[|r|]) >= radix
  {
    if s != [] && DigitValue(s[0]) < radix then [s[0]] + DigitRun(s[1..], radix) else []
  }

  /**
   * Number.parseInt(s, radix): leading white space, one optional sign, for radix 16 an
   * optional 0x prefix, then the longest run of digits; no digit at all is NaN (None).
   */
  function ParseInt(s: string, radix: nat): Option<int>
    requires radix == 10 || radix == 16
  {
    var t := TrimStart(s);
    var negative := t != [] && t[0] == '-';
    var u := if t != [] && (t[0] == '-' || t[0] == '+') then t[1..] else t;
    var v := if radix == 16 && |u| >= 2 && u[0] == '0' && (u[1] == 'x' || u[1] == 'X') then u[2..] else u;
    var run := DigitRun(v, radix);
    var magnitude: int := Value(run, radix);
    if run == [] then None
    else if negative then Some(-magnitude)
    else Some(magnitude)
  }

  /** A string made only of digits is its own digit run. */
  lemma {:induction false} DigitRunOfDigits(s: string, radix: nat)
    requires AllDigits(s, radix)
    ensures DigitRun(s, radix) == s
  {
    if s != [] {
      DigitRunOfDigits(s[1..], radix);
    }
  }

  /** A non-empty digit string without a hexadecimal 0x prefix is parsed in full. */
  lemma ParseIntOfDigits(s: string, radix: nat)
    requires radix == 10 || radix == 16
    requires s != [] && AllDigits(s, radix)
    requires radix == 16 ==> !(|s| >= 2 && s[0] == '0' && (s[1] == 'x' || s[1] == 'X'))
    ensures ParseInt(s, radix) == Some(Value(s, radix))
  {
    assert !IsSpace(s[0]);
    assert TrimStart(s) == s;
    DigitRunOfDigits(s, radix);
  }

  /** A numeral written by String(n) parses back to n, negative numbers included. */
  lemma ParseIntOfString(n: int)
    ensures ParseInt(IntToString(n), 10) == Some(n)
  {
    var s := IntToString(n);
    IntToStringDenotes(n);
    if n >= 0 {
      ParseIntOfDigits(s, 10);
    } else {
      assert !IsSpace(s[0]);
      assert TrimStart(s) == s;
      DigitRunOfDigits(s[1..], 10);
    }
  }

  /** The index of the first occurrence of `c` in `s`, or |s| when there is none. */
  function FindChar(s: string, c: char): (i: nat)
    ensures i <= |s|
    ensures i < |s| ==> s[i] == c
  {
    if s == [] then 0 else if s[0] == c then 0 else 1 + FindChar(s[1..], c)
  }

  /** Nothing before the index FindChar returns is `c`. */
  lemma {:induction false} FindCharFirst(s: string, c: char, j: int)
    requires 0 <= j < FindChar(s, c)
    ensures s[j] != c
  {
    if j > 0 {
      FindCharFirst(s[1..], c, j - 1);
    }
  }

  /** Splits at the first `c`; None when `c` does not occur. */
  function SplitAt(s: string, c: char): (r: Option<(string, string)>)
    ensures r.Some? ==> s == r.value.0 + [c] + r.value.1
  {
    var i := FindChar(s, c);
    if i == |s| then None else Some((s[..i], s[i + 1..]))
  }

  /** Splitting a joined string at a separator that the left part lacks gives back the parts. */
  lemma {:induction false} SplitAtJoin(a: string, c: char, b: string)
    requires c !in a
    ensures SplitAt(a + [c] + b, c) == Some((a, b))
  {
    FindCharAfter(a, c, b);
    var s := a + [c] + b;
    assert s[..|a|] == a;
    assert s[|a| + 1..] == b;
  }

  /** The first `c` in a + [c] + b is right after `a` when `a` has none. */
  lemma {:induction false} FindCharAfter(a: string, c: char, b: string)
    requires c !in a
    ensures FindChar(a + [c] + b, c) == |a|
  {
    if a != [] {
      FindCharAfter(a[1..], c, b);
      assert (a + [c] + b)[1..] == a[1..] + [c] + b;
    }
  }

  /** Decimal digits never contain a separator character. */
  lemma SeparatorNotInDigits(s: string, c: char)
    requires AllDigits(s, 10) && DigitValue(c) >= 10
    ensures c !in s
  {
  }
}
