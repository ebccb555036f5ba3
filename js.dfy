/** The JavaScript built-ins the TypeScript code leans on, written out:
    `parseInt` without a radix, truthiness of a parsed number, the string
    tests `startsWith`/`includes`, ASCII `toLowerCase`, and `String(n)`. */
module Js {

  /** A value produced by `parseInt` or left `undefined`. */
  datatype JsInt = Undefined | NaN | Num(n: int) {
    /** Only a non-zero number is truthy; `undefined`, `NaN` and `0` are not. */
    predicate Truthy() { Num? && n != 0 }
  }

  // ---------------------------------------------------------------------------
  // Strings

  predicate StartsWith(s: string, prefix: string) {
    |prefix| <= |s| && s[..|prefix|] == prefix
  }

  /** `s.includes(sub)`, searched from the front. */
  predicate Includes(s: string, sub: string)
    decreases |s|
  {
    StartsWith(s, sub) || (|s| > 0 && Includes(s[1..], sub))
  }

  predicate OccursAt(s: string, sub: string, i: int) {
    0 <= i && i + |sub| <= |s| && s[i..i + |sub|] == sub
  }

  /** `Includes` holds exactly when `sub` occurs at some position of `s`. */
  lemma {:induction false} IncludesAt(s: string, sub: string)
    ensures Includes(s, sub) <==> exists i :: OccursAt(s, sub, i)
    decreases |s|
  {
    if |s| > 0 {
      IncludesAt(s[1..], sub);
      if exists i :: OccursAt(s, sub, i) {
        var i :| OccursAt(s, sub, i);
        if i > 0 {
          assert s[1..][i - 1..i - 1 + |sub|] == sub;
          assert OccursAt(s[1..], sub, i - 1);
        }
      }
      if Includes(s[1..], sub) && !StartsWith(s, sub) {
        var i :| OccursAt(s[1..], sub, i);
        assert s[i + 1..i + 1 + |sub|] == sub;
        assert OccursAt(s, sub, i + 1);
      }
    } else {
      if exists i :: OccursAt(s, sub, i) {
        var i :| OccursAt(s, sub, i);
        assert StartsWith(s, sub);
      }
    }
    if StartsWith(s, sub) {
      assert OccursAt(s, sub, 0);
    }
  }

  /** The empty string is found in every string, so an empty search keeps everything. */
  lemma IncludesEmpty(s: string)
    ensures Includes(s, "")
  {
    assert StartsWith(s, "");
  }

  function LowerChar(c: char): char {
    if 'A' <= c <= 'Z' then (c as int + 32) as char else c
  }

  /** `toLowerCase`, for the ASCII letters. */
  function ToLower(s: string): (r: string)
    ensures |r| == |s|
    ensures forall i :: 0 <= i < |s| ==> r[i] == LowerChar(s[i])
  {
    if s == [] then [] else [LowerChar(s[0])] + ToLower(s[1..])
  }

  // ---------------------------------------------------------------------------
  // parseInt(s) with no radix argument

  /** `StrWhiteSpaceChar` of the ECMAScript grammar: what `parseInt` skips first. */
  predicate IsWhiteSpace(c: char) {
    c == '\t' || c == '\n' || c == '\U{000B}' || c == '\U{000C}' || c == '\r' || c == ' '
    || c == '\U{00A0}' || c == '\U{1680}' || ('\U{2000}' <= c <= '\U{200A}')
    || c == '\U{2028}' || c == '\U{2029}' || c == '\U{202F}' || c == '\U{205F}'
    || c == '\U{3000}' || c == '\U{FEFF}'
  }

  function TrimStart(s: string): (r: string)
    ensures |r| <= |s| && r == s[|s| - |r|..]
    ensures r == [] || !IsWhiteSpace(r[0])
  {
    if s != [] && IsWhiteSpace(s[0]) then TrimStart(s[1..]) else s
  }

  /** The value of `c` as a digit in base `radix`, or -1 when it is not one. */
  function DigitValue(c: char, radix: nat): (d: int)
    ensures -1 <= d < radix
  {
    var v :=
      if '0' <= c <= '9' then c as int - '0' as int
      else if 'a' <= c <= 'z' then c as int - 'a' as int + 10
      else if 'A' <= c <= 'Z' then c as int - 'A' as int + 10
      else -1;
    if v < radix then v else -1
  }

  /** Length of the longest prefix of `s` made of digits in base `radix`. */
  function DigitPrefix(s: string, radix: nat): (k: nat)
    ensures k <= |s|
    ensures forall i :: 0 <= i < k ==> DigitValue(s[i], radix) >= 0
    ensures k < |s| ==> DigitValue(s[k], radix) < 0
  {
    if s == [] || DigitValue(s[0], radix) < 0 then 0 else 1 + DigitPrefix(s[1..], radix)
  }

  /** The number a string of digits denotes, most significant first. */
  function DigitsValue(s: string, radix: nat): nat
    requires forall i :: 0 <= i < |s| ==> DigitValue(s[i], radix) >= 0
  {
    if s == [] then 0
    else DigitsValue(s[..|s| - 1], radix) * radix + DigitValue(s[|s| - 1], radix)
  }

  /** What `parseInt` reads after the sign: a hexadecimal number after
      `0x`/`0X` and a decimal one otherwise, up to the first character that is
      not a digit; `NaN` when no digit was read. */
  function ParseUnsigned(u: string): (r: JsInt)
    ensures r != Undefined
    ensures u == [] ==> r == NaN
    ensures u != [] && DigitValue(u[0], 10) < 0 ==> r == NaN
  {
    var hex := StartsWith(u, "0x") || StartsWith(u, "0X");
    assert u != [] && DigitValue(u[0], 10) < 0 ==> !hex by {
      if u != [] && |u| >= 2 {
        assert u[..2][0] == u[0];
      }
    }
    var radix := if hex then 16 else 10;
    var body := if hex then u[2..] else u;
    var k := DigitPrefix(body, radix);
    var digits := body[..k];
    assert forall i :: 0 <= i < |digits| ==> DigitValue(digits[i], radix) >= 0;
    if k == 0 then NaN else Num(DigitsValue(digits, radix))
  }

  /** `parseInt(s)`: skip white space, take an optional sign, then read the
      number; `NaN` when no digit follows. */
  function ParseInt(s: string): (r: JsInt)
    ensures r != Undefined
    ensures TrimStart(s) == [] ==> r == NaN
    ensures var t := TrimStart(s);
      t != [] && t[0] != '-' && t[0] != '+' && DigitValue(t[0], 10) < 0 ==> r == NaN
  {
    var t := TrimStart(s);
    var sign := if t != [] && t[0] == '-' then -1 else 1;
    var unsigned := if t != [] && (t[0] == '-' || t[0] == '+') then t[1..] else t;
    var u := ParseUnsigned(unsigned);
    if u.Num? then Num(sign * u.n) else u
  }

  // ---------------------------------------------------------------------------
  // Decimal rendering, the inverse partner of parseInt

  function DigitChar(d: nat): (c: char)
    requires d < 10
    ensures DigitValue(c, 10) == d
  {
    ('0' as int + d) as char
  }

  /** `String(n)` for a non-negative integer. */
  function ShowNat(n: nat): (s: string)
    ensures |s| >= 1
    decreases n
  {
    if n < 10 then [DigitChar(n)] else ShowNat(n / 10) + [DigitChar(n % 10)]
  }

  /** `String(n)`. */
  function Show(n: int): string {
    if n < 0 then "-" + ShowNat(-n) else ShowNat(n)
  }

  lemma {:induction false} ShowNatDigits(n: nat)
    ensures forall i :: 0 <= i < |ShowNat(n)| ==> DigitValue(ShowNat(n)[i], 10) >= 0
    ensures DigitsValue(ShowNat(n), 10) == n
    ensures n > 0 ==> ShowNat(n)[0] != '0'
    decreases n
  {
    if n >= 10 {
      ShowNatDigits(n / 10);
      var s := ShowNat(n);
      assert s[..|s| - 1] == ShowNat(n / 10);
    }
  }

  lemma {:induction false} DigitPrefixAll(s: string, radix: nat)
    requires forall i :: 0 <= i < |s| ==> DigitValue(s[i], radix) >= 0
    ensures DigitPrefix(s, radix) == |s|
  {
    if s != [] {
      DigitPrefixAll(s[1..], radix);
    }
  }

  lemma DecimalDigit(c: char)
    requires DigitValue(c, 10) >= 0
    ensures '0' <= c <= '9'
  {
  }

  /** A numeral `String` prints starts with a digit, and its second character is one too. */
  lemma ShowNatLeading(n: nat)
    ensures var s := ShowNat(n);
      && !StartsWith(s, "0x") && !StartsWith(s, "0X")
      && !IsWhiteSpace(s[0]) && s[0] != '-' && s[0] != '+'
  {
    ShowNatDigits(n);
    var s := ShowNat(n);
    DecimalDigit(s[0]);
    if |s| >= 2 {
      DecimalDigit(s[1]);
      assert s[..2][1] == s[1];
    }
  }

  lemma ShowNatParses(n: nat)
    ensures var s := ShowNat(n);
      && DigitPrefix(s, 10) == |s|
      && DigitsValue(s[..|s|], 10) == n
      && !StartsWith(s, "0x") && !StartsWith(s, "0X")
      && !IsWhiteSpace(s[0]) && s[0] != '-' && s[0] != '+'
  {
    ShowNatDigits(n);
    ShowNatLeading(n);
    var s := ShowNat(n);
    DigitPrefixAll(s, 10);
    assert s[..|s|] == s;
  }

  /** `parseInt` of an unsigned decimal numeral with no leading white space. */
  lemma ParseIntDecimal(t: string, sign: int, digits: string)
    requires sign == 1 || sign == -1
    requires t == (if sign < 0 then "-" else "") + digits
    requires digits != [] && DigitPrefix(digits, 10) == |digits|
    requires !StartsWith(digits, "0x") && !StartsWith(digits, "0X")
    requires !IsWhiteSpace(digits[0]) && digits[0] != '-' && digits[0] != '+'
    ensures ParseInt(t) == Num(sign * DigitsValue(digits[..|digits|], 10))
  {
    assert TrimStart(t) == t;
    var unsigned := if t[0] == '-' || t[0] == '+' then t[1..] else t;
    assert unsigned == digits;
  }

  /** Reading back what `Show` printed gives the number again. */
  lemma ParseIntShow(n: int)
    ensures ParseInt(Show(n)) == Num(n)
  {
    var m := if n < 0 then -n else n;
    ShowNatParses(m);
    ParseIntDecimal(Show(n), if n < 0 then -1 else 1, ShowNat(m));
  }
}
