/** String helpers with the semantics of the JavaScript string methods the client uses.
    Characters are compared as code points; case mapping covers ASCII letters only. */
module Text {
  import opened Wrappers

  /** The characters `String.prototype.trim` and the regex class `\s` treat as white space
      (the ASCII subset). */
  predicate IsWhitespace(c: char) {
    c == ' ' || c == '\t' || c == '\n' || c == '\r' || c == '\U{000B}' || c == '\U{000C}'
  }

  predicate IsDigit(c: char) {
    '0' <= c <= '9'
  }

  predicate NoWhitespaceEnds(s: string) {
    s == [] || (!IsWhitespace(s[0]) && !IsWhitespace(s[|s| - 1]))
  }

  /** The first index at or after `i` that is not white space (`|s|` if none). */
  function TextStart(s: string, i: nat): (k: nat)
    requires i <= |s|
    ensures i <= k <= |s|
    ensures forall m :: i <= m < k ==> IsWhitespace(s[m])
    ensures k == |s| || !IsWhitespace(s[k])
    decreases |s| - i
  {
    if i == |s| || !IsWhitespace(s[i]) then i else TextStart(s, i + 1)
  }

  /** The end of the text in `s[lo..j]`: `j` moved left past trailing white space, but
      not below `lo`. */
  function TextEnd(s: string, lo: nat, j: nat): (k: nat)
    requires lo <= j <= |s|
    ensures lo <= k <= j
    ensures forall m :: k <= m < j ==> IsWhitespace(s[m])
    ensures k == lo || !IsWhitespace(s[k - 1])
    decreases j
  {
    if j == lo || !IsWhitespace(s[j - 1]) then j else TextEnd(s, lo, j - 1)
  }

  /** `s.trimStart()`. */
  function TrimStart(s: string): string {
    s[TextStart(s, 0)..]
  }

  /** `s.trim()`: drops leading and trailing white space and nothing else. */
  function Trim(s: string): (r: string)
    ensures NoWhitespaceEnds(r)
  {
    var i := TextStart(s, 0);
    s[i..TextEnd(s, i, |s|)]
  }

  /** What `trim` removes is white space at the two ends and nothing else: the result is
      the window `s[i..j]` with only white space outside it. */
  lemma TrimWindow(s: string) returns (i: nat, j: nat)
    ensures i <= j <= |s| && Trim(s) == s[i..j]
    ensures forall k :: 0 <= k < i ==> IsWhitespace(s[k])
    ensures forall k :: j <= k < |s| ==> IsWhitespace(s[k])
  {
    i := TextStart(s, 0);
    j := TextEnd(s, i, |s|);
  }

  /** A string that is already trimmed is its own trim. */
  lemma TrimOfTrimmed(s: string)
    requires NoWhitespaceEnds(s)
    ensures Trim(s) == s
  {
    if s != [] {
      assert TextStart(s, 0) == 0;
      assert TextEnd(s, 0, |s|) == |s|;
    }
  }

  /** Trimming a string of blanks leaves the empty string, and only then. */
  lemma TrimEmptyIff(s: string)
    ensures Trim(s) == [] <==> forall k :: 0 <= k < |s| ==> IsWhitespace(s[k])
  {
    var i, j := TrimWindow(s);
    if Trim(s) == [] {
      forall k | 0 <= k < |s| ensures IsWhitespace(s[k]) {
        if k >= i { assert k >= j; }
      }
    } else {
      assert !IsWhitespace(s[i]);
    }
  }

  function LowerChar(c: char): (r: char)
    ensures 'A' <= c <= 'Z' ==> 'a' <= r <= 'z'
    ensures !('A' <= c <= 'Z') ==> r == c
  {
    if 'A' <= c <= 'Z' then (c as int - 'A' as int + 'a' as int) as char else c
  }

  /** `s.toLowerCase()` on ASCII letters. */
  function Lower(s: string): (r: string)
    ensures |r| == |s|
    ensures forall i :: 0 <= i < |s| ==> r[i] == LowerChar(s[i])
  {
    seq(|s|, i requires 0 <= i < |s| => LowerChar(s[i]))
  }

  predicate StartsWith(s: string, prefix: string) {
    |prefix| <= |s| && s[..|prefix|] == prefix
  }

  /** `sub` occurs in `s` starting at index `i`. */
  predicate OccursAt(s: string, sub: string, i: nat) {
    i + |sub| <= |s| && s[i..i + |sub|] == sub
  }

  /** `s.includes(sub)`: some window of `s` equals `sub`. */
  predicate Contains(s: string, sub: string) {
    exists i: nat :: i <= |s| && OccursAt(s, sub, i)
  }

  /** Every string includes the empty string. */
  lemma ContainsEmpty(s: string)
    ensures Contains(s, "")
  {
    assert OccursAt(s, "", 0);
  }

  /** JavaScript's `a || b` on strings: the empty string is falsy. */
  function OrElse(a: string, b: string): (r: string)
    ensures a != "" ==> r == a
    ensures a == "" ==> r == b
  {
    if a != "" then a else b
  }

  function DigitChar(d: nat): (c: char)
    requires d < 10
    ensures IsDigit(c)
  {
    ('0' as int + d) as char
  }

  /** The decimal digits of `n`, most significant first, as `String(n)` prints them. */
  function NatToString(n: nat): (r: string)
    ensures r != []
    ensures forall i :: 0 <= i < |r| ==> IsDigit(r[i])
    ensures n > 0 ==> r[0] != '0'
  {
    if n < 10 then [DigitChar(n)] else NatToString(n / 10) + [DigitChar(n % 10)]
  }

  /** `String(n)` for an integer, with a leading `-` for negative values. */
  function IntToString(n: int): (r: string)
    ensures r != []
    ensures n >= 0 ==> r == NatToString(n)
    ensures n < 0 ==> r == "-" + NatToString(-n)
  {
    if n >= 0 then NatToString(n) else "-" + NatToString(-n)
  }

  /** The value of a digit character in bases up to 36: `0`-`9`, then `a` or `A` for 10,
      and so on. */
  function DigitValue(c: char): int {
    if IsDigit(c) then c as int - '0' as int
    else if 'a' <= c <= 'z' then c as int - 'a' as int + 10
    else c as int - 'A' as int + 10
  }

  /** `c` is a digit of base `radix`. */
  predicate IsRadixDigit(c: char, radix: int) {
    (IsDigit(c) || 'a' <= c <= 'z' || 'A' <= c <= 'Z') && DigitValue(c) < radix
  }

  /** The value of a string of digits of base `radix`, most significant first. */
  function DigitsValue(s: string, radix: int): int
    requires forall i :: 0 <= i < |s| ==> IsRadixDigit(s[i], radix)
  {
    if s == [] then 0
    else
      assert IsRadixDigit(s[|s| - 1], radix);
      DigitsValue(s[..|s| - 1], radix) * radix + DigitValue(s[|s| - 1])
  }

  /** Printing is injective: reading the digits back gives the number. */
  lemma {:induction false} NatToStringValue(n: nat)
    ensures forall i :: 0 <= i < |NatToString(n)| ==> IsRadixDigit(NatToString(n)[i], 10)
    ensures DigitsValue(NatToString(n), 10) == n
  {
    if n >= 10 {
      var r := NatToString(n);
      NatToStringValue(n / 10);
      assert r[..|r| - 1] == NatToString(n / 10);
    }
  }

  /** The longest prefix of `s` made of digits of base `radix`. */
  function DigitPrefix(s: string, radix: int): (r: string)
    ensures |r| <= |s| && r == s[..|r|]
    ensures forall i :: 0 <= i < |r| ==> IsRadixDigit(r[i], radix)
    ensures |r| < |s| ==> !IsRadixDigit(s[|r|], radix)
  {
    if s == [] || !IsRadixDigit(s[0], radix) then [] else [s[0]] + DigitPrefix(s[1..], radix)
  }

  /** What `parseInt` reads once leading white space and one sign are skipped. */
  function Unsigned(s: string): string {
    var t := TrimStart(s);
    if t != [] && (t[0] == '-' || t[0] == '+') then t[1..] else t
  }

  /** The skipped sign is a minus. */
  predicate IsNegative(s: string) {
    var t := TrimStart(s);
    t != [] && t[0] == '-'
  }

  /** `0x` or `0X`, which switches `parseInt` without a radix to base 16. */
  predicate HasHexPrefix(u: string) {
    |u| >= 2 && u[0] == '0' && (u[1] == 'x' || u[1] == 'X')
  }

  /** The base `parseInt(s)` reads in. */
  function Radix(s: string): int {
    if HasHexPrefix(Unsigned(s)) then 16 else 10
  }

  /** The text after the sign and the hex prefix, whose leading digits are read. */
  function Numeral(s: string): string {
    var u := Unsigned(s);
    if HasHexPrefix(u) then u[2..] else u
  }

  /** `parseInt(s)` with no radix argument: after leading white space and one sign, a `0x`
      or `0X` prefix selects base 16 and base 10 is used otherwise; the longest run of
      digits of that base is read and the rest ignored. `None` is `NaN`: no digit follows. */
  function ParseInt(s: string): (r: Option<int>)
    ensures r.None? <==> DigitPrefix(Numeral(s), Radix(s)) == []
    ensures r.Some? && IsNegative(s) ==> r.value == -DigitsValue(DigitPrefix(Numeral(s), Radix(s)), Radix(s))
    ensures r.Some? && !IsNegative(s) ==> r.value == DigitsValue(DigitPrefix(Numeral(s), Radix(s)), Radix(s))
  {
    var digits := DigitPrefix(Numeral(s), Radix(s));
    if digits == [] then None
    else if IsNegative(s) then Some(-DigitsValue(digits, Radix(s)))
    else Some(DigitsValue(digits, Radix(s)))
  }

  /** Reading back a printed integer gives the integer: decimal output never looks like a
      hex prefix, and every character of it is read. */
  lemma ParseIntOfInt(n: int)
    ensures ParseInt(IntToString(n)) == Some(n)
  {
    var m: nat := if n >= 0 then n else -n;
    var d := NatToString(m);
    var s := IntToString(n);
    NatToStringValue(m);
    assert !IsWhitespace(s[0]);
    assert TrimStart(s) == s;
    assert Unsigned(s) == d;
    assert !HasHexPrefix(d) by {
      if |d| >= 2 { assert IsDigit(d[1]); }
    }
    assert DigitPrefix(d, 10) == d;
  }

  /** A sign in front of a numeral that starts with a digit is the only thing `parseInt`
      skips. */
  lemma UnsignedOfSigned(sign: string, u: string)
    requires sign == "" || sign == "-" || sign == "+"
    requires u != [] && IsDigit(u[0])
    ensures Unsigned(sign + u) == u
    ensures IsNegative(sign + u) <==> sign == "-"
  {
    var s := sign + u;
    assert !IsWhitespace(s[0]);
    assert TextStart(s, 0) == 0;
    assert TrimStart(s) == s;
    if sign != "" { assert s[1..] == u; } else { assert s == u; }
  }

  /** A hex prefix followed by hex digits reads them in base 16: `parseInt("0x1F")` is 31. */
  lemma ParseIntHex(x: char, h: string)
    requires x == 'x' || x == 'X'
    requires h != [] && forall i :: 0 <= i < |h| ==> IsRadixDigit(h[i], 16)
    ensures ParseInt(['0', x] + h) == Some(DigitsValue(h, 16))
  {
    HexParts(x, h);
    HexDigitsRead(h);
    ParseIntReads(['0', x] + h, h);
  }

  /** How `parseInt` splits an unsigned hex numeral: base 16 and the digits after `0x`. */
  lemma HexParts(x: char, h: string)
    requires x == 'x' || x == 'X'
    ensures Radix(['0', x] + h) == 16
    ensures Numeral(['0', x] + h) == h
    ensures !IsNegative(['0', x] + h)
  {
    var u := ['0', x] + h;
    UnsignedOfSigned("", u);
    assert "" + u == u;
    assert HasHexPrefix(u) && u[2..] == h;
  }

  /** Once the digits `parseInt` reads are known, so is its value. */
  lemma ParseIntReads(s: string, d: string)
    requires DigitPrefix(Numeral(s), Radix(s)) == d && d != []
    ensures ParseInt(s) == Some(if IsNegative(s) then -DigitsValue(d, Radix(s)) else DigitsValue(d, Radix(s)))
  {
  }

  /** The sign is applied to whatever the rest reads, in either base: `parseInt("-0x1F")`
      is -31, `parseInt("+7")` is 7, and a sign before no digit is still `NaN`. */
  lemma ParseIntSign(u: string)
    requires u != [] && IsDigit(u[0])
    ensures ParseInt("-" + u) == (if ParseInt(u).Some? then Some(-ParseInt(u).value) else None)
    ensures ParseInt("+" + u) == ParseInt(u)
  {
    UnsignedOfSigned("-", u);
    UnsignedOfSigned("+", u);
    UnsignedOfSigned("", u);
    assert "" + u == u;
  }

  /** All-hex-digit text is read whole. */
  lemma HexDigitsRead(h: string)
    requires forall i :: 0 <= i < |h| ==> IsRadixDigit(h[i], 16)
    ensures DigitPrefix(h, 16) == h
  {
    var r := DigitPrefix(h, 16);
    assert |r| == |h|;
  }

  /** A hex prefix with no hex digit after it is `NaN`, not zero: `parseInt("0x")` and
      `parseInt("0xg")` fail. */
  lemma ParseIntHexWithoutDigits(x: char, t: string)
    requires x == 'x' || x == 'X'
    requires t == [] || !IsRadixDigit(t[0], 16)
    ensures ParseInt(['0', x] + t).None?
  {
    var u := ['0', x] + t;
    UnsignedOfSigned("", u);
    assert "" + u == u;
    assert u[2..] == t;
  }

  /** `s.split(sep)`: the pieces between occurrences of `sep`; always at least one piece. */
  function Split(s: string, sep: char): (r: seq<string>)
    ensures |r| >= 1
    ensures forall i :: 0 <= i < |r| ==> sep !in r[i]
    decreases |s|
  {
    if s == [] then [""]
    else
      var rest := Split(s[1..], sep);
      if s[0] == sep then [""] + rest else [[s[0]] + rest[0]] + rest[1..]
  }

  /** `pieces.join(sep)`. */
  function Join(pieces: seq<string>, sep: char): string
    requires |pieces| >= 1
  {
    if |pieces| == 1 then pieces[0] else pieces[0] + [sep] + Join(pieces[1..], sep)
  }

  /** Splitting loses nothing: joining the pieces with the separator gives the input back. */
  lemma {:induction false} JoinSplit(s: string, sep: char)
    ensures Join(Split(s, sep), sep) == s
    decreases |s|
  {
    if s != [] {
      var rest := Split(s[1..], sep);
      JoinSplit(s[1..], sep);
      if s[0] != sep {
        var r := Split(s, sep);
        assert r[1..] == rest[1..];
        if |rest| == 1 {
          assert Join(r, sep) == [s[0]] + rest[0];
        } else {
          assert Join(rest, sep) == rest[0] + [sep] + Join(rest[1..], sep);
          assert Join(r, sep) == [s[0]] + rest[0] + [sep] + Join(rest[1..], sep);
        }
      }
    }
  }
}
