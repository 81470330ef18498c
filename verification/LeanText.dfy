// Character classes, trimming, splitting and decimal text used by scripts/lean_format.py.

module LeanText {

  /** Python's `str.strip` / regex `\s` class. */
  predicate IsSpace(c: char) {
    || '\t' <= c <= '\r'
    || '\U{001C}' <= c <= ' '
    || c == '\U{0085}' || c == '\U{00A0}' || c == '\U{1680}'
    || '\U{2000}' <= c <= '\U{200A}'
    || c == '\U{2028}' || c == '\U{2029}' || c == '\U{202F}' || c == '\U{205F}' || c == '\U{3000}'
  }

  predicate IsDigit(c: char) {
    '0' <= c <= '9'
  }

  /** The regex class `\w`, restricted to ASCII. */
  predicate IsWord(c: char) {
    IsDigit(c) || 'a' <= c <= 'z' || 'A' <= c <= 'Z' || c == '_'
  }

  predicate IsKeyChar(c: char) {
    IsWord(c) || c == '-'
  }

  /** `^[\w][\w-]*$` on a newline-free string. */
  predicate IsKey(s: string) {
    s != "" && IsWord(s[0]) && forall i | 0 <= i < |s| :: IsKeyChar(s[i])
  }

  predicate AllSpace(s: string) {
    forall i | 0 <= i < |s| :: IsSpace(s[i])
  }

  predicate AllDigits(s: string) {
    forall i | 0 <= i < |s| :: IsDigit(s[i])
  }

  /** Non-empty text without white space at either end. */
  predicate Solid(s: string) {
    s != "" && !IsSpace(s[0]) && !IsSpace(s[|s| - 1])
  }

  // --- Trimming ---------------------------------------------------------------

  /** Length of the leading white space. */
  function Indent(s: string): (n: nat)
    ensures n <= |s|
    ensures forall i | 0 <= i < n :: IsSpace(s[i])
    ensures n < |s| ==> !IsSpace(s[n])
  {
    if s == "" || !IsSpace(s[0]) then 0
    else
      var n := Indent(s[1..]);
      assert n < |s| - 1 ==> s[1..][n] == s[n + 1];
      1 + n
  }

  function TrimRight(s: string): (r: string)
    ensures r <= s
    ensures r != "" ==> !IsSpace(r[|r| - 1])
    ensures AllSpace(s[|r|..])
  {
    if s == "" || !IsSpace(s[|s| - 1]) then s
    else
      var r := TrimRight(s[..|s| - 1]);
      assert s[|r|..] == s[..|s| - 1][|r|..] + [s[|s| - 1]];
      r
  }

  function Trim(s: string): string {
    TrimRight(s[Indent(s)..])
  }

  lemma TrimSolid(s: string)
    requires s == "" || Solid(s)
    ensures Indent(s) == 0 && TrimRight(s) == s && Trim(s) == s
  {
    assert s[0..] == s;
  }

  lemma TrimEqual(s: string)
    requires Trim(s) == s && s != ""
    ensures Solid(s)
  {
    var t := s[Indent(s)..];
    assert |Trim(s)| <= |t| == |s| - Indent(s);
  }

  lemma TrimRightBlank(s: string)
    ensures TrimRight(s) == "" <==> AllSpace(s)
  {
    if TrimRight(s) == "" {
      assert s[0..] == s;
    }
    var r := TrimRight(s);
    assert forall i | 0 <= i < |r| :: r[i] == s[i];
  }

  lemma {:induction false} IndentSnoc(s: string, c: char)
    requires IsSpace(c)
    ensures Indent(s + [c]) == if AllSpace(s) then |s| + 1 else Indent(s)
    ensures AllSpace(s) <==> Indent(s) == |s|
  {
    if s == "" {
      assert "" + [c] == [c] && [c][1..] == "";
    } else {
      IndentSnoc(s[1..], c);
      assert (s + [c])[1..] == s[1..] + [c];
      assert AllSpace(s) <==> IsSpace(s[0]) && AllSpace(s[1..]) by {
        assert forall i | 1 <= i < |s| :: s[i] == s[1..][i - 1];
      }
    }
  }

  lemma TrimFront(c: char, s: string)
    requires IsSpace(c)
    ensures Trim([c] + s) == Trim(s)
  {
    assert ([c] + s)[1..] == s;
    assert ([c] + s)[1 + Indent(s)..] == s[Indent(s)..];
  }

  lemma TrimBack(s: string, c: char)
    requires IsSpace(c)
    ensures Trim(s + [c]) == Trim(s)
  {
    IndentSnoc(s, c);
    var n := Indent(s);
    if n == |s| {
      assert (s + [c])[|s| + 1..] == "" && s[n..] == "";
    } else {
      var t := s[n..];
      assert (s + [c])[n..] == t + [c] && (t + [c])[..|t|] == t;
    }
  }

  lemma {:induction false} TrimFronts(before: string, s: string)
    requires AllSpace(before)
    ensures Trim(before + s) == Trim(s)
  {
    hide Trim, IsSpace;
    if before == "" {
      assert before + s == s;
    } else {
      var rest := before[1..];
      assert before + s == [before[0]] + (rest + s);
      TrimFronts(rest, s);
      TrimFront(before[0], rest + s);
    }
  }

  lemma {:induction false} TrimBacks(s: string, after: string)
    requires AllSpace(after)
    ensures Trim(s + after) == Trim(s)
  {
    hide Trim, IsSpace;
    if after == "" {
      assert s + after == s;
    } else {
      var n := |after| - 1;
      assert s + after == s + after[..n] + [after[n]];
      TrimBacks(s, after[..n]);
      TrimBack(s + after[..n], after[n]);
    }
  }

  /** Blanks around a text do not change what is left of it. */
  lemma TrimPadded(before: string, s: string, after: string)
    requires AllSpace(before) && AllSpace(after)
    ensures Trim(before + s + after) == Trim(s)
  {
    TrimBacks(before + s, after);
    TrimFronts(before, s);
  }

  // --- Splitting and joining --------------------------------------------------

  function SplitOn(s: string, c: char): (parts: seq<string>)
    ensures parts != []
  {
    if s == "" then [""]
    else if s[0] == c then [""] + SplitOn(s[1..], c)
    else
      var rest := SplitOn(s[1..], c);
      [[s[0]] + rest[0]] + rest[1..]
  }

  function JoinWith(parts: seq<string>, c: char): string
    requires parts != []
  {
    if |parts| == 1 then parts[0] else parts[0] + [c] + JoinWith(parts[1..], c)
  }

  lemma {:induction false} SplitPart(p: string, c: char, rest: string)
    requires c !in p
    ensures SplitOn(p, c) == [p]
    ensures SplitOn(p + [c] + rest, c) == [p] + SplitOn(rest, c)
  {
    if p == "" {
      assert p + [c] + rest == [c] + rest;
      assert ([c] + rest)[1..] == rest;
    } else {
      SplitPart(p[1..], c, rest);
      assert (p + [c] + rest)[1..] == p[1..] + [c] + rest;
      assert [p[0]] + p[1..] == p;
    }
  }

  lemma {:induction false} SplitJoin(parts: seq<string>, c: char)
    requires parts != []
    requires forall i | 0 <= i < |parts| :: c !in parts[i]
    ensures SplitOn(JoinWith(parts, c), c) == parts
  {
    if |parts| == 1 {
      SplitPart(parts[0], c, "");
    } else {
      SplitJoin(parts[1..], c);
      SplitPart(parts[0], c, JoinWith(parts[1..], c));
      assert [parts[0]] + parts[1..] == parts;
    }
  }

  lemma {:induction false} JoinSnoc(parts: seq<string>, p: string, c: char)
    requires parts != []
    ensures JoinWith(parts + [p], c) == JoinWith(parts, c) + [c] + p
  {
    if |parts| == 1 {
      assert (parts + [p])[1..] == [p];
    } else {
      JoinSnoc(parts[1..], p, c);
      assert (parts + [p])[1..] == parts[1..] + [p];
    }
  }

  // --- Decimal text -----------------------------------------------------------

  function DigitChar(d: nat): (c: char)
    requires d < 10
    ensures IsDigit(c)
  {
    '0' + d as char
  }

  function DigitValue(c: char): nat {
    if IsDigit(c) then (c - '0') as nat else 0
  }

  function NatText(n: nat): (s: string)
    ensures s != "" && AllDigits(s)
    ensures n > 0 ==> s[0] != '0'
    ensures n == 0 ==> s == "0"
  {
    if n < 10 then [DigitChar(n)] else NatText(n / 10) + [DigitChar(n % 10)]
  }

  function ParseNat(s: string): nat {
    if s == "" then 0 else 10 * ParseNat(s[..|s| - 1]) + DigitValue(s[|s| - 1])
  }

  lemma {:induction false} ParseNatText(n: nat)
    ensures ParseNat(NatText(n)) == n
  {
    if n >= 10 {
      ParseNatText(n / 10);
      var s := NatText(n);
      assert s[..|s| - 1] == NatText(n / 10);
    } else {
      assert NatText(n)[..0] == "";
    }
  }

  function IntText(n: int): (s: string) {
    if n < 0 then "-" + NatText(-n) else NatText(n)
  }

  function ParseInt(s: string): int {
    if s != "" && s[0] == '-' then -(ParseNat(s[1..]) as int) else ParseNat(s)
  }

  lemma ParseIntText(n: int)
    ensures ParseInt(IntText(n)) == n
  {
    if n < 0 {
      ParseNatText(-n);
      assert IntText(n)[1..] == NatText(-n);
    } else {
      ParseNatText(n);
      assert IsDigit(NatText(n)[0]);
    }
  }

  /** Length of the leading run of digits. */
  function DigitSpan(s: string): (n: nat)
    ensures n <= |s| && AllDigits(s[..n])
    ensures n < |s| ==> !IsDigit(s[n])
  {
    if s == "" || !IsDigit(s[0]) then 0
    else
      var n := DigitSpan(s[1..]);
      assert s[..n + 1] == [s[0]] + s[1..][..n];
      1 + n
  }

  lemma {:induction false} DigitSpanOf(d: string, rest: string)
    requires AllDigits(d) && (rest == "" || !IsDigit(rest[0]))
    ensures DigitSpan(d + rest) == |d|
  {
    if d == "" {
      assert d + rest == rest;
    } else {
      DigitSpanOf(d[1..], rest);
      assert (d + rest)[1..] == d[1..] + rest;
    }
  }

  predicate IsExponent(s: string) {
    s == "" ||
    (&& s[0] in {'e', 'E'}
     && var t := if |s| > 1 && s[1] in {'+', '-'} then s[2..] else s[1..];
        t != "" && AllDigits(t))
  }

  predicate IsUnsignedNumber(s: string) {
    var d := DigitSpan(s);
    var u := s[d..];
    if d > 0 && (u == "" || u[0] != '.') then IsExponent(u)
    else
      && u != "" && u[0] == '.'
      && var v := u[1..];
         (d > 0 || DigitSpan(v) > 0) && IsExponent(v[DigitSpan(v)..])
  }

  /** `^-?(\d+\.?\d*|\.\d+)([eE][+-]?\d+)?$` */
  predicate IsNumberText(s: string) {
    IsUnsignedNumber(if s != "" && s[0] == '-' then s[1..] else s)
  }

  predicate IsNumberChar(c: char) {
    IsDigit(c) || c in {'-', '+', '.', 'e', 'E'}
  }

  /** The text of a number that is read with `float()`. */
  predicate HasFloatMark(s: string) {
    '.' in s || 'e' in s || 'E' in s
  }

  // --- The range of floats ----------------------------------------------------

  function Pow(base: nat, n: nat): nat {
    if n == 0 then 1 else base * Pow(base, n - 1)
  }

  /** Magnitudes from here on are rounded to infinity: halfway between the largest double and 2^1024. */
  const FLOAT_OVERFLOW: int :=
    0xFFFFFFFFFFFFFC00000000000000000000000000000000000000000000000000000000000000000000000000000000000000000000000000000000000000000000000000000000000000000000000000000000000000000000000000000000000000000000000000000000000000000000000000000000000000000000000000

  lemma {:induction false} PowSum(base: nat, m: nat, n: nat)
    ensures Pow(base, m + n) == Pow(base, m) * Pow(base, n)
  {
    if m == 0 {
      assert Pow(base, 0) == 1;
    } else {
      PowSum(base, m - 1, n);
      assert base * (Pow(base, m - 1) * Pow(base, n)) == base * Pow(base, m - 1) * Pow(base, n);
    }
  }

  lemma PowTimes(m: nat, n: nat, x: nat, y: nat)
    requires Pow(2, m) == x && Pow(2, n) == y
    ensures Pow(2, m + n) == x * y
  {
    hide Pow;
    PowSum(2, m, n);
  }

  lemma PowTen()
    ensures Pow(2, 10) == 0x400
  {
    assert Pow(2, 5) == 32;
    PowTimes(5, 5, 32, 32);
  }

  /** The bound is 2^1024 - 2^970. */
  lemma OverflowBound()
    ensures FLOAT_OVERFLOW == Pow(2, 1024) - Pow(2, 970)
  {
    hide Pow;
    PowTen();
    var a: nat := 0x400;
    PowTimes(10, 10, a, a);
    var b: nat := a * a;
    PowTimes(20, 20, b, b);
    var c: nat := b * b;
    PowTimes(40, 40, c, c);
    var d: nat := c * c;
    PowTimes(80, 80, d, d);
    var e: nat := d * d;
    PowTimes(160, 160, e, e);
    var f: nat := e * e;
    PowTimes(320, 320, f, f);
    PowTimes(640, 320, f * f, f);
    var g: nat := f * f * f * a;
    PowTimes(960, 10, f * f * f, a);
    PowTimes(970, 40, g, c);
    PowTimes(1010, 10, g * c, a);
    PowFour();
    PowTimes(1020, 4, g * c * a, 0x10);
  }

  lemma PowFour()
    ensures Pow(2, 4) == 0x10
  {
  }

  /** The exponent a suffix stands for. */
  function ExponentOf(s: string): int {
    if s == "" then 0
    else if |s| > 1 && s[1] == '-' then 0 - ParseNat(s[2..]) as int
    else if |s| > 1 && s[1] == '+' then ParseNat(s[2..])
    else ParseNat(s[1..])
  }

  /** The digits of an unsigned number text, and the power of ten they are scaled by. */
  function Decimal(s: string): (nat, int) {
    var d := DigitSpan(s);
    var u := s[d..];
    if u != "" && u[0] == '.' then
      var v := u[1..];
      var f := DigitSpan(v);
      (ParseNat(s[..d] + v[..f]), ExponentOf(v[f..]) - f)
    else (ParseNat(s[..d]), ExponentOf(u))
  }

  /** The number is too large for a float. */
  predicate Overflows(s: string) {
    var (digits, scale) := Decimal(if s != "" && s[0] == '-' then s[1..] else s);
    if scale >= 0 then digits * Pow(10, scale) >= FLOAT_OVERFLOW else digits >= FLOAT_OVERFLOW * Pow(10, -scale)
  }

  predicate IsFloatText(s: string) {
    IsNumberText(s) && HasFloatMark(s) && !Overflows(s)
  }

  /** A finite float, named by the text it prints as. */
  type FloatText = s: string | IsFloatText(s) witness (ZeroIsFinite(); "0.0")

  lemma ZeroIsFinite()
    ensures IsFloatText("0.0")
  {
    var s := "0.0";
    var u := s[1..];
    var v := u[1..];
    assert DigitSpan(s) == 1 && s[..1] == "0" && u == ".0" && v == "0";
    assert DigitSpan(v) == 1 && v[..1] == "0" && v[1..] == "";
    assert s[..1] + v[..1] == "00" && "00"[..1] == "0" && "0"[..0] == "";
    assert ParseNat("") == 0 && ParseNat("0") == 0 && ParseNat("00") == 0;
    assert ExponentOf(v[1..]) == 0;
    assert Decimal(s) == (0, 0 - 1);
  }

  predicate NumberCharsOnly(s: string) {
    forall i | 0 <= i < |s| :: IsNumberChar(s[i])
  }

  lemma NumberCharsSplit(s: string, k: nat)
    requires k <= |s|
    requires NumberCharsOnly(s[..k]) && NumberCharsOnly(s[k..])
    ensures NumberCharsOnly(s)
  {
    forall i | 0 <= i < |s| ensures IsNumberChar(s[i]) {
      if i < k {
        assert s[..k][i] == s[i];
      } else {
        assert s[k..][i - k] == s[i];
      }
    }
  }

  lemma ExponentChars(s: string)
    requires IsExponent(s)
    ensures NumberCharsOnly(s)
  {
    if s != "" {
      var k := if |s| > 1 && s[1] in {'+', '-'} then 2 else 1;
      assert AllDigits(s[k..]);
      assert NumberCharsOnly(s[..k]);
      NumberCharsSplit(s, k);
    }
  }

  lemma FractionChars(u: string)
    requires u != "" && u[0] == '.' && IsExponent(u[1..][DigitSpan(u[1..])..])
    ensures NumberCharsOnly(u)
  {
    var v := u[1..];
    ExponentChars(v[DigitSpan(v)..]);
    NumberCharsSplit(v, DigitSpan(v));
    NumberCharsSplit(u, 1);
  }

  lemma UnsignedNumberChars(s: string)
    requires IsUnsignedNumber(s)
    ensures s != "" && NumberCharsOnly(s)
  {
    var d := DigitSpan(s);
    var u := s[d..];
    if d > 0 && (u == "" || u[0] != '.') {
      ExponentChars(u);
    } else {
      FractionChars(u);
    }
    NumberCharsSplit(s, d);
  }

  lemma NumberChars(s: string)
    requires IsNumberText(s)
    ensures s != "" && NumberCharsOnly(s)
  {
    if s != "" && s[0] == '-' {
      UnsignedNumberChars(s[1..]);
      NumberCharsSplit(s, 1);
    } else {
      UnsignedNumberChars(s);
    }
  }

  lemma IntTextIsNumber(n: int)
    ensures IsNumberText(IntText(n)) && !HasFloatMark(IntText(n))
  {
    var s := NatText(if n < 0 then -n else n);
    DigitSpanOf(s, "");
    assert s + "" == s;
    assert s[|s|..] == "";
    assert IsUnsignedNumber(s);
    assert forall c | c in s :: IsDigit(c);
    assert n < 0 ==> IntText(n)[1..] == s;
  }
}
