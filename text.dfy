/** The parts of the Kotlin standard library whose exact behaviour the
    fields screen depends on: `Char.isWhitespace`, `String.trim`,
    `String.isBlank`, `String.contains`, `Char.isDigit`,
    `String.toIntOrNull` and `Int.toString`. Strings are sequences of
    Unicode scalar values. */
module KotlinText {

  datatype Option<+T> = None | Some(value: T) {
    /** Kotlin's elvis operator `x ?: default`. */
    function GetOr(default: T): T {
      match this
      case Some(v) => v
      case None => default
    }
  }

  const IntMin: int := -0x8000_0000
  const IntMax: int := 0x7FFF_FFFF

  /** `Char.isWhitespace` on the JVM: the Unicode space, line and paragraph
      separators, plus the ASCII controls TAB..CR and FS..US. */
  predicate IsWhitespace(c: char) {
    var n := c as int;
    || n == 0x20
    || 0x09 <= n <= 0x0D
    || 0x1C <= n <= 0x1F
    || n == 0xA0 || n == 0x1680
    || 0x2000 <= n <= 0x200A
    || n == 0x2028 || n == 0x2029 || n == 0x202F || n == 0x205F
    || n == 0x3000
  }

  /** `String.isBlank`: every character is whitespace (the empty string too). */
  predicate IsBlank(s: string) {
    forall i :: 0 <= i < |s| ==> IsWhitespace(s[i])
  }

  /** Leading whitespace removed. */
  function TrimStart(s: string): string {
    if |s| > 0 && IsWhitespace(s[0]) then TrimStart(s[1..]) else s
  }

  /** Trailing whitespace removed. */
  function TrimEnd(s: string): string {
    if |s| > 0 && IsWhitespace(s[|s| - 1]) then TrimEnd(s[..|s| - 1]) else s
  }

  /** `String.trim()`: whitespace removed from both ends. */
  function Trim(s: string): string {
    TrimEnd(TrimStart(s))
  }

  /** `TrimStart(s)` is the suffix of `s` that starts at its first
      non-whitespace character: what it drops is blank. */
  lemma {:induction false} TrimStartSpec(s: string)
    ensures var r := TrimStart(s);
      && |r| <= |s| && r == s[|s| - |r|..]
      && IsBlank(s[..|s| - |r|])
      && (r != [] ==> !IsWhitespace(r[0]))
  {
    if |s| > 0 && IsWhitespace(s[0]) {
      var tail := s[1..];
      TrimStartSpec(tail);
      var r := TrimStart(tail);
      assert r == s[|s| - |r|..] by { assert tail[|tail| - |r|..] == s[|s| - |r|..]; }
      assert s[..|s| - |r|] == [s[0]] + tail[..|tail| - |r|];
      BlankConcat([s[0]], tail[..|tail| - |r|]);
    } else {
      assert s[..0] == [];
    }
  }

  /** `TrimEnd(s)` is the prefix of `s` that ends at its last
      non-whitespace character: what it drops is blank. */
  lemma {:induction false} TrimEndSpec(s: string)
    ensures var r := TrimEnd(s);
      && |r| <= |s| && r == s[..|r|]
      && IsBlank(s[|r|..])
      && (r != [] ==> !IsWhitespace(r[|r| - 1]))
  {
    if |s| > 0 && IsWhitespace(s[|s| - 1]) {
      var init := s[..|s| - 1];
      TrimEndSpec(init);
      var r := TrimEnd(init);
      assert r == s[..|r|] by { assert init[..|r|] == s[..|r|]; }
      assert s[|r|..] == init[|r|..] + [s[|s| - 1]];
      BlankConcat(init[|r|..], [s[|s| - 1]]);
    } else {
      assert s[|s|..] == [];
    }
  }

  /** `Trim(s)` is the slice of `s` left between two blank margins, and
      neither end of it is whitespace; so it is empty exactly when `s` is
      blank. */
  lemma TrimSpec(s: string)
    ensures var r := Trim(s);
      var i := |s| - |TrimStart(s)|;
      && 0 <= i <= i + |r| <= |s| && r == s[i..i + |r|]
      && IsBlank(s[..i]) && IsBlank(s[i + |r|..])
      && (r != [] ==> !IsWhitespace(r[0]) && !IsWhitespace(r[|r| - 1]))
      && (r == [] <==> IsBlank(s))
  {
    TrimSlice(s);
    TrimEnds(s);
    TrimEmpty(s);
  }

  /** What `Trim` keeps is a slice of `s` between blank margins. */
  lemma TrimSlice(s: string)
    ensures var r := Trim(s);
      var i := |s| - |TrimStart(s)|;
      && 0 <= i <= i + |r| <= |s| && r == s[i..i + |r|]
      && IsBlank(s[..i]) && IsBlank(s[i + |r|..])
  {
    var t := TrimStart(s);
    var r := TrimEnd(t);
    TrimStartSpec(s);
    TrimEndSpec(t);
    var i := |s| - |t|;
    assert r == s[i..i + |r|] by { assert t[..|r|] == s[i..i + |r|]; }
    assert s[i + |r|..] == t[|r|..];
  }

  /** Neither end of a trimmed string is whitespace. */
  lemma TrimEnds(s: string)
    ensures var r := Trim(s);
      r != [] ==> !IsWhitespace(r[0]) && !IsWhitespace(r[|r| - 1])
  {
    var t := TrimStart(s);
    var r := TrimEnd(t);
    TrimStartSpec(s);
    TrimEndSpec(t);
    if r != [] {
      assert r[0] == t[0];
    }
  }

  /** `s.trim().isEmpty()` exactly when `s.isBlank()`. */
  lemma TrimEmpty(s: string)
    ensures Trim(s) == [] <==> IsBlank(s)
  {
    var t := TrimStart(s);
    var r := TrimEnd(t);
    TrimSlice(s);
    TrimEnds(s);
    var i := |s| - |t|;
    if r != [] {
      assert s[i] == r[0];
    } else {
      assert s == s[..i] + s[i..];
      BlankConcat(s[..i], s[i + |r|..]);
    }
  }

  /** Two blank strings make a blank string. */
  lemma BlankConcat(a: string, b: string)
    requires IsBlank(a) && IsBlank(b)
    ensures IsBlank(a + b)
  {
    forall k | 0 <= k < |a + b| ensures IsWhitespace((a + b)[k]) {
      if k < |a| { assert (a + b)[k] == a[k]; } else { assert (a + b)[k] == b[k - |a|]; }
    }
  }

  /** A string that neither starts nor ends with whitespace trims to itself. */
  lemma TrimUntouched(s: string)
    requires s != [] ==> !IsWhitespace(s[0]) && !IsWhitespace(s[|s| - 1])
    ensures Trim(s) == s
  {
    if s != [] {
      assert TrimStart(s) == s;
      assert TrimEnd(s) == s;
    }
  }

  /** Trimming is idempotent. */
  lemma TrimTrim(s: string)
    ensures Trim(Trim(s)) == Trim(s)
  {
    var r := Trim(s);
    TrimSpec(s);
    if r != [] {
      assert TrimStart(r) == r;
      assert TrimEnd(r) == r;
    }
  }

  /** `s.startsWith(t)`. */
  predicate StartsWith(s: string, t: string) {
    |t| <= |s| && s[..|t|] == t
  }

  /** `s.endsWith(t)`. */
  predicate EndsWith(s: string, t: string) {
    |t| <= |s| && s[|s| - |t|..] == t
  }

  /** A concatenation starts with its first part and ends with its second. */
  lemma ConcatEnds(a: string, b: string)
    ensures StartsWith(a + b, a) && EndsWith(a + b, b)
  {
    assert (a + b)[..|a|] == a;
    assert (a + b)[|a + b| - |b|..] == b;
  }

  /** A text built of three parts starts with the first and ends with the last. */
  lemma EnclosedEnds(a: string, b: string, c: string)
    ensures StartsWith(a + b + c, a) && EndsWith(a + b + c, c)
  {
    ConcatEnds(a, b + c);
    ConcatEnds(a + b, c);
    assert a + b + c == a + (b + c);
  }

  /** `s.contains(t)`, the case-sensitive substring test. */
  predicate Contains(s: string, t: string)
    decreases |s|
  {
    StartsWith(s, t) || (|s| > 0 && Contains(s[1..], t))
  }

  /** `t` occurs in `s` at position `i`. */
  predicate OccursAt(s: string, t: string, i: int) {
    0 <= i <= |s| - |t| && s[i..i + |t|] == t
  }

  /** `Contains` agrees with the definition by positions: `t` occurs in `s`
      exactly when some slice of `s` equals `t`. */
  lemma ContainsIffSlice(s: string, t: string)
    ensures Contains(s, t) <==> exists i :: OccursAt(s, t, i)
  {
    if Contains(s, t) {
      ContainsOccurs(s, t);
    }
    if exists i :: OccursAt(s, t, i) {
      var i :| OccursAt(s, t, i);
      OccursContains(s, t, i);
    }
  }

  lemma {:induction false} ContainsOccurs(s: string, t: string)
    requires Contains(s, t)
    ensures exists i :: OccursAt(s, t, i)
    decreases |s|
  {
    if StartsWith(s, t) {
      assert s[0..0 + |t|] == t;
      assert OccursAt(s, t, 0);
    } else {
      ContainsOccurs(s[1..], t);
      var i :| OccursAt(s[1..], t, i);
      assert s[i + 1..i + 1 + |t|] == s[1..][i..i + |t|];
      assert OccursAt(s, t, i + 1);
    }
  }

  lemma {:induction false} OccursContains(s: string, t: string, i: int)
    requires OccursAt(s, t, i)
    ensures Contains(s, t)
    decreases i
  {
    if i == 0 {
      assert s[..|t|] == s[0..0 + |t|];
      assert StartsWith(s, t);
    } else {
      assert s[1..][i - 1..i - 1 + |t|] == s[i..i + |t|];
      OccursContains(s[1..], t, i - 1);
    }
  }

  /** `Character.digit(c, 10)`: the value of a decimal digit, or None when
      `c` is not one. The decimal digits (Unicode category Nd) of the Basic
      Multilingual Plane, where a UTF-16 `Char` lives, come in blocks of ten
      consecutive code points; each line below is one block, from its zero. */
  function DigitValue(c: char): (r: Option<nat>)
    ensures r.Some? ==> r.value < 10
  {
    var n := c as int;
    if 0x0030 <= n <= 0x0039 then Some(n - 0x0030) else
    if 0x0660 <= n <= 0x0669 then Some(n - 0x0660) else
    if 0x06F0 <= n <= 0x06F9 then Some(n - 0x06F0) else
    if 0x07C0 <= n <= 0x07C9 then Some(n - 0x07C0) else
    if 0x0966 <= n <= 0x096F then Some(n - 0x0966) else
    if 0x09E6 <= n <= 0x09EF then Some(n - 0x09E6) else
    if 0x0A66 <= n <= 0x0A6F then Some(n - 0x0A66) else
    if 0x0AE6 <= n <= 0x0AEF then Some(n - 0x0AE6) else
    if 0x0B66 <= n <= 0x0B6F then Some(n - 0x0B66) else
    if 0x0BE6 <= n <= 0x0BEF then Some(n - 0x0BE6) else
    if 0x0C66 <= n <= 0x0C6F then Some(n - 0x0C66) else
    if 0x0CE6 <= n <= 0x0CEF then Some(n - 0x0CE6) else
    if 0x0D66 <= n <= 0x0D6F then Some(n - 0x0D66) else
    if 0x0DE6 <= n <= 0x0DEF then Some(n - 0x0DE6) else
    if 0x0E50 <= n <= 0x0E59 then Some(n - 0x0E50) else
    if 0x0ED0 <= n <= 0x0ED9 then Some(n - 0x0ED0) else
    if 0x0F20 <= n <= 0x0F29 then Some(n - 0x0F20) else
    if 0x1040 <= n <= 0x1049 then Some(n - 0x1040) else
    if 0x1090 <= n <= 0x1099 then Some(n - 0x1090) else
    if 0x17E0 <= n <= 0x17E9 then Some(n - 0x17E0) else
    if 0x1810 <= n <= 0x1819 then Some(n - 0x1810) else
    if 0x1946 <= n <= 0x194F then Some(n - 0x1946) else
    if 0x19D0 <= n <= 0x19D9 then Some(n - 0x19D0) else
    if 0x1A80 <= n <= 0x1A89 then Some(n - 0x1A80) else
    if 0x1A90 <= n <= 0x1A99 then Some(n - 0x1A90) else
    if 0x1B50 <= n <= 0x1B59 then Some(n - 0x1B50) else
    if 0x1BB0 <= n <= 0x1BB9 then Some(n - 0x1BB0) else
    if 0x1C40 <= n <= 0x1C49 then Some(n - 0x1C40) else
    if 0x1C50 <= n <= 0x1C59 then Some(n - 0x1C50) else
    if 0xA620 <= n <= 0xA629 then Some(n - 0xA620) else
    if 0xA8D0 <= n <= 0xA8D9 then Some(n - 0xA8D0) else
    if 0xA900 <= n <= 0xA909 then Some(n - 0xA900) else
    if 0xA9D0 <= n <= 0xA9D9 then Some(n - 0xA9D0) else
    if 0xA9F0 <= n <= 0xA9F9 then Some(n - 0xA9F0) else
    if 0xAA50 <= n <= 0xAA59 then Some(n - 0xAA50) else
    if 0xABF0 <= n <= 0xABF9 then Some(n - 0xABF0) else
    if 0xFF10 <= n <= 0xFF19 then Some(n - 0xFF10) else
    None
  }

  /** `Char.isDigit`. */
  predicate IsDigit(c: char) {
    DigitValue(c).Some?
  }

  /** The ASCII digit for `d`. */
  function AsciiDigit(d: nat): (c: char)
    requires d < 10
    ensures '0' <= c <= '9'
  {
    ('0' as int + d) as char
  }

  lemma AsciiDigitValue(d: nat)
    requires d < 10
    ensures DigitValue(AsciiDigit(d)) == Some(d)
  {
  }

  /** The value of a run of decimal digits, most significant first; None
      when some character is not a digit. The empty run reads as 0;
      `ToIntOrNull` rejects the empty text separately. */
  function DigitsValue(s: string): (r: Option<nat>)
  {
    if s == [] then Some(0)
    else match DigitsValue(s[..|s| - 1])
      case None => None
      case Some(high) =>
        match DigitValue(s[|s| - 1])
        case None => None
        case Some(d) => Some(high * 10 + d)
  }

  /** `String.toIntOrNull()`: an optional `+` or `-`, then one or more
      decimal digits, with a value that fits in a 32-bit `Int`. */
  function ToIntOrNull(s: string): (r: Option<int>)
    ensures r.Some? ==> IntMin <= r.value <= IntMax
    ensures r.Some? ==> s != [] && s != "+" && s != "-"
  {
    if s == [] then None
    else if s[0] == '-' || s[0] == '+' then
      if |s| == 1 then None
      else match DigitsValue(s[1..])
        case None => None
        case Some(m) =>
          var v: int := if s[0] == '-' then -(m as int) else m;
          if IntMin <= v <= IntMax then Some(v) else None
    else match DigitsValue(s)
      case None => None
      case Some(m) => if m <= IntMax then Some(m) else None
  }

  /** Decimal digits of a natural number, without leading zeros. */
  function NaturalString(n: nat): (r: string)
    ensures r != [] && '0' <= r[0] <= '9'
  {
    if n < 10 then [AsciiDigit(n)] else NaturalString(n / 10) + [AsciiDigit(n % 10)]
  }

  /** Reading the digits of `n` back gives `n`. */
  lemma {:induction false} NaturalStringValue(n: nat)
    ensures DigitsValue(NaturalString(n)) == Some(n)
  {
    var r := NaturalString(n);
    if n < 10 {
      var c := AsciiDigit(n);
      assert r == [c];
      assert r[..|r| - 1] == [];
      AsciiDigitValue(n);
      assert DigitValue(c) == Some(n);
    } else {
      var high := NaturalString(n / 10);
      var c := AsciiDigit(n % 10);
      assert r == high + [c];
      NaturalStringValue(n / 10);
      assert r[..|r| - 1] == high;
      assert r[|r| - 1] == c;
      AsciiDigitValue(n % 10);
      assert DigitValue(c) == Some(n % 10);
      assert (n / 10) * 10 + n % 10 == n;
    }
  }

  function Pow10(k: nat): (r: nat)
    ensures r >= 1
  {
    if k == 0 then 1 else 10 * Pow10(k - 1)
  }

  /** A string has a digit value exactly when every character is a digit. */
  lemma {:induction false} DigitsValueSome(s: string)
    ensures DigitsValue(s).Some? <==> forall i :: 0 <= i < |s| ==> IsDigit(s[i])
  {
    if s != [] {
      var init := s[..|s| - 1];
      DigitsValueSome(init);
      assert forall i :: 0 <= i < |init| ==> init[i] == s[i];
    }
  }

  /** A non-empty run of digits without a sign is read as its value when
      that fits in an `Int`, and as null otherwise. */
  lemma ToIntOrNullUnsigned(s: string)
    requires s != [] && forall i :: 0 <= i < |s| ==> IsDigit(s[i])
    ensures DigitsValue(s).Some?
    ensures ToIntOrNull(s) == (if DigitsValue(s).value <= IntMax then Some(DigitsValue(s).value as int) else None)
  {
    DigitsValueSome(s);
    assert IsDigit(s[0]);
  }

  /** A sign followed by a non-empty run of digits is read as the signed
      value when that fits in an `Int` (so "-2147483648" is accepted and
      "+2147483648" is not), and as null otherwise. */
  lemma ToIntOrNullSigned(sign: char, s: string)
    requires sign == '+' || sign == '-'
    requires s != [] && forall i :: 0 <= i < |s| ==> IsDigit(s[i])
    ensures DigitsValue(s).Some?
    ensures var v: int := if sign == '-' then -(DigitsValue(s).value as int) else DigitsValue(s).value;
      ToIntOrNull([sign] + s) == (if IntMin <= v <= IntMax then Some(v) else None)
  {
    DigitsValueSome(s);
    assert ([sign] + s)[1..] == s;
  }

  /** Any character that is not a digit, other than a leading sign, makes
      `toIntOrNull` return null. */
  lemma ToIntOrNullNonDigit(s: string, i: int)
    requires 0 <= i < |s| && !IsDigit(s[i])
    requires i == 0 ==> s[0] != '+' && s[0] != '-'
    ensures ToIntOrNull(s) == None
  {
    if s[0] == '-' || s[0] == '+' {
      assert s[1..][i - 1] == s[i];
      DigitsValueSome(s[1..]);
    } else {
      DigitsValueSome(s);
    }
  }

  /** A run of `k` digits reads as a number below 10^k. */
  lemma {:induction false} DigitsValueBound(s: string)
    requires forall i :: 0 <= i < |s| ==> IsDigit(s[i])
    ensures DigitsValue(s).Some? && DigitsValue(s).value < Pow10(|s|)
  {
    if s != [] {
      var init := s[..|s| - 1];
      DigitsValueBound(init);
      var d := DigitValue(s[|s| - 1]).value;
      var high := DigitsValue(init).value;
      var p := Pow10(|init|);
      assert Pow10(|s|) == 10 * p;
      assert DigitsValue(s) == Some(high * 10 + d);
      assert high * 10 + d < 10 * p;
    }
  }

  /** A run of at most two digits is read by `toIntOrNull` as its value,
      below 100; the empty run reads as null. */
  lemma ShortDigitsToInt(s: string)
    requires |s| <= 2 && forall i :: 0 <= i < |s| ==> IsDigit(s[i])
    ensures DigitsValue(s).Some? && DigitsValue(s).value < 100
    ensures ToIntOrNull(s) == (if s == [] then None else DigitsValue(s))
  {
    DigitsValueBound(s);
    assert Pow10(|s|) <= 100 by {
      assert Pow10(0) == 1 && Pow10(1) == 10 && Pow10(2) == 100;
    }
    if s != [] {
      assert s[0] != '-' && s[0] != '+' by { assert IsDigit(s[0]); }
    }
  }

  /** `Int.toString()`. */
  function IntString(n: int): (r: string)
    ensures IntMin <= n <= IntMax ==> ToIntOrNull(r) == Some(n)
  {
    if n < 0 then
      var r := "-" + NaturalString(-n);
      assert r[1..] == NaturalString(-n);
      NaturalStringValue(-n);
      r
    else
      NaturalStringValue(n);
      NaturalString(n)
  }

  /** `filter { it.isDigit() }`: the digits of `s`, in order. */
  function DigitsOf(s: string): (r: string)
    ensures |r| <= |s|
    ensures forall i :: 0 <= i < |r| ==> IsDigit(r[i])
  {
    if s == [] then []
    else if IsDigit(s[0]) then [s[0]] + DigitsOf(s[1..])
    else DigitsOf(s[1..])
  }

  /** The digit filter keeps a single character exactly when it is a digit,
      and filtering a concatenation concatenates the filtered parts; these
      two facts determine the filter on every string. */
  lemma {:induction false} DigitsOfAppend(a: string, b: string)
    ensures DigitsOf(a + b) == DigitsOf(a) + DigitsOf(b)
  {
    if a == [] {
      assert a + b == b;
    } else {
      assert (a + b)[1..] == a[1..] + b;
      DigitsOfAppend(a[1..], b);
    }
  }

  lemma DigitsOfChar(c: char)
    ensures DigitsOf([c]) == if IsDigit(c) then [c] else []
  {
    assert [c][1..] == [];
  }

  /** A string of digits is its own digit filter. */
  lemma {:induction false} DigitsOfDigits(s: string)
    requires forall i :: 0 <= i < |s| ==> IsDigit(s[i])
    ensures DigitsOf(s) == s
  {
    if s != [] {
      DigitsOfDigits(s[1..]);
    }
  }

  /** No decimal digit of any script is whitespace. */
  lemma DigitIsNotWhitespace(c: char)
    requires IsDigit(c)
    ensures !IsWhitespace(c)
  {
  }

  /** Trimming a run of digits changes nothing. */
  lemma TrimDigits(s: string)
    requires forall i :: 0 <= i < |s| ==> IsDigit(s[i])
    ensures Trim(s) == s
  {
    if s != [] {
      DigitIsNotWhitespace(s[0]);
      DigitIsNotWhitespace(s[|s| - 1]);
    }
    TrimUntouched(s);
  }
}
