/**
 * The string primitives the server and the dashboard lean on: JavaScript's
 * `trim`, Python's `strip`, `split`/`join` on one separator character, ASCII case
 * mapping, `includes`, decimal rendering with `padStart`, and JavaScript's
 * `parseInt`.
 */
module Strings {
  import opened Wrappers

  /** The characters JavaScript's `String.prototype.trim` removes (WhiteSpace and LineTerminator). */
  predicate IsJsWhitespace(c: char)
  {
    ('\t' <= c <= '\r') || c == ' ' || c == '\U{A0}' || c == '\U{1680}'
    || ('\U{2000}' <= c <= '\U{200A}') || c == '\U{2028}' || c == '\U{2029}'
    || c == '\U{202F}' || c == '\U{205F}' || c == '\U{3000}' || c == '\U{FEFF}'
  }

  /** The characters Python's `str.strip()` removes by default (`str.isspace`). */
  predicate IsPyWhitespace(c: char)
  {
    ('\t' <= c <= '\r') || ('\U{1C}' <= c <= '\U{1F}') || c == ' ' || c == '\U{85}'
    || c == '\U{A0}' || c == '\U{1680}' || ('\U{2000}' <= c <= '\U{200A}')
    || c == '\U{2028}' || c == '\U{2029}' || c == '\U{202F}' || c == '\U{205F}' || c == '\U{3000}'
  }

  /** `s` with its leading `ws` characters removed. */
  function TrimStart(s: string, ws: char -> bool): (r: string)
    ensures |r| <= |s| && r == s[|s| - |r|..]
    ensures r == [] || !ws(r[0])
    ensures forall k :: 0 <= k < |s| - |r| ==> ws(s[k])
  {
    if s == [] || !ws(s[0]) then s else TrimStart(s[1..], ws)
  }

  /** `s` with its trailing `ws` characters removed. */
  function TrimEnd(s: string, ws: char -> bool): (r: string)
    ensures |r| <= |s| && r == s[..|r|]
    ensures r == [] || !ws(r[|r| - 1])
    ensures forall k :: |r| <= k < |s| ==> ws(s[k])
  {
    if s == [] || !ws(s[|s| - 1]) then s else TrimEnd(s[..|s| - 1], ws)
  }

  /** How many whitespace characters `s` starts with. */
  function LeadingWs(s: string, ws: char -> bool): nat
  {
    |s| - |TrimStart(s, ws)|
  }

  /** Every character before `i` and from `j` on is whitespace. */
  predicate TrimmedAround(s: string, i: nat, j: nat, ws: char -> bool)
    requires i <= j <= |s|
  {
    (forall k :: 0 <= k < i ==> ws(s[k])) && (forall k :: j <= k < |s| ==> ws(s[k]))
  }

  /** Both ends trimmed: `s.trim()` with `IsJsWhitespace`, `s.strip()` with `IsPyWhitespace`. */
  function Trim(s: string, ws: char -> bool): (r: string)
    ensures |r| <= |s|
    ensures r == [] || (!ws(r[0]) && !ws(r[|r| - 1]))
  {
    TrimEnd(TrimStart(s, ws), ws)
  }

  /**
   * What `Trim` keeps is the part of `s` right after its leading whitespace, and only
   * whitespace follows it: nothing but the two whitespace runs at the ends is removed.
   */
  lemma TrimIsInfix(s: string, ws: char -> bool)
    ensures LeadingWs(s, ws) + |Trim(s, ws)| <= |s|
    ensures Trim(s, ws) == s[LeadingWs(s, ws)..LeadingWs(s, ws) + |Trim(s, ws)|]
    ensures TrimmedAround(s, LeadingWs(s, ws), LeadingWs(s, ws) + |Trim(s, ws)|, ws)
  {
    var t := TrimStart(s, ws);
    var i := LeadingWs(s, ws);
    assert t == s[i..];
    var r := TrimEnd(t, ws);
    TrailingOfSuffix(s, i, |r|, ws);
  }

  /** Whitespace trailing a suffix of `s` is whitespace trailing `s`. */
  lemma TrailingOfSuffix(s: string, i: nat, n: nat, ws: char -> bool)
    requires i <= |s| && n <= |s| - i
    requires forall k :: n <= k < |s| - i ==> ws(s[i..][k])
    ensures s[i..][..n] == s[i..i + n]
    ensures forall k :: i + n <= k < |s| ==> ws(s[k])
  {
    forall k | i + n <= k < |s|
      ensures ws(s[k])
    {
      assert s[k] == s[i..][k - i];
    }
  }

  /** A string trims to nothing exactly when every one of its characters is whitespace. */
  lemma TrimEmptyIff(s: string, ws: char -> bool)
    ensures Trim(s, ws) == [] <==> forall k :: 0 <= k < |s| ==> ws(s[k])
  {
  }

  /** Trimming twice trims nothing more. */
  lemma TrimIdempotent(s: string, ws: char -> bool)
    ensures Trim(Trim(s, ws), ws) == Trim(s, ws)
  {
    var t := Trim(s, ws);
    assert TrimStart(t, ws) == t;
    assert TrimEnd(t, ws) == t;
  }

  /** JavaScript `s.trim() === ''` (equivalently `!s.trim()`). */
  predicate IsJsBlank(s: string)
  {
    Trim(s, IsJsWhitespace) == []
  }

  /** `s.split(sep)` for a one-character separator: always at least one piece. */
  function Split(s: string, sep: char): (r: seq<string>)
    ensures |r| >= 1
    ensures forall k :: 0 <= k < |r| ==> sep !in r[k]
  {
    if s == [] then [[]]
    else if s[0] == sep then [[]] + Split(s[1..], sep)
    else
      var rest := Split(s[1..], sep);
      [[s[0]] + rest[0]] + rest[1..]
  }

  /** `parts.join(sep)`. */
  function Join(parts: seq<string>, sep: string): (r: string)
    ensures |parts| == 1 ==> r == parts[0]
  {
    if parts == [] then []
    else if |parts| == 1 then parts[0]
    else parts[0] + sep + Join(parts[1..], sep)
  }

  /** Splitting and joining back with the same separator returns the original string. */
  lemma {:induction false} SplitJoin(s: string, sep: char)
    ensures Join(Split(s, sep), [sep]) == s
  {
    if s == [] {
    } else if s[0] == sep {
      SplitJoin(s[1..], sep);
      assert Split(s, sep) == [[]] + Split(s[1..], sep);
      assert Join(Split(s, sep), [sep]) == [] + [sep] + Join(Split(s[1..], sep), [sep]);
    } else {
      SplitJoin(s[1..], sep);
      var rest := Split(s[1..], sep);
      if |rest| == 1 {
        assert Join(Split(s, sep), [sep]) == [s[0]] + rest[0];
      } else {
        assert Split(s, sep)[1..] == rest[1..];
        assert Join(rest, [sep]) == rest[0] + [sep] + Join(rest[1..], [sep]);
        assert Join(Split(s, sep), [sep]) == ([s[0]] + rest[0]) + [sep] + Join(rest[1..], [sep]);
      }
    }
  }

  /** A string without the separator splits into itself alone. */
  lemma {:induction false} SplitNoSeparator(s: string, sep: char)
    requires sep !in s
    ensures Split(s, sep) == [s]
  {
    if s != [] {
      assert s[0] != sep;
      SplitNoSeparator(s[1..], sep);
      assert [s[0]] + s[1..] == s;
    }
  }

  /** `c.toLowerCase()` on the ASCII letters; other characters are left alone. */
  function LowerChar(c: char): (r: char)
    ensures 'A' <= c <= 'Z' ==> 'a' <= r <= 'z'
    ensures !('A' <= c <= 'Z') ==> r == c
  {
    if 'A' <= c <= 'Z' then (c as int + 32) as char else c
  }

  /** `c.toUpperCase()` on the ASCII letters; other characters are left alone. */
  function UpperChar(c: char): (r: char)
    ensures 'a' <= c <= 'z' ==> 'A' <= r <= 'Z'
    ensures !('a' <= c <= 'z') ==> r == c
  {
    if 'a' <= c <= 'z' then (c as int - 32) as char else c
  }

  /** `s.toLowerCase()`: character by character, length preserved. */
  function ToLower(s: string): (r: string)
    ensures |r| == |s|
    ensures forall k :: 0 <= k < |s| ==> r[k] == LowerChar(s[k])
  {
    if s == [] then [] else [LowerChar(s[0])] + ToLower(s[1..])
  }

  /** `s.toUpperCase()`: character by character, length preserved. */
  function ToUpper(s: string): (r: string)
    ensures |r| == |s|
    ensures forall k :: 0 <= k < |s| ==> r[k] == UpperChar(s[k])
  {
    if s == [] then [] else [UpperChar(s[0])] + ToUpper(s[1..])
  }

  /** A string with no lower-case ASCII letter. */
  predicate IsUpperCased(s: string)
  {
    forall k :: 0 <= k < |s| ==> !('a' <= s[k] <= 'z')
  }

  /** Upper-casing leaves no lower-case letter, and upper-casing again changes nothing. */
  lemma ToUpperUpperCased(s: string)
    ensures IsUpperCased(ToUpper(s))
    ensures ToUpper(ToUpper(s)) == ToUpper(s)
  {
  }

  /** Lower-casing twice is lower-casing once. */
  lemma ToLowerIdempotent(s: string)
    ensures ToLower(ToLower(s)) == ToLower(s)
  {
  }

  /** `t` occurs in `s` starting at index `i`. */
  predicate OccursAt(s: string, t: string, i: nat)
  {
    i + |t| <= |s| && s[i..i + |t|] == t
  }

  /** `s.includes(t)`. */
  function Contains(s: string, t: string): (b: bool)
    ensures b <==> exists i :: 0 <= i <= |s| && OccursAt(s, t, i)
  {
    if |t| > |s| then false
    else if s[..|t|] == t then (assert OccursAt(s, t, 0); true)
    else
      var b := Contains(s[1..], t);
      assert forall i :: 0 < i <= |s| && OccursAt(s, t, i) ==> OccursAt(s[1..], t, i - 1);
      assert forall i :: 0 <= i <= |s[1..]| && OccursAt(s[1..], t, i) ==> OccursAt(s, t, i + 1);
      b
  }

  /** Every string includes the empty string. */
  lemma ContainsEmpty(s: string)
    ensures Contains(s, [])
  {
    assert OccursAt(s, [], 0);
  }

  /** `s.startsWith(t)` implies `s.includes(t)`. */
  lemma ContainsPrefix(s: string, t: string)
    requires |t| <= |s| && s[..|t|] == t
    ensures Contains(s, t)
  {
    assert OccursAt(s, t, 0);
  }

  // ----- Decimal rendering -----

  function DigitChar(d: nat): (c: char)
    requires d < 10
    ensures '0' <= c <= '9'
  {
    ('0' as int + d) as char
  }

  /** `String(n)` for a natural number: decimal digits without leading zeros. */
  function NatToString(n: nat): (s: string)
    ensures |s| >= 1
    ensures forall k :: 0 <= k < |s| ==> '0' <= s[k] <= '9'
    ensures |s| > 1 ==> s[0] != '0'
  {
    (if n < 10 then [] else NatToString(n / 10)) + [DigitChar(n % 10)]
  }

  /** `String(n)` for any integer. */
  function IntToString(n: int): (s: string)
    ensures n < 0 <==> (s != [] && s[0] == '-')
  {
    if n < 0 then "-" + NatToString(-n) else NatToString(n)
  }

  /** `s.padStart(width, c)` for a one-character pad. */
  function PadStart(s: string, width: nat, c: char): (r: string)
    ensures |r| == if |s| >= width then |s| else width
    ensures r[|r| - |s|..] == s
    ensures forall k :: 0 <= k < |r| - |s| ==> r[k] == c
  {
    if |s| >= width then s else seq(width - |s|, _ => c) + s
  }

  /** JavaScript's `parseFloat` is not modelled; it is a parameter, and `None` stands for `NaN`. */
  type FloatParser = string -> Option<real>

  // ----- parseInt -----

  /** The radix `parseInt(s)` and `parseInt(s, 10)` end up using. */
  datatype Radix = Decimal | AutoDetect

  function DigitValue(c: char, base: nat): (v: Option<nat>)
    ensures v.Some? ==> v.value < base
  {
    if '0' <= c <= '9' && (c as int - '0' as int) < base then Some(c as int - '0' as int)
    else if 'a' <= c <= 'f' && base == 16 then Some(c as int - 'a' as int + 10)
    else if 'A' <= c <= 'F' && base == 16 then Some(c as int - 'A' as int + 10)
    else None
  }

  predicate IsDigitOf(c: char, base: nat)
  {
    DigitValue(c, base).Some?
  }

  /** The longest prefix of `s` made of digits in `base`. */
  function DigitPrefix(s: string, base: nat): (r: string)
    ensures |r| <= |s| && r == s[..|r|]
    ensures forall k :: 0 <= k < |r| ==> IsDigitOf(r[k], base)
    ensures |r| < |s| ==> !IsDigitOf(s[|r|], base)
  {
    if s == [] || !IsDigitOf(s[0], base) then [] else [s[0]] + DigitPrefix(s[1..], base)
  }

  /** The value of a digit string, most significant digit first. */
  function DigitsValue(ds: string, base: nat): (v: nat)
    requires forall k :: 0 <= k < |ds| ==> IsDigitOf(ds[k], base)
  {
    if ds == [] then 0
    else
      assert IsDigitOf(ds[|ds| - 1], base);
      DigitsValue(ds[..|ds| - 1], base) * base + DigitValue(ds[|ds| - 1], base).value
  }

  /** The value of the longest run of `base` digits at the start of `u`; `None` when there is none. */
  function LeadingNumber(u: string, base: nat): (r: Option<nat>)
    ensures r.None? <==> (u == [] || !IsDigitOf(u[0], base))
  {
    var ds := DigitPrefix(u, base);
    if ds == [] then None else Some(DigitsValue(ds, base))
  }

  predicate HasHexPrefix(u: string)
  {
    |u| >= 2 && u[0] == '0' && (u[1] == 'x' || u[1] == 'X')
  }

  /** The unsigned part: hexadecimal after `0x` when the radix is auto-detected, decimal otherwise. */
  function ParseMagnitude(u: string, radix: Radix): (r: Option<nat>)
  {
    if radix == AutoDetect && HasHexPrefix(u) then LeadingNumber(u[2..], 16)
    else LeadingNumber(u, 10)
  }

  /**
   * JavaScript `parseInt`: skip leading white space, read an optional sign, then (when
   * the radix is not given) an optional `0x`/`0X` hexadecimal prefix, then the longest
   * run of digits. No digit at all is `NaN`, here `None`.
   */
  function ParseInt(s: string, radix: Radix): (r: Option<int>)
  {
    var t := TrimStart(s, IsJsWhitespace);
    if t != [] && t[0] == '-' then
      match ParseMagnitude(t[1..], radix)
      case None => None
      case Some(v) => Some(0 - v as int)
    else if t != [] && t[0] == '+' then ParseMagnitude(t[1..], radix)
    else ParseMagnitude(t, radix)
  }

  /** Reading back a rendered natural number gives the number. */
  lemma {:induction false} DigitsValueOfNat(n: nat)
    ensures DigitsValue(NatToString(n), 10) == n
  {
    var init := if n < 10 then [] else NatToString(n / 10);
    var d := n % 10;
    ghost var q := n / 10;
    DigitsValueSnoc(init, d);
    assert NatToString(n) == init + [DigitChar(d)];
    assert DigitsValue(init, 10) == q by {
      if n >= 10 {
        DigitsValueOfNat(n / 10);
      }
    }
    DivMod10(n);
    assert q * 10 + d == n;
  }

  /** Appending a digit multiplies the value by ten and adds the digit. */
  lemma DigitsValueSnoc(init: string, d: nat)
    requires d < 10
    requires forall k :: 0 <= k < |init| ==> '0' <= init[k] <= '9'
    ensures forall k :: 0 <= k < |init| ==> IsDigitOf(init[k], 10)
    ensures forall k :: 0 <= k < |init + [DigitChar(d)]| ==> IsDigitOf((init + [DigitChar(d)])[k], 10)
    ensures DigitsValue(init + [DigitChar(d)], 10) == DigitsValue(init, 10) * 10 + d
  {
    var s := init + [DigitChar(d)];
    assert s[..|s| - 1] == init;
  }

  lemma DivMod10(n: nat)
    ensures (n / 10) * 10 + n % 10 == n
  {
  }

  /** Leading zeros do not change the value of a digit string. */
  lemma {:induction false} DigitsValueLeadingZeros(zs: string, ds: string, base: nat)
    requires base >= 2
    requires forall k :: 0 <= k < |zs| ==> zs[k] == '0'
    requires forall k :: 0 <= k < |ds| ==> IsDigitOf(ds[k], base)
    ensures forall k :: 0 <= k < |zs + ds| ==> IsDigitOf((zs + ds)[k], base)
    ensures DigitsValue(zs + ds, base) == DigitsValue(ds, base)
    decreases |ds|, |zs|
  {
    var s := zs + ds;
    assert forall k :: 0 <= k < |s| ==> IsDigitOf(s[k], base) by {
      forall k | 0 <= k < |s| ensures IsDigitOf(s[k], base) {
        if k < |zs| { assert s[k] == '0'; } else { assert s[k] == ds[k - |zs|]; }
      }
    }
    if ds == [] {
      assert s == zs;
      if zs != [] {
        DigitsValueLeadingZeros(zs[..|zs| - 1], [], base);
        assert zs[..|zs| - 1] + [] == zs[..|zs| - 1];
      }
    } else {
      assert s[..|s| - 1] == zs + ds[..|ds| - 1];
      assert s[|s| - 1] == ds[|ds| - 1];
      DigitsValueLeadingZeros(zs, ds[..|ds| - 1], base);
    }
  }

  /** `parseInt` of a plain string of decimal digits is its decimal value, whatever the radix rule. */
  lemma ParseIntOfDigits(s: string, radix: Radix)
    requires s != []
    requires forall k :: 0 <= k < |s| ==> '0' <= s[k] <= '9'
    ensures forall k :: 0 <= k < |s| ==> IsDigitOf(s[k], 10)
    ensures ParseInt(s, radix) == Some(DigitsValue(s, 10))
  {
    assert !IsJsWhitespace(s[0]);
    assert TrimStart(s, IsJsWhitespace) == s;
    assert !HasHexPrefix(s);
    assert forall k :: 0 <= k < |s| ==> IsDigitOf(s[k], 10);
    assert DigitPrefix(s, 10) == s;
  }

  /** `parseInt(String(n), 10)` is `n`, even after left padding with zeros. */
  lemma ParseIntOfPadded(n: nat, width: nat, radix: Radix)
    ensures ParseInt(PadStart(NatToString(n), width, '0'), radix) == Some(n)
  {
    var ds := NatToString(n);
    var zs := PadZeros(ds, width);
    var t := zs + ds;
    ParseIntOfDigits(t, radix);
    assert DigitsValue(t, 10) == n by {
      assert forall k :: 0 <= k < |ds| ==> IsDigitOf(ds[k], 10);
      DigitsValueLeadingZeros(zs, ds, 10);
      DigitsValueOfNat(n);
    }
  }

  /** The zeros `padStart` puts in front of a decimal string, and the result is all digits. */
  lemma PadZeros(ds: string, width: nat) returns (zs: string)
    requires forall k :: 0 <= k < |ds| ==> '0' <= ds[k] <= '9'
    ensures PadStart(ds, width, '0') == zs + ds
    ensures forall k :: 0 <= k < |zs| ==> zs[k] == '0'
    ensures forall k :: 0 <= k < |zs + ds| ==> '0' <= (zs + ds)[k] <= '9'
  {
    var s := PadStart(ds, width, '0');
    zs := s[..|s| - |ds|];
    assert s == zs + ds;
    forall k | 0 <= k < |s| ensures '0' <= s[k] <= '9' {
      if k < |zs| { assert s[k] == '0'; } else { assert s[k] == ds[k - |zs|]; }
    }
  }

  /** Rendering is injective: different naturals have different decimal strings. */
  lemma NatToStringInjective(a: nat, b: nat, width: nat)
    requires PadStart(NatToString(a), width, '0') == PadStart(NatToString(b), width, '0')
    ensures a == b
  {
    ParseIntOfPadded(a, width, Decimal);
    ParseIntOfPadded(b, width, Decimal);
  }
}
