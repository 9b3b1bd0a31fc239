/**
 * The JavaScript built-ins the modelled code relies on, stated over Dafny strings:
 * ASCII case mapping, `trim`, `split`/`join` on one separator character, `startsWith`,
 * `String.prototype.length` in UTF-16 code units, and the prefix parsers behind
 * `parseInt(text, 10)` and `parseFloat(text)`.
 */
module JsText {

  datatype Option<T> = None | Some(value: T)

  /** A JavaScript number value. Finite values are exact reals (no rounding is modelled). */
  datatype JsNumber = Finite(value: real) | NaN | PosInfinity | NegInfinity

  /** The sign of a number that is not NaN: -1, 0 or 1. */
  function SignOfNumber(n: JsNumber): int
    requires !n.NaN?
  {
    match n
    case PosInfinity => 1
    case NegInfinity => -1
    case Finite(x) => if x > 0.0 then 1 else if x < 0.0 then -1 else 0
  }

  /**
   * The `+` operator on two numbers: NaN absorbs, opposite infinities give NaN, an infinity
   * absorbs any finite value.
   */
  function JsAdd(a: JsNumber, b: JsNumber): (r: JsNumber)
    ensures r.Finite? <==> a.Finite? && b.Finite?
    ensures (a.NaN? || b.NaN?) ==> r.NaN?
    ensures r.Finite? ==> r.value == a.value + b.value
  {
    match (a, b)
    case (Finite(x), Finite(y)) => Finite(x + y)
    case (NaN, _) => NaN
    case (_, NaN) => NaN
    case (PosInfinity, NegInfinity) => NaN
    case (NegInfinity, PosInfinity) => NaN
    case (PosInfinity, _) => PosInfinity
    case (NegInfinity, _) => NegInfinity
    case (_, _) => b
  }

  /**
   * The `*` operator on two numbers: NaN absorbs, an infinity times zero is NaN, otherwise an
   * infinite operand gives the infinity whose sign is the product of the signs.
   */
  function JsMul(a: JsNumber, b: JsNumber): (r: JsNumber)
    ensures r.Finite? <==> a.Finite? && b.Finite?
    ensures (a.NaN? || b.NaN?) ==> r.NaN?
    ensures r.Finite? ==> r.value == a.value * b.value
  {
    if a.Finite? && b.Finite? then Finite(a.value * b.value)
    else if a.NaN? || b.NaN? then NaN
    else if SignOfNumber(a) == 0 || SignOfNumber(b) == 0 then NaN
    else if SignOfNumber(a) == SignOfNumber(b) then PosInfinity
    else NegInfinity
  }

  lemma JsAddCommutes(a: JsNumber, b: JsNumber)
    ensures JsAdd(a, b) == JsAdd(b, a)
  {
  }

  lemma JsMulCommutes(a: JsNumber, b: JsNumber)
    ensures JsMul(a, b) == JsMul(b, a)
  {
  }

  /** Adding zero changes nothing, whatever the other operand (NaN and the infinities included). */
  lemma JsAddZero(a: JsNumber)
    ensures JsAdd(a, Finite(0.0)) == a
  {
  }

  predicate IsUpper(c: char) { 'A' <= c <= 'Z' }
  predicate IsLower(c: char) { 'a' <= c <= 'z' }
  predicate IsDigit(c: char) { '0' <= c <= '9' }
  predicate IsAlnum(c: char) { IsLower(c) || IsUpper(c) || IsDigit(c) }

  /** `toLowerCase` on one character, for the ASCII letters. */
  function LowerChar(c: char): char
  {
    if IsUpper(c) then (c as int + 32) as char else c
  }

  function ToLower(s: string): (r: string)
    ensures |r| == |s|
    ensures forall i :: 0 <= i < |s| ==> r[i] == LowerChar(s[i])
  {
    if s == [] then [] else [LowerChar(s[0])] + ToLower(s[1..])
  }

  /** Lower-casing leaves no upper-case letter and keeps the spaces where they were. */
  lemma ToLowerShape(s: string)
    ensures forall i :: 0 <= i < |s| ==> !IsUpper(ToLower(s)[i])
    ensures forall i :: 0 <= i < |s| ==> (IsJsSpace(ToLower(s)[i]) <==> IsJsSpace(s[i]))
  {
    forall i | 0 <= i < |s|
      ensures !IsUpper(ToLower(s)[i]) && (IsJsSpace(ToLower(s)[i]) <==> IsJsSpace(s[i]))
    {
      LowerCharShape(s[i]);
    }
  }

  lemma LowerCharShape(c: char)
    ensures !IsUpper(LowerChar(c))
    ensures IsJsSpace(LowerChar(c)) <==> IsJsSpace(c)
  {
    if IsUpper(c) {
      assert IsLower(LowerChar(c));
    }
  }

  lemma ToLowerAppend(a: string, b: string)
    ensures ToLower(a + b) == ToLower(a) + ToLower(b)
  {
    var l := ToLower(a + b);
    var r := ToLower(a) + ToLower(b);
    forall i | 0 <= i < |l|
      ensures l[i] == r[i]
    {
      if i < |a| {
        assert (a + b)[i] == a[i];
      } else {
        assert (a + b)[i] == b[i - |a|];
      }
    }
    assert l == r;
  }

  /** A text with no upper-case letter is its own lower-case form. */
  lemma ToLowerOfLowerText(s: string)
    ensures (forall i :: 0 <= i < |s| ==> !IsUpper(s[i])) ==> ToLower(s) == s
  {
  }

  /** The characters `trim` removes: WhiteSpace and LineTerminator of ECMA-262. */
  predicate IsJsSpace(c: char)
  {
    c == '\t' || c == '\n' || c == '\U{000B}' || c == '\U{000C}' || c == '\r' || c == ' '
    || c == '\U{00A0}' || c == '\U{1680}' || ('\U{2000}' <= c <= '\U{200A}')
    || c == '\U{2028}' || c == '\U{2029}' || c == '\U{202F}' || c == '\U{205F}'
    || c == '\U{3000}' || c == '\U{FEFF}'
  }

  function TrimStart(s: string): (r: string)
    ensures |r| <= |s| && r == s[|s| - |r|..]
    ensures forall i :: 0 <= i < |s| - |r| ==> IsJsSpace(s[i])
    ensures r == [] || !IsJsSpace(r[0])
  {
    if s != [] && IsJsSpace(s[0]) then TrimStart(s[1..]) else s
  }

  function TrimEnd(s: string): (r: string)
    ensures |r| <= |s| && r == s[..|r|]
    ensures forall i :: |r| <= i < |s| ==> IsJsSpace(s[i])
    ensures r == [] || !IsJsSpace(r[|r| - 1])
  {
    if s != [] && IsJsSpace(s[|s| - 1]) then TrimEnd(s[..|s| - 1]) else s
  }

  /** `String.prototype.trim`. */
  function Trim(s: string): (r: string)
    ensures r == [] || (!IsJsSpace(r[0]) && !IsJsSpace(r[|r| - 1]))
  {
    TrimEnd(TrimStart(s))
  }

  /** `parts.map((p) => p.trim())`. */
  function TrimAll(parts: seq<string>): (r: seq<string>)
    ensures |r| == |parts|
    ensures forall i :: 0 <= i < |parts| ==> r[i] == Trim(parts[i])
  {
    seq(|parts|, i requires 0 <= i < |parts| => Trim(parts[i]))
  }

  /** `a ?? b` on text: only a missing value falls through, an empty text is kept. */
  function OrElse(a: Option<string>, b: string): string
  {
    if a.Some? then a.value else b
  }

  /** A text without a space at either edge is its own trim. */
  lemma TrimOfUnpadded(s: string)
    requires s == [] || (!IsJsSpace(s[0]) && !IsJsSpace(s[|s| - 1]))
    ensures Trim(s) == s
  {
  }

  /** A text that does not start with a space is its own `trimStart`. */
  lemma TrimStartOfUnspaced(s: string)
    requires s == [] || !IsJsSpace(s[0])
    ensures TrimStart(s) == s
  {
  }

  /** A text that does not end with a space is its own `trimEnd`. */
  lemma TrimEndOfUnspaced(s: string)
    requires s == [] || !IsJsSpace(s[|s| - 1])
    ensures TrimEnd(s) == s
  {
  }

  /** A trailing blank does not change `trimEnd`. */
  lemma TrimEndOfSpaceSuffix(t: string)
    ensures TrimEnd(t + " ") == TrimEnd(t)
  {
    assert (t + " ")[..|t|] == t;
  }

  predicate StartsWith(s: string, prefix: string)
  {
    |prefix| <= |s| && s[..|prefix|] == prefix
  }

  predicate EndsWith(s: string, suffix: string)
  {
    |suffix| <= |s| && s[|s| - |suffix|..] == suffix
  }

  /** `s.includes(sub)`: `sub` occurs in `s` at some position. */
  predicate Includes(s: string, sub: string)
    decreases |s|
  {
    StartsWith(s, sub) || (s != [] && Includes(s[1..], sub))
  }

  function IndexOf(s: string, c: char): (i: nat)
    requires c in s
    ensures i < |s| && s[i] == c && c !in s[..i]
  {
    if s[0] == c then 0 else 1 + IndexOf(s[1..], c)
  }

  /** `s.split(sep)` for a one-character separator: "" splits into [""]. */
  function Split(s: string, sep: char): (parts: seq<string>)
    ensures |parts| >= 1
    ensures forall k :: 0 <= k < |parts| ==> sep !in parts[k]
    decreases |s|
  {
    if sep !in s then [s]
    else
      var i := IndexOf(s, sep);
      [s[..i]] + Split(s[i + 1..], sep)
  }

  /** `parts.join(sep)` for a one-character separator. */
  function Join(parts: seq<string>, sep: char): string
  {
    if |parts| == 0 then ""
    else if |parts| == 1 then parts[0]
    else parts[0] + [sep] + Join(parts[1..], sep)
  }

  /** Splitting and re-joining on the same separator gives the text back. */
  lemma {:induction false} JoinSplit(s: string, sep: char)
    ensures Join(Split(s, sep), sep) == s
    decreases |s|
  {
    if sep in s {
      var i := IndexOf(s, sep);
      var rest := Split(s[i + 1..], sep);
      assert Split(s, sep) == [s[..i]] + rest;
      assert Join([s[..i]] + rest, sep) == s[..i] + [sep] + Join(rest, sep) by {
        assert ([s[..i]] + rest)[1..] == rest;
      }
      JoinSplit(s[i + 1..], sep);
      assert s == s[..i] + [sep] + s[i + 1..];
    }
  }

  /** The first piece of a split is the text before the first separator. */
  lemma SplitHead(s: string, sep: char)
    ensures sep in s ==> Split(s, sep) == [s[..IndexOf(s, sep)]] + Split(s[IndexOf(s, sep) + 1..], sep)
    ensures sep !in s ==> Split(s, sep) == [s]
  {
  }

  /** `String.prototype.length`: the number of UTF-16 code units. */
  function Utf16Length(s: string): (n: nat)
    ensures |s| <= n <= 2 * |s|
  {
    if s == [] then 0 else (if s[0] as int > 0xFFFF then 2 else 1) + Utf16Length(s[1..])
  }

  // ----- numbers written in decimal -----

  function DigitValue(c: char): nat
    requires IsDigit(c)
  {
    c as int - '0' as int
  }

  function DigitChar(d: nat): (c: char)
    requires d < 10
    ensures IsDigit(c) && DigitValue(c) == d
  {
    ('0' as int + d) as char
  }

  predicate AllDigits(s: string) { forall i :: 0 <= i < |s| ==> IsDigit(s[i]) }

  /** The value of a run of decimal digits, read left to right. */
  function DigitsValue(ds: string): nat
    requires AllDigits(ds)
  {
    if ds == [] then 0 else DigitsValue(ds[..|ds| - 1]) * 10 + DigitValue(ds[|ds| - 1])
  }

  /** The number of leading decimal digits of `s`. */
  function DigitRun(s: string): (n: nat)
    ensures n <= |s| && AllDigits(s[..n])
    ensures n < |s| ==> !IsDigit(s[n])
  {
    if s != [] && IsDigit(s[0]) then
      var k := DigitRun(s[1..]);
      assert s[..1 + k] == [s[0]] + s[1..][..k];
      1 + k
    else 0
  }

  /** The decimal digits of a natural number, most significant first, without leading zeros. */
  function NatToString(n: nat): (s: string)
    ensures |s| >= 1 && AllDigits(s)
    ensures |s| > 1 ==> s[0] != '0'
  {
    if n < 10 then [DigitChar(n)]
    else NatToString(n / 10) + [DigitChar(n % 10)]
  }

  /** `String(n)` for an integer-valued number. */
  function IntToString(n: int): string
  {
    if n < 0 then "-" + NatToString(-n) else NatToString(n)
  }

  /** Reading back the decimal digits of `n` gives `n`. */
  lemma {:induction false} NatToStringValue(n: nat)
    ensures DigitsValue(NatToString(n)) == n
  {
    if n >= 10 {
      NatToStringValue(n / 10);
      var s := NatToString(n);
      assert s[..|s| - 1] == NatToString(n / 10);
    }
  }

  /** A magnitude with the sign read in front of it. */
  function Signed(sign: int, n: int): int
  {
    if sign < 0 then -n else n
  }

  /** Splits off an optional sign: +1 or -1 and the rest of the text. */
  function SignOf(t: string): (int, string)
  {
    if StartsWith(t, "-") then (-1, t[1..])
    else if StartsWith(t, "+") then (1, t[1..])
    else (1, t)
  }

  /**
   * `parseInt(text, 10)`: leading white space is skipped, an optional sign is read, then
   * the longest run of digits; no digit at all gives NaN (None).
   */
  function ParseInt(text: string): (r: Option<int>)
  {
    var (sign, u) := SignOf(TrimStart(text));
    var n := DigitRun(u);
    if n == 0 then None else Some(Signed(sign, DigitsValue(u[..n])))
  }

  lemma DigitIsNotSpace(c: char)
    requires IsDigit(c)
    ensures !IsJsSpace(c) && c != '-' && c != '+'
  {
  }

  /** A run of digits alone is read as the number it spells. */
  lemma ParseIntOfDigits(ds: string)
    requires AllDigits(ds) && |ds| > 0
    ensures ParseInt(ds) == Some(DigitsValue(ds))
  {
    DigitIsNotSpace(ds[0]);
    TrimStartOfUnspaced(ds);
    assert ds[0] != '-' && ds[0] != '+';
    assert SignOf(ds) == (1, ds);
    AllDigitsRun(ds);
    assert ds[..|ds|] == ds;
  }

  /** A plain decimal numeral is parsed back to the number it spells. */
  lemma ParseIntOfNumeral(n: nat)
    ensures ParseInt(NatToString(n)) == Some(n)
  {
    NatToStringValue(n);
    ParseIntOfDigits(NatToString(n));
  }

  lemma {:induction false} AllDigitsRun(s: string)
    requires AllDigits(s)
    ensures DigitRun(s) == |s|
  {
    if s != [] {
      AllDigitsRun(s[1..]);
    }
  }

  /** The exponent part `e[+-]digits` of a decimal literal; 0 when absent or malformed. */
  function ExponentOf(t: string): int
  {
    if StartsWith(t, "e") || StartsWith(t, "E") then
      var (sign, u) := SignOf(t[1..]);
      var n := DigitRun(u);
      if n == 0 then 0 else Signed(sign, DigitsValue(u[..n]))
    else 0
  }

  /** `m` times ten to the power `e`. */
  function Scale(m: real, e: int): real
    decreases if e >= 0 then e else -e
  {
    if e == 0 then m else if e > 0 then 10.0 * Scale(m, e - 1) else Scale(m, e + 1) / 10.0
  }

  /** The value of the digits after a decimal point: "25" is 0.25. */
  function FractionValue(ds: string): real
    requires AllDigits(ds)
  {
    if ds == [] then 0.0 else ((DigitValue(ds[0]) as real) + FractionValue(ds[1..])) / 10.0
  }

  /** The text begins with a decimal literal: a digit, or a point followed by a digit. */
  predicate StartsWithNumeral(u: string)
  {
    DigitRun(u) > 0 || (StartsWith(u, ".") && DigitRun(u[1..]) > 0)
  }

  /**
   * The longest decimal literal `digits[.digits][e[+-]digits]` at the start of `u`, with at
   * least one digit before the exponent; NaN when there is none.
   */
  function UnsignedDecimal(u: string): (r: JsNumber)
    ensures r.Finite? || r.NaN?
    ensures r.NaN? <==> !StartsWithNumeral(u)
    ensures r.Finite? ==> (IsDigit(u[0]) || (|u| > 1 && IsDigit(u[1])))
  {
    var n1 := DigitRun(u);
    var rest := u[n1..];
    var n2 := if StartsWith(rest, ".") then DigitRun(rest[1..]) else 0;
    var after := if StartsWith(rest, ".") then rest[1 + n2..] else rest;
    if n1 + n2 == 0 then NaN
    else
      var whole := DigitsValue(u[..n1]) as real;
      var frac := if n2 == 0 then 0.0 else FractionValue(rest[1..][..n2]);
      Finite(Scale(whole + frac, ExponentOf(after)))
  }

  predicate StartsWithInfinity(u: string)
  {
    StartsWith(u, "Infinity")
  }

  /** A sign and the text after it, read as `Infinity` or a decimal literal. */
  function SignedDecimal(sign: int, u: string): (r: JsNumber)
    ensures r.Finite? ==> |u| > 0 && (IsDigit(u[0]) || (|u| > 1 && IsDigit(u[1])))
    ensures r.PosInfinity? || r.NegInfinity? ==> |u| > 0 && u[0] == 'I'
    ensures !StartsWithInfinity(u) ==> (r.NaN? <==> UnsignedDecimal(u).NaN?) && !r.PosInfinity? && !r.NegInfinity?
  {
    if StartsWithInfinity(u) then
      if sign < 0 then NegInfinity else PosInfinity
    else
      match UnsignedDecimal(u)
      case Finite(v) => Finite(if sign < 0 then -v else v)
      case _ => NaN
  }

  /**
   * `parseFloat(text)`: leading white space is skipped, an optional sign is read, then
   * either `Infinity` or a decimal literal; anything else gives NaN.
   */
  function ParseFloat(text: string): JsNumber
  {
    var (sign, u) := SignOf(TrimStart(text));
    SignedDecimal(sign, u)
  }

  /** Anything but NaN needs a digit or the `I` of `Infinity` in the text. */
  lemma ParseFloatNeedsDigit(text: string)
    ensures ParseFloat(text) != NaN ==> exists i :: 0 <= i < |text| && (IsDigit(text[i]) || text[i] == 'I')
  {
    var t := TrimStart(text);
    var u := SignOf(t).1;
    SignLeavesSuffix(t);
    var k := |text| - |u|;
    assert u == text[k..];
    var r := SignedDecimal(SignOf(t).0, u);
    assert ParseFloat(text) == r;
    if r != NaN {
      assert |u| > 0 && (IsDigit(u[0]) || u[0] == 'I' || (|u| > 1 && IsDigit(u[1])));
      assert text[k] == u[0];
      if |u| > 1 {
        assert text[k + 1] == u[1];
      }
    }
  }

  lemma SignLeavesSuffix(t: string)
    ensures |SignOf(t).1| <= |t| && SignOf(t).1 == t[|t| - |SignOf(t).1|..]
  {
    if StartsWith(t, "-") || StartsWith(t, "+") {
      assert SignOf(t).1 == t[1..];
    }
  }

  /** The empty text and any text without a digit parse to NaN. */
  lemma ParseFloatEmpty()
    ensures ParseFloat("") == NaN
  {
  }

  /** `parseFloat('0')`, the value used for an empty adjustment. */
  lemma ParseFloatZero()
    ensures ParseFloat("0") == Finite(0.0)
  {
    TrimStartOfUnspaced("0");
    assert DigitRun("0") == 1;
    assert DigitsValue("0") == 0;
  }

  // ----- the slug regular expressions of the quote sheets -----

  /** `s.replace(/[^a-z0-9]+/gi, '-')` keeps exactly these characters. */
  function Alnums(s: string): (r: string)
    ensures |r| <= |s|
  {
    if s == [] then [] else (if IsAlnum(s[0]) then [s[0]] else []) + Alnums(s[1..])
  }

  lemma {:induction false} AlnumsAppend(a: string, b: string)
    ensures Alnums(a + b) == Alnums(a) + Alnums(b)
  {
    if a != [] {
      AlnumsAppend(a[1..], b);
      var h := if IsAlnum(a[0]) then [a[0]] else [];
      assert (a + b)[0] == a[0];
      assert (a + b)[1..] == a[1..] + b;
      calc {
        Alnums(a + b);
        h + Alnums(a[1..] + b);
        h + (Alnums(a[1..]) + Alnums(b));
        (h + Alnums(a[1..])) + Alnums(b);
      }
    } else {
      assert a + b == b;
    }
  }

  predicate SlugChars(s: string) { forall i :: 0 <= i < |s| ==> IsAlnum(s[i]) || s[i] == '-' }

  predicate NoDoubleDash(s: string) { forall i :: 0 <= i < |s| - 1 ==> s[i] != '-' || s[i + 1] != '-' }

  /** Drops the leading characters that are not ASCII letters or digits. */
  function DropNonAlnum(s: string): (r: string)
    ensures |r| <= |s| && r == s[|s| - |r|..]
    ensures r == [] || IsAlnum(r[0])
    ensures Alnums(r) == Alnums(s)
  {
    if s != [] && !IsAlnum(s[0]) then DropNonAlnum(s[1..]) else s
  }

  /** `s.replace(/[^a-z0-9]+/gi, '-')`: every maximal run of other characters becomes one '-'. */
  function ReplaceNonAlnumRuns(s: string): (r: string)
    ensures SlugChars(r) && NoDoubleDash(r)
    ensures Alnums(r) == Alnums(s)
    ensures r == [] <==> s == []
    ensures r != [] ==> (r[0] == '-' <==> !IsAlnum(s[0]))
    decreases |s|
  {
    if s == [] then []
    else if IsAlnum(s[0]) then
      var tail := ReplaceNonAlnumRuns(s[1..]);
      assert Alnums([s[0]] + tail) == [s[0]] + Alnums(tail) by {
        AlnumsAppend([s[0]], tail);
      }
      [s[0]] + tail
    else
      var tail := ReplaceNonAlnumRuns(DropNonAlnum(s[1..]));
      assert Alnums("-" + tail) == Alnums(tail) by {
        AlnumsAppend("-", tail);
      }
      "-" + tail
  }

  /** Dropping the first or the last character keeps both slug properties. */
  lemma SlugPropertiesOfSlices(s: string)
    requires s != []
    ensures SlugChars(s) ==> SlugChars(s[1..]) && SlugChars(s[..|s| - 1])
    ensures NoDoubleDash(s) ==> NoDoubleDash(s[1..]) && NoDoubleDash(s[..|s| - 1])
  {
    if NoDoubleDash(s) {
      forall i | 0 <= i < |s[1..]| - 1 ensures s[1..][i] != '-' || s[1..][i + 1] != '-' {
        assert s[1..][i] == s[i + 1] && s[1..][i + 1] == s[i + 2];
      }
    }
  }

  function StripLeadingDashes(s: string): (r: string)
    ensures |r| <= |s| && r == s[|s| - |r|..]
    ensures r == [] || r[0] != '-'
    ensures Alnums(r) == Alnums(s)
    ensures SlugChars(s) ==> SlugChars(r)
    ensures NoDoubleDash(s) ==> NoDoubleDash(r)
  {
    if s != [] && s[0] == '-' then
      SlugPropertiesOfSlices(s);
      StripLeadingDashes(s[1..])
    else s
  }

  function StripTrailingDashes(s: string): (r: string)
    ensures |r| <= |s| && r == s[..|r|]
    ensures r == [] || r[|r| - 1] != '-'
    ensures Alnums(r) == Alnums(s)
    ensures SlugChars(s) ==> SlugChars(r)
    ensures NoDoubleDash(s) ==> NoDoubleDash(r)
  {
    if s != [] && s[|s| - 1] == '-' then
      var init := s[..|s| - 1];
      assert s == init + "-";
      AlnumsAppend(init, "-");
      SlugPropertiesOfSlices(s);
      StripTrailingDashes(init)
    else s
  }

  /** `s.replace(/^-+|-+$/g, '')`: the dashes at both ends go, nothing else changes. */
  function StripEdgeDashes(s: string): (r: string)
    ensures r == [] || (r[0] != '-' && r[|r| - 1] != '-')
    ensures SlugChars(s) ==> SlugChars(r)
    ensures NoDoubleDash(s) ==> NoDoubleDash(r)
    ensures Alnums(r) == Alnums(s)
  {
    var a := StripLeadingDashes(s);
    var r := StripTrailingDashes(a);
    assert r != [] ==> r[0] == a[0];
    r
  }

  // ----- where the slug's dashes go -----

  /** The length of the run of ASCII letters and digits that `s` starts with. */
  function AlnumRun(s: string): (n: nat)
    ensures n <= |s|
  {
    if s != [] && IsAlnum(s[0]) then 1 + AlnumRun(s[1..]) else 0
  }

  /** The run is all letters and digits, and nothing of the kind follows it. */
  lemma {:induction false} AlnumRunIsMaximal(s: string)
    ensures var n := AlnumRun(s);
      (forall i :: 0 <= i < n ==> IsAlnum(s[i])) && (n < |s| ==> !IsAlnum(s[n]))
  {
    if s != [] && IsAlnum(s[0]) {
      AlnumRunIsMaximal(s[1..]);
      var n := AlnumRun(s);
      forall i | 1 <= i < n
        ensures IsAlnum(s[i])
      {
        assert s[i] == s[1..][i - 1];
      }
      if n < |s| {
        assert s[n] == s[1..][n - 1];
      }
    }
  }

  /** A word of a slug: a non-empty run of ASCII letters and digits. */
  predicate IsWord(w: string)
  {
    w != [] && forall i :: 0 <= i < |w| ==> IsAlnum(w[i])
  }

  /** The maximal runs of ASCII letters and digits in `s`, in order. */
  function Words(s: string): (ws: seq<string>)
    decreases |s|
  {
    if s == [] then []
    else if !IsAlnum(s[0]) then Words(s[1..])
    else
      var n := AlnumRun(s);
      [s[..n]] + Words(s[n..])
  }

  /** Every word is a non-empty run of letters and digits. */
  lemma {:induction false} WordsAreWords(s: string)
    ensures forall k :: 0 <= k < |Words(s)| ==> IsWord(Words(s)[k])
    decreases |s|
  {
    if s != [] && !IsAlnum(s[0]) {
      WordsAreWords(s[1..]);
    } else if s != [] {
      var n := AlnumRun(s);
      AlnumRunIsMaximal(s);
      WordsAreWords(s[n..]);
      var w, rest := s[..n], Words(s[n..]);
      assert Words(s) == [w] + rest;
      assert IsWord(w);
      forall k | 0 <= k < |Words(s)|
        ensures IsWord(Words(s)[k])
      {
        if k > 0 {
          assert Words(s)[k] == rest[k - 1];
        }
      }
    }
  }

  /** A leading character that is not a letter or digit belongs to no word. */
  lemma WordsSkipNonAlnum(s: string)
    requires s != [] && !IsAlnum(s[0])
    ensures Words(s) == Words(s[1..])
  {
  }

  /** Words are found after the characters that separate them. */
  lemma {:induction false} WordsAfterDrop(s: string)
    ensures Words(DropNonAlnum(s)) == Words(s)
    decreases |s|
  {
    if s != [] && !IsAlnum(s[0]) {
      WordsSkipNonAlnum(s);
      WordsAfterDrop(s[1..]);
    }
  }

  /** A text has no word exactly when it has no letter or digit. */
  lemma {:induction false} NoWords(s: string)
    ensures Words(s) == [] <==> forall i :: 0 <= i < |s| ==> !IsAlnum(s[i])
    decreases |s|
  {
    if s != [] {
      if IsAlnum(s[0]) {
        assert Words(s) != [];
      } else {
        WordsSkipNonAlnum(s);
        NoWords(s[1..]);
        assert forall i :: 1 <= i < |s| ==> s[i] == s[1..][i - 1];
      }
    }
  }

  /** A text that starts with a letter or digit starts with its first word. */
  lemma WordsAtWordStart(s: string)
    requires s != [] && IsAlnum(s[0])
    ensures Words(s) == [s[..AlnumRun(s)]] + Words(s[AlnumRun(s)..])
  {
  }

  lemma HeadAndSlice(s: string, m: nat)
    requires m < |s|
    ensures s[..m + 1] == [s[0]] + s[1..][..m]
  {
  }

  /** A letter or digit followed by another joins the word that follows it. */
  lemma WordsOfAlnumPair(s: string)
    requires |s| > 1 && IsAlnum(s[0]) && IsAlnum(s[1])
    ensures Words(s[1..]) != [] && Words(s) == [[s[0]] + Words(s[1..])[0]] + Words(s[1..])[1..]
  {
    var t := s[1..];
    WordsAtWordStart(s);
    WordsAtWordStart(t);
    var m := AlnumRun(t);
    assert AlnumRun(s) == 1 + m;
    HeadAndSlice(s, m);
    assert s[1 + m..] == t[m..];
  }

  /** A letter or digit followed by a separator, or by nothing, is a word of its own. */
  lemma WordsOfAlnumAlone(s: string)
    requires s != [] && IsAlnum(s[0]) && !(|s| > 1 && IsAlnum(s[1]))
    ensures Words(s) == [[s[0]]] + Words(s[1..])
  {
    var n := AlnumRun(s);
    assert s[1..] == [] || !IsAlnum(s[1..][0]);
    assert AlnumRun(s[1..]) == 0;
    assert n == 1;
    var w := s[..n];
    assert w == [s[0]];
    assert Words(s) == [w] + Words(s[n..]);
  }

  /** Words joined by '-' start and end with a letter or digit. */
  lemma {:induction false} JoinedWordsEdges(ws: seq<string>)
    requires forall k :: 0 <= k < |ws| ==> IsWord(ws[k])
    ensures Join(ws, '-') == [] <==> ws == []
    ensures Join(ws, '-') != [] ==> IsAlnum(Join(ws, '-')[0]) && IsAlnum(Join(ws, '-')[|Join(ws, '-')| - 1])
  {
    if |ws| > 1 {
      JoinedWordsEdges(ws[1..]);
      var j := Join(ws[1..], '-');
      assert Join(ws, '-') == ws[0] + ("-" + j);
    }
  }

  lemma JoinCons(w: string, ws: seq<string>)
    ensures ws == [] ==> Join([w] + ws, '-') == w
    ensures ws != [] ==> Join([w] + ws, '-') == w + "-" + Join(ws, '-')
  {
    assert ([w] + ws)[1..] == ws;
  }

  /** Extending the first word by one character in front extends the joined text. */
  lemma JoinExtendFirst(c: char, ws: seq<string>)
    requires ws != []
    ensures Join([[c] + ws[0]] + ws[1..], '-') == [c] + Join(ws, '-')
  {
    JoinCons([c] + ws[0], ws[1..]);
    JoinCons(ws[0], ws[1..]);
    assert ws == [ws[0]] + ws[1..];
  }

  /** The '-' that a text starting with a separator gets in front. */
  function LeadDash(s: string): string
  {
    if s != [] && !IsAlnum(s[0]) then "-" else ""
  }

  /** The '-' that a text ending with a separator after some word gets at the end. */
  function TrailDash(s: string): string
  {
    if s != [] && !IsAlnum(s[|s| - 1]) && Words(s) != [] then "-" else ""
  }

  /** What `replace(/[^a-z0-9]+/gi, '-')` is claimed to give: the words between edge dashes. */
  function Dashed(s: string): string
  {
    LeadDash(s) + Join(Words(s), '-') + TrailDash(s)
  }

  /**
   * `replace(/[^a-z0-9]+/gi, '-')` in full: the words of the text joined by single dashes, with
   * one more dash in front when the text starts with a separator and one at the end when it
   * ends with one after a word.
   */
  lemma {:induction false} ReplaceNonAlnumRunsIsJoin(s: string)
    ensures ReplaceNonAlnumRuns(s) == Dashed(s)
    decreases |s|
  {
    if s == [] {
    } else if !IsAlnum(s[0]) {
      var u := DropNonAlnum(s[1..]);
      ReplaceNonAlnumRunsIsJoin(u);
      DashedAfterSeparator(s);
    } else if |s| > 1 && IsAlnum(s[1]) {
      ReplaceNonAlnumRunsIsJoin(s[1..]);
      DashedAfterPair(s);
    } else {
      ReplaceNonAlnumRunsIsJoin(s[1..]);
      DashedAfterAlone(s);
    }
  }

  /** A leading separator run gives one dash in front of what the rest of the text gives. */
  lemma DashedAfterSeparator(s: string)
    requires s != [] && !IsAlnum(s[0])
    ensures Dashed(s) == "-" + Dashed(DropNonAlnum(s[1..]))
  {
    var u := DropNonAlnum(s[1..]);
    SeparatorWords(s);
    SeparatorTrail(s);
    assert LeadDash(u) == "";
    DashedParts(s, u);
  }

  lemma SeparatorWords(s: string)
    requires s != [] && !IsAlnum(s[0])
    ensures Words(s) == Words(DropNonAlnum(s[1..]))
  {
    WordsSkipNonAlnum(s);
    WordsAfterDrop(s[1..]);
  }

  lemma SeparatorTrail(s: string)
    requires s != [] && !IsAlnum(s[0])
    ensures TrailDash(s) == TrailDash(DropNonAlnum(s[1..]))
  {
    var t := s[1..];
    var u := DropNonAlnum(t);
    SeparatorWords(s);
    if u != [] {
      assert u == t[|t| - |u|..];
      assert u[|u| - 1] == s[|s| - 1];
    }
  }

  lemma DashedParts(s: string, u: string)
    requires LeadDash(s) == "-" && LeadDash(u) == ""
    requires Words(s) == Words(u) && TrailDash(s) == TrailDash(u)
    ensures Dashed(s) == "-" + Dashed(u)
  {
  }

  /** A letter or digit before another goes in front of what the rest gives. */
  lemma DashedAfterPair(s: string)
    requires |s| > 1 && IsAlnum(s[0]) && IsAlnum(s[1])
    ensures Dashed(s) == [s[0]] + Dashed(s[1..])
  {
    var t := s[1..];
    WordsOfAlnumPair(s);
    JoinExtendFirst(s[0], Words(t));
    SameTrail(s);
    assert LeadDash(s) == "" && LeadDash(t) == "";
  }

  /** A letter or digit alone goes in front of what the rest gives, which then starts its dash. */
  lemma DashedAfterAlone(s: string)
    requires s != [] && IsAlnum(s[0]) && !(|s| > 1 && IsAlnum(s[1]))
    ensures Dashed(s) == [s[0]] + Dashed(s[1..])
  {
    WordsOfAlnumAlone(s);
    if |s| == 1 {
      AloneAtEnd(s);
    } else if Words(s[1..]) == [] {
      AloneBeforeSeparators(s);
    } else {
      AloneBeforeWords(s);
    }
  }

  lemma AloneAtEnd(s: string)
    requires |s| == 1 && IsAlnum(s[0]) && Words(s) == [[s[0]]] + Words(s[1..])
    ensures Dashed(s) == [s[0]] + Dashed(s[1..])
  {
    assert s[1..] == [];
    assert Words(s) == [[s[0]]];
    assert TrailDash(s) == "" && LeadDash(s) == "";
  }

  lemma AloneBeforeSeparators(s: string)
    requires |s| > 1 && IsAlnum(s[0]) && !IsAlnum(s[1])
    requires Words(s) == [[s[0]]] + Words(s[1..]) && Words(s[1..]) == []
    ensures Dashed(s) == [s[0]] + Dashed(s[1..])
  {
    var t := s[1..];
    NoWords(t);
    assert s[|s| - 1] == t[|t| - 1];
    assert TrailDash(s) == "-" && TrailDash(t) == "";
    assert Words(s) == [[s[0]]];
    assert Dashed(t) == "-";
  }

  lemma AloneBeforeWords(s: string)
    requires |s| > 1 && IsAlnum(s[0]) && !IsAlnum(s[1])
    requires Words(s) == [[s[0]]] + Words(s[1..]) && Words(s[1..]) != []
    ensures Dashed(s) == [s[0]] + Dashed(s[1..])
  {
    var t := s[1..];
    JoinCons([s[0]], Words(t));
    SameTrail(s);
    assert LeadDash(s) == "" && LeadDash(t) == "-";
    ConcatParts([s[0]], "-", Join(Words(t), '-'), TrailDash(t));
  }

  /** Dropping the first character of a text with words in both keeps the trailing dash. */
  lemma SameTrail(s: string)
    requires |s| > 1 && Words(s) != [] && Words(s[1..]) != []
    ensures TrailDash(s) == TrailDash(s[1..])
  {
    var t := s[1..];
    assert s[|s| - 1] == t[|t| - 1];
  }

  lemma ConcatParts(a: string, b: string, c: string, d: string)
    ensures "" + (a + b + c) + d == a + (b + c + d)
  {
  }

  /** Once the edge dashes are stripped, only the words joined by single dashes remain. */
  lemma StripReplacedIsJoin(s: string)
    ensures StripEdgeDashes(ReplaceNonAlnumRuns(s)) == Join(Words(s), '-')
  {
    ReplaceNonAlnumRunsIsJoin(s);
    WordsAreWords(s);
    JoinedWordsEdges(Words(s));
    StripAroundWords(LeadDash(s), Join(Words(s), '-'), TrailDash(s));
  }

  /** Stripping a text that is at most one dash, a dash-free-edged middle and one dash. */
  lemma StripAroundWords(lead: string, j: string, trail: string)
    requires lead == "" || lead == "-"
    requires trail == "" || trail == "-"
    requires j == [] ==> trail == ""
    requires j == [] || (j[0] != '-' && j[|j| - 1] != '-')
    ensures StripEdgeDashes(lead + j + trail) == j
  {
    var x := j + trail;
    var y := lead + j + trail;
    assert y == lead + x;
    assert x == [] || x[0] != '-' by {
      if j != [] {
        assert x[0] == j[0];
      }
    }
    StripLeadOnce(lead, x);
    StripTrailOnce(j, trail);
    assert StripEdgeDashes(y) == StripTrailingDashes(StripLeadingDashes(y));
  }

  lemma StripLeadOnce(lead: string, x: string)
    requires lead == "" || lead == "-"
    requires x == [] || x[0] != '-'
    ensures StripLeadingDashes(lead + x) == x
  {
    if lead == "-" {
      assert (lead + x)[1..] == x;
    }
  }

  lemma StripTrailOnce(j: string, trail: string)
    requires trail == "" || trail == "-"
    requires j == [] || j[|j| - 1] != '-'
    ensures StripTrailingDashes(j + trail) == j
  {
    if trail == "-" {
      assert (j + trail)[..|j|] == j;
    }
  }
}
