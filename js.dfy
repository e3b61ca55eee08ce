/** The JavaScript built-ins whose exact behaviour the decisions of the model depend on:
    truthiness, `parseInt` with no radix, `toString` of an integer and `encodeURIComponent`. */
module Js {
  import opened Wrappers

  /** A JavaScript number as far as the model needs one: an integer or NaN
      (`-0` is the integer 0; floating point beyond integers is not modelled). */
  datatype JsInt = Num(n: int) | NaN

  /** Truthiness of a number: NaN and 0 are falsy. */
  predicate NumTruthy(x: JsInt) {
    x.Num? && x.n != 0
  }

  /** Truthiness of an optional string: `undefined`, `null` and "" are falsy. */
  predicate StrTruthy(s: Option<string>) {
    s.Some? && s.value != ""
  }

  /** `a || b` for optional strings. */
  function OrElse(a: Option<string>, b: Option<string>): Option<string> {
    if StrTruthy(a) then a else b
  }

  /** `s.startsWith(prefix)`. */
  predicate StartsWith(s: string, prefix: string) {
    prefix <= s
  }

  // ---------------------------------------------------------------- parseInt

  /** The characters `parseInt` skips at the start of its argument
      (ECMAScript's StrWhiteSpaceChar: white space and line terminators). */
  predicate IsJsWhiteSpace(c: char) {
    || c == '\t' || c == '\n' || c == '\U{000B}' || c == '\U{000C}' || c == '\r'
    || c == ' ' || c == '\U{00A0}' || c == '\U{1680}' || ('\U{2000}' <= c <= '\U{200A}')
    || c == '\U{2028}' || c == '\U{2029}' || c == '\U{202F}' || c == '\U{205F}'
    || c == '\U{3000}' || c == '\U{FEFF}'
  }

  /** `s` without its leading white space. */
  function TrimStart(s: string): (r: string)
    ensures |r| <= |s| && r == s[|s| - |r|..]
    ensures forall i :: 0 <= i < |s| - |r| ==> IsJsWhiteSpace(s[i])
    ensures r == [] || !IsJsWhiteSpace(r[0])
  {
    if s != [] && IsJsWhiteSpace(s[0]) then
      var r := TrimStart(s[1..]);
      assert forall i :: 1 <= i < |s| - |r| ==> s[i] == s[1..][i - 1];
      r
    else s
  }

  /** The value of `c` read as a hexadecimal digit, or 16 when it is none. */
  function DigitValue(c: char): (v: nat)
    ensures v <= 16
  {
    if '0' <= c <= '9' then c as int - '0' as int
    else if 'a' <= c <= 'f' then c as int - 'a' as int + 10
    else if 'A' <= c <= 'F' then c as int - 'A' as int + 10
    else 16
  }

  predicate IsDigit(c: char, radix: nat) {
    DigitValue(c) < radix
  }

  /** The longest prefix of `s` made of digits in base `radix`. */
  function DigitPrefix(s: string, radix: nat): (d: string)
    ensures d <= s
    ensures forall i :: 0 <= i < |d| ==> IsDigit(d[i], radix)
    ensures |d| == |s| || !IsDigit(s[|d|], radix)
  {
    if s != [] && IsDigit(s[0], radix) then [s[0]] + DigitPrefix(s[1..], radix) else []
  }

  /** The number that the digit string `d` denotes in base `radix`. */
  function DigitsValue(d: string, radix: nat): nat {
    if d == [] then 0 else DigitsValue(d[..|d| - 1], radix) * radix + DigitValue(d[|d| - 1])
  }

  /** The numeral after an optional sign: base 16 after a `0x`/`0X` prefix, base 10 otherwise,
      converting the longest digit prefix; NaN when that prefix is empty. */
  function ParseUnsigned(u: string): JsInt {
    var hex := |u| >= 2 && u[0] == '0' && (u[1] == 'x' || u[1] == 'X');
    var radix := if hex then 16 else 10;
    var digits := DigitPrefix(if hex then u[2..] else u, radix);
    if digits == [] then NaN else Num(DigitsValue(digits, radix))
  }

  function Negate(x: JsInt): JsInt {
    match x
    case Num(n) => Num(-n)
    case NaN => NaN
  }

  /** `parseInt(s)` with no radix: skip leading white space, read one optional sign, then the
      numeral. */
  function ParseInt(s: string): JsInt {
    var t := TrimStart(s);
    if t != [] && t[0] == '-' then Negate(ParseUnsigned(t[1..]))
    else if t != [] && t[0] == '+' then ParseUnsigned(t[1..])
    else ParseUnsigned(t)
  }

  // ---------------------------------------------------------------- toString

  function DecimalDigit(d: nat): (c: char)
    requires d < 10
    ensures '0' <= c <= '9' && DigitValue(c) == d
  {
    "0123456789"[d]
  }

  /** The decimal numeral of `n`, without leading zeros. */
  function NatToString(n: nat): (s: string)
    ensures s != [] && forall i :: 0 <= i < |s| ==> '0' <= s[i] <= '9'
    ensures s[0] == '0' ==> |s| == 1
  {
    if n < 10 then [DecimalDigit(n)] else NatToString(n / 10) + [DecimalDigit(n % 10)]
  }

  /** `String(i)` for an integer `i` (below the range where JavaScript switches to exponents). */
  function IntToString(i: int): string {
    if i < 0 then "-" + NatToString(-i) else NatToString(i)
  }

  /** The numerals the paging defaults are written as. */
  lemma SmallNumerals()
    ensures IntToString(0) == "0" && IntToString(1) == "1" && IntToString(25) == "25"
  {
    assert NatToString(2) == "2";
  }

  /** `String(x)` for a number that is an integer or NaN. */
  function NumberToString(x: JsInt): string {
    match x
    case Num(n) => IntToString(n)
    case NaN => "NaN"
  }

  lemma {:induction false} NatToStringValue(n: nat)
    ensures DigitsValue(NatToString(n), 10) == n
  {
    if n >= 10 {
      NatToStringValue(n / 10);
      var s := NatToString(n);
      assert s[..|s| - 1] == NatToString(n / 10);
    }
  }

  lemma {:induction false} DigitPrefixOfDigits(s: string, radix: nat)
    requires forall i :: 0 <= i < |s| ==> IsDigit(s[i], radix)
    ensures DigitPrefix(s, radix) == s
  {
    if s != [] {
      DigitPrefixOfDigits(s[1..], radix);
    }
  }

  lemma ParseUnsignedOfNatToString(m: nat)
    ensures ParseUnsigned(NatToString(m)) == Num(m)
  {
    var digits := NatToString(m);
    assert !(|digits| >= 2 && digits[0] == '0');
    forall k | 0 <= k < |digits| ensures IsDigit(digits[k], 10) {
    }
    DigitPrefixOfDigits(digits, 10);
    NatToStringValue(m);
  }

  lemma ParseSignedNumeral(digits: string, negative: bool)
    requires digits != [] && '0' <= digits[0] <= '9'
    ensures ParseInt(if negative then "-" + digits else digits)
         == if negative then Negate(ParseUnsigned(digits)) else ParseUnsigned(digits)
  {
    var s := if negative then "-" + digits else digits;
    assert s[0] == (if negative then '-' else digits[0]);
    assert !IsJsWhiteSpace(s[0]);
    assert TrimStart(s) == s;
    if negative {
      assert s[1..] == digits;
    }
  }

  /** Reading back what `toString` wrote gives the integer again: a profile id stored as
      `id.toString()` and read with `parseInt` is the same id. */
  lemma ParseIntOfIntToString(i: int)
    ensures ParseInt(IntToString(i)) == Num(i)
  {
    var m: nat := if i < 0 then -i else i;
    ParseUnsignedOfNatToString(m);
    ParseSignedNumeral(NatToString(m), i < 0);
  }

  // ---------------------------------------------------------------- encodeURIComponent

  /** The characters `encodeURIComponent` leaves as they are. */
  predicate IsUriUnreserved(c: char) {
    || ('A' <= c <= 'Z') || ('a' <= c <= 'z') || ('0' <= c <= '9')
    || c == '-' || c == '_' || c == '.' || c == '!' || c == '~' || c == '*' || c == '\'' || c == '(' || c == ')'
  }

  /** The UTF-8 encoding of one character. */
  function Utf8(c: char): (bytes: seq<nat>)
    ensures 1 <= |bytes| <= 4 && forall k :: 0 <= k < |bytes| ==> bytes[k] < 256
  {
    var v := c as int;
    if v < 0x80 then [v]
    else if v < 0x800 then [0xC0 + v / 0x40, 0x80 + v % 0x40]
    else if v < 0x10000 then [0xE0 + v / 0x1000, 0x80 + (v / 0x40) % 0x40, 0x80 + v % 0x40]
    else [0xF0 + v / 0x40000, 0x80 + (v / 0x1000) % 0x40, 0x80 + (v / 0x40) % 0x40, 0x80 + v % 0x40]
  }

  /** `%XY` with upper-case hexadecimal digits for each byte. */
  function PercentEncode(bytes: seq<nat>): string
    requires forall k :: 0 <= k < |bytes| ==> bytes[k] < 256
  {
    if bytes == [] then []
    else ['%', "0123456789ABCDEF"[bytes[0] / 16], "0123456789ABCDEF"[bytes[0] % 16]] + PercentEncode(bytes[1..])
  }

  function EncodeChar(c: char): string {
    if IsUriUnreserved(c) then [c] else PercentEncode(Utf8(c))
  }

  /** `encodeURIComponent(s)`. */
  function EncodeUriComponent(s: string): string {
    if s == [] then [] else EncodeChar(s[0]) + EncodeUriComponent(s[1..])
  }

  /** The lookup prefix `mbid:` keeps its letters and percent-encodes its colon. */
  lemma EncodeMbidPrefix()
    ensures EncodeUriComponent("mbid:") == "mbid%3A"
  {
    assert Utf8(':') == [58];
    assert PercentEncode([58]) == "%3A" by {
      assert [58][1..] == [];
    }
    assert EncodeUriComponent(":") == "%3A" by {
      assert ":"[1..] == [];
    }
    assert EncodeUriComponent("d:") == "d%3A" by {
      assert "d:"[1..] == ":";
    }
    assert EncodeUriComponent("id:") == "id%3A" by {
      assert "id:"[1..] == "d:";
    }
    assert EncodeUriComponent("bid:") == "bid%3A" by {
      assert "bid:"[1..] == "id:";
    }
    assert "mbid:"[1..] == "bid:";
  }

  /** Encoding works character by character, so it distributes over concatenation. */
  lemma {:induction false} EncodeUriComponentConcat(a: string, b: string)
    ensures EncodeUriComponent(a + b) == EncodeUriComponent(a) + EncodeUriComponent(b)
  {
    if a != [] {
      assert (a + b)[0] == a[0] && (a + b)[1..] == a[1..] + b;
      calc {
        EncodeUriComponent(a + b);
        EncodeChar((a + b)[0]) + EncodeUriComponent((a + b)[1..]);
        EncodeChar(a[0]) + EncodeUriComponent(a[1..] + b);
        { EncodeUriComponentConcat(a[1..], b); }
        EncodeChar(a[0]) + (EncodeUriComponent(a[1..]) + EncodeUriComponent(b));
        (EncodeChar(a[0]) + EncodeUriComponent(a[1..])) + EncodeUriComponent(b);
        EncodeUriComponent(a) + EncodeUriComponent(b);
      }
    } else {
      assert a + b == b;
    }
  }

  /** A string of unreserved characters (a MusicBrainz id, for one) is sent as it is. */
  lemma {:induction false} EncodeUnreservedIsIdentity(s: string)
    requires forall i :: 0 <= i < |s| ==> IsUriUnreserved(s[i])
    ensures EncodeUriComponent(s) == s
  {
    if s != [] {
      EncodeUnreservedIsIdentity(s[1..]);
    }
  }
}
