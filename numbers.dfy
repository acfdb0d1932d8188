/**
 * Integer text as JavaScript reads and writes it: the digits of a radix, the global
 * `parseInt(string, radix)` (section 19.2.5 of ECMA-262) and `Number.prototype.toString(radix)`
 * for integral numbers. The wallet adapters use them to turn a chain id into a `0x` hex
 * quantity (src/wallets/EVMWallet.js:15,22), a value into hex (:71) and a hex balance back into
 * an integer (:58).
 */
module Numbers {

  /** The value of a digit character in any radix up to 36 ('0'..'9', then 'a'..'z' or 'A'..'Z'),
      or 36 for a character that is no digit at all. */
  function CharValue(c: char): (v: nat)
    ensures v <= 36
  {
    if '0' <= c <= '9' then (c - '0') as nat
    else if 'a' <= c <= 'z' then (c - 'a') as nat + 10
    else if 'A' <= c <= 'Z' then (c - 'A') as nat + 10
    else 36
  }

  /** The lower-case digit character for `d`, as `toString(radix)` writes it. */
  function DigitChar(d: nat): (c: char)
    requires d < 36
    ensures CharValue(c) == d
    ensures !('A' <= c <= 'Z')
  {
    if d < 10 then ('0' as int + d) as char else ('a' as int + d - 10) as char
  }

  predicate IsDigit(c: char, radix: nat) {
    CharValue(c) < radix
  }

  predicate AllDigits(s: string, radix: nat) {
    forall i :: 0 <= i < |s| ==> IsDigit(s[i], radix)
  }

  /** The digit string `toString(radix)` produces for a natural number: lower-case digits and no
      leading zero. */
  predicate Canonical(s: string, radix: nat) {
    && |s| >= 1
    && (forall i :: 0 <= i < |s| ==> IsDigit(s[i], radix) && !('A' <= s[i] <= 'Z'))
    && (|s| > 1 ==> s[0] != '0')
  }

  lemma MulAtLeast(k: int, radix: nat)
    requires k >= 1
    ensures k * radix >= radix
  {
    var t: nat := k - 1;
    assert k * radix == t * radix + radix;
  }

  /** One step of writing `n` in `radix`: the quotient is a smaller positive number. */
  lemma DivStep(n: nat, radix: nat)
    requires 2 <= radix <= n
    ensures 1 <= n / radix < n && n % radix < radix
    ensures n == (n / radix) * radix + n % radix
  {
    var q := n / radix;
    var t: nat := radix - 2;
    assert q * radix == q * t + 2 * q;
  }

  /** Appending digit `d` to the digits of `v` and dividing by the radix gives `v` back. */
  lemma DivModOfDigits(v: nat, d: nat, radix: nat)
    requires d < radix
    ensures (v * radix + d) / radix == v && (v * radix + d) % radix == d
  {
    var n := v * radix + d;
    var q, r := n / radix, n % radix;
    assert (q - v) * radix == d - r;
    if q > v {
      MulAtLeast(q - v, radix);
    } else if q < v {
      MulAtLeast(v - q, radix);
    }
  }

  /** The digits of `n` in `radix`, most significant first. */
  function ToRadix(n: nat, radix: nat): (s: string)
    requires 2 <= radix <= 36
    ensures Canonical(s, radix)
    ensures s[0] == '0' <==> n == 0
    decreases n
  {
    if n < radix then [DigitChar(n)]
    else
      DivStep(n, radix);
      ToRadix(n / radix, radix) + [DigitChar(n % radix)]
  }

  /** The number a string of digits denotes in `radix` (upper- and lower-case letters alike). */
  function FromDigits(s: string, radix: nat): nat
    requires AllDigits(s, radix)
  {
    if s == [] then 0 else FromDigits(s[..|s| - 1], radix) * radix + CharValue(s[|s| - 1])
  }

  /** Reading back the digits of `n` gives `n`. */
  lemma {:induction false} FromDigitsToRadix(n: nat, radix: nat)
    requires 2 <= radix <= 36
    ensures FromDigits(ToRadix(n, radix), radix) == n
    decreases n
  {
    var s := ToRadix(n, radix);
    if n >= radix {
      DivStep(n, radix);
      FromDigitsToRadix(n / radix, radix);
      assert s[..|s| - 1] == ToRadix(n / radix, radix);
      assert CharValue(s[|s| - 1]) == n % radix;
    }
  }

  lemma {:induction false} FromDigitsLeadingNonZero(s: string, radix: nat)
    requires 2 <= radix <= 36 && AllDigits(s, radix)
    requires |s| >= 1 && CharValue(s[0]) >= 1
    ensures FromDigits(s, radix) >= 1
    decreases |s|
  {
    if |s| > 1 {
      FromDigitsLeadingNonZero(s[..|s| - 1], radix);
    }
  }

  /** Writing out the number a canonical digit string denotes gives that string back: the digit
      writer is a bijection between naturals and canonical strings. */
  lemma {:induction false} ToRadixFromDigits(s: string, radix: nat)
    requires 2 <= radix <= 36
    requires Canonical(s, radix)
    ensures ToRadix(FromDigits(s, radix), radix) == s
    decreases |s|
  {
    if |s| == 1 {
      assert s == [DigitChar(CharValue(s[0]))];
    } else {
      var p := s[..|s| - 1];
      var d := CharValue(s[|s| - 1]);
      assert Canonical(p, radix);
      FromDigitsLeadingNonZero(p, radix);
      ToRadixFromDigits(p, radix);
      var v := FromDigits(p, radix);
      assert FromDigits(s, radix) == v * radix + d;
      DivModOfDigits(v, d, radix);
      MulAtLeast(v, radix);
      assert DigitChar(d) == s[|s| - 1];
      assert s == p + [s[|s| - 1]];
    }
  }

  /** Distinct naturals are written differently in every radix. */
  lemma ToRadixInjective(m: nat, n: nat, radix: nat)
    requires 2 <= radix <= 36
    requires ToRadix(m, radix) == ToRadix(n, radix)
    ensures m == n
  {
    FromDigitsToRadix(m, radix);
    FromDigitsToRadix(n, radix);
  }

  /** `n.toString(radix)` for an integral number `n` and a radix other than 10: a minus sign for a
      negative number, then the digits of its magnitude. */
  function IntToRadix(n: int, radix: nat): string
    requires 2 <= radix <= 36
  {
    if n < 0 then "-" + ToRadix(-n, radix) else ToRadix(n, radix)
  }

  function Pow10(k: nat): (p: nat)
    ensures p >= 1
  {
    if k == 0 then 1 else 10 * Pow10(k - 1)
  }

  function StripTrailingZeros(s: string): (r: string)
    ensures |r| <= |s| && r == s[..|r|]
  {
    if s != [] && s[|s| - 1] == '0' then StripTrailingZeros(s[..|s| - 1]) else s
  }

  /** `String(n)` for an integral number `n`: plain decimal below 10^21 in magnitude, otherwise
      the exponent notation "d.ddde+k" of Number::toString (section 6.1.6.1.20 of ECMA-262). */
  function DecimalString(n: int): string
  {
    if n < 0 then "-" + DecimalMagnitude(-n) else DecimalMagnitude(n)
  }

  function DecimalMagnitude(n: nat): string
  {
    if n < Pow10(21) then ToRadix(n, 10)
    else
      var digits := ToRadix(n, 10);
      var mantissa := StripTrailingZeros(digits);
      var exponent := "e+" + ToRadix(|digits| - 1, 10);
      if |mantissa| <= 1 then digits[..1] + exponent
      else mantissa[..1] + "." + mantissa[1..] + exponent
  }

  /** What `parseInt` produces: an integer (minus zero is read as zero) or NaN. */
  datatype Parsed = Int(value: int) | NotANumber

  /** The white space and line terminators `parseInt` skips before the number. */
  predicate IsJsSpace(c: char) {
    || c == '\t' || c == '\n' || c == '\U{000B}' || c == '\U{000C}' || c == '\r' || c == ' '
    || c == '\U{00A0}' || c == '\U{1680}' || '\U{2000}' <= c <= '\U{200A}'
    || c == '\U{2028}' || c == '\U{2029}' || c == '\U{202F}' || c == '\U{205F}'
    || c == '\U{3000}' || c == '\U{FEFF}'
  }

  function TrimStart(s: string): string
  {
    if s != [] && IsJsSpace(s[0]) then TrimStart(s[1..]) else s
  }

  /** The length of the longest prefix of `s` made of digits of `radix`. */
  function DigitPrefixLength(s: string, radix: nat): (k: nat)
    ensures k <= |s|
    ensures AllDigits(s[..k], radix)
    ensures k < |s| ==> !IsDigit(s[k], radix)
  {
    if s == [] || !IsDigit(s[0], radix) then 0
    else
      var k := DigitPrefixLength(s[1..], radix);
      assert s[..k + 1] == [s[0]] + s[1..][..k];
      k + 1
  }

  /** `parseInt(input, radix)` (section 19.2.5 of ECMA-262), with `radix` already converted to an
      integer and 0 standing for an absent radix. Skips leading white space, reads an optional
      sign, takes a "0x"/"0X" prefix as radix 16 when the radix is absent or 16, and reads the
      longest run of digits that follows; no digits give NaN. */
  function ParseInt(input: string, radix: int): Parsed
  {
    var s := TrimStart(input);
    if radix != 0 && (radix < 2 || radix > 36) then NotANumber
    else if |s| > 0 && s[0] == '-' then Negate(ParseMagnitude(s[1..], radix))
    else ParseMagnitude(if |s| > 0 && s[0] == '+' then s[1..] else s, radix)
  }

  function Negate(p: Parsed): Parsed {
    match p
    case Int(v) => Int(-v)
    case NotANumber => NotANumber
  }

  /** The part of `parseInt` after the sign: the radix prefix, then the digits. */
  function ParseMagnitude(unsigned: string, radix: int): Parsed
    requires radix == 0 || 2 <= radix <= 36
  {
    var hexPrefix := (radix == 0 || radix == 16) && |unsigned| >= 2 && unsigned[0] == '0'
                     && (unsigned[1] == 'x' || unsigned[1] == 'X');
    if hexPrefix then ReadDigits(unsigned[2..], 16)
    else ReadDigits(unsigned, if radix == 0 then 10 else radix)
  }

  /** The value of the longest run of digits at the start of `body`, or NaN when there is none. */
  function ReadDigits(body: string, radix: nat): Parsed
  {
    var z := body[..DigitPrefixLength(body, radix)];
    if z == [] then NotANumber else Int(FromDigits(z, radix))
  }

  /** A string made only of digits is read whole. */
  lemma AllDigitsPrefix(s: string, radix: nat)
    requires AllDigits(s, radix)
    ensures DigitPrefixLength(s, radix) == |s|
  {
  }

  /** The chain-id round trip: `parseInt` reads "0x" followed by the hex digits of `n` back as
      `n`, whether the radix is absent or 16. */
  lemma ParseHexQuantity(n: nat, radix: int)
    requires radix == 0 || radix == 16
    ensures ParseInt("0x" + ToRadix(n, 16), radix) == Int(n)
  {
    var text := "0x" + ToRadix(n, 16);
    var digits := ToRadix(n, 16);
    assert TrimStart(text) == text;
    assert text[2..] == digits;
    AllDigitsPrefix(digits, 16);
    assert digits[..|digits|] == digits;
    assert ReadDigits(digits, 16) == Int(FromDigits(digits, 16));
    FromDigitsToRadix(n, 16);
  }

  /** `parseInt` reads an optional minus sign followed by canonical digits as the number they
      denote. */
  lemma ParseNegative(digits: string, radix: int)
    requires radix == 0 || 2 <= radix <= 36
    ensures ParseInt("-" + digits, radix) == Negate(ParseMagnitude(digits, radix))
  {
    var text := "-" + digits;
    assert TrimStart(text) == text;
    assert text[1..] == digits;
  }

  lemma ParseUnsigned(digits: string, radix: int)
    requires radix == 0 || 2 <= radix <= 36
    requires |digits| > 0 && CharValue(digits[0]) < 36
    ensures ParseInt(digits, radix) == ParseMagnitude(digits, radix)
  {
    assert TrimStart(digits) == digits;
  }

  lemma ParseCanonicalMagnitude(digits: string, r: nat, radix: int)
    requires 2 <= r <= 36 && Canonical(digits, r)
    requires (radix == 0 && r == 10) || radix == r
    ensures ParseMagnitude(digits, radix) == Int(FromDigits(digits, r))
  {
    AllDigitsPrefix(digits, r);
    assert digits[..|digits|] == digits;
  }

  /** `parseInt` reads the text `IntToRadix` writes for any integer back as that integer, in
      radix 10 and in radix 16 (for 16 the text carries no prefix: "-ff" is read with radix 16). */
  lemma ParseIntToRadix(n: int, radix: nat)
    requires radix == 10 || radix == 16
    ensures ParseInt(IntToRadix(n, radix), radix) == Int(n)
  {
    var m: nat := if n < 0 then -n else n;
    ParseCanonicalMagnitude(ToRadix(m, radix), radix, radix);
    FromDigitsToRadix(m, radix);
    if n < 0 {
      ParseNegative(ToRadix(m, radix), radix);
    } else {
      ParseUnsigned(ToRadix(m, radix), radix);
    }
  }

  /** `parseInt(String(n))` is `n` for every integer printed in plain decimal. */
  lemma ParseDecimalString(n: int)
    requires n < Pow10(21) && -n < Pow10(21)
    ensures ParseInt(DecimalString(n), 0) == Int(n)
  {
    var m: nat := if n < 0 then -n else n;
    ParseCanonicalMagnitude(ToRadix(m, 10), 10, 0);
    FromDigitsToRadix(m, 10);
    if n < 0 {
      ParseNegative(ToRadix(m, 10), 0);
    } else {
      ParseUnsigned(ToRadix(m, 10), 0);
    }
  }
}
