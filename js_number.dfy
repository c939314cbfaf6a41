/**
 * The two JavaScript number conversions the vault client relies on:
 * `parseInt(text, 16)`, which turns the wallet's `chainChanged` payload into
 * a network id, and `Number.prototype.toString()` on a non-negative integer,
 * which the template literal of `formatTimeLeft` applies to each component.
 * Both are written after the ECMAScript algorithms, over unbounded integers.
 */
module JsNumber {

  /** What `parseInt` returns: NaN, or an integer. A negative zero is read as 0. */
  datatype JsInt = NaN | Int(value: int)

  /** StrWhiteSpaceChar: the WhiteSpace and LineTerminator code points parseInt skips. */
  predicate IsStrWhiteSpace(c: char) {
    || c == '\t' || c == '\U{B}' || c == '\U{C}' || c == ' ' || c == '\U{A0}' || c == '\U{FEFF}'
    || c == '\n' || c == '\r' || c == '\U{2028}' || c == '\U{2029}'
    || c == '\U{1680}' || ('\U{2000}' <= c <= '\U{200A}') || c == '\U{202F}' || c == '\U{205F}'
    || c == '\U{3000}'
  }

  predicate IsHexDigit(c: char) {
    '0' <= c <= '9' || 'a' <= c <= 'f' || 'A' <= c <= 'F'
  }

  predicate IsDecimalDigit(c: char) {
    '0' <= c <= '9'
  }

  predicate AllHexDigits(s: string) {
    forall i :: 0 <= i < |s| ==> IsHexDigit(s[i])
  }

  predicate AllDecimalDigits(s: string) {
    forall i :: 0 <= i < |s| ==> IsDecimalDigit(s[i])
  }

  /** The string left once the leading white space is removed. */
  function TrimStart(s: string): (r: string)
    ensures |r| <= |s| && r == s[|s| - |r|..]
    ensures r == [] || !IsStrWhiteSpace(r[0])
  {
    if s != [] && IsStrWhiteSpace(s[0]) then TrimStart(s[1..]) else s
  }

  /** The value of one hexadecimal digit, either case. */
  function HexDigitValue(c: char): (v: nat)
    requires IsHexDigit(c)
    ensures v < 16
  {
    if '0' <= c <= '9' then c as int - '0' as int
    else if 'a' <= c <= 'f' then c as int - 'a' as int + 10
    else c as int - 'A' as int + 10
  }

  /** The longest prefix of `s` made of hexadecimal digits: the digits parseInt reads. */
  function HexDigitsPrefix(s: string): (r: string)
    ensures r <= s && AllHexDigits(r)
    ensures |r| == |s| || !IsHexDigit(s[|r|])
  {
    if s != [] && IsHexDigit(s[0]) then [s[0]] + HexDigitsPrefix(s[1..]) else []
  }

  /** The value of a hexadecimal numeral, most significant digit first. */
  function HexValue(digits: string): nat
    requires AllHexDigits(digits)
  {
    if digits == [] then 0
    else HexValue(digits[..|digits| - 1]) * 16 + HexDigitValue(digits[|digits| - 1])
  }

  /** The text after an optional leading sign. */
  function DropSign(t: string): (r: string)
    ensures |r| <= |t| && r == t[|t| - |r|..]
  {
    if t != [] && (t[0] == '-' || t[0] == '+') then t[1..] else t
  }

  /** The text after an optional "0x" or "0X". */
  function DropHexPrefix(u: string): (r: string)
    ensures |r| <= |u| && r == u[|u| - |r|..]
  {
    if |u| >= 2 && u[0] == '0' && (u[1] == 'x' || u[1] == 'X') then u[2..] else u
  }

  /**
   * `parseInt(s, 16)`: skip leading white space, take an optional sign, drop an
   * optional "0x" or "0X", then read the longest run of hexadecimal digits;
   * NaN when that run is empty. Whatever follows the run is ignored.
   */
  function ParseInt16(s: string): (r: JsInt)
    ensures r.Int? ==> exists k :: 0 <= k < |s| && IsHexDigit(s[k])
    ensures r.Int? && r.value < 0 ==> '-' in s
  {
    var t := TrimStart(s);
    var u := DropHexPrefix(DropSign(t));
    var digits := HexDigitsPrefix(u);
    if digits == [] then NaN
    else
      assert IsHexDigit(s[|s| - |u|]) by {
        assert digits[0] == u[0];
      }
      if t[0] == '-' then assert s[|s| - |t|] == '-'; Int(-(HexValue(digits) as int))
      else Int(HexValue(digits))
  }

  /** Lower-case hexadecimal digit for a value below 16. */
  function HexDigit(d: nat): (c: char)
    requires d < 16
    ensures IsHexDigit(c) && HexDigitValue(c) == d
  {
    if d < 10 then ('0' as int + d) as char else ('a' as int + d - 10) as char
  }

  /** The shortest hexadecimal numeral of `n`, no leading zero. */
  function ToHexDigits(n: nat): (r: string)
    ensures |r| >= 1 && AllHexDigits(r)
    ensures r[0] == '0' ==> n == 0
  {
    if n < 16 then [HexDigit(n)] else ToHexDigits(n / 16) + [HexDigit(n % 16)]
  }

  /**
   * The "0x"-prefixed quantity an EIP-1193 wallet emits as the payload of a
   * `chainChanged` event, for example "0x2105" for 8453.
   */
  function HexQuantity(n: nat): string {
    "0x" + ToHexDigits(n)
  }

  lemma {:induction false} HexValueOfDigits(n: nat)
    ensures HexValue(ToHexDigits(n)) == n
  {
    if n >= 16 {
      var init := ToHexDigits(n / 16);
      var r := init + [HexDigit(n % 16)];
      assert r[..|r| - 1] == init;
      HexValueOfDigits(n / 16);
    }
  }

  lemma {:induction false} HexPrefixOfAllDigits(s: string, tail: string)
    requires AllHexDigits(s)
    requires tail == [] || !IsHexDigit(tail[0])
    ensures HexDigitsPrefix(s + tail) == s
  {
    if s != [] {
      assert (s + tail)[0] == s[0];
      assert (s + tail)[1..] == s[1..] + tail;
      HexPrefixOfAllDigits(s[1..], tail);
    } else {
      assert s + tail == tail;
    }
  }

  /** The network id a wallet announces reads back exactly: parseInt inverts HexQuantity. */
  lemma ParseInt16Quantity(n: nat)
    ensures ParseInt16(HexQuantity(n)) == Int(n)
  {
    var digits := ToHexDigits(n);
    var q := HexQuantity(n);
    assert TrimStart(q) == q;
    assert digits + [] == digits;
    HexPrefixOfAllDigits(digits, []);
    HexValueOfDigits(n);
    ParseInt16Of(q, q, digits, digits);
  }

  /**
   * The same holds whatever white space precedes the quantity and whatever
   * text that does not start with a hexadecimal digit follows it.
   */
  lemma ParseInt16ReadsQuantity(space: string, n: nat, tail: string)
    requires forall i :: 0 <= i < |space| ==> IsStrWhiteSpace(space[i])
    requires tail == [] || !IsHexDigit(tail[0])
    ensures ParseInt16(space + HexQuantity(n) + tail) == Int(n)
  {
    var digits := ToHexDigits(n);
    var rest := HexQuantity(n) + tail;
    QuantityThenTail(n, tail);
    TrimmedPrefix(space, rest);
    HexPrefixOfAllDigits(digits, tail);
    HexValueOfDigits(n);
    ParseInt16Of(space + rest, rest, digits + tail, digits);
  }

  lemma QuantityThenTail(n: nat, tail: string)
    ensures |HexQuantity(n) + tail| >= 2
    ensures (HexQuantity(n) + tail)[0] == '0' && (HexQuantity(n) + tail)[1] == 'x'
    ensures (HexQuantity(n) + tail)[2..] == ToHexDigits(n) + tail
    ensures forall space: string :: space + HexQuantity(n) + tail == space + (HexQuantity(n) + tail)
  {
  }

  /** parseInt's steps, one at a time, on a text whose trimmed form is an unsigned "0x" numeral. */
  lemma ParseInt16Of(s: string, rest: string, body: string, digits: string)
    requires TrimStart(s) == rest
    requires |rest| >= 2 && rest[0] == '0' && rest[1] == 'x' && rest[2..] == body
    requires HexDigitsPrefix(body) == digits && digits != []
    ensures ParseInt16(s) == Int(HexValue(digits))
  {
    assert DropSign(rest) == rest;
    assert DropHexPrefix(rest) == body;
  }

  /** The payload wallets send for Base mainnet selects network 8453. */
  lemma ParseInt16BaseChain()
    ensures ParseInt16("0x2105") == Int(8453)
  {
    assert ToHexDigits(2) == "2";
    assert ToHexDigits(33) == "21";
    assert ToHexDigits(528) == "210";
    assert HexQuantity(8453) == "0x2105";
    ParseInt16Quantity(8453);
  }

  /** A payload without any hexadecimal digit yields NaN, which matches no network. */
  lemma ParseInt16NoDigits(s: string)
    requires forall i :: 0 <= i < |s| ==> !IsHexDigit(s[i])
    ensures ParseInt16(s) == NaN
  {
    var body := DropHexPrefix(DropSign(TrimStart(s)));
    assert body == [] || body[0] == s[|s| - |body|];
  }

  lemma {:induction false} TrimmedPrefix(space: string, rest: string)
    requires forall i :: 0 <= i < |space| ==> IsStrWhiteSpace(space[i])
    requires rest == [] || !IsStrWhiteSpace(rest[0])
    ensures TrimStart(space + rest) == rest
  {
    if space != [] {
      assert (space + rest)[1..] == space[1..] + rest;
      TrimmedPrefix(space[1..], rest);
    } else {
      assert space + rest == rest;
    }
  }

  /** Decimal digit for a value below 10. */
  function DecimalDigit(d: nat): (c: char)
    requires d < 10
    ensures IsDecimalDigit(c)
  {
    ('0' as int + d) as char
  }

  /**
   * `Number.prototype.toString()` of a non-negative integer below 10^21:
   * its shortest decimal numeral.
   */
  function ToDecimalString(n: nat): (r: string)
    ensures |r| >= 1 && AllDecimalDigits(r)
    ensures r[0] == '0' ==> r == "0"
  {
    if n < 10 then [DecimalDigit(n)] else ToDecimalString(n / 10) + [DecimalDigit(n % 10)]
  }

  /** The value of a decimal numeral, most significant digit first. */
  function DecimalValue(digits: string): nat
    requires AllDecimalDigits(digits)
  {
    if digits == [] then 0
    else DecimalValue(digits[..|digits| - 1]) * 10 + (digits[|digits| - 1] as int - '0' as int)
  }

  /** Every count is displayed by a numeral that reads back as that count. */
  lemma {:induction false} DecimalRoundTrip(n: nat)
    ensures DecimalValue(ToDecimalString(n)) == n
  {
    if n >= 10 {
      var init := ToDecimalString(n / 10);
      var r := init + [DecimalDigit(n % 10)];
      assert r[..|r| - 1] == init;
      DecimalRoundTrip(n / 10);
    }
  }

  /** Distinct counts are displayed differently. */
  lemma ToDecimalStringInjective(a: nat, b: nat)
    requires ToDecimalString(a) == ToDecimalString(b)
    ensures a == b
  {
    DecimalRoundTrip(a);
    DecimalRoundTrip(b);
  }
}
