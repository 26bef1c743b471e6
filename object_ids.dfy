/**
 * Storage identifiers and their external string form.
 *
 * The document store keys every car by a 12-byte identifier that it assigns on
 * insert. Responses carry it as a string of 24 lower-case hexadecimal digits
 * (`str(ObjectId)`), and the handlers turn a path parameter back into an
 * identifier with `ObjectId(id)`, which accepts exactly 24 hexadecimal digits
 * of either case and raises on anything else. An identifier is modelled by its
 * numeric value.
 */
module ObjectIds {
  import opened Wrappers

  /** Number of hexadecimal digits in the string form of an identifier. */
  const IdLength: nat := 24

  function Pow16(n: nat): (p: nat)
    ensures p >= 1
  {
    if n == 0 then 1 else 16 * Pow16(n - 1)
  }

  /** One more than the largest identifier: 16^24, that is 2^96. */
  const IdLimit: nat := Pow16(IdLength)

  type ObjectId = k: nat | k < IdLimit

  predicate IsHexDigit(c: char) {
    '0' <= c <= '9' || 'a' <= c <= 'f' || 'A' <= c <= 'F'
  }

  predicate IsLowerHexDigit(c: char) {
    '0' <= c <= '9' || 'a' <= c <= 'f'
  }

  predicate AllHex(s: string) {
    forall i :: 0 <= i < |s| ==> IsHexDigit(s[i])
  }

  /** The shape `ObjectId(id)` accepts. */
  predicate IsIdShape(s: string) {
    |s| == IdLength && AllHex(s)
  }

  function DigitValue(c: char): (d: nat)
    requires IsHexDigit(c)
    ensures d < 16
  {
    if '0' <= c <= '9' then c as nat - '0' as nat
    else if 'a' <= c <= 'f' then c as nat - 'a' as nat + 10
    else c as nat - 'A' as nat + 10
  }

  function HexChar(d: nat): (c: char)
    requires d < 16
    ensures IsLowerHexDigit(c) && DigitValue(c) == d
  {
    if d < 10 then ('0' as nat + d) as char else ('a' as nat + d - 10) as char
  }

  /** ASCII lower-casing of one character. */
  function LowerChar(c: char): char {
    if 'A' <= c <= 'Z' then (c as nat + 32) as char else c
  }

  function Lower(s: string): (r: string)
    ensures |r| == |s|
  {
    seq(|s|, i requires 0 <= i < |s| => LowerChar(s[i]))
  }

  /** The `width` low-order hexadecimal digits of `n`, most significant first. */
  function HexDigits(n: nat, width: nat): (s: string)
    ensures |s| == width
    ensures forall i :: 0 <= i < |s| ==> IsLowerHexDigit(s[i])
  {
    if width == 0 then [] else HexDigits(n / 16, width - 1) + [HexChar(n % 16)]
  }

  /** The number a string of hexadecimal digits denotes, most significant first. */
  function HexValue(s: string): (v: nat)
    requires AllHex(s)
    ensures v < Pow16(|s|)
  {
    if s == [] then 0
    else
      var init := s[..|s| - 1];
      assert AllHex(init) by { assert forall i :: 0 <= i < |init| ==> init[i] == s[i]; }
      var a := HexValue(init);
      assert 16 * a <= 16 * (Pow16(|init|) - 1);
      16 * a + DigitValue(s[|s| - 1])
  }

  /** `str(ObjectId)`: the 24 lower-case digits of an identifier. */
  function FormatId(k: ObjectId): (s: string)
    ensures IsIdShape(s)
    ensures forall i :: 0 <= i < |s| ==> IsLowerHexDigit(s[i])
  {
    HexDigits(k, IdLength)
  }

  /** `ObjectId(s)`: `None` where the constructor would raise. */
  function ParseId(s: string): (r: Option<ObjectId>)
    ensures r.Some? <==> IsIdShape(s)
  {
    if IsIdShape(s) then Some(HexValue(s)) else None
  }

  lemma {:induction false} HexValueOfDigits(n: nat, width: nat)
    requires n < Pow16(width)
    ensures HexValue(HexDigits(n, width)) == n
  {
    if width > 0 {
      var s := HexDigits(n, width);
      assert s[..|s| - 1] == HexDigits(n / 16, width - 1);
      HexValueOfDigits(n / 16, width - 1);
    }
  }

  lemma {:induction false} DigitsOfHexValue(s: string)
    requires AllHex(s)
    ensures HexDigits(HexValue(s), |s|) == Lower(s)
  {
    if s != [] {
      var init := s[..|s| - 1];
      var c := s[|s| - 1];
      assert AllHex(init) by { assert forall i :: 0 <= i < |init| ==> init[i] == s[i]; }
      DigitsOfHexValue(init);
      var v := HexValue(s);
      assert v / 16 == HexValue(init) && v % 16 == DigitValue(c);
      assert HexChar(DigitValue(c)) == LowerChar(c);
      assert Lower(s) == Lower(init) + [LowerChar(c)];
    }
  }

  /** Formatting an identifier and parsing the string gives the identifier back. */
  lemma ParseFormatId(k: ObjectId)
    ensures ParseId(FormatId(k)) == Some(k)
  {
    HexValueOfDigits(k, IdLength);
  }

  /** A well-formed string parses to the identifier whose string form is its lower-case spelling. */
  lemma FormatParseId(s: string)
    requires IsIdShape(s)
    ensures ParseId(s).Some? && FormatId(ParseId(s).value) == Lower(s)
  {
    DigitsOfHexValue(s);
  }

  /** Distinct identifiers have distinct string forms. */
  lemma FormatIdInjective(j: ObjectId, k: ObjectId)
    requires j != k
    ensures FormatId(j) != FormatId(k)
  {
    ParseFormatId(j);
    ParseFormatId(k);
  }
}
