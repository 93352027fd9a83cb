/** Field checks on a claim submission (internal/utility/validator.go): the
    drug code (NDC), the provider identifier (NPI), the quantity and the price,
    checked in that order, the first failure being reported. */
module Validator {
  import opened Common
  import opened Models

  const NdcLengthError: string := "invalid NDC format: must be 9-11 digits"
  const NdcNumericError: string := "invalid NDC format: must be numeric"
  const NpiLengthError: string := "invalid NPI: must be exactly 10 digits"
  const NpiNumericError: string := "invalid NPI: must be numeric"
  const QuantityError: string := "invalid quantity: must be greater than 0"
  const PriceError: string := "invalid price: must be non-negative"

  // ---------------------------------------------------------------------
  // Go's len: the number of bytes of the UTF-8 encoding

  function Utf8Width(c: char): nat {
    if c as int < 0x80 then 1 else if c as int < 0x800 then 2 else if c as int < 0x1_0000 then 3 else 4
  }

  function ByteLen(s: string): (n: nat)
    ensures |s| <= n
  {
    if s == [] then 0 else Utf8Width(s[0]) + ByteLen(s[1..])
  }

  predicate IsAscii(s: string) {
    forall i :: 0 <= i < |s| ==> s[i] as int < 0x80
  }

  lemma {:induction false} AsciiByteLen(s: string)
    requires IsAscii(s)
    ensures ByteLen(s) == |s|
  {
    if s != [] {
      assert IsAscii(s[1..]) by {
        forall i | 0 <= i < |s[1..]| ensures s[1..][i] as int < 0x80 { assert s[1..][i] == s[i + 1]; }
      }
      AsciiByteLen(s[1..]);
    }
  }

  // ---------------------------------------------------------------------
  // strconv.Atoi on a 64-bit platform

  predicate IsDigit(c: char) {
    '0' <= c <= '9'
  }

  predicate AllDigits(d: string) {
    forall i :: 0 <= i < |d| ==> IsDigit(d[i])
  }

  /** The text after an optional leading sign. */
  function Unsigned(s: string): (d: string)
    ensures |d| <= |s|
  {
    if |s| > 0 && (s[0] == '+' || s[0] == '-') then s[1..] else s
  }

  /** The syntax Atoi accepts in base 10: an optional `+` or `-`, then one or
      more ASCII digits (no spaces, no underscores). */
  predicate IsSignedDecimal(s: string) {
    Unsigned(s) != [] && AllDigits(Unsigned(s))
  }

  function DigitsValue(d: string): nat
    requires AllDigits(d)
  {
    if d == [] then 0 else DigitsValue(d[..|d| - 1]) * 10 + (d[|d| - 1] as int - '0' as int)
  }

  const Int64Bound: nat := 0x8000_0000_0000_0000

  /** Atoi succeeds iff the syntax is right and the value fits in int64. */
  predicate AtoiAccepts(s: string)
    ensures AtoiAccepts(s) ==> IsSignedDecimal(s) && ByteLen(s) == |s|
  {
    if !IsSignedDecimal(s) then false
    else
      DecimalIsAscii(s);
      if s[0] == '-' then DigitsValue(Unsigned(s)) <= Int64Bound else DigitsValue(Unsigned(s)) < Int64Bound
  }

  function Pow10(k: nat): nat {
    if k == 0 then 1 else 10 * Pow10(k - 1)
  }

  lemma {:induction false} DigitsValueBound(d: string)
    requires AllDigits(d)
    ensures DigitsValue(d) < Pow10(|d|)
  {
    if d != [] {
      var init := d[..|d| - 1];
      assert AllDigits(init) by {
        forall i | 0 <= i < |init| ensures IsDigit(init[i]) { assert init[i] == d[i]; }
      }
      DigitsValueBound(init);
      assert DigitsValue(d) <= (Pow10(|init|) - 1) * 10 + 9;
    }
  }

  lemma {:induction false} Pow10Monotone(j: nat, k: nat)
    requires j <= k
    ensures Pow10(j) <= Pow10(k)
  {
    if j < k {
      Pow10Monotone(j, k - 1);
    }
  }

  lemma {:induction false} Pow10Add(a: nat, b: nat)
    ensures Pow10(a + b) == Pow10(a) * Pow10(b)
  {
    if b > 0 {
      Pow10Add(a, b - 1);
    }
  }

  /** A numeral of at most 18 characters never overflows int64, so for the
      identifiers checked here "numeric" is purely a matter of syntax. */
  lemma ShortNumeralsFit(s: string)
    requires |s| <= 18
    ensures AtoiAccepts(s) <==> IsSignedDecimal(s)
  {
    if IsSignedDecimal(s) {
      var d := Unsigned(s);
      DigitsValueBound(d);
      Pow10Monotone(|d|, 18);
      assert Pow10(3) == 1000;
      Pow10Add(3, 3);
      Pow10Add(6, 6);
      Pow10Add(12, 6);
    }
  }

  /** A string Atoi accepts is ASCII, so its byte length is its length. */
  lemma DecimalIsAscii(s: string)
    requires IsSignedDecimal(s)
    ensures ByteLen(s) == |s|
  {
    assert IsAscii(s) by {
      forall i | 0 <= i < |s| ensures s[i] as int < 0x80 {
        if |s| > 0 && (s[0] == '+' || s[0] == '-') && i > 0 {
          assert s[i] == Unsigned(s)[i - 1];
        } else if !(|s| > 0 && (s[0] == '+' || s[0] == '-')) {
          assert s[i] == Unsigned(s)[i];
        }
      }
    }
    AsciiByteLen(s);
  }

  // ---------------------------------------------------------------------
  // The checks

  /** ValidateNDC: byte length 9..11 first, then Atoi. */
  function ValidateNDC(ndc: string): (err: Option<string>)
    ensures err.None? <==> 9 <= |ndc| <= 11 && IsSignedDecimal(ndc)
    ensures !(9 <= ByteLen(ndc) <= 11) ==> err == Some(NdcLengthError)
    ensures err.Some? ==> err == Some(NdcLengthError) || err == Some(NdcNumericError)
  {
    if ByteLen(ndc) < 9 || ByteLen(ndc) > 11 then
      if IsSignedDecimal(ndc) then DecimalIsAscii(ndc); Some(NdcLengthError) else Some(NdcLengthError)
    else if !AtoiAccepts(ndc) then
      if IsSignedDecimal(ndc) then DecimalIsAscii(ndc); ShortNumeralsFit(ndc); Some(NdcNumericError)
      else Some(NdcNumericError)
    else
      DecimalIsAscii(ndc);
      None
  }

  /** ValidateNPI: byte length exactly 10 first, then Atoi. There is no check
      digit test. */
  function ValidateNPI(npi: string): (err: Option<string>)
    ensures err.None? <==> |npi| == 10 && IsSignedDecimal(npi)
    ensures ByteLen(npi) != 10 ==> err == Some(NpiLengthError)
    ensures err.Some? ==> err == Some(NpiLengthError) || err == Some(NpiNumericError)
  {
    if ByteLen(npi) != 10 then
      if IsSignedDecimal(npi) then DecimalIsAscii(npi); Some(NpiLengthError) else Some(NpiLengthError)
    else if !AtoiAccepts(npi) then
      if IsSignedDecimal(npi) then DecimalIsAscii(npi); ShortNumeralsFit(npi); Some(NpiNumericError)
      else Some(NpiNumericError)
    else
      DecimalIsAscii(npi);
      None
  }

  function ValidateQuantity(quantity: real): (err: Option<string>)
    ensures err.None? <==> quantity > 0.0
    ensures err.Some? ==> err == Some(QuantityError)
  {
    if quantity <= 0.0 then Some(QuantityError) else None
  }

  function ValidatePrice(price: real): (err: Option<string>)
    ensures err.None? <==> price >= 0.0
    ensures err.Some? ==> err == Some(PriceError)
  {
    if price < 0.0 then Some(PriceError) else None
  }

  /** A request all four checks accept. */
  predicate WellFormed(r: ClaimRequest) {
    9 <= |r.ndc| <= 11 && IsSignedDecimal(r.ndc)
    && |r.npi| == 10 && IsSignedDecimal(r.npi)
    && r.quantity > 0.0 && r.price >= 0.0
  }

  /** ValidateClaimRequest: the checks in a fixed order, the first failure
      returned unchanged. */
  function ValidateClaimRequest(r: ClaimRequest): (err: Option<string>)
    ensures err.None? <==> WellFormed(r)
  {
    if ValidateNDC(r.ndc).Some? then ValidateNDC(r.ndc)
    else if ValidateNPI(r.npi).Some? then ValidateNPI(r.npi)
    else if ValidateQuantity(r.quantity).Some? then ValidateQuantity(r.quantity)
    else ValidatePrice(r.price)
  }

  // ---------------------------------------------------------------------
  // Properties

  /** Each message names exactly one failing condition, with the earlier
      checks passing: the messages identify the first failing check. */
  lemma FirstFailureReported(r: ClaimRequest)
    ensures ValidateClaimRequest(r) == Some(NdcLengthError) <==> !(9 <= ByteLen(r.ndc) <= 11)
    ensures ValidateClaimRequest(r) == Some(NdcNumericError) <==> 9 <= ByteLen(r.ndc) <= 11 && !AtoiAccepts(r.ndc)
    ensures ValidateClaimRequest(r) == Some(NpiLengthError) <==> ValidateNDC(r.ndc).None? && ByteLen(r.npi) != 10
    ensures ValidateClaimRequest(r) == Some(NpiNumericError)
        <==> ValidateNDC(r.ndc).None? && ByteLen(r.npi) == 10 && !AtoiAccepts(r.npi)
    ensures ValidateClaimRequest(r) == Some(QuantityError)
        <==> ValidateNDC(r.ndc).None? && ValidateNPI(r.npi).None? && r.quantity <= 0.0
    ensures ValidateClaimRequest(r) == Some(PriceError)
        <==> ValidateNDC(r.ndc).None? && ValidateNPI(r.npi).None? && r.quantity > 0.0 && r.price < 0.0
  {
  }

  /** Atoi syntax admits a leading sign, so a signed NPI passes. */
  lemma SignedNpiAccepted()
    ensures ValidateNPI("+123456789") == None
  {
    var s := "+123456789";
    assert Unsigned(s) == s[1..];
    assert AllDigits(s[1..]) by {
      forall i | 0 <= i < 9 ensures IsDigit(s[1..][i]) { assert s[1..][i] == s[i + 1]; }
    }
  }

  /** The same holds for a signed NDC. */
  lemma SignedNdcAccepted()
    ensures ValidateNDC("-12345678") == None
  {
    var s := "-12345678";
    assert Unsigned(s) == s[1..];
    assert AllDigits(s[1..]) by {
      forall i | 0 <= i < 8 ensures IsDigit(s[1..][i]) { assert s[1..][i] == s[i + 1]; }
    }
  }

  /** The length check counts bytes: eight characters, one of them two bytes
      long, pass the length check and fail the numeric one. */
  lemma LengthCountsBytes()
    ensures ValidateNDC("1234567\U{00E9}") == Some(NdcNumericError)
  {
    var s := "1234567\U{00E9}";
    assert ByteLen(s[7..]) == 2;
    assert ByteLen(s) == 9 by {
      assert s[1..][1..][1..][1..][1..][1..][1..] == s[7..];
    }
    assert !IsSignedDecimal(s) by { assert Unsigned(s)[7] == '\U{00E9}'; }
  }

  /** The sign checks: a zero quantity is refused, a zero price accepted. */
  lemma ZeroQuantityRefusedZeroPriceAccepted()
    ensures ValidateQuantity(0.0) == Some(QuantityError)
    ensures ValidatePrice(0.0) == None
    ensures ValidateQuantity(0.5) == None
    ensures ValidatePrice(-0.01) == Some(PriceError)
  {
  }

  /** A JSON `null` body decodes to the zero request, which fails on the NDC
      length check first. */
  lemma ZeroRequestRejected()
    ensures ValidateClaimRequest(ZeroClaimRequest) == Some(NdcLengthError)
  {
  }
}
