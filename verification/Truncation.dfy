/** The size limit on the serialised values of one event. Strings stand for their UTF-8 bytes. */
module Truncation {
  const MAX_SIZE: nat := 65536
  const PREFIX: string := "{\"_truncated\":true,\"_size_bytes\":"

  /** A length is a 64-bit machine word. */
  const USIZE: nat := 0x1_0000_0000_0000_0000

  function Decimal(n: nat): string {
    if n < 10 then [DIGITS[n]] else Decimal(n / 10) + [DIGITS[n % 10]]
  }

  const DIGITS: string := "0123456789"

  function TruncateValuesJson(valuesJson: string): string {
    if |valuesJson| > MAX_SIZE then PREFIX + Decimal(|valuesJson|) + "}" else valuesJson
  }

  function Pow10(k: nat): nat {
    if k == 0 then 1 else 10 * Pow10(k - 1)
  }

  lemma {:induction false} DecimalLength(n: nat, k: nat)
    requires k > 0 && n < Pow10(k)
    ensures |Decimal(n)| <= k
  {
    if n >= 10 {
      DecimalLength(n / 10, k - 1);
    }
  }

  /** The inverse of `Decimal`. */
  function Number(s: string): nat {
    if s == "" then 0
    else 10 * Number(s[..|s| - 1]) + (var c := s[|s| - 1]; if '0' <= c <= '9' then (c as int) - ('0' as int) else 0)
  }

  lemma {:induction false} DecimalReadsBack(n: nat)
    ensures Number(Decimal(n)) == n
  {
    if n >= 10 {
      DecimalReadsBack(n / 10);
      assert Decimal(n)[..|Decimal(n)| - 1] == Decimal(n / 10);
    } else {
      assert Decimal(n)[..0] == "";
    }
  }

  lemma TwentyDigits()
    ensures USIZE <= Pow10(20)
  {
    assert Pow10(5) == 100000;
    assert Pow10(10) == 10000000000 by { assert Pow10(8) == 100000000; }
    assert Pow10(15) == 1000000000000000 by { assert Pow10(13) == 10000000000000; }
    assert Pow10(20) == 100000000000000000000 by { assert Pow10(18) == 1000000000000000000; }
  }

  /** Truncation bounds the size, changes only oversized values, and tells their original size. */
  lemma TruncationBounds(valuesJson: string)
    requires |valuesJson| < USIZE
    ensures |TruncateValuesJson(valuesJson)| <= MAX_SIZE
    ensures TruncateValuesJson(valuesJson) == valuesJson <==> |valuesJson| <= MAX_SIZE
    ensures |valuesJson| > MAX_SIZE ==>
              var t := TruncateValuesJson(valuesJson);
              |t| > |PREFIX| && Number(t[|PREFIX|..|t| - 1]) == |valuesJson|
  {
    if |valuesJson| > MAX_SIZE {
      TwentyDigits();
      DecimalLength(|valuesJson|, 20);
      DecimalReadsBack(|valuesJson|);
      var t := TruncateValuesJson(valuesJson);
      assert |PREFIX| == 33;
      assert t[|PREFIX|..|t| - 1] == Decimal(|valuesJson|);
    }
  }
}
