/**
 * The pure rules the loader applies between attempts: which HTTP statuses are a
 * success, how the retry delay grows, and the `Range` request header it sends.
 */
module LoadPolicy {
  import opened Wrappers
  import opened Decimal

  function Max(a: int, b: int): int { if a < b then b else a }
  function Min(a: int, b: int): int { if a < b then a else b }

  /**
   * A status in the 2xx class is a success (section 15.3 of RFC 9110); every other
   * status is a failure. The test `200 <= status < 300` is the same as "a three-digit
   * code whose first digit is 2".
   */
  predicate IsSuccess(status: int): (ok: bool)
    ensures ok <==> 100 <= status <= 999 && status / 100 == 2
  {
    200 <= status < 300
  }

  /** The cap on the retry delay, in milliseconds. */
  const MaxRetryDelay: int := 64000

  /** Exponential backoff: the delay doubles after each retry, but never beyond the cap. */
  function NextDelay(d: int): (r: int)
    ensures r <= MaxRetryDelay
    ensures r == MaxRetryDelay || r == 2 * d
    ensures 0 <= d ==> Min(d, MaxRetryDelay) <= r
  {
    Min(2 * d, MaxRetryDelay)
  }

  /** The delay after `n` backoff steps from the configured delay `d`. */
  function DelayAfter(d: int, n: nat): int {
    if n == 0 then d else NextDelay(DelayAfter(d, n - 1))
  }

  /**
   * Every delay after the first backoff step is within the cap, and a configured delay
   * that is already within the cap never shrinks.
   */
  lemma {:induction false} DelayAfterBounded(d: int, n: nat)
    ensures n >= 1 ==> DelayAfter(d, n) <= MaxRetryDelay
    ensures 0 <= d <= MaxRetryDelay ==> d <= DelayAfter(d, n) <= MaxRetryDelay
  {
    if n >= 1 {
      DelayAfterBounded(d, n - 1);
    }
  }

  function Pow2(n: nat): (p: nat)
    ensures p >= 1
  {
    if n == 0 then 1 else 2 * Pow2(n - 1)
  }

  /** After n >= 1 doublings the delay is 2^n * d, or the cap once that exceeds it. */
  lemma {:induction false} DelayAfterClosedForm(d: int, n: nat)
    requires n >= 1
    ensures DelayAfter(d, n) == Min(Pow2(n) * d, MaxRetryDelay)
  {
    if n > 1 {
      DelayAfterClosedForm(d, n - 1);
      assert Pow2(n) * d == 2 * (Pow2(n - 1) * d);
    }
  }

  lemma {:induction false} Pow2AtLeast(n: nat)
    requires n >= 16
    ensures Pow2(n) >= 65536
  {
    if n > 16 {
      Pow2AtLeast(n - 1);
    } else {
      assert Pow2(4) == 16;
      assert Pow2(8) == 256;
      assert Pow2(12) == 4096;
      assert Pow2(16) == 65536;
    }
  }

  /** From any positive configured delay, sixteen doublings reach the cap, and the delay stays there. */
  lemma CapReached(d: int, n: nat)
    requires d >= 1 && n >= 16
    ensures DelayAfter(d, n) == MaxRetryDelay
  {
    DelayAfterClosedForm(d, n);
    Pow2AtLeast(n);
    ScaleAtLeast(Pow2(n), d);
  }

  lemma {:induction false} ScaleAtLeast(p: nat, d: int)
    requires d >= 1
    ensures p * d >= p
    decreases d
  {
    if d > 1 {
      ScaleAtLeast(p, d - 1);
      assert p * d == p * (d - 1) + p;
    }
  }

  /** The byte positions a `Range` header selects: `first` through `last`, both inclusive. */
  datatype ByteRange = ByteRange(first: int, last: int)

  /**
   * The header value for the half-open range [start, end): JavaScript writes
   * `'bytes=' + start + '-' + (end - 1)`, since the last-byte-pos of a byte range is
   * inclusive (section 14.1.2 of RFC 9110). It reads back as exactly the bytes
   * start .. end-1, which are end - start bytes.
   */
  function RangeHeaderValue(start: int, end: int): (h: string)
    ensures ParseByteRange(h) == Some(ByteRange(start, end - 1))
    ensures var r := ParseByteRange(h).value; r.last - r.first + 1 == end - start
  {
    ByteRangeSpecRoundTrip(start, end - 1);
    "bytes=" + IntToString(start) + "-" + IntToString(end - 1)
  }

  /** The first '-' in `s` at or after position `k`, or |s| when there is none. */
  function FindSeparator(s: string, k: nat): (r: nat)
    requires k <= |s|
    ensures k <= r <= |s|
    ensures r < |s| ==> s[r] == '-'
    ensures forall j :: k <= j < r ==> s[j] != '-'
    decreases |s| - k
  {
    if k == |s| || s[k] == '-' then k else FindSeparator(s, k + 1)
  }

  /**
   * Reads `bytes=<first>-<last>` back. The separator is the first '-' after the
   * first character, so that a leading minus sign of `first` is not taken for it.
   */
  function ParseByteRange(h: string): Option<ByteRange> {
    if |h| < 7 || h[..6] != "bytes=" then None
    else
      var spec := h[6..];
      var k := FindSeparator(spec, 1);
      if k == |spec| then None
      else
        match (ParseInt(spec[..k]), ParseInt(spec[k + 1..]))
        case (Some(first), Some(last)) => Some(ByteRange(first, last))
        case _ => None
  }

  /** Writing a byte range as `bytes=<first>-<last>` and parsing it gives the range back. */
  lemma ByteRangeSpecRoundTrip(first: int, last: int)
    ensures ParseByteRange("bytes=" + IntToString(first) + "-" + IntToString(last)) == Some(ByteRange(first, last))
  {
    var a, b := IntToString(first), IntToString(last);
    var h := "bytes=" + a + "-" + b;
    var spec := a + "-" + b;
    assert h == "bytes=" + spec;
    assert h[..6] == "bytes=" && h[6..] == spec;
    var k := FindSeparator(spec, 1);
    assert spec[|a|] == '-';
    assert k == |a|;
    assert spec[..k] == a;
    assert spec[k + 1..] == b;
    IntToStringRoundTrip(first);
    IntToStringRoundTrip(last);
  }
}
