/** Listing codes: the UPC of a product and the partner SKU of its stock record.
    Both are a three-letter prefix, a 14-digit `%Y%m%d%H%M%S` timestamp and the
    1-based item index formatted as Python's `{i:03d}`. */
module Codes {

  /** Width of the timestamp `datetime.now().strftime("%Y%m%d%H%M%S")`. */
  const StampWidth: nat := 14
  /** Width of the prefixes "UPC" and "SKU". */
  const PrefixWidth: nat := 3

  const UpcPrefix := "UPC"
  const SkuPrefix := "SKU"

  predicate IsDigit(c: char) {
    '0' <= c <= '9'
  }

  predicate AllDigits(s: string) {
    forall k :: 0 <= k < |s| ==> IsDigit(s[k])
  }

  /** What strftime with "%Y%m%d%H%M%S" yields for a four-digit year. */
  predicate IsStamp(t: string) {
    |t| == StampWidth && AllDigits(t)
  }

  function DigitChar(d: nat): (c: char)
    requires d < 10
    ensures IsDigit(c)
  {
    ('0' as int + d) as char
  }

  function DigitValue(c: char): (d: nat)
    ensures d < 10
    ensures IsDigit(c) ==> DigitChar(d) == c
  {
    if IsDigit(c) then c as int - '0' as int else 0
  }

  /** The number a string of decimal digits denotes, most significant digit first. */
  function Value(s: string): nat
  {
    if s == [] then 0 else Value(s[..|s| - 1]) * 10 + DigitValue(s[|s| - 1])
  }

  /** Python's `str(n)` for a non-negative integer: digits without leading zeros. */
  function Decimal(n: nat): (r: string)
    ensures 1 <= |r| && AllDigits(r)
    ensures n < 10 ==> |r| == 1
    ensures n < 100 ==> |r| <= 2
    ensures n < 1000 ==> |r| <= 3
    ensures n >= 10 ==> |r| >= 2
    ensures n >= 100 ==> |r| >= 3
    ensures n >= 1000 ==> |r| >= 4
  {
    if n < 10 then [DigitChar(n)] else Decimal(n / 10) + [DigitChar(n % 10)]
  }

  function Zeros(k: nat): (r: string)
    ensures |r| == k && forall j :: 0 <= j < k ==> r[j] == '0'
  {
    seq(k, _ => '0')
  }

  /** Python's `f"{n:03d}"`: the decimal digits of n, left-padded with zeros to width 3. */
  function Pad3(n: nat): (r: string)
    ensures AllDigits(r)
    ensures n < 1000 ==> |r| == 3
    ensures n >= 1000 ==> |r| > 3
  {
    var d := Decimal(n);
    if |d| >= 3 then d else Zeros(3 - |d|) + d
  }

  function Code(prefix: string, stamp: string, i: nat): string
  {
    prefix + stamp + Pad3(i)
  }

  /** `f"UPC{timestamp}{i:03d}"` */
  function Upc(stamp: string, i: nat): string
  {
    Code(UpcPrefix, stamp, i)
  }

  /** `f"SKU{timestamp}{i:03d}"` */
  function Sku(stamp: string, i: nat): string
  {
    Code(SkuPrefix, stamp, i)
  }

  /** Reads the item index back out of a code: the number after prefix and timestamp. */
  function CodeIndex(code: string): nat
  {
    if |code| < PrefixWidth + StampWidth then 0 else Value(code[PrefixWidth + StampWidth..])
  }

  lemma ValueSnoc(s: string, c: char)
    ensures Value(s + [c]) == Value(s) * 10 + DigitValue(c)
  {
    assert (s + [c])[..|s|] == s;
  }

  lemma {:induction false} ValueOfDecimal(n: nat)
    ensures Value(Decimal(n)) == n
  {
    if n < 10 {
      assert Decimal(n) == [] + [DigitChar(n)];
      ValueSnoc([], DigitChar(n));
    } else {
      ValueOfDecimal(n / 10);
      ValueSnoc(Decimal(n / 10), DigitChar(n % 10));
    }
  }

  lemma {:induction false} ValueOfZeros(k: nat)
    ensures Value(Zeros(k)) == 0
  {
    if k > 0 {
      assert Zeros(k) == Zeros(k - 1) + ['0'];
      ValueOfZeros(k - 1);
      ValueSnoc(Zeros(k - 1), '0');
    }
  }

  /** Leading zeros do not change the value of a digit string. */
  lemma {:induction false} ValueLeadingZeros(k: nat, s: string)
    ensures Value(Zeros(k) + s) == Value(s)
    decreases |s|
  {
    if s == [] {
      assert Zeros(k) + s == Zeros(k);
      ValueOfZeros(k);
    } else {
      var init, last := s[..|s| - 1], s[|s| - 1];
      assert s == init + [last];
      assert Zeros(k) + s == (Zeros(k) + init) + [last];
      ValueSnoc(Zeros(k) + init, last);
      ValueSnoc(init, last);
      ValueLeadingZeros(k, init);
    }
  }

  /** The padded index reads back as the index: `int(f"{n:03d}") == n`. */
  lemma ValueOfPad3(n: nat)
    ensures Value(Pad3(n)) == n
  {
    ValueOfDecimal(n);
    var d := Decimal(n);
    if |d| < 3 {
      ValueLeadingZeros(3 - |d|, d);
    }
  }

  /** The index can be recovered from a code whose timestamp has the fixed width. */
  lemma CodeIndexOfCode(prefix: string, stamp: string, i: nat)
    requires |prefix| == PrefixWidth && |stamp| == StampWidth
    ensures CodeIndex(Code(prefix, stamp, i)) == i
  {
    assert Code(prefix, stamp, i)[PrefixWidth + StampWidth..] == Pad3(i);
    ValueOfPad3(i);
  }

  /** Two codes agree exactly when prefix, timestamp and index all agree, as long as the
      prefixes and timestamps have the fixed widths. In particular distinct indices give
      distinct codes even when the two timestamps differ. */
  lemma CodeInjective(p1: string, t1: string, i: nat, p2: string, t2: string, j: nat)
    requires |p1| == PrefixWidth && |p2| == PrefixWidth
    requires |t1| == StampWidth && |t2| == StampWidth
    ensures Code(p1, t1, i) == Code(p2, t2, j) <==> p1 == p2 && t1 == t2 && i == j
  {
    if Code(p1, t1, i) == Code(p2, t2, j) {
      var c := Code(p1, t1, i);
      assert c[..PrefixWidth] == p1 && Code(p2, t2, j)[..PrefixWidth] == p2;
      assert c[PrefixWidth..PrefixWidth + StampWidth] == t1;
      assert Code(p2, t2, j)[PrefixWidth..PrefixWidth + StampWidth] == t2;
      CodeIndexOfCode(p1, t1, i);
      CodeIndexOfCode(p2, t2, j);
    }
  }

  /** For the table's indices 1..50 every code has the same length, 3 + 14 + 3, and
      everything after the prefix is a digit. */
  lemma CodeShape(prefix: string, stamp: string, i: nat)
    requires |prefix| == PrefixWidth && IsStamp(stamp) && i < 1000
    ensures |Code(prefix, stamp, i)| == PrefixWidth + StampWidth + 3
    ensures AllDigits(Code(prefix, stamp, i)[PrefixWidth..])
  {
    assert Code(prefix, stamp, i)[PrefixWidth..] == stamp + Pad3(i);
  }
}
