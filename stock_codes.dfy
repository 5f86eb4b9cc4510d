/**
 * The universe of Bursa Malaysia codes screened by one run: every number
 * 0..9999 written with at least four decimal digits (Python's `{code:04d}`)
 * and followed by the exchange suffix ".KL".
 */
module StockCodes {

  /** Minimum number of digits of the numeric part (`04d`). */
  const Width: nat := 4

  /** The codes are generated from `range(10000)`. */
  const CodeCount: nat := 10000

  /** Yahoo Finance suffix of the Kuala Lumpur exchange. */
  const Suffix: string := ".KL"

  predicate IsDigit(c: char) {
    '0' <= c <= '9'
  }

  predicate AllDigits(s: string) {
    forall i :: 0 <= i < |s| ==> IsDigit(s[i])
  }

  function DigitChar(d: nat): (c: char)
    requires d < 10
    ensures IsDigit(c) && c as int - '0' as int == d
  {
    ('0' as int + d) as char
  }

  /** The number a string of decimal digits denotes, most significant digit first. */
  function DecimalValue(s: string): nat
    requires AllDigits(s)
  {
    if s == [] then 0 else DecimalValue(s[..|s| - 1]) * 10 + (s[|s| - 1] as int - '0' as int)
  }

  function Pow10(k: nat): (p: nat)
    ensures p >= 1
  {
    if k == 0 then 1 else 10 * Pow10(k - 1)
  }

  /** The shortest decimal representation of `n` (what `str(n)` gives). */
  function Decimal(n: nat): (s: string)
    ensures 1 <= |s| && AllDigits(s)
    ensures |s| == 1 || s[0] != '0'
    ensures DecimalValue(s) == n
  {
    if n < 10 then [DigitChar(n)]
    else
      var s := Decimal(n / 10) + [DigitChar(n % 10)];
      assert s[..|s| - 1] == Decimal(n / 10);
      s
  }

  function Zeros(k: nat): (s: string)
    ensures |s| == k && AllDigits(s)
    ensures forall i :: 0 <= i < k ==> s[i] == '0'
  {
    if k == 0 then [] else Zeros(k - 1) + ['0']
  }

  /** Leading zeros do not change the value of a digit string. */
  lemma {:induction false} LeadingZerosValue(k: nat, s: string)
    requires AllDigits(s)
    ensures AllDigits(Zeros(k) + s)
    ensures DecimalValue(Zeros(k) + s) == DecimalValue(s)
  {
    if s == [] {
      assert Zeros(k) + s == Zeros(k);
      ZerosValue(k);
    } else {
      var init := s[..|s| - 1];
      LeadingZerosValue(k, init);
      assert (Zeros(k) + s)[..|Zeros(k) + s| - 1] == Zeros(k) + init;
    }
  }

  lemma {:induction false} ZerosValue(k: nat)
    ensures DecimalValue(Zeros(k)) == 0
  {
    if k > 0 {
      ZerosValue(k - 1);
      assert Zeros(k)[..k - 1] == Zeros(k - 1);
    }
  }

  /** A number below 10^k needs at most k digits. */
  lemma {:induction false} DecimalLength(n: nat, k: nat)
    requires 1 <= k && n < Pow10(k)
    ensures |Decimal(n)| <= k
  {
    if n >= 10 {
      assert k >= 2;
      DecimalLength(n / 10, k - 1);
    }
  }

  /**
   * `format(n, "04d")`: the decimal digits of `n`, left-padded with '0' to
   * `Width`; a longer representation has no leading zero.
   */
  function Format04d(n: nat): (s: string)
    ensures AllDigits(s)
    ensures DecimalValue(s) == n
    ensures |s| >= Width
    ensures n < Pow10(Width) ==> |s| == Width
    ensures |s| > Width ==> s[0] != '0'
  {
    var d := Decimal(n);
    var pad := if |d| < Width then Width - |d| else 0;
    LeadingZerosValue(pad, d);
    assert n < Pow10(Width) ==> |d| <= Width by {
      if n < Pow10(Width) { DecimalLength(n, Width); }
    }
    Zeros(pad) + d
  }

  /** The code generated for `n` by the comprehension of the run. */
  function StockCode(n: nat): (code: string)
    ensures |code| >= Width + |Suffix|
    ensures n < CodeCount ==> |code| == Width + |Suffix|
    ensures code[|code| - |Suffix|..] == Suffix
    ensures AllDigits(code[..|code| - |Suffix|])
    ensures DecimalValue(code[..|code| - |Suffix|]) == n
  {
    var digits := Format04d(n);
    assert (digits + Suffix)[..|digits|] == digits;
    digits + Suffix
  }

  /** Distinct numbers give distinct codes. */
  lemma StockCodeInjective(n: nat, m: nat)
    requires StockCode(n) == StockCode(m)
    ensures n == m
  {
  }

  /** `[f"{code:04d}.KL" for code in range(10000)]`. */
  function AllCodes(): (codes: seq<string>)
    ensures |codes| == CodeCount
    ensures forall i :: 0 <= i < |codes| ==> codes[i] == StockCode(i)
  {
    seq(CodeCount, i requires 0 <= i => StockCode(i))
  }

  /** The generated codes are pairwise distinct. */
  lemma AllCodesDistinct()
    ensures var codes := AllCodes();
            forall i, j :: 0 <= i < j < |codes| ==> codes[i] != codes[j]
  {
    var codes := AllCodes();
    forall i, j | 0 <= i < j < |codes|
      ensures codes[i] != codes[j]
    {
      if codes[i] == codes[j] {
        StockCodeInjective(i, j);
      }
    }
  }

  /** The first code. */
  lemma FirstStockCode()
    ensures StockCode(0) == "0000.KL"
  {
    assert Decimal(0) == "0";
    assert Zeros(3) == "000";
    assert Format04d(0) == "0000";
  }

  /** A two-digit number is padded with two zeros. */
  lemma TwoDigitStockCode()
    ensures StockCode(42) == "0042.KL"
  {
    assert Decimal(4) == "4";
    assert Decimal(42) == "42";
    assert Zeros(2) == "00";
    assert Format04d(42) == "0042";
  }

  /** The last code needs no padding. */
  lemma LastStockCode()
    ensures StockCode(9999) == "9999.KL"
  {
    assert Decimal(9) == "9";
    assert Decimal(99) == "99";
    assert Decimal(999) == "999";
    assert Decimal(9999) == "9999";
    assert Zeros(0) == "";
    assert Format04d(9999) == "9999";
  }
}
