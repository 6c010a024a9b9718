/** Small numeric and string helpers shared by the whole simulation (js/utils.js),
    plus the model of `Math.random`: a sequence of draws in [0, 1) read through a cursor. */
module Utils {

  datatype Option<T> = None | Some(value: T)

  // ---------------------------------------------------------------------------
  // Random draws

  /** A value `Math.random` can return. */
  predicate IsDraw(r: real) { 0.0 <= r < 1.0 }

  predicate AreDraws(rs: seq<real>) { forall i :: 0 <= i < |rs| ==> IsDraw(rs[i]) }

  /** The i-th draw of the stream; past its end the stream reads 0.0. */
  function Draw(rs: seq<real>, i: nat): (r: real)
    ensures AreDraws(rs) ==> IsDraw(r)
    ensures i < |rs| ==> r == rs[i]
  {
    if i < |rs| then rs[i] else 0.0
  }

  /** `Utils.random(min, max)`: floor(r * (max - min + 1)) + min for a draw r. */
  function RandomInt(min: int, max: int, r: real): (n: int)
    requires min <= max && IsDraw(r)
    ensures min <= n <= max
  {
    var k := (max - min + 1) as real;
    assert 0.0 <= r * k < k by {
      assert r * k <= 1.0 * k - (1.0 - r) * k;
    }
    (r * k).Floor + min
  }

  /** Every integer of [min, max] is the result of some draw: the range is not narrower than it says. */
  lemma RandomIntReaches(min: int, max: int, n: int)
    requires min <= n <= max
    ensures var r := (n - min) as real / (max - min + 1) as real;
            IsDraw(r) && RandomInt(min, max, r) == n
  {
    var k := (max - min + 1) as real;
    var r := (n - min) as real / k;
    assert r * k == (n - min) as real;
    assert ((n - min) as real).Floor == n - min;
  }

  // ---------------------------------------------------------------------------
  // clamp and lerp

  function Min(a: real, b: real): real { if a <= b then a else b }
  function Max(a: real, b: real): real { if a >= b then a else b }

  /** `Utils.clamp(value, min, max)` = Math.min(Math.max(value, min), max). */
  function Clamp(value: real, min: real, max: real): (r: real)
    ensures min <= max ==> min <= r <= max
    ensures min <= value <= max ==> r == value
    ensures value < min && min <= max ==> r == min
    ensures value > max ==> r == max
    ensures min > max ==> r == max
  {
    Min(Max(value, min), max)
  }

  /** `Utils.lerp(start, end, factor)`. */
  function Lerp(start: real, end: real, factor: real): (r: real)
    ensures factor == 0.0 ==> r == start
    ensures factor == 1.0 ==> r == end
  {
    start + (end - start) * factor
  }

  /** For a factor in [0, 1] the interpolated value lies between the two ends. */
  lemma LerpBetween(start: real, end: real, factor: real)
    requires 0.0 <= factor <= 1.0
    ensures start <= end ==> start <= Lerp(start, end, factor) <= end
    ensures end <= start ==> end <= Lerp(start, end, factor) <= start
  {
    ScaledBetween(end - start, factor);
  }

  /** A factor in [0, 1] scales a number towards 0 without passing it. */
  lemma ScaledBetween(a: real, f: real)
    requires 0.0 <= f <= 1.0
    ensures 0.0 <= a ==> 0.0 <= a * f <= a
    ensures a <= 0.0 ==> a <= a * f <= 0.0
  {
    if 0.0 <= a {
      assert 0.0 <= a * (1.0 - f);
    } else {
      assert a * (1.0 - f) <= 0.0;
      assert a * f <= 0.0;
    }
  }

  // ---------------------------------------------------------------------------
  // formatTime

  predicate IsDigit(c: char) { '0' <= c <= '9' }

  predicate AllDigits(s: string) { forall i :: 0 <= i < |s| ==> IsDigit(s[i]) }

  function DigitChar(d: nat): (c: char)
    requires d < 10
    ensures IsDigit(c)
  {
    ['0', '1', '2', '3', '4', '5', '6', '7', '8', '9'][d]
  }

  function DigitValue(c: char): (d: nat)
    requires IsDigit(c)
    ensures d < 10
  {
    (c as int - '0' as int) as nat
  }

  /** `n.toString()` for a non-negative integer. */
  function Decimal(n: nat): (s: string)
    ensures |s| >= 1 && AllDigits(s)
    decreases n
  {
    if n < 10 then [DigitChar(n)] else Decimal(n / 10) + [DigitChar(n % 10)]
  }

  /** The number a string of decimal digits denotes. */
  function DecimalValue(s: string): nat
    requires AllDigits(s)
  {
    if s == [] then 0 else DecimalValue(s[..|s| - 1]) * 10 + DigitValue(s[|s| - 1])
  }

  lemma {:induction false} DecimalRoundTrip(n: nat)
    ensures DecimalValue(Decimal(n)) == n
    decreases n
  {
    var s := Decimal(n);
    if n < 10 {
      assert s[..0] == [];
      assert DigitValue(DigitChar(n)) == n by {
        assert ['0', '1', '2', '3', '4', '5', '6', '7', '8', '9'][n] as int == '0' as int + n;
      }
    } else {
      assert s[..|s| - 1] == Decimal(n / 10);
      DecimalRoundTrip(n / 10);
      var d := n % 10;
      assert DigitValue(DigitChar(d)) == d by {
        assert ['0', '1', '2', '3', '4', '5', '6', '7', '8', '9'][d] as int == '0' as int + d;
      }
    }
  }

  lemma {:induction false} LeadingZero(s: string)
    requires AllDigits(s)
    ensures AllDigits("0" + s) && DecimalValue("0" + s) == DecimalValue(s)
    decreases |s|
  {
    var t := "0" + s;
    if s == [] {
      assert t[..0] == [];
    } else {
      assert t[..|t| - 1] == "0" + s[..|s| - 1];
      LeadingZero(s[..|s| - 1]);
    }
  }

  lemma DecimalShort(n: nat)
    requires n < 100
    ensures |Decimal(n)| <= 2
  {
    if n >= 10 {
      assert |Decimal(n / 10)| == 1;
    }
  }

  /** `s.padStart(2, '0')`. */
  function PadTwo(s: string): (p: string)
    requires AllDigits(s)
    ensures AllDigits(p) && |p| >= 2 && |p| >= |s|
    ensures |s| <= 2 ==> |p| == 2
    decreases 2 - |s|
  {
    if |s| < 2 then PadTwo("0" + s) else s
  }

  lemma {:induction false} PadTwoValue(s: string)
    requires AllDigits(s)
    ensures DecimalValue(PadTwo(s)) == DecimalValue(s)
    decreases 2 - |s|
  {
    if |s| < 2 {
      LeadingZero(s);
      PadTwoValue("0" + s);
    }
  }

  /** `Utils.formatTime(seconds)` for a whole number of seconds: "MM:SS", both parts zero-padded. */
  function FormatTime(seconds: nat): (r: string)
    ensures |r| >= 5 && r[|r| - 3] == ':'
    ensures forall i :: 0 <= i < |r| && i != |r| - 3 ==> IsDigit(r[i])
  {
    var m := PadTwo(Decimal(seconds / 60));
    var s := PadTwo(Decimal(seconds % 60));
    assert |s| == 2 by { DecimalShort(seconds % 60); }
    m + ":" + s
  }

  /** Reads back a string of the shape FormatTime produces: minutes, ':', two-digit seconds. */
  function ParseTime(t: string): Option<(nat, nat)>
  {
    if |t| >= 5 && t[|t| - 3] == ':' && AllDigits(t[..|t| - 3]) && AllDigits(t[|t| - 2..])
    then Some((DecimalValue(t[..|t| - 3]), DecimalValue(t[|t| - 2..])))
    else None
  }

  /** formatTime loses nothing: the minutes and the seconds below 60 read back, and together
      they give the original number of seconds. */
  lemma FormatTimeRoundTrip(seconds: nat)
    ensures ParseTime(FormatTime(seconds)).Some?
    ensures var (m, s) := ParseTime(FormatTime(seconds)).value;
            s < 60 && m * 60 + s == seconds
  {
    var t := FormatTime(seconds);
    var m := PadTwo(Decimal(seconds / 60));
    var s := PadTwo(Decimal(seconds % 60));
    assert |s| == 2 by { DecimalShort(seconds % 60); }
    assert t == m + ":" + s;
    assert t[..|t| - 3] == m;
    assert t[|t| - 2..] == s;
    assert DecimalValue(m) == seconds / 60 by {
      PadTwoValue(Decimal(seconds / 60));
      DecimalRoundTrip(seconds / 60);
    }
    assert DecimalValue(s) == seconds % 60 by {
      PadTwoValue(Decimal(seconds % 60));
      DecimalRoundTrip(seconds % 60);
    }
  }
}
