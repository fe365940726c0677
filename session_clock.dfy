/** The elapsed-time readout of a session: milliseconds since the start,
    shown as MM:SS with both fields zero-padded to two digits and the minutes
    unbounded. Both controllers compute it the same way every second. */
module SessionClock {
  import opened Optional

  const MsPerMinute: nat := 60000
  const MsPerSecond: nat := 1000

  predicate IsDigit(c: char) {
    '0' <= c <= '9'
  }

  predicate AllDigits(s: string) {
    forall i :: 0 <= i < |s| ==> IsDigit(s[i])
  }

  function DigitChar(d: nat): (c: char)
    requires d < 10
    ensures IsDigit(c)
  {
    (d + '0' as int) as char
  }

  /** JavaScript `n.toString()` for a non-negative integer. */
  function DecimalString(n: nat): (s: string)
    ensures 1 <= |s| && AllDigits(s)
    ensures n < 10 <==> |s| == 1
  {
    if n < 10 then [DigitChar(n)] else DecimalString(n / 10) + [DigitChar(n % 10)]
  }

  /** JavaScript `s.padStart(2, '0')`. */
  function PadStart2(s: string): string {
    if |s| >= 2 then s else seq(2 - |s|, _ => '0') + s
  }

  /** The readout for `elapsed` milliseconds. */
  function Format(elapsed: nat): string {
    var minutes := elapsed / MsPerMinute;
    var seconds := (elapsed % MsPerMinute) / MsPerSecond;
    PadStart2(DecimalString(minutes)) + ":" + PadStart2(DecimalString(seconds))
  }

  // ---- reading the readout back ----

  /** The value of a string of decimal digits (leading zeros allowed). */
  function DigitsValue(s: string): nat
    requires AllDigits(s)
  {
    if s == [] then 0 else DigitsValue(s[..|s| - 1]) * 10 + (s[|s| - 1] as int - '0' as int)
  }

  /** Index of the first ':' at or after `from`. */
  function FindColon(s: string, from: nat): (r: Option<nat>)
    requires from <= |s|
    ensures r.Some? ==> from <= r.value < |s| && s[r.value] == ':'
    decreases |s| - from
  {
    if from == |s| then None
    else if s[from] == ':' then Some(from)
    else FindColon(s, from + 1)
  }

  /** Reads MM:SS back into (minutes, seconds); None unless both fields are
      non-empty runs of digits around the first ':'. */
  function Parse(text: string): Option<(nat, nat)> {
    match FindColon(text, 0)
    case None => None
    case Some(i) =>
      var mm, ss := text[..i], text[i + 1..];
      if mm != [] && ss != [] && AllDigits(mm) && AllDigits(ss)
      then Some((DigitsValue(mm), DigitsValue(ss)))
      else None
  }

  lemma {:induction false} DecimalStringValue(n: nat)
    ensures DigitsValue(DecimalString(n)) == n
  {
    if n >= 10 {
      var s := DecimalString(n);
      assert s[..|s| - 1] == DecimalString(n / 10);
      DecimalStringValue(n / 10);
    }
  }

  lemma {:induction false} LeadingZeros(z: nat, s: string)
    requires AllDigits(s)
    ensures AllDigits(seq(z, _ => '0') + s)
    ensures DigitsValue(seq(z, _ => '0') + s) == DigitsValue(s)
    decreases |s|
  {
    var t := seq(z, _ => '0') + s;
    if s == [] {
      assert t == seq(z, _ => '0');
      ZerosValue(z);
    } else {
      assert t[..|t| - 1] == seq(z, _ => '0') + s[..|s| - 1];
      LeadingZeros(z, s[..|s| - 1]);
    }
  }

  lemma {:induction false} ZerosValue(z: nat)
    ensures DigitsValue(seq(z, _ => '0')) == 0
  {
    if z > 0 {
      assert seq(z, _ => '0')[..z - 1] == seq(z - 1, _ => '0');
      ZerosValue(z - 1);
    }
  }

  lemma PaddedValue(n: nat)
    ensures AllDigits(PadStart2(DecimalString(n)))
    ensures DigitsValue(PadStart2(DecimalString(n))) == n
    ensures 2 <= |PadStart2(DecimalString(n))|
  {
    var s := DecimalString(n);
    DecimalStringValue(n);
    if |s| < 2 {
      LeadingZeros(2 - |s|, s);
    }
  }

  lemma {:induction false} FindColonAt(s: string, from: nat, k: nat)
    requires from <= k < |s| && s[k] == ':'
    requires forall i :: from <= i < k ==> s[i] != ':'
    ensures FindColon(s, from) == Some(k)
    decreases k - from
  {
    if from < k {
      FindColonAt(s, from + 1, k);
    }
  }

  /** Whole seconds split into minutes and seconds of the minute. */
  lemma WholeSeconds(elapsed: nat)
    ensures (elapsed / MsPerMinute) * 60 + (elapsed % MsPerMinute) / MsPerSecond == elapsed / MsPerSecond
  {
    var m, r := elapsed / 60000, elapsed % 60000;
    var s, t := r / 1000, r % 1000;
    assert elapsed == 1000 * (60 * m + s) + t;
    DivUnique(elapsed, 1000, 60 * m + s, t);
  }

  lemma DivUnique(a: nat, d: nat, q: nat, r: nat)
    requires 0 < d && r < d && a == d * q + r
    ensures a / d == q
  {
    var q', r' := a / d, a % d;
    assert d * q' + r' == d * q + r;
    if q' < q {
      MulDistance(d, q', q);
    } else if q' > q {
      MulDistance(d, q, q');
    }
  }

  lemma MulDistance(d: nat, lo: nat, hi: nat)
    requires lo < hi
    ensures d * hi >= d * lo + d
  {
    assert d * hi == d * lo + d * (hi - lo);
    assert d * (hi - lo) == d * (hi - lo - 1) + d;
  }

  /** The readout reads back as the minutes and seconds it was made from: the
      seconds field is below 60, both fields have at least two digits, and
      together they give the whole seconds elapsed. */
  lemma ParseFormat(elapsed: nat)
    ensures var mm, ss := elapsed / MsPerMinute, (elapsed % MsPerMinute) / MsPerSecond;
      && Parse(Format(elapsed)) == Some((mm, ss))
      && ss < 60
      && mm * 60 + ss == elapsed / MsPerSecond
      && |Format(elapsed)| >= 5
      && Format(elapsed)[|Format(elapsed)| - 3] == ':'
  {
    var mm, ss := elapsed / MsPerMinute, (elapsed % MsPerMinute) / MsPerSecond;
    var a, b := PadStart2(DecimalString(mm)), PadStart2(DecimalString(ss));
    PaddedValue(mm);
    PaddedValue(ss);
    assert ss < 60;
    assert |b| == 2;
    var t := Format(elapsed);
    assert t == a + ":" + b;
    forall i | 0 <= i < |a| ensures t[i] != ':' {
      assert t[i] == a[i];
    }
    FindColonAt(t, 0, |a|);
    assert t[..|a|] == a;
    assert t[|a| + 1..] == b;
    WholeSeconds(elapsed);
  }

  /** Two readouts are equal exactly when the same number of whole seconds
      has elapsed. */
  lemma FormatInjective(e1: nat, e2: nat)
    ensures Format(e1) == Format(e2) <==> e1 / MsPerSecond == e2 / MsPerSecond
  {
    ParseFormat(e1);
    ParseFormat(e2);
    if e1 / MsPerSecond == e2 / MsPerSecond {
      MinutesOfWholeSeconds(e1);
      MinutesOfWholeSeconds(e2);
    }
  }

  lemma MinutesOfWholeSeconds(elapsed: nat)
    ensures elapsed / MsPerMinute == (elapsed / MsPerSecond) / 60
    ensures (elapsed % MsPerMinute) / MsPerSecond == (elapsed / MsPerSecond) % 60
  {
    var m, s := elapsed / MsPerMinute, (elapsed % MsPerMinute) / MsPerSecond;
    WholeSeconds(elapsed);
    assert s < 60;
    DivUnique(elapsed / MsPerSecond, 60, m, s);
  }
}
