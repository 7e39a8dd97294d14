/** What both clients derive from the engine state for display: the list of
    active phases, the "Phase k of n" number and the m:ss session clock. */
module Display {
  import opened Patterns
  import opened Cycle

  /** The breathing phases with a positive duration, in cycle order. */
  function ActivePhases(pat: Pattern): (r: seq<Phase>)
    ensures forall ph :: ph in r <==> ph != Idle && Duration(pat, ph) > 0
    ensures forall i :: 0 <= i < |r| ==> r[i] != Idle
    ensures forall i, j :: 0 <= i < j < |r| ==> Ord(r[i]) < Ord(r[j])
    ensures |r| <= 4
    ensures |r| == 0 <==> TotalDuration(pat) == 0
  {
    (if pat.inhale > 0 then [Inhale] else []) +
    (if pat.hold1 > 0 then [Hold1] else []) +
    (if pat.exhale > 0 then [Exhale] else []) +
    (if pat.hold2 > 0 then [Hold2] else [])
  }

  /** The first position of x in xs, or -1 when x does not occur. */
  function IndexOf<T(==)>(xs: seq<T>, x: T): (r: int)
    ensures -1 <= r < |xs|
    ensures r == -1 <==> x !in xs
    ensures 0 <= r ==> xs[r] == x && x !in xs[..r]
  {
    if |xs| == 0 then -1
    else if xs[0] == x then 0
    else
      var k := IndexOf(xs[1..], x);
      assert x in xs[1..] ==> x in xs;
      assert 0 <= k ==> xs[..k + 1] == [xs[0]] + xs[1..][..k];
      if k < 0 then -1 else k + 1
  }

  /** The 1-based number of the current phase among the active phases, 0 when
      the phase is not among them. */
  function PhaseNumber(pat: Pattern, ph: Phase): (n: nat)
    ensures n <= |ActivePhases(pat)|
    ensures n == 0 <==> ph == Idle || Duration(pat, ph) == 0
    ensures 0 < n ==> ActivePhases(pat)[n - 1] == ph
  {
    IndexOf(ActivePhases(pat), ph) + 1
  }

  /** A running session is always on a numbered phase, and the number counts the
      active phases up to and including it. */
  lemma RunningPhaseIsNumbered(s: Session, pat: Pattern)
    requires Inv(s, pat) && Running(s)
    ensures 1 <= PhaseNumber(pat, s.phase) <= |ActivePhases(pat)|
    ensures forall i :: 0 <= i < PhaseNumber(pat, s.phase) ==> Ord(ActivePhases(pat)[i]) <= Ord(s.phase)
    ensures forall i :: PhaseNumber(pat, s.phase) <= i < |ActivePhases(pat)| ==> Ord(ActivePhases(pat)[i]) > Ord(s.phase)
  {
    var n := PhaseNumber(pat, s.phase);
    var a := ActivePhases(pat);
    assert a[n - 1] == s.phase;
    forall i | 0 <= i < n
      ensures Ord(a[i]) <= Ord(s.phase)
    {
      if i < n - 1 {
        assert Ord(a[i]) < Ord(a[n - 1]);
      }
    }
    forall i | n <= i < |a|
      ensures Ord(a[i]) > Ord(s.phase)
    {
      assert Ord(a[n - 1]) < Ord(a[i]);
    }
  }

  predicate IsDigit(c: char) {
    '0' <= c <= '9'
  }

  predicate AllDigits(t: string) {
    forall i :: 0 <= i < |t| ==> IsDigit(t[i])
  }

  function DigitChar(d: nat): (c: char)
    requires d < 10
    ensures IsDigit(c) && c as int - '0' as int == d
  {
    ('0' as int + d) as char
  }

  /** The value of a digit character; any other character reads as 0. */
  function DigitValue(c: char): (d: nat)
    ensures d < 10
    ensures IsDigit(c) ==> d == c as int - '0' as int
  {
    if IsDigit(c) then c as int - '0' as int else 0
  }

  /** A number's decimal rendering, as Number.prototype.toString gives it for a
      whole non-negative number: digits only, no leading zero. */
  function DecimalString(n: nat): (r: string)
    ensures 1 <= |r| && AllDigits(r)
    ensures 1 < |r| ==> r[0] != '0'
    ensures n < 10 <==> |r| == 1
    decreases n
  {
    if n < 10 then [DigitChar(n)] else DecimalString(n / 10) + [DigitChar(n % 10)]
  }

  /** The number a string of decimal digits denotes. */
  function DecimalValue(t: string): nat
    decreases |t|
  {
    if |t| == 0 then 0 else 10 * DecimalValue(t[..|t| - 1]) + DigitValue(t[|t| - 1])
  }

  /** Reading back a rendered number gives the number. */
  lemma {:induction false} DecimalRoundTrip(n: nat)
    ensures DecimalValue(DecimalString(n)) == n
    decreases n
  {
    var r := DecimalString(n);
    if n >= 10 {
      DecimalRoundTrip(n / 10);
      assert r[..|r| - 1] == DecimalString(n / 10);
    }
  }

  /** String.prototype.padStart(2, '0'). */
  function PadStart2(t: string): (r: string)
    ensures |r| == if |t| < 2 then 2 else |t|
    ensures r[|r| - |t|..] == t
    ensures forall i :: 0 <= i < |r| - |t| ==> r[i] == '0'
  {
    if |t| == 0 then "00" else if |t| == 1 then "0" + t else t
  }

  /** Leading zeros do not change the number a digit string denotes. */
  lemma {:induction false} LeadingZeroValue(t: string)
    ensures DecimalValue("0" + t) == DecimalValue(t)
    decreases |t|
  {
    if |t| > 0 {
      LeadingZeroValue(t[..|t| - 1]);
      assert ("0" + t)[..|t|] == "0" + t[..|t| - 1];
    }
  }

  /** The session clock: minutes, a colon and the seconds on two digits. */
  function FormatTime(seconds: nat): (r: string)
    ensures |r| >= 4 && r[|r| - 3] == ':'
    ensures AllDigits(r[..|r| - 3]) && AllDigits(r[|r| - 2..])
  {
    DecimalString(seconds / 60) + ":" + PadStart2(DecimalString(seconds % 60))
  }

  /** Reading m:ss back as minutes and seconds. */
  function ParseTime(t: string): nat
    requires |t| >= 3
  {
    60 * DecimalValue(t[..|t| - 3]) + DecimalValue(t[|t| - 2..])
  }

  /** The two fields of a text m ":" ss read back as what m and ss denote. */
  lemma TimeFields(m: string, ss: string, mins: nat, secs: nat)
    requires |ss| == 2 && DecimalValue(m) == mins && DecimalValue(ss) == secs
    requires 1 < |m| ==> m[0] != '0'
    ensures var r := m + ":" + ss;
      && |r| == |m| + 3 && r[|r| - 3] == ':'
      && DecimalValue(r[..|r| - 3]) == mins
      && DecimalValue(r[|r| - 2..]) == secs
      && ParseTime(r) == 60 * mins + secs
      && (|r| > 4 ==> r[0] != '0')
  {
    var r := m + ":" + ss;
    assert r[..|r| - 3] == m;
    assert r[|r| - 2..] == ss;
    assert 0 < |m| ==> r[0] == m[0];
  }

  /** Two-digit padding of a number below 100 gives two digits that denote it. */
  lemma PadKeepsValue(n: nat)
    requires n < 100
    ensures |PadStart2(DecimalString(n))| == 2 && AllDigits(PadStart2(DecimalString(n)))
    ensures DecimalValue(PadStart2(DecimalString(n))) == n
  {
    var t := DecimalString(n);
    DecimalRoundTrip(n);
    if |t| == 1 {
      LeadingZeroValue(t);
    }
  }

  /** formatTime loses nothing: the minutes field is s div 60 without leading
      zeros, the seconds field is s mod 60 (below 60) and together they give s. */
  lemma FormatTimeRoundTrip(seconds: nat)
    ensures var r := FormatTime(seconds);
      && ParseTime(r) == seconds
      && DecimalValue(r[..|r| - 3]) == seconds / 60
      && DecimalValue(r[|r| - 2..]) == seconds % 60 < 60
      && (|r| > 4 ==> r[0] != '0')
  {
    var mins := seconds / 60;
    var secs := seconds % 60;
    PadKeepsValue(secs);
    DecimalRoundTrip(mins);
    TimeFields(DecimalString(mins), PadStart2(DecimalString(secs)), mins, secs);
  }
}
