/** Phases, patterns and the preset table shared by the web client and the
    mobile client of the breathing timer. */
module Patterns {

  /** The phase of the engine; Idle is the phase outside a session. */
  datatype Phase = Idle | Inhale | Hold1 | Exhale | Hold2

  /** The whole-second durations of the four breathing phases. */
  datatype Pattern = Pattern(inhale: nat, hold1: nat, exhale: nat, hold2: nat)

  /** Largest value a custom-duration slider can take (its range is 0..10). */
  const MaxCustomSeconds: nat := 10

  /** Index of the Custom entry in the preset table. */
  const CustomIndex: nat := 4

  /** Box Breathing, 4-7-8 Breathing, Wim Hof, Calm and the defaults of Custom. */
  const Presets: seq<Pattern> :=
    [Pattern(4, 4, 4, 4), Pattern(4, 7, 8, 0), Pattern(2, 0, 2, 0), Pattern(5, 0, 5, 0), Pattern(4, 4, 4, 4)]

  /** Every entry of the table has a positive cycle within the slider range,
      Custom is the last entry, and its defaults are those of Box Breathing. */
  lemma PresetTable()
    ensures |Presets| == 5 && CustomIndex == |Presets| - 1
    ensures forall i :: 0 <= i < |Presets| ==> TotalDuration(Presets[i]) > 0 && SliderRange(Presets[i])
    ensures Presets[CustomIndex] == Presets[0]
  {
  }

  /** Durations a custom pattern may take through the sliders. */
  predicate SliderRange(p: Pattern) {
    p.inhale <= MaxCustomSeconds && p.hold1 <= MaxCustomSeconds &&
    p.exhale <= MaxCustomSeconds && p.hold2 <= MaxCustomSeconds
  }

  /** Length of one phase; any phase other than the first three reads hold2,
      as the chained conditional of the source does. */
  function Duration(pat: Pattern, ph: Phase): (d: nat)
    ensures d <= pat.inhale + pat.hold1 + pat.exhale + pat.hold2
    ensures ph == Idle ==> d == pat.hold2
  {
    if ph == Inhale then pat.inhale
    else if ph == Hold1 then pat.hold1
    else if ph == Exhale then pat.exhale
    else pat.hold2
  }

  /** Length of a whole cycle. */
  function TotalDuration(pat: Pattern): (t: nat)
    ensures t == 0 <==> forall ph :: Duration(pat, ph) == 0
    ensures forall ph :: Duration(pat, ph) <= t
  {
    assert Duration(pat, Inhale) == pat.inhale && Duration(pat, Hold1) == pat.hold1;
    assert Duration(pat, Exhale) == pat.exhale && Duration(pat, Hold2) == pat.hold2;
    pat.inhale + pat.hold1 + pat.exhale + pat.hold2
  }

  /** The pattern with one phase's duration replaced, as one custom slider does. */
  function WithDuration(pat: Pattern, ph: Phase, v: nat): (r: Pattern)
    requires ph != Idle
    ensures Duration(r, ph) == v
    ensures forall q :: q != Idle && q != ph ==> Duration(r, q) == Duration(pat, q)
    ensures SliderRange(pat) && v <= MaxCustomSeconds ==> SliderRange(r)
  {
    match ph
    case Inhale => pat.(inhale := v)
    case Hold1 => pat.(hold1 := v)
    case Exhale => pat.(exhale := v)
    case Hold2 => pat.(hold2 := v)
  }

  /** The pattern the engine runs: the custom durations at CustomIndex, a preset otherwise. */
  function CurrentPattern(selected: nat, custom: Pattern): (p: Pattern)
    requires selected < |Presets|
    ensures selected == CustomIndex ==> p == custom
    ensures selected != CustomIndex ==> p == Presets[selected]
    ensures selected != CustomIndex ==> TotalDuration(p) > 0 && SliderRange(p)
  {
    if selected == CustomIndex then custom else Presets[selected]
  }

  /** Position of a breathing phase in the fixed order inhale, hold1, exhale, hold2. */
  function Ord(ph: Phase): (o: nat)
    requires ph != Idle
    ensures o < 4
  {
    match ph
    case Inhale => 0
    case Hold1 => 1
    case Exhale => 2
    case Hold2 => 3
  }

  /** The phase successor of the engine's switch; Idle has no case and stays. */
  function Next(ph: Phase): (n: Phase)
    ensures ph == Idle <==> n == Idle
    ensures ph != Idle ==> Ord(n) == (Ord(ph) + 1) % 4
  {
    match ph
    case Idle => Idle
    case Inhale => Hold1
    case Hold1 => Exhale
    case Exhale => Hold2
    case Hold2 => Inhale
  }

  /** Next applied n times. */
  function NextN(ph: Phase, n: nat): Phase {
    if n == 0 then ph else Next(NextN(ph, n - 1))
  }

  lemma OrdInjective(a: Phase, b: Phase)
    requires a != Idle && b != Idle && Ord(a) == Ord(b)
    ensures a == b
  {
  }

  /** After n successors a breathing phase has moved n places round the cycle. */
  lemma {:induction false} NextNOrd(ph: Phase, n: nat)
    requires ph != Idle
    ensures NextN(ph, n) != Idle
    ensures Ord(NextN(ph, n)) == (Ord(ph) + n) % 4
  {
    if n > 0 {
      NextNOrd(ph, n - 1);
      ModSucc(Ord(ph) + n - 1);
    }
  }

  lemma ModSucc(m: nat)
    ensures (m % 4 + 1) % 4 == (m + 1) % 4
  {
  }

  /** The successor order is a cycle of length four through every breathing phase. */
  lemma FourStepsReturn(ph: Phase)
    requires ph != Idle
    ensures NextN(ph, 4) == ph
    ensures forall k :: 0 < k < 4 ==> NextN(ph, k) != ph
  {
    NextNOrd(ph, 4);
    OrdInjective(NextN(ph, 4), ph);
    forall k | 0 < k < 4
      ensures NextN(ph, k) != ph
    {
      NextNOrd(ph, k);
    }
  }
}
