/** What happens over many seconds of a session, and what happens when the
    phase effect meets a pattern whose phases are all zero. */
module Rounds {
  import opened Patterns
  import opened Cycle

  /** n seconds of wall-clock time. */
  function TickN(s: Session, pat: Pattern, n: nat): Session
    decreases n
  {
    if n == 0 then s else TickN(Tick(s, pat), pat, n - 1)
  }

  lemma {:induction false} TickNAdd(s: Session, pat: Pattern, a: nat, b: nat)
    ensures TickN(s, pat, a + b) == TickN(TickN(s, pat, a), pat, b)
    decreases a
  {
    if a > 0 {
      TickNAdd(Tick(s, pat), pat, a - 1, b);
    }
  }

  /** The invariant holds after any number of seconds. */
  lemma {:induction false} TickNKeepsInv(s: Session, pat: Pattern, n: nat)
    requires Inv(s, pat)
    ensures Inv(TickN(s, pat, n), pat)
    decreases n
  {
    if n > 0 {
      TickNKeepsInv(Tick(s, pat), pat, n - 1);
    }
  }

  /** Outside a session, or while paused, time changes nothing at all. */
  lemma {:induction false} PausedIsFrozen(s: Session, pat: Pattern, n: nat)
    requires !s.isBreathing || s.isPaused
    ensures TickN(s, pat, n) == s
    decreases n
  {
    if n > 0 {
      PausedIsFrozen(Tick(s, pat), pat, n - 1);
    }
  }

  /** While breathing and not paused, the session clock gains one second per tick,
      and the flags and the lifetime total do not move. */
  lemma {:induction false} SessionClockCountsTicks(s: Session, pat: Pattern, n: nat)
    requires s.isBreathing && !s.isPaused
    ensures TickN(s, pat, n).sessionTime == s.sessionTime + n
    ensures TickN(s, pat, n).isBreathing && !TickN(s, pat, n).isPaused
    ensures TickN(s, pat, n).totalBreaths == s.totalBreaths
    decreases n
  {
    if n > 0 {
      SessionClockCountsTicks(Tick(s, pat), pat, n - 1);
    }
  }

  /** However many seconds pass, a running session's countdown shows between 1
      and the duration of its phase, and never 0. */
  lemma CountdownStaysInRange(s: Session, pat: Pattern, n: nat)
    requires Inv(s, pat) && Running(s)
    ensures var t := TickN(s, pat, n); Running(t) && 1 <= t.countdown <= Duration(pat, t.phase)
  {
    TickNKeepsInv(s, pat, n);
    SessionClockCountsTicks(s, pat, n);
  }

  /** Before its duration is up, a timed phase stays put and its countdown
      falls by one each second. */
  lemma {:induction false} PhaseHolds(s: Session, pat: Pattern, k: nat)
    requires Inv(s, pat) && Running(s)
    requires s.elapsed + k < Duration(pat, s.phase)
    ensures TickN(s, pat, k) ==
      s.(countdown := s.countdown - k, elapsed := s.elapsed + k, sessionTime := s.sessionTime + k)
    decreases k
  {
    if k > 0 {
      PhaseHolds(Tick(s, pat), pat, k - 1);
    }
  }

  /** A timed phase ends exactly when its duration is up: the engine is then in
      the next timed phase, with a fresh countdown and one cue more. */
  lemma PhaseEnds(s: Session, pat: Pattern)
    requires Inv(s, pat) && Running(s)
    ensures var t := TickN(s, pat, Duration(pat, s.phase) - s.elapsed);
      && Inv(t, pat) && Running(t) && t.elapsed == 0
      && t.phase == FirstTimedFrom(pat, Next(s.phase))
      && t.countdown == Duration(pat, t.phase)
      && t.cycles == s.cycles + (if Ord(t.phase) <= Ord(s.phase) then 1 else 0)
      && t.sessionTime == s.sessionTime + (Duration(pat, s.phase) - s.elapsed)
      && t.totalBreaths == s.totalBreaths
      && t.cues == s.cues + [t.phase]
  {
    var k := Duration(pat, s.phase) - s.elapsed - 1;
    TickNAdd(s, pat, k, 1);
    PhaseHolds(s, pat, k);
  }

  /** Seconds from the start of ph to the end of hold2. */
  function Remaining(pat: Pattern, ph: Phase): nat
    requires ph != Idle
  {
    match ph
    case Inhale => pat.inhale + pat.hold1 + pat.exhale + pat.hold2
    case Hold1 => pat.hold1 + pat.exhale + pat.hold2
    case Exhale => pat.exhale + pat.hold2
    case Hold2 => pat.hold2
  }

  /** Where the first timed phase of a cycle begins, nothing before it is timed. */
  lemma FirstPhaseStartsRound(pat: Pattern)
    requires TotalDuration(pat) > 0
    ensures Remaining(pat, FirstTimedFrom(pat, Inhale)) == TotalDuration(pat)
  {
    var f := FirstTimedFrom(pat, Inhale);
    assert forall q :: q != Idle ==> Dist(Inhale, q) == Ord(q);
  }

  /** When no phase after ph is timed, the rest of the cycle is ph alone and the
      next timed phase is the first one of the cycle. */
  lemma WrapAfter(pat: Pattern, ph: Phase)
    requires ph != Idle && TotalDuration(pat) > 0
    requires Ord(FirstTimedFrom(pat, Next(ph))) <= Ord(ph)
    ensures Remaining(pat, ph) == Duration(pat, ph)
    ensures FirstTimedFrom(pat, Next(ph)) == FirstTimedFrom(pat, Inhale)
  {
    var q := FirstTimedFrom(pat, Next(ph));
    forall p | p != Idle && Ord(p) > Ord(ph)
      ensures Duration(pat, p) == 0
    {
      assert Dist(Next(ph), p) < Dist(Next(ph), q);
    }
    forall p | p != Idle && Dist(Inhale, p) < Dist(Inhale, q)
      ensures Duration(pat, p) == 0
    {
      assert Dist(Next(ph), p) < Dist(Next(ph), q);
    }
    FirstTimedUnique(pat, Inhale, q);
    match ph
    case Inhale => assert Duration(pat, Hold1) == 0 && Duration(pat, Exhale) == 0 && Duration(pat, Hold2) == 0;
    case Hold1 => assert Duration(pat, Exhale) == 0 && Duration(pat, Hold2) == 0;
    case Exhale => assert Duration(pat, Hold2) == 0;
    case Hold2 =>
  }

  /** When the next timed phase q lies later in the same cycle, the phases
      between are untimed. */
  lemma NoWrapAfter(pat: Pattern, ph: Phase)
    requires ph != Idle && TotalDuration(pat) > 0
    requires Ord(FirstTimedFrom(pat, Next(ph))) > Ord(ph)
    ensures Remaining(pat, ph) == Duration(pat, ph) + Remaining(pat, FirstTimedFrom(pat, Next(ph)))
  {
    var q := FirstTimedFrom(pat, Next(ph));
    forall p | p != Idle && Ord(ph) < Ord(p) < Ord(q)
      ensures Duration(pat, p) == 0
    {
      assert Dist(Next(ph), p) < Dist(Next(ph), q);
    }
    match ph
    case Inhale =>
      if q == Exhale { assert Duration(pat, Hold1) == 0; }
      if q == Hold2 { assert Duration(pat, Hold1) == 0 && Duration(pat, Exhale) == 0; }
    case Hold1 =>
      if q == Hold2 { assert Duration(pat, Exhale) == 0; }
    case Exhale =>
    case Hold2 =>
  }

  /** From the start of a timed phase, when the rest of the cycle has passed the
      engine is at the first timed phase of the next cycle, one cycle further. */
  lemma {:induction false} RoundEnds(s: Session, pat: Pattern)
    requires Inv(s, pat) && Running(s) && s.elapsed == 0
    ensures var t := TickN(s, pat, Remaining(pat, s.phase));
      && Inv(t, pat) && Running(t) && t.elapsed == 0
      && t.phase == FirstTimedFrom(pat, Inhale)
      && t.countdown == Duration(pat, t.phase)
      && t.cycles == s.cycles + 1
      && t.sessionTime == s.sessionTime + Remaining(pat, s.phase)
      && t.totalBreaths == s.totalBreaths
    decreases 3 - Ord(s.phase)
  {
    var ph := s.phase;
    var d := Duration(pat, ph);
    PhaseEnds(s, pat);
    var u := TickN(s, pat, d);
    if Ord(u.phase) <= Ord(ph) {
      WrapAfter(pat, ph);
    } else {
      NoWrapAfter(pat, ph);
      RoundEnds(u, pat);
      TickNAdd(s, pat, d, Remaining(pat, u.phase));
    }
  }

  /** The seconds n whole cycles take, one cycle at a time. */
  function CycleSeconds(pat: Pattern, n: nat): nat
    decreases n
  {
    if n == 0 then 0 else CycleSeconds(pat, n - 1) + TotalDuration(pat)
  }

  lemma {:induction false} CycleSecondsIsProduct(pat: Pattern, n: nat)
    ensures CycleSeconds(pat, n) == n * TotalDuration(pat)
    decreases n
  {
    if n > 0 {
      CycleSecondsIsProduct(pat, n - 1);
      assert n * TotalDuration(pat) == (n - 1) * TotalDuration(pat) + TotalDuration(pat);
    }
  }

  /** A session t reached from s n cycles and secs seconds later, back at the
      same point of the cycle. */
  predicate RoundsLater(s: Session, t: Session, pat: Pattern, n: nat, secs: nat) {
    && Inv(t, pat) && Running(t) && t.elapsed == 0
    && t.phase == s.phase && t.countdown == s.countdown
    && t.cycles == s.cycles + n
    && t.sessionTime == s.sessionTime + secs
    && t.totalBreaths == s.totalBreaths
  }

  /** One more cycle after n of them. */
  lemma RoundsStep(s: Session, pat: Pattern, n: nat, a: nat)
    requires RoundsLater(s, TickN(s, pat, a), pat, n, a)
    requires s.phase == FirstTimedFrom(pat, Inhale)
    ensures RoundsLater(s, TickN(s, pat, a + TotalDuration(pat)), pat, n + 1, a + TotalDuration(pat))
  {
    var x := TickN(s, pat, a);
    FirstPhaseStartsRound(pat);
    RoundEnds(x, pat);
    TickNAdd(s, pat, a, TotalDuration(pat));
  }

  /** Every TotalDuration(pat) seconds from the first timed phase, exactly one
      cycle is counted and the engine is back where the cycle began. */
  lemma RoundsFromFirstPhase(s: Session, pat: Pattern, n: nat)
    requires Inv(s, pat) && Running(s) && s.elapsed == 0
    requires s.phase == FirstTimedFrom(pat, Inhale)
    ensures RoundsLater(s, TickN(s, pat, n * TotalDuration(pat)), pat, n, n * TotalDuration(pat))
  {
    RoundsByCycles(s, pat, n);
    CycleSecondsIsProduct(pat, n);
  }

  /** The same, counted one cycle at a time. */
  lemma {:induction false} RoundsByCycles(s: Session, pat: Pattern, n: nat)
    requires Inv(s, pat) && Running(s) && s.elapsed == 0
    requires s.phase == FirstTimedFrom(pat, Inhale)
    ensures RoundsLater(s, TickN(s, pat, CycleSeconds(pat, n)), pat, n, CycleSeconds(pat, n))
    decreases n
  {
    if n > 0 {
      RoundsByCycles(s, pat, n - 1);
      RoundsStep(s, pat, n - 1, CycleSeconds(pat, n - 1));
    }
  }

  /** After a start, n whole cycle durations of seconds count exactly n cycles. */
  lemma CyclesCountRounds(s: Session, pat: Pattern, n: nat)
    requires Inv(s, pat) && !s.isBreathing && TotalDuration(pat) > 0
    ensures var t := TickN(Start(s, pat), pat, n * TotalDuration(pat));
      && t.cycles == n && t.sessionTime == n * TotalDuration(pat)
      && t.phase == Start(s, pat).phase && t.countdown == Start(s, pat).countdown
  {
    RoundsFromFirstPhase(Start(s, pat), pat, n);
  }

  /** A session of n whole cycles adds n breaths to the lifetime total. */
  lemma SessionAddsItsCycles(s: Session, pat: Pattern, n: nat)
    requires Inv(s, pat) && !s.isBreathing && TotalDuration(pat) > 0
    ensures Stop(TickN(Start(s, pat), pat, n * TotalDuration(pat))).totalBreaths == s.totalBreaths + n
    ensures Stop(TickN(Start(s, pat), pat, n * TotalDuration(pat))).phase == Idle
  {
    RoundsFromFirstPhase(Start(s, pat), pat, n);
  }

  /** n runs of the phase effect, as React would keep re-running it. */
  function EffectRuns(s: Session, pat: Pattern, n: nat): Session
    decreases n
  {
    if n == 0 then s else EffectRun(EffectRuns(s, pat, n - 1), pat)
  }

  /** A session t reached from s by m skips under the all-zero pattern. */
  predicate SkippedFrom(s: Session, t: Session, pat: Pattern, m: nat)
    requires s.phase != Idle
  {
    && Running(t) && Duration(pat, t.phase) == 0
    && Ord(t.phase) == (Ord(s.phase) + m) % 4
    && t.cycles == s.cycles + (Ord(s.phase) + m) / 4
    && t.cues == s.cues && t.countdown == s.countdown
  }

  /** With every duration zero, each run of the phase effect is a skip that
      triggers another: the phase goes round, no cue is ever played, and a
      cycle is counted every four runs, without end. */
  lemma {:induction false} ZeroPatternNeverSettles(s: Session, pat: Pattern, n: nat)
    requires (forall ph :: Duration(pat, ph) == 0) && Running(s)
    ensures SkippedFrom(s, EffectRuns(s, pat, n), pat, n)
    decreases n
  {
    if n > 0 {
      ZeroPatternNeverSettles(s, pat, n - 1);
      SkipOnce(s, EffectRuns(s, pat, n - 1), pat, n - 1);
    }
  }

  /** One more skip after m of them. */
  lemma SkipOnce(s: Session, t: Session, pat: Pattern, m: nat)
    requires (forall ph :: Duration(pat, ph) == 0) && Running(s)
    requires SkippedFrom(s, t, pat, m)
    ensures SkippedFrom(s, EffectRun(t, pat), pat, m + 1)
  {
    ZeroStep(t, pat);
    DivModSucc(Ord(s.phase) + m);
  }

  /** One effect run under the all-zero pattern. */
  lemma ZeroStep(t: Session, pat: Pattern)
    requires (forall ph :: Duration(pat, ph) == 0) && Running(t)
    ensures var u := EffectRun(t, pat);
      && Running(u) && Duration(pat, u.phase) == 0
      && Ord(u.phase) == (Ord(t.phase) + 1) % 4
      && u.cycles == t.cycles + (if Ord(t.phase) == 3 then 1 else 0)
      && u.cues == t.cues && u.countdown == t.countdown
  {
    assert EffectRun(t, pat) == Advance(t);
  }

  lemma DivModSucc(m: nat)
    ensures (m + 1) % 4 == (m % 4 + 1) % 4
    ensures (m + 1) / 4 == m / 4 + (if m % 4 == 3 then 1 else 0)
  {
  }

  /** In particular, every four runs bring the phase back with one cycle more. */
  lemma ZeroPatternCountsForever(s: Session, pat: Pattern, n: nat)
    requires (forall ph :: Duration(pat, ph) == 0) && Running(s)
    ensures EffectRuns(s, pat, 4 * n).phase == s.phase
    ensures EffectRuns(s, pat, 4 * n).cycles == s.cycles + n
  {
    ZeroPatternNeverSettles(s, pat, 4 * n);
    var t := EffectRuns(s, pat, 4 * n);
    assert (Ord(s.phase) + 4 * n) / 4 == n;
    assert (Ord(s.phase) + 4 * n) % 4 == Ord(s.phase);
    OrdInjective(t.phase, s.phase);
  }
}
