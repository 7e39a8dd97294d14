/** The breathing-session engine of both clients as a transition system over
    session values. Wall-clock timers are a discrete one-second Tick; the phase
    effect, which React re-runs whenever the phase, the pause flag or the
    pattern change, is Settle. */
module Cycle {
  import opened Patterns

  /** The session fields of the engine. `elapsed` counts the seconds the pending
      end-of-phase timeout has run; `cues` lists the phases whose cue was played,
      in order (the sound itself is an uninterpreted event). */
  datatype Session = Session(
    phase: Phase,
    isBreathing: bool,
    isPaused: bool,
    cycles: nat,
    countdown: nat,
    sessionTime: nat,
    totalBreaths: nat,
    elapsed: nat,
    cues: seq<Phase>)

  /** The state before any session, with the lifetime total read from storage. */
  function Initial(totalBreaths: nat): (r: Session)
    ensures !r.isBreathing && !r.isPaused && r.phase == Idle
    ensures r.cycles == 0 && r.sessionTime == 0 && r.countdown == 4 && r.cues == []
    ensures r.totalBreaths == totalBreaths
    ensures forall pat :: Inv(r, pat)
  {
    Session(Idle, false, false, 0, 4, 0, totalBreaths, 0, [])
  }

  /** The guard of the phase effect: breathing, not idle and not paused. */
  predicate Running(s: Session) {
    s.isBreathing && s.phase != Idle && !s.isPaused
  }

  /** The current phase is timed and its countdown shows the seconds left. */
  predicate Armed(s: Session, pat: Pattern) {
    var d := Duration(pat, s.phase);
    s.phase != Idle && 0 < d && s.elapsed < d && s.countdown == d - s.elapsed
  }

  /** How the flags and the phase relate in every reachable state. */
  predicate Shape(s: Session) {
    (s.isBreathing <==> s.phase != Idle) && (s.isPaused ==> s.isBreathing)
  }

  /** The engine invariant: a session only runs a pattern with a positive cycle,
      and a running session is always inside a timed phase. */
  predicate Inv(s: Session, pat: Pattern) {
    Shape(s) &&
    (s.isBreathing ==> TotalDuration(pat) > 0) &&
    (Running(s) ==> Armed(s, pat))
  }

  /** One firing of the per-second countdown interval. */
  function CountdownStep(prev: nat, d: nat): (r: nat)
    ensures 1 <= prev <= d ==> 1 <= r <= d
    ensures r < prev || r == d
  {
    if prev <= 1 then d else prev - 1
  }

  /** The phase switch: move to the successor, counting a cycle when hold2 ends. */
  function Advance(s: Session): (r: Session)
    ensures r == s.(phase := r.phase, cycles := r.cycles)
    ensures r.phase == Next(s.phase)
    ensures r.cycles == s.cycles + (if s.phase == Hold2 && r.phase == Inhale then 1 else 0)
  {
    s.(phase := Next(s.phase), cycles := s.cycles + (if s.phase == Hold2 then 1 else 0))
  }

  /** Entering a timed phase: reset the countdown, restart the timeout, play the cue. */
  function Arm(s: Session, pat: Pattern): (r: Session)
    ensures s.phase != Idle && Duration(pat, s.phase) > 0 ==> Armed(r, pat) && r.elapsed == 0
    ensures r.cues == s.cues + [s.phase]
    ensures r == s.(countdown := r.countdown, elapsed := r.elapsed, cues := r.cues)
  {
    s.(countdown := Duration(pat, s.phase), elapsed := 0, cues := s.cues + [s.phase])
  }

  /** One run of the phase effect: nothing unless running; a zero-length phase is
      left at once, without touching the countdown or playing a cue. */
  function EffectRun(s: Session, pat: Pattern): (r: Session)
    ensures !Running(s) ==> r == s
    ensures Running(s) && Duration(pat, s.phase) == 0 ==> r == Advance(s)
    ensures Running(s) && Duration(pat, s.phase) > 0 ==> r == Arm(s, pat)
  {
    if !Running(s) then s
    else if Duration(pat, s.phase) == 0 then Advance(s)
    else Arm(s, pat)
  }

  /** How many places b lies after a in the cyclic phase order. */
  function Dist(a: Phase, b: Phase): (k: nat)
    requires a != Idle && b != Idle
    ensures k < 4
    ensures k == 0 <==> a == b
  {
    if Ord(a) <= Ord(b) then Ord(b) - Ord(a) else Ord(b) + 4 - Ord(a)
  }

  /** The first phase at or after ph, in cyclic order, whose duration is positive. */
  function FirstTimedFrom(pat: Pattern, ph: Phase): (r: Phase)
    requires ph != Idle && TotalDuration(pat) > 0
    ensures r != Idle && Duration(pat, r) > 0
    ensures forall q :: q != Idle && Dist(ph, q) < Dist(ph, r) ==> Duration(pat, q) == 0
  {
    var n1 := Next(ph);
    var n2 := Next(n1);
    var n3 := Next(n2);
    if Duration(pat, ph) > 0 then ph
    else if Duration(pat, n1) > 0 then n1
    else if Duration(pat, n2) > 0 then n2
    else n3
  }

  /** FirstTimedFrom is determined by its two properties. */
  lemma FirstTimedUnique(pat: Pattern, ph: Phase, r: Phase)
    requires ph != Idle && r != Idle && Duration(pat, r) > 0
    requires forall q :: q != Idle && Dist(ph, q) < Dist(ph, r) ==> Duration(pat, q) == 0
    ensures TotalDuration(pat) > 0 && FirstTimedFrom(pat, ph) == r
  {
    var f := FirstTimedFrom(pat, ph);
    // each of f and r has positive duration, so neither lies strictly before the other
    assert Dist(ph, f) == Dist(ph, r);
    assert Ord(f) == Ord(r);
    OrdInjective(f, r);
  }

  /** Skipping a zero-length phase leaves the target unchanged and one place nearer. */
  lemma FirstTimedSkip(pat: Pattern, ph: Phase)
    requires ph != Idle && TotalDuration(pat) > 0 && Duration(pat, ph) == 0
    ensures FirstTimedFrom(pat, Next(ph)) == FirstTimedFrom(pat, ph)
    ensures Dist(Next(ph), FirstTimedFrom(pat, ph)) == Dist(ph, FirstTimedFrom(pat, ph)) - 1
  {
    var f := FirstTimedFrom(pat, ph);
    forall q | q != Idle && Dist(Next(ph), q) < Dist(Next(ph), f)
      ensures Duration(pat, q) == 0
    {
      if q != ph {
        assert Dist(ph, q) < Dist(ph, f);
      }
    }
    FirstTimedUnique(pat, Next(ph), f);
  }

  /** At most three consecutive skips happen before a timed phase is reached. */
  lemma AtMostThreeSkips(pat: Pattern, ph: Phase)
    requires ph != Idle && TotalDuration(pat) > 0
    ensures Dist(ph, FirstTimedFrom(pat, ph)) <= 3
    ensures NextN(ph, Dist(ph, FirstTimedFrom(pat, ph))) == FirstTimedFrom(pat, ph)
  {
    var f := FirstTimedFrom(pat, ph);
    var k := Dist(ph, f);
    NextNOrd(ph, k);
    OrdInjective(NextN(ph, k), f);
  }

  /** The phase effect and the re-runs it causes, until it arms a timed phase.
      Only a running session with a positive cycle gets there; with an all-zero
      pattern the source keeps skipping (see Rounds.ZeroPatternNeverSettles). */
  function Settle(s: Session, pat: Pattern): (r: Session)
    requires !Running(s) || TotalDuration(pat) > 0
    decreases if Running(s) && TotalDuration(pat) > 0 then Dist(s.phase, FirstTimedFrom(pat, s.phase)) else 0
    ensures !Running(s) ==> r == s
    ensures Running(s) ==> Running(r) && Armed(r, pat) && r.elapsed == 0 && r.countdown == Duration(pat, r.phase)
    ensures Running(s) ==> r.phase == FirstTimedFrom(pat, s.phase) && r.cues == s.cues + [r.phase]
    ensures r.cycles == s.cycles + (if Running(s) && Ord(r.phase) < Ord(s.phase) then 1 else 0)
    ensures r.isBreathing == s.isBreathing && r.isPaused == s.isPaused
    ensures r.sessionTime == s.sessionTime && r.totalBreaths == s.totalBreaths
  {
    if Running(s) && Duration(pat, s.phase) == 0 then
      FirstTimedSkip(pat, s.phase);
      Settle(EffectRun(s, pat), pat)
    else
      EffectRun(s, pat)
  }

  /** One second of wall-clock time: the session timer, the countdown interval
      and, when the phase has run its duration, the end-of-phase timeout. */
  function Tick(s: Session, pat: Pattern): (r: Session)
    ensures Inv(s, pat) ==> Inv(r, pat)
    ensures r.isBreathing == s.isBreathing && r.isPaused == s.isPaused && r.totalBreaths == s.totalBreaths
    ensures r.sessionTime == s.sessionTime + (if s.isBreathing && !s.isPaused then 1 else 0)
    ensures !Running(s) ==> r.phase == s.phase && r.countdown == s.countdown && r.cycles == s.cycles && r.cues == s.cues
    ensures Running(s) && Armed(s, pat) && s.elapsed + 1 < Duration(pat, s.phase) ==>
      r == s.(countdown := s.countdown - 1, elapsed := s.elapsed + 1, sessionTime := s.sessionTime + 1)
    ensures Running(s) && Armed(s, pat) && s.elapsed + 1 == Duration(pat, s.phase) ==>
      && r.phase == FirstTimedFrom(pat, Next(s.phase))
      && r.cycles == s.cycles + (if Ord(r.phase) <= Ord(s.phase) then 1 else 0)
      && r.countdown == Duration(pat, r.phase) && r.elapsed == 0
      && r.cues == s.cues + [r.phase]
    ensures r.cycles <= s.cycles + 1
  {
    if !s.isBreathing || s.isPaused then s
    else
      var s1 := s.(sessionTime := s.sessionTime + 1);
      if s.phase == Idle then s1
      else
        var d := Duration(pat, s.phase);
        if d == 0 then s1
        else
          var s2 := s1.(countdown := CountdownStep(s.countdown, d), elapsed := s.elapsed + 1);
          if s2.elapsed < d then s2 else Settle(Advance(s2), pat)
  }

  /** startBreathing followed by the phase effect it triggers. */
  function Start(s: Session, pat: Pattern): (r: Session)
    requires TotalDuration(pat) > 0
    ensures r.isBreathing && r.isPaused == s.isPaused && r.totalBreaths == s.totalBreaths
    ensures r.cycles == 0 && r.sessionTime == 0
    ensures s.isPaused ==> r.phase == Inhale
    ensures !s.isPaused ==> r.phase == FirstTimedFrom(pat, Inhale) && Armed(r, pat) && r.elapsed == 0
    ensures !s.isPaused ==> r.countdown == Duration(pat, r.phase) && r.cues == s.cues + [r.phase]
    ensures Shape(s) ==> Inv(r, pat)
  {
    Settle(s.(isBreathing := true, phase := Inhale, cycles := 0, sessionTime := 0), pat)
  }

  /** stopBreathing: the session ends and its cycles join the lifetime total. */
  function Stop(s: Session): (r: Session)
    ensures !r.isBreathing && !r.isPaused && r.phase == Idle
    ensures r.totalBreaths == s.totalBreaths + s.cycles
    ensures forall pat :: Inv(r, pat)
    ensures r.cycles == s.cycles && r.sessionTime == s.sessionTime && r.countdown == s.countdown && r.cues == s.cues
  {
    s.(isBreathing := false, isPaused := false, phase := Idle, totalBreaths := s.totalBreaths + s.cycles)
  }

  /** togglePause: flips the pause only while breathing outside idle; resuming
      re-runs the phase effect, which restarts the phase at its full duration. */
  function TogglePause(s: Session, pat: Pattern): (r: Session)
    requires s.isBreathing ==> TotalDuration(pat) > 0
    ensures !(s.isBreathing && s.phase != Idle) ==> r == s
    ensures s.isBreathing && s.phase != Idle ==> r.isPaused == !s.isPaused
    ensures s.isBreathing && s.phase != Idle && !s.isPaused ==> r == s.(isPaused := true)
    ensures s.isBreathing && s.phase != Idle && s.isPaused ==>
      && r.phase == FirstTimedFrom(pat, s.phase) && r.countdown == Duration(pat, r.phase) && r.elapsed == 0
      && r.cues == s.cues + [r.phase]
      && r.cycles == s.cycles + (if Ord(r.phase) < Ord(s.phase) then 1 else 0)
    ensures r.isBreathing == s.isBreathing && r.sessionTime == s.sessionTime && r.totalBreaths == s.totalBreaths
    ensures s.cycles <= r.cycles <= s.cycles + 1
    ensures Inv(s, pat) ==> Inv(r, pat)
  {
    if s.isBreathing && s.phase != Idle then
      if s.isPaused then Settle(s.(isPaused := false), pat) else s.(isPaused := true)
    else s
  }

  /** Opening the settings pauses a session that is breathing. */
  function PauseForSettings(s: Session): (r: Session)
    ensures r == s.(isPaused := r.isPaused)
    ensures r.isPaused == (s.isPaused || s.isBreathing)
    ensures forall pat :: Inv(s, pat) ==> Inv(r, pat)
  {
    if s.isBreathing then s.(isPaused := true) else s
  }

  /** Closing the settings clears a pause only when breathing and paused, and
      the phase effect then restarts the current phase. */
  function ResumeAfterSettings(s: Session, pat: Pattern): (r: Session)
    requires s.isBreathing ==> TotalDuration(pat) > 0
    ensures !(s.isBreathing && s.isPaused) ==> r == s
    ensures r.isPaused == (s.isPaused && !s.isBreathing)
    ensures s.isBreathing && s.isPaused && s.phase != Idle ==>
      && r.phase == FirstTimedFrom(pat, s.phase) && r.countdown == Duration(pat, r.phase) && r.elapsed == 0
      && r.cues == s.cues + [r.phase]
      && r.cycles == s.cycles + (if Ord(r.phase) < Ord(s.phase) then 1 else 0)
    ensures r.isBreathing == s.isBreathing && r.sessionTime == s.sessionTime && r.totalBreaths == s.totalBreaths
    ensures Inv(s, pat) ==> Inv(r, pat)
  {
    if s.isBreathing && s.isPaused then Settle(s.(isPaused := false), pat) else s
  }
}
