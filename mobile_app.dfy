/** The mobile client's App component: the same engine as the web client, with
    the pattern-cycling tap, the long-press reset and the settings panel that
    pauses a session while it is open. */
module MobileApp {
  import opened Patterns
  import opened Cycle
  import opened Display

  /** The pattern tap: the next entry of the table, wrapping after the last. */
  function NextPatternIndex(i: nat): (r: nat)
    ensures r < |Presets|
    ensures i + 1 < |Presets| ==> r == i + 1
    ensures i + 1 == |Presets| ==> r == 0
  {
    (i + 1) % |Presets|
  }

  /** The index after k taps. */
  function Taps(i: nat, k: nat): nat
    decreases k
  {
    if k == 0 then i else NextPatternIndex(Taps(i, k - 1))
  }

  /** k taps move k places round the table. */
  lemma {:induction false} TapsModulo(i: nat, k: nat)
    requires i < |Presets|
    ensures Taps(i, k) == (i + k) % |Presets|
    decreases k
  {
    if k > 0 {
      TapsModulo(i, k - 1);
    }
  }

  /** Five taps come back to the pattern they started from, and fewer do not. */
  lemma FiveTapsReturn(i: nat)
    requires i < |Presets|
    ensures Taps(i, |Presets|) == i
    ensures forall k :: 0 < k < |Presets| ==> Taps(i, k) != i
  {
    TapsModulo(i, |Presets|);
    forall k | 0 < k < |Presets|
      ensures Taps(i, k) != i
    {
      TapsModulo(i, k);
    }
  }

  class App {
    var phase: Phase
    var isBreathing: bool
    var isPaused: bool
    var cycles: nat
    var countdown: nat
    var sessionTime: nat
    var totalBreaths: nat
    var elapsed: nat
    var cues: seq<Phase>
    var showSettings: bool
    var selectedPattern: nat
    var custom: Pattern

    /** The engine fields as a session value. */
    function Snapshot(): Session
      reads this
    {
      Session(phase, isBreathing, isPaused, cycles, countdown, sessionTime, totalBreaths, elapsed, cues)
    }

    /** The pattern the engine is running. */
    function CurrentDurations(): Pattern
      reads this
      requires selectedPattern < |Presets|
    {
      CurrentPattern(selectedPattern, custom)
    }

    ghost predicate Valid()
      reads this
    {
      selectedPattern < |Presets| && Inv(Snapshot(), CurrentDurations())
    }

    /** The component after mounting, with the stored settings and lifetime total. */
    constructor (storedPattern: nat, storedCustom: Pattern, storedTotal: nat)
      requires storedPattern < |Presets|
      ensures Valid() && Snapshot() == Initial(storedTotal)
      ensures selectedPattern == storedPattern && custom == storedCustom && !showSettings
    {
      phase := Idle;
      isBreathing := false;
      isPaused := false;
      cycles := 0;
      countdown := 4;
      sessionTime := 0;
      totalBreaths := storedTotal;
      elapsed := 0;
      cues := [];
      showSettings := false;
      selectedPattern := storedPattern;
      custom := storedCustom;
    }

    /** The phase switch of the skip branch and of the end-of-phase timeout. */
    method AdvancePhase()
      modifies this
      ensures showSettings == old(showSettings) && selectedPattern == old(selectedPattern)
      ensures custom == old(custom)
      ensures Snapshot() == Advance(old(Snapshot()))
    {
      match phase
      case Inhale => phase := Hold1;
      case Hold1 => phase := Exhale;
      case Exhale => phase := Hold2;
      case Hold2 =>
        phase := Inhale;
        cycles := cycles + 1;
      case Idle =>
    }

    /** The phase effect, re-run after each skip until a timed phase is armed. */
    method RunPhaseEffect()
      requires selectedPattern < |Presets|
      requires !Running(Snapshot()) || TotalDuration(CurrentDurations()) > 0
      modifies this
      ensures showSettings == old(showSettings) && selectedPattern == old(selectedPattern)
      ensures custom == old(custom)
      ensures Snapshot() == Settle(old(Snapshot()), CurrentDurations())
    {
      if !isBreathing || phase == Idle || isPaused {
        return;
      }
      var pat := CurrentDurations();
      while Duration(pat, phase) == 0
        invariant selectedPattern < |Presets| && pat == CurrentDurations()
        invariant Running(Snapshot()) && TotalDuration(pat) > 0
        invariant Settle(Snapshot(), pat) == Settle(old(Snapshot()), pat)
        invariant showSettings == old(showSettings) && selectedPattern == old(selectedPattern)
        invariant custom == old(custom)
        decreases Dist(phase, FirstTimedFrom(pat, phase))
      {
        FirstTimedSkip(pat, phase);
        AdvancePhase();
      }
      countdown := Duration(pat, phase);
      elapsed := 0;
      cues := cues + [phase];
    }

    /** startBreathing, then the phase effect its updates trigger. */
    method StartBreathing()
      requires Valid() && !isBreathing && TotalDuration(CurrentDurations()) > 0
      modifies this
      ensures showSettings == old(showSettings) && selectedPattern == old(selectedPattern) && custom == old(custom)
      ensures Valid()
      ensures Snapshot() == Start(old(Snapshot()), CurrentDurations())
    {
      BeginSession();
      RunPhaseEffect();
    }

    /** The state updates of startBreathing, before the effect they trigger. */
    method BeginSession()
      modifies this
      ensures showSettings == old(showSettings) && selectedPattern == old(selectedPattern)
      ensures custom == old(custom)
      ensures Snapshot() == old(Snapshot()).(isBreathing := true, phase := Inhale, cycles := 0, sessionTime := 0)
    {
      isBreathing := true;
      phase := Inhale;
      cycles := 0;
      sessionTime := 0;
    }

    /** stopBreathing. */
    method StopBreathing()
      requires Valid()
      modifies this
      ensures showSettings == old(showSettings) && selectedPattern == old(selectedPattern)
      ensures custom == old(custom)
      ensures Valid()
      ensures Snapshot() == Stop(old(Snapshot()))
    {
      isBreathing := false;
      isPaused := false;
      phase := Idle;
      totalBreaths := totalBreaths + cycles;
    }

    /** togglePause; resuming lets the phase effect run again. */
    method TogglePause()
      requires Valid()
      modifies this
      ensures showSettings == old(showSettings) && selectedPattern == old(selectedPattern)
      ensures custom == old(custom)
      ensures Valid()
      ensures Snapshot() == Cycle.TogglePause(old(Snapshot()), CurrentDurations())
    {
      if isBreathing && phase != Idle {
        isPaused := !isPaused;
        if !isPaused {
          RunPhaseEffect();
        }
      }
    }

    /** The session interval and the countdown interval firing once. */
    method CountSecond(d: nat)
      modifies this
      ensures showSettings == old(showSettings) && selectedPattern == old(selectedPattern)
      ensures custom == old(custom)
      ensures Snapshot() == old(Snapshot()).(sessionTime := old(sessionTime) + 1,
        countdown := CountdownStep(old(countdown), d), elapsed := old(elapsed) + 1)
    {
      sessionTime := sessionTime + 1;
      if countdown <= 1 {
        countdown := d;
      } else {
        countdown := countdown - 1;
      }
      elapsed := elapsed + 1;
    }

    /** One second: the session interval, the countdown interval and, when the
        phase is over, the end-of-phase timeout and the effect run it causes. */
    method Tick()
      requires Valid()
      modifies this
      ensures showSettings == old(showSettings) && selectedPattern == old(selectedPattern)
      ensures custom == old(custom)
      ensures Valid()
      ensures Snapshot() == Cycle.Tick(old(Snapshot()), CurrentDurations())
    {
      if isBreathing && !isPaused {
        var d := Duration(CurrentDurations(), phase);
        CountSecond(d);
        if elapsed == d {
          AdvancePhase();
          RunPhaseEffect();
        }
      }
    }

    /** The pattern name's tap: the next pattern of the table. Only the phase
        effect reacts, re-arming the current phase under the new pattern. */
    method TapPattern()
      requires Valid()
      requires isBreathing ==> TotalDuration(CurrentPattern(NextPatternIndex(selectedPattern), custom)) > 0
      modifies this
      ensures selectedPattern == NextPatternIndex(old(selectedPattern))
      ensures custom == old(custom) && showSettings == old(showSettings)
      ensures Valid()
      ensures Snapshot() == Settle(old(Snapshot()), CurrentDurations())
    {
      selectedPattern := NextPatternIndex(selectedPattern);
      RunPhaseEffect();
    }

    /** A pattern card in the settings panel; the selected one again changes nothing. */
    method SelectPattern(i: nat)
      requires Valid() && i < |Presets|
      requires isBreathing ==> TotalDuration(CurrentPattern(i, custom)) > 0
      modifies this
      ensures selectedPattern == i
      ensures custom == old(custom) && showSettings == old(showSettings)
      ensures Valid()
      ensures i == old(selectedPattern) ==> Snapshot() == old(Snapshot())
      ensures i != old(selectedPattern) ==> Snapshot() == Settle(old(Snapshot()), CurrentDurations())
    {
      if i != selectedPattern {
        selectedPattern := i;
        RunPhaseEffect();
      }
    }

    /** One custom slider of the settings panel, in whole seconds from 0 to 10. */
    method SetCustomDuration(ph: Phase, v: nat)
      requires Valid() && selectedPattern == CustomIndex && ph != Idle && v <= MaxCustomSeconds
      requires isBreathing ==> TotalDuration(WithDuration(custom, ph, v)) > 0
      modifies this
      ensures selectedPattern == old(selectedPattern) && showSettings == old(showSettings)
      ensures custom == WithDuration(old(custom), ph, v)
      ensures Valid()
      ensures Snapshot() == Settle(old(Snapshot()), custom)
    {
      custom := WithDuration(custom, ph, v);
      RunPhaseEffect();
    }

    /** The settings button: opens the panel and pauses a breathing session. */
    method OpenSettings()
      requires Valid()
      modifies this
      ensures selectedPattern == old(selectedPattern) && custom == old(custom)
      ensures Valid() && showSettings
      ensures Snapshot() == PauseForSettings(old(Snapshot()))
    {
      showSettings := true;
      if isBreathing {
        isPaused := true;
      }
    }

    /** Closing the panel resumes a session only when it is breathing and paused. */
    method CloseSettings()
      requires Valid()
      modifies this
      ensures selectedPattern == old(selectedPattern) && custom == old(custom)
      ensures Valid() && !showSettings
      ensures Snapshot() == ResumeAfterSettings(old(Snapshot()), CurrentDurations())
    {
      showSettings := false;
      if isBreathing && isPaused {
        isPaused := false;
        RunPhaseEffect();
      }
    }

    /** A long press on the lifetime total resets it. */
    method LongPressTotal()
      requires Valid()
      modifies this
      ensures showSettings == old(showSettings) && selectedPattern == old(selectedPattern)
      ensures custom == old(custom)
      ensures Valid()
      ensures Snapshot() == old(Snapshot()).(totalBreaths := 0)
    {
      totalBreaths := 0;
    }

    /** getActivePhases. */
    method GetActivePhases() returns (phases: seq<Phase>)
      requires selectedPattern < |Presets|
      ensures phases == ActivePhases(CurrentDurations())
    {
      var p := CurrentDurations();
      phases := [];
      if p.inhale > 0 {
        phases := phases + [Inhale];
      }
      if p.hold1 > 0 {
        phases := phases + [Hold1];
      }
      if p.exhale > 0 {
        phases := phases + [Exhale];
      }
      if p.hold2 > 0 {
        phases := phases + [Hold2];
      }
    }

    /** currentPhaseIndex: the position of the phase among the active ones, plus one. */
    method CurrentPhaseIndex() returns (n: nat)
      requires selectedPattern < |Presets|
      ensures n == PhaseNumber(CurrentDurations(), phase)
    {
      var active := GetActivePhases();
      n := IndexOf(active, phase) + 1;
    }
  }
}
