/** The web client's Home component: the session state, the pattern settings
    and the handlers of buttons, keys, sliders and timers. */
module WebHome {
  import opened Patterns
  import opened Cycle
  import opened Display

  /** The keys the keyboard handler looks at. */
  datatype KeyCode = Space | Escape | KeyS | OtherKey

  /** The intended reaction to a pattern change: a breathing session restarts at
      inhale under the new pattern (a paused one resumes there). */
  function Restart(s: Session, pat: Pattern): (r: Session)
    requires s.isBreathing ==> TotalDuration(pat) > 0
    ensures !(s.isBreathing && s.phase != Idle) ==> r == s
    ensures s.isBreathing && s.phase != Idle && s.isPaused ==> r == s.(phase := Inhale)
    ensures Running(s) ==>
      && r.phase == FirstTimedFrom(pat, Inhale) && r.cycles == s.cycles
      && r.countdown == Duration(pat, r.phase) && r.elapsed == 0
      && r.cues == s.cues + [r.phase]
    ensures r.isBreathing == s.isBreathing && r.isPaused == s.isPaused
    ensures r.sessionTime == s.sessionTime && r.totalBreaths == s.totalBreaths
    ensures Shape(s) ==> Inv(r, pat)
  {
    if s.isBreathing && s.phase != Idle then Settle(s.(phase := Inhale), pat) else s
  }

  /** The pattern change as the two effects behave when they run in the same
      commit: the restart effect sets inhale, but the phase effect still sees
      the old phase under the new pattern, and its own update is applied last.
      A zero-length old phase is skipped forward instead of restarting; a timed
      old phase other than inhale plays its cue before the restart. */
  function PatternChangeAsWritten(s: Session, pat: Pattern): (r: Session)
    requires s.isBreathing ==> TotalDuration(pat) > 0
    ensures !(s.isBreathing && s.phase != Idle) ==> r == s
    ensures s.isBreathing && s.phase != Idle && s.isPaused ==> r == s.(phase := Inhale)
    ensures Running(s) && Duration(pat, s.phase) == 0 ==>
      r.phase == FirstTimedFrom(pat, Next(s.phase))
    ensures Running(s) && Duration(pat, s.phase) > 0 ==> r.phase == FirstTimedFrom(pat, Inhale)
    ensures Running(s) && Duration(pat, s.phase) > 0 && s.phase != Inhale ==>
      r.cues == s.cues + [s.phase, r.phase]
  {
    if !(s.isBreathing && s.phase != Idle) then s
    else if s.isPaused then s.(phase := Inhale)
    else if Duration(pat, s.phase) == 0 then Settle(Advance(s), pat)
    else if s.phase == Inhale then Settle(s, pat)
    else Settle(Arm(s, pat).(phase := Inhale), pat)
  }

  /** As written, the restart is kept exactly when the old phase is timed under
      the new pattern (or the old phase is inhale), and then only the cues differ. */
  lemma AsWrittenRestartsWhenTimed(s: Session, pat: Pattern)
    requires Running(s) && TotalDuration(pat) > 0 && Duration(pat, s.phase) > 0
    ensures PatternChangeAsWritten(s, pat) == Restart(s, pat).(cues := PatternChangeAsWritten(s, pat).cues)
  {
  }

  /** Box breathing at hold1, switched to Wim Hof (hold1 of length 0): the session
      goes on at exhale instead of restarting at inhale. */
  lemma LostRestartExample()
    ensures var s := Session(Hold1, true, false, 3, 2, 30, 0, 2, [Inhale, Hold1]);
      && Inv(s, Presets[0])
      && PatternChangeAsWritten(s, Presets[2]).phase == Exhale
      && Restart(s, Presets[2]).phase == Inhale
  {
    var s := Session(Hold1, true, false, 3, 2, 30, 0, 2, [Inhale, Hold1]);
    var w := Presets[2];
    assert Duration(w, Hold1) == 0 && Duration(w, Exhale) == 2;
    assert Settle(Advance(s), w) == Arm(Advance(s), w);
    assert FirstTimedFrom(w, Inhale) == Inhale;
  }

  /** Box breathing at hold2, switched to 4-7-8 (hold2 of length 0): a cycle is
      counted although hold2 did not run its course. */
  lemma SpuriousCycleExample()
    ensures var s := Session(Hold2, true, false, 3, 3, 30, 0, 1, [Hold2]);
      && Inv(s, Presets[0])
      && PatternChangeAsWritten(s, Presets[1]).cycles == 4
      && Restart(s, Presets[1]).cycles == 3
  {
    var s := Session(Hold2, true, false, 3, 3, 30, 0, 1, [Hold2]);
    var f := Presets[1];
    assert Duration(f, Hold2) == 0 && Duration(f, Inhale) == 4;
    assert Settle(Advance(s), f) == Arm(Advance(s), f);
  }

  class Home {
    var phase: Phase
    var isBreathing: bool
    var isPaused: bool
    var cycles: nat
    var countdown: nat
    var sessionTime: nat
    var totalBreaths: nat
    var elapsed: nat
    var cues: seq<Phase>
    var showSettings: bool
    var selectedPattern: nat
    var custom: Pattern
    var totalCycleDuration: nat

    /** The engine fields as a session value. */
    function Snapshot(): Session
      reads this
    {
      Session(phase, isBreathing, isPaused, cycles, countdown, sessionTime, totalBreaths, elapsed, cues)
    }

    /** The pattern the engine is running. */
    function CurrentDurations(): Pattern
      reads this
      requires selectedPattern < |Presets|
    {
      CurrentPattern(selectedPattern, custom)
    }

    ghost predicate Valid()
      reads this
    {
      && selectedPattern < |Presets|
      && Inv(Snapshot(), CurrentDurations())
      && totalCycleDuration == TotalDuration(CurrentDurations())
    }

    /** The component after mounting, with the stored settings and lifetime total. */
    constructor (storedPattern: nat, storedCustom: Pattern, storedTotal: nat)
      requires storedPattern < |Presets|
      ensures Valid() && Snapshot() == Initial(storedTotal)
      ensures selectedPattern == storedPattern && custom == storedCustom && !showSettings
    {
      var pat := CurrentPattern(storedPattern, storedCustom);
      phase := Idle;
      isBreathing := false;
      isPaused := false;
      cycles := 0;
      countdown := 4;
      sessionTime := 0;
      totalBreaths := storedTotal;
      elapsed := 0;
      cues := [];
      showSettings := false;
      selectedPattern := storedPattern;
      custom := storedCustom;
      totalCycleDuration := pat.inhale + pat.hold1 + pat.exhale + pat.hold2;
    }

    /** The phase switch of the skip branch and of the end-of-phase timeout. */
    method AdvancePhase()
      modifies this
      ensures showSettings == old(showSettings) && selectedPattern == old(selectedPattern)
      ensures custom == old(custom) && totalCycleDuration == old(totalCycleDuration)
      ensures Snapshot() == Advance(old(Snapshot()))
    {
      match phase
      case Inhale => phase := Hold1;
      case Hold1 => phase := Exhale;
      case Exhale => phase := Hold2;
      case Hold2 =>
        phase := Inhale;
        cycles := cycles + 1;
      case Idle =>
    }

    /** The phase effect, re-run after each skip until a timed phase is armed. */
    method RunPhaseEffect()
      requires selectedPattern < |Presets|
      requires !Running(Snapshot()) || TotalDuration(CurrentDurations()) > 0
      modifies this
      ensures showSettings == old(showSettings) && selectedPattern == old(selectedPattern)
      ensures custom == old(custom) && totalCycleDuration == old(totalCycleDuration)
      ensures Snapshot() == Settle(old(Snapshot()), CurrentDurations())
    {
      if !isBreathing || phase == Idle || isPaused {
        return;
      }
      var pat := CurrentDurations();
      while Duration(pat, phase) == 0
        invariant selectedPattern < |Presets| && pat == CurrentDurations()
        invariant Running(Snapshot()) && TotalDuration(pat) > 0
        invariant Settle(Snapshot(), pat) == Settle(old(Snapshot()), pat)
        invariant showSettings == old(showSettings) && selectedPattern == old(selectedPattern)
        invariant custom == old(custom) && totalCycleDuration == old(totalCycleDuration)
        decreases Dist(phase, FirstTimedFrom(pat, phase))
      {
        FirstTimedSkip(pat, phase);
        AdvancePhase();
      }
      countdown := Duration(pat, phase);
      elapsed := 0;
      cues := cues + [phase];
    }

    /** startBreathing, then the phase effect its updates trigger. */
    method StartBreathing()
      requires Valid() && !isBreathing && TotalDuration(CurrentDurations()) > 0
      modifies this
      ensures showSettings == old(showSettings) && selectedPattern == old(selectedPattern) && custom == old(custom)
      ensures Valid()
      ensures Snapshot() == Start(old(Snapshot()), CurrentDurations())
      ensures totalCycleDuration == TotalDuration(CurrentDurations())
    {
      BeginSession();
      var pat := CurrentDurations();
      totalCycleDuration := pat.inhale + pat.hold1 + pat.exhale + pat.hold2;
      RunPhaseEffect();
    }

    /** The state updates of startBreathing, before the effect they trigger. */
    method BeginSession()
      modifies this
      ensures showSettings == old(showSettings) && selectedPattern == old(selectedPattern)
      ensures custom == old(custom) && totalCycleDuration == old(totalCycleDuration)
      ensures Snapshot() == old(Snapshot()).(isBreathing := true, phase := Inhale, cycles := 0, sessionTime := 0)
    {
      isBreathing := true;
      phase := Inhale;
      cycles := 0;
      sessionTime := 0;
    }

    /** stopBreathing. */
    method StopBreathing()
      requires Valid()
      modifies this
      ensures showSettings == old(showSettings) && selectedPattern == old(selectedPattern)
      ensures custom == old(custom) && totalCycleDuration == old(totalCycleDuration)
      ensures Valid()
      ensures Snapshot() == Stop(old(Snapshot()))
    {
      isBreathing := false;
      isPaused := false;
      phase := Idle;
      totalBreaths := totalBreaths + cycles;
    }

    /** togglePause; resuming lets the phase effect run again. */
    method TogglePause()
      requires Valid()
      modifies this
      ensures showSettings == old(showSettings) && selectedPattern == old(selectedPattern)
      ensures custom == old(custom) && totalCycleDuration == old(totalCycleDuration)
      ensures Valid()
      ensures Snapshot() == Cycle.TogglePause(old(Snapshot()), CurrentDurations())
    {
      if isBreathing && phase != Idle {
        isPaused := !isPaused;
        if !isPaused {
          RunPhaseEffect();
        }
      }
    }

    /** The session interval and the countdown interval firing once. */
    method CountSecond(d: nat)
      modifies this
      ensures showSettings == old(showSettings) && selectedPattern == old(selectedPattern)
      ensures custom == old(custom) && totalCycleDuration == old(totalCycleDuration)
      ensures Snapshot() == old(Snapshot()).(sessionTime := old(sessionTime) + 1,
        countdown := CountdownStep(old(countdown), d), elapsed := old(elapsed) + 1)
    {
      sessionTime := sessionTime + 1;
      if countdown <= 1 {
        countdown := d;
      } else {
        countdown := countdown - 1;
      }
      elapsed := elapsed + 1;
    }

    /** One second: the session interval, the countdown interval and, when the
        phase is over, the end-of-phase timeout and the effect run it causes. */
    method Tick()
      requires Valid()
      modifies this
      ensures showSettings == old(showSettings) && selectedPattern == old(selectedPattern)
      ensures custom == old(custom) && totalCycleDuration == old(totalCycleDuration)
      ensures Valid()
      ensures Snapshot() == Cycle.Tick(old(Snapshot()), CurrentDurations())
    {
      if isBreathing && !isPaused {
        var d := Duration(CurrentDurations(), phase);
        CountSecond(d);
        if elapsed == d {
          AdvancePhase();
          RunPhaseEffect();
        }
      }
    }

    /** The pattern-change effect followed by the phase effect, in the order that
        makes a breathing session restart at inhale. */
    method PatternChanged()
      requires selectedPattern < |Presets| && Shape(Snapshot())
      requires isBreathing ==> TotalDuration(CurrentDurations()) > 0
      modifies this
      ensures showSettings == old(showSettings) && selectedPattern == old(selectedPattern) && custom == old(custom)
      ensures Snapshot() == Restart(old(Snapshot()), CurrentDurations())
      ensures totalCycleDuration == TotalDuration(CurrentDurations())
    {
      var pat := CurrentDurations();
      totalCycleDuration := pat.inhale + pat.hold1 + pat.exhale + pat.hold2;
      if isBreathing && phase != Idle {
        phase := Inhale;
      }
      RunPhaseEffect();
    }

    /** A pattern card in the settings; picking the selected one again changes nothing. */
    method SelectPattern(i: nat)
      requires Valid() && i < |Presets|
      requires isBreathing ==> TotalDuration(CurrentPattern(i, custom)) > 0
      modifies this
      ensures custom == old(custom) && showSettings == old(showSettings)
      ensures Valid() && selectedPattern == i
      ensures i == old(selectedPattern) ==> Snapshot() == old(Snapshot())
      ensures i != old(selectedPattern) ==> Snapshot() == Restart(old(Snapshot()), CurrentDurations())
    {
      if i != selectedPattern {
        selectedPattern := i;
        PatternChanged();
      }
    }

    /** One custom slider, shown only while Custom is selected, with range 0..10. */
    method SetCustomDuration(ph: Phase, v: nat)
      requires Valid() && selectedPattern == CustomIndex && ph != Idle && v <= MaxCustomSeconds
      requires isBreathing ==> TotalDuration(WithDuration(custom, ph, v)) > 0
      modifies this
      ensures selectedPattern == old(selectedPattern) && showSettings == old(showSettings)
      ensures Valid() && custom == WithDuration(old(custom), ph, v)
      ensures Snapshot() == Restart(old(Snapshot()), custom)
    {
      custom := WithDuration(custom, ph, v);
      PatternChanged();
    }

    /** The settings button: toggles the panel, pausing a session when it opens. */
    method SettingsButton()
      requires Valid()
      modifies this
      ensures selectedPattern == old(selectedPattern) && custom == old(custom)
      ensures Valid() && showSettings == !old(showSettings)
      ensures Snapshot() == if old(showSettings) then old(Snapshot()) else PauseForSettings(old(Snapshot()))
      ensures totalCycleDuration == old(totalCycleDuration)
    {
      var wasOpen := showSettings;
      showSettings := !showSettings;
      if isBreathing && !wasOpen {
        isPaused := true;
      }
    }

    /** Closing the panel by its backdrop or its Done button. */
    method CloseSettings()
      requires Valid()
      modifies this
      ensures selectedPattern == old(selectedPattern) && custom == old(custom)
      ensures Valid() && !showSettings
      ensures Snapshot() == ResumeAfterSettings(old(Snapshot()), CurrentDurations())
      ensures totalCycleDuration == old(totalCycleDuration)
    {
      showSettings := false;
      if isBreathing && isPaused {
        isPaused := false;
        RunPhaseEffect();
      }
    }

    /** A change to any sound setting: the sound toggle, the indicator, a
        volume or the ambient sound. The phase effect depends on the cue player,
        which is rebuilt for every new sound configuration, so the effect runs
        again: a running session (the panel opened by the S key does not pause)
        restarts its current phase at full length and plays its cue again. */
    method SoundConfigChanged()
      requires Valid()
      modifies this
      ensures showSettings == old(showSettings) && selectedPattern == old(selectedPattern)
      ensures custom == old(custom) && totalCycleDuration == old(totalCycleDuration)
      ensures Valid()
      ensures Snapshot() == Settle(old(Snapshot()), CurrentDurations())
    {
      RunPhaseEffect();
    }

    /** The keyboard handler: Space starts or stops with the panel closed, Escape
        closes an open panel, S without Cmd or Ctrl toggles the panel. */
    method KeyDown(code: KeyCode, meta: bool, ctrl: bool)
      requires Valid()
      requires code == Space && !showSettings && !isBreathing ==> TotalDuration(CurrentDurations()) > 0
      modifies this
      ensures selectedPattern == old(selectedPattern) && custom == old(custom)
      ensures Valid()
      ensures code == Space && !old(showSettings) ==>
        && showSettings == old(showSettings)
        && Snapshot() == if old(isBreathing) then Stop(old(Snapshot())) else Start(old(Snapshot()), CurrentDurations())
      ensures code == Escape && old(showSettings) ==>
        !showSettings && Snapshot() == ResumeAfterSettings(old(Snapshot()), CurrentDurations())
      ensures code == KeyS ==>
        && Snapshot() == old(Snapshot())
        && showSettings == (if meta || ctrl then old(showSettings) else !old(showSettings))
      ensures code == OtherKey || (code == Space && old(showSettings)) || (code == Escape && !old(showSettings)) ==>
        Snapshot() == old(Snapshot()) && showSettings == old(showSettings)
    {
      if code == Space && !showSettings {
        if isBreathing {
          StopBreathing();
        } else {
          StartBreathing();
        }
      }
      if code == Escape && showSettings {
        CloseSettings();
      }
      if code == KeyS && !meta && !ctrl {
        showSettings := !showSettings;
      }
    }

    /** The lifetime counter's click, which resets only when the dialog is confirmed. */
    method ResetTotalBreaths(confirmed: bool)
      requires Valid()
      modifies this
      ensures showSettings == old(showSettings) && selectedPattern == old(selectedPattern)
      ensures custom == old(custom) && totalCycleDuration == old(totalCycleDuration)
      ensures Valid()
      ensures Snapshot() == old(Snapshot()).(totalBreaths := if confirmed then 0 else old(totalBreaths))
    {
      if confirmed {
        totalBreaths := 0;
      }
    }

    /** getActivePhases. */
    method GetActivePhases() returns (phases: seq<Phase>)
      requires selectedPattern < |Presets|
      ensures phases == ActivePhases(CurrentDurations())
    {
      var p := CurrentDurations();
      phases := [];
      if p.inhale > 0 {
        phases := phases + [Inhale];
      }
      if p.hold1 > 0 {
        phases := phases + [Hold1];
      }
      if p.exhale > 0 {
        phases := phases + [Exhale];
      }
      if p.hold2 > 0 {
        phases := phases + [Hold2];
      }
    }

    /** currentPhaseIndex: the position of the phase among the active ones, plus one. */
    method CurrentPhaseIndex() returns (n: nat)
      requires selectedPattern < |Presets|
      ensures n == PhaseNumber(CurrentDurations(), phase)
    {
      var active := GetActivePhases();
      n := IndexOf(active, phase) + 1;
    }
  }
}
