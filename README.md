# Breathing-session engine

This project models the guided-breathing timer's session engine and proves
properties about it. The engine exists twice: in the web client's `Home`
component and in the mobile client's `App` component.

A session walks through the phases inhale, hold1, exhale and hold2, over and
over, with whole-second durations taken from the selected pattern. The pattern
is one of four presets, or the custom durations at index 4. Phases of length 0
are skipped at once. A cycle is counted each time hold2 gives way to inhale.
A countdown shows the seconds left in the phase and reloads instead of reaching
0. A session can be started, paused, resumed and stopped. On stop, its cycles
are added to a lifetime total of breaths.

The model is laid out as follows:

- `Patterns` holds the preset table, the durations and the phase order.
- `Cycle` holds the engine as a transition system over a `Session` value.
  - The React effects and timers become functions. `Tick` is one second of
    wall-clock time. `Settle` is the phase effect together with the re-runs it
    causes.
  - `elapsed` counts how long the pending end-of-phase timeout has run.
  - `cues` lists the phases whose sound cue was played, in order.
- `Rounds` relates many seconds of a session, and many effect runs, to
  whole cycles.
- `Display` holds the active phase list, the "Phase k of n" number and the
  `m:ss` clock.
- `WebHome.Home` and `MobileApp.App` are classes with the components' fields.
  Each handler and timer is a method whose `ensures` ties the new fields to the
  `Cycle` function of the old ones and keeps the class invariant `Valid()`.

The React effects are resolved as follows:

- After every state change, each effect whose dependencies changed runs once.
- The phase effect either skips a zero-length phase, which changes the phase
  and so makes the effect run again, or arms a timed one. Arming resets the
  countdown, restarts the timeout and plays the cue.
- Resuming from a pause therefore restarts the current phase at its full
  duration, as the code does.

## Model

| member | source | states |
|---|---|---|
| `Patterns.PresetTable` | app/page.tsx:17-23 | the table has five entries with Custom last; every entry has a positive cycle within the 0..10 slider range, and the Custom defaults are those of Box Breathing |
| `Patterns.Duration` | app/page.tsx:189-193 | a phase length never exceeds the sum of the four; any phase other than inhale, hold1 and exhale, idle included, reads hold2, as the chained conditional falls through |
| `Patterns.TotalDuration` | app/page.tsx:77 | the cycle length is 0 exactly when every phase has length 0, and bounds every phase |
| `Patterns.CurrentPattern` | app/page.tsx:73 | index 4 runs the custom durations; any other index runs exactly that entry of the preset table, which has a positive cycle and durations within 0..10 |
| `Patterns.WithDuration` | app/page.tsx:470-508 | a slider sets its own phase to the new value, leaves the other three phases alone, and keeps the 0..10 range |
| `Patterns.Next` | app/page.tsx:197-211 | idle stays idle; a breathing phase moves one place round the order inhale, hold1, exhale, hold2 |
| `Patterns.FourStepsReturn` | app/page.tsx:234-248 | the phase order is a single cycle of length four: four switches return to the start and fewer never do |
| `Cycle.Initial` | app/page.tsx:26-30 | before any session: idle, not breathing, not paused, no cycles, a countdown of 4, a clock at 0, no cue, the stored lifetime total, and the invariant holds under every pattern |
| `Cycle.CountdownStep` | app/page.tsx:224-231 | a countdown within 1..d stays within 1..d; each second it either falls or reloads to d |
| `Cycle.Advance` | app/page.tsx:234-248 | only the phase and the cycle count change; the phase moves to its successor; a cycle is counted exactly on hold2 to inhale |
| `Cycle.Arm` | app/page.tsx:215-219 | entering a timed phase sets the countdown to its duration and arms the timeout; its cue joins the log; nothing else changes |
| `Cycle.EffectRun` | app/page.tsx:186-213 | the effect does nothing unless breathing, not idle and not paused; a zero-length phase is left without touching the countdown or the cues |
| `Cycle.FirstTimedFrom` | app/page.tsx:196-213 | the phase where skipping stops is timed, and no phase passed on the way is |
| `Cycle.FirstTimedSkip` | app/page.tsx:196-213 | a skip keeps the stopping phase the same and brings it one place nearer |
| `Cycle.AtMostThreeSkips` | app/page.tsx:189-219 | with a positive cycle, at most three consecutive skips reach a timed phase |
| `Cycle.Settle` | app/page.tsx:186-255 | a running session ends at the first timed phase from where it stands, armed with a full countdown and one cue more; a cycle is counted iff the skips wrapped past hold2; the flags, the clock and the lifetime total are untouched |
| `Cycle.Tick` | app/page.tsx:178-184 | one second keeps the invariant. The clock gains a second only while breathing and not paused. Outside a running session, phase, countdown, cycles and cues stay put. Mid-phase the countdown falls by one. At the end of the phase the session moves to the next timed phase with a full countdown and its cue, counting a cycle iff it wrapped |
| `Cycle.Start` | app/page.tsx:118-126 | the session is breathing with cycles and clock at 0, starts at inhale (the first timed phase from inhale), and satisfies the invariant |
| `Cycle.Stop` | app/page.tsx:132-139 | not breathing, not paused and idle; the lifetime total gains the session's cycles |
| `Cycle.TogglePause` | app/page.tsx:141-153 | only while breathing and not idle is the pause flipped, otherwise nothing changes; resuming restarts the phase with a full countdown and a cue; the invariant is kept; the resumed phase is the first timed one from the paused phase, its cue is logged, and a cycle is counted exactly when the skips passed hold2 (a pattern changed while paused can do that) |
| `Cycle.PauseForSettings` | breathe-mobile/App.tsx:328-335 | only the pause flag changes, set exactly when breathing |
| `Cycle.ResumeAfterSettings` | app/page.tsx:293-299 | a pause is cleared exactly when breathing; an unpaused or idle session is unchanged; a resumed phase restarts with a full countdown; the resumed phase logs its cue, and a cycle is counted exactly when the skips passed hold2 |
| `Rounds.TickNKeepsInv` | app/page.tsx:178-255 | the engine invariant holds after any number of seconds |
| `Rounds.PausedIsFrozen` | app/page.tsx:178-187 | outside a session or while paused, any number of seconds changes nothing |
| `Rounds.SessionClockCountsTicks` | app/page.tsx:178-184 | while breathing and not paused, n seconds add exactly n to the session clock |
| `Rounds.CountdownStaysInRange` | app/page.tsx:224-231 | after any number of seconds a running countdown is within 1..duration of its phase |
| `Rounds.PhaseHolds` | app/page.tsx:224-231 | before its time is up a phase stays, the countdown falling one per second |
| `Rounds.PhaseEnds` | app/page.tsx:233-249 | after exactly the rest of its duration a phase ends in the next timed phase, countdown full, one cue more, a cycle counted iff it wrapped |
| `Rounds.RoundEnds` | app/page.tsx:244-247 | from the start of a timed phase, the seconds left in the cycle bring the session to the first timed phase of the next cycle with exactly one cycle more |
| `Rounds.RoundsFromFirstPhase` | app/page.tsx:186-255 | every cycle length of seconds counts exactly one cycle and returns to the same phase and countdown |
| `Rounds.CyclesCountRounds` | app/page.tsx:118-122 | n cycle lengths after a start the session shows n cycles and n cycle lengths on its clock |
| `Rounds.SessionAddsItsCycles` | app/page.tsx:132-139 | a session of n whole cycles, then stopped, adds n to the lifetime total |
| `Rounds.ZeroPatternNeverSettles` | app/page.tsx:196-213 | with every duration 0, each effect run skips and triggers another: the session never reaches a timed phase, plays no cue, and counts one cycle per four runs |
| `Rounds.ZeroPatternCountsForever` | app/page.tsx:207-210 | with every duration 0, every four effect runs return to the same phase with one cycle more, without end |
| `Display.ActivePhases` | app/page.tsx:155-162 | exactly the phases with positive duration, each once, in cycle order; empty iff the cycle is 0 |
| `Display.IndexOf` | app/page.tsx:312 | the first position of the value, or -1 exactly when it is absent |
| `Display.PhaseNumber` | app/page.tsx:311-313 | 0 exactly for idle or an untimed phase, otherwise the 1-based position of the phase among the active ones |
| `Display.RunningPhaseIsNumbered` | app/page.tsx:311-313 | a running session's phase number is between 1 and the number of active phases, which are ordered before and after it |
| `Display.DecimalString` | app/page.tsx:277 | a number renders as digits with no leading zero, one digit exactly when below 10 |
| `Display.DecimalRoundTrip` | app/page.tsx:277 | the rendered digits read back as the number |
| `Display.PadStart2` | app/page.tsx:277 | the text is left-padded with zeros to length two, and longer text is kept |
| `Display.FormatTime` | app/page.tsx:274-278 | the clock text is a digit field, a colon and a two-digit field |
| `Display.FormatTimeRoundTrip` | breathe-mobile/App.tsx:202-206 | the minutes field is s div 60 without leading zeros and the seconds field is s mod 60, below 60; together they read back as s |
| `WebHome.Restart` | app/page.tsx:76-85 | the intended pattern change: a running session restarts at the first timed phase from inhale, with its cycles kept, a full countdown and one cue; a paused one is set to inhale; otherwise nothing changes; the invariant holds under the new pattern |
| `WebHome.PatternChangeAsWritten` | app/page.tsx:76-85 | as the two effects interleave: an old phase untimed in the new pattern is skipped forward rather than restarting; a timed old phase other than inhale plays its cue and then restarts |
| `WebHome.AsWrittenRestartsWhenTimed` | app/page.tsx:186-255 | when the old phase stays timed, the code as written reaches the intended state apart from the cue log |
| `WebHome.LostRestartExample` | app/page.tsx:76-85 | Box breathing at hold1 switched to Wim Hof goes on at exhale, where the restart would give inhale |
| `WebHome.SpuriousCycleExample` | app/page.tsx:207-210 | Box breathing at hold2 switched to 4-7-8 counts a cycle the restart would not |
| `WebHome.Home.constructor` | app/page.tsx:25-36 | the initial state: idle, not breathing, countdown 4, no cycles, the stored pattern, custom durations and lifetime total |
| `WebHome.Home.AdvancePhase` | app/page.tsx:234-248 | the switch statement changes the phase and cycles as `Advance` does and nothing else |
| `WebHome.Home.RunPhaseEffect` | app/page.tsx:186-255 | the skip loop and the arming leave the session as `Settle` does and the settings untouched |
| `WebHome.Home.BeginSession` | app/page.tsx:119-122 | the four updates of startBreathing: breathing, at inhale, no cycles, the clock at 0, nothing else changed |
| `WebHome.Home.StartBreathing` | app/page.tsx:118-126 | the new session is `Start` of the old; the total cycle duration is the sum of the four phases; the invariant holds |
| `WebHome.Home.StopBreathing` | app/page.tsx:132-139 | the new session is `Stop` of the old; settings unchanged |
| `WebHome.Home.TogglePause` | app/page.tsx:141-153 | the new session is `TogglePause` of the old; settings unchanged |
| `WebHome.Home.CountSecond` | app/page.tsx:224-231 | one firing of the countdown interval together with the session interval of lines 179-181: one second more on the clock, the countdown reloaded at 1 or below and decremented otherwise, one second more on the timeout |
| `WebHome.Home.Tick` | app/page.tsx:178-255 | one second of the intervals and the timeout leaves the session as `Tick` does and keeps the invariant |
| `WebHome.Home.PatternChanged` | app/page.tsx:76-85 | the total cycle duration follows the new pattern and the session is `Restart` of the old: the intended restart at inhale, not the interleaving the code produces (see Findings) |
| `WebHome.Home.SelectPattern` | app/page.tsx:443 | picking the selected card again changes nothing; another card gives the intended `Restart` under it (see Findings) |
| `WebHome.Home.SetCustomDuration` | app/page.tsx:461-508 | sets one custom phase and gives the intended `Restart` under the new durations (see Findings) |
| `WebHome.Home.SettingsButton` | app/page.tsx:345-351 | toggles the panel; opening it pauses a breathing session, closing it this way does not resume |
| `WebHome.Home.SoundConfigChanged` | app/page.tsx:255 | any change of the sound settings re-runs the phase effect, whose dependencies include the cue player that app/hooks/useSound.ts:124-169 rebuilds for every sound configuration: the session is `Settle` of the old, so a running session restarts its phase at full length and logs its cue again |
| `WebHome.Home.CloseSettings` | app/page.tsx:417-423 | closes the panel; the session is `ResumeAfterSettings` of the old |
| `WebHome.Home.KeyDown` | app/page.tsx:280-309 | Space with the panel closed stops a session or starts one; Escape with the panel open closes it and resumes; S without Cmd or Ctrl toggles the panel without pausing; any other case changes nothing |
| `WebHome.Home.ResetTotalBreaths` | app/page.tsx:392-396 | the lifetime total becomes 0 exactly when confirmed; nothing else changes |
| `WebHome.Home.GetActivePhases` | app/page.tsx:155-162 | the pushes build `ActivePhases` of the current pattern |
| `WebHome.Home.CurrentPhaseIndex` | app/page.tsx:311-313 | the index shown is `PhaseNumber` of the current phase |
| `MobileApp.NextPatternIndex` | breathe-mobile/App.tsx:352-357 | the tap moves to the next index and wraps from the last to 0, always within the table |
| `MobileApp.TapsModulo` | breathe-mobile/App.tsx:354 | k taps from i give (i + k) mod 5 |
| `MobileApp.FiveTapsReturn` | breathe-mobile/App.tsx:354 | five taps return to the start and fewer never do |
| `MobileApp.App.constructor` | breathe-mobile/App.tsx:36-49 | the initial state: idle, not breathing, countdown 4, no cycles, the stored settings and lifetime total |
| `MobileApp.App.AdvancePhase` | breathe-mobile/App.tsx:178-194 | the switch statement changes the phase and cycles as `Advance` does and nothing else |
| `MobileApp.App.RunPhaseEffect` | breathe-mobile/App.tsx:138-200 | the skip loop and the arming leave the session as `Settle` does |
| `MobileApp.App.BeginSession` | breathe-mobile/App.tsx:92-95 | the four updates of startBreathing, as on the web client |
| `MobileApp.App.StartBreathing` | breathe-mobile/App.tsx:91-100 | the new session is `Start` of the old and satisfies the invariant |
| `MobileApp.App.StopBreathing` | breathe-mobile/App.tsx:102-110 | the new session is `Stop` of the old |
| `MobileApp.App.TogglePause` | breathe-mobile/App.tsx:112-126 | the new session is `TogglePause` of the old |
| `MobileApp.App.CountSecond` | breathe-mobile/App.tsx:169-176 | one firing of the countdown interval together with the session interval of lines 131-133, as on the web client |
| `MobileApp.App.Tick` | breathe-mobile/App.tsx:129-198 | one second of the session interval, the countdown interval and the timeout leaves the session as `Tick` does |
| `MobileApp.App.TapPattern` | breathe-mobile/App.tsx:352-357 | the next pattern is selected and the phase effect re-arms the current phase under it (`Settle`), keeping the invariant |
| `MobileApp.App.SelectPattern` | breathe-mobile/components/SettingsPanel.tsx:91-95 | picking the selected card again changes nothing; another card re-arms the current phase under it |
| `MobileApp.App.SetCustomDuration` | breathe-mobile/components/SettingsPanel.tsx:241-247 | sets one custom phase to a value in 0..10 and re-arms the current phase |
| `MobileApp.App.OpenSettings` | breathe-mobile/App.tsx:328-335 | opens the panel; the session is `PauseForSettings` of the old |
| `MobileApp.App.CloseSettings` | breathe-mobile/App.tsx:412-418 | closes the panel; the session is `ResumeAfterSettings` of the old |
| `MobileApp.App.LongPressTotal` | breathe-mobile/App.tsx:311-316 | the lifetime total becomes 0 and nothing else changes |
| `MobileApp.App.GetActivePhases` | breathe-mobile/App.tsx:82-89 | the pushes build `ActivePhases` of the current pattern |
| `MobileApp.App.CurrentPhaseIndex` | breathe-mobile/App.tsx:208-210 | the index shown is `PhaseNumber` of the current phase |

## Left out

- Audio and haptics are left out: oscillators, audio files, ambient sound, volumes and the haptic feedback. A phase cue is an entry in the `cues` log. The mobile `playPhaseSound()` takes no phase argument; the model logs the phase anyway. `stopPhaseSounds` and the ambient start, stop, pause and resume calls are left out. So is the ambient-sound effect (app/page.tsx:164-175). The one engine-visible consequence of a sound-setting change, the re-run of the web phase effect, is `WebHome.Home.SoundConfigChanged`; on mobile the sound settings sit in the panel that pauses a breathing session, so their re-run of the phase effect returns at its guard and is not modelled.
- Persistence is left out. The stored pattern, custom durations and lifetime total are constructor parameters, read as already loaded. Writes to storage are plain field updates. app/hooks/useLocalStorage.ts is not part of this model, so the web hook is taken to behave like the mobile one: a state value with a setter.
- Animation and presentation are left out: the animation key, the orb and framer/reanimated motion, mouse tilt, the mobile-device check, the phase captions and all layout.
- Real timers are left out. The interval and the timeout become one deterministic `Tick` per second, with no drift and no React scheduling.
- `WebHome.Home.StartBreathing`, `WebHome.Home.KeyDown`, `MobileApp.App.StartBreathing`: require a positive cycle under the current pattern. With all four durations at 0, the zero-skip branch re-runs forever; `Rounds.ZeroPatternNeverSettles` states that behaviour. They also require no running session, because the interface only offers a start then.
- `WebHome.Home.SelectPattern`, `WebHome.Home.SetCustomDuration`, `MobileApp.App.TapPattern`, `MobileApp.App.SelectPattern`, `MobileApp.App.SetCustomDuration`: require a positive cycle for the new pattern while a session is breathing, for the same reason.
- `Cycle.Settle`: requires a positive cycle for a running session. This is where termination of the skips depends on that cycle.
- `WebHome.Home.PatternChanged`: models the intended restart (`WebHome.Restart`), not the interleaving the code produces when the old phase has length 0 under the new pattern; that interleaving is `WebHome.PatternChangeAsWritten` (see Findings).
- `WebHome.Home.SelectPattern`: another card gives the intended restart of `WebHome.Home.PatternChanged`, not the as-written interleaving.
- `WebHome.Home.SetCustomDuration`: a slider move gives the intended restart of `WebHome.Home.PatternChanged`, not the as-written interleaving.
- A slider move always counts as a change of the custom durations, even when the numbers are equal. That is how a fresh object from each move behaves.
- The keyboard handler's `preventDefault` calls and every key other than Space, Escape and S have no effect in the model.

## Findings

| source | as written | input that shows it | evidently intended | confidence | as-written member | corrected member |
|---|---|---|---|---|---|---|
| app/page.tsx:76-85 | The pattern-change effect sets the phase to inhale. The phase effect (186-255) runs in the same commit with the old phase and the new pattern. When the old phase has length 0 in the new pattern, its skip update is applied after the restart and overrides it. The session goes on from the old phase instead of restarting, and leaving hold2 this way counts a cycle. When the old phase is timed but is not inhale, its cue plays before the restart. | Box breathing running in hold1, with the panel opened by the S key so it is not paused, switched to Wim Hof (hold1 = 0): the session continues at exhale. Running in hold2, switched to 4-7-8 (hold2 = 0): the cycle count grows by one. | Changing the pattern mid-session restarts at inhale under the new pattern, as the comment at line 79 says, without counting a cycle | medium, not executed | `WebHome.PatternChangeAsWritten` | `WebHome.Restart` |
