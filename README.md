# TimerApp countdown controller in Dafny

TimerApp is a one-screen iOS timer: a wheel picker chooses a countdown
duration, the "Start Timer" button starts a one-second countdown, the label
below the picker shows the time left as `HH:MM:SS`, and when the countdown
runs out an alarm sound plays and the button turns into "Stop Music". A
second one-second timer shows the wall clock over an am or pm background.

All of that logic lives in `TimerViewController`. This project models:

- `format.dfy` (module `Format`): the split of `totalTime` into hours,
  minutes and seconds and its `%02d:%02d:%02d` rendering, with `ParseHms`, a
  reader of such labels, as the partner that shows the rendering is exact.
- `clock.dfy` (module `Clock`): the choice of the `am_background` or
  `pm_background` image from the hour of the day.
- `countdown.dfy` (module `Countdown`): the countdown/alarm state machine.
  `Snapshot` is the controller's state as a value: `totalTime`, the
  `countdownTimer` handle, the timers the run loop still fires, the button
  title, the audio player, and the number of seconds whose rendering the
  countdown label shows. `AfterStartTimer`, `AfterUpdateTimer` and
  `AfterStopMusic` give each operation's effect, and `Inv` is the invariant
  they keep. The class `TimerViewController` holds the same state in fields
  that its methods `StartTimer`, `UpdateTimer`, `PlayMusic` and `StopMusic`
  update in place; each method is proved to have exactly the effect of its
  function.
- `optional.dfy` (module `Optional`): the `Option` type used for the timer
  handle and for parse results.

Inputs from the platform are parameters: the picker's duration (whole
seconds), the hour of the day, and the outcome of loading and starting the
alarm sound (`Played`, `PlayRefused`, `AssetMissing` or
`PlayerInitFailed`). Timer firings are explicit calls to `UpdateTimer`,
allowed only while the countdown timer is live. The run loop is modelled by
the set of timer handles it still fires; `invalidate()` removes a handle from
it.

Behaviour of the code that the model keeps as written:

- The alarm fires on firing d + 1 after a start with duration d, not firing d.
  Firings 1 to d count down from d - 1 to 0, and the last of them shows
  "00:00:00" without an alarm. Firing d + 1 finds `totalTime == 0` and raises
  the alarm (`StartThenFire`, `AlarmAfterCountdown`).
- There is no phase field. Whether an alarm is active is recorded only by the
  button title, which `startTimer` reads to decide what to do.
- `stopMusic` does not reset `totalTime`; it is already 0 whenever the button
  shows "Stop Music" (a clause of the invariant `Inv`). Pressing the button
  twice after an alarm stops the music and then starts a new countdown. So
  `stopMusic` is idempotent, but the button action is not.
- Starting leaves the label as it was. The first firing rewrites it when the
  duration is positive; with duration 0 the first firing raises the alarm and
  the earlier label stays.

## Model

| member | source | states |
|---|---|---|
| Format.Hms | TimerApp/TimerViewController.swift:111-113 | minutes and seconds are below 60 and hours*3600 + minutes*60 + seconds is the time left |
| Format.HmsUnique | TimerApp/TimerViewController.swift:111-113 | that split is the only one with minutes and seconds below 60 |
| Format.Decimal | TimerApp/TimerViewController.swift:114 | the digits of a number are decimal digits, one digit exactly below 10, at most two exactly below 100 |
| Format.DecimalValue | TimerApp/TimerViewController.swift:114 | the digits read back as the number they render |
| Format.Pad2 | TimerApp/TimerViewController.swift:114 | `%02d` gives at least two digits, exactly two below 100 |
| Format.Pad2Value | TimerApp/TimerViewController.swift:114 | the zero-padded field reads back as its number |
| Format.DecimalLeading | TimerApp/TimerViewController.swift:114 | a number of two or more digits is rendered without a leading zero |
| Format.FormatHms | TimerApp/TimerViewController.swift:111-114 | the label has ':' before the minutes and before the seconds, and is exactly 8 characters long when the hours are below 100 |
| Format.ParseFormat | TimerApp/TimerViewController.swift:111-114 | reading the label back gives the time left, for every time left |
| Format.FormatInjective | TimerApp/TimerViewController.swift:111-114 | two different times left never show the same label |
| Format.FormatExamples | TimerApp/TimerViewController.swift:111-114 | 3661 shows "01:01:01", 59 shows "00:00:59", 0 shows "00:00:00" |
| Clock.BackgroundImageName | TimerApp/TimerViewController.swift:91-92 | the background is "pm_background" exactly when the hour is 12 or more and "am_background" exactly when it is below 12 |
| Countdown.ButtonTitle.Text | TimerApp/TimerViewController.swift:97 | the title reads "Stop Music" exactly when the button is in its stop mode, the test `startTimer` makes, and "Start Timer" otherwise |
| Countdown.LabelText | TimerApp/TimerViewController.swift:114 | the countdown label is the rendering of the seconds shown, at least 8 characters long |
| Countdown.LabelShowsSeconds | TimerApp/TimerViewController.swift:111-114 | the label reads back as exactly the seconds it shows |
| Countdown.Initial | TimerApp/TimerViewController.swift:46-48 | a new controller has no live countdown, no playing audio, the "Start Timer" title and 0 seconds left, and satisfies the invariant |
| Countdown.Invalidated | TimerApp/TimerViewController.swift:103 | the platform's `invalidate()`, written as removing the held timer from the timers the run loop fires; that the old timer stops firing and at most one is live is stated by `AfterStartTimer` and `AtMostOneLive` |
| Countdown.Halted | TimerApp/TimerViewController.swift:134 | after `stop()` nothing plays, and a missing player stays missing |
| Countdown.AfterPlayMusic | TimerApp/TimerViewController.swift:122-131 | audio plays afterwards exactly when the sound was played, or was already playing and no new player was made; a new player exists whenever one could be made, even if `play()` refused; a missing asset or a failed initialiser changes nothing |
| Countdown.AfterStopMusic | TimerApp/TimerViewController.swift:133-137 | stopping halts playback, restores "Start Timer" and the zero label, keeps the invariant and changes nothing else |
| Countdown.AfterStartTimer | TimerApp/TimerViewController.swift:96-106 | in "Stop Music" mode it is exactly stopping; otherwise the time left becomes the picker duration, the only live timer is a fresh one that was not live before, and title, audio and label are unchanged |
| Countdown.AfterUpdateTimer | TimerApp/TimerViewController.swift:108-120 | with time left it takes off exactly one second, shows the rest, stays live in "Start Timer" mode on the same timer without scheduling another, and leaves the audio alone; with none left it cancels every live timer, sets "Stop Music" and plays exactly when the sound could be played; the invariant is kept |
| Countdown.AtMostOneLive | TimerApp/TimerViewController.swift:102-105 | in every reachable state at most one countdown timer is fired, and one is fired exactly when the held one is live |
| Countdown.Ticks | TimerApp/TimerViewController.swift:105-120 | any number of firings keeps the invariant |
| Countdown.CountingDown | TimerApp/TimerViewController.swift:108-114 | after k firings, k at most the time left, exactly k seconds are gone and shown, the countdown is live and the audio is untouched |
| Countdown.AlarmAfterCountdown | TimerApp/TimerViewController.swift:108-119 | firing t + 1 with t seconds left cancels the countdown, sets "Stop Music" and plays exactly when the sound could be played, with the label at 0 when t > 0 and unchanged when t == 0 |
| Countdown.NotLiveStays | TimerApp/TimerViewController.swift:116 | once the countdown timer is invalidated, nothing fires and nothing changes |
| Countdown.AlarmOnce | TimerApp/TimerViewController.swift:115-118 | the alarm is raised once: firings past t + 1 change nothing |
| Countdown.StartThenFire | TimerApp/TimerViewController.swift:102-119 | after starting with d, firings 1..d show d-1 down to 0 without an alarm, the label is untouched before the first firing, and firing d + 1 raises the alarm |
| Countdown.LastCountdownShowsZero | TimerApp/TimerViewController.swift:109-114 | firing d after a start with d > 0 shows "00:00:00" with the countdown still live and nothing playing |
| Countdown.PressToStop | TimerApp/TimerViewController.swift:97-99 | pressing in "Stop Music" mode starts no countdown, keeps the time left, which is 0, and restores "Start Timer", "00:00:00" and silence |
| Countdown.StopIdempotent | TimerApp/TimerViewController.swift:133-137 | stopping twice is stopping once, and stopping without a player leaves no player |
| Countdown.TimerViewController.constructor | TimerApp/TimerViewController.swift:46-48 | the fields start in the initial state with the label "00:00:00" |
| Countdown.TimerViewController.StartTimer | TimerApp/TimerViewController.swift:96-106 | the fields change exactly as `AfterStartTimer` says, and the invariant is kept |
| Countdown.TimerViewController.UpdateTimer | TimerApp/TimerViewController.swift:108-120 | the fields change exactly as `AfterUpdateTimer` says, the label text is the rendering of the seconds shown, and the invariant is kept |
| Countdown.TimerViewController.PlayMusic | TimerApp/TimerViewController.swift:122-131 | only the audio player changes, as `AfterPlayMusic` says |
| Countdown.TimerViewController.StopMusic | TimerApp/TimerViewController.swift:133-137 | the fields change exactly as `AfterStopMusic` says and the label text becomes "00:00:00" |

## Left out

- View construction and Auto Layout (`TimerViewController.swift` lines 6-44 and 56-84): presentation only.
- The wall-clock text of `updateClock` (lines 87-89) and the one-second clock timer (line 53): these are platform date formatting and scheduling. Only the hour is modelled, as the input of `BackgroundImageName`.
- Real `Timer` scheduling and the run loop: a firing is a call of `UpdateTimer`, allowed only while the countdown timer is live.
- `AVAudioPlayer` and `Bundle` resource loading: the result of loading and starting the sound is the `PlayOutcome` parameter. The error message printed on failure is not modelled. When `play()` returns false the new player is kept silent (`PlayRefused`); the code does not look at that value. A sound that ends by itself is not modelled, so "playing" means started and not yet stopped.
- `countDownDuration` is a floating-point `TimeInterval` that the code truncates with `Int(...)`. The model takes the duration as a whole number of seconds.
- `totalTime` is a Swift `Int`; the model uses unbounded naturals. The code never makes it negative and never overflows it, because it decrements only when positive and is loaded from a bounded picker.
- `TimerViewControllerWrapper.swift` and `ContentView.swift` are SwiftUI glue with no logic and are not part of this model.
