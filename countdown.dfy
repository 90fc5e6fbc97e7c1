/**
 * The countdown/alarm controller of TimerViewController.
 *
 * The state is what the view controller keeps in its fields: `totalTime`, the
 * `countdownTimer` handle, the `audioPlayer`, the title of the start button
 * (the only record of whether an alarm is active) and the text of the
 * countdown label. Foundation's run loop is modelled by the set of timer
 * handles it still fires (`liveTimers`); a fresh handle is drawn from
 * `nextTimer` whenever a timer is scheduled.
 *
 * Every text the controller puts in the countdown label is the "HH:MM:SS"
 * rendering of some number of seconds ("00:00:00" being that of 0), so the
 * state records that number (`shown`) and the label text is FormatHms(shown).
 *
 * `Snapshot` holds the state as a value and AfterStartTimer, AfterUpdateTimer
 * and AfterStopMusic give the effect of each operation on it; the class
 * TimerViewController updates the same state in place and its methods are
 * proved to have exactly those effects.
 */
module Countdown {
  import opened Optional
  import opened Format

  const ZERO_LABEL := "00:00:00"

  /**
   * The title of the start button. The button action compares the title with
   * "Stop Music" to choose what to do, and the controller only ever sets these
   * two titles.
   */
  datatype ButtonTitle = StartTimerTitle | StopMusicTitle {
    function Text(): (text: string)
      ensures text == "Stop Music" <==> this == StopMusicTitle
      ensures this == StartTimerTitle ==> text == "Start Timer"
    {
      match this
      case StartTimerTitle => "Start Timer"
      case StopMusicTitle => "Stop Music"
    }
  }

  /**
   * What `playMusic` managed to do: the asset lookup or the player's
   * initialiser may fail (no new player), or the new player may refuse to
   * start (`play()` returns false and the player stays silent).
   */
  datatype PlayOutcome = Played | PlayRefused | AssetMissing | PlayerInitFailed

  /** The `audioPlayer` field: no player yet, or a player that is or is not playing. */
  datatype Audio = NoPlayer | Player(playing: bool)

  predicate Playing(a: Audio) {
    a.Player? && a.playing
  }

  datatype Snapshot = Snapshot(
    totalTime: nat,
    countdownTimer: Option<nat>,
    liveTimers: set<nat>,
    nextTimer: nat,
    title: ButtonTitle,
    audio: Audio,
    shown: nat)

  /** The text of the countdown label: the "HH:MM:SS" rendering of the seconds shown. */
  function LabelText(s: Snapshot): (text: string)
    ensures |text| >= 8
  {
    FormatHms(s.shown)
  }

  /** The countdown label reads back as exactly the seconds it shows. */
  lemma LabelShowsSeconds(s: Snapshot)
    ensures ParseHms(LabelText(s)) == Some(s.shown)
  {
    ParseFormat(s.shown);
  }

  /** A countdown schedule is live: the handle held in `countdownTimer` is still fired. */
  predicate CountdownLive(s: Snapshot) {
    s.countdownTimer.Some? && s.countdownTimer.value in s.liveTimers
  }

  /** The handles `countdownTimer` refers to (none or one). */
  function Held(s: Snapshot): set<nat> {
    if s.countdownTimer.Some? then {s.countdownTimer.value} else {}
  }

  /**
   * What holds in every state the controller reaches: the run loop fires no
   * countdown timer other than the one held, handles are never reused, a live
   * countdown means the button is in "Start Timer" mode, playing audio
   * means it is in "Stop Music" mode, and in "Stop Music" mode no time is left.
   */
  ghost predicate Inv(s: Snapshot) {
    && s.liveTimers <= Held(s)
    && (s.countdownTimer.Some? ==> s.countdownTimer.value < s.nextTimer)
    && (CountdownLive(s) ==> s.title == StartTimerTitle)
    && (Playing(s.audio) ==> s.title == StopMusicTitle)
    && (s.title == StopMusicTitle ==> s.totalTime == 0)
  }

  /** The state right after the view controller is created. */
  function Initial(): (s: Snapshot)
    ensures Inv(s) && !CountdownLive(s) && !Playing(s.audio)
    ensures s.title == StartTimerTitle && s.totalTime == 0
  {
    Snapshot(0, None, {}, 0, StartTimerTitle, NoPlayer, 0)
  }

  /** `countdownTimer?.invalidate()`: the held timer, if any, is no longer fired. */
  function Invalidated(s: Snapshot): (live: set<nat>)
    ensures live == s.liveTimers - Held(s)
  {
    if s.countdownTimer.Some? then s.liveTimers - {s.countdownTimer.value} else s.liveTimers
  }

  /** The effect of `audioPlayer?.stop()`. */
  function Halted(a: Audio): (r: Audio)
    ensures !Playing(r)
    ensures r.Player? <==> a.Player?
  {
    match a
    case NoPlayer => NoPlayer
    case Player(_) => Player(false)
  }

  /**
   * The effect of `playMusic`: a new player, playing unless `play()` refused,
   * or no change when the asset or the player cannot be loaded.
   */
  function AfterPlayMusic(a: Audio, outcome: PlayOutcome): (r: Audio)
    ensures Playing(r) <==> outcome == Played || (outcome != PlayRefused && Playing(a))
    ensures outcome == Played || outcome == PlayRefused ==> r.Player?
    ensures outcome == AssetMissing || outcome == PlayerInitFailed ==> r == a
  {
    match outcome
    case Played => Player(true)
    case PlayRefused => Player(false)
    case AssetMissing => a
    case PlayerInitFailed => a
  }

  /** `stopMusic`: halt the player, restore the start title and the zero label. */
  function AfterStopMusic(s: Snapshot): (r: Snapshot)
    requires Inv(s)
    ensures Inv(r)
    ensures !Playing(r.audio) && r.title == StartTimerTitle && r.shown == 0
    ensures r.audio.Player? <==> s.audio.Player?
    ensures r.totalTime == s.totalTime && r.countdownTimer == s.countdownTimer
    ensures r.liveTimers == s.liveTimers && r.nextTimer == s.nextTimer
  {
    s.(audio := Halted(s.audio), title := StartTimerTitle, shown := 0)
  }

  /**
   * `startTimer`, the action of the button. In "Stop Music" mode it only stops
   * the music; otherwise it loads the picker's duration, invalidates the held
   * timer and schedules a new one.
   */
  function AfterStartTimer(s: Snapshot, duration: nat): (r: Snapshot)
    requires Inv(s)
    ensures Inv(r)
    ensures s.title == StopMusicTitle ==> r == AfterStopMusic(s)
    ensures s.title == StartTimerTitle ==>
      && r.totalTime == duration
      && r.liveTimers == {s.nextTimer}
      && r.countdownTimer == Some(s.nextTimer)
      && s.nextTimer !in s.liveTimers
      && CountdownLive(r)
      && r.title == s.title && r.audio == s.audio && r.shown == s.shown
  {
    if s.title == StopMusicTitle then AfterStopMusic(s)
    else
      s.(totalTime := duration,
         liveTimers := Invalidated(s) + {s.nextTimer},
         countdownTimer := Some(s.nextTimer),
         nextTimer := s.nextTimer + 1)
  }

  /**
   * `updateTimer`, fired once a second by the live countdown timer. With time
   * left it counts down one second and shows the rest; with none left it
   * invalidates its timer, starts the alarm and switches the button to
   * "Stop Music" whether or not the sound could be played.
   */
  function AfterUpdateTimer(s: Snapshot, outcome: PlayOutcome): (r: Snapshot)
    requires Inv(s) && CountdownLive(s)
    ensures Inv(r)
    ensures s.totalTime > 0 ==>
      && r.totalTime + 1 == s.totalTime
      && CountdownLive(r) && r.title == StartTimerTitle
      && r.countdownTimer == s.countdownTimer && r.liveTimers == s.liveTimers
      && r.nextTimer == s.nextTimer
      && r.shown == r.totalTime
      && r.audio == s.audio
    ensures s.totalTime == 0 ==>
      && r.totalTime == 0
      && !CountdownLive(r) && r.liveTimers == {}
      && r.title == StopMusicTitle
      && (Playing(r.audio) <==> outcome == Played)
      && r.shown == s.shown
  {
    if s.totalTime > 0 then
      var left := s.totalTime - 1;
      s.(totalTime := left, shown := left)
    else
      s.(liveTimers := Invalidated(s),
         audio := AfterPlayMusic(s.audio, outcome),
         title := StopMusicTitle)
  }

  /** At most one countdown timer is ever fired by the run loop. */
  lemma AtMostOneLive(s: Snapshot)
    requires Inv(s)
    ensures |s.liveTimers| <= 1
    ensures CountdownLive(s) <==> s.liveTimers != {}
  {
    if s.countdownTimer.Some? {
      var id := s.countdownTimer.value;
      if id in s.liveTimers {
        assert s.liveTimers == {id};
      } else {
        assert s.liveTimers == {};
      }
    }
  }

  /** `n` firings of the countdown timer; firings stop once no countdown is live. */
  function Ticks(s: Snapshot, n: nat, outcome: PlayOutcome): (r: Snapshot)
    requires Inv(s)
    ensures Inv(r)
    decreases n
  {
    if n == 0 || !CountdownLive(s) then s
    else Ticks(AfterUpdateTimer(s, outcome), n - 1, outcome)
  }

  /**
   * While time is left each firing takes one second off and shows the rest:
   * after k <= totalTime firings, totalTime - k is left and shown, the
   * countdown is still live and no alarm has started.
   */
  lemma {:induction false} CountingDown(s: Snapshot, k: nat, outcome: PlayOutcome)
    requires Inv(s) && CountdownLive(s)
    requires k <= s.totalTime
    ensures var r := Ticks(s, k, outcome);
      && r.totalTime == s.totalTime - k
      && CountdownLive(r) && r.title == StartTimerTitle
      && r.audio == s.audio
      && r.shown == (if k == 0 then s.shown else r.totalTime)
    decreases k
  {
    if k > 0 {
      var s' := AfterUpdateTimer(s, outcome);
      assert Ticks(s, k, outcome) == Ticks(s', k - 1, outcome);
      CountingDown(s', k - 1, outcome);
    }
  }

  /**
   * The alarm starts on the firing after the one that reached zero: with
   * totalTime t left, firing t + 1 cancels the countdown, sets "Stop Music" and
   * starts playing exactly when the sound could be played; the label still
   * shows what the last countdown firing left there (0 when t > 0).
   */
  lemma {:induction false} AlarmAfterCountdown(s: Snapshot, outcome: PlayOutcome)
    requires Inv(s) && CountdownLive(s)
    ensures var r := Ticks(s, s.totalTime + 1, outcome);
      && r.totalTime == 0
      && !CountdownLive(r) && r.liveTimers == {}
      && r.title == StopMusicTitle
      && (Playing(r.audio) <==> outcome == Played)
      && r.shown == (if s.totalTime == 0 then s.shown else 0)
    decreases s.totalTime
  {
    var t := s.totalTime;
    var s' := AfterUpdateTimer(s, outcome);
    assert Ticks(s, t + 1, outcome) == Ticks(s', t, outcome);
    if t > 0 {
      AlarmAfterCountdown(s', outcome);
    }
  }

  /** Without a live countdown nothing fires and nothing changes. */
  lemma NotLiveStays(s: Snapshot, n: nat, outcome: PlayOutcome)
    requires Inv(s) && !CountdownLive(s)
    ensures Ticks(s, n, outcome) == s
  {
  }

  /**
   * The alarm is raised once: every firing count beyond totalTime + 1 ends in
   * the same state as totalTime + 1 firings.
   */
  lemma {:induction false} AlarmOnce(s: Snapshot, extra: nat, outcome: PlayOutcome)
    requires Inv(s) && CountdownLive(s)
    ensures Ticks(s, s.totalTime + 1 + extra, outcome) == Ticks(s, s.totalTime + 1, outcome)
    decreases s.totalTime
  {
    var t := s.totalTime;
    var s' := AfterUpdateTimer(s, outcome);
    assert Ticks(s, t + 1 + extra, outcome) == Ticks(s', t + extra, outcome);
    assert Ticks(s, t + 1, outcome) == Ticks(s', t, outcome);
    if t > 0 {
      AlarmOnce(s', extra, outcome);
    } else {
      NotLiveStays(s', extra, outcome);
    }
  }

  /**
   * Pressing "Start Timer" with duration d and letting the timer fire: firings
   * 1..d show d-1 down to 0 with no alarm, the label is untouched before the
   * first firing, and firing d + 1 raises the alarm (the first one when d == 0).
   */
  lemma StartThenFire(s: Snapshot, d: nat, k: nat, outcome: PlayOutcome)
    requires Inv(s) && s.title == StartTimerTitle
    requires k <= d
    ensures var started := AfterStartTimer(s, d);
      && Ticks(started, k, outcome).totalTime == d - k
      && LabelText(Ticks(started, k, outcome)) == (if k == 0 then LabelText(s) else FormatHms(d - k))
      && Ticks(started, k, outcome).title == StartTimerTitle
      && !Playing(Ticks(started, k, outcome).audio)
      && Ticks(started, d + 1, outcome).title == StopMusicTitle
      && !CountdownLive(Ticks(started, d + 1, outcome))
      && (Playing(Ticks(started, d + 1, outcome).audio) <==> outcome == Played)
  {
    var started := AfterStartTimer(s, d);
    CountingDown(started, k, outcome);
    AlarmAfterCountdown(started, outcome);
  }

  /** The last countdown firing of a started timer shows "00:00:00" and does not alarm. */
  lemma LastCountdownShowsZero(s: Snapshot, d: nat, outcome: PlayOutcome)
    requires Inv(s) && s.title == StartTimerTitle && d > 0
    ensures var r := Ticks(AfterStartTimer(s, d), d, outcome);
      && LabelText(r) == ZERO_LABEL && CountdownLive(r) && !Playing(r.audio)
  {
    CountingDown(AfterStartTimer(s, d), d, outcome);
    FormatExamples();
  }

  /**
   * Pressing in "Stop Music" mode stops the music and returns: no countdown is
   * started and the time left is unchanged (it is 0 whenever the button
   * shows "Stop Music").
   */
  lemma PressToStop(s: Snapshot, d: nat)
    requires Inv(s) && s.title == StopMusicTitle
    ensures var r := AfterStartTimer(s, d);
      && r.totalTime == s.totalTime && r.totalTime == 0
      && !CountdownLive(r) && r.liveTimers == s.liveTimers
      && r.title == StartTimerTitle && LabelText(r) == ZERO_LABEL && !Playing(r.audio)
  {
  }

  /** Stopping twice is stopping once; with no player, stopping leaves the audio alone. */
  lemma StopIdempotent(s: Snapshot)
    requires Inv(s)
    ensures AfterStopMusic(AfterStopMusic(s)) == AfterStopMusic(s)
    ensures s.audio == NoPlayer ==> AfterStopMusic(s).audio == NoPlayer
  {
  }

  /**
   * The controller as the view controller holds it: one field per piece of
   * state, updated in place by the button action and the timer callback.
   */
  class TimerViewController {
    var totalTime: nat
    var countdownTimer: Option<nat>
    var liveTimers: set<nat>
    var nextTimer: nat
    var title: ButtonTitle
    var audio: Audio
    var timerText: string
    /** The number of seconds whose "HH:MM:SS" rendering `timerText` holds. */
    ghost var shown: nat

    ghost function Snap(): Snapshot
      reads this
    {
      Snapshot(totalTime, countdownTimer, liveTimers, nextTimer, title, audio, shown)
    }

    ghost predicate Valid()
      reads this
    {
      Inv(Snap()) && timerText == LabelText(Snap())
    }

    constructor ()
      ensures Valid() && Snap() == Initial() && timerText == ZERO_LABEL
    {
      totalTime := 0;
      countdownTimer := None;
      liveTimers := {};
      nextTimer := 0;
      title := StartTimerTitle;
      audio := NoPlayer;
      timerText := ZERO_LABEL;
      shown := 0;
      FormatExamples();
    }

    /** The button action; `duration` is the picker's countdown duration in whole seconds. */
    method StartTimer(duration: nat)
      requires Valid()
      modifies this
      ensures Valid() && Snap() == AfterStartTimer(old(Snap()), duration)
    {
      if title.Text() == "Stop Music" {
        StopMusic();
        return;
      }
      totalTime := duration;
      if countdownTimer.Some? {
        liveTimers := liveTimers - {countdownTimer.value};
      }
      countdownTimer := Some(nextTimer);
      liveTimers := liveTimers + {nextTimer};
      nextTimer := nextTimer + 1;
    }

    /** One firing of the live countdown timer; `outcome` is what loading the alarm sound gives. */
    method UpdateTimer(outcome: PlayOutcome)
      requires Valid() && CountdownLive(Snap())
      modifies this
      ensures Valid() && Snap() == AfterUpdateTimer(old(Snap()), outcome)
    {
      if totalTime > 0 {
        totalTime := totalTime - 1;
        timerText := FormatHms(totalTime);
        shown := totalTime;
      } else {
        if countdownTimer.Some? {
          liveTimers := liveTimers - {countdownTimer.value};
        }
        PlayMusic(outcome);
        title := StopMusicTitle;
      }
    }

    method PlayMusic(outcome: PlayOutcome)
      modifies this
      ensures audio == AfterPlayMusic(old(audio), outcome)
      ensures totalTime == old(totalTime) && countdownTimer == old(countdownTimer)
      ensures liveTimers == old(liveTimers) && nextTimer == old(nextTimer)
      ensures title == old(title) && timerText == old(timerText) && shown == old(shown)
    {
      match outcome
      case Played =>
        audio := Player(true);
      case PlayRefused =>
        audio := Player(false);
      case AssetMissing =>
      case PlayerInitFailed =>
    }

    method StopMusic()
      requires Valid()
      modifies this
      ensures Valid() && Snap() == AfterStopMusic(old(Snap()))
      ensures timerText == ZERO_LABEL
    {
      if audio.Player? {
        audio := Player(false);
      }
      title := StartTimerTitle;
      timerText := ZERO_LABEL;
      shown := 0;
      FormatExamples();
    }
  }
}
