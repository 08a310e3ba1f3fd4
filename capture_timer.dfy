/**
 * The self-timer of both camera fragments: a capture either takes the photo at
 * once or starts a CountDownTimer whose onFinish takes it; onDestroyView cancels
 * the timer the fragment still holds.
 */
module CaptureTimer {
  import opened Wrappers
  import opened CameraMath

  /** `CountDownTimer(millisInFuture, countDownInterval)` */
  datatype Countdown = Countdown(millisInFuture: int, countDownInterval: int)

  /**
   * The capture side of a fragment: every countdown it started, the ones still
   * running (by their index in `started`), the one its `timer` field holds, how
   * many times takePhoto ran, and whether the countdown text is shown.
   */
  datatype Capture = Capture(started: seq<Countdown>, running: set<nat>, timer: Option<nat>, photos: nat,
                             countdownVisible: bool)

  const NO_CAPTURE: Capture := Capture([], {}, None, 0, false)

  /** At most one countdown runs, and it is the one the `timer` field holds. */
  predicate OneTimer(c: Capture)
  {
    && (forall k :: k in c.running ==> c.timer == Some(k))
    && (c.timer.Some? ==> c.timer.value < |c.started|)
  }

  /** takePhoto() */
  function TakePhoto(c: Capture): (r: Capture)
    ensures r.photos == c.photos + 1
    ensures r.(photos := c.photos) == c
  {
    c.(photos := c.photos + 1)
  }

  /** `timer = object : CountDownTimer(seconds * 1000, 1000) { … }.start()`, with the countdown text shown. */
  function StartCountdown(c: Capture, seconds: int): (r: Capture)
    ensures r.started == c.started + [Countdown(seconds * 1000, 1000)]
    ensures r.running == c.running + {|c.started|} && r.timer == Some(|c.started|)
    ensures r.photos == c.photos && r.countdownVisible
  {
    Capture(c.started + [Countdown(seconds * 1000, 1000)], c.running + {|c.started|}, Some(|c.started|),
            c.photos, true)
  }

  /** `timer?.cancel()`: the countdown the field holds stops; the field keeps it. */
  function CancelTimer(c: Capture): (r: Capture)
    ensures r.running == if c.timer.Some? then c.running - {c.timer.value} else c.running
    ensures r.(running := c.running) == c
  {
    if c.timer.Some? then c.(running := c.running - {c.timer.value}) else c
  }

  /**
   * startCaptureWithTimer() of ui/camera/CameraFragment.kt as written: no timer
   * captures at once, any other starts a countdown and overwrites the field,
   * leaving an earlier countdown running.
   */
  function CaptureWithTimerAsWritten(c: Capture, seconds: int): (r: Capture)
    ensures seconds == 0 ==> r == TakePhoto(c)
    ensures seconds != 0 ==> r.running == c.running + {|c.started|} && r.photos == c.photos
  {
    if seconds == 0 then TakePhoto(c) else StartCountdown(c, seconds)
  }

  /** The same with the running countdown cancelled before a new one starts. */
  function CaptureWithTimer(c: Capture, seconds: int): Capture
  {
    if seconds == 0 then TakePhoto(c) else StartCountdown(CancelTimer(c), seconds)
  }

  /**
   * startCaptureWithTimer() of ui/CameraFragment.kt: a value of at most 0 captures
   * at once; otherwise the held countdown is cancelled and a new one started.
   */
  function LegacyCaptureWithTimer(c: Capture, seconds: int): Capture
  {
    if seconds <= 0 then TakePhoto(c) else StartCountdown(CancelTimer(c), seconds)
  }

  /** onFinish() of countdown `k`: only a running countdown finishes, hiding the text and taking the photo. */
  function Finish(c: Capture, k: nat): (r: Capture)
    ensures k in c.running ==> r.photos == c.photos + 1 && r.running == c.running - {k} && !r.countdownVisible
    ensures k !in c.running ==> r == c
  {
    if k in c.running then c.(running := c.running - {k}, countdownVisible := false, photos := c.photos + 1)
    else c
  }

  /** onDestroyView() cancels the timer the fragment holds. */
  function DestroyView(c: Capture): Capture
  {
    CancelTimer(c)
  }

  /**
   * What one press of the capture button does: with no timer the photo is taken
   * at once and nothing else changes; otherwise no photo yet, a countdown of
   * `seconds` * 1000 ms in 1000 ms ticks becomes the held one, and the countdown
   * text shows. The older fragment also captures at once for a negative value.
   */
  lemma CaptureOutcome(c: Capture, seconds: int)
    ensures seconds == 0 ==> CaptureWithTimer(c, seconds) == TakePhoto(c)
    ensures seconds <= 0 ==> LegacyCaptureWithTimer(c, seconds) == TakePhoto(c)
    ensures seconds != 0 ==> CountdownStarted(c, CaptureWithTimer(c, seconds), seconds)
    ensures seconds > 0 ==> CountdownStarted(c, LegacyCaptureWithTimer(c, seconds), seconds)
  {
  }

  /** `d` is `c` with a new held countdown of `seconds`, started after the old one was cancelled. */
  predicate CountdownStarted(c: Capture, d: Capture, seconds: int)
  {
    && d.started == c.started + [Countdown(seconds * 1000, 1000)]
    && d.timer == Some(|c.started|)
    && |c.started| in d.running
    && (c.timer.Some? && c.timer.value < |c.started| ==> c.timer.value !in d.running)
    && d.photos == c.photos && d.countdownVisible
  }

  /** With the held countdown cancelled first, a capture leaves at most the new countdown running. */
  lemma CaptureKeepsOneTimer(c: Capture, seconds: int)
    requires OneTimer(c)
    ensures OneTimer(CaptureWithTimer(c, seconds))
    ensures OneTimer(LegacyCaptureWithTimer(c, seconds))
    ensures seconds != 0 ==> CaptureWithTimer(c, seconds).running == {|c.started|}
    ensures seconds > 0 ==> LegacyCaptureWithTimer(c, seconds).running == {|c.started|}
  {
    if seconds != 0 {
      HeldOnly(c);
    }
  }

  /** Under OneTimer, cancelling the held countdown stops every countdown. */
  lemma HeldOnly(c: Capture)
    requires OneTimer(c)
    ensures CancelTimer(c).running == {}
  {
    if c.timer.Some? {
      assert c.running <= {c.timer.value};
    } else {
      assert c.running == {};
    }
  }

  /** Finishing keeps at most one countdown running. */
  lemma FinishKeepsOneTimer(c: Capture, k: nat)
    requires OneTimer(c)
    ensures OneTimer(Finish(c, k))
  {
  }

  /** Once the view is destroyed no countdown runs, so none can take a photo. */
  lemma DestroyStopsCountdowns(c: Capture)
    requires OneTimer(c)
    ensures DestroyView(c).running == {}
    ensures forall k: nat :: Finish(DestroyView(c), k) == DestroyView(c)
  {
    HeldOnly(c);
  }

  /** A countdown ends in exactly one photo: its onFinish takes it, and a second onFinish does nothing. */
  lemma CountdownTakesOnePhoto(c: Capture, seconds: int)
    requires OneTimer(c) && seconds != 0
    ensures var d := CaptureWithTimer(c, seconds);
      && Finish(d, |c.started|).photos == c.photos + 1
      && Finish(d, |c.started|).running == {}
      && Finish(Finish(d, |c.started|), |c.started|) == Finish(d, |c.started|)
  {
    CaptureKeepsOneTimer(c, seconds);
  }

  /**
   * As written, pressing capture twice within a 3-second countdown leaves both
   * countdowns running; onDestroyView cancels only the second, and the first
   * still takes a photo after the view is gone.
   */
  lemma TwoCountdownsAsWritten()
    ensures var c := CaptureWithTimerAsWritten(CaptureWithTimerAsWritten(NO_CAPTURE, 3), 3);
      && c.running == {0, 1}
      && !OneTimer(c)
      && Finish(DestroyView(c), 0).photos == 1
  {
    var c := CaptureWithTimerAsWritten(CaptureWithTimerAsWritten(NO_CAPTURE, 3), 3);
    assert c.timer == Some(1) && 0 in c.running;
  }

  /**
   * The timer ui/CameraFragment.kt reads at capture: the text of the selected
   * timer tab as a number, or 0 when no tab is selected or its text is not one.
   */
  function SelectedTimer(selectedTabPosition: int): (seconds: int)
    ensures seconds in {0, 3, 5, 10}
    ensures !(0 <= selectedTabPosition < |TIMER_OPTIONS|) ==> seconds == 0
  {
    TimerOptionSeconds();
    if 0 <= selectedTabPosition < |TIMER_OPTIONS| then TimerSeconds(TIMER_OPTIONS[selectedTabPosition]) else 0
  }
}
