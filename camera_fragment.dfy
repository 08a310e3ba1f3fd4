/**
 * ui/camera/CameraFragment.kt: the buttons and tabs that write to the view
 * model, and the self-timer. The capture uses the corrected timer, which cancels
 * a running countdown before starting another.
 */
module CameraScreen {
  import opened Wrappers
  import opened CameraSettings
  import opened CameraMath
  import opened CaptureTimer

  class CameraFragment {
    const viewModel: CameraViewModel
    /** The countdowns started, the running ones, the one `timer` holds, the photos taken, the countdown text. */
    var started: seq<Countdown>
    var running: set<nat>
    var timer: Option<nat>
    var photos: nat
    var countdownVisible: bool

    function State(): Capture
      reads this
    {
      Capture(started, running, timer, photos, countdownVisible)
    }

    constructor (viewModel: CameraViewModel)
      ensures this.viewModel == viewModel && State() == NO_CAPTURE
    {
      this.viewModel := viewModel;
      started := [];
      running := {};
      timer := None;
      photos := 0;
      countdownVisible := false;
    }

    /** The ratio tab listener: the tab's ratio goes to the view model. */
    method OnRatioTabSelected(position: int)
      requires 0 <= position < |ASPECT_RATIOS|
      modifies viewModel
      ensures viewModel.Current() == old(viewModel.Current()).(aspectRatio := Some(ASPECT_RATIOS[position]))
    {
      viewModel.SetAspectRatio(ASPECT_RATIOS[position]);
    }

    /** The timer tab listener: the tab's seconds (0 when its text is not a number), then the tabs are toggled away. */
    method OnTimerTabSelected(position: int)
      requires 0 <= position < |TIMER_OPTIONS|
      modifies viewModel
      ensures viewModel.Current() ==
              TimerAndRatioToggled(old(viewModel.Current()).(timerSeconds := Some(TimerSeconds(TIMER_OPTIONS[position]))))
    {
      var seconds := TimerSeconds(TIMER_OPTIONS[position]);
      viewModel.SetTimerSeconds(seconds);
      viewModel.ToggleTimerAndRatio();
    }

    /** The filter strip's callback. */
    method OnFilterSelected(filter: CameraFilter)
      modifies viewModel
      ensures viewModel.Current() == old(viewModel.Current()).(currentFilter := Some(filter))
    {
      viewModel.SetFilter(filter);
    }

    method OnGridClicked()
      modifies viewModel
      ensures viewModel.Current() == GridToggled(old(viewModel.Current()))
    {
      viewModel.ToggleGrid();
    }

    method OnFlashClicked()
      modifies viewModel
      ensures viewModel.Current() == FlashToggled(old(viewModel.Current()))
    {
      viewModel.ToggleFlash();
    }

    method OnRotateClicked()
      modifies viewModel
      ensures viewModel.Current() == CameraSwitched(old(viewModel.Current()))
    {
      viewModel.SwitchCamera();
    }

    method OnTimerAndRatioClicked()
      modifies viewModel
      ensures viewModel.Current() == TimerAndRatioToggled(old(viewModel.Current()))
    {
      viewModel.ToggleTimerAndRatio();
    }

    /** startCaptureWithTimer(), reading the view model's seconds (0 when unset). */
    method StartCaptureWithTimer()
      modifies this
      ensures State() == CaptureWithTimer(old(State()), viewModel.timerSeconds.GetOr(0))
    {
      var seconds := viewModel.timerSeconds.GetOr(0);
      if seconds == 0 {
        photos := photos + 1;
      } else {
        countdownVisible := true;
        if timer.Some? {
          running := running - {timer.value};
        }
        var k := |started|;
        started := started + [Countdown(seconds * 1000, 1000)];
        running := running + {k};
        timer := Some(k);
      }
    }

    /** onFinish() of countdown `k`. */
    method OnCountdownFinish(k: nat)
      modifies this
      ensures State() == Finish(old(State()), k)
    {
      if k in running {
        running := running - {k};
        countdownVisible := false;
        photos := photos + 1;
      }
    }

    /** onDestroyView(): `timer?.cancel()`. */
    method OnDestroyView()
      modifies this
      ensures State() == DestroyView(old(State()))
    {
      if timer.Some? {
        running := running - {timer.value};
      }
    }
  }
}
