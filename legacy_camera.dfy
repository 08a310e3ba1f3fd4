/**
 * ui/CameraFragment.kt, the older camera screen: its own grid flag and lens,
 * the ratio tabs that resize the preview and rebind the camera, the timer and
 * ratio tab strips, and the self-timer, which reads the selected timer tab.
 */
module LegacyCamera {
  import opened Wrappers
  import opened CameraSettings
  import opened CameraMath
  import opened CaptureTimer

  /** The use cases bound to the lifecycle: the lens and the CameraX aspect ratio asked for. */
  datatype Binding = Binding(lensFacing: int, aspectRatio: int)

  class LegacyCameraFragment {
    /** The screen's width in pixels. */
    const screenWidth: int
    /** The only LiveData of this fragment's view model (ui/CameraViewModel.kt). */
    var aspectRatio: Option<string>
    var isGridVisible: bool
    var gridOverlayVisible: bool
    var lensFacing: int
    /** Whether the camera provider has arrived, and what is bound to the lifecycle. */
    var hasProvider: bool
    var bound: Option<Binding>
    var previewHeight: int
    var timerTabsVisible: bool
    var ratioTabsVisible: bool
    /** tabTimer.selectedTabPosition: the first tab added is selected, so it starts at 0. */
    var timerTabPosition: int
    var started: seq<Countdown>
    var running: set<nat>
    var timer: Option<nat>
    var photos: nat
    var countdownVisible: bool

    function State(): Capture
      reads this
    {
      Capture(started, running, timer, photos, countdownVisible)
    }

    /** The lens is always one of the two CameraX lenses. */
    predicate Valid()
      reads this
    {
      lensFacing == LENS_FACING_BACK || lensFacing == LENS_FACING_FRONT
    }

    /**
     * The view as onViewCreated leaves it. The tab strips' visibility comes from
     * the layout; the aspect-ratio observer fires at once with the initial "3:4",
     * which sizes the preview for it and, with no camera provider yet, binds nothing.
     */
    constructor (screenWidth: int, tabsVisible: bool)
      ensures this.screenWidth == screenWidth && previewHeight == PreviewLayoutHeight("3:4", screenWidth)
      ensures timerTabsVisible == tabsVisible && ratioTabsVisible == tabsVisible
      ensures aspectRatio == Some("3:4") && !isGridVisible && !gridOverlayVisible
      ensures lensFacing == LENS_FACING_BACK && !hasProvider && bound == None
      ensures timerTabPosition == 0 && State() == NO_CAPTURE
      ensures Valid()
    {
      this.screenWidth := screenWidth;
      previewHeight := PreviewLayoutHeight("3:4", screenWidth);
      aspectRatio := Some("3:4");
      isGridVisible := false;
      gridOverlayVisible := false;
      lensFacing := LENS_FACING_BACK;
      hasProvider := false;
      bound := None;
      timerTabsVisible := tabsVisible;
      ratioTabsVisible := tabsVisible;
      timerTabPosition := 0;
      started := [];
      running := {};
      timer := None;
      photos := 0;
      countdownVisible := false;
    }

    /** The grid button: flip the flag and show the overlay exactly when it is set. */
    method OnGridClicked()
      modifies this
      ensures isGridVisible == !old(isGridVisible) && gridOverlayVisible == isGridVisible
      ensures lensFacing == old(lensFacing) && bound == old(bound) && State() == old(State())
    {
      isGridVisible := !isGridVisible;
      gridOverlayVisible := isGridVisible;
    }

    /** restartCameraWithRatio(ratio): unbind everything, then bind again if the provider is there. */
    method RestartCameraWithRatio(ratio: string)
      modifies this
      ensures bound == if hasProvider then Some(Binding(lensFacing, CameraXAspectRatio(ratio))) else old(bound)
      ensures lensFacing == old(lensFacing) && hasProvider == old(hasProvider) && aspectRatio == old(aspectRatio)
      ensures isGridVisible == old(isGridVisible) && previewHeight == old(previewHeight)
      ensures State() == old(State())
    {
      if hasProvider {
        bound := None;
      }
      if !hasProvider {
        return;
      }
      bound := Some(Binding(lensFacing, CameraXAspectRatio(ratio)));
    }

    /** The camera provider arrives: bind with the current ratio ("3:4" when unset). */
    method OnProviderReady()
      modifies this
      ensures hasProvider && bound == Some(Binding(lensFacing, CameraXAspectRatio(aspectRatio.GetOr("3:4"))))
      ensures lensFacing == old(lensFacing) && aspectRatio == old(aspectRatio) && State() == old(State())
    {
      hasProvider := true;
      bound := Some(Binding(lensFacing, CameraXAspectRatio(aspectRatio.GetOr("3:4"))));
    }

    /** The rotate button: the other lens, and the camera rebound with the current ratio ("3:4" when unset). */
    method OnRotateClicked()
      requires Valid()
      modifies this
      ensures lensFacing == SwitchedLens(Some(old(lensFacing))) && lensFacing != old(lensFacing)
      ensures bound == if hasProvider then Some(Binding(lensFacing, CameraXAspectRatio(aspectRatio.GetOr("3:4")))) else old(bound)
      ensures hasProvider == old(hasProvider) && aspectRatio == old(aspectRatio) && State() == old(State())
      ensures Valid()
    {
      lensFacing := if lensFacing == LENS_FACING_BACK then LENS_FACING_FRONT else LENS_FACING_BACK;
      RestartCameraWithRatio(aspectRatio.GetOr("3:4"));
    }

    /** The ratio tab listener, with the view model's observer: resize the preview and rebind. */
    method OnRatioTabSelected(position: int)
      requires 0 <= position < |ASPECT_RATIOS|
      modifies this
      ensures aspectRatio == Some(ASPECT_RATIOS[position])
      ensures previewHeight == PreviewLayoutHeight(ASPECT_RATIOS[position], screenWidth)
      ensures bound == if hasProvider then Some(Binding(lensFacing, CameraXAspectRatio(ASPECT_RATIOS[position]))) else old(bound)
      ensures lensFacing == old(lensFacing) && hasProvider == old(hasProvider) && State() == old(State())
    {
      var ratio := ASPECT_RATIOS[position];
      aspectRatio := Some(ratio);
      previewHeight := PreviewLayoutHeight(ratio, screenWidth);
      RestartCameraWithRatio(ratio);
    }

    /** The user picks timer tab `position`. */
    method OnTimerTabSelected(position: int)
      requires 0 <= position < |TIMER_OPTIONS|
      modifies this
      ensures timerTabPosition == position && State() == old(State())
    {
      timerTabPosition := position;
    }

    /** The timer button shows or hides each of the two tab strips. */
    method OnTimerClicked()
      modifies this
      ensures timerTabsVisible == !old(timerTabsVisible) && ratioTabsVisible == !old(ratioTabsVisible)
      ensures State() == old(State())
    {
      timerTabsVisible := !timerTabsVisible;
      ratioTabsVisible := !ratioTabsVisible;
    }

    /** The capture button: hide both tab strips and start the capture. */
    method OnCaptureClicked()
      modifies this
      ensures !timerTabsVisible && !ratioTabsVisible
      ensures State() == LegacyCaptureWithTimer(old(State()), SelectedTimer(timerTabPosition))
      ensures timerTabPosition == old(timerTabPosition)
    {
      timerTabsVisible := false;
      ratioTabsVisible := false;
      StartCaptureWithTimer();
    }

    /** startCaptureWithTimer(): the selected timer tab's seconds decide. */
    method StartCaptureWithTimer()
      modifies this
      ensures State() == LegacyCaptureWithTimer(old(State()), SelectedTimer(timerTabPosition))
      ensures timerTabPosition == old(timerTabPosition)
      ensures timerTabsVisible == old(timerTabsVisible) && ratioTabsVisible == old(ratioTabsVisible)
    {
      var selectedTimer := SelectedTimer(timerTabPosition);
      if selectedTimer <= 0 {
        photos := photos + 1;
        return;
      }
      countdownVisible := true;
      if timer.Some? {
        running := running - {timer.value};
      }
      var k := |started|;
      started := started + [Countdown(selectedTimer * 1000, 1000)];
      running := running + {k};
      timer := Some(k);
    }

    /** onFinish() of countdown `k`. */
    method OnCountdownFinish(k: nat)
      modifies this
      ensures State() == Finish(old(State()), k)
    {
      if k in running {
        running := running - {k};
        countdownVisible := false;
        photos := photos + 1;
      }
    }

    /** onDestroyView(): `timer?.cancel()`. */
    method OnDestroyView()
      modifies this
      ensures State() == DestroyView(old(State()))
    {
      if timer.Some? {
        running := running - {timer.value};
      }
    }
  }
}
