/**
 * ui/camera/CameraViewModel.kt: the camera screen's settings, each held in a
 * LiveData whose value is nullable, and the setters and toggles that change them.
 */
module CameraSettings {
  import opened Wrappers

  /** ui/camera/filter/CameraFilter.kt, in declaration order; the GPUImage presets are not modelled. */
  datatype CameraFilter = ORIGINAL | BRIGHT | DARK | WARM | COOL | COMIC | PENCIL | BLING

  /** CameraFilter.values() */
  const FILTERS: seq<CameraFilter> := [ORIGINAL, BRIGHT, DARK, WARM, COOL, COMIC, PENCIL, BLING]

  /** CameraSelector.LENS_FACING_FRONT and CameraSelector.LENS_FACING_BACK. */
  const LENS_FACING_FRONT: int := 0
  const LENS_FACING_BACK: int := 1

  /** The value of each of the seven LiveData fields. */
  datatype Settings = Settings(
    aspectRatio: Option<string>,
    isFlashEnabled: Option<bool>,
    currentFilter: Option<CameraFilter>,
    lensFacing: Option<int>,
    isGridVisible: Option<bool>,
    isTimerAndRatioVisible: Option<bool>,
    timerSeconds: Option<int>)

  /** The values the view model is created with. */
  const INITIAL: Settings :=
    Settings(Some("3:4"), Some(false), Some(ORIGINAL), Some(LENS_FACING_BACK), Some(false), Some(false), Some(0))

  /** `value != true`: the negation of a flag, where a missing value counts as false. */
  function Negated(flag: Option<bool>): (r: bool)
    ensures r == !flag.GetOr(false)
  {
    flag != Some(true)
  }

  function FlashToggled(s: Settings): (r: Settings)
    ensures r.isFlashEnabled == Some(!s.isFlashEnabled.GetOr(false))
    ensures r.(isFlashEnabled := s.isFlashEnabled) == s
  {
    s.(isFlashEnabled := Some(Negated(s.isFlashEnabled)))
  }

  function GridToggled(s: Settings): (r: Settings)
    ensures r.isGridVisible == Some(!s.isGridVisible.GetOr(false))
    ensures r.(isGridVisible := s.isGridVisible) == s
  {
    s.(isGridVisible := Some(Negated(s.isGridVisible)))
  }

  function TimerAndRatioToggled(s: Settings): (r: Settings)
    ensures r.isTimerAndRatioVisible == Some(!s.isTimerAndRatioVisible.GetOr(false))
    ensures r.(isTimerAndRatioVisible := s.isTimerAndRatioVisible) == s
  {
    s.(isTimerAndRatioVisible := Some(Negated(s.isTimerAndRatioVisible)))
  }

  /** The lens after switchCamera: the front lens after the back one, the back lens after anything else. */
  function SwitchedLens(lens: Option<int>): (r: int)
    ensures r == LENS_FACING_FRONT || r == LENS_FACING_BACK
    ensures r == LENS_FACING_FRONT <==> lens == Some(LENS_FACING_BACK)
  {
    if lens == Some(LENS_FACING_BACK) then LENS_FACING_FRONT else LENS_FACING_BACK
  }

  function CameraSwitched(s: Settings): (r: Settings)
    ensures r.lensFacing == Some(SwitchedLens(s.lensFacing))
    ensures r.(lensFacing := s.lensFacing) == s
  {
    s.(lensFacing := Some(SwitchedLens(s.lensFacing)))
  }

  /** Toggling a flag twice restores it; a missing flag comes back as false. */
  lemma ToggleTwice(s: Settings)
    ensures FlashToggled(FlashToggled(s)).isFlashEnabled == Some(s.isFlashEnabled.GetOr(false))
    ensures GridToggled(GridToggled(s)).isGridVisible == Some(s.isGridVisible.GetOr(false))
    ensures TimerAndRatioToggled(TimerAndRatioToggled(s)).isTimerAndRatioVisible == Some(s.isTimerAndRatioVisible.GetOr(false))
    ensures s.isFlashEnabled.Some? ==> FlashToggled(FlashToggled(s)) == s
    ensures s.isGridVisible.Some? ==> GridToggled(GridToggled(s)) == s
    ensures s.isTimerAndRatioVisible.Some? ==> TimerAndRatioToggled(TimerAndRatioToggled(s)) == s
  {
  }

  /** Switching twice restores the lens when it is one of the two CameraX lenses; otherwise it ends on the front lens. */
  lemma SwitchTwice(s: Settings)
    ensures s.lensFacing == Some(LENS_FACING_BACK) || s.lensFacing == Some(LENS_FACING_FRONT) ==>
      CameraSwitched(CameraSwitched(s)) == s
    ensures CameraSwitched(CameraSwitched(s)).lensFacing == Some(LENS_FACING_BACK) ||
            CameraSwitched(CameraSwitched(s)).lensFacing == Some(LENS_FACING_FRONT)
  {
  }

  /** The seven fields of CameraViewModel, as the values of its LiveData. */
  class CameraViewModel {
    var aspectRatio: Option<string>
    var isFlashEnabled: Option<bool>
    var currentFilter: Option<CameraFilter>
    var lensFacing: Option<int>
    var isGridVisible: Option<bool>
    var isTimerAndRatioVisible: Option<bool>
    var timerSeconds: Option<int>

    function Current(): Settings
      reads this
    {
      Settings(aspectRatio, isFlashEnabled, currentFilter, lensFacing,
                isGridVisible, isTimerAndRatioVisible, timerSeconds)
    }

    constructor ()
      ensures Current() == INITIAL
    {
      aspectRatio := Some("3:4");
      isFlashEnabled := Some(false);
      currentFilter := Some(ORIGINAL);
      lensFacing := Some(LENS_FACING_BACK);
      isGridVisible := Some(false);
      isTimerAndRatioVisible := Some(false);
      timerSeconds := Some(0);
    }

    method SetAspectRatio(ratio: string)
      modifies this
      ensures Current() == old(Current()).(aspectRatio := Some(ratio))
    {
      aspectRatio := Some(ratio);
    }

    method ToggleFlash()
      modifies this
      ensures Current() == FlashToggled(old(Current()))
    {
      isFlashEnabled := Some(isFlashEnabled != Some(true));
    }

    method SetFilter(filter: CameraFilter)
      modifies this
      ensures Current() == old(Current()).(currentFilter := Some(filter))
    {
      currentFilter := Some(filter);
    }

    method SwitchCamera()
      modifies this
      ensures Current() == CameraSwitched(old(Current()))
    {
      if lensFacing == Some(LENS_FACING_BACK) {
        lensFacing := Some(LENS_FACING_FRONT);
      } else {
        lensFacing := Some(LENS_FACING_BACK);
      }
    }

    method ToggleGrid()
      modifies this
      ensures Current() == GridToggled(old(Current()))
    {
      isGridVisible := Some(isGridVisible != Some(true));
    }

    method ToggleTimerAndRatio()
      modifies this
      ensures Current() == TimerAndRatioToggled(old(Current()))
    {
      isTimerAndRatioVisible := Some(isTimerAndRatioVisible != Some(true));
    }

    method SetTimerSeconds(seconds: int)
      modifies this
      ensures Current() == old(Current()).(timerSeconds := Some(seconds))
    {
      timerSeconds := Some(seconds);
    }
  }
}
