/**
 * ui/edit/fragment/EditHostFragment.kt: the one active tool, the tab and tool
 * choices that switch it, the crop result, and the teardown. The filter and
 * sticker tool managers only show and hide their lists here.
 */
module EditHost {
  import opened Wrappers
  import opened Graphics
  import opened CanvasModel
  import opened Canvas
  import opened EditScreen
  import opened ToolSwitching
  import opened FrameTools
  import opened EditTools

  /** Activity.RESULT_OK, UCrop.REQUEST_CROP and UCrop.RESULT_ERROR. */
  const RESULT_OK: int := -1
  const REQUEST_CROP: int := 69
  const RESULT_ERROR: int := 96

  /** What onActivityResult does with a result. */
  datatype ResultAction = ApplyCrop(uri: Uri) | ShowToast(message: string) | IgnoreResult

  /**
   * onActivityResult(requestCode, resultCode, data): an accepted crop with an
   * output is applied, one without an output is reported, a UCrop error is
   * reported with its message ("null" when there is none), anything else is ignored.
   */
  function ResultActionFor(requestCode: int, resultCode: int, output: Option<Uri>, errorMessage: Option<string>): (a: ResultAction)
    ensures a.ApplyCrop? <==> resultCode == RESULT_OK && requestCode == REQUEST_CROP && output.Some?
    ensures a.ApplyCrop? ==> a.uri == output.value
    ensures a.IgnoreResult? <==> !(resultCode == RESULT_OK && requestCode == REQUEST_CROP) && resultCode != RESULT_ERROR
    ensures resultCode == RESULT_OK && requestCode == REQUEST_CROP && output.None? ==>
      a == ShowToast("Failed to retrieve cropped image.")
  {
    if resultCode == RESULT_OK && requestCode == REQUEST_CROP then
      if output.Some? then ApplyCrop(output.value) else ShowToast("Failed to retrieve cropped image.")
    else if resultCode == RESULT_ERROR then
      ShowToast("Crop error: " + (if errorMessage.Some? then errorMessage.value else "null"))
    else IgnoreResult
  }

  class EditHostFragment {
    const screen: Screen
    const drawView: DrawOnImageView
    const frameTool: FrameToolManager
    const drawTool: DrawToolManager
    const textTool: TextToolManager
    const cropTool: CropToolManager
    var activeTool: Option<ToolKind>
    /** The toasts shown, in order. */
    var toasts: seq<string>

    /** All tools work on this fragment's screen and canvas. */
    ghost predicate Valid()
      reads this, drawView, frameTool, drawTool, textTool, cropTool
    {
      && drawView.Valid()
      && frameTool.screen == screen && drawTool.screen == screen && textTool.screen == screen
      && drawTool.drawView == drawView && textTool.drawView == drawView && cropTool.drawView == drawView
    }

    /** The state the switching protocol is stated over. */
    function View(): Ui
      reads this, screen, drawView, cropTool
    {
      Ui(screen.vis, activeTool, cropTool.State(), drawView.pen)
    }

    constructor (screen: Screen, drawView: DrawOnImageView, frameTool: FrameToolManager,
                 drawTool: DrawToolManager, textTool: TextToolManager, cropTool: CropToolManager)
      requires drawView.Valid()
      requires frameTool.screen == screen && drawTool.screen == screen && textTool.screen == screen
      requires drawTool.drawView == drawView && textTool.drawView == drawView && cropTool.drawView == drawView
      ensures this.screen == screen && this.drawView == drawView && this.frameTool == frameTool
      ensures this.drawTool == drawTool && this.textTool == textTool && this.cropTool == cropTool
      ensures activeTool == None && toasts == []
      ensures Valid()
    {
      this.screen := screen;
      this.drawView := drawView;
      this.frameTool := frameTool;
      this.drawTool := drawTool;
      this.textTool := textTool;
      this.cropTool := cropTool;
      activeTool := None;
      toasts := [];
    }

    /** tool.activate() for the tool of kind `k`. */
    method ActivateTool(k: ToolKind)
      requires Valid()
      modifies screen, drawView, cropTool
      ensures View() == Activated(old(View()), k, cropTool.files)
      ensures drawView.Snapshot() == old(drawView.Snapshot()).(pen := drawView.pen)
      ensures Valid()
    {
      match k
      case FrameTool => frameTool.Activate();
      case FilterTool => screen.vis := screen.vis.(filterList := true);
      case StickerTool => screen.vis := screen.vis.(stickerList := true);
      case CropTool => cropTool.Activate();
      case DrawTool => drawTool.Activate();
      case TextTool => textTool.Activate();
    }

    /** tool.deactivate() for the tool of kind `k`. */
    method DeactivateTool(k: ToolKind)
      requires Valid()
      modifies screen, drawView, cropTool
      ensures View() == Deactivated(old(View()), k)
      ensures drawView.Snapshot() == old(drawView.Snapshot()).(pen := drawView.pen)
      ensures Valid()
    {
      match k
      case FrameTool => frameTool.Deactivate();
      case FilterTool => screen.vis := screen.vis.(filterList := false);
      case StickerTool => screen.vis := screen.vis.(stickerList := false);
      case CropTool => cropTool.Deactivate();
      case DrawTool => drawTool.Deactivate();
      case TextTool => textTool.Deactivate();
    }

    /** setActiveTool(tool) */
    method SetActiveTool(tool: Option<ToolKind>)
      requires Valid()
      modifies this, screen, drawView, cropTool
      ensures View() == SetActive(old(View()), tool, cropTool.files)
      ensures drawView.Snapshot() == old(drawView.Snapshot()).(pen := drawView.pen)
      ensures toasts == old(toasts)
      ensures Valid()
    {
      if activeTool.Some? {
        DeactivateTool(activeTool.value);
      }
      activeTool := tool;
      if activeTool.Some? {
        ActivateTool(activeTool.value);
      }
    }

    /** hideAllToolContainers() */
    method HideAllToolContainers()
      modifies screen
      ensures screen.vis == ALL_HIDDEN
    {
      screen.vis := screen.vis.(frameList := false);
      screen.vis := screen.vis.(filterList := false);
      screen.vis := screen.vis.(stickerList := false);
      screen.vis := screen.vis.(drawControls := false);
      screen.vis := screen.vis.(textControls := false);
      screen.vis := screen.vis.(toolsList := false);
    }

    /** handleTabSelection(position) with showFrames, showTools and showFilters. */
    method HandleTabSelection(position: int)
      requires Valid()
      modifies this, screen, drawView, cropTool
      ensures View() == TabSelected(old(View()), position, cropTool.files)
      ensures drawView.Snapshot() == old(drawView.Snapshot()).(pen := drawView.pen)
      ensures toasts == old(toasts)
      ensures Valid()
    {
      if position == 0 {
        HideAllToolContainers();
        screen.vis := screen.vis.(frameList := true);
        SetActiveTool(Some(FrameTool));
      } else if position == 1 {
        HideAllToolContainers();
        screen.vis := screen.vis.(toolsList := true);
        SetActiveTool(None);
      } else if position == 2 {
        HideAllToolContainers();
        screen.vis := screen.vis.(filterList := true);
        SetActiveTool(Some(FilterTool));
      }
    }

    /** onToolSelected(toolType), with the crop tool activated through setActiveTool only. */
    method OnToolSelected(toolType: ToolType)
      requires Valid()
      modifies this, screen, drawView, cropTool
      ensures View() == ToolSelected(old(View()), toolType, cropTool.files)
      ensures drawView.Snapshot() == old(drawView.Snapshot()).(pen := drawView.pen)
      ensures toasts == old(toasts)
      ensures Valid()
    {
      HideAllToolContainers();
      screen.vis := screen.vis.(toolsList := true);
      match toolType
      case Crop =>
        SetActiveTool(Some(CropTool));
      case Sticker =>
        screen.vis := screen.vis.(toolsList := false);
        screen.vis := screen.vis.(stickerList := true);
        SetActiveTool(Some(StickerTool));
      case Draw =>
        screen.vis := screen.vis.(drawControls := true);
        SetActiveTool(Some(DrawTool));
      case Text =>
        screen.vis := screen.vis.(textControls := true);
        SetActiveTool(Some(TextTool));
    }

    /** onActivityResult(requestCode, resultCode, data), given UCrop's output and the decoded result. */
    method OnActivityResult(requestCode: int, resultCode: int, output: Option<Uri>, errorMessage: Option<string>,
                            decoded: Option<Bitmap>)
      requires Valid()
      requires decoded.Some? ==> IsBitmap(decoded.value)
      modifies this, drawView, cropTool
      ensures match ResultActionFor(requestCode, resultCode, output, errorMessage)
        case ApplyCrop(uri) =>
          && drawView.Snapshot() == SetBackground(old(drawView.Snapshot()), drawView.viewWidth, drawView.viewHeight, decoded)
          && cropTool.State() == CropResult(old(cropTool.State()), uri)
          && toasts == old(toasts)
        case ShowToast(message) =>
          && drawView.Snapshot() == old(drawView.Snapshot()) && cropTool.State() == old(cropTool.State())
          && toasts == old(toasts) + [message]
        case IgnoreResult =>
          && drawView.Snapshot() == old(drawView.Snapshot()) && cropTool.State() == old(cropTool.State())
          && toasts == old(toasts)
      ensures activeTool == old(activeTool)
      ensures Valid()
    {
      if resultCode == RESULT_OK && requestCode == REQUEST_CROP {
        if output.Some? {
          cropTool.HandleCropResult(output.value, decoded);
        } else {
          toasts := toasts + ["Failed to retrieve cropped image."];
        }
      } else if resultCode == RESULT_ERROR {
        var message := if errorMessage.Some? then errorMessage.value else "null";
        toasts := toasts + ["Crop error: " + message];
      }
    }

    /** onDestroyView() */
    method OnDestroyView()
      requires Valid()
      modifies this, screen, drawView, cropTool
      ensures View() == DestroyView(old(View()))
      ensures drawView.Snapshot() == old(drawView.Snapshot()).(pen := drawView.pen)
      ensures Valid()
    {
      if activeTool.Some? {
        DeactivateTool(activeTool.value);
      }
      activeTool := None;
    }
  }
}
