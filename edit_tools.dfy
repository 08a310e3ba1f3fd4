/**
 * The drawing, text and crop tool managers of ui/edit/tools: each shows or hides
 * its controls on the shared screen and writes through to the canvas.
 */
module EditTools {
  import opened Wrappers
  import opened Graphics
  import opened TextStyles
  import opened Items
  import opened CanvasModel
  import opened CanvasContent
  import opened Canvas
  import opened EditScreen
  import opened ToolSwitching

  /** The brush-size listener's width for a seek-bar progress: the progress, but at least 1. */
  function BrushSize(progress: int): (w: real)
    ensures w >= 1.0 && w >= progress as real
    ensures w == progress as real || w == 1.0
  {
    if progress as real >= 1.0 then progress as real else 1.0
  }

  /** DrawToolManager.kt */
  class DrawToolManager {
    const drawView: DrawOnImageView
    const screen: Screen
    var lastColor: int

    constructor (drawView: DrawOnImageView, screen: Screen)
      ensures this.drawView == drawView && this.screen == screen && lastColor == BLACK
    {
      this.drawView := drawView;
      this.screen := screen;
      lastColor := BLACK;
    }

    /** activate(): show the controls, enable drawing, and start with the pen rather than the eraser. */
    method Activate()
      requires drawView.Valid()
      modifies screen, drawView
      ensures screen.vis == old(screen.vis).(drawControls := true)
      ensures drawView.Snapshot() ==
              old(drawView.Snapshot()).(pen := CanvasModel.SetEraseMode(CanvasModel.EnableDrawing(old(drawView.pen), true), false))
      ensures drawView.Valid()
    {
      screen.vis := screen.vis.(drawControls := true);
      drawView.EnableDrawing(true);
      drawView.SetEraseMode(false);
    }

    /** deactivate(): hide the controls and disable drawing. */
    method Deactivate()
      requires drawView.Valid()
      modifies screen, drawView
      ensures screen.vis == old(screen.vis).(drawControls := false)
      ensures drawView.Snapshot() == old(drawView.Snapshot()).(pen := CanvasModel.EnableDrawing(old(drawView.pen), false))
      ensures drawView.Valid()
    {
      screen.vis := screen.vis.(drawControls := false);
      drawView.EnableDrawing(false);
    }

    method IsToolActive() returns (active: bool)
      ensures active == drawView.pen.isDrawingEnabled
    {
      return drawView.pen.isDrawingEnabled;
    }

    /** The colour picker's listener: remember the colour and paint with it. */
    method OnColorPicked(color: int)
      requires drawView.Valid()
      modifies this, drawView
      ensures lastColor == color
      ensures drawView.Snapshot() == old(drawView.Snapshot()).(pen := CanvasModel.SetPaintColor(old(drawView.pen), color))
      ensures drawView.pen.isDrawingEnabled && !drawView.pen.isErasing && drawView.pen.drawColor == color
      ensures drawView.Valid()
    {
      lastColor := color;
      drawView.SetPaintColor(color);
    }

    /** The brush-size seek bar's listener. */
    method OnBrushSizeChanged(progress: int)
      requires drawView.Valid()
      modifies drawView
      ensures drawView.Snapshot() ==
              old(drawView.Snapshot()).(pen := CanvasModel.SetDrawingSize(old(drawView.pen), BrushSize(progress)))
      ensures drawView.pen.drawSize >= 1.0
      ensures drawView.Valid()
    {
      drawView.SetDrawingSize(BrushSize(progress));
    }

    /** The eraser button's listener. */
    method OnEraserClicked()
      requires drawView.Valid()
      modifies drawView
      ensures drawView.Snapshot() == old(drawView.Snapshot()).(pen := CanvasModel.SetEraseMode(old(drawView.pen), true))
      ensures drawView.Valid()
    {
      drawView.SetEraseMode(true);
    }

    /** The clear button's listener. */
    method OnClearClicked()
      requires drawView.Valid()
      modifies drawView
      ensures drawView.Snapshot() == old(drawView.Snapshot()).(pen := CanvasModel.ClearDrawings(old(drawView.pen)))
      ensures drawView.Valid()
    {
      drawView.ClearDrawings();
    }
  }

  /** TextToolManager.kt; the create and edit dialogs are given the style the user confirmed. */
  class TextToolManager {
    const drawView: DrawOnImageView
    const screen: Screen

    constructor (drawView: DrawOnImageView, screen: Screen)
      ensures this.drawView == drawView && this.screen == screen
    {
      this.drawView := drawView;
      this.screen := screen;
    }

    /** activate(): show the controls and turn canvas drawing off. */
    method Activate()
      requires drawView.Valid()
      modifies screen, drawView
      ensures screen.vis == old(screen.vis).(textControls := true)
      ensures drawView.Snapshot() == old(drawView.Snapshot()).(pen := CanvasModel.EnableDrawing(old(drawView.pen), false))
      ensures !drawView.pen.isDrawingEnabled && !drawView.pen.isErasing
      ensures drawView.Valid()
    {
      screen.vis := screen.vis.(textControls := true);
      drawView.EnableDrawing(false);
    }

    /** deactivate(): only the controls are hidden; the canvas is not touched. */
    method Deactivate()
      modifies screen
      ensures screen.vis == old(screen.vis).(textControls := false)
    {
      screen.vis := screen.vis.(textControls := false);
    }

    method IsToolActive() returns (active: bool)
      ensures active == screen.vis.textControls
    {
      return screen.vis.textControls;
    }

    /** createText(): the confirmed style becomes a new text item showing the style's text. */
    method CreateText(style: TextStyle)
      requires drawView.Valid()
      modifies drawView
      ensures drawView.Snapshot() == AddText(old(drawView.Snapshot()), style.text, Some(style))
      ensures |drawView.movableItems| == |old(drawView.movableItems)| + 1
      ensures var it := drawView.movableItems[|drawView.movableItems| - 1];
        it.kind.TextItem? && it.kind.text == style.text && it.kind.style == style && it.isSelected
      ensures drawView.Valid()
    {
      TextAdded(drawView.Snapshot(), style.text, Some(style));
      drawView.AddTextItem(style.text, Some(style));
    }

    /** editText(textItem): the confirmed style is pushed into the same item. */
    method EditText(id: nat, style: TextStyle)
      requires drawView.Valid()
      modifies drawView
      ensures drawView.Snapshot() == old(drawView.Snapshot()).(items := UpdateText(old(drawView.movableItems), id, style))
      ensures forall k :: IndexOfId(old(drawView.movableItems), id) == Some(k) && old(drawView.movableItems)[k].kind.TextItem? ==>
        && drawView.movableItems[k].kind.TextItem?
        && drawView.movableItems[k].kind.text == style.text
        && drawView.movableItems[k].kind.style == style
      ensures drawView.Valid()
    {
      var items := drawView.movableItems;
      var found := IndexOfId(items, id);
      if found.Some? && items[found.value].kind.TextItem? {
        TextRestyled(items, id, style, found.value);
      }
      drawView.UpdateTextItem(id, style);
    }
  }

  /** CropToolManager.kt; UCrop's launch is recorded as a request. */
  class CropToolManager {
    const drawView: DrawOnImageView
    /** The temp file and result file of each start (named after the clock and a UUID). */
    const files: CropFiles
    var isActive: bool
    var sourceUri: Option<Uri>
    var latestTempUri: Option<Uri>
    var requests: seq<CropRequest>

    function State(): CropState
      reads this
    {
      CropState(isActive, sourceUri, latestTempUri, requests)
    }

    constructor (drawView: DrawOnImageView, files: CropFiles)
      ensures this.drawView == drawView && this.files == files
      ensures State() == CropState(false, None, None, [])
    {
      this.drawView := drawView;
      this.files := files;
      isActive := false;
      sourceUri := None;
      latestTempUri := None;
      requests := [];
    }

    method SetSourceUri(uri: Uri)
      modifies this
      ensures State() == old(State()).(sourceUri := Some(uri))
    {
      sourceUri := Some(uri);
    }

    /** activate() */
    method Activate()
      modifies this
      ensures State() == CropActivate(old(State()), files)
    {
      if isActive {
        return;
      }
      isActive := true;
      StartCrop(0.0, 0.0);
    }

    /** startCrop(aspectRatioX, aspectRatioY): capture the layout to a temp file and launch UCrop on it. */
    method StartCrop(aspectRatioX: real, aspectRatioY: real)
      modifies this
      ensures State() == ToolSwitching.StartCrop(old(State()), files, aspectRatioX, aspectRatioY)
    {
      var n := |requests|;
      var tempUri := files.temp(n);
      latestTempUri := Some(tempUri);
      var destinationUri := files.destination(n);
      var request := CropRequest(tempUri, destinationUri, MAX_RESULT_SIZE, MAX_RESULT_SIZE, None);
      if aspectRatioX > 0.0 && aspectRatioY > 0.0 {
        request := request.(aspect := Some(AspectRatio(aspectRatioX, aspectRatioY)));
      }
      requests := requests + [request];
    }

    method Deactivate()
      modifies this
      ensures State() == CropDeactivate(old(State()))
    {
      isActive := false;
    }

    method IsToolActive() returns (active: bool)
      ensures active == isActive
    {
      return isActive;
    }

    /** handleCropResult(uri): the decoded result becomes the canvas background. */
    method HandleCropResult(uri: Uri, bitmap: Option<Bitmap>)
      requires drawView.Valid()
      requires bitmap.Some? ==> IsBitmap(bitmap.value)
      modifies this, drawView
      ensures drawView.Snapshot() == SetBackground(old(drawView.Snapshot()), drawView.viewWidth, drawView.viewHeight, bitmap)
      ensures State() == CropResult(old(State()), uri)
      ensures drawView.Valid()
    {
      drawView.SetBackgroundBitmap(bitmap);
      SetSourceUri(uri);
      isActive := false;
    }
  }
}
