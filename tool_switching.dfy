/**
 * The tool-switching protocol of ui/edit/fragment/EditHostFragment.kt and the
 * tool managers it drives, as a function of the observable state: which
 * containers are visible, which tool is active, the crop tool's own state and
 * the canvas pen the drawing and text tools write through to.
 */
module ToolSwitching {
  import opened Wrappers
  import opened CanvasModel
  import opened EditScreen

  /** The tool managers the host can make active. */
  datatype ToolKind = FrameTool | FilterTool | StickerTool | CropTool | DrawTool | TextTool

  /** The entries of the tools list (ToolType). */
  datatype ToolType = Crop | Sticker | Draw | Text

  datatype Uri = Uri(path: string)

  datatype AspectRatio = AspectRatio(x: real, y: real)

  /** The longest side UCrop is asked to return. */
  const MAX_RESULT_SIZE: int := 1080

  /** One UCrop launch: source, destination, result bound, and the fixed ratio if any. */
  datatype CropRequest = CropRequest(source: Uri, destination: Uri, maxWidth: int, maxHeight: int,
                                     aspect: Option<AspectRatio>)

  /**
   * Where the n-th crop start writes the captured layout (a cache file named
   * after the clock) and where UCrop puts its result (named after a random UUID).
   */
  datatype CropFiles = CropFiles(temp: nat -> Uri, destination: nat -> Uri)

  /** CropToolManager's fields, and the crops it has launched. */
  datatype CropState = CropState(isActive: bool, sourceUri: Option<Uri>, latestTempUri: Option<Uri>,
                                 requests: seq<CropRequest>)

  /** The state the protocol acts on. */
  datatype Ui = Ui(vis: Visibility, active: Option<ToolKind>, crop: CropState, pen: Pen)

  // ---------------------------------------------------------------------------
  // CropToolManager
  // ---------------------------------------------------------------------------

  /** The fixed-ratio option of startCrop: only when both components are positive. */
  function AspectOption(aspectRatioX: real, aspectRatioY: real): (r: Option<AspectRatio>)
    ensures r.Some? <==> aspectRatioX > 0.0 && aspectRatioY > 0.0
    ensures r.Some? ==> r.value.x == aspectRatioX && r.value.y == aspectRatioY
  {
    if aspectRatioX > 0.0 && aspectRatioY > 0.0 then Some(AspectRatio(aspectRatioX, aspectRatioY)) else None
  }

  /** startCrop(aspectRatioX, aspectRatioY) */
  function StartCrop(c: CropState, files: CropFiles, aspectRatioX: real, aspectRatioY: real): CropState
  {
    var n := |c.requests|;
    var temp := files.temp(n);
    c.(latestTempUri := Some(temp),
       requests := c.requests + [CropRequest(temp, files.destination(n), MAX_RESULT_SIZE, MAX_RESULT_SIZE,
                                             AspectOption(aspectRatioX, aspectRatioY))])
  }

  /** activate(): start a free-style crop unless one is already active. */
  function CropActivate(c: CropState, files: CropFiles): CropState
  {
    if c.isActive then c else StartCrop(c.(isActive := true), files, 0.0, 0.0)
  }

  function CropDeactivate(c: CropState): CropState
  {
    c.(isActive := false)
  }

  /** The crop tool's part of handleCropResult(uri); the canvas part is setBackgroundBitmap. */
  function CropResult(c: CropState, uri: Uri): CropState
  {
    c.(sourceUri := Some(uri), isActive := false)
  }

  /** A second activate() is a no-op, and the default activation is free-style. */
  lemma CropActivateGuarded(c: CropState, files: CropFiles)
    ensures CropActivate(CropActivate(c, files), files) == CropActivate(c, files)
    ensures var c1 := CropActivate(c, files);
      && c1.isActive
      && (c.isActive ==> c1 == c)
      && (!c.isActive ==> |c1.requests| == |c.requests| + 1 && c1.requests[..|c.requests|] == c.requests
                          && c1.requests[|c.requests|].aspect == None
                          && c1.requests[|c.requests|].maxWidth == MAX_RESULT_SIZE
                          && c1.requests[|c.requests|].maxHeight == MAX_RESULT_SIZE
                          && c1.latestTempUri == Some(c1.requests[|c.requests|].source))
  {
  }

  // ---------------------------------------------------------------------------
  // Activation and deactivation of each tool
  // ---------------------------------------------------------------------------

  /** isToolActive() of each tool manager. */
  predicate ToolActive(u: Ui, k: ToolKind)
  {
    match k
    case FrameTool => u.vis.frameList
    case FilterTool => u.vis.filterList
    case StickerTool => u.vis.stickerList
    case CropTool => u.crop.isActive
    case DrawTool => u.pen.isDrawingEnabled
    case TextTool => u.vis.textControls
  }

  /** activate() of each tool manager. */
  function Activated(u: Ui, k: ToolKind, files: CropFiles): Ui
  {
    match k
    case FrameTool => u.(vis := u.vis.(frameList := true))
    case FilterTool => u.(vis := u.vis.(filterList := true))
    case StickerTool => u.(vis := u.vis.(stickerList := true))
    case CropTool => u.(crop := CropActivate(u.crop, files))
    case DrawTool => u.(vis := u.vis.(drawControls := true), pen := SetEraseMode(EnableDrawing(u.pen, true), false))
    case TextTool => u.(vis := u.vis.(textControls := true), pen := EnableDrawing(u.pen, false))
  }

  /** deactivate() of each tool manager. */
  function Deactivated(u: Ui, k: ToolKind): Ui
  {
    match k
    case FrameTool => u.(vis := u.vis.(frameList := false))
    case FilterTool => u.(vis := u.vis.(filterList := false))
    case StickerTool => u.(vis := u.vis.(stickerList := false))
    case CropTool => u.(crop := CropDeactivate(u.crop))
    case DrawTool => u.(vis := u.vis.(drawControls := false), pen := EnableDrawing(u.pen, false))
    case TextTool => u.(vis := u.vis.(textControls := false))
  }

  /** setActiveTool(tool): the old tool is deactivated before the new one is activated. */
  function SetActive(u: Ui, tool: Option<ToolKind>, files: CropFiles): Ui
  {
    var u1 := if u.active.Some? then Deactivated(u, u.active.value) else u;
    var u2 := u1.(active := tool);
    if tool.Some? then Activated(u2, tool.value, files) else u2
  }

  /** Only the given containers visible, as the show* helpers leave them after hideAllToolContainers(). */
  function Showing(u: Ui, vis: Visibility): Ui
  {
    u.(vis := vis)
  }

  /** handleTabSelection(position) */
  function TabSelected(u: Ui, position: int, files: CropFiles): Ui
  {
    if position == 0 then SetActive(Showing(u, ALL_HIDDEN.(frameList := true)), Some(FrameTool), files)
    else if position == 1 then SetActive(Showing(u, ALL_HIDDEN.(toolsList := true)), None, files)
    else if position == 2 then SetActive(Showing(u, ALL_HIDDEN.(filterList := true)), Some(FilterTool), files)
    else u
  }

  /** The visibility onToolSelected(toolType) sets before switching tools. */
  function ToolVisibility(t: ToolType): Visibility
  {
    match t
    case Crop => ALL_HIDDEN.(toolsList := true)
    case Sticker => ALL_HIDDEN.(stickerList := true)
    case Draw => ALL_HIDDEN.(toolsList := true, drawControls := true)
    case Text => ALL_HIDDEN.(toolsList := true, textControls := true)
  }

  function ToolKindOf(t: ToolType): ToolKind
  {
    match t
    case Crop => CropTool
    case Sticker => StickerTool
    case Draw => DrawTool
    case Text => TextTool
  }

  /**
   * onToolSelected(toolType) as written: for CROP the crop tool is activated
   * directly and then once more through setActiveTool.
   */
  function ToolSelectedAsWritten(u: Ui, t: ToolType, files: CropFiles): Ui
  {
    var u1 := Showing(u, ToolVisibility(t));
    if t == Crop then SetActive(u1.(crop := CropActivate(u1.crop, files)), Some(CropTool), files)
    else SetActive(u1, Some(ToolKindOf(t)), files)
  }

  /** onToolSelected(toolType) with the crop tool activated through setActiveTool only. */
  function ToolSelected(u: Ui, t: ToolType, files: CropFiles): Ui
  {
    SetActive(Showing(u, ToolVisibility(t)), Some(ToolKindOf(t)), files)
  }

  /** onDestroyView(): the active tool is deactivated and forgotten. */
  function DestroyView(u: Ui): Ui
  {
    (if u.active.Some? then Deactivated(u, u.active.value) else u).(active := None)
  }

  // ---------------------------------------------------------------------------
  // Properties
  // ---------------------------------------------------------------------------

  /** At most the active tool reports itself active. */
  predicate Exclusive(u: Ui)
  {
    forall k :: ToolActive(u, k) ==> u.active == Some(k)
  }

  /** Deactivating a tool makes it report inactive and leaves every other tool's report alone. */
  lemma DeactivateOnly(u: Ui, k: ToolKind, j: ToolKind)
    ensures !ToolActive(Deactivated(u, k), k)
    ensures j != k ==> (ToolActive(Deactivated(u, k), j) <==> ToolActive(u, j))
  {
  }

  /** Activating a tool makes it report active (the crop tool is active after activate() either way). */
  lemma ActivateReports(u: Ui, k: ToolKind, files: CropFiles)
    ensures ToolActive(Activated(u, k, files), k)
  {
  }

  /**
   * Switching tools: the new tool reports active, the old one (when different)
   * reports inactive, and re-selecting the active tool keeps it active, which
   * holds because deactivation comes first.
   */
  lemma {:induction false} SwitchReports(u: Ui, k: ToolKind, files: CropFiles)
    ensures var u1 := SetActive(u, Some(k), files);
      && u1.active == Some(k) && ToolActive(u1, k)
      && (u.active.Some? && u.active.value != k ==> !ToolActive(u1, u.active.value))
  {
    var u0 := if u.active.Some? then Deactivated(u, u.active.value) else u;
    ActivateReports(u0.(active := Some(k)), k, files);
    if u.active.Some? && u.active.value != k {
      var j := u.active.value;
      DeactivateOnly(u, j, j);
      assert !ToolActive(u0.(active := Some(k)), j);
      match k
      case FrameTool =>
      case FilterTool =>
      case StickerTool =>
      case CropTool =>
      case DrawTool =>
        assert j != DrawTool;
      case TextTool =>
    }
  }

  /**
   * The three tabs: frames with the frame tool, the tools list with no tool, and
   * filters with the filter tool; any other position changes nothing. The crop
   * launches are untouched.
   */
  lemma TabOutcome(u: Ui, position: int, files: CropFiles)
    ensures var u1 := TabSelected(u, position, files);
      && (position == 0 ==> u1.vis == ALL_HIDDEN.(frameList := true) && u1.active == Some(FrameTool))
      && (position == 1 ==> u1.vis == ALL_HIDDEN.(toolsList := true) && u1.active == None)
      && (position == 2 ==> u1.vis == ALL_HIDDEN.(filterList := true) && u1.active == Some(FilterTool))
      && (position !in {0, 1, 2} ==> u1 == u)
      && u1.crop.requests == u.crop.requests
  {
  }

  /**
   * Choosing from the tools list: STICKER leaves only the sticker list visible,
   * DRAW and TEXT keep the tools list and show their controls, CROP keeps only
   * the tools list; the chosen tool becomes active, the drawing tool with the
   * pen (not the eraser) on and the text tool with drawing off.
   */
  lemma ToolOutcome(u: Ui, t: ToolType, files: CropFiles)
    ensures var u1 := ToolSelected(u, t, files);
      && u1.vis == ToolVisibility(t)
      && u1.active == Some(ToolKindOf(t))
      && (t == Draw ==> u1.pen.isDrawingEnabled && !u1.pen.isErasing)
      && (t == Text ==> !u1.pen.isDrawingEnabled && !u1.pen.isErasing)
  {
    match u.active
    case None =>
    case Some(k) =>
      match k
      case FrameTool =>
      case FilterTool =>
      case StickerTool =>
      case CropTool =>
      case DrawTool =>
      case TextTool =>
  }

  /** From a state where only the active tool reports active, tab and tool choices keep it so. */
  lemma {:induction false} SwitchKeepsExclusive(u: Ui, position: int, t: ToolType, files: CropFiles)
    requires Exclusive(u)
    ensures Exclusive(TabSelected(u, position, files))
    ensures Exclusive(ToolSelected(u, t, files))
  {
    SelectKeepsExclusive(Showing(u, ALL_HIDDEN.(frameList := true)), Some(FrameTool), files);
    SelectKeepsExclusive(Showing(u, ALL_HIDDEN.(toolsList := true)), None, files);
    SelectKeepsExclusive(Showing(u, ALL_HIDDEN.(filterList := true)), Some(FilterTool), files);
    SelectKeepsExclusive(Showing(u, ToolVisibility(t)), Some(ToolKindOf(t)), files);
  }

  /** The common step: hidden containers but the new tool's, then setActiveTool. */
  lemma {:induction false} SelectKeepsExclusive(u: Ui, tool: Option<ToolKind>, files: CropFiles)
    requires !u.crop.isActive || u.active == Some(CropTool)
    requires !u.pen.isDrawingEnabled || u.active == Some(DrawTool)
    requires u.vis.frameList ==> tool == Some(FrameTool)
    requires u.vis.filterList ==> tool == Some(FilterTool)
    requires u.vis.stickerList ==> tool == Some(StickerTool)
    requires u.vis.textControls ==> tool == Some(TextTool)
    ensures Exclusive(SetActive(u, tool, files))
  {
    var u1 := SetActive(u, tool, files);
    var u0 := if u.active.Some? then Deactivated(u, u.active.value) else u;
    assert !u0.crop.isActive && !u0.pen.isDrawingEnabled;
    var u2 := u0.(active := tool);
    forall k | ToolActive(u1, k) ensures u1.active == Some(k) {
      if tool.Some? {
        ActivateAddsOnly(u2, tool.value, k, files);
      }
      if u.active.Some? {
        DeactivateOnly(u, u.active.value, k);
      }
    }
  }

  /** Activating a tool turns on no other tool. */
  lemma ActivateAddsOnly(u: Ui, k: ToolKind, j: ToolKind, files: CropFiles)
    ensures ToolActive(Activated(u, k, files), j) ==> j == k || ToolActive(u, j)
  {
  }

  /** From an exclusive state, choosing CROP launches exactly one crop and leaves it the active tool. */
  lemma {:induction false} CropStartsOnce(u: Ui, files: CropFiles)
    requires Exclusive(u)
    ensures var u1 := ToolSelected(u, Crop, files);
      && |u1.crop.requests| == |u.crop.requests| + 1
      && u1.crop.requests[..|u.crop.requests|] == u.crop.requests
      && u1.crop.isActive && u1.active == Some(CropTool)
  {
    assert ToolActive(u, CropTool) ==> u.active == Some(CropTool);
  }

  /**
   * As written, choosing CROP right after a crop result (the crop tool still the
   * active tool, with isActive cleared) launches UCrop twice.
   */
  lemma {:induction false} CropTwiceAsWritten(u: Ui, files: CropFiles, uri: Uri)
    ensures var u1 := ToolSelectedAsWritten(u, Crop, files);
      var u2 := u1.(crop := CropResult(u1.crop, uri));
      |ToolSelectedAsWritten(u2, Crop, files).crop.requests| == |u2.crop.requests| + 2
  {
    var u1 := ToolSelectedAsWritten(u, Crop, files);
    assert u1.active == Some(CropTool);
  }

  /** onDestroyView leaves no active tool, and the tool that was active reports inactive. */
  lemma DestroyDeactivates(u: Ui)
    ensures DestroyView(u).active == None
    ensures u.active.Some? ==> !ToolActive(DestroyView(u), u.active.value)
  {
  }
}
