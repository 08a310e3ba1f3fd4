# AppEdit photo editor and camera, modelled in Dafny

AppEdit is an Android photo-editing app written in Kotlin. This project models
two parts of it and proves properties of the model.

**The editor.** `DrawOnImageView` is the editing canvas:
- a background bitmap scaled to fit the view and centred in it;
- a freehand drawing layer with a pen and an eraser;
- a stack of movable text and sticker items that can be selected, dragged,
  pinch-zoomed, rotated, deleted and double-tapped for editing;
- a dashed boundary highlight that fades out.

`EditHostFragment` switches between the editing tools. At most one tool
manager (frame, filter, sticker, draw, text or crop) is active at a time.

**The camera screen.** `CameraViewModel` holds the camera settings. Two
fragments use them:
- the current camera fragment (`ui/camera/CameraFragment.kt`);
- an older camera fragment (`ui/CameraFragment.kt`).

Between them they cover the aspect-ratio tabs, the preview size, the centred
crop of a captured photo, the self-timer, and the filter strip built by
`FilterTabAdapter`. The filter strip snaps to its centred tab.

## Modules

| module | file | models |
|---|---|---|
| `Wrappers` | wrappers.dfy | Kotlin nullables as `Option`, and `?:` as `GetOr` |
| `Graphics` | graphics.dfy | `RectF` semantics, `Paint`, bitmaps known by their size, the platform's measuring functions as parameters with stated laws, and Kotlin's `toInt`, integer division and `Float %` |
| `TextStyles` | text_style.dfy | `TextStyle` and its `copy()` |
| `Items` | movable_item.dfy | `MovableItem`: text and image items, `split('\n')`, `getBounds()`, `applyStyle()`, `drawWithStyle()` as a list of draw commands |
| `CanvasModel` | canvas_model.dfy | the canvas state as a value, and every canvas operation as a transition function |
| `Canvas` | canvas.dfy | `DrawOnImageView` as a class whose methods are proved against `CanvasModel` |
| `CanvasContent` | canvas_content.dfy | properties of the background, reset, sticker and text operations |
| `CanvasInvariant` | canvas_invariant.dfy | proofs that every canvas operation keeps the state invariant |
| `CanvasProperties` | canvas_props.dfy | properties of the touch gestures and the pen |
| `EditScreen` | edit_screen.dfy | the visibility of the editor's tool containers |
| `ToolSwitching` | tool_switching.dfy | the tool-switching protocol as functions, with its lemmas |
| `EditTools` | edit_tools.dfy | the draw, text and crop tool managers as classes |
| `FrameTools` | frame_tool.dfy | the frame tool manager, `calculateInSampleSize`, and the frame cache |
| `EditHost` | edit_host.dfy | `EditHostFragment` as a class |
| `CameraSettings` | camera_settings.dfy | `CameraViewModel` and its toggles |
| `CameraMath` | camera_math.dfy | the crop, the preview height, the CameraX ratio, the padding-tab count and `toIntOrNull` |
| `TabCentering` | tab_center.dfy | `findClosestTabToCenter` and `detectCenteredTab` |
| `CaptureTimer` | capture_timer.dfy | the self-timer of both fragments |
| `CameraScreen` | camera_fragment.dfy | the current camera fragment |
| `LegacyCamera` | legacy_camera.dfy | the older camera fragment |
| `FilterTabs` | filter_tabs.dfy | `FilterTabAdapter` and the `TabLayout` it drives |

## Modelling choices

**Values and numbers.**
- `Float` is modelled as `real`, and `toInt()` as truncation toward zero.
- Kotlin's `Int` division truncates toward zero and is modelled as `KDiv`.
  Dafny's own division is Euclidean.
- `Float %` is modelled as `KotlinRem`, whose result has the sign of the
  dividend. So a rotation stays strictly between -360 and 360 and is not
  normalised into [0, 360), as the comment beside it suggests.

**Object identity.**
- An item holds a unique `id`, which stands for its object identity. The view
  keeps the items as a sequence.
- The gesture fields and `itemControls` refer to items by id.

**Platform and outside world.**
- The platform functions are parameters, with the laws the rest of the model
  relies on: text measurement, font metrics, `atan2`, `sqrt` and matrix
  inversion.
- `System.currentTimeMillis()` is a parameter `now`.
- The decoded bitmaps, UCrop's output and the crop error message are
  parameters.
- Coroutines and `Handler` posts run to completion, in the order they were
  posted.

**Camera.**
- In the filter strip, a tab is named by its position.
- A `CountDownTimer` is an entry in a list of started countdowns. A countdown
  is running until it is cancelled or its `onFinish` runs.

## Model

Paths are relative to the repository root.

| member | source | states |
|---|---|---|
| Graphics.Inset | app/src/main/java/com/example/dungappedit/canvas/DrawOnImageView.kt:218 | a negative inset grows the rectangle by the same amount on every side |
| Graphics.Trunc | app/src/main/java/com/example/dungappedit/canvas/DrawOnImageView.kt:854-855 | `toInt()` rounds toward zero: the result is the integer nearest the value on the side of zero, within one of it |
| Graphics.KDiv | app/src/main/java/com/example/dungappedit/ui/camera/CameraFragment.kt:305 | Kotlin `Int` division by a positive divisor truncates toward zero: a non-negative dividend gives the floor quotient, and a negative one the negated quotient of its magnitude |
| Graphics.KotlinRem | app/src/main/java/com/example/dungappedit/canvas/DrawOnImageView.kt:624 | `Float %`: the remainder lies strictly within one period of zero and has the dividend's sign, and a dividend already within one period is kept |
| TextStyles.StyleWith | app/src/main/java/com/example/dungappedit/model/TextStyle.kt:9-27 | a style built from three named arguments carries those three and the declared default for every other field |
| TextStyles.Copy | app/src/main/java/com/example/dungappedit/model/TextStyle.kt:31-47 | `copy()` carries all thirteen fields over unchanged |
| TextStyles.CopyIsIndependent | app/src/main/java/com/example/dungappedit/model/TextStyle.kt:31-47 | editing the copy's text or size leaves the original unchanged, and the copy differs only in the edited field |
| TextStyles.DefaultValues | app/src/main/java/com/example/dungappedit/model/TextStyle.kt:10-26 | the defaults: "Sample Text", black, size 60, sans-serif, normal face; stroke and shadow off, with their declared colours and sizes |
| Items.NewTextItem | app/src/main/java/com/example/dungappedit/model/MovableItem.kt:17-34 | a new text item starts untransformed and unselected; without a style it gets one made from its text and the paint's colour and size |
| Items.NewImageItem | app/src/main/java/com/example/dungappedit/model/MovableItem.kt:161-165 | a new image item keeps its bitmap and position and starts unscaled, unrotated and unselected |
| Items.SplitLines | app/src/main/java/com/example/dungappedit/model/MovableItem.kt:81 | `split('\n')` always gives at least one piece, and no piece contains a newline |
| Items.JoinSplit | app/src/main/java/com/example/dungappedit/model/MovableItem.kt:81 | splitting the text and joining the pieces with newlines gives the text back |
| Items.SplitJoin | app/src/main/java/com/example/dungappedit/model/MovableItem.kt:81 | joining pieces that have no newline and splitting the result gives the same pieces |
| Items.SplitNoNewline | app/src/main/java/com/example/dungappedit/model/MovableItem.kt:81 | a text without a newline is a single line |
| Items.SplitSplice | app/src/main/java/com/example/dungappedit/model/MovableItem.kt:81 | a newline between two texts splits them into the pieces of each |
| Items.LineCount | app/src/main/java/com/example/dungappedit/model/MovableItem.kt:81 | the number of lines is one more than the number of newlines |
| Items.MaxWidthIsMax | app/src/main/java/com/example/dungappedit/model/MovableItem.kt:84-90 | the running maximum is at least every line's width, at least 0, and equals one line's width unless it is 0 |
| Items.GetBounds | app/src/main/java/com/example/dungappedit/model/MovableItem.kt:80-102 | the loop computes the text box specified by `TextBounds` |
| Items.TextBoundsSpec | app/src/main/java/com/example/dungappedit/model/MovableItem.kt:80-102 | the text box: left at x, as wide as the widest line, top one ascent above the first baseline, bottom one descent below the last baseline, which lies (lines − 1) font spacings lower |
| Items.AppendLineBounds | app/src/main/java/com/example/dungappedit/model/MovableItem.kt:92-101 | adding a line keeps the left, top and lines above it, never narrows the box, and lowers the bottom by exactly one font spacing |
| Items.TextBoundsNonEmpty | app/src/main/java/com/example/dungappedit/model/MovableItem.kt:92-101 | under the font-metric laws the text box is never inverted |
| Items.LocalBounds | app/src/main/java/com/example/dungappedit/canvas/DrawOnImageView.kt:143-150 | a text item's box is its text box; an image item's box is its unscaled bitmap placed at its position |
| Items.ApplyStyle | app/src/main/java/com/example/dungappedit/model/MovableItem.kt:39-74 | `applyStyle()` copies the style's text, size, face, stroke and shadow into the item; the paint is in stroke colour when a stroke is on and in text colour otherwise; an item with no style is unchanged |
| Items.ApplyStyleIdempotent | app/src/main/java/com/example/dungappedit/model/MovableItem.kt:39-74 | applying the style a second time changes nothing |
| Items.DrawWithStyle | app/src/main/java/com/example/dungappedit/model/MovableItem.kt:107-158 | the commands issued are: save, rotate and scale about the box centre, the per-line draws, restore; an item without a style draws nothing |
| Items.DrawLines | app/src/main/java/com/example/dungappedit/model/MovableItem.kt:121-153 | the loop issues each line's draws in order, each one line height lower than the last |
| Items.DrawLine | app/src/main/java/com/example/dungappedit/model/MovableItem.kt:127-151 | one line is drawn as a stroke pass then a fill pass when a stroke is on, and once with the item's paint otherwise |
| Items.DrawCount | app/src/main/java/com/example/dungappedit/model/MovableItem.kt:125-153 | two draws per line with a stroke, one without |
| Items.StrokedLineDraws | app/src/main/java/com/example/dungappedit/model/MovableItem.kt:127-147 | with a stroke, line i is drawn in the stroke colour and width and then filled in the text colour, both at baseline y + i·spacing |
| Items.PlainLineDraws | app/src/main/java/com/example/dungappedit/model/MovableItem.kt:148-151 | without a stroke, line i is drawn once with the item's paint at baseline y + i·spacing |
| Items.DrawShadows | app/src/main/java/com/example/dungappedit/model/MovableItem.kt:134-146 | once the style is applied, every draw carries the style's shadow when shadow is on, and no shadow otherwise |
| CanvasModel.InitialStateValid | app/src/main/java/com/example/dungappedit/canvas/DrawOnImageView.kt:38-70 | the view as constructed meets the state invariant |
| CanvasModel.FirstSelected | app/src/main/java/com/example/dungappedit/canvas/DrawOnImageView.kt:486 | `find { it.isSelected }`: the first selected item, or none when no item is selected |
| CanvasModel.IndexOfId | app/src/main/java/com/example/dungappedit/canvas/DrawOnImageView.kt:522 | the position of the item with the given identity, or none when no item has it |
| CanvasModel.DeleteButtonRect | app/src/main/java/com/example/dungappedit/canvas/DrawOnImageView.kt:142-160 | the delete button is a square 1.5 button sizes wide, centred on the box's top-right corner |
| CanvasModel.RotateButtonRect | app/src/main/java/com/example/dungappedit/canvas/DrawOnImageView.kt:163-181 | the rotate button is the same square, centred on the box's bottom-left corner |
| CanvasModel.TopmostHit | app/src/main/java/com/example/dungappedit/canvas/DrawOnImageView.kt:775-811 | `findTouchedItem`: an item whose padded box holds the mapped touch, with no item above it holding the touch; none exactly when no item is hit |
| CanvasModel.HitUntransformed | app/src/main/java/com/example/dungappedit/canvas/DrawOnImageView.kt:790-808 | for an unrotated, unscaled item, a hit is exactly a touch inside the box padded by half a button |
| CanvasModel.Deselected | app/src/main/java/com/example/dungappedit/canvas/DrawOnImageView.kt:585 | every item is unselected, and nothing else about any item changes |
| CanvasModel.SelectedOnly | app/src/main/java/com/example/dungappedit/canvas/DrawOnImageView.kt:575 | exactly the items with the touched identity are selected, and nothing else about any item changes |
| CanvasModel.RemoveAt | app/src/main/java/com/example/dungappedit/canvas/DrawOnImageView.kt:522 | the items before k stay in place, and those after it move down one |
| CanvasModel.WithoutId | app/src/main/java/com/example/dungappedit/canvas/DrawOnImageView.kt:523 | `removeAll`: the identity is gone, and every other entry is kept |
| CanvasModel.CalculateAngle | app/src/main/java/com/example/dungappedit/canvas/DrawOnImageView.kt:1157-1175 | the angle is in [0, 360) |
| CanvasModel.Spacing | app/src/main/java/com/example/dungappedit/canvas/DrawOnImageView.kt:1143-1147 | the finger distance is never negative |
| CanvasModel.CoerceIn | app/src/main/java/com/example/dungappedit/canvas/DrawOnImageView.kt:644 | `coerceIn`: the result lies in the range, and a value already in range is kept |
| CanvasModel.Expanded | app/src/main/java/com/example/dungappedit/canvas/DrawOnImageView.kt:1309-1314 | the near-boundary rectangle is 10 px wider on each side, with the same centre |
| CanvasModel.CheckHighlight | app/src/main/java/com/example/dungappedit/canvas/DrawOnImageView.kt:1297-1327 | an item not contained in the widened image starts the highlight at alpha 180 with a fade pending after 500 ms; otherwise, or without a background, nothing changes |
| CanvasModel.FadeTimeline | app/src/main/java/com/example/dungappedit/canvas/DrawOnImageView.kt:343-354 | after n runs (n ≤ 36) the highlight shows with alpha 180 − 5n and the next run due within 16 ms; the 37th run hides it and posts nothing more |
| CanvasModel.ClampedScale | app/src/main/java/com/example/dungappedit/canvas/DrawOnImageView.kt:636-646 | the pinch scale before the image caps lies in [0.2, 5] |
| CanvasModel.ClassifyDown | app/src/main/java/com/example/dungappedit/canvas/DrawOnImageView.kt:485-588 | a button hit is on the selected item; a pick or double tap is on an item under the finger; a double tap needs a selected text item touched within 300 ms of the last click |
| CanvasModel.Rotated | app/src/main/java/com/example/dungappedit/canvas/DrawOnImageView.kt:620-625 | after `rotation += d; rotation %= 360f` the rotation lies strictly between −360 and 360, and no other field changes |
| CanvasModel.ScaledSide | app/src/main/java/com/example/dungappedit/canvas/DrawOnImageView.kt:854-855 | corrected side length: at least one pixel, and equal to the truncated side whenever that is positive |
| Canvas.DrawOnImageView.constructor | app/src/main/java/com/example/dungappedit/canvas/DrawOnImageView.kt:34-70 | the view starts in the initial state, which meets the invariant |
| Canvas.DrawOnImageView.FindSelected | app/src/main/java/com/example/dungappedit/canvas/DrawOnImageView.kt:486 | the search returns the first selected item |
| Canvas.DrawOnImageView.IndexOf | app/src/main/java/com/example/dungappedit/canvas/DrawOnImageView.kt:522 | the search returns the position of the given identity |
| Canvas.DrawOnImageView.FindTouchedItem | app/src/main/java/com/example/dungappedit/canvas/DrawOnImageView.kt:775-811 | the top-down scan returns the topmost hit item |
| Canvas.DrawOnImageView.HasBackgroundBitmap | app/src/main/java/com/example/dungappedit/canvas/DrawOnImageView.kt:1217-1219 | true exactly when a background is set |
| Canvas.DrawOnImageView.DeselectAll | app/src/main/java/com/example/dungappedit/canvas/DrawOnImageView.kt:585 | the loop unselects every item and changes nothing else |
| Canvas.DrawOnImageView.SelectOnly | app/src/main/java/com/example/dungappedit/canvas/DrawOnImageView.kt:575 | the loop selects exactly the touched item and changes nothing else |
| Canvas.DrawOnImageView.RemoveControlsFor | app/src/main/java/com/example/dungappedit/canvas/DrawOnImageView.kt:523 | the loop drops the item's controls and changes nothing else |
| Canvas.DrawOnImageView.OnTouchEvent | app/src/main/java/com/example/dungappedit/canvas/DrawOnImageView.kt:464-773 | the new view state and the returned flag are the `Touch` transition of the old state, and the invariant is kept |
| Canvas.DrawOnImageView.HandleGesture | app/src/main/java/com/example/dungappedit/canvas/DrawOnImageView.kt:475-746 | outside drawing mode, the handler chosen by the event's action leaves the state and flag of the `GestureStep` transition |
| Canvas.DrawOnImageView.ClassifyTouchDown | app/src/main/java/com/example/dungappedit/canvas/DrawOnImageView.kt:485-588 | the tests of a down event, in the handler's order, give the `ClassifyDown` case |
| Canvas.DrawOnImageView.HandleDown | app/src/main/java/com/example/dungappedit/canvas/DrawOnImageView.kt:479-589 | a down event outside drawing mode is the `DownStep` transition |
| Canvas.DrawOnImageView.ApplyDown | app/src/main/java/com/example/dungappedit/canvas/DrawOnImageView.kt:519-588 | a classified down event has the `DownEffect` of its case |
| Canvas.DrawOnImageView.DeleteItem | app/src/main/java/com/example/dungappedit/canvas/DrawOnImageView.kt:519-526 | the selected item and its controls are removed, and nothing else changes |
| Canvas.DrawOnImageView.StartRotation | app/src/main/java/com/example/dungappedit/canvas/DrawOnImageView.kt:529-544 | rotation starts about the item's centre from the touch's angle, and only the gesture changes |
| Canvas.DrawOnImageView.RequestTextEdit | app/src/main/java/com/example/dungappedit/canvas/DrawOnImageView.kt:553-565 | the item's double-click counter goes up by one, one edit request for it is recorded, and the click clock resets to 0 |
| Canvas.DrawOnImageView.StartDrag | app/src/main/java/com/example/dungappedit/canvas/DrawOnImageView.kt:567-582 | the item alone is selected with the only controls and starts a drag at the touch offset; the click clock is now |
| Canvas.DrawOnImageView.HandlePointerDown | app/src/main/java/com/example/dungappedit/canvas/DrawOnImageView.kt:591-609 | a second finger changes only the gesture, as `PointerDownStep` says |
| Canvas.DrawOnImageView.HandleMove | app/src/main/java/com/example/dungappedit/canvas/DrawOnImageView.kt:611-718 | a move event is the `MoveStep` transition: rotate, else pinch, else drag |
| Canvas.DrawOnImageView.RotateMove | app/src/main/java/com/example/dungappedit/canvas/DrawOnImageView.kt:613-631 | the rotate branch is the `RotateStep` transition |
| Canvas.DrawOnImageView.PinchMove | app/src/main/java/com/example/dungappedit/canvas/DrawOnImageView.kt:633-711 | the pinch branch is the `PinchStep` transition |
| Canvas.DrawOnImageView.ZoomItem | app/src/main/java/com/example/dungappedit/canvas/DrawOnImageView.kt:636-703 | the zoomed item is the one `Zoomed` specifies |
| Canvas.DrawOnImageView.CapTextScale | app/src/main/java/com/example/dungappedit/canvas/DrawOnImageView.kt:649-670 | the text caps compute `TextCapScale` |
| Canvas.DrawOnImageView.ZoomImage | app/src/main/java/com/example/dungappedit/canvas/DrawOnImageView.kt:672-696 | the image caps and the edge shift compute `ZoomedImage` |
| Canvas.DrawOnImageView.CapImageScale | app/src/main/java/com/example/dungappedit/canvas/DrawOnImageView.kt:676-687 | the width cap, then the height cap, compute the capped scale `ImageCapScale` whose fit is proved in `ImageCapFits` |
| Canvas.DrawOnImageView.MoveItemWithConstraints | app/src/main/java/com/example/dungappedit/canvas/DrawOnImageView.kt:1332-1347 | the item moves to the finger minus the touch offset, the boundary check runs on the moved item, and nothing else changes |
| Canvas.DrawOnImageView.CheckAndHighlightBoundaries | app/src/main/java/com/example/dungappedit/canvas/DrawOnImageView.kt:1297-1327 | only the highlight changes, as `CheckHighlight` says |
| Canvas.DrawOnImageView.HandleLift | app/src/main/java/com/example/dungappedit/canvas/DrawOnImageView.kt:720-736 | a lift changes only the gesture, as `UpStep` says |
| Canvas.DrawOnImageView.ResetTransientState | app/src/main/java/com/example/dungappedit/canvas/DrawOnImageView.kt:738-747 | cancel clears the drag, pinch and rotation fields, and nothing else |
| Canvas.DrawOnImageView.DrawFreehand | app/src/main/java/com/example/dungappedit/canvas/DrawOnImageView.kt:748-771 | in drawing mode only the pen changes, as `FreehandStep` says |
| Canvas.DrawOnImageView.RunFade | app/src/main/java/com/example/dungappedit/canvas/DrawOnImageView.kt:343-354 | one run changes only the highlight, and the invariant is kept |
| Canvas.DrawOnImageView.SetEraseMode | app/src/main/java/com/example/dungappedit/canvas/DrawOnImageView.kt:831-841 | only the pen changes: cleared paint at width 50 for the eraser, or the chosen colour and size for the pen; the invariant is kept |
| Canvas.DrawOnImageView.EnableDrawing | app/src/main/java/com/example/dungappedit/canvas/DrawOnImageView.kt:813-816 | the eraser is turned off, then drawing is set, and the invariant is kept |
| Canvas.DrawOnImageView.SetDrawingSize | app/src/main/java/com/example/dungappedit/canvas/DrawOnImageView.kt:818-821 | the brush size and the paint's stroke width become the size |
| Canvas.DrawOnImageView.SetPaintColor | app/src/main/java/com/example/dungappedit/canvas/DrawOnImageView.kt:823-829 | the eraser is turned off, drawing is enabled, and the pen takes the colour |
| Canvas.DrawOnImageView.ClearDrawings | app/src/main/java/com/example/dungappedit/canvas/DrawOnImageView.kt:1242-1245 | the drawing layer, when there is one, is emptied, and nothing else changes |
| Canvas.DrawOnImageView.SetBackgroundBitmap | app/src/main/java/com/example/dungappedit/canvas/DrawOnImageView.kt:843-910 | the new state is `SetBackground` of the old one, and the invariant is kept |
| Canvas.DrawOnImageView.ResetToOriginalBitmap | app/src/main/java/com/example/dungappedit/canvas/DrawOnImageView.kt:1225-1236 | the new state is `ResetToOriginal` of the old one, and the invariant is kept |
| Canvas.DrawOnImageView.ClearBackground | app/src/main/java/com/example/dungappedit/canvas/DrawOnImageView.kt:1259-1277 | with bitmaps known by their size, replacing the background by a transparent one of the same size changes nothing |
| Canvas.DrawOnImageView.AddTextItem | app/src/main/java/com/example/dungappedit/canvas/DrawOnImageView.kt:912-951 | the new state is `AddText` of the old one, with the new item restyled as the next `onDraw` leaves it, and the invariant is kept |
| Canvas.DrawOnImageView.AddStickerItem | app/src/main/java/com/example/dungappedit/canvas/DrawOnImageView.kt:953-1019 | the new state is `AddSticker` of the old one (the corrected sanitising), and the invariant is kept |
| Canvas.DrawOnImageView.UpdateTextItem | app/src/main/java/com/example/dungappedit/canvas/DrawOnImageView.kt:1289-1294 | only the restyled item changes, and the invariant is kept |
| CanvasContent.BackgroundFitsAndCentres | app/src/main/java/com/example/dungappedit/canvas/DrawOnImageView.kt:850-862 | the loaded background fits the view: each side is between 1 and the view's side, one side fills the view within a pixel, the image rectangle is centred, and its size is the scaled bitmap's |
| CanvasContent.BlankBackground | app/src/main/java/com/example/dungappedit/canvas/DrawOnImageView.kt:876-897 | without a bitmap the background is blank, of the view's size, and the image rectangle covers the view |
| CanvasContent.BackgroundResets | app/src/main/java/com/example/dungappedit/canvas/DrawOnImageView.kt:899-909 | loading a background clears the items, the drawing layer and the modes, keeps the controls and the path, and sends one size notice |
| CanvasContent.BackgroundAsWrittenCollapses | app/src/main/java/com/example/dungappedit/canvas/DrawOnImageView.kt:854-855 | as written, a 10000 × 1 bitmap in a 1080 × 1920 view scales to a height of 0 |
| CanvasContent.ResetRestoresOriginal | app/src/main/java/com/example/dungappedit/canvas/DrawOnImageView.kt:1225-1236 | reset loads the original bitmap again, with no drawings and no items |
| CanvasContent.ResetIdempotent | app/src/main/java/com/example/dungappedit/canvas/DrawOnImageView.kt:1225-1236 | resetting twice ends where resetting once did, apart from one more size notice |
| CanvasContent.ResetWithoutOriginal | app/src/main/java/com/example/dungappedit/canvas/DrawOnImageView.kt:1227 | without an original bitmap, reset changes nothing |
| CanvasContent.ClearDrawingsEmpties | app/src/main/java/com/example/dungappedit/canvas/DrawOnImageView.kt:1242-1245 | clearing empties the drawing layer and changes nothing else |
| CanvasContent.StickerWide | app/src/main/java/com/example/dungappedit/canvas/DrawOnImageView.kt:966-976 | an oversized sticker that is wider than tall ends exactly 1024 wide |
| CanvasContent.StickerTall | app/src/main/java/com/example/dungappedit/canvas/DrawOnImageView.kt:966-976 | an oversized sticker at least as tall as wide ends exactly 1024 tall |
| CanvasContent.StickerSanitized | app/src/main/java/com/example/dungappedit/canvas/DrawOnImageView.kt:966-981 | corrected: an oversized sticker's longer side becomes 1024 and the other lies in [1, 1024]; a sticker that fits keeps its size |
| CanvasContent.StickerAsWrittenCollapses | app/src/main/java/com/example/dungappedit/canvas/DrawOnImageView.kt:973-974 | as written, a 2000 × 1 sticker is sanitised to 1024 × 0 |
| CanvasContent.StickerAdded | app/src/main/java/com/example/dungappedit/canvas/DrawOnImageView.kt:953-1019 | a new sticker goes on top, alone selected, with the only controls, shown 150 px wide, centred on the image or the view to within integer halving; drawing and erasing are off |
| CanvasContent.TextAdded | app/src/main/java/com/example/dungappedit/canvas/DrawOnImageView.kt:912-951 | a new text item goes on top, alone selected, with its style (or one made from red 60 px text), sits a quarter across and half a text size below the middle of the image, or at (300, 900), and once drawn shows the style's text, size, face and colour, so a further restyle changes nothing |
| CanvasContent.TextRestyleFrame | app/src/main/java/com/example/dungappedit/canvas/DrawOnImageView.kt:1289-1294 | restyling an unknown item changes nothing; otherwise the item count and every other item are kept |
| CanvasContent.TextRestyled | app/src/main/java/com/example/dungappedit/canvas/DrawOnImageView.kt:1289-1294 | a restyled text item takes the style's text, size, colours, stroke and shadow, and keeps its identity, position and transform |
| CanvasInvariant.CheckHighlightValid | app/src/main/java/com/example/dungappedit/canvas/DrawOnImageView.kt:1317-1319 | the boundary check keeps the alpha a multiple of 5 in [0, 180] |
| CanvasInvariant.FadeRunValid | app/src/main/java/com/example/dungappedit/canvas/DrawOnImageView.kt:343-354 | the fade keeps the alpha a multiple of 5 in [0, 180] |
| CanvasInvariant.DownValid | app/src/main/java/com/example/dungappedit/canvas/DrawOnImageView.kt:479-589 | a down event keeps the invariant: unique identities below the next id, valid items, a consistent selection and controls, a sound image rectangle and highlight |
| CanvasInvariant.DeleteValid | app/src/main/java/com/example/dungappedit/canvas/DrawOnImageView.kt:519-526 | deleting keeps the invariant |
| CanvasInvariant.PickValid | app/src/main/java/com/example/dungappedit/canvas/DrawOnImageView.kt:567-582 | picking an item keeps the invariant |
| CanvasInvariant.MissValid | app/src/main/java/com/example/dungappedit/canvas/DrawOnImageView.kt:583-588 | a touch that misses keeps the invariant |
| CanvasInvariant.MoveValid | app/src/main/java/com/example/dungappedit/canvas/DrawOnImageView.kt:611-718 | a move event keeps the invariant |
| CanvasInvariant.TouchValid | app/src/main/java/com/example/dungappedit/canvas/DrawOnImageView.kt:464-773 | every touch event keeps the invariant |
| CanvasInvariant.PenChangeValid | app/src/main/java/com/example/dungappedit/canvas/DrawOnImageView.kt:813-841 | the mode setters touch only the pen, so they keep the invariant |
| CanvasInvariant.FadeValid | app/src/main/java/com/example/dungappedit/canvas/DrawOnImageView.kt:343-354 | the fade keeps the invariant |
| CanvasInvariant.BackgroundValid | app/src/main/java/com/example/dungappedit/canvas/DrawOnImageView.kt:843-910 | loading a background keeps the invariant, including an image rectangle with area |
| CanvasInvariant.ResetValid | app/src/main/java/com/example/dungappedit/canvas/DrawOnImageView.kt:1225-1236 | reset keeps the invariant |
| CanvasInvariant.AddTextValid | app/src/main/java/com/example/dungappedit/canvas/DrawOnImageView.kt:912-951 | adding text keeps the invariant |
| CanvasInvariant.AddStickerValid | app/src/main/java/com/example/dungappedit/canvas/DrawOnImageView.kt:953-1019 | adding a sticker keeps the invariant |
| CanvasInvariant.UpdateTextValid | app/src/main/java/com/example/dungappedit/canvas/DrawOnImageView.kt:1289-1294 | restyling keeps the invariant |
| CanvasProperties.PickSelectsExactly | app/src/main/java/com/example/dungappedit/canvas/DrawOnImageView.kt:567-582 | touching an item selects it and nothing else, gives it the only controls, and starts a drag |
| CanvasProperties.MissDeselectsAll | app/src/main/java/com/example/dungappedit/canvas/DrawOnImageView.kt:583-588 | touching empty canvas deselects everything, drops the controls, and passes the event on |
| CanvasProperties.DeleteRemovesExactly | app/src/main/java/com/example/dungappedit/canvas/DrawOnImageView.kt:519-526 | the delete button removes exactly the selected item, keeps the others in order, and drops its controls |
| CanvasProperties.RotateButtonStartsRotation | app/src/main/java/com/example/dungappedit/canvas/DrawOnImageView.kt:529-544 | the rotate button starts rotation about the item's centre from the touch's angle |
| CanvasProperties.DoubleTapRequestsEdit | app/src/main/java/com/example/dungappedit/canvas/DrawOnImageView.kt:553-565 | a second quick tap on a selected text asks for exactly one edit of it, and changes no item but its counter |
| CanvasProperties.SlowTapNoEdit | app/src/main/java/com/example/dungappedit/canvas/DrawOnImageView.kt:553-556 | a tap 300 ms or more after the last one never requests an edit |
| CanvasProperties.NoDoubleTapAfterDoubleTap | app/src/main/java/com/example/dungappedit/canvas/DrawOnImageView.kt:563 | a double tap resets the click clock, so the next tap at time 300 or later is an ordinary tap |
| CanvasProperties.NoButtonsWithoutSelection | app/src/main/java/com/example/dungappedit/canvas/DrawOnImageView.kt:486-488 | with nothing selected, a down event is a pick or a miss, never a button |
| CanvasProperties.DragFollowsFinger | app/src/main/java/com/example/dungappedit/canvas/DrawOnImageView.kt:1332-1339 | after picking an item, moving the finger moves the item by the same amount |
| CanvasProperties.LiftEndsGesture | app/src/main/java/com/example/dungappedit/canvas/DrawOnImageView.kt:720-736 | lifting the tracked pointer ends every gesture, so a following move is passed on untouched |
| CanvasProperties.OtherLiftIgnored | app/src/main/java/com/example/dungappedit/canvas/DrawOnImageView.kt:725 | lifting another pointer changes nothing |
| CanvasProperties.OutsideTouchIgnored | app/src/main/java/com/example/dungappedit/canvas/DrawOnImageView.kt:468-473 | with a background, a touch outside the image is swallowed and changes nothing |
| CanvasProperties.TouchKeepsBackdrop | app/src/main/java/com/example/dungappedit/canvas/DrawOnImageView.kt:464-773 | no touch event changes the background, the original bitmap or the image rectangle |
| CanvasProperties.PinchStart | app/src/main/java/com/example/dungappedit/canvas/DrawOnImageView.kt:591-609 | a pinch starts only with two pointers on a selected item, more than 10 px apart |
| CanvasProperties.TextCapStep | app/src/main/java/com/example/dungappedit/canvas/DrawOnImageView.kt:658-669 | one text cap keeps the scale positive, never raises it, and makes that side fit |
| CanvasProperties.TextCapFits | app/src/main/java/com/example/dungappedit/canvas/DrawOnImageView.kt:649-670 | both text caps keep the scale positive and at most the clamped one, and make the box fit the image |
| CanvasProperties.ImageCapFits | app/src/main/java/com/example/dungappedit/canvas/DrawOnImageView.kt:676-687 | the image caps keep the scale positive and at most the clamped one, and make the bitmap fit the image |
| CanvasProperties.ZoomFree | app/src/main/java/com/example/dungappedit/canvas/DrawOnImageView.kt:636-647 | without a background the pinch only sets the clamped scale |
| CanvasProperties.ZoomTextFits | app/src/main/java/com/example/dungappedit/canvas/DrawOnImageView.kt:649-670 | with a background, a pinched text's unscaled box times its scale fits the image |
| CanvasProperties.ImagePinchFits | app/src/main/java/com/example/dungappedit/canvas/DrawOnImageView.kt:672-695 | a pinched image fits the image rectangle, and one that would run past the right or bottom edge is pulled back to that edge |
| CanvasProperties.ZoomImageFits | app/src/main/java/com/example/dungappedit/canvas/DrawOnImageView.kt:672-696 | with a background, an image item's pinch is the image branch at the clamped scale |
| CanvasProperties.ZoomKeepsValid | app/src/main/java/com/example/dungappedit/canvas/DrawOnImageView.kt:636-703 | a pinch never makes an item invalid and never scales past 5 |
| CanvasProperties.PinchKeepsOthers | app/src/main/java/com/example/dungappedit/canvas/DrawOnImageView.kt:633-711 | pinching moves, rescales or replaces no item except the zoomed one |
| CanvasProperties.RotateTurnsByAngle | app/src/main/java/com/example/dungappedit/canvas/DrawOnImageView.kt:613-631 | a rotation step turns the item by the change in the touch's angle, kept within one turn, and leaves other items alone |
| CanvasProperties.PenCommitsOnLift | app/src/main/java/com/example/dungappedit/canvas/DrawOnImageView.kt:753-767 | with the pen, a move only extends the path; the lift commits the whole path once and starts afresh |
| CanvasProperties.EraserCommitsEachMove | app/src/main/java/com/example/dungappedit/canvas/DrawOnImageView.kt:754-762 | with the eraser, every move commits the segment so far and restarts the path at the finger |
| CanvasProperties.FreehandKeepsMode | app/src/main/java/com/example/dungappedit/canvas/DrawOnImageView.kt:748-771 | freehand drawing never changes the mode, the brush, or whether the layer exists |
| CanvasProperties.DrawingLeavesItems | app/src/main/java/com/example/dungappedit/canvas/DrawOnImageView.kt:748-771 | in drawing mode no touch reaches the items or the gesture |
| CanvasProperties.EraseRoundTrip | app/src/main/java/com/example/dungappedit/canvas/DrawOnImageView.kt:831-841 | turning the eraser on and off again gives the pen back its chosen colour and size |
| CanvasProperties.EnableDrawingUsesPen | app/src/main/java/com/example/dungappedit/canvas/DrawOnImageView.kt:813-816 | enabling or disabling drawing always leaves the pen selected, not the eraser |
| CanvasProperties.PaintColorSelectsPen | app/src/main/java/com/example/dungappedit/canvas/DrawOnImageView.kt:823-829 | picking a colour switches to drawing with the pen in that colour |
| CanvasProperties.DrawingSizeSurvivesEraser | app/src/main/java/com/example/dungappedit/canvas/DrawOnImageView.kt:818-841 | the brush size is the pen width until the eraser replaces it, and comes back after |
| ToolSwitching.AspectOption | app/src/main/java/com/example/dungappedit/ui/edit/tools/CropToolManager.kt:69-71 | a fixed crop ratio is requested exactly when both components are positive |
| ToolSwitching.CropActivateGuarded | app/src/main/java/com/example/dungappedit/ui/edit/tools/CropToolManager.kt:31-35 | a second `activate()` changes nothing; the first launches one free-style crop on a fresh temp file |
| ToolSwitching.DeactivateOnly | app/src/main/java/com/example/dungappedit/ui/edit/fragment/EditHostFragment.kt:216 | deactivating a tool makes it report inactive, and leaves every other tool's report alone |
| ToolSwitching.ActivateReports | app/src/main/java/com/example/dungappedit/ui/edit/fragment/EditHostFragment.kt:218 | activating a tool makes it report active |
| ToolSwitching.ActivateAddsOnly | app/src/main/java/com/example/dungappedit/ui/edit/fragment/EditHostFragment.kt:218 | activating a tool turns on no tool other than itself |
| ToolSwitching.SwitchReports | app/src/main/java/com/example/dungappedit/ui/edit/fragment/EditHostFragment.kt:215-219 | after switching, the new tool reports active and the old one, if different, inactive; re-selecting the active tool keeps it active |
| ToolSwitching.TabOutcome | app/src/main/java/com/example/dungappedit/ui/edit/fragment/EditHostFragment.kt:153-178 | tab 0 shows frames with the frame tool, tab 1 the tools list with no tool, tab 2 filters with the filter tool; any other position changes nothing |
| ToolSwitching.ToolOutcome | app/src/main/java/com/example/dungappedit/ui/edit/fragment/EditHostFragment.kt:189-213 | the visible containers and the new active tool for each of CROP, STICKER, DRAW and TEXT |
| ToolSwitching.SwitchKeepsExclusive | app/src/main/java/com/example/dungappedit/ui/edit/fragment/EditHostFragment.kt:153-213 | if only the active tool reports active, that stays so after any tab or tool choice |
| ToolSwitching.SelectKeepsExclusive | app/src/main/java/com/example/dungappedit/ui/edit/fragment/EditHostFragment.kt:180-219 | hiding the containers and then `setActiveTool` keeps only the active tool reporting active |
| ToolSwitching.CropStartsOnce | app/src/main/java/com/example/dungappedit/ui/edit/fragment/EditHostFragment.kt:194-196 | corrected: choosing CROP launches exactly one crop and leaves crop the active tool |
| ToolSwitching.CropTwiceAsWritten | app/src/main/java/com/example/dungappedit/ui/edit/fragment/EditHostFragment.kt:194-196 | as written, choosing CROP after a crop result, with crop still the active tool, launches UCrop twice |
| ToolSwitching.DestroyDeactivates | app/src/main/java/com/example/dungappedit/ui/edit/fragment/EditHostFragment.kt:236-241 | `onDestroyView` leaves no active tool, and the tool that was active reports inactive |
| EditTools.BrushSize | app/src/main/java/com/example/dungappedit/ui/edit/tools/DrawToolManager.kt:52 | the brush width is the progress, but never below 1 |
| EditTools.DrawToolManager.constructor | app/src/main/java/com/example/dungappedit/ui/edit/tools/DrawToolManager.kt:11-16 | the last colour starts black |
| EditTools.DrawToolManager.Activate | app/src/main/java/com/example/dungappedit/ui/edit/tools/DrawToolManager.kt:18-22 | the draw controls show, and the canvas draws with the pen |
| EditTools.DrawToolManager.Deactivate | app/src/main/java/com/example/dungappedit/ui/edit/tools/DrawToolManager.kt:24-27 | the draw controls hide, and canvas drawing is disabled |
| EditTools.DrawToolManager.IsToolActive | app/src/main/java/com/example/dungappedit/ui/edit/tools/DrawToolManager.kt:33-35 | active exactly when canvas drawing is enabled |
| EditTools.DrawToolManager.OnColorPicked | app/src/main/java/com/example/dungappedit/ui/edit/tools/DrawToolManager.kt:42-45 | the colour is remembered, and the canvas draws with the pen in it |
| EditTools.DrawToolManager.OnBrushSizeChanged | app/src/main/java/com/example/dungappedit/ui/edit/tools/DrawToolManager.kt:50-53 | the canvas brush size becomes the progress, at least 1 |
| EditTools.DrawToolManager.OnEraserClicked | app/src/main/java/com/example/dungappedit/ui/edit/tools/DrawToolManager.kt:58-60 | the canvas switches to the eraser |
| EditTools.DrawToolManager.OnClearClicked | app/src/main/java/com/example/dungappedit/ui/edit/tools/DrawToolManager.kt:62-64 | the canvas drawing layer is emptied |
| EditTools.TextToolManager.constructor | app/src/main/java/com/example/dungappedit/ui/edit/tools/TextToolManager.kt:9-14 | the manager works on the given canvas and screen |
| EditTools.TextToolManager.Activate | app/src/main/java/com/example/dungappedit/ui/edit/tools/TextToolManager.kt:16-20 | the text controls show, and canvas drawing is off |
| EditTools.TextToolManager.Deactivate | app/src/main/java/com/example/dungappedit/ui/edit/tools/TextToolManager.kt:22-24 | only the text controls hide |
| EditTools.TextToolManager.IsToolActive | app/src/main/java/com/example/dungappedit/ui/edit/tools/TextToolManager.kt:26-28 | active exactly when the text controls are visible |
| EditTools.TextToolManager.CreateText | app/src/main/java/com/example/dungappedit/ui/edit/tools/TextToolManager.kt:40-44 | the confirmed style becomes a new selected text item on top, showing the style's text |
| EditTools.TextToolManager.EditText | app/src/main/java/com/example/dungappedit/ui/edit/tools/TextToolManager.kt:46-50 | the edited item takes the confirmed style and its text |
| EditTools.CropToolManager.constructor | app/src/main/java/com/example/dungappedit/ui/edit/tools/CropToolManager.kt:17-25 | no source, not active, no temp file, no launches |
| EditTools.CropToolManager.SetSourceUri | app/src/main/java/com/example/dungappedit/ui/edit/tools/CropToolManager.kt:27-29 | only the source changes |
| EditTools.CropToolManager.Activate | app/src/main/java/com/example/dungappedit/ui/edit/tools/CropToolManager.kt:31-35 | the crop state is `CropActivate` of the old one |
| EditTools.CropToolManager.StartCrop | app/src/main/java/com/example/dungappedit/ui/edit/tools/CropToolManager.kt:37-74 | a new temp file becomes the latest, and one UCrop launch on it is recorded |
| EditTools.CropToolManager.Deactivate | app/src/main/java/com/example/dungappedit/ui/edit/tools/CropToolManager.kt:92-96 | the tool becomes inactive |
| EditTools.CropToolManager.IsToolActive | app/src/main/java/com/example/dungappedit/ui/edit/tools/CropToolManager.kt:98-100 | reports the active flag |
| EditTools.CropToolManager.HandleCropResult | app/src/main/java/com/example/dungappedit/ui/edit/tools/CropToolManager.kt:106-123 | the decoded result becomes the canvas background, the result becomes the source, and the tool becomes inactive |
| FrameTools.LoadFrames | app/src/main/java/com/example/dungappedit/ui/edit/tools/FrameToolManager.kt:85-95 | six frames: "None" first, then five real frames, all with distinct resources |
| FrameTools.CalculateInSampleSize | app/src/main/java/com/example/dungappedit/ui/edit/tools/FrameToolManager.kt:150-166 | a power of two; 1 when the image fits; otherwise the largest power of two that keeps both halved sides at or above the request |
| FrameTools.CacheAfter | app/src/main/java/com/example/dungappedit/ui/edit/tools/FrameToolManager.kt:52-64 | one job caches the target-size bitmap for a real, uncached frame, and otherwise leaves the cache alone |
| FrameTools.PreloadCovers | app/src/main/java/com/example/dungappedit/ui/edit/tools/FrameToolManager.kt:42-67 | after preloading every real frame is cached, earlier entries are kept, and new entries hold the target-size bitmap |
| FrameTools.PreloadUncached | app/src/main/java/com/example/dungappedit/ui/edit/tools/FrameToolManager.kt:54 | preloading never decodes a frame that was already cached |
| FrameTools.PreloadFromFrames | app/src/main/java/com/example/dungappedit/ui/edit/tools/FrameToolManager.kt:49 | preloading decodes only frames of the list, and never "None" |
| FrameTools.PreloadDistinct | app/src/main/java/com/example/dungappedit/ui/edit/tools/FrameToolManager.kt:49-63 | preloading decodes each resource at most once |
| FrameTools.FrameToolManager.constructor | app/src/main/java/com/example/dungappedit/ui/edit/tools/FrameToolManager.kt:29-40 | the frame list is `loadFrames()`, and the cache is empty |
| FrameTools.FrameToolManager.Activate | app/src/main/java/com/example/dungappedit/ui/edit/tools/FrameToolManager.kt:69-71 | the frame list shows |
| FrameTools.FrameToolManager.Deactivate | app/src/main/java/com/example/dungappedit/ui/edit/tools/FrameToolManager.kt:73-75 | the frame list hides |
| FrameTools.FrameToolManager.IsToolActive | app/src/main/java/com/example/dungappedit/ui/edit/tools/FrameToolManager.kt:77-79 | active exactly when the frame list is visible |
| FrameTools.FrameToolManager.DecodeScaled | app/src/main/java/com/example/dungappedit/ui/edit/tools/FrameToolManager.kt:134-148 | one decode of the resource is recorded with a power-of-two sample size, and the result has the target size |
| FrameTools.FrameToolManager.OnFrameSelected | app/src/main/java/com/example/dungappedit/ui/edit/tools/FrameToolManager.kt:97-132 | "None" clears the frame; a cached frame is shown from the cache; otherwise, when the image has area, it is decoded once, cached and shown |
| FrameTools.FrameToolManager.PreloadFrames | app/src/main/java/com/example/dungappedit/ui/edit/tools/FrameToolManager.kt:42-67 | with a target of area, the cache becomes `Preloaded` of the frame list, and the decodes are `PreloadDecodes`; otherwise nothing changes |
| FrameTools.FrameToolManager.PreloadList | app/src/main/java/com/example/dungappedit/ui/edit/tools/FrameToolManager.kt:50-65 | the jobs for a list, run in order, give `Preloaded` and `PreloadDecodes` |
| FrameTools.FrameToolManager.PreloadFrame | app/src/main/java/com/example/dungappedit/ui/edit/tools/FrameToolManager.kt:52-64 | one job gives `CacheAfter`, and decodes the frame exactly when it needs decoding |
| EditHost.ResultActionFor | app/src/main/java/com/example/dungappedit/ui/edit/fragment/EditHostFragment.kt:221-234 | an accepted crop with output is applied; one without output shows "Failed to retrieve cropped image."; a UCrop error shows its message; anything else is ignored |
| EditHost.EditHostFragment.constructor | app/src/main/java/com/example/dungappedit/ui/edit/fragment/EditHostFragment.kt:91-126 | no tool is active, and every tool works on this screen and canvas |
| EditHost.EditHostFragment.ActivateTool | app/src/main/java/com/example/dungappedit/ui/edit/fragment/EditHostFragment.kt:218 | the tool's `activate()` gives `Activated`, and only the pen changes on the canvas |
| EditHost.EditHostFragment.DeactivateTool | app/src/main/java/com/example/dungappedit/ui/edit/fragment/EditHostFragment.kt:216 | the tool's `deactivate()` gives `Deactivated`, and only the pen changes on the canvas |
| EditHost.EditHostFragment.SetActiveTool | app/src/main/java/com/example/dungappedit/ui/edit/fragment/EditHostFragment.kt:215-219 | the old tool is deactivated before the new one is activated, as `SetActive` says |
| EditHost.EditHostFragment.HideAllToolContainers | app/src/main/java/com/example/dungappedit/ui/edit/fragment/EditHostFragment.kt:180-187 | all six containers are hidden |
| EditHost.EditHostFragment.HandleTabSelection | app/src/main/java/com/example/dungappedit/ui/edit/fragment/EditHostFragment.kt:153-178 | the new state is `TabSelected` of the old one |
| EditHost.EditHostFragment.OnToolSelected | app/src/main/java/com/example/dungappedit/ui/edit/fragment/EditHostFragment.kt:189-213 | the new state is the corrected `ToolSelected` of the old one |
| EditHost.EditHostFragment.OnActivityResult | app/src/main/java/com/example/dungappedit/ui/edit/fragment/EditHostFragment.kt:221-234 | an applied crop sets the canvas background and the crop tool's result; a message adds exactly one toast; an ignored result changes nothing |
| EditHost.EditHostFragment.OnDestroyView | app/src/main/java/com/example/dungappedit/ui/edit/fragment/EditHostFragment.kt:236-241 | the active tool is deactivated and forgotten |
| CameraSettings.Negated | app/src/main/java/com/example/dungappedit/ui/camera/CameraViewModel.kt:36 | `value != true` is true exactly when the value is unset or false |
| CameraSettings.FlashToggled | app/src/main/java/com/example/dungappedit/ui/camera/CameraViewModel.kt:35-37 | the flash flag becomes the negation of its old value (unset counts as false), and no other setting changes |
| CameraSettings.GridToggled | app/src/main/java/com/example/dungappedit/ui/camera/CameraViewModel.kt:51-53 | the grid flag is negated, and no other setting changes |
| CameraSettings.TimerAndRatioToggled | app/src/main/java/com/example/dungappedit/ui/camera/CameraViewModel.kt:55-57 | the timer-and-ratio flag is negated, and no other setting changes |
| CameraSettings.SwitchedLens | app/src/main/java/com/example/dungappedit/ui/camera/CameraViewModel.kt:43-49 | the lens is always front or back, and front exactly when it was back |
| CameraSettings.CameraSwitched | app/src/main/java/com/example/dungappedit/ui/camera/CameraViewModel.kt:43-49 | only the lens changes, as `SwitchedLens` says |
| CameraSettings.ToggleTwice | app/src/main/java/com/example/dungappedit/ui/camera/CameraViewModel.kt:35-57 | toggling a flag twice restores it (an unset flag comes back as false), and leaves every other setting alone |
| CameraSettings.SwitchTwice | app/src/main/java/com/example/dungappedit/ui/camera/CameraViewModel.kt:43-49 | switching twice from the front or back lens restores it |
| CameraSettings.CameraViewModel.constructor | app/src/main/java/com/example/dungappedit/ui/camera/CameraViewModel.kt:10-29 | the initial settings: "3:4", flash off, ORIGINAL, back lens, grid off, tabs hidden, timer 0 |
| CameraSettings.CameraViewModel.SetAspectRatio | app/src/main/java/com/example/dungappedit/ui/camera/CameraViewModel.kt:31-33 | only the aspect ratio changes, to the given ratio |
| CameraSettings.CameraViewModel.ToggleFlash | app/src/main/java/com/example/dungappedit/ui/camera/CameraViewModel.kt:35-37 | the settings become `FlashToggled` of the old ones |
| CameraSettings.CameraViewModel.SetFilter | app/src/main/java/com/example/dungappedit/ui/camera/CameraViewModel.kt:39-41 | only the filter changes |
| CameraSettings.CameraViewModel.SwitchCamera | app/src/main/java/com/example/dungappedit/ui/camera/CameraViewModel.kt:43-49 | the settings become `CameraSwitched` of the old ones |
| CameraSettings.CameraViewModel.ToggleGrid | app/src/main/java/com/example/dungappedit/ui/camera/CameraViewModel.kt:51-53 | the settings become `GridToggled` of the old ones |
| CameraSettings.CameraViewModel.ToggleTimerAndRatio | app/src/main/java/com/example/dungappedit/ui/camera/CameraViewModel.kt:55-57 | the settings become `TimerAndRatioToggled` of the old ones |
| CameraSettings.CameraViewModel.SetTimerSeconds | app/src/main/java/com/example/dungappedit/ui/camera/CameraViewModel.kt:59-61 | only the timer changes |
| CameraMath.TargetRatio | app/src/main/java/com/example/dungappedit/ui/camera/CameraFragment.kt:594-600 | both parts of the target ratio are positive, and any text other than "1:1", "3:4", "9:16" and "Full" gets 4:3 |
| CameraMath.TargetValue | app/src/main/java/com/example/dungappedit/ui/camera/CameraFragment.kt:603 | the target width-to-height value is positive |
| CameraMath.WideCrop | app/src/main/java/com/example/dungappedit/ui/camera/CameraFragment.kt:605-609 | a too-wide photo keeps its full height, is cut to the truncated width of height × target but never below one pixel, and the cut is centred to within a pixel (corrected crop, Findings row 5) |
| CameraMath.TallCrop | app/src/main/java/com/example/dungappedit/ui/camera/CameraFragment.kt:610-615 | a too-tall photo keeps its full width, is cut to the truncated height of width ÷ target but never below one pixel, and the cut is centred to within a pixel (corrected crop, Findings row 5) |
| CameraMath.CropToAspectRatio | app/src/main/java/com/example/dungappedit/ui/camera/CameraFragment.kt:590-616 | the crop lies inside the photo and is never empty, and is the wide cut when the photo is wider than the target and the tall cut otherwise (corrected crop, Findings row 5) |
| CameraMath.CropAsWrittenCollapses | app/src/main/java/com/example/dungappedit/ui/camera/CameraFragment.kt:605-608 | as written, a 1000 × 1 photo cropped to 3:4 gets width `(1 × 0.75).toInt()` = 0, which `createBitmap` rejects |
| CameraMath.CropAgreesWhenNonEmpty | app/src/main/java/com/example/dungappedit/ui/camera/CameraFragment.kt:590-616 | wherever the code as written cuts a non-empty rectangle, the corrected crop cuts exactly that rectangle |
| CameraMath.TallCutNeverEmpty | app/src/main/java/com/example/dungappedit/ui/camera/CameraFragment.kt:610-613 | with any of the four ratio tabs the target is at most 1, so the tall cut as written is always at least one pixel high |
| CameraMath.PreviewLayoutHeight | app/src/main/java/com/example/dungappedit/ui/camera/CameraFragment.kt:514-524 | "Full" gives 0, "1:1" the width, "9:16" the truncated 16/9 of the width, and any other ratio the truncated 4/3 of it |
| CameraMath.CameraXAspectRatio | app/src/main/java/com/example/dungappedit/ui/CameraFragment.kt:315-323 | CameraX is asked for 16:9 exactly when the ratio is "9:16" or "Full", and for 4:3 otherwise |
| CameraMath.Ceil | app/src/main/java/com/example/dungappedit/ui/camera/filter/FilterTabAdapter.kt:43-46 | `Math.ceil`: the least integer at or above the value |
| CameraMath.PaddingTabs | app/src/main/java/com/example/dungappedit/ui/camera/CameraFragment.kt:293-295 | the padding count p is the least integer with p tab pairs of 80·density covering the screen width, and never negative |
| CameraMath.ParseInt | app/src/main/java/com/example/dungappedit/ui/camera/CameraFragment.kt:381 | `toIntOrNull()`: a parsed number comes from non-empty text and lies in the 32-bit range; a text of digits parses exactly when its value is at most `Int.MAX_VALUE`, and then to that value |
| CameraMath.Decimal | app/src/main/java/com/example/dungappedit/ui/camera/CameraFragment.kt:68 | the decimal text of a natural number is not empty and is all digits |
| CameraMath.DecimalValue | app/src/main/java/com/example/dungappedit/ui/camera/CameraFragment.kt:68 | the digits of a number's decimal text have that number's value |
| CameraMath.ParseDecimal | app/src/main/java/com/example/dungappedit/ui/camera/CameraFragment.kt:381 | parsing the decimal text of a number in range gives the number back |
| CameraMath.TimerSeconds | app/src/main/java/com/example/dungappedit/ui/camera/CameraFragment.kt:381 | a tab's seconds: 0 when its text is not a number, and n for the decimal text of n |
| CameraMath.TimerOptionSeconds | app/src/main/java/com/example/dungappedit/ui/camera/CameraFragment.kt:68 | the four timer tabs give 0, 3, 5 and 10 seconds |
| TabCentering.Distance | app/src/main/java/com/example/dungappedit/ui/camera/CameraFragment.kt:305-308 | a tab's distance from the screen centre is never negative |
| TabCentering.FirstNearestUnique | app/src/main/java/com/example/dungappedit/ui/camera/CameraFragment.kt:311-314 | at most one tab is the first of the nearest |
| TabCentering.FindClosestTabToCenter | app/src/main/java/com/example/dungappedit/ui/camera/CameraFragment.kt:288-318 | the result is the first real tab nearest the centre; there is none exactly when there is no real tab or every one is `Int.MAX_VALUE` or more away |
| TabCentering.DetectCenteredTab | app/src/main/java/com/example/dungappedit/ui/camera/CameraFragment.kt:320-357 | the nearest real tab is selected exactly when it is within 40% of its width of the centre and not already selected |
| CaptureTimer.TakePhoto | app/src/main/java/com/example/dungappedit/ui/camera/CameraFragment.kt:622 | one more photo, and nothing else changes |
| CaptureTimer.StartCountdown | app/src/main/java/com/example/dungappedit/ui/camera/CameraFragment.kt:624-634 | a new running countdown of seconds × 1000 ms in 1000 ms ticks becomes the held timer, the text shows, and no photo is taken yet |
| CaptureTimer.CancelTimer | app/src/main/java/com/example/dungappedit/ui/camera/CameraFragment.kt:689 | only the held countdown stops, and the field keeps the reference |
| CaptureTimer.CaptureWithTimerAsWritten | app/src/main/java/com/example/dungappedit/ui/camera/CameraFragment.kt:618-636 | as written: 0 seconds takes the photo now; any other value adds a running countdown, leaving any earlier one running |
| CaptureTimer.Finish | app/src/main/java/com/example/dungappedit/ui/camera/CameraFragment.kt:630-633 | a running countdown's finish hides the text, takes one photo and stops it; a stopped one does nothing |
| CaptureTimer.CaptureOutcome | app/src/main/java/com/example/dungappedit/ui/camera/CameraFragment.kt:618-636 | with no timer the photo is taken at once; otherwise a new held countdown starts, the previous one stops, and no photo is taken yet; the older fragment also captures at once for a negative value |
| CaptureTimer.CaptureKeepsOneTimer | app/src/main/java/com/example/dungappedit/ui/CameraFragment.kt:334-337 | corrected: cancelling before starting keeps at most one countdown running, the held one, which is the new countdown |
| CaptureTimer.FinishKeepsOneTimer | app/src/main/java/com/example/dungappedit/ui/camera/CameraFragment.kt:630-633 | a finish keeps at most one countdown running |
| CaptureTimer.DestroyStopsCountdowns | app/src/main/java/com/example/dungappedit/ui/camera/CameraFragment.kt:686-690 | with one timer, after `onDestroyView` no countdown runs, so no finish can take a photo |
| CaptureTimer.CountdownTakesOnePhoto | app/src/main/java/com/example/dungappedit/ui/camera/CameraFragment.kt:624-634 | a countdown ends in exactly one photo, and a second finish does nothing |
| CaptureTimer.TwoCountdownsAsWritten | app/src/main/java/com/example/dungappedit/ui/camera/CameraFragment.kt:618-636 | as written, two 3-second captures leave both countdowns running, and the first still takes a photo after `onDestroyView` |
| CaptureTimer.SelectedTimer | app/src/main/java/com/example/dungappedit/ui/CameraFragment.kt:326-327 | the older fragment's timer is 0, 3, 5 or 10, and 0 when no tab is selected |
| CameraScreen.CameraFragment.constructor | app/src/main/java/com/example/dungappedit/ui/camera/CameraFragment.kt:64-77 | the fragment uses the given view model and starts with no countdown and no photo |
| CameraScreen.CameraFragment.OnRatioTabSelected | app/src/main/java/com/example/dungappedit/ui/camera/CameraFragment.kt:365-367 | the tab's ratio goes to the view model, and no other setting changes |
| CameraScreen.CameraFragment.OnTimerTabSelected | app/src/main/java/com/example/dungappedit/ui/camera/CameraFragment.kt:380-385 | the tab's seconds (0 for a non-number) are stored, then the tabs are toggled |
| CameraScreen.CameraFragment.OnFilterSelected | app/src/main/java/com/example/dungappedit/ui/camera/CameraFragment.kt:230-232 | the strip's filter goes to the view model |
| CameraScreen.CameraFragment.OnGridClicked | app/src/main/java/com/example/dungappedit/ui/camera/CameraFragment.kt:192-194 | the grid flag is toggled |
| CameraScreen.CameraFragment.OnFlashClicked | app/src/main/java/com/example/dungappedit/ui/camera/CameraFragment.kt:196-198 | the flash flag is toggled |
| CameraScreen.CameraFragment.OnRotateClicked | app/src/main/java/com/example/dungappedit/ui/camera/CameraFragment.kt:200-202 | the lens is switched |
| CameraScreen.CameraFragment.OnTimerAndRatioClicked | app/src/main/java/com/example/dungappedit/ui/camera/CameraFragment.kt:208-210 | the timer-and-ratio flag is toggled |
| CameraScreen.CameraFragment.StartCaptureWithTimer | app/src/main/java/com/example/dungappedit/ui/camera/CameraFragment.kt:618-636 | the capture is the corrected `CaptureWithTimer` with the view model's seconds (0 when unset) |
| CameraScreen.CameraFragment.OnCountdownFinish | app/src/main/java/com/example/dungappedit/ui/camera/CameraFragment.kt:630-633 | the capture state becomes `Finish` of the old one |
| CameraScreen.CameraFragment.OnDestroyView | app/src/main/java/com/example/dungappedit/ui/camera/CameraFragment.kt:686-690 | the held countdown is cancelled |
| LegacyCamera.LegacyCameraFragment.constructor | app/src/main/java/com/example/dungappedit/ui/CameraFragment.kt:45-67 | ratio "3:4" with the preview sized for it by the observer that fires at once (ui/CameraFragment.kt:120-123), grid off, back lens, no provider, no binding, first timer tab, no countdown |
| LegacyCamera.LegacyCameraFragment.OnGridClicked | app/src/main/java/com/example/dungappedit/ui/CameraFragment.kt:151-154 | the grid flag flips, and the overlay shows exactly when it is set |
| LegacyCamera.LegacyCameraFragment.RestartCameraWithRatio | app/src/main/java/com/example/dungappedit/ui/CameraFragment.kt:282-313 | with a provider, the lens and the ratio's CameraX ratio are bound; without one nothing changes |
| LegacyCamera.LegacyCameraFragment.OnProviderReady | app/src/main/java/com/example/dungappedit/ui/CameraFragment.kt:273-280 | the provider binds with the current ratio, or "3:4" when unset |
| LegacyCamera.LegacyCameraFragment.OnRotateClicked | app/src/main/java/com/example/dungappedit/ui/CameraFragment.kt:219-223 | the lens always changes to the other one, and the camera is rebound with the current ratio |
| LegacyCamera.LegacyCameraFragment.OnRatioTabSelected | app/src/main/java/com/example/dungappedit/ui/CameraFragment.kt:121-124 | the ratio is stored, the preview takes that ratio's height, and the camera is rebound |
| LegacyCamera.LegacyCameraFragment.OnTimerTabSelected | app/src/main/java/com/example/dungappedit/ui/CameraFragment.kt:112-115 | the selected timer tab becomes the position |
| LegacyCamera.LegacyCameraFragment.OnTimerClicked | app/src/main/java/com/example/dungappedit/ui/CameraFragment.kt:194-200 | each tab strip's visibility flips |
| LegacyCamera.LegacyCameraFragment.OnCaptureClicked | app/src/main/java/com/example/dungappedit/ui/CameraFragment.kt:226-231 | both tab strips hide, and the capture uses the selected timer |
| LegacyCamera.LegacyCameraFragment.StartCaptureWithTimer | app/src/main/java/com/example/dungappedit/ui/CameraFragment.kt:325-347 | the capture is `LegacyCaptureWithTimer` with the selected timer tab's seconds |
| LegacyCamera.LegacyCameraFragment.OnCountdownFinish | app/src/main/java/com/example/dungappedit/ui/CameraFragment.kt:342-345 | the capture state becomes `Finish` of the old one |
| LegacyCamera.LegacyCameraFragment.OnDestroyView | app/src/main/java/com/example/dungappedit/ui/CameraFragment.kt:495-499 | the held countdown is cancelled |
| FilterTabs.WithBorder | app/src/main/java/com/example/dungappedit/ui/camera/filter/FilterTabAdapter.kt:155-163 | setting one tab's border changes that border only, and leaves every other tab and the strip's length alone |
| FilterTabs.UpdateBorders | app/src/main/java/com/example/dungappedit/ui/camera/filter/FilterTabAdapter.kt:155-163 | `updateSelectedTab` shows the new tab's border, hides the current one's unless it is the new tab, and touches no other tab |
| FilterTabs.FilterTabAdapter.constructor | app/src/main/java/com/example/dungappedit/ui/camera/filter/FilterTabAdapter.kt:14-24 | the padding count comes from the screen width and density; the strip starts empty, with no selection and no listener |
| FilterTabs.FilterTabAdapter.TargetIsReal | app/src/main/java/com/example/dungappedit/ui/camera/filter/FilterTabAdapter.kt:63-76 | every selection ends on a real filter tab, and on the tab itself exactly when that tab is real |
| FilterTabs.FilterTabAdapter.SetupFilterTabs | app/src/main/java/com/example/dungappedit/ui/camera/filter/FilterTabAdapter.kt:26-111 | the strip is padding, the eight filters in order, padding; only real tabs get a click listener; ORIGINAL is current with its border shown and is reported once |
| FilterTabs.FilterTabAdapter.AddFilterTabs | app/src/main/java/com/example/dungappedit/ui/camera/filter/FilterTabAdapter.kt:34-39 | one borderless tab per filter, in declaration order |
| FilterTabs.FilterTabAdapter.AddPaddingTabs | app/src/main/java/com/example/dungappedit/ui/camera/filter/FilterTabAdapter.kt:127-146 | p padding tabs are inserted in front and p appended; the selected tab's position shifts by p |
| FilterTabs.FilterTabAdapter.SetClickListeners | app/src/main/java/com/example/dungappedit/ui/camera/filter/FilterTabAdapter.kt:99-110 | exactly the tabs in [p, count − p) get a click listener |
| FilterTabs.FilterTabAdapter.UpdateSelectedTab | app/src/main/java/com/example/dungappedit/ui/camera/filter/FilterTabAdapter.kt:155-163 | the current tab's border hides, then the given tab's border shows |
| FilterTabs.FilterTabAdapter.OnTabUnselected | app/src/main/java/com/example/dungappedit/ui/camera/filter/FilterTabAdapter.kt:88-92 | the unselected tab's border hides |
| FilterTabs.FilterTabAdapter.SelectTab | app/src/main/java/com/example/dungappedit/ui/camera/filter/FilterTabAdapter.kt:57-97 | re-selecting changes nothing; otherwise selection ends on the target real tab, which becomes current, fires its filter once, and alone has its border shown among the tabs touched |
| FilterTabs.FilterTabAdapter.OnTabSelected | app/src/main/java/com/example/dungappedit/ui/camera/filter/FilterTabAdapter.kt:58-86 | a padding tab hands the selection on to the nearest real tab; a real tab shows its border, fires its filter and becomes current |
| FilterTabs.FilterTabAdapter.ShowRealTab | app/src/main/java/com/example/dungappedit/ui/camera/filter/FilterTabAdapter.kt:78-85 | a real tab shows its border with only the previous current tab hidden, fires the filter at its position among the real tabs, and becomes current |

## Left out

- Drawing to the screen is not modelled, except that the `applyStyle()` which `onDraw` runs on every styled text item is applied when a text item is created, so the model holds the state the first frame leaves. This covers `onDraw`, `drawControls`, the boundary paint, `getBitmap()`, and pixels generally. Bitmaps are known only by their size. Text measurement and font metrics are platform parameters with stated laws.
- The drawing view is taken to be laid out before any call, with a width and height that never change: its size is fixed at construction. The source reads `width` and `height` at every call, and the edit screen posts its first call after layout. A call on a view that is not laid out, where `createBitmap` would throw, is not modelled.
- `transformPointToItemCoordinates` and `calculateDistance` are not modelled, because nothing calls them.
- `setOnImageDimensionsChangedListener` and `setOnTextEditRequestListener` are not modelled as operations. The notices to those listeners are recorded as lists in the state.
- An item that is deleted while a gesture field still refers to it is a stale Kotlin reference. In the model that reference is an id that matches no item, so a later step on it does nothing.
- Floating-point rounding is not modelled, because `Float` and `Double` are real numbers here. `CameraMath.PaddingTabs`, `CanvasModel.ClampedScale` and the crop arithmetic are therefore exact. A division by a zero pinch distance is modelled as the upper clamp, standing in for infinity.
- CameraMath.PreviewLayoutHeight: does not model Kotlin `Int` overflow of `screenWidth * 16`, which needs a screen over 134 million pixels wide.
- CaptureTimer.StartCountdown: does not model Kotlin `Int` overflow of `seconds * 1000`, which needs a timer of over 2 million seconds; the app offers at most 10.
- CameraMath.ParseInt: does not accept non-ASCII Unicode digits: it models `toIntOrNull` for ASCII text only.
- The "Full" preview is not modelled as reading `requireView().height`, because the layout height is set to 0 anyway and that value is never used.
- The camera hardware is not modelled. This covers:
  - CameraX binding beyond the requested lens and ratio, and the exception path of `bindToLifecycle`;
  - focus, pinch zoom and the torch, including the older fragment's `isTorchOn` and `hasFlashUnit`;
  - `takePhoto`, saving to the gallery, image rotation and YUV conversion.
  - A photo taken is counted, and nothing more.
- GPUImage filters and the filter names are not modelled. `getFilterName` matches on a `VIGNETTE` value that `CameraFilter.kt` does not declare (the enum has `BLING`), so that `when` would not compile as written; the names do not affect behaviour.
- Scrolling is not modelled. This covers `centerTabInView`, `smoothScrollTo` and `scrollTo`, the fling handler, and the scroll and touch listeners that schedule `detectCenteredTab`; tab geometry is an input to `TabCentering`.
- `tabLayout.touchables.forEach { it.isClickable = true }` is not modelled, and neither are the padding views' alpha and the `setScrollPosition` call.
- A padding tab's border visibility comes from the layout XML, which is not part of this model; it is the `paddingBorder` parameter.
- The filter auto-select that `setupTabs` posts after `setupFilterTabs` is not modelled; `SelectTab` models what it does.
- Calling `setupFilterTabs` a second time is not modelled, because it would install a second listener; the model has one listener.
- The current camera fragment's LiveData observers are not modelled beyond the settings they read. This covers the grid overlay, the flash icon, lens rebinding and the preview size.
- The older fragment's root touch listener, which hides the tab strips on a touch outside them, is not modelled.
- The older fragment's view model (`ui/CameraViewModel.kt`) is modelled as its single `aspectRatio` field.
- `CountDownTimer.onTick` and its countdown text are not modelled; only whether the text is visible is.
- Tool managers outside the named core are modelled only through their visibility toggles:
  - the filter tool;
  - the sticker tool;
  - `ImageLayerController`, which is the frame layer, with `clearFrame` as none.
- UCrop's options and result size are not modelled; a launch records its temp file and whether a fixed ratio was asked for.
- The crop temp and destination URIs are not modelled: the file system is `CropFiles`, a given supply of fresh URIs.
- The layout parameters that `handleCropResult` changes are not modelled.
- `onViewCreated` wiring is not modelled: the fragment's constructor takes the tools already built.
- `saveBitmapToFile` is not modelled.
- `LruCache` eviction is not modelled; the frame cache is a map that only grows.
- Coroutines are modelled as one job after another: `preloadFrames` runs its jobs in list order, and each to completion.

## Findings

| source | as written | input that shows it | evidently intended | confidence | as-written member | corrected member |
|---|---|---|---|---|---|---|
| app/src/main/java/com/example/dungappedit/canvas/DrawOnImageView.kt:850-862 | each scaled side is `(side * factor).toInt()`, which truncates to 0 for a very thin bitmap; `Bitmap.scale(w, 0)` then throws | a 10000 × 1 bitmap in a 1080 × 1920 view: factor 0.108, height 0.108 truncates to 0 | every side at least one pixel | not executed | CanvasContent.BackgroundAsWrittenCollapses | CanvasContent.BackgroundFitsAndCentres |
| app/src/main/java/com/example/dungappedit/canvas/DrawOnImageView.kt:966-981 | the oversized sticker's shorter side is `(side * 1024 / longer).toInt()`, which truncates to 0; `bitmap.scale` then throws | a 2000 × 1 sticker is sanitised to 1024 × 0 | every side at least one pixel | not executed | CanvasContent.StickerAsWrittenCollapses | CanvasContent.StickerSanitized |
| app/src/main/java/com/example/dungappedit/ui/edit/fragment/EditHostFragment.kt:194-196 | choosing CROP calls `cropToolManager.activate()` and then `setActiveTool(cropToolManager)`, which deactivates the same tool and activates it again | crop the image once (`handleCropResult` clears the active flag while crop stays the active tool), then choose CROP again: UCrop is launched twice | one crop launch per choice | not executed | ToolSwitching.CropTwiceAsWritten | ToolSwitching.CropStartsOnce |
| app/src/main/java/com/example/dungappedit/ui/camera/CameraFragment.kt:618-636 | a timed capture overwrites `timer` without cancelling the countdown already running (the older fragment cancels it) | with a 3-second timer, press capture twice within 3 s: two countdowns run and take two photos; `onDestroyView` cancels only the second, and the first still calls `takePhoto` after the view is gone | cancel the running countdown before starting another | not executed | CaptureTimer.TwoCountdownsAsWritten | CaptureTimer.CaptureKeepsOneTimer |
| app/src/main/java/com/example/dungappedit/ui/camera/CameraFragment.kt:605-615 | the too-wide cut is `(srcHeight * targetRatio).toInt()` wide (the too-tall one `(srcWidth / targetRatio).toInt()` high), which truncates to 0 for a thin photo; `Bitmap.createBitmap` then throws. The older fragment (ui/CameraFragment.kt:455-482) has the same code | a 1000 × 1 photo with the 3:4 ratio: the width 1 × 0.75 truncates to 0 | every cut side at least one pixel | not executed | CameraMath.CropAsWrittenCollapses | CameraMath.CropToAspectRatio |
