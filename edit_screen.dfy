/**
 * The visibility of the six tool containers of the editor screen
 * (fragment_edit_host): the frame list, the filter list, the sticker list, the
 * drawing controls, the text controls and the list of tools. The host fragment
 * and the tool managers hold the same views and switch them on and off.
 */
module EditScreen {
  datatype Visibility = Visibility(
    frameList: bool,
    filterList: bool,
    stickerList: bool,
    drawControls: bool,
    textControls: bool,
    toolsList: bool)

  /** Every container GONE. */
  const ALL_HIDDEN: Visibility := Visibility(false, false, false, false, false, false)

  /** The container views of the screen, shared by the host and its tools. */
  class Screen {
    var vis: Visibility

    constructor ()
      ensures vis == ALL_HIDDEN
    {
      vis := ALL_HIDDEN;
    }
  }
}
