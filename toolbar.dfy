/**
 * The toolbar's tool and popup transitions (src/components/Toolbar.jsx). The tool
 * and the two popup flags are state of the whiteboard page that the toolbar sets
 * through its props; here they are the fields of one object shared by both.
 */
module Toolbar {

  /** The tools the page switches between: `'navigate'`, `'text'` and `'arrow'`. */
  datatype Tool = NavigateTool | TextTool | ArrowTool

  /** Neither popup hides the other: the state the toolbar buttons maintain. */
  predicate AtMostOnePopup(showTextPopup: bool, showShapePopup: bool)
  {
    !(showTextPopup && showShapePopup)
  }

  class ToolPanel {
    var tool: Tool
    var showTextPopup: bool
    var showShapePopup: bool

    /** The page opens with the navigate tool and both popups closed. */
    constructor()
      ensures tool == NavigateTool && !showTextPopup && !showShapePopup
    {
      tool := NavigateTool;
      showTextPopup := false;
      showShapePopup := false;
    }

    /** The navigate button: navigate tool, both popups closed. */
    method HandleNavigateClick()
      modifies this
      ensures tool == NavigateTool && !showTextPopup && !showShapePopup
      ensures AtMostOnePopup(showTextPopup, showShapePopup)
    {
      tool := NavigateTool;
      showTextPopup := false;
      showShapePopup := false;
    }

    /** The text button: text tool, the text popup toggled, the shape popup closed. */
    method HandleTextClick()
      modifies this
      ensures tool == TextTool
      ensures showTextPopup == !old(showTextPopup) && !showShapePopup
      ensures AtMostOnePopup(showTextPopup, showShapePopup)
    {
      tool := TextTool;
      showTextPopup := !showTextPopup;
      showShapePopup := false;
    }

    /** The shape button: the shape popup toggled, the text popup closed, the tool kept. */
    method HandleShapeClick()
      modifies this
      ensures tool == old(tool)
      ensures showShapePopup == !old(showShapePopup) && !showTextPopup
      ensures AtMostOnePopup(showTextPopup, showShapePopup)
    {
      showShapePopup := !showShapePopup;
      showTextPopup := false;
    }
  }
}
