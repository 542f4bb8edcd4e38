/**
 * The whiteboard page's canvas engine (src/WhiteboardPage.jsx): the element store
 * with its id counter, the view (pan and zoom), the gesture flags driven by the
 * mouse and touch handlers, and the keyboard router. Each handler is one atomic
 * transition of the page's state.
 */
module Whiteboard {
  import opened Wrappers
  import opened Seqs
  import opened Geometry
  import opened TextPopup
  import opened Elements
  import opened Toolbar

  /**
   * The pointer-gesture state: which gestures are under way (independent flags, as
   * in the page), the engaged resize handle, the anchor captured at mouse-down
   * (a grab offset, the previous resize point or the pan anchor), and the start of
   * an arrow being drawn.
   */
  datatype Gesture = Gesture(
    isPanning: bool,
    isDragging: bool,
    isResizing: bool,
    resizeHandle: Option<Handle>,
    dragStart: Point,
    isDrawingArrow: bool,
    arrowStart: Option<Point>)

  const IDLE: Gesture := Gesture(false, false, false, None, Point(0.0, 0.0), false, None)

  /** Keys, as `KeyboardEvent.key` reports them. */
  predicate IsKey(key: string, lower: string, upper: string) { key == lower || key == upper }
  predicate IsDeleteKey(key: string) { key == "Delete" || key == "Backspace" }
  predicate IsHelpKey(key: string, ctrl: bool) { key == "?" || (ctrl && key == "/") }
  /** Bare tool letters only act without Ctrl/Cmd and outside text fields. */
  predicate BareKeys(ctrl: bool, meta: bool, inField: bool) { !ctrl && !meta && !inField }

  /**
   * The text format after a Ctrl/Cmd chord: B toggles bold, I italic and U underline,
   * each leaving the other fields as they were; every other chord (A and D among
   * them) leaves the format unchanged.
   */
  function ChordFormat(f: TextFormat, key: string): (r: TextFormat)
    ensures IsKey(key, "b", "B") ==> r.bold != f.bold && r == ToggleBold(f)
    ensures IsKey(key, "i", "I") ==> r.italic != f.italic && r == ToggleItalic(f)
    ensures IsKey(key, "u", "U") ==> r.underline != f.underline && r == ToggleUnderline(f)
    ensures !(IsKey(key, "b", "B") || IsKey(key, "i", "I") || IsKey(key, "u", "U")) ==> r == f
  {
    var f1 := if IsKey(key, "b", "B") then ToggleBold(f) else f;
    var f2 := if IsKey(key, "i", "I") then ToggleItalic(f1) else f1;
    if IsKey(key, "u", "U") then ToggleUnderline(f2) else f2
  }

  class WhiteboardPage {
    var elements: seq<Element>
    var nextId: nat
    /** The id of the selected element. Ids start at 1, so the page's truthiness test is `Some?`. */
    var selected: Option<nat>
    var zoom: real
    var pan: Point
    var gesture: Gesture
    /** Distance and midpoint of the previous two-finger touch, when one is under way. */
    var lastTouchDistance: Option<real>
    var lastTouchCenter: Option<Point>
    var showShortcutsHelp: bool
    var textFormat: TextFormat
    /** The tool and the text/shape popup flags, shared with the toolbar. */
    const toolbar: ToolPanel

    /**
     * The page's invariant: the store invariant, the zoom inside its bounds, and a
     * selection that names an element in the store.
     */
    ghost predicate Valid()
      reads this
    {
      && ValidStore(elements, nextId)
      && MIN_ZOOM <= zoom <= MAX_ZOOM
      && (selected.Some? ==> HasId(elements, selected.value))
    }

    constructor()
      ensures Valid() && fresh(toolbar)
      ensures elements == [] && nextId == 1 && selected == None
      ensures zoom == 1.0 && pan == Point(0.0, 0.0) && gesture == IDLE
      ensures lastTouchDistance == None && lastTouchCenter == None
      ensures !showShortcutsHelp && textFormat == DEFAULT_FORMAT
      ensures toolbar.tool == NavigateTool && !toolbar.showTextPopup && !toolbar.showShapePopup
    {
      elements := [];
      nextId := 1;
      selected := None;
      zoom := 1.0;
      pan := Point(0.0, 0.0);
      gesture := IDLE;
      lastTouchDistance := None;
      lastTouchCenter := None;
      showShortcutsHelp := false;
      textFormat := DEFAULT_FORMAT;
      toolbar := new ToolPanel();
    }

    // ------------------------------------------------------------ element store

    /**
     * `createTextElement`: appends a text element numbered by the counter and
     * formatted with the current format, advances the counter by one and returns to
     * the navigate tool.
     */
    method CreateTextElement(text: string)
      requires Valid()
      modifies this`elements, this`nextId, toolbar`tool
      ensures Valid()
      ensures elements == old(elements) + [TextElement(old(nextId), text, textFormat)]
      ensures nextId == old(nextId) + 1
      ensures toolbar.tool == NavigateTool
    {
      var el := TextElement(nextId, text, textFormat);
      AppendKeepsStore(elements, nextId, el);
      elements := elements + [el];
      nextId := nextId + 1;
      toolbar.tool := NavigateTool;
    }

    /**
     * `createShape`: the arrow token only switches to the arrow tool; any other token
     * appends a shape numbered by the counter and advances the counter. Both close
     * the shape popup.
     */
    method CreateShape(shape: ShapeToken)
      requires Valid()
      modifies this`elements, this`nextId, toolbar`tool, toolbar`showShapePopup
      ensures Valid()
      ensures shape == Arrow ==> elements == old(elements) && nextId == old(nextId) && toolbar.tool == ArrowTool
      ensures shape != Arrow ==> elements == old(elements) + [ShapeElement(old(nextId), shape)]
      ensures shape != Arrow ==> nextId == old(nextId) + 1 && toolbar.tool == old(toolbar.tool)
      ensures !toolbar.showShapePopup
    {
      if shape == Arrow {
        toolbar.tool := ArrowTool;
        toolbar.showShapePopup := false;
        return;
      }
      var el := ShapeElement(nextId, shape);
      AppendKeepsStore(elements, nextId, el);
      elements := elements + [el];
      nextId := nextId + 1;
      toolbar.showShapePopup := false;
    }

    /**
     * The final step of `createImageElement`, once the image is decoded and scaled:
     * appends an image element of the given size numbered by the counter.
     */
    method CreateImageElement(width: real, height: real, imageSrc: string)
      requires Valid()
      modifies this`elements, this`nextId
      ensures Valid()
      ensures elements == old(elements) + [ImageElement(old(nextId), width, height, imageSrc)]
      ensures nextId == old(nextId) + 1
    {
      var el := ImageElement(nextId, width, height, imageSrc);
      AppendKeepsStore(elements, nextId, el);
      elements := elements + [el];
      nextId := nextId + 1;
    }

    /**
     * `deleteSelectedElement`: with a selection, removes exactly the selected element
     * (every other element stays, in order) and clears the selection; without one,
     * nothing changes. The counter is never decremented, so ids are not reused.
     */
    method DeleteSelectedElement()
      requires Valid()
      modifies this`elements, this`selected
      ensures Valid()
      ensures old(selected).None? ==> elements == old(elements)
      ensures old(selected).Some? ==>
                var id := old(selected).value;
                && elements == Filter(old(elements), (e: Element) => e.id != id)
                && |elements| == |old(elements)| - 1
                && !HasId(elements, id)
                && exists k :: 0 <= k < |old(elements)| && old(elements)[k].id == id &&
                               elements == old(elements)[..k] + old(elements)[k + 1..]
      ensures selected == None
    {
      if selected.Some? {
        var id := selected.value;
        ghost var k :| 0 <= k < |elements| && elements[k].id == id;
        RemoveByIdRemovesOne(elements, nextId, k);
        elements := Filter(elements, (e: Element) => e.id != id);
        selected := None;
      }
    }

    /** `updateElementText`: replaces the text of the element with that id; an unknown id changes nothing. */
    method UpdateElementText(id: nat, text: string)
      requires Valid()
      modifies this`elements
      ensures Valid()
      ensures |elements| == |old(elements)|
      ensures forall i :: 0 <= i < |elements| ==>
                elements[i] == if old(elements)[i].id == id then old(elements)[i].(text := text) else old(elements)[i]
    {
      var update := (e: Element) => e.(text := text);
      MapIdKeepsStore(elements, nextId, id, update);
      elements := MapId(elements, id, update);
    }

    /** `updateElementFontSize`: replaces the font size of the element with that id. */
    method UpdateElementFontSize(id: nat, fontSize: int)
      requires Valid()
      modifies this`elements
      ensures Valid()
      ensures |elements| == |old(elements)|
      ensures forall i :: 0 <= i < |elements| ==>
                elements[i] == if old(elements)[i].id == id then old(elements)[i].(fontSize := Some(fontSize)) else old(elements)[i]
    {
      var update := (e: Element) => e.(fontSize := Some(fontSize));
      MapIdKeepsStore(elements, nextId, id, update);
      elements := MapId(elements, id, update);
    }

    /**
     * The text popup's `onFormatChange`: the record a popup handler built becomes the
     * page's format, used by the text elements created from then on.
     */
    method SetTextFormat(f: TextFormat)
      requires Valid()
      modifies this`textFormat
      ensures Valid()
      ensures textFormat == f
    {
      textFormat := f;
    }

    // ------------------------------------------------------------ pointer gestures

    /**
     * `handleCanvasMouseDown`, with the canvas's top-left corner at `origin`. The press
     * is converted to world coordinates and handled in this order of precedence:
     * a hit element is selected and either a resize (on one of its handles) or a drag
     * begins; else the arrow tool starts an arrow and clears the selection; else the
     * navigate tool clears the selection and starts panning; else the text tool places
     * a text element.
     */
    method MouseDown(client: Point, origin: Point)
      requires Valid()
      modifies this`selected, this`gesture, this`elements, this`nextId, toolbar`tool
      ensures Valid()
      ensures var p := ScreenToWorld(client, origin, old(pan), old(zoom));
              var hit := HitTest(old(elements), p);
              hit.Some? ==>
                var el := old(elements)[hit.value];
                && selected == Some(el.id)
                && elements == old(elements) && nextId == old(nextId) && toolbar.tool == old(toolbar.tool)
                && (HandleAt(el, p).Some? ==>
                      gesture == old(gesture).(isResizing := true, resizeHandle := HandleAt(el, p), dragStart := p))
                && (HandleAt(el, p).None? ==>
                      gesture == old(gesture).(isDragging := true, dragStart := GrabOffset(el, p)))
      ensures var p := ScreenToWorld(client, origin, old(pan), old(zoom));
              HitTest(old(elements), p).None? && old(toolbar.tool) == ArrowTool ==>
                && selected == None && elements == old(elements) && nextId == old(nextId)
                && gesture == old(gesture).(isDrawingArrow := true, arrowStart := Some(p))
                && toolbar.tool == ArrowTool
      ensures var p := ScreenToWorld(client, origin, old(pan), old(zoom));
              HitTest(old(elements), p).None? && old(toolbar.tool) == NavigateTool ==>
                && selected == None && elements == old(elements) && nextId == old(nextId)
                && gesture == old(gesture).(isPanning := true, dragStart := Point(client.x - old(pan).x, client.y - old(pan).y))
                && toolbar.tool == NavigateTool
      ensures var p := ScreenToWorld(client, origin, old(pan), old(zoom));
              HitTest(old(elements), p).None? && old(toolbar.tool) == TextTool ==>
                && selected == old(selected) && gesture == old(gesture)
                && elements == old(elements) + [TextElement(old(nextId), TEXT_PLACEHOLDER, old(textFormat))]
                && nextId == old(nextId) + 1
                && toolbar.tool == NavigateTool
    {
      var p := ScreenToWorld(client, origin, pan, zoom);
      var hit := HitTest(elements, p);
      if hit.Some? {
        var el := elements[hit.value];
        selected := Some(el.id);
        var handle := GetResizeHandle(el, p);
        if handle.Some? {
          gesture := gesture.(isResizing := true, resizeHandle := handle, dragStart := p);
        } else {
          gesture := gesture.(isDragging := true, dragStart := GrabOffset(el, p));
        }
      } else if toolbar.tool == ArrowTool {
        gesture := gesture.(isDrawingArrow := true, arrowStart := Some(p));
        selected := None;
      } else if toolbar.tool == NavigateTool {
        selected := None;
        gesture := gesture.(isPanning := true, dragStart := Point(client.x - pan.x, client.y - pan.y));
      } else if toolbar.tool == TextTool {
        CreateTextElement(TEXT_PLACEHOLDER);
      }
    }

    /**
     * `handleCanvasMouseMove`. While dragging with a selection, the selected element's
     * origin becomes the world pointer minus the grab offset. Otherwise, while resizing
     * with a selection and a handle, the selected element is resized by the delta
     * since the previous point and that point advances to the pointer. Otherwise,
     * while panning, the pan becomes the screen pointer minus the pan anchor. Only the
     * selected element ever changes.
     */
    method MouseMove(client: Point, origin: Point)
      requires Valid()
      modifies this`elements, this`gesture, this`pan
      ensures Valid()
      ensures |elements| == |old(elements)|
      ensures var p := ScreenToWorld(client, origin, old(pan), old(zoom));
              var g := old(gesture);
              g.isDragging && old(selected).Some? ==>
                && (forall i :: 0 <= i < |elements| ==>
                      elements[i] == if old(elements)[i].id == old(selected).value
                                     then Dragged(old(elements)[i], p, g.dragStart) else old(elements)[i])
                && gesture == g && pan == old(pan)
      ensures var p := ScreenToWorld(client, origin, old(pan), old(zoom));
              var g := old(gesture);
              !(g.isDragging && old(selected).Some?) && g.isResizing && old(selected).Some? && g.resizeHandle.Some? ==>
                && (forall i :: 0 <= i < |elements| ==>
                      elements[i] == if old(elements)[i].id == old(selected).value
                                     then Resized(old(elements)[i], g.resizeHandle.value, p.x - g.dragStart.x, p.y - g.dragStart.y)
                                     else old(elements)[i])
                && gesture == g.(dragStart := p) && pan == old(pan)
      ensures var g := old(gesture);
              !(g.isDragging && old(selected).Some?) && !(g.isResizing && old(selected).Some? && g.resizeHandle.Some?) ==>
                && elements == old(elements) && gesture == g
                && pan == (if g.isPanning then Point(client.x - g.dragStart.x, client.y - g.dragStart.y) else old(pan))
    {
      var p := ScreenToWorld(client, origin, pan, zoom);
      if gesture.isDragging && selected.Some? {
        var offset := gesture.dragStart;
        var update := (e: Element) => Dragged(e, p, offset);
        MapIdKeepsStore(elements, nextId, selected.value, update);
        elements := MapId(elements, selected.value, update);
      } else if gesture.isResizing && selected.Some? && gesture.resizeHandle.Some? {
        var dx, dy := p.x - gesture.dragStart.x, p.y - gesture.dragStart.y;
        var handle := gesture.resizeHandle.value;
        var update := (e: Element) => Resized(e, handle, dx, dy);
        MapIdKeepsStore(elements, nextId, selected.value, update);
        elements := MapId(elements, selected.value, update);
        gesture := gesture.(dragStart := p);
      } else if gesture.isPanning {
        pan := Point(client.x - gesture.dragStart.x, client.y - gesture.dragStart.y);
      }
    }

    /**
     * `handleCanvasMouseUp` (also the mouse-leave handler). When an arrow is being
     * drawn, an arrow element spanning its envelope is appended exactly when the
     * envelope exceeds the threshold on some axis, arrow drawing stops and the tool
     * returns to navigate whether or not an arrow was made. Every gesture then ends.
     */
    method MouseUp(client: Point, origin: Point)
      requires Valid()
      modifies this`elements, this`nextId, this`gesture, toolbar`tool
      ensures Valid()
      ensures var g := old(gesture);
              g.isDrawingArrow && g.arrowStart.Some? ==>
                var p := ScreenToWorld(client, origin, old(pan), old(zoom));
                var env := ArrowEnvelope(g.arrowStart.value, p);
                && (env.Some? ==> elements == old(elements) + [ArrowElement(old(nextId), g.arrowStart.value, p, env.value)]
                                  && nextId == old(nextId) + 1)
                && (env.None? ==> elements == old(elements) && nextId == old(nextId))
                && !gesture.isDrawingArrow && gesture.arrowStart == None
                && toolbar.tool == NavigateTool
      ensures var g := old(gesture);
              !(g.isDrawingArrow && g.arrowStart.Some?) ==>
                && elements == old(elements) && nextId == old(nextId)
                && gesture.isDrawingArrow == g.isDrawingArrow && gesture.arrowStart == g.arrowStart
                && toolbar.tool == old(toolbar.tool)
      ensures !gesture.isDragging && !gesture.isPanning && !gesture.isResizing && gesture.resizeHandle == None
      ensures gesture.dragStart == old(gesture).dragStart
    {
      if gesture.isDrawingArrow && gesture.arrowStart.Some? {
        var p := ScreenToWorld(client, origin, pan, zoom);
        var start := gesture.arrowStart.value;
        var env := ArrowEnvelope(start, p);
        if env.Some? {
          var el := ArrowElement(nextId, start, p, env.value);
          AppendKeepsStore(elements, nextId, el);
          elements := elements + [el];
          nextId := nextId + 1;
        }
        gesture := gesture.(isDrawingArrow := false, arrowStart := None);
        toolbar.tool := NavigateTool;
      }
      gesture := gesture.(isDragging := false, isPanning := false, isResizing := false, resizeHandle := None);
    }

    // ------------------------------------------------------------ zoom

    /** `handleWheel`: one zoom step against the wheel's direction, clamped; the pan is untouched. */
    method Wheel(deltaY: real)
      requires Valid()
      modifies this`zoom
      ensures Valid()
      ensures zoom == WheelZoom(old(zoom), deltaY)
    {
      zoom := WheelZoom(zoom, deltaY);
    }

    /**
     * `handleTouchStart`: with exactly two touches, records their distance and
     * midpoint (computed by the caller from the touch coordinates).
     */
    method TouchStart(touchCount: nat, distance: real, center: Point)
      requires Valid()
      modifies this`lastTouchDistance, this`lastTouchCenter
      ensures Valid()
      ensures touchCount == 2 ==> lastTouchDistance == Some(distance) && lastTouchCenter == Some(center)
      ensures touchCount != 2 ==> lastTouchDistance == old(lastTouchDistance) && lastTouchCenter == old(lastTouchCenter)
    {
      if touchCount == 2 {
        lastTouchDistance := Some(distance);
        lastTouchCenter := Some(center);
      }
    }

    /**
     * `handleTouchMove`: with two touches and a recorded non-zero distance, scales the
     * zoom by the ratio of the new distance to the recorded one (clamped), moves the
     * pan by the midpoint's displacement, and records the new distance and midpoint.
     */
    method TouchMove(touchCount: nat, distance: real, center: Point)
      requires Valid()
      modifies this`zoom, this`pan, this`lastTouchDistance, this`lastTouchCenter
      ensures Valid()
      ensures touchCount == 2 && old(lastTouchDistance).Some? && old(lastTouchDistance).value != 0.0 ==>
                && zoom == PinchZoom(old(zoom), distance / old(lastTouchDistance).value)
                && pan == (if old(lastTouchCenter).Some?
                           then Point(old(pan).x + (center.x - old(lastTouchCenter).value.x),
                                      old(pan).y + (center.y - old(lastTouchCenter).value.y))
                           else old(pan))
                && lastTouchDistance == Some(distance) && lastTouchCenter == Some(center)
      ensures !(touchCount == 2 && old(lastTouchDistance).Some? && old(lastTouchDistance).value != 0.0) ==>
                && zoom == old(zoom) && pan == old(pan)
                && lastTouchDistance == old(lastTouchDistance) && lastTouchCenter == old(lastTouchCenter)
    {
      if touchCount == 2 && lastTouchDistance.Some? && lastTouchDistance.value != 0.0 {
        zoom := PinchZoom(zoom, distance / lastTouchDistance.value);
        if lastTouchCenter.Some? {
          var dx := center.x - lastTouchCenter.value.x;
          var dy := center.y - lastTouchCenter.value.y;
          pan := Point(pan.x + dx, pan.y + dy);
        }
        lastTouchDistance := Some(distance);
        lastTouchCenter := Some(center);
      }
    }

    /** `handleTouchEnd`: forgets the recorded distance and midpoint. */
    method TouchEnd()
      requires Valid()
      modifies this`lastTouchDistance, this`lastTouchCenter
      ensures Valid()
      ensures lastTouchDistance == None && lastTouchCenter == None
    {
      lastTouchDistance := None;
      lastTouchCenter := None;
    }

    // ------------------------------------------------------------ keyboard

    /**
     * Escape: closes the help overlay when it is open; otherwise clears the selection
     * and closes both popups.
     */
    method EscapeShortcut()
      requires Valid()
      modifies this`showShortcutsHelp, this`selected, toolbar`showTextPopup, toolbar`showShapePopup
      ensures Valid()
      ensures old(showShortcutsHelp) ==>
                && !showShortcutsHelp && selected == old(selected)
                && toolbar.showTextPopup == old(toolbar.showTextPopup)
                && toolbar.showShapePopup == old(toolbar.showShapePopup)
      ensures !old(showShortcutsHelp) ==>
                && !showShortcutsHelp && selected == None
                && !toolbar.showTextPopup && !toolbar.showShapePopup
    {
      if showShortcutsHelp {
        showShortcutsHelp := false;
      } else {
        selected := None;
        toolbar.showTextPopup := false;
        toolbar.showShapePopup := false;
      }
    }

    /**
     * The bare tool letters: V and H select the navigate tool, T selects the text tool
     * and opens its popup, S opens the shape popup; other keys change nothing.
     */
    method ToolShortcut(key: string)
      modifies toolbar`tool, toolbar`showTextPopup, toolbar`showShapePopup
      ensures IsKey(key, "v", "V") || IsKey(key, "h", "H") ==> toolbar.tool == NavigateTool
      ensures IsKey(key, "t", "T") ==> toolbar.tool == TextTool && toolbar.showTextPopup
      ensures IsKey(key, "s", "S") ==> toolbar.showShapePopup
      ensures !(IsKey(key, "v", "V") || IsKey(key, "h", "H") || IsKey(key, "t", "T")) ==>
                toolbar.tool == old(toolbar.tool)
      ensures !IsKey(key, "t", "T") ==> toolbar.showTextPopup == old(toolbar.showTextPopup)
      ensures !IsKey(key, "s", "S") ==> toolbar.showShapePopup == old(toolbar.showShapePopup)
    {
      if IsKey(key, "v", "V") {
        toolbar.tool := NavigateTool;
      }
      if IsKey(key, "t", "T") {
        toolbar.tool := TextTool;
        toolbar.showTextPopup := true;
      }
      if IsKey(key, "s", "S") {
        toolbar.showShapePopup := true;
      }
      if IsKey(key, "h", "H") {
        toolbar.tool := NavigateTool;
      }
    }

    /**
     * `handleKeyDown`, for a key with the given Ctrl and Cmd state, `inField` telling
     * whether focus is in a text area or input. Ctrl/Cmd chords change the text format
     * (`ChordFormat`). Delete and Backspace remove the selected element, only with a
     * selection and outside a text field. Escape closes the help overlay when it is
     * open and otherwise clears the selection and closes both popups; it never changes
     * the tool. `?` and Ctrl+`/` toggle the help overlay. Without Ctrl/Cmd and outside
     * a text field the tool letters apply.
     */
    method KeyDown(key: string, ctrl: bool, meta: bool, inField: bool)
      requires Valid()
      modifies this`textFormat, this`elements, this`selected, this`showShortcutsHelp
      modifies toolbar`tool, toolbar`showTextPopup, toolbar`showShapePopup
      ensures Valid()
      // format chords
      ensures textFormat == if ctrl || meta then ChordFormat(old(textFormat), key) else old(textFormat)
      // deletion
      ensures IsDeleteKey(key) && old(selected).Some? && !inField ==>
                var id := old(selected).value;
                && elements == Filter(old(elements), (e: Element) => e.id != id)
                && |elements| == |old(elements)| - 1 && !HasId(elements, id)
                && selected == None
      ensures !(IsDeleteKey(key) && old(selected).Some? && !inField) ==> elements == old(elements)
      ensures key != "Escape" && !(IsDeleteKey(key) && old(selected).Some? && !inField) ==> selected == old(selected)
      // escape
      ensures key == "Escape" && old(showShortcutsHelp) ==>
                && !showShortcutsHelp && selected == old(selected)
                && toolbar.showTextPopup == old(toolbar.showTextPopup)
                && toolbar.showShapePopup == old(toolbar.showShapePopup)
      ensures key == "Escape" && !old(showShortcutsHelp) ==>
                && !showShortcutsHelp && selected == None
                && !toolbar.showTextPopup && !toolbar.showShapePopup
      ensures key == "Escape" ==> toolbar.tool == old(toolbar.tool)
      // help overlay
      ensures IsHelpKey(key, ctrl) ==> showShortcutsHelp == !old(showShortcutsHelp)
      ensures key != "Escape" && !IsHelpKey(key, ctrl) ==> showShortcutsHelp == old(showShortcutsHelp)
      // tool letters
      ensures BareKeys(ctrl, meta, inField) && (IsKey(key, "v", "V") || IsKey(key, "h", "H")) ==>
                toolbar.tool == NavigateTool
      ensures BareKeys(ctrl, meta, inField) && IsKey(key, "t", "T") ==>
                toolbar.tool == TextTool && toolbar.showTextPopup
      ensures BareKeys(ctrl, meta, inField) && IsKey(key, "s", "S") ==> toolbar.showShapePopup
      ensures !(BareKeys(ctrl, meta, inField) && (IsKey(key, "v", "V") || IsKey(key, "h", "H") || IsKey(key, "t", "T"))) ==>
                toolbar.tool == old(toolbar.tool)
      ensures key != "Escape" && !(BareKeys(ctrl, meta, inField) && IsKey(key, "t", "T")) ==>
                toolbar.showTextPopup == old(toolbar.showTextPopup)
      ensures key != "Escape" && !(BareKeys(ctrl, meta, inField) && IsKey(key, "s", "S")) ==>
                toolbar.showShapePopup == old(toolbar.showShapePopup)
    {
      if ctrl || meta {
        textFormat := ChordFormat(textFormat, key);
      }
      if IsDeleteKey(key) {
        if selected.Some? && !inField {
          DeleteSelectedElement();
        }
      }
      if key == "Escape" {
        EscapeShortcut();
      }
      if IsHelpKey(key, ctrl) {
        showShortcutsHelp := !showShortcutsHelp;
      }
      if BareKeys(ctrl, meta, inField) {
        ToolShortcut(key);
      }
    }
  }
}
