# BrainDump whiteboard: a Dafny model

BrainDump is a React brainstorming app. Categories and ideas live in an application
shell, and each category opens an infinite whiteboard. This project models the
whiteboard's canvas engine and the small state holders around it:

- **Geometry** (`geometry.dfy`): points, the screen-to-world conversion
  `(client - rect - pan) / zoom`, and the zoom clamp to [0.25, 4]. It covers the
  wheel step (×0.75 or ×1.25) and the pinch step (× distance ratio).
- **Elements** (`elements.dfy`): the element record. Every element gets
  id = zIndex = the running counter. The file also holds:
  - the store invariant (ids unique, increasing and below the counter);
  - the topmost-first hit test;
  - the eight resize handles tried in the order nw, ne, sw, se, n, s, w, e;
  - incremental resizing with a 50-unit floor, absolute dragging, and the arrow
    envelope with its > 10 creation threshold.
- **Whiteboard** (`whiteboard.dfy`): the page as a class. Its fields are the
  element list, the id counter, the selection, zoom, pan, the gesture flags, the
  touch record, the help overlay and the text format. Its methods are the page's
  handlers: element creation and deletion, per-id updates, mouse down/move/up,
  wheel, touch start/move/end, and the keyboard router.
- **Toolbar** (`toolbar.dfy`): the tool and the two popup flags, with the
  navigate, text and shape buttons.
- **TextPopup** (`text_popup.dfy`): the text-format record and its toggles, the
  font-size palette and the shown default.
- **ZoomControls** (`zoom_controls.dfy`): the zoom-in and zoom-out buttons.
- **App** (`app.dfy`): the category/idea store. It covers the start-up rule, add,
  update and delete of categories (with the cascading delete of their ideas), add
  and delete of ideas, the newest-first idea query, navigation and the page
  dispatch.
- `seqs.dfy` holds `Filter` (JavaScript's `Array.prototype.filter`) with its
  lemmas. `wrappers.dfy` holds `Option`.

Each handler is one atomic transition of the state it updates. Values that the
page reads from the browser are parameters of the handlers:

- the canvas's bounding-box corner (`origin`);
- the two-finger distance and midpoint;
- generated ids and clock readings;
- what storage returned.

The model follows the code on these points:

- The text tool places a new text element at `200 + id * 10`, not at the
  clicked point (src/WhiteboardPage.jsx:125-126, 252).
- The page has only three tools: navigate, text and arrow
  (src/WhiteboardPage.jsx:16, 146, 247, 251).
- The toolbar buttons never leave both popups open (`Toolbar.AtMostOnePopup`).
  The keyboard shortcuts do not keep that rule: `t` opens the text popup and `s`
  opens the shape popup, and neither closes the other. `Whiteboard.WhiteboardPage.KeyDown`
  states exactly what each key does.

## Model

| member | source | states |
|---|---|---|
| Seqs.Filter | src/WhiteboardPage.jsx:214 | the kept elements are elements of the input that satisfy the predicate; every input element that satisfies it is kept; never longer than the input |
| Seqs.FilterConcat | src/App.jsx:103-104 | filtering distributes over concatenation, so a filter keeps the surviving elements in their original order |
| Seqs.FilterKeepsAll | src/App.jsx:121 | a filter that rejects nothing returns the list unchanged |
| Seqs.FilterRemovesOne | src/WhiteboardPage.jsx:214 | a filter that rejects exactly one position removes exactly that entry: the result is the list with that one entry cut out, one shorter |
| Geometry.ScreenToWorld | src/WhiteboardPage.jsx:221-222 | the world point is the one the view (scale by zoom, then shift by pan and the canvas corner) maps back onto the pointer |
| Geometry.ClampZoom | src/WhiteboardPage.jsx:372 | the result lies in [0.25, 4]; a value inside is kept, one below becomes 0.25 and one above becomes 4 |
| Geometry.WheelZoom | src/WhiteboardPage.jsx:369-373 | the new zoom lies in [0.25, 4]; a positive deltaY never zooms in and any other never zooms out; it is exactly zoom×0.75 or zoom×1.25 when that product is in bounds |
| Geometry.PinchZoom | src/WhiteboardPage.jsx:404-405 | the new zoom lies in [0.25, 4]; spreading (ratio ≥ 1) never zooms out and pinching (ratio ≤ 1) never zooms in; it is exactly zoom×ratio when that product is in bounds |
| Geometry.ZoomEventsStayInBounds | src/WhiteboardPage.jsx:369-373 | any sequence of wheel and pinch inputs leaves the zoom in [0.25, 4] |
| TextPopup.ToggleBold | src/components/TextPopup.jsx:9-11 | flips bold and keeps underline, italic and font size |
| TextPopup.ToggleUnderline | src/components/TextPopup.jsx:13-15 | flips underline and keeps bold, italic and font size |
| TextPopup.ToggleItalic | src/components/TextPopup.jsx:17-19 | flips italic and keeps bold, underline and font size |
| TextPopup.WithFontSize | src/components/TextPopup.jsx:21-23 | sets the font size to the chosen one and keeps the three style flags |
| TextPopup.ShownFontSize | src/components/TextPopup.jsx:53 | the selector shows the record's size when it is set and non-zero; an unset or zero size shows as 16 |
| TextPopup.TogglesAreInvolutions | src/components/TextPopup.jsx:9-19 | each toggle applied twice restores the original format |
| TextPopup.ShownSizeIsAnOption | src/components/TextPopup.jsx:53-68 | the shown size (the default 16 included) is one of the twelve options; a chosen option is shown as chosen |
| Toolbar.ToolPanel.constructor | src/WhiteboardPage.jsx:16-31 | the page starts with the navigate tool and both popups closed |
| Toolbar.ToolPanel.HandleNavigateClick | src/components/Toolbar.jsx:49-53 | navigate tool, both popups closed |
| Toolbar.ToolPanel.HandleTextClick | src/components/Toolbar.jsx:33-37 | text tool, the text popup toggled, the shape popup closed, so at most one popup is open |
| Toolbar.ToolPanel.HandleShapeClick | src/components/Toolbar.jsx:39-42 | the shape popup toggled, the text popup closed, the tool unchanged, so at most one popup is open |
| ZoomControls.ZoomInResult | src/components/ZoomControls.jsx:8-14 | no change at zoom ≥ 4 (the button is disabled there, line 29); never lowers the zoom; capped at 4; keeps [0.25, 4]; exactly zoom×1.25 when under the cap |
| ZoomControls.ZoomOutResult | src/components/ZoomControls.jsx:16-22 | no change at zoom ≤ 0.25 (the button is disabled there, line 41); never raises the zoom; floored at 0.25; keeps [0.25, 4]; exactly zoom×0.75 when above the floor |
| ZoomControls.InThenOutShrinks | src/components/ZoomControls.jsx:11-19 | zoom in then out is not the identity: from a zoom neither bound touches it ends strictly lower, at 93.75% of the start |
| ZoomControls.ZoomButtons.constructor | src/components/ZoomControls.jsx:4 | the buttons act on the owner's zoom |
| ZoomControls.ZoomButtons.HandleZoomIn | src/components/ZoomControls.jsx:8-14 | the zoom becomes the zoom-in step of the old zoom |
| ZoomControls.ZoomButtons.HandleZoomOut | src/components/ZoomControls.jsx:16-22 | the zoom becomes the zoom-out step of the old zoom |
| Elements.AppendKeepsStore | src/WhiteboardPage.jsx:121-141 | appending an element numbered by the counter (id = zIndex = counter) and advancing the counter keeps ids unique, increasing and below the counter; the new id differs from every old one; old ids stay present |
| Elements.FilterKeepsStore | src/WhiteboardPage.jsx:212-217 | removing elements by filter keeps the store invariant, so ids are never reused |
| Elements.RemoveByIdRemovesOne | src/WhiteboardPage.jsx:214 | removing by the id of a stored element cuts out exactly that element, shortens the list by one, keeps the invariant, and the id is gone |
| Elements.MapId | src/WhiteboardPage.jsx:424-434 | a per-id map updates exactly the elements with that id and keeps all others and the length |
| Elements.MapIdKeepsStore | src/WhiteboardPage.jsx:284-317 | a per-id update that preserves id and zIndex keeps the store invariant and the set of ids |
| Elements.HitTest | src/WhiteboardPage.jsx:225-228 | the hit element's closed box contains the point and no later element's does; none exactly when no box contains the point |
| Elements.HitIsTopmost | src/WhiteboardPage.jsx:225-228 | over a valid store the hit has a strictly higher zIndex than every other element containing the point |
| Elements.FirstNear | src/WhiteboardPage.jsx:269-274 | the first position of the handle table whose square zone (half-side 10) contains the point; none exactly when no handle's zone does |
| Elements.GetResizeHandle | src/WhiteboardPage.jsx:256-275 | the returned handle's zone contains the point and every handle before it in the order nw, ne, sw, se, n, s, w, e does not; null exactly when no handle's zone contains the point |
| Elements.Resized | src/WhiteboardPage.jsx:290-317 | handles with e or w give width ≥ 50 and those with n or s give height ≥ 50; e and s keep the position; w and n shift it by the full delta; the opposite edge stays fixed when not clamped and is pushed outward when clamped; only position and size change |
| Elements.ResizeSteps | src/WhiteboardPage.jsx:293-317 | resizing is incremental: two steps above the floor equal one step by the summed delta |
| Elements.Dragged | src/WhiteboardPage.jsx:284-289 | the element's origin is the pointer minus the grab offset; nothing but the position changes |
| Elements.DragBackRestores | src/WhiteboardPage.jsx:284-289 | moving back to the grab point restores the original position whatever happened in between |
| Elements.ArrowEnvelope | src/WhiteboardPage.jsx:333-346 | an arrow is made exactly when the drag exceeds 10 on some axis; its box starts at the per-axis minimum, has sides max(extent, 50) and contains both end points |
| Elements.ArrowElementHitAtEnds | src/WhiteboardPage.jsx:340-353 | the arrow element stores its end points verbatim, contains both and has both sides ≥ 50 |
| Whiteboard.ChordFormat | src/WhiteboardPage.jsx:49-72 | Ctrl/Cmd+B, +I and +U flip bold, italic and underline and keep the other fields; every other chord (A and D included) leaves the format unchanged |
| Whiteboard.WhiteboardPage.constructor | src/WhiteboardPage.jsx:14-43 | empty store with counter 1, no selection, zoom 1, zero pan, no gesture, default format, navigate tool, popups closed |
| Whiteboard.WhiteboardPage.CreateTextElement | src/WhiteboardPage.jsx:121-141 | appends one text element numbered by the counter and formatted with the current format; the counter advances by one; the navigate tool is selected |
| Whiteboard.WhiteboardPage.CreateShape | src/WhiteboardPage.jsx:143-167 | the arrow token only selects the arrow tool; any other token appends one shape numbered by the counter and advances the counter by one; the shape popup closes |
| Whiteboard.WhiteboardPage.CreateImageElement | src/WhiteboardPage.jsx:193-205 | appends one image element of the given size numbered by the counter and advances the counter by one |
| Whiteboard.WhiteboardPage.DeleteSelectedElement | src/WhiteboardPage.jsx:212-217 | with a selection, exactly the selected element is removed and the rest keep their order; without one the list is unchanged; the selection ends cleared; the counter never moves back |
| Whiteboard.WhiteboardPage.UpdateElementText | src/WhiteboardPage.jsx:424-428 | only the element with that id gets the new text; all others are unchanged |
| Whiteboard.WhiteboardPage.UpdateElementFontSize | src/WhiteboardPage.jsx:430-434 | only the element with that id gets the new font size; all others are unchanged |
| Whiteboard.WhiteboardPage.SetTextFormat | src/WhiteboardPage.jsx:600 | the record a text-popup handler builds becomes the page's text format |
| Whiteboard.WhiteboardPage.MouseDown | src/WhiteboardPage.jsx:219-254 | precedence: a hit element is selected and a resize (on a handle) or a drag (anchor = grab offset) begins; else the arrow tool starts an arrow and clears the selection; else the navigate tool clears the selection and starts panning; else the text tool places a text element |
| Whiteboard.WhiteboardPage.MouseMove | src/WhiteboardPage.jsx:277-324 | a drag moves only the selected element to pointer − offset; else a resize changes only the selected element by the delta since the previous point and advances that point; else a pan sets pan = pointer − anchor; nothing else changes |
| Whiteboard.WhiteboardPage.MouseUp | src/WhiteboardPage.jsx:326-367 | an arrow being drawn is appended exactly when its envelope exceeds the threshold, and the tool returns to navigate either way; drag, pan and resize always end |
| Whiteboard.WhiteboardPage.Wheel | src/WhiteboardPage.jsx:369-373 | the zoom becomes the clamped wheel step; the page invariant (zoom in bounds) is kept |
| Whiteboard.WhiteboardPage.TouchStart | src/WhiteboardPage.jsx:376-389 | with two touches the distance and midpoint are recorded; otherwise nothing changes |
| Whiteboard.WhiteboardPage.TouchMove | src/WhiteboardPage.jsx:391-417 | with two touches and a recorded non-zero distance, the zoom becomes the clamped pinch step, the pan moves by the midpoint's displacement, and the new touch is recorded; otherwise nothing changes |
| Whiteboard.WhiteboardPage.TouchEnd | src/WhiteboardPage.jsx:419-422 | the touch record is cleared |
| Whiteboard.WhiteboardPage.EscapeShortcut | src/WhiteboardPage.jsx:83-91 | Escape closes an open help overlay and changes nothing else; otherwise it clears the selection and closes both popups |
| Whiteboard.WhiteboardPage.ToolShortcut | src/WhiteboardPage.jsx:100-114 | V and H select navigate; T selects text and opens the text popup; S opens the shape popup; other keys change nothing |
| Whiteboard.WhiteboardPage.KeyDown | src/WhiteboardPage.jsx:47-115 | format chords with Ctrl/Cmd; Delete/Backspace removes exactly the selected element only with a selection and outside a text field, otherwise no element changes and the selection stays; Escape never changes the tool; ? and Ctrl+/ toggle help; bare tool letters only without Ctrl/Cmd and outside a text field |
| App.RenderPage | src/App.jsx:159-170 | 'select' and 'whiteboard' show their pages, and every other value shows the home page |
| App.DefaultCategories | src/App.jsx:57-66 | eight categories named BrainStorm 1..8 with the fixed palette colours, each with its own generated id and time |
| App.InitialCategories | src/App.jsx:54-69 | a saved non-empty list is kept, otherwise the eight defaults are installed; the shell always starts with a category |
| App.Merge | src/App.jsx:98 | every field the patch carries (id, name, colour, creation time) overrides the category's and the others are kept; the empty patch is the identity |
| App.MergeIdempotent | src/App.jsx:98 | applying the same patch twice equals applying it once |
| App.UpdateCategories | src/App.jsx:96-100 | the categories with the id are merged with the patch and all others are unchanged; the length is kept |
| App.UpdateUnknownIsNoOp | src/App.jsx:96-100 | an update naming no stored category leaves the list unchanged |
| App.InsertNewestFirst | src/App.jsx:126 | inserting into a newest-first list keeps it newest first and adds exactly that idea |
| App.PrependNewestFirst | src/App.jsx:126 | a head at least as new as the list's head keeps the list newest first |
| App.SortNewestFirst | src/App.jsx:126 | the result is ordered by createdAt descending and is a permutation of the input |
| App.InsertNewestFirstStable | src/App.jsx:126 | among the ideas created at any one instant, the inserted idea comes first and the others keep their order |
| App.SortNewestFirstStable | src/App.jsx:126 | the sort is stable: for every instant, the ideas created then appear in the same order as in the input |
| App.SkipHeadStable | src/App.jsx:126 | inserting behind a strictly newer head leaves the order among ideas created at the inserted idea's instant as the insertion into the tail left it |
| App.IdeasForCategory | src/App.jsx:124-127 | the result is ordered by createdAt descending and is a permutation of the ideas filed under the category |
| App.IdeasForCategoryExact | src/App.jsx:124-127 | an idea is in the result exactly when it is stored and filed under that category |
| App.AppProvider.constructor | src/App.jsx:44-74 | the home page, no selection, the start-up category rule applied to what storage returned, and the saved ideas (or none) |
| App.AppProvider.AddCategory | src/App.jsx:86-94 | appends exactly one category with the given name, colour '#A5B4FC' when none is given, a fresh id and the current time; existing categories are unchanged |
| App.AppProvider.UpdateCategory | src/App.jsx:96-100 | the patch is merged into only the categories with that id |
| App.AppProvider.DeleteCategory | src/App.jsx:102-105 | the category and every idea filed under it are removed; every other category and idea stays, in order |
| App.AppProvider.AddIdea | src/App.jsx:107-118 | appends and returns exactly one idea, with input method 'text' when none is given and the creation and update times taken from their own clock readings |
| App.AppProvider.DeleteIdea | src/App.jsx:120-122 | removes the ideas with that id and keeps every other idea |
| App.AppProvider.Navigate | src/App.jsx:129-134 | the page always changes; the selected category changes only when one is given |

## Left out

- Image decoding and scaling in `createImageElement` are left out. That step uses
  FileReader, Image, `window.innerWidth` and floating aspect-ratio arithmetic.
  `CreateImageElement` starts from the final, already-scaled width and height.
  The file picker in `handleImageClick` is DOM input and is left out too.
- Touch geometry is left out. The two-finger distance (`Math.hypot`) and the
  midpoint are parameters of the touch handlers.
- Floating point is not modelled: coordinates and zoom are exact reals. The
  bounds and clamping are therefore exact, but rounding in the products
  (for example zoom×1.25×0.75) is not captured.
- Rendering is left out: the JSX of elements and handles, CSS transforms, cursors
  and the help overlay's contents.
- Storage is left out: `localStorage` loads and saves, and the effects that save
  on every change. What loading returned is a constructor parameter.
- `generateId` and `Date.now` are parameters, one parameter per call (so `addIdea`
  takes its creation and update times separately). Fresh ids are not assumed to be
  unique, since nothing in the app checks that they are.
- The React context plumbing is left out. So is the `showToolbar` flag of the
  provider, which no core code reads.
- React closure and batching behaviour is left out; each handler is one atomic
  step over the current state. In particular, the keyboard listener is
  re-registered only when the selection or the help flag changes, so Delete
  filters the element list as it was at that moment. Elements created or edited
  since then are lost. The model filters the current list instead.
- Ctrl+A and Ctrl+D only suppress the browser's default action. In the model
  they leave the state unchanged.
- The zoom buttons' 400 ms highlight flags (`setTimeout`) are left out.
- The blank-name guard of the selection page is left out. That page is outside
  this model, and `addCategory` itself accepts any name.
- The `!tool` alternative of the mouse-down navigate branch is not modelled. The
  tool is never empty in this model.
