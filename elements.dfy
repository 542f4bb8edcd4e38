/**
 * Canvas elements and the pure rules the whiteboard applies to them
 * (src/WhiteboardPage.jsx): element construction with id = zIndex = the running
 * counter, the store invariant, the topmost-first hit test, the eight resize
 * handles, incremental resizing with a size floor, absolute dragging and the
 * arrow envelope.
 */
module Elements {
  import opened Wrappers
  import opened Seqs
  import opened Geometry
  import opened TextPopup

  /** The tokens of the shape picker; `Arrow` starts arrow drawing instead of placing a shape. */
  datatype ShapeToken = Star | Circle | Triangle | Square | Arrow

  /** The element variants with the fields only they carry. */
  datatype Kind =
    | TextBox(bold: bool, underline: bool, italic: bool)
    | Shape(shape: ShapeToken)
    | ArrowLine(startPoint: Point, endPoint: Point)
    | Picture(imageSrc: string)

  /**
   * One placed element. `fontSize` is absent on arrows and images until a size is
   * set on them; images carry an empty colour and text.
   */
  datatype Element = Element(
    id: nat,
    kind: Kind,
    x: real,
    y: real,
    width: real,
    height: real,
    color: string,
    text: string,
    zIndex: nat,
    rotation: real,
    fontSize: Option<int>)

  const TEXT_PLACEHOLDER: string := "Enter your Text"
  const TEXT_COLOR: string := "#FFFFFF"
  const SHAPE_COLOR: string := "#6366F1"
  const SHAPE_FONT_SIZE: int := 24

  /** New elements are placed at `200 + id * 10` on both axes so that they do not overlap exactly. */
  function Cascade(id: nat): real { 200.0 + (id as real) * 10.0 }

  function TextElement(id: nat, text: string, f: TextFormat): Element
  {
    Element(id, TextBox(f.bold, f.underline, f.italic), Cascade(id), Cascade(id),
            300.0, 150.0, TEXT_COLOR, text, id, 0.0, f.fontSize)
  }

  function ShapeElement(id: nat, shape: ShapeToken): Element
  {
    Element(id, Shape(shape), Cascade(id), Cascade(id), 500.0, 500.0,
            SHAPE_COLOR, "", id, 0.0, Some(SHAPE_FONT_SIZE))
  }

  function ImageElement(id: nat, width: real, height: real, imageSrc: string): Element
  {
    Element(id, Picture(imageSrc), Cascade(id), Cascade(id), width, height, "", "", id, 0.0, None)
  }

  /** Axis-aligned box of an element. */
  datatype Box = Box(x: real, y: real, width: real, height: real)

  predicate BoxContains(b: Box, p: Point)
  {
    b.x <= p.x <= b.x + b.width && b.y <= p.y <= b.y + b.height
  }

  function ArrowElement(id: nat, startPoint: Point, endPoint: Point, b: Box): Element
  {
    Element(id, ArrowLine(startPoint, endPoint), b.x, b.y, b.width, b.height,
            SHAPE_COLOR, "", id, 0.0, None)
  }

  function BoxOf(el: Element): Box { Box(el.x, el.y, el.width, el.height) }

  // ---------------------------------------------------------------- the store

  /**
   * The element list's invariant: every id is below the counter, equals the
   * element's zIndex, and ids strictly increase along the list (so they are unique
   * and list order is draw order).
   */
  ghost predicate ValidStore(s: seq<Element>, nextId: nat)
  {
    && 1 <= nextId
    && (forall i :: 0 <= i < |s| ==> 1 <= s[i].id < nextId && s[i].zIndex == s[i].id)
    && (forall i, j :: 0 <= i < j < |s| ==> s[i].id < s[j].id)
  }

  predicate HasId(s: seq<Element>, id: nat)
  {
    exists i :: 0 <= i < |s| && s[i].id == id
  }

  /** Appending an element numbered by the counter and advancing the counter keeps the invariant. */
  lemma AppendKeepsStore(s: seq<Element>, nextId: nat, el: Element)
    requires ValidStore(s, nextId)
    requires el.id == nextId && el.zIndex == nextId
    ensures ValidStore(s + [el], nextId + 1)
    ensures HasId(s + [el], nextId) && forall i :: 0 <= i < |s| ==> s[i].id != el.id
    ensures forall j :: HasId(s, j) ==> HasId(s + [el], j)
  {
    assert (s + [el])[|s|] == el;
    forall j | HasId(s, j)
      ensures HasId(s + [el], j)
    {
      var i :| 0 <= i < |s| && s[i].id == j;
      assert (s + [el])[i] == s[i];
    }
  }

  /** Removing elements with `filter` keeps the invariant (ids stay increasing, never reused). */
  lemma {:induction false} FilterKeepsStore(s: seq<Element>, nextId: nat, keep: Element -> bool)
    requires ValidStore(s, nextId)
    ensures ValidStore(Filter(s, keep), nextId)
    decreases |s|
  {
    if s != [] {
      var tail := s[1..];
      assert ValidStore(tail, nextId) by {
        assert forall i :: 0 <= i < |tail| ==> tail[i] == s[i + 1];
      }
      FilterKeepsStore(tail, nextId, keep);
      var rest := Filter(tail, keep);
      assert forall i :: 0 <= i < |rest| ==> s[0].id < rest[i].id by {
        forall i | 0 <= i < |rest|
          ensures s[0].id < rest[i].id
        {
          var j :| 0 <= j < |tail| && tail[j] == rest[i];
          assert s[j + 1] == rest[i];
        }
      }
      if keep(s[0]) {
        assert Filter(s, keep) == [s[0]] + rest;
        PrependKeepsStore(s[0], rest, nextId);
      } else {
        assert Filter(s, keep) == rest;
      }
    }
  }

  /** An element below every id of a valid store, and numbered within the counter, may lead it. */
  lemma PrependKeepsStore(h: Element, s: seq<Element>, nextId: nat)
    requires ValidStore(s, nextId)
    requires 1 <= h.id < nextId && h.zIndex == h.id
    requires forall i :: 0 <= i < |s| ==> h.id < s[i].id
    ensures ValidStore([h] + s, nextId)
  {
    var r := [h] + s;
    assert forall i :: 1 <= i < |r| ==> r[i] == s[i - 1];
  }

  /**
   * With increasing ids, the filter that drops one id removes exactly the one entry
   * carrying it and keeps every other entry in its place in the order.
   */
  lemma RemoveByIdRemovesOne(s: seq<Element>, nextId: nat, k: nat)
    requires ValidStore(s, nextId)
    requires k < |s|
    ensures Filter(s, (e: Element) => e.id != s[k].id) == s[..k] + s[k + 1..]
    ensures |Filter(s, (e: Element) => e.id != s[k].id)| == |s| - 1
    ensures ValidStore(Filter(s, (e: Element) => e.id != s[k].id), nextId)
    ensures !HasId(Filter(s, (e: Element) => e.id != s[k].id), s[k].id)
  {
    var keep := (e: Element) => e.id != s[k].id;
    assert forall i :: 0 <= i < |s| && i != k ==> keep(s[i]) by {
      forall i | 0 <= i < |s| && i != k
        ensures keep(s[i])
      {
        if i < k { assert s[i].id < s[k].id; } else { assert s[k].id < s[i].id; }
      }
    }
    FilterRemovesOne(s, keep, k);
    FilterKeepsStore(s, nextId, keep);
  }

  /** `elements.map(el => el.id === id ? update(el) : el)`: only entries with that id change. */
  function MapId(s: seq<Element>, id: nat, update: Element -> Element): (r: seq<Element>)
    ensures |r| == |s|
    ensures forall i :: 0 <= i < |s| ==> r[i] == (if s[i].id == id then update(s[i]) else s[i])
  {
    seq(|s|, i requires 0 <= i < |s| => if s[i].id == id then update(s[i]) else s[i])
  }

  /** An update that keeps ids and zIndexes keeps the invariant. */
  lemma MapIdKeepsStore(s: seq<Element>, nextId: nat, id: nat, update: Element -> Element)
    requires ValidStore(s, nextId)
    requires forall e :: update(e).id == e.id && update(e).zIndex == e.zIndex
    ensures ValidStore(MapId(s, id, update), nextId)
    ensures forall j :: HasId(s, j) <==> HasId(MapId(s, id, update), j)
  {
    var r := MapId(s, id, update);
    assert forall i :: 0 <= i < |s| ==> r[i].id == s[i].id;
  }

  // ---------------------------------------------------------------- hit test

  /** The closed box `[x, x + width] x [y, y + height]` contains `p`. */
  predicate Contains(el: Element, p: Point)
  {
    BoxContains(BoxOf(el), p)
  }

  /**
   * `[...elements].reverse().find(el => contains(el, p))`, as an index into the list:
   * the last element in list order whose box contains `p`, or none when no box does.
   */
  function HitTest(s: seq<Element>, p: Point): (r: Option<nat>)
    ensures r.Some? ==> r.value < |s| && Contains(s[r.value], p)
    ensures r.Some? ==> forall j :: r.value < j < |s| ==> !Contains(s[j], p)
    ensures r.None? ==> forall j :: 0 <= j < |s| ==> !Contains(s[j], p)
    decreases |s|
  {
    if s == [] then None
    else if Contains(s[|s| - 1], p) then Some(|s| - 1)
    else HitTest(s[..|s| - 1], p)
  }

  /** Over a valid store the hit is the containing element with the highest zIndex. */
  lemma HitIsTopmost(s: seq<Element>, nextId: nat, p: Point)
    requires ValidStore(s, nextId)
    requires HitTest(s, p).Some?
    ensures forall j :: 0 <= j < |s| && Contains(s[j], p) && j != HitTest(s, p).value ==>
              s[j].zIndex < s[HitTest(s, p).value].zIndex
  {
  }

  // ---------------------------------------------------------------- resize handles

  /** The eight resize handles: corners, then edge midpoints. */
  datatype Handle = NW | NE | SW | SE | N | S | W | E

  /** The order in which the handles are tried; the first match wins. */
  const HANDLE_ORDER: seq<Handle> := [NW, NE, SW, SE, N, S, W, E]

  /** Half the side of a handle's square hit zone, in world units. */
  const HANDLE_SIZE: real := 10.0

  /** The letters of a handle's name, as `resizeHandle.includes(letter)` tests them. */
  predicate HasNorth(h: Handle) { h == NW || h == NE || h == N }
  predicate HasSouth(h: Handle) { h == SW || h == SE || h == S }
  predicate HasWest(h: Handle) { h == NW || h == SW || h == W }
  predicate HasEast(h: Handle) { h == NE || h == SE || h == E }

  function HandleCenter(el: Element, h: Handle): Point
  {
    match h
    case NW => Point(el.x, el.y)
    case NE => Point(el.x + el.width, el.y)
    case SW => Point(el.x, el.y + el.height)
    case SE => Point(el.x + el.width, el.y + el.height)
    case N => Point(el.x + el.width / 2.0, el.y)
    case S => Point(el.x + el.width / 2.0, el.y + el.height)
    case W => Point(el.x, el.y + el.height / 2.0)
    case E => Point(el.x + el.width, el.y + el.height / 2.0)
  }

  /** `p` lies in the open square of half-side 10 around the handle's centre. */
  predicate NearHandle(el: Element, p: Point, h: Handle)
  {
    var c := HandleCenter(el, h);
    Abs(p.x - c.x) < HANDLE_SIZE && Abs(p.y - c.y) < HANDLE_SIZE
  }

  /**
   * The position of the first handle of `hs`, from position `i` on, that `p` is
   * near: every handle between `i` and it is not near; none exactly when no handle
   * from `i` on is near.
   */
  function FirstNear(el: Element, p: Point, hs: seq<Handle>, i: nat): (r: Option<nat>)
    requires i <= |hs|
    ensures r.Some? ==> i <= r.value < |hs| && NearHandle(el, p, hs[r.value])
    ensures r.Some? ==> forall j :: i <= j < r.value ==> !NearHandle(el, p, hs[j])
    ensures r.None? ==> forall j :: i <= j < |hs| ==> !NearHandle(el, p, hs[j])
    decreases |hs| - i
  {
    if i == |hs| then None
    else if NearHandle(el, p, hs[i]) then Some(i)
    else FirstNear(el, p, hs, i + 1)
  }

  /** The handle `getResizeHandle` reports for a press at `p` on `el`. */
  function HandleAt(el: Element, p: Point): Option<Handle>
  {
    match FirstNear(el, p, HANDLE_ORDER, 0)
    case Some(k) => Some(HANDLE_ORDER[k])
    case None => None
  }

  /**
   * `getResizeHandle`: walks the handle table in its fixed order and returns the
   * first handle whose hit zone contains `p`: that handle is near `p` and every
   * handle before it in the table is not; none when no handle is near.
   */
  method GetResizeHandle(el: Element, p: Point) returns (r: Option<Handle>)
    ensures r == HandleAt(el, p)
    ensures r.Some? ==> NearHandle(el, p, r.value)
    ensures r.Some? ==> forall j :: 0 <= j < |HANDLE_ORDER| && HANDLE_ORDER[j] == r.value ==>
              forall k :: 0 <= k < j ==> !NearHandle(el, p, HANDLE_ORDER[k])
    ensures r.None? <==> forall j :: 0 <= j < |HANDLE_ORDER| ==> !NearHandle(el, p, HANDLE_ORDER[j])
  {
    var i := 0;
    while i < |HANDLE_ORDER|
      invariant 0 <= i <= |HANDLE_ORDER|
      invariant FirstNear(el, p, HANDLE_ORDER, 0) == FirstNear(el, p, HANDLE_ORDER, i)
    {
      if NearHandle(el, p, HANDLE_ORDER[i]) {
        return Some(HANDLE_ORDER[i]);
      }
      i := i + 1;
    }
    return None;
  }

  // ---------------------------------------------------------------- resize, drag, arrow

  /** No resize makes a side shorter than this. */
  const MIN_SIZE: real := 50.0

  /**
   * One resize step by the pointer delta `(dx, dy)` since the previous step.
   * East handles move the right edge and west handles the left edge, south handles
   * the bottom edge and north handles the top edge; the resized side never drops
   * below 50. A west or north handle moves the position by the full delta even when
   * the side is clamped, which then pushes the opposite edge outwards.
   */
  function Resized(el: Element, h: Handle, dx: real, dy: real): (r: Element)
    ensures HasEast(h) || HasWest(h) ==> r.width >= MIN_SIZE
    ensures HasNorth(h) || HasSouth(h) ==> r.height >= MIN_SIZE
    ensures HasEast(h) ==> r.x == el.x && r.width == Max(MIN_SIZE, el.width + dx)
    ensures HasWest(h) ==> r.x == el.x + dx && r.width == Max(MIN_SIZE, el.width - dx)
    ensures HasSouth(h) ==> r.y == el.y && r.height == Max(MIN_SIZE, el.height + dy)
    ensures HasNorth(h) ==> r.y == el.y + dy && r.height == Max(MIN_SIZE, el.height - dy)
    ensures HasWest(h) && el.width - dx >= MIN_SIZE ==> r.x + r.width == el.x + el.width
    ensures HasWest(h) && el.width - dx < MIN_SIZE ==> r.x + r.width > el.x + el.width
    ensures HasNorth(h) && el.height - dy >= MIN_SIZE ==> r.y + r.height == el.y + el.height
    ensures HasNorth(h) && el.height - dy < MIN_SIZE ==> r.y + r.height > el.y + el.height
    ensures !HasEast(h) && !HasWest(h) ==> r.x == el.x && r.width == el.width
    ensures !HasNorth(h) && !HasSouth(h) ==> r.y == el.y && r.height == el.height
    ensures r == el.(x := r.x, y := r.y, width := r.width, height := r.height)
  {
    var r1 := if HasEast(h) then el.(width := Max(MIN_SIZE, el.width + dx)) else el;
    var r2 := if HasWest(h) then r1.(width := Max(MIN_SIZE, el.width - dx), x := el.x + dx) else r1;
    var r3 := if HasSouth(h) then r2.(height := Max(MIN_SIZE, el.height + dy)) else r2;
    if HasNorth(h) then r3.(height := Max(MIN_SIZE, el.height - dy), y := el.y + dy) else r3
  }

  /**
   * Resizing is incremental: two steps whose sizes stay above the floor equal one
   * step by the summed delta.
   */
  lemma ResizeSteps(el: Element, h: Handle, dx1: real, dy1: real, dx2: real, dy2: real)
    requires HasEast(h) ==> el.width + dx1 >= MIN_SIZE && el.width + dx1 + dx2 >= MIN_SIZE
    requires HasWest(h) ==> el.width - dx1 >= MIN_SIZE && el.width - dx1 - dx2 >= MIN_SIZE
    requires HasSouth(h) ==> el.height + dy1 >= MIN_SIZE && el.height + dy1 + dy2 >= MIN_SIZE
    requires HasNorth(h) ==> el.height - dy1 >= MIN_SIZE && el.height - dy1 - dy2 >= MIN_SIZE
    ensures Resized(Resized(el, h, dx1, dy1), h, dx2, dy2) == Resized(el, h, dx1 + dx2, dy1 + dy2)
  {
  }

  /** The offset from an element's origin to the point where it was grabbed. */
  function GrabOffset(el: Element, p: Point): Point
  {
    Point(p.x - el.x, p.y - el.y)
  }

  /**
   * The dragged element: its origin is the pointer minus the grab offset, and
   * nothing but its position changes.
   */
  function Dragged(el: Element, p: Point, offset: Point): (r: Element)
    ensures r.x + offset.x == p.x && r.y + offset.y == p.y
    ensures r == el.(x := r.x, y := r.y)
  {
    el.(x := p.x - offset.x, y := p.y - offset.y)
  }

  /**
   * Dragging is absolute: moving back to the point where the element was grabbed
   * puts it back where it was, whatever happened in between.
   */
  lemma DragBackRestores(el: Element, moved: Element, p: Point)
    requires moved == el.(x := moved.x, y := moved.y)
    ensures Dragged(moved, p, GrabOffset(el, p)) == el
  {
  }

  /** An arrow is created only when its envelope exceeds this on some axis. */
  const ARROW_THRESHOLD: real := 10.0

  /**
   * The box of an arrow drawn from `start` to `end`: the envelope of the two points
   * with each side raised to at least 50, or none when the drag moved no more than 10
   * on both axes. The box contains both end points.
   */
  function ArrowEnvelope(start: Point, end: Point): (b: Option<Box>)
    ensures b.Some? <==> Abs(end.x - start.x) > ARROW_THRESHOLD || Abs(end.y - start.y) > ARROW_THRESHOLD
    ensures b.Some? ==> b.value.x == Min(start.x, end.x) && b.value.y == Min(start.y, end.y)
    ensures b.Some? ==> b.value.width == Max(Abs(end.x - start.x), MIN_SIZE)
    ensures b.Some? ==> b.value.height == Max(Abs(end.y - start.y), MIN_SIZE)
    ensures b.Some? ==> BoxContains(b.value, start) && BoxContains(b.value, end)
  {
    var width := Abs(end.x - start.x);
    var height := Abs(end.y - start.y);
    if width > ARROW_THRESHOLD || height > ARROW_THRESHOLD then
      Some(Box(Min(start.x, end.x), Min(start.y, end.y), Max(width, MIN_SIZE), Max(height, MIN_SIZE)))
    else
      None
  }

  /** The element made from an envelope keeps the drawn end points verbatim and is hit at both. */
  lemma ArrowElementHitAtEnds(id: nat, start: Point, end: Point)
    requires ArrowEnvelope(start, end).Some?
    ensures var el := ArrowElement(id, start, end, ArrowEnvelope(start, end).value);
            el.kind.startPoint == start && el.kind.endPoint == end &&
            Contains(el, start) && Contains(el, end) &&
            el.width >= MIN_SIZE && el.height >= MIN_SIZE
  {
  }
}
