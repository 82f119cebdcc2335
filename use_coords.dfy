/** Placement of a floating menu or tooltip (the target) next to the element
    that opened it (the origin), from src/universal/hooks/useCoords.ts.

    Pixel values are `real`: the source only adds, subtracts, takes a minimum
    and compares with a strict `<`, so no rounding is involved. The browser
    values the source reads from `window` and `document` are the explicit
    `Viewport` argument, and the unseen helper `getOffset` is the explicit
    `getOffset` argument. */
module UseCoords {
  import opened Wrappers

  datatype MenuPosition = UpperLeft | UpperRight | LowerLeft | LowerRight

  /** The anchor words of `ModalAnchor`, the type `getOffset` accepts;
      `Center` is the word both axes share. */
  datatype Side = Left | Center | Right | Top | Bottom

  /** `HorizontalAnchor`: `left`, `center` or `right`. */
  type HorizontalSide = s: Side | s == Left || s == Center || s == Right witness Left

  /** `VerticalAnchor`: `top`, `center` or `bottom`. */
  type VerticalSide = s: Side | s == Top || s == Center || s == Bottom witness Top

  datatype ModalAnchor = ModalAnchor(horizontal: HorizontalSide, vertical: VerticalSide)

  datatype AnchorPair = AnchorPair(targetAnchor: ModalAnchor, originAnchor: ModalAnchor)

  /** A measured box: `getBBox` for the layout, `getBoundingClientRect` on resize. */
  datatype BBox = BBox(top: real, left: real, width: real, height: real)

  /** `window.scrollX`, `window.scrollY`, `window.innerHeight` and
      `document.documentElement.clientWidth`. */
  datatype Viewport = Viewport(scrollX: real, scrollY: real, innerHeight: real, pageWidth: real)

  /** `UseCoordsValue`: exactly one horizontal and exactly one vertical key. */
  datatype Horizontal = LeftAt(left: real) | RightAt(right: real)
  datatype Vertical = TopAt(top: real) | BottomAt(bottom: real)
  datatype Coords = Coords(horizontal: Horizontal, vertical: Vertical)

  /** `CoordState`; `menuPosition` is `None` where the source stores `undefined`. */
  datatype CoordState = CoordState(coords: Coords, menuPosition: Option<MenuPosition>)

  /** The signature of `getOffset(anchor, size)`. */
  type Offset = (Side, real) -> real

  /** The offsets `getOffset` is expected to give for the four edge words:
      nothing from the left or top edge, the whole size from the right or
      bottom edge. Only `UpperLeftUnderOrigin` and `UpperRightAlignsRightEdges`
      assume it; the worked examples pass such a function themselves. */
  ghost predicate EdgeOffsets(getOffset: Offset)
  {
    forall size: real ::
      getOffset(Left, size) == 0.0 && getOffset(Top, size) == 0.0 &&
      getOffset(Right, size) == size && getOffset(Bottom, size) == size
  }

  function Min(a: real, b: real): real
  {
    if a <= b then a else b
  }

  /** `anchorLookup`: which edges of the target attach to which edges of the origin. */
  function AnchorLookup(p: MenuPosition): (a: AnchorPair)
    ensures a.targetAnchor.horizontal == a.originAnchor.horizontal
    ensures a.targetAnchor.horizontal == Right <==> p == UpperRight || p == LowerRight
    ensures a.targetAnchor.horizontal == Left <==> p == UpperLeft || p == LowerLeft
    ensures a.targetAnchor.vertical == Top <==> p == UpperLeft || p == UpperRight
    ensures a.targetAnchor.vertical == Bottom <==> p == LowerLeft || p == LowerRight
    ensures a.originAnchor.vertical == Bottom <==> a.targetAnchor.vertical == Top
    ensures a.originAnchor.vertical == Top <==> a.targetAnchor.vertical == Bottom
  {
    match p
    case UpperLeft => AnchorPair(ModalAnchor(Left, Top), ModalAnchor(Left, Bottom))
    case UpperRight => AnchorPair(ModalAnchor(Right, Top), ModalAnchor(Right, Bottom))
    case LowerLeft => AnchorPair(ModalAnchor(Left, Bottom), ModalAnchor(Left, Top))
    case LowerRight => AnchorPair(ModalAnchor(Right, Bottom), ModalAnchor(Right, Top))
  }

  /** `lowerLookup`: the position a menu flips to when it does not fit below
      its origin. It has entries for the two upper positions only. */
  function LowerLookup(p: MenuPosition): (q: Option<MenuPosition>)
    ensures q.Some? <==> AnchorLookup(p).targetAnchor.vertical == Top
    ensures q.Some? ==> AnchorLookup(q.value).targetAnchor.vertical == Bottom
    ensures q.Some? ==> AnchorLookup(q.value).targetAnchor.horizontal == AnchorLookup(p).targetAnchor.horizontal
  {
    match p
    case UpperLeft => Some(LowerLeft)
    case UpperRight => Some(LowerRight)
    case LowerLeft => None
    case LowerRight => None
  }

  /** The left coordinate before the clamp to the page's right edge. */
  function UnclampedLeft(target: BBox, origin: BBox, anchors: AnchorPair, view: Viewport, getOffset: Offset): real
  {
    view.scrollX + origin.left + getOffset(anchors.originAnchor.horizontal, origin.width)
      - getOffset(anchors.targetAnchor.horizontal, target.width)
  }

  /** The right coordinate before the clamp to the page's left edge. */
  function UnclampedRight(origin: BBox, anchors: AnchorPair, view: Viewport, getOffset: Offset): real
  {
    view.pageWidth - (origin.left + getOffset(anchors.originAnchor.horizontal, origin.width)) - view.scrollX
  }

  /** The top coordinate that places the target below its origin. */
  function UnclampedTop(target: BBox, origin: BBox, anchors: AnchorPair, view: Viewport, getOffset: Offset): real
  {
    view.scrollY + origin.top + getOffset(anchors.originAnchor.vertical, origin.height)
      - getOffset(anchors.targetAnchor.vertical, target.height)
  }

  /** Whether the target placed by its top edge ends above the viewport's bottom. */
  predicate FitsBelow(target: BBox, origin: BBox, anchors: AnchorPair, view: Viewport, getOffset: Offset)
  {
    UnclampedTop(target, origin, anchors, view, getOffset) + target.height < view.innerHeight + view.scrollY
  }

  /** The horizontal half of `getNextCoords`: it never changes side, it only
      clamps so that the target does not overflow the page. */
  function HorizontalCoord(target: BBox, origin: BBox, anchors: AnchorPair, view: Viewport, getOffset: Offset): (h: Horizontal)
    ensures h.LeftAt? <==> anchors.targetAnchor.horizontal != Right
    ensures h.LeftAt? ==>
      var unclamped := UnclampedLeft(target, origin, anchors, view, getOffset);
      var maxLeft := view.pageWidth - target.width + view.scrollX;
      h.left <= unclamped && h.left <= maxLeft && (h.left == unclamped || h.left == maxLeft)
    ensures h.RightAt? ==>
      var unclamped := UnclampedRight(origin, anchors, view, getOffset);
      var maxRight := view.pageWidth - target.width - view.scrollX;
      h.right <= unclamped && h.right <= maxRight && (h.right == unclamped || h.right == maxRight)
  {
    if anchors.targetAnchor.horizontal != Right then
      LeftAt(Min(UnclampedLeft(target, origin, anchors, view, getOffset), view.pageWidth - target.width + view.scrollX))
    else
      RightAt(Min(UnclampedRight(origin, anchors, view, getOffset), view.pageWidth - target.width - view.scrollX))
  }

  /** `getNextCoords`: place the target at the preferred corner of its origin;
      keep it below the origin only when it fits, otherwise anchor it from the
      bottom and report the flipped position. */
  function GetNextCoords(target: BBox, origin: BBox, preferred: MenuPosition, view: Viewport, getOffset: Offset): (r: CoordState)
    ensures r.coords.horizontal == HorizontalCoord(target, origin, AnchorLookup(preferred), view, getOffset)
    ensures r.coords.vertical.TopAt? <==>
      AnchorLookup(preferred).targetAnchor.vertical != Bottom && FitsBelow(target, origin, AnchorLookup(preferred), view, getOffset)
    ensures r.coords.vertical.TopAt? ==>
      && r.coords.vertical.top == UnclampedTop(target, origin, AnchorLookup(preferred), view, getOffset)
      && r.coords.vertical.top + target.height < view.innerHeight + view.scrollY
      && r.menuPosition == Some(preferred)
    ensures r.coords.vertical.BottomAt? ==>
      var unclamped := view.innerHeight - origin.top - view.scrollY;
      var maxBottom := view.innerHeight - target.height + view.scrollY;
      && r.coords.vertical.bottom <= unclamped
      && r.coords.vertical.bottom <= maxBottom
      && (r.coords.vertical.bottom == unclamped || r.coords.vertical.bottom == maxBottom)
      && r.menuPosition == LowerLookup(preferred)
  {
    var anchors := AnchorLookup(preferred);
    var horizontal := HorizontalCoord(target, origin, anchors, view, getOffset);
    if anchors.targetAnchor.vertical != Bottom && FitsBelow(target, origin, anchors, view, getOffset) then
      CoordState(Coords(horizontal, TopAt(UnclampedTop(target, origin, anchors, view, getOffset))), Some(preferred))
    else
      var bottom := Min(view.innerHeight - origin.top - view.scrollY, view.innerHeight - target.height + view.scrollY);
      CoordState(Coords(horizontal, BottomAt(bottom)), LowerLookup(preferred))
  }

  /** An upper position that does not fit below its origin flips to the lower
      position on the same side, anchored from the bottom. */
  lemma FlipLaw(target: BBox, origin: BBox, preferred: MenuPosition, view: Viewport, getOffset: Offset)
    requires preferred == UpperLeft || preferred == UpperRight
    requires !FitsBelow(target, origin, AnchorLookup(preferred), view, getOffset)
    ensures GetNextCoords(target, origin, preferred, view, getOffset).coords.vertical.BottomAt?
    ensures GetNextCoords(target, origin, preferred, view, getOffset).menuPosition
         == Some(if preferred == UpperLeft then LowerLeft else LowerRight)
  {
  }

  /** A flipped placement has exactly the coordinates of asking for the lower
      position outright: the horizontal key and value do not move. */
  lemma FlipMatchesLowerPosition(target: BBox, origin: BBox, preferred: MenuPosition, view: Viewport, getOffset: Offset)
    requires preferred == UpperLeft || preferred == UpperRight
    requires !FitsBelow(target, origin, AnchorLookup(preferred), view, getOffset)
    ensures LowerLookup(preferred).Some?
    ensures GetNextCoords(target, origin, preferred, view, getOffset).coords
         == GetNextCoords(target, origin, LowerLookup(preferred).value, view, getOffset).coords
  {
  }

  /** The lower positions never try the top edge: they are always anchored
      from the bottom, and `lowerLookup` leaves their menu position undefined. */
  lemma LowerPositionsAnchorFromBottom(target: BBox, origin: BBox, preferred: MenuPosition, view: Viewport, getOffset: Offset)
    requires preferred == LowerLeft || preferred == LowerRight
    ensures GetNextCoords(target, origin, preferred, view, getOffset).coords.vertical.BottomAt?
    ensures GetNextCoords(target, origin, preferred, view, getOffset).menuPosition == None
  {
  }

  /** With the edge offsets, an upper-left menu that fits sits right under the
      origin's bottom edge, its left edge on the origin's left edge unless that
      would overflow the page. */
  lemma UpperLeftUnderOrigin(target: BBox, origin: BBox, view: Viewport, getOffset: Offset)
    requires EdgeOffsets(getOffset)
    requires view.scrollY + origin.top + origin.height + target.height < view.innerHeight + view.scrollY
    ensures GetNextCoords(target, origin, UpperLeft, view, getOffset)
         == CoordState(Coords(LeftAt(Min(view.scrollX + origin.left, view.pageWidth - target.width + view.scrollX)),
                              TopAt(view.scrollY + origin.top + origin.height)),
                       Some(UpperLeft))
  {
  }

  /** With the edge offsets, an upper-right menu is right-aligned with the
      origin's right edge, measured from the page's right edge. */
  lemma UpperRightAlignsRightEdges(target: BBox, origin: BBox, view: Viewport, getOffset: Offset)
    requires EdgeOffsets(getOffset)
    ensures GetNextCoords(target, origin, UpperRight, view, getOffset).coords.horizontal
         == RightAt(Min(view.pageWidth - (origin.left + origin.width) - view.scrollX, view.pageWidth - target.width - view.scrollX))
  {
  }

  /** An origin 500 px down a 600 px viewport, with a 300 px menu: the menu
      placed under the origin's bottom edge (520) would end at 820, so it
      flips above the origin and is anchored 100 px from the bottom. */
  lemma ExampleFlipAboveOrigin()
    ensures
      var edge := (s: Side, size: real) => if s == Right || s == Bottom then size else 0.0;
      GetNextCoords(BBox(0.0, 0.0, 200.0, 300.0), BBox(500.0, 100.0, 50.0, 20.0), UpperLeft,
                    Viewport(0.0, 0.0, 600.0, 1000.0), edge)
      == CoordState(Coords(LeftAt(100.0), BottomAt(100.0)), Some(LowerLeft))
  {
  }

  /** The same menu under an origin 220 px down is placed at 240 and ends at
      540 < 600, so it stays below the origin. */
  lemma ExampleStaysBelowOrigin()
    ensures
      var edge := (s: Side, size: real) => if s == Right || s == Bottom then size else 0.0;
      GetNextCoords(BBox(0.0, 0.0, 200.0, 300.0), BBox(220.0, 100.0, 50.0, 20.0), UpperLeft,
                    Viewport(0.0, 0.0, 600.0, 1000.0), edge)
      == CoordState(Coords(LeftAt(100.0), TopAt(240.0)), Some(UpperLeft))
  {
  }

  /** The coordinate state the hook holds, and its rewrite on window resize. */
  class CoordsHook {
    var state: CoordState

    /** The initial state: `{left: 0, top: 0}` at the preferred position. */
    constructor (preferred: MenuPosition)
      ensures state == CoordState(Coords(LeftAt(0.0), TopAt(0.0)), Some(preferred))
    {
      state := CoordState(Coords(LeftAt(0.0), TopAt(0.0)), Some(preferred));
    }

    /** `resizeWindow`: when a target element exists (`targetRect` is its
        bounding client rectangle) and the coordinates use `right` or
        `bottom`, replace them by the rectangle's `left` and `top`, keeping
        the menu position; otherwise change nothing. */
    method ResizeWindow(targetRect: Option<BBox>)
      modifies this
      ensures targetRect.Some? && (old(state).coords.horizontal.RightAt? || old(state).coords.vertical.BottomAt?) ==>
        state == CoordState(Coords(LeftAt(targetRect.value.left), TopAt(targetRect.value.top)), old(state).menuPosition)
      ensures targetRect.None? || (old(state).coords.horizontal.LeftAt? && old(state).coords.vertical.TopAt?) ==>
        state == old(state)
      ensures targetRect.Some? ==> state.coords.horizontal.LeftAt? && state.coords.vertical.TopAt?
      ensures state.menuPosition == old(state).menuPosition
    {
      if targetRect.Some? && (state.coords.horizontal.RightAt? || state.coords.vertical.BottomAt?) {
        state := CoordState(Coords(LeftAt(targetRect.value.left), TopAt(targetRect.value.top)), state.menuPosition);
      }
    }
  }
}
