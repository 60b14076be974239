/**
 * List virtualization (src/utils/virtualization.ts): which item indices are
 * rendered for a scroll position, where each item is placed, and the scroll
 * state the hook keeps. Sizes and scroll offsets are whole pixels.
 */
module Virtualization {
  import opened Wrappers

  datatype Direction = Horizontal | Vertical

  /** Overscan used when the caller gives none. */
  const DefaultOverscan: int := 5

  /** Last index rendered before the container element exists, unless the list is shorter. */
  const UnmountedLastIndex: int := 20

  function Min(a: int, b: int): int {
    if a <= b then a else b
  }

  function Max(a: int, b: int): int {
    if a >= b then a else b
  }

  /** `Math.floor(a / b)` for a positive divisor (Dafny's `/` is Euclidean, which agrees here). */
  function FloorDiv(a: int, b: int): (q: int)
    requires b > 0
    ensures q * b <= a < q * b + b
  {
    a / b
  }

  /** `Math.ceil(a / b)` for a positive divisor. */
  function CeilDiv(a: int, b: int): (q: int)
    requires b > 0
    ensures q * b - b < a <= q * b
  {
    var f := (-a) / b;
    assert f * b <= -a < f * b + b;
    -f
  }

  /** Multiplying by a positive number preserves strict order, and so can be undone. */
  lemma MulCancelLess(a: int, b: int, s: int)
    requires s > 0 && a * s < b * s
    ensures a < b
  {
  }

  /** Multiplying by a positive number preserves order. */
  lemma MulLeq(a: int, b: int, s: int)
    requires s > 0 && a <= b
    ensures a * s <= b * s
  {
    assert b * s - a * s == (b - a) * s;
  }

  lemma MulSucc(i: int, s: int)
    ensures (i + 1) * s == i * s + s
  {
  }

  datatype VisibleRange = VisibleRange(startIndex: int, endIndex: int)

  /**
   * `getVisibleRange()`. `viewport` is `None` until the container element
   * exists, and otherwise its client width (horizontal) or height (vertical).
   */
  function GetVisibleRange(itemCount: int, itemSize: int, overscan: int,
                           viewport: Option<int>, scrollPosition: int): (r: VisibleRange)
    requires itemSize > 0
    ensures viewport.None? ==> r == VisibleRange(0, Min(itemCount - 1, UnmountedLastIndex))
    ensures r.startIndex >= 0
    ensures r.endIndex <= itemCount - 1
  {
    match viewport
    case None => VisibleRange(0, Min(itemCount - 1, UnmountedLastIndex))
    case Some(viewportSize) =>
      VisibleRange(Max(0, FloorDiv(scrollPosition, itemSize) - overscan),
                   Min(itemCount - 1, CeilDiv(scrollPosition + viewportSize, itemSize) + overscan))
  }

  /** `Array.from({ length: endIndex - startIndex + 1 }, (_, i) => startIndex + i)`. */
  function VisibleItems(r: VisibleRange): (items: seq<int>)
    ensures |items| == Max(0, r.endIndex - r.startIndex + 1)
    ensures forall k :: 0 <= k < |items| ==> items[k] == r.startIndex + k
  {
    var n := Max(0, r.endIndex - r.startIndex + 1);
    seq(n, k requires 0 <= k < n => r.startIndex + k)
  }

  /** The visible items are exactly the indices from the start to the end of the range. */
  lemma VisibleItemsMembership(r: VisibleRange, x: int)
    ensures x in VisibleItems(r) <==> r.startIndex <= x <= r.endIndex
  {
    var items := VisibleItems(r);
    if r.startIndex <= x <= r.endIndex {
      assert items[x - r.startIndex] == x;
    }
  }

  /** Every rendered index names an existing item. */
  lemma VisibleItemsInBounds(itemCount: int, itemSize: int, overscan: int,
                             viewport: Option<int>, scrollPosition: int, x: int)
    requires itemSize > 0
    requires x in VisibleItems(GetVisibleRange(itemCount, itemSize, overscan, viewport, scrollPosition))
    ensures 0 <= x < itemCount
  {
    VisibleItemsMembership(GetVisibleRange(itemCount, itemSize, overscan, viewport, scrollPosition), x);
  }

  /**
   * The converse of `RangeCoversViewport`: every rendered item lies within
   * `overscan + 1` item lengths of the viewport on either side.
   */
  lemma RangeStaysNearViewport(itemCount: int, itemSize: int, overscan: int, viewport: int,
                               scrollPosition: int, k: int)
    requires itemSize > 0
    requires k in VisibleItems(GetVisibleRange(itemCount, itemSize, overscan, Some(viewport), scrollPosition))
    ensures scrollPosition - (overscan + 1) * itemSize < k * itemSize
    ensures k * itemSize < scrollPosition + viewport + (overscan + 1) * itemSize
  {
    var r := GetVisibleRange(itemCount, itemSize, overscan, Some(viewport), scrollPosition);
    VisibleItemsMembership(r, k);
    var f := FloorDiv(scrollPosition, itemSize);
    var c := CeilDiv(scrollPosition + viewport, itemSize);
    assert f - overscan <= k && k <= c + overscan;
    assert (f - overscan) * itemSize <= k * itemSize by {
      MulLeq(f - overscan, k, itemSize);
    }
    assert k * itemSize <= (c + overscan) * itemSize by {
      MulLeq(k, c + overscan, itemSize);
    }
  }

  /**
   * The overscan promise: every existing item within `overscan + 1` item
   * lengths of the viewport on either side is rendered. With
   * `RangeStaysNearViewport` this characterises the rendered items exactly.
   */
  lemma OverscanItemsRendered(itemCount: int, itemSize: int, overscan: int, viewport: int,
                              scrollPosition: int, k: int)
    requires itemSize > 0 && 0 <= k < itemCount
    requires scrollPosition - (overscan + 1) * itemSize < k * itemSize
    requires k * itemSize < scrollPosition + viewport + (overscan + 1) * itemSize
    ensures k in VisibleItems(GetVisibleRange(itemCount, itemSize, overscan, Some(viewport), scrollPosition))
  {
    var f := FloorDiv(scrollPosition, itemSize);
    var c := CeilDiv(scrollPosition + viewport, itemSize);
    assert (f - overscan - 1) * itemSize == f * itemSize - (overscan + 1) * itemSize;
    MulCancelLess(f - overscan - 1, k, itemSize);
    assert (c + overscan + 1) * itemSize == c * itemSize + (overscan + 1) * itemSize;
    MulCancelLess(k, c + overscan + 1, itemSize);
    VisibleItemsMembership(GetVisibleRange(itemCount, itemSize, overscan, Some(viewport), scrollPosition), k);
  }

  /** `getVirtualItemStyle(index, itemSize, direction)`: offset and length along the list's axis. */
  datatype ItemStyle = ItemStyle(direction: Direction, offset: int, length: int)

  /** A missing `direction` argument takes the default `'vertical'`. */
  function GetVirtualItemStyle(index: int, itemSize: int, direction: Option<Direction>): ItemStyle {
    ItemStyle(direction.GetOr(Vertical), index * itemSize, itemSize)
  }

  /** Consecutive items abut, and earlier items never overlap later ones. */
  lemma {:induction false} ItemsTile(i: int, j: int, itemSize: int, direction: Option<Direction>)
    requires i < j && itemSize >= 0
    ensures var a, b := GetVirtualItemStyle(i, itemSize, direction), GetVirtualItemStyle(j, itemSize, direction);
            a.offset + a.length <= b.offset
            && (j == i + 1 ==> a.offset + a.length == b.offset)
    decreases j - i
  {
    MulSucc(i, itemSize);
    if j > i + 1 {
      ItemsTile(i + 1, j, itemSize, direction);
    }
  }

  /**
   * Every existing item that is at least partly inside the viewport
   * `[scrollPosition, scrollPosition + viewport)` lies in the visible range.
   */
  lemma RangeCoversViewport(itemCount: int, itemSize: int, overscan: int, viewport: int,
                            scrollPosition: int, k: int, direction: Option<Direction>)
    requires itemSize > 0 && overscan >= 0 && 0 <= k < itemCount
    requires var style := GetVirtualItemStyle(k, itemSize, direction);
             style.offset < scrollPosition + viewport && scrollPosition < style.offset + style.length
    ensures var r := GetVisibleRange(itemCount, itemSize, overscan, Some(viewport), scrollPosition);
            r.startIndex <= k <= r.endIndex && k in VisibleItems(r)
  {
    var f := FloorDiv(scrollPosition, itemSize);
    var c := CeilDiv(scrollPosition + viewport, itemSize);
    assert f * itemSize < (k + 1) * itemSize;
    MulCancelLess(f, k + 1, itemSize);
    assert k * itemSize < c * itemSize;
    MulCancelLess(k, c, itemSize);
    VisibleItemsMembership(GetVisibleRange(itemCount, itemSize, overscan, Some(viewport), scrollPosition), k);
  }

  /** After scrolling to item `i`, the range starts `overscan` items before it and shows it. */
  lemma ScrolledToItemIsVisible(itemCount: int, itemSize: int, overscan: int, viewport: int, i: int)
    requires itemSize > 0 && overscan >= 0 && viewport > 0 && 0 <= i < itemCount
    ensures var r := GetVisibleRange(itemCount, itemSize, overscan, Some(viewport), i * itemSize);
            r.startIndex == Max(0, i - overscan) && i in VisibleItems(r)
  {
    var f := FloorDiv(i * itemSize, itemSize);
    assert f * itemSize <= i * itemSize < f * itemSize + itemSize;
    MulCancelLess(f, i + 1, itemSize);
    MulCancelLess(i, f + 1, itemSize);
    RangeCoversViewport(itemCount, itemSize, overscan, viewport, i * itemSize, i, None);
  }

  /** The scrollable container element; only the fields the hook uses. */
  class Container {
    var scrollLeft: int
    var scrollTop: int
    var clientWidth: int
    var clientHeight: int

    constructor (clientWidth: int, clientHeight: int)
      ensures this.clientWidth == clientWidth && this.clientHeight == clientHeight
      ensures scrollLeft == 0 && scrollTop == 0
    {
      this.clientWidth := clientWidth;
      this.clientHeight := clientHeight;
      scrollLeft := 0;
      scrollTop := 0;
    }
  }

  /** The state of one `useVirtualization` hook instance. */
  class Virtualizer {
    const itemCount: int
    const itemSize: int
    const overscan: int
    const direction: Direction
    /** `containerRef.current`: null until the element is mounted. */
    var container: Container?
    var scrollPosition: int

    constructor (itemCount: int, itemSize: int, overscan: Option<int>, direction: Option<Direction>)
      requires itemSize > 0
      ensures this.itemCount == itemCount && this.itemSize == itemSize
      ensures this.overscan == overscan.GetOr(DefaultOverscan)
      ensures this.direction == direction.GetOr(Vertical)
      ensures container == null && scrollPosition == 0
    {
      this.itemCount := itemCount;
      this.itemSize := itemSize;
      this.overscan := overscan.GetOr(DefaultOverscan);
      this.direction := direction.GetOr(Vertical);
      container := null;
      scrollPosition := 0;
    }

    /** React attaching the element to `containerRef`. */
    method Mount(element: Container)
      modifies this`container
      ensures container == element
    {
      container := element;
    }

    /** The container's extent along the list's axis, if it exists. */
    function Viewport(): Option<int>
      reads this, container
    {
      if container == null then None
      else Some(if direction == Horizontal then container.clientWidth else container.clientHeight)
    }

    /** The range and items of the current render. */
    function Range(): (r: VisibleRange)
      requires itemSize > 0
      reads this, container
      ensures container == null ==> r == VisibleRange(0, Min(itemCount - 1, UnmountedLastIndex))
      ensures r.startIndex >= 0 && r.endIndex <= itemCount - 1
    {
      GetVisibleRange(itemCount, itemSize, overscan, Viewport(), scrollPosition)
    }

    /**
     * Once the scroll position is the offset `ScrollTo(i)` gives the container
     * (and `HandleScroll` reports back), item `i` is rendered, with the range
     * starting `overscan` items before it.
     */
    lemma ScrolledItemIsRendered(i: int)
      requires itemSize > 0 && overscan >= 0 && 0 <= i < itemCount
      requires container != null && Viewport().value > 0
      requires scrollPosition == i * itemSize
      ensures Range().startIndex == Max(0, i - overscan)
      ensures i in VisibleItems(Range())
    {
      ScrolledToItemIsVisible(itemCount, itemSize, overscan, Viewport().value, i);
    }

    /** `handleScroll`: keep the scroll offset along the list's axis. */
    method HandleScroll(target: Container)
      modifies this`scrollPosition
      ensures scrollPosition == if direction == Horizontal then target.scrollLeft else target.scrollTop
    {
      var newPosition := if direction == Horizontal then target.scrollLeft else target.scrollTop;
      scrollPosition := newPosition;
    }

    /** `scrollTo(index)`: move the container so item `index` is at its start; nothing happens before mounting. */
    method ScrollTo(index: int)
      modifies if container == null then {} else {container}
      ensures container != null && direction == Horizontal ==>
                container.scrollLeft == index * itemSize && container.scrollTop == old(container.scrollTop)
      ensures container != null && direction == Vertical ==>
                container.scrollTop == index * itemSize && container.scrollLeft == old(container.scrollLeft)
      ensures container != null ==>
                container.clientWidth == old(container.clientWidth) && container.clientHeight == old(container.clientHeight)
    {
      if container != null {
        var position := index * itemSize;
        if direction == Horizontal {
          container.scrollLeft := position;
        } else {
          container.scrollTop := position;
        }
      }
    }
  }
}
