/** The virtualisation engine: which items of a long list to materialise for a scroll
    offset, the total scrollable size, and scrolling an item into view. Used for the
    row axis and, with column widths in place of row heights, for the column axis. */
module VirtualScroll {

  /** `Math.floor(a / b)` for a positive divisor. */
  function FloorDiv(a: int, b: int): (q: int)
    requires b > 0
    ensures b * q <= a < b * q + b
  {
    a / b
  }

  /** `Math.ceil(a / b)` for a positive divisor. */
  function CeilDiv(a: int, b: int): (q: int)
    requires b > 0
    ensures b * q - b < a <= b * q
  {
    var f := (-a) / b;
    assert b * f <= -a < b * f + b;
    assert b * (-f) == -(b * f);
    -f
  }

  lemma MulMonotone(b: int, x: int, y: int)
    requires b > 0 && x <= y
    ensures b * x <= b * y
  {
    assert b * y - b * x == b * (y - x);
  }

  /** From `b * x < b * y` with a positive `b`, `x < y`. */
  lemma MulStrictCancel(b: int, x: int, y: int)
    requires b > 0 && b * x < b * y
    ensures x < y
  {
    if x >= y {
      MulMonotone(b, y, x);
    }
  }

  /** The floor quotient is the only `k` with `b*k <= a < b*(k+1)`. */
  lemma FloorDivUnique(a: int, b: int, k: int)
    requires b > 0 && b * k <= a < b * k + b
    ensures FloorDiv(a, b) == k
  {
    var q := FloorDiv(a, b);
    assert b * k < b * (q + 1) by { assert b * (q + 1) == b * q + b; }
    assert b * q < b * (k + 1) by { assert b * (k + 1) == b * k + b; }
    MulStrictCancel(b, k, q + 1);
    MulStrictCancel(b, q, k + 1);
  }

  /** First index to materialise: the item under the top edge, less the overscan, at least 0. */
  function StartIndex(scrollTop: int, itemHeight: int, overscan: int): int
    requires itemHeight > 0
  {
    var s := FloorDiv(scrollTop, itemHeight) - overscan;
    if s < 0 then 0 else s
  }

  /** Last index to materialise: the item under the bottom edge, plus the overscan, at most the last index. */
  function EndIndex(itemCount: nat, scrollTop: int, containerHeight: int, itemHeight: int, overscan: int): int
    requires itemHeight > 0
  {
    var e := CeilDiv(scrollTop + containerHeight, itemHeight) + overscan;
    if itemCount - 1 < e then itemCount - 1 else e
  }

  /** One materialised item: its index, its absolute offset and its size. */
  datatype VirtualItem = VirtualItem(index: int, offsetTop: int, height: int)

  /** `items` lists, in order, the items `start..end` (inclusive) laid out at `itemHeight` each. */
  ghost predicate IsWindowOf(items: seq<VirtualItem>, start: int, end: int, itemHeight: int) {
    |items| == (if end < start then 0 else end - start + 1) &&
    forall k :: 0 <= k < |items| ==> items[k] == VirtualItem(start + k, (start + k) * itemHeight, itemHeight)
  }

  /** The total scrollable height of `itemCount` items. */
  function TotalHeight(itemCount: nat, itemHeight: int): int {
    itemCount * itemHeight
  }

  /** The windowing computation: the items to render and the offset of the first one. */
  method ComputeWindow(itemCount: nat, itemHeight: int, containerHeight: int, scrollTop: int, overscan: int)
    returns (items: seq<VirtualItem>, offsetTop: int)
    requires itemHeight > 0
    ensures itemCount == 0 ==> items == [] && offsetTop == 0
    ensures itemCount > 0 ==>
      var start := StartIndex(scrollTop, itemHeight, overscan);
      IsWindowOf(items, start, EndIndex(itemCount, scrollTop, containerHeight, itemHeight, overscan), itemHeight) &&
      offsetTop == start * itemHeight
    ensures forall k :: 0 <= k < |items| ==> 0 <= items[k].index < itemCount
  {
    if itemCount == 0 {
      return [], 0;
    }
    var start := StartIndex(scrollTop, itemHeight, overscan);
    var end := EndIndex(itemCount, scrollTop, containerHeight, itemHeight, overscan);
    items := [];
    var i := start;
    while i <= end
      invariant start <= i
      invariant i <= end + 1 || (end < start && i == start)
      invariant |items| == i - start
      invariant forall k :: 0 <= k < |items| ==> items[k] == VirtualItem(start + k, (start + k) * itemHeight, itemHeight)
      decreases end - i
    {
      items := items + [VirtualItem(i, i * itemHeight, itemHeight)];
      i := i + 1;
    }
    offsetTop := start * itemHeight;
  }

  /** Every item that is even partly inside `[scrollTop, scrollTop + containerHeight]`
      lies within the window, whatever the (non-negative) overscan. */
  lemma WindowCoversVisible(itemCount: nat, itemHeight: int, containerHeight: int, scrollTop: int, overscan: int, j: int)
    requires itemHeight > 0 && overscan >= 0
    requires 0 <= j < itemCount
    requires j * itemHeight + itemHeight > scrollTop
    requires j * itemHeight <= scrollTop + containerHeight
    ensures StartIndex(scrollTop, itemHeight, overscan) <= j
    ensures j <= EndIndex(itemCount, scrollTop, containerHeight, itemHeight, overscan)
  {
    var f := FloorDiv(scrollTop, itemHeight);
    assert itemHeight * f < itemHeight * (j + 1) by { assert itemHeight * (j + 1) == j * itemHeight + itemHeight; }
    MulStrictCancel(itemHeight, f, j + 1);
    var c := CeilDiv(scrollTop + containerHeight, itemHeight);
    assert itemHeight * (c + 1) == itemHeight * c + itemHeight;
    if c < j {
      MulMonotone(itemHeight, c + 1, j);
    }
  }

  /** For `0 <= scrollTop < totalHeight` the item under the top edge is rendered. */
  lemma WindowCoversTopItem(itemCount: nat, itemHeight: int, containerHeight: int, scrollTop: int, overscan: int)
    requires itemHeight > 0 && overscan >= 0 && containerHeight >= 0
    requires 0 <= scrollTop < TotalHeight(itemCount, itemHeight)
    ensures 0 <= FloorDiv(scrollTop, itemHeight) < itemCount
    ensures StartIndex(scrollTop, itemHeight, overscan) <= FloorDiv(scrollTop, itemHeight)
              <= EndIndex(itemCount, scrollTop, containerHeight, itemHeight, overscan)
  {
    var j := FloorDiv(scrollTop, itemHeight);
    if j < 0 {
      MulMonotone(itemHeight, j + 1, 0);
    }
    assert itemCount * itemHeight == itemHeight * itemCount;
    if j >= itemCount {
      MulMonotone(itemHeight, itemCount, j);
    }
    WindowCoversVisible(itemCount, itemHeight, containerHeight, scrollTop, overscan, j);
  }

  /** The window is a non-empty range of real indices whenever the offset lies in
      `[0, totalHeight)`, or in `[0, totalHeight]` with an overscan of at least one. */
  lemma WindowBounds(itemCount: nat, itemHeight: int, containerHeight: int, scrollTop: int, overscan: int)
    requires itemCount > 0 && itemHeight > 0 && overscan >= 0 && containerHeight >= 0
    requires 0 <= scrollTop
    requires scrollTop < TotalHeight(itemCount, itemHeight) || (scrollTop == TotalHeight(itemCount, itemHeight) && overscan >= 1)
    ensures 0 <= StartIndex(scrollTop, itemHeight, overscan)
    ensures StartIndex(scrollTop, itemHeight, overscan) <= EndIndex(itemCount, scrollTop, containerHeight, itemHeight, overscan)
    ensures EndIndex(itemCount, scrollTop, containerHeight, itemHeight, overscan) <= itemCount - 1
  {
    if scrollTop < TotalHeight(itemCount, itemHeight) {
      WindowCoversTopItem(itemCount, itemHeight, containerHeight, scrollTop, overscan);
    } else {
      assert itemHeight * itemCount == scrollTop;
      FloorDivUnique(scrollTop, itemHeight, itemCount);
      var c := CeilDiv(scrollTop + containerHeight, itemHeight);
      assert itemHeight * (itemCount - 1) == itemHeight * itemCount - itemHeight;
      if c < itemCount {
        MulMonotone(itemHeight, c, itemCount - 1);
      }
    }
  }

  /** At `scrollTop == totalHeight` the index under the top edge is the item count itself,
      which names no item, so no overscan puts the top item in the window there. */
  lemma TopIndexAtBottomIsNoItem(itemCount: nat, itemHeight: int)
    requires itemHeight > 0
    ensures FloorDiv(TotalHeight(itemCount, itemHeight), itemHeight) == itemCount
  {
    FloorDivUnique(TotalHeight(itemCount, itemHeight), itemHeight, itemCount);
  }

  /** At exactly `scrollTop == totalHeight` with no overscan the window is empty
      (start 1, end 0 for one item of height 32 in a zero-height container). */
  lemma WindowEmptyAtBottomWithoutOverscan()
    ensures StartIndex(32, 32, 0) == 1 && EndIndex(1, 32, 0, 32, 0) == 0
  {
    FloorDivUnique(32, 32, 1);
  }

  /** Every rendered item lies inside the scrollable height. */
  lemma WindowInsideTotalHeight(items: seq<VirtualItem>, itemCount: nat, itemHeight: int, k: int)
    requires itemHeight > 0
    requires 0 <= k < |items|
    requires 0 <= items[k].index < itemCount
    requires items[k].offsetTop == items[k].index * itemHeight && items[k].height == itemHeight
    ensures 0 <= items[k].offsetTop
    ensures items[k].offsetTop + items[k].height <= TotalHeight(itemCount, itemHeight)
  {
    MulMonotone(itemHeight, 0, items[k].index);
    MulMonotone(itemHeight, items[k].index + 1, itemCount);
    assert itemHeight * (items[k].index + 1) == items[k].index * itemHeight + itemHeight;
  }

  /** Worked examples of the row window. */
  lemma WindowExamples()
    ensures StartIndex(320, 32, 5) == 5 && EndIndex(1000, 320, 600, 32, 5) == 34
    ensures StartIndex(0, 32, 5) == 0 && EndIndex(1000, 0, 600, 32, 5) == 24
    ensures StartIndex(2800, 32, 5) == 82 && EndIndex(100, 2800, 600, 32, 5) == 99
    ensures TotalHeight(5000, 32) == 160000
  {
    FloorDivUnique(320, 32, 10);
    FloorDivUnique(0, 32, 0);
    FloorDivUnique(2800, 32, 87);
    FloorDivUnique(-920, 32, -29);
    FloorDivUnique(-600, 32, -19);
    FloorDivUnique(-3400, 32, -107);
  }

  /** Where `scrollToIndex` places the item in the viewport. */
  datatype Align = Start | Center | End

  /** The unclamped scroll offset that puts item `index` at the requested place. */
  function ScrollTarget(index: int, itemHeight: int, containerHeight: int, align: Align): (target: real)
    ensures align == Start ==> target == (index * itemHeight) as real
    ensures align == Center ==>
      target + containerHeight as real / 2.0 == (index * itemHeight) as real + itemHeight as real / 2.0
    ensures align == End ==>
      target + containerHeight as real == ((index + 1) * itemHeight) as real
  {
    var itemTop := (index * itemHeight) as real;
    match align
    case Center => itemTop - containerHeight as real / 2.0 + itemHeight as real / 2.0
    case End => itemTop - containerHeight as real + itemHeight as real
    case Start => itemTop
  }

  /** `Math.max(0, Math.min(t, totalHeight - containerHeight))`. */
  function ClampScroll(t: real, totalHeight: int, containerHeight: int): (r: real)
    ensures r >= 0.0
    ensures totalHeight >= containerHeight ==> r <= (totalHeight - containerHeight) as real
    ensures 0.0 <= t <= (totalHeight - containerHeight) as real ==> r == t
    ensures t < 0.0 ==> r == 0.0
    ensures totalHeight >= containerHeight && t > (totalHeight - containerHeight) as real ==>
              r == (totalHeight - containerHeight) as real
    ensures totalHeight < containerHeight ==> r == 0.0
  {
    var m := if t < (totalHeight - containerHeight) as real then t else (totalHeight - containerHeight) as real;
    if m < 0.0 then 0.0 else m
  }

  /** Clamping a clamped offset changes nothing. */
  lemma ClampIdempotent(t: real, totalHeight: int, containerHeight: int)
    ensures ClampScroll(ClampScroll(t, totalHeight, containerHeight), totalHeight, containerHeight)
            == ClampScroll(t, totalHeight, containerHeight)
  {
  }

  /** The scroll container's DOM element. */
  class ScrollElement {
    var scrollTop: real

    constructor(scrollTop: real)
      ensures this.scrollTop == scrollTop
    {
      this.scrollTop := scrollTop;
    }
  }

  /** `scrollToIndex`: without an attached element nothing happens; otherwise the element
      is scrolled to the clamped target offset. */
  method ScrollToIndex(el: ScrollElement?, index: int, align: Align,
                       itemCount: nat, itemHeight: int, containerHeight: int)
    modifies if el == null then {} else {el}
    ensures el != null ==>
      el.scrollTop == ClampScroll(ScrollTarget(index, itemHeight, containerHeight, align),
                                  TotalHeight(itemCount, itemHeight), containerHeight)
  {
    if el == null {
      return;
    }
    var target := ScrollTarget(index, itemHeight, containerHeight, align);
    el.scrollTop := ClampScroll(target, TotalHeight(itemCount, itemHeight), containerHeight);
  }

  /** Scrolling an item to the top, when the list is long enough to allow it, leaves the
      offset at the item's top edge, and the window computed there renders that item. */
  lemma ScrollToStartRendersItem(index: int, itemCount: nat, itemHeight: int, containerHeight: int, overscan: int)
    requires itemHeight > 0 && overscan >= 0 && containerHeight >= 0
    requires 0 <= index < itemCount
    requires index * itemHeight <= TotalHeight(itemCount, itemHeight) - containerHeight
    ensures ClampScroll(ScrollTarget(index, itemHeight, containerHeight, Start),
                        TotalHeight(itemCount, itemHeight), containerHeight) == (index * itemHeight) as real
    ensures StartIndex(index * itemHeight, itemHeight, overscan) <= index
              <= EndIndex(itemCount, index * itemHeight, containerHeight, itemHeight, overscan)
  {
    MulMonotone(itemHeight, 0, index);
    WindowCoversVisible(itemCount, itemHeight, containerHeight, index * itemHeight, overscan, index);
  }

  /** The hook's own scroll offset, updated from scroll events. */
  class ScrollState {
    var scrollTop: int

    constructor()
      ensures scrollTop == 0
    {
      scrollTop := 0;
    }

    /** `onScroll`: record the container's offset. */
    method OnScroll(targetScrollTop: int)
      modifies this
      ensures scrollTop == targetScrollTop
    {
      scrollTop := targetScrollTop;
    }
  }
}
