/** The index window of `useVirtualScroll` in
    app-zone/src/hooks/usePerformance.tsx: which rows of a long list are
    rendered for a scroll position, and where the rendered block sits.
    Pixel values are integers and the row height is positive. */
module VirtualScroll {
  import opened Common

  datatype Window<T> = Window(visibleItems: seq<T>, startIndex: int, endIndex: int, offsetY: int)

  /** `Math.floor(a / b)` for a positive `b`. */
  function FloorDiv(a: int, b: int): (q: int)
    requires b > 0
    ensures q * b <= a < (q + 1) * b
  {
    a / b
  }

  /** `Math.ceil(a / b)` for a positive `b`. */
  function CeilDiv(a: int, b: int): (q: int)
    requires b > 0
    ensures (q - 1) * b < a <= q * b
  {
    var f := (-a) / b;
    assert f * b <= -a < (f + 1) * b;
    -f
  }

  /** `Array.prototype.slice(start, end)`: a negative bound counts from the
      end, and every bound is clamped to the list. */
  function JsSlice<T>(s: seq<T>, start: int, end: int): (r: seq<T>)
  {
    var from := if start < 0 then Max(|s| + start, 0) else Min(start, |s|);
    var to := if end < 0 then Max(|s| + end, 0) else Min(end, |s|);
    if from >= to then [] else s[from..to]
  }

  /** The hook's result for the current `scrollTop`. */
  function Compute<T>(items: seq<T>, itemHeight: int, containerHeight: int, bufferSize: int, scrollTop: int): Window<T>
    requires itemHeight > 0
  {
    var startIndex := Max(0, FloorDiv(scrollTop, itemHeight) - bufferSize);
    var endIndex := Min(|items|, CeilDiv(scrollTop + containerHeight, itemHeight) + bufferSize);
    Window(JsSlice(items, startIndex, endIndex), startIndex, endIndex, startIndex * itemHeight)
  }

  // -----------------------------------------------------------------------
  // Properties
  // -----------------------------------------------------------------------

  /** The window never starts before the list or ends after it, and the
      rendered block is offset by the height of the rows skipped. */
  lemma WindowBounds<T>(items: seq<T>, itemHeight: int, containerHeight: int, bufferSize: int, scrollTop: int)
    requires itemHeight > 0
    ensures var w := Compute(items, itemHeight, containerHeight, bufferSize, scrollTop);
            w.startIndex >= 0 && w.endIndex <= |items| && w.offsetY == w.startIndex * itemHeight && w.offsetY >= 0
  {
  }

  /** With a non-negative scroll position, viewport and buffer, the rendered
      rows are exactly `items[startIndex..endIndex)`, and none at all when
      the window is empty. */
  lemma VisibleIsSlice<T>(items: seq<T>, itemHeight: int, containerHeight: int, bufferSize: int, scrollTop: int)
    requires itemHeight > 0 && scrollTop >= 0 && containerHeight >= 0 && bufferSize >= 0
    ensures var w := Compute(items, itemHeight, containerHeight, bufferSize, scrollTop);
            w.endIndex >= 0 &&
            (w.startIndex < w.endIndex ==> w.visibleItems == items[w.startIndex..w.endIndex]) &&
            (w.startIndex >= w.endIndex ==> w.visibleItems == [])
  {
    var c := CeilDiv(scrollTop + containerHeight, itemHeight);
    assert c < 0 ==> c * itemHeight < 0;
  }

  /** Every row that shows in the viewport (its top above the viewport's
      bottom, its bottom below the viewport's top) is rendered. */
  lemma ViewportRowsRendered<T>(items: seq<T>, itemHeight: int, containerHeight: int, bufferSize: int, scrollTop: int, i: int)
    requires itemHeight > 0 && bufferSize >= 0
    requires 0 <= i < |items|
    requires i * itemHeight < scrollTop + containerHeight && (i + 1) * itemHeight > scrollTop
    ensures var w := Compute(items, itemHeight, containerHeight, bufferSize, scrollTop);
            w.startIndex <= i < w.endIndex
  {
    var f := FloorDiv(scrollTop, itemHeight);
    var c := CeilDiv(scrollTop + containerHeight, itemHeight);
    assert f > i ==> (i + 1) * itemHeight <= f * itemHeight;
    assert c <= i ==> c * itemHeight <= i * itemHeight;
  }

  /** A negative buffer can give an end index below zero, which `slice`
      counts from the end of the list: rows are rendered although the start
      index lies past the end index. */
  lemma NegativeBufferWrapsSlice<T>(items: seq<T>, itemHeight: int)
    requires itemHeight > 0 && |items| > 4
    ensures var w := Compute(items, itemHeight, 0, -2, 0);
            w.startIndex == 2 && w.endIndex == -2 && w.visibleItems == items[2..|items| - 2]
  {
    assert FloorDiv(0, itemHeight) == 0;
    assert CeilDiv(0, itemHeight) == 0;
  }
}
