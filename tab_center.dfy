/**
 * The filter strip's snapping in ui/camera/CameraFragment.kt: the search for the
 * real filter tab whose centre is nearest the screen's centre, and the decision to
 * select it once scrolling settles.
 */
module TabCentering {
  import opened Wrappers
  import opened Graphics
  import opened CameraMath

  /** A tab's view: its left edge inside the strip and its width, in pixels. */
  datatype TabView = TabView(left: int, width: int)

  function Abs(x: int): (a: int)
    ensures a >= 0 && (a == x || a == -x)
  {
    if x < 0 then -x else x
  }

  /** How far tab `t`'s centre lies from the screen's centre when the strip is scrolled by `scrollX`. */
  function Distance(screenCenter: int, t: TabView, scrollX: int): (d: int)
    ensures d >= 0
  {
    Abs(screenCenter - (t.left + KDiv(t.width, 2) - scrollX))
  }

  /**
   * Tab `k` of `tabs[lo..hi]` is the first of those nearest the centre: none is
   * nearer, and every tab before it is farther.
   */
  predicate FirstNearest(tabs: seq<TabView>, screenCenter: int, scrollX: int, lo: int, hi: int, k: int)
    requires 0 <= lo && hi <= |tabs|
  {
    && lo <= k < hi
    && (forall j :: lo <= j < hi ==> Distance(screenCenter, tabs[k], scrollX) <= Distance(screenCenter, tabs[j], scrollX))
    && (forall j :: lo <= j < k ==> Distance(screenCenter, tabs[k], scrollX) < Distance(screenCenter, tabs[j], scrollX))
  }

  /** At most one tab is the first nearest. */
  lemma FirstNearestUnique(tabs: seq<TabView>, screenCenter: int, scrollX: int, lo: int, hi: int, k: int, m: int)
    requires 0 <= lo && hi <= |tabs|
    requires FirstNearest(tabs, screenCenter, scrollX, lo, hi, k)
    requires FirstNearest(tabs, screenCenter, scrollX, lo, hi, m)
    ensures k == m
  {
    assert Distance(screenCenter, tabs[k], scrollX) == Distance(screenCenter, tabs[m], scrollX);
  }

  /** The real tabs are those after the first `padding` and before the last `padding`. */
  function RealEnd(tabCount: int, padding: int): int
  {
    tabCount - padding
  }

  /**
   * findClosestTabToCenter(scrollX): the position of the first real tab nearest
   * the screen's centre, found by keeping the smallest distance seen, which
   * starts at Int.MAX_VALUE and is replaced only by a strictly smaller one.
   * There is none when no real tab exists (or every one is Int.MAX_VALUE away).
   */
  method FindClosestTabToCenter(tabs: seq<TabView>, widthPixels: int, density: real, scrollX: int)
    returns (closest: Option<int>)
    requires widthPixels >= 0 && density > 0.0
    ensures var p := PaddingTabs(widthPixels, density);
      closest.Some? ==>
        && FirstNearest(tabs, widthPixels / 2, scrollX, p, RealEnd(|tabs|, p), closest.value)
        && Distance(widthPixels / 2, tabs[closest.value], scrollX) < INT_MAX
    ensures var p := PaddingTabs(widthPixels, density);
      closest.None? <==> forall j :: p <= j < RealEnd(|tabs|, p) ==> Distance(widthPixels / 2, tabs[j], scrollX) >= INT_MAX
  {
    var screenCenter := KDiv(widthPixels, 2);
    closest := None;
    var minDistance := INT_MAX;
    var p := PaddingTabs(widthPixels, density);
    var startIndex := p;
    var endIndex := |tabs| - p;
    var i := startIndex;
    while i < endIndex
      invariant startIndex <= i && (i == startIndex || i <= endIndex)
      invariant closest.None? ==> minDistance == INT_MAX
      invariant closest.None? ==> forall j :: startIndex <= j < i ==> Distance(screenCenter, tabs[j], scrollX) >= INT_MAX
      invariant closest.Some? ==>
        && i <= endIndex
        && FirstNearest(tabs, screenCenter, scrollX, startIndex, i, closest.value)
        && minDistance == Distance(screenCenter, tabs[closest.value], scrollX) < INT_MAX
    {
      var distance := Distance(screenCenter, tabs[i], scrollX);
      if distance < minDistance {
        minDistance := distance;
        closest := Some(i);
      }
      i := i + 1;
    }
  }

  /**
   * detectCenteredTab(scrollX): the nearest real tab is selected when its centre
   * is within 40% of its width of the screen's centre and it is not the tab
   * already selected (`selectedPosition`).
   */
  method DetectCenteredTab(tabs: seq<TabView>, widthPixels: int, density: real, scrollX: int, selectedPosition: int)
    returns (select: Option<int>)
    requires widthPixels >= 0 && density > 0.0
    ensures var p := PaddingTabs(widthPixels, density);
      select.Some? ==>
        && FirstNearest(tabs, widthPixels / 2, scrollX, p, RealEnd(|tabs|, p), select.value)
        && Distance(widthPixels / 2, tabs[select.value], scrollX) as real <= tabs[select.value].width as real * 0.4
        && select.value != selectedPosition
    ensures var p := PaddingTabs(widthPixels, density);
      select.None? ==> forall k :: FirstNearest(tabs, widthPixels / 2, scrollX, p, RealEnd(|tabs|, p), k) ==>
        || Distance(widthPixels / 2, tabs[k], scrollX) >= INT_MAX
        || Distance(widthPixels / 2, tabs[k], scrollX) as real > tabs[k].width as real * 0.4
        || k == selectedPosition
  {
    var closestTab := FindClosestTabToCenter(tabs, widthPixels, density, scrollX);
    select := None;
    var p := PaddingTabs(widthPixels, density);
    if closestTab.Some? {
      var tab := tabs[closestTab.value];
      var threshold := tab.width as real * 0.4;
      var distance := Distance(KDiv(widthPixels, 2), tab, scrollX);
      if distance as real <= threshold && selectedPosition != closestTab.value {
        select := closestTab;
      }
      forall k | FirstNearest(tabs, widthPixels / 2, scrollX, p, RealEnd(|tabs|, p), k)
        ensures k == closestTab.value
      {
        FirstNearestUnique(tabs, widthPixels / 2, scrollX, p, RealEnd(|tabs|, p), k, closestTab.value);
      }
    }
  }
}
