/**
 * ui/camera/filter/FilterTabAdapter.kt: the filter strip. One tab per filter,
 * with `padding` invisible tabs at each end so that the first and last filter can
 * scroll to the centre; a padding tab that gets selected hands the selection on
 * to the nearest real tab, and a real tab fires its filter.
 *
 * The adapter drives a TabLayout, whose part is modelled too: its tabs in order,
 * its selected tab, and selection, which tells the listener that the old tab was
 * unselected and that the new one was selected, or only that it was reselected.
 * Tabs are named by their position in the strip.
 */
module FilterTabs {
  import opened Wrappers
  import opened CameraSettings
  import opened CameraMath

  datatype TabKind = PaddingTab | FilterTab(filter: CameraFilter)

  /** A tab: what it shows, whether its selection border is visible, and whether the adapter gave its view a click listener. */
  datatype Tab = Tab(kind: TabKind, borderVisible: bool, hasClickListener: bool)

  /** The position of a tab reference, as a set of at most one position. */
  function Held(t: Option<nat>): set<int>
  {
    if t.Some? then {t.value} else {}
  }

  /** `tabs` with the border of the tab at `pos` (if any) set to `visible`. */
  function WithBorder(tabs: seq<Tab>, pos: Option<nat>, visible: bool): (r: seq<Tab>)
    ensures |r| == |tabs|
    ensures forall i :: 0 <= i < |tabs| ==>
      r[i] == tabs[i].(borderVisible := if pos == Some(i) then visible else tabs[i].borderVisible)
  {
    if pos.Some? && pos.value < |tabs| then tabs[pos.value := tabs[pos.value].(borderVisible := visible)] else tabs
  }

  /** Only borders changed from `before` to `after`: the one at `shown` is visible, those at `hidden` are not. */
  predicate BordersAfter(before: seq<Tab>, after: seq<Tab>, shown: int, hidden: set<int>)
  {
    && |after| == |before|
    && forall i :: 0 <= i < |before| ==>
         after[i] == before[i].(borderVisible := if i == shown then true else if i in hidden then false else before[i].borderVisible)
  }

  /** Hiding one more border first is the same as one more hidden border. */
  lemma HideThenBorders(tabs0: seq<Tab>, k: nat, tabs1: seq<Tab>, tabs2: seq<Tab>, shown: int, hidden: set<int>)
    requires tabs1 == WithBorder(tabs0, Some(k), false)
    requires BordersAfter(tabs1, tabs2, shown, hidden)
    ensures BordersAfter(tabs0, tabs2, shown, hidden + {k})
  {
  }

  /** updateSelectedTab's two steps: the new tab's border shown, the current one's hidden, nothing else touched. */
  lemma UpdateBorders(tabs0: seq<Tab>, current: Option<nat>, pos: nat)
    ensures BordersAfter(tabs0, WithBorder(WithBorder(tabs0, current, false), Some(pos), true), pos, {pos} + Held(current))
  {
  }

  /** A border listed as hidden that is also the shown one stays shown, so listing it changes nothing. */
  lemma ShownNotHidden(before: seq<Tab>, after: seq<Tab>, shown: int, hidden: set<int>)
    requires BordersAfter(before, after, shown, {shown} + hidden)
    ensures BordersAfter(before, after, shown, hidden)
  {
  }

  class FilterTabAdapter {
    /** The padding tabs at each end, from the screen's width and density. */
    const padding: int
    /** The border visibility the tab layout gives a padding tab, which no code changes until it is selected. */
    const paddingBorder: bool
    var tabs: seq<Tab>
    /** The TabLayout's selected tab. */
    var selected: Option<nat>
    var currentSelectedTab: Option<nat>
    /** Whether setupFilterTabs has installed the selection listener. */
    var listening: bool
    /** The filters passed to onFilterSelected, in order. */
    var fired: seq<CameraFilter>

    constructor (widthPixels: int, density: real, paddingBorder: bool)
      requires widthPixels >= 0 && density > 0.0
      ensures padding == PaddingTabs(widthPixels, density) && this.paddingBorder == paddingBorder
      ensures tabs == [] && selected == None && currentSelectedTab == None && !listening && fired == []
    {
      padding := PaddingTabs(widthPixels, density);
      this.paddingBorder := paddingBorder;
      tabs := [];
      selected := None;
      currentSelectedTab := None;
      listening := false;
      fired := [];
    }

    /** The strip as setupFilterTabs lays it out: padding, one tab per filter in order, padding. */
    predicate Layout()
      reads this
    {
      && padding >= 0
      && |tabs| == |FILTERS| + 2 * padding
      && (forall i :: 0 <= i < |tabs| ==> (tabs[i].kind.PaddingTab? <==> i < padding || i >= padding + |FILTERS|))
      && (forall j :: 0 <= j < |FILTERS| ==> tabs[padding + j].kind == FilterTab(FILTERS[j]))
      && listening
      && (selected.Some? ==> selected.value < |tabs|)
      && (currentSelectedTab.Some? ==> currentSelectedTab.value < |tabs|)
    }

    /** The tab selecting `pos` ends on: the nearest real tab for a padding tab, else `pos` itself. */
    function Target(pos: int): int
      reads this
    {
      if pos < padding then padding else if pos >= |tabs| - padding then |tabs| - padding - 1 else pos
    }

    /** Every selection ends on a real tab, and on `pos` itself exactly when `pos` is real. */
    lemma TargetIsReal(pos: int)
      requires Layout() && 0 <= pos < |tabs|
      ensures padding <= Target(pos) < |tabs| - padding
      ensures tabs[Target(pos)].kind == FilterTab(FILTERS[Target(pos) - padding])
      ensures Target(pos) == pos <==> !tabs[pos].kind.PaddingTab?
    {
      assert Target(pos) == padding + (Target(pos) - padding);
    }

    function Rank(pos: int): nat
      reads this
    {
      if pos < padding || pos >= |tabs| - padding then 1 else 0
    }

    /**
     * setupFilterTabs(tabLayout, onFilterSelected): the strip is rebuilt, the
     * ORIGINAL tab at position `padding` becomes current with its border shown
     * and is reported, the listener is installed, and only the real tabs get a
     * click listener.
     */
    method SetupFilterTabs()
      requires padding >= 0
      modifies this
      ensures Layout()
      ensures forall i :: 0 <= i < |tabs| ==> (tabs[i].hasClickListener <==> padding <= i < |tabs| - padding)
      ensures forall i :: 0 <= i < |tabs| ==>
        (tabs[i].borderVisible <==> i == padding || (tabs[i].kind.PaddingTab? && paddingBorder))
      ensures selected == Some(padding) && currentSelectedTab == Some(padding)
      ensures fired == old(fired) + [ORIGINAL]
    {
      tabs := [];
      selected := None;
      AddFilterTabs();
      AddPaddingTabs();
      forall i | padding <= i < padding + |FILTERS|
        ensures tabs[i] == Tab(FilterTab(FILTERS[i - padding]), false, false)
      {
        assert tabs[padding + (i - padding)] == Tab(FilterTab(FILTERS[i - padding]), false, false);
      }
      ghost var laid := tabs;
      if |tabs| > padding {
        currentSelectedTab := Some(padding);
        UpdateSelectedTab(Some(padding));
        fired := fired + [ORIGINAL];
      }
      assert tabs == laid[padding := laid[padding].(borderVisible := true)];
      listening := true;
      SetClickListeners();
    }

    /** One tab per filter, its border hidden; the first tab added becomes the selected one. */
    method AddFilterTabs()
      requires tabs == [] && selected == None
      modifies this
      ensures |tabs| == |FILTERS| && selected == Some(0)
      ensures forall j :: 0 <= j < |FILTERS| ==> tabs[j] == Tab(FilterTab(FILTERS[j]), false, false)
      ensures currentSelectedTab == old(currentSelectedTab) && fired == old(fired) && listening == old(listening)
    {
      var i := 0;
      while i < |FILTERS|
        invariant 0 <= i <= |FILTERS| && |tabs| == i
        invariant forall j :: 0 <= j < i ==> tabs[j] == Tab(FilterTab(FILTERS[j]), false, false)
        invariant selected == if i == 0 then None else Some(0)
        invariant currentSelectedTab == old(currentSelectedTab) && fired == old(fired) && listening == old(listening)
      {
        tabs := tabs + [Tab(FilterTab(FILTERS[i]), false, false)];
        if i == 0 {
          selected := Some(0);
        }
        i := i + 1;
      }
    }

    /** addPaddingTabs(tabLayout): `padding` tabs inserted at the front, then `padding` appended. */
    method AddPaddingTabs()
      requires padding >= 0 && |tabs| == |FILTERS| && selected == Some(0)
      requires forall j :: 0 <= j < |FILTERS| ==> tabs[j] == Tab(FilterTab(FILTERS[j]), false, false)
      modifies this
      ensures |tabs| == |FILTERS| + 2 * padding && selected == Some(padding)
      ensures forall j :: 0 <= j < |FILTERS| ==> tabs[padding + j] == Tab(FilterTab(FILTERS[j]), false, false)
      ensures forall i :: 0 <= i < |tabs| && (i < padding || i >= padding + |FILTERS|) ==>
        tabs[i] == Tab(PaddingTab, paddingBorder, false)
      ensures currentSelectedTab == old(currentSelectedTab) && fired == old(fired) && listening == old(listening)
    {
      var pad := Tab(PaddingTab, paddingBorder, false);
      var k := 0;
      while k < padding
        invariant 0 <= k <= padding && |tabs| == k + |FILTERS| && selected == Some(k)
        invariant forall i :: 0 <= i < k ==> tabs[i] == pad
        invariant forall j :: 0 <= j < |FILTERS| ==> tabs[k + j] == Tab(FilterTab(FILTERS[j]), false, false)
        invariant currentSelectedTab == old(currentSelectedTab) && fired == old(fired) && listening == old(listening)
      {
        tabs := [pad] + tabs;
        selected := Some(k + 1);
        k := k + 1;
      }
      k := 0;
      while k < padding
        invariant 0 <= k <= padding && |tabs| == padding + |FILTERS| + k && selected == Some(padding)
        invariant forall i :: 0 <= i < padding ==> tabs[i] == pad
        invariant forall j :: 0 <= j < |FILTERS| ==> tabs[padding + j] == Tab(FilterTab(FILTERS[j]), false, false)
        invariant forall i :: padding + |FILTERS| <= i < |tabs| ==> tabs[i] == pad
        invariant currentSelectedTab == old(currentSelectedTab) && fired == old(fired) && listening == old(listening)
      {
        tabs := tabs + [pad];
        k := k + 1;
      }
    }

    /** The loop over all tabs that gives each real tab's view a click listener selecting it. */
    method SetClickListeners()
      modifies this
      ensures |tabs| == |old(tabs)|
      ensures forall i :: 0 <= i < |tabs| ==>
        tabs[i] == old(tabs[i]).(hasClickListener := old(tabs[i].hasClickListener) || padding <= i < |tabs| - padding)
      ensures selected == old(selected) && currentSelectedTab == old(currentSelectedTab)
      ensures fired == old(fired) && listening == old(listening)
    {
      var i := 0;
      while i < |tabs|
        invariant 0 <= i <= |tabs| && |tabs| == |old(tabs)|
        invariant forall j :: 0 <= j < i ==>
          tabs[j] == old(tabs[j]).(hasClickListener := old(tabs[j].hasClickListener) || padding <= j < |tabs| - padding)
        invariant forall j :: i <= j < |tabs| ==> tabs[j] == old(tabs[j])
        invariant selected == old(selected) && currentSelectedTab == old(currentSelectedTab)
        invariant fired == old(fired) && listening == old(listening)
      {
        if padding <= i < |tabs| - padding {
          tabs := tabs[i := tabs[i].(hasClickListener := true)];
        }
        i := i + 1;
      }
    }

    /** updateSelectedTab(tab): hide the current tab's border, then show the new tab's. */
    method UpdateSelectedTab(tab: Option<nat>)
      modifies this
      ensures tabs == WithBorder(WithBorder(old(tabs), old(currentSelectedTab), false), tab, true)
      ensures selected == old(selected) && currentSelectedTab == old(currentSelectedTab)
      ensures fired == old(fired) && listening == old(listening)
    {
      tabs := WithBorder(tabs, currentSelectedTab, false);
      tabs := WithBorder(tabs, tab, true);
    }

    /** The listener's onTabUnselected(tab): hide its border. */
    method OnTabUnselected(pos: nat)
      modifies this
      ensures tabs == WithBorder(old(tabs), Some(pos), false)
      ensures selected == old(selected) && currentSelectedTab == old(currentSelectedTab)
      ensures fired == old(fired) && listening == old(listening)
    {
      tabs := WithBorder(tabs, Some(pos), false);
    }

    /**
     * tab.select() on the tab at `pos`, as a click does it: reselecting the
     * selected tab changes nothing here (it only scrolls); any other selection
     * ends on Target(pos), which becomes selected and current, shows the only
     * new border and fires its filter once.
     */
    method SelectTab(pos: int)
      requires Layout() && 0 <= pos < |tabs|
      modifies this
      decreases Rank(pos), 1
      ensures Layout()
      ensures old(selected) == Some(pos) ==>
        tabs == old(tabs) && selected == old(selected) && currentSelectedTab == old(currentSelectedTab) && fired == old(fired)
      ensures old(selected) != Some(pos) ==>
        && selected == Some(old(Target(pos))) && currentSelectedTab == Some(old(Target(pos)))
        && fired == old(fired) + [FILTERS[old(Target(pos)) - padding]]
        && BordersAfter(old(tabs), tabs, old(Target(pos)), {pos} + Held(old(selected)) + Held(old(currentSelectedTab)))
    {
      if selected == Some(pos) {
        return;
      }
      ghost var tabs0 := tabs;
      if selected.Some? {
        OnTabUnselected(selected.value);
      }
      ghost var tabs1 := tabs;
      selected := Some(pos);
      OnTabSelected(pos);
      if old(selected).Some? {
        HideThenBorders(tabs0, old(selected).value, tabs1, tabs, old(Target(pos)), {pos} + Held(old(currentSelectedTab)));
      }
    }

    /**
     * The listener's onTabSelected(tab) for the newly selected tab at `pos`: a
     * padding tab selects the nearest real tab, unless that is itself; a real tab
     * becomes current with its border shown and fires the filter `pos - padding`.
     */
    method OnTabSelected(pos: int)
      requires Layout() && 0 <= pos < |tabs| && selected == Some(pos)
      modifies this
      decreases Rank(pos), 0
      ensures Layout()
      ensures selected == Some(old(Target(pos))) && currentSelectedTab == Some(old(Target(pos)))
      ensures fired == old(fired) + [FILTERS[old(Target(pos)) - padding]]
      ensures BordersAfter(old(tabs), tabs, old(Target(pos)), {pos} + Held(old(currentSelectedTab)))
    {
      TargetIsReal(pos);
      if pos < padding || pos >= |tabs| - padding {
        var closestRealTab := if pos < padding then padding else |tabs| - padding - 1;
        assert closestRealTab == old(Target(pos)) && closestRealTab != pos;
        TargetIsReal(closestRealTab);
        ghost var tabs0 := tabs;
        ghost var current0 := currentSelectedTab;
        SelectTab(closestRealTab);
        assert Held(Some(pos)) == {pos};
        ShownNotHidden(tabs0, tabs, closestRealTab, {pos} + Held(current0));
        return;
      }
      ShowRealTab(pos);
    }

    /** onTabSelected's branch for a real tab: show its border, fire its filter, make it current. */
    method ShowRealTab(pos: int)
      requires Layout() && padding <= pos < |tabs| - padding && selected == Some(pos)
      modifies this
      ensures Layout()
      ensures selected == Some(pos) && currentSelectedTab == Some(pos)
      ensures fired == old(fired) + [FILTERS[pos - padding]]
      ensures BordersAfter(old(tabs), tabs, pos, {pos} + Held(old(currentSelectedTab)))
    {
      UpdateBorders(tabs, currentSelectedTab, pos);
      UpdateSelectedTab(Some(pos));
      var filterPosition := pos - padding;
      if 0 <= filterPosition < |FILTERS| {
        fired := fired + [FILTERS[filterPosition]];
      }
      currentSelectedTab := Some(pos);
    }
  }
}
