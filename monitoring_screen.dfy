/** The monitoring screen's component state: the filter panel, the search box and the three
    filter controls, each updated in place by one handler. The visible list and the badge
    are derived from the current criteria on every read, as the memoised list is. */
module MonitoringScreen {
  import opened Types
  import opened Constants
  import opened Monitoring
  import MonitoringExamples

  class Screen {
    var filterPanelOpen: bool
    var searchQuery: string
    var statusFilter: StatusFilter
    var lowBatteryOnly: bool
    var timeFilter: TimeFilter

    /** The screen opens with the panel closed and every criterion at its default. */
    constructor()
      ensures !filterPanelOpen
      ensures Criteria() == DefaultCriteria
    {
      filterPanelOpen := false;
      searchQuery := "";
      statusFilter := AllStatuses;
      lowBatteryOnly := false;
      timeFilter := AnyTime;
    }

    function Criteria(): FilterCriteria
      reads this
    {
      FilterCriteria(searchQuery, statusFilter, lowBatteryOnly, timeFilter)
    }

    /** The list shown under "Sensors (n)". */
    function Visible(): seq<Sensor>
      reads this
    {
      FilterSensors(MockSensors, Criteria())
    }

    /** The number on the filter button. */
    function Badge(): nat
      reads this
    {
      ActiveFilterCount(Criteria())
    }

    /** Typing in the search box replaces the query and nothing else. */
    method SetSearchQuery(q: string)
      modifies this`searchQuery
      ensures Criteria() == old(Criteria()).(searchQuery := q)
      ensures Badge() == old(Badge())
    {
      searchQuery := q;
      ActiveFilterCountIgnoresSearch(old(Criteria()), q);
    }

    /** The filter button opens a closed panel and closes an open one. */
    method ToggleFilterPanel()
      modifies this`filterPanelOpen
      ensures filterPanelOpen == !old(filterPanelOpen)
    {
      filterPanelOpen := !filterPanelOpen;
    }

    /** The close cross and "Apply Filters" both just close the panel: the criteria already
        apply while the panel is open. */
    method CloseFilterPanel()
      modifies this`filterPanelOpen
      ensures !filterPanelOpen
    {
      filterPanelOpen := false;
    }

    method SelectStatus(f: StatusFilter)
      modifies this`statusFilter
      ensures Criteria() == old(Criteria()).(statusFilter := f)
    {
      statusFilter := f;
    }

    method ToggleLowBatteryOnly()
      modifies this`lowBatteryOnly
      ensures Criteria() == old(Criteria()).(lowBatteryOnly := !old(lowBatteryOnly))
    {
      lowBatteryOnly := !lowBatteryOnly;
    }

    method SelectTimeFilter(t: TimeFilter)
      modifies this`timeFilter
      ensures Criteria() == old(Criteria()).(timeFilter := t)
    {
      timeFilter := t;
    }

    /** Clearing resets status, battery and time but keeps the search text: the badge goes to
        zero and the list is what the search alone selects. */
    method ClearFilters()
      modifies this`statusFilter, this`lowBatteryOnly, this`timeFilter
      ensures Criteria() == DefaultCriteria.(searchQuery := old(searchQuery))
      ensures Badge() == 0
    {
      statusFilter := AllStatuses;
      lowBatteryOnly := false;
      timeFilter := AnyTime;
    }
  }

  /** Picking status `warning` shows the LPG store alone with a badge of one; clearing the
      filters shows all three mock sensors again with no badge. */
  method WarningThenClear() returns (filtered: seq<Sensor>, badge: nat, cleared: seq<Sensor>, clearedBadge: nat)
    ensures filtered == [LpgStorage] && badge == 1
    ensures cleared == MockSensors && clearedBadge == 0
  {
    var screen := new Screen();
    screen.SelectStatus(OnlyStatus(Warning));
    MonitoringExamples.MockWarningStatus();
    filtered := screen.Visible();
    badge := screen.Badge();
    screen.ClearFilters();
    DefaultCriteriaKeepAll(MockSensors);
    cleared := screen.Visible();
    clearedBadge := screen.Badge();
  }

  /** Whatever the handlers did, the visible list is drawn from the mock sensors in order and
      every entry meets the current criteria. */
  lemma VisibleIsFiltered(screen: Screen)
    ensures IsSubsequence(screen.Visible(), MockSensors)
    ensures forall x :: x in screen.Visible() <==> x in MockSensors && Matches(screen.Criteria(), x)
  {
    FilterIsSubsequence(MockSensors, screen.Criteria());
    forall x {
      FilterMembership(MockSensors, screen.Criteria(), x);
    }
  }
}
