/** The monitoring screen's sensor query (components/Monitoring.tsx): four criteria held as
    screen state, the order-preserving filter they select with, and the badge that counts the
    criteria set away from their defaults. */
module Monitoring {
  import opened Types
  import opened Text
  import Dashboard

  /** The status choice: every status, or exactly one. */
  datatype StatusFilter = AllStatuses | OnlyStatus(status: SensorStatus)

  /** The "Last updated" choice: any time, the last few minutes, or today. */
  datatype TimeFilter = AnyTime | Recent | Today

  datatype FilterCriteria = FilterCriteria(
    searchQuery: string,
    statusFilter: StatusFilter,
    lowBatteryOnly: bool,
    timeFilter: TimeFilter)

  /** The criteria the screen opens with. */
  const DefaultCriteria := FilterCriteria("", AllStatuses, false, AnyTime)

  /** Sensors strictly below this battery percentage are "low battery". */
  const LowBatteryThreshold := 30

  /** The query occurs, ignoring ASCII case, in the sensor's name or its location. */
  predicate MatchesSearch(query: string, s: Sensor)
  {
    Includes(Lower(s.name), Lower(query)) || Includes(Lower(s.location), Lower(query))
  }

  predicate MatchesStatus(f: StatusFilter, s: Sensor)
  {
    f == AllStatuses || f == OnlyStatus(s.status)
  }

  predicate MatchesBattery(lowBatteryOnly: bool, s: Sensor)
  {
    !lowBatteryOnly || s.battery < LowBatteryThreshold
  }

  /** The placeholder recency rule: updated "Now", or a label mentioning "2 mins". */
  predicate IsRecent(lastUpdated: string)
  {
    lastUpdated == "Now" || Includes(lastUpdated, "2 mins")
  }

  /** Only `Recent` constrains; `Today` is accepted but lets everything through. */
  predicate MatchesTime(t: TimeFilter, s: Sensor)
  {
    t == Recent ==> IsRecent(s.lastUpdated)
  }

  /** A sensor is kept when all four criteria hold. */
  predicate Matches(c: FilterCriteria, s: Sensor)
  {
    MatchesSearch(c.searchQuery, s) && MatchesStatus(c.statusFilter, s)
    && MatchesBattery(c.lowBatteryOnly, s) && MatchesTime(c.timeFilter, s)
  }

  /** The filtered list: the sensors that match, in their original order. */
  function FilterSensors(sensors: seq<Sensor>, c: FilterCriteria): (r: seq<Sensor>)
    ensures |r| <= |sensors|
  {
    if sensors == [] then []
    else if Matches(c, sensors[0]) then [sensors[0]] + FilterSensors(sensors[1..], c)
    else FilterSensors(sensors[1..], c)
  }

  /** `a` is `b` with some elements deleted, the rest kept in order. */
  ghost predicate IsSubsequence<T>(a: seq<T>, b: seq<T>)
    decreases |b|
  {
    a == [] || (b != [] && ((a[0] == b[0] && IsSubsequence(a[1..], b[1..])) || IsSubsequence(a, b[1..])))
  }

  /** Filtering only deletes: nothing is added and nothing is reordered. */
  lemma {:induction false} FilterIsSubsequence(sensors: seq<Sensor>, c: FilterCriteria)
    ensures IsSubsequence(FilterSensors(sensors, c), sensors)
  {
    if sensors != [] {
      FilterIsSubsequence(sensors[1..], c);
      var r := FilterSensors(sensors, c);
      if Matches(c, sensors[0]) {
        assert r[0] == sensors[0] && r[1..] == FilterSensors(sensors[1..], c);
      }
    }
  }

  /** Each sensor appears in the result exactly as often as in the input when it matches,
      and not at all when it does not. */
  lemma {:induction false} FilterMultiplicity(sensors: seq<Sensor>, c: FilterCriteria, x: Sensor)
    ensures multiset(FilterSensors(sensors, c))[x] == if Matches(c, x) then multiset(sensors)[x] else 0
  {
    if sensors != [] {
      FilterMultiplicity(sensors[1..], c, x);
      assert sensors == [sensors[0]] + sensors[1..];
      assert multiset(sensors) == multiset([sensors[0]]) + multiset(sensors[1..]);
    }
  }

  /** What one sensor contributes to the result: itself if it matches, nothing otherwise. */
  function Kept(c: FilterCriteria, x: Sensor): seq<Sensor>
  {
    if Matches(c, x) then [x] else []
  }

  /** Filtering a list is deciding its first sensor, then filtering the rest. */
  lemma FilterCons(x: Sensor, rest: seq<Sensor>, c: FilterCriteria)
    ensures FilterSensors([x] + rest, c) == Kept(c, x) + FilterSensors(rest, c)
  {
    assert ([x] + rest)[1..] == rest;
  }

  /** Filtering a three-sensor list, one sensor at a time. */
  lemma FilterThree(a: Sensor, b: Sensor, d: Sensor, c: FilterCriteria)
    ensures FilterSensors([a, b, d], c) == Kept(c, a) + Kept(c, b) + Kept(c, d)
  {
    assert [a, b, d][1..] == [b, d];
    assert [b, d][1..] == [d];
    assert FilterSensors([d], c) == Kept(c, d);
  }

  /** A sensor is in the result iff it is in the input and meets all four criteria. */
  lemma FilterMembership(sensors: seq<Sensor>, c: FilterCriteria, x: Sensor)
    ensures x in FilterSensors(sensors, c) <==> x in sensors && Matches(c, x)
  {
    FilterMultiplicity(sensors, c, x);
  }

  /** When every sensor matches, the list comes back unchanged. */
  lemma {:induction false} FilterKeepsAllMatching(sensors: seq<Sensor>, c: FilterCriteria)
    requires forall k :: 0 <= k < |sensors| ==> Matches(c, sensors[k])
    ensures FilterSensors(sensors, c) == sensors
  {
    if sensors != [] {
      FilterKeepsAllMatching(sensors[1..], c);
      assert [sensors[0]] + sensors[1..] == sensors;
    }
  }

  /** Every sensor in the result meets all four criteria and comes from the input. */
  lemma {:induction false} FilterAllMatch(sensors: seq<Sensor>, c: FilterCriteria)
    ensures forall k :: 0 <= k < |FilterSensors(sensors, c)| ==>
      Matches(c, FilterSensors(sensors, c)[k]) && FilterSensors(sensors, c)[k] in sensors
  {
    if sensors != [] {
      FilterAllMatch(sensors[1..], c);
    }
  }

  /** Filtering twice with the same criteria is filtering once. */
  lemma FilterIdempotent(sensors: seq<Sensor>, c: FilterCriteria)
    ensures FilterSensors(FilterSensors(sensors, c), c) == FilterSensors(sensors, c)
  {
    FilterAllMatch(sensors, c);
    FilterKeepsAllMatching(FilterSensors(sensors, c), c);
  }

  /** The default criteria keep every sensor, so the list is shown as it is. */
  lemma DefaultCriteriaKeepAll(sensors: seq<Sensor>)
    ensures FilterSensors(sensors, DefaultCriteria) == sensors
  {
    assert Lower("") == "";
    FilterKeepsAllMatching(sensors, DefaultCriteria);
  }

  /** The search ignores ASCII case: a query and its lower-cased form select the same sensors. */
  lemma SearchIgnoresCase(query: string, s: Sensor)
    ensures MatchesSearch(Lower(query), s) == MatchesSearch(query, s)
  {
    LowerIdempotent(query);
  }

  /** Setting the time filter to `Today` selects what `AnyTime` selects. */
  lemma {:induction false} TodayFiltersLikeAnyTime(sensors: seq<Sensor>, c: FilterCriteria)
    ensures FilterSensors(sensors, c.(timeFilter := Today)) == FilterSensors(sensors, c.(timeFilter := AnyTime))
  {
    if sensors != [] {
      TodayFiltersLikeAnyTime(sensors[1..], c);
    }
  }

  /** Against the defaults, a status filter alone keeps exactly the sensors with that status. */
  lemma StatusAloneMatches(st: SensorStatus, s: Sensor)
    ensures Matches(DefaultCriteria.(statusFilter := OnlyStatus(st)), s) <==> s.status == st
  {
    EmptyQueryMatches(s);
  }

  /** Against the defaults, the low-battery switch alone keeps exactly the batteries below 30. */
  lemma LowBatteryAloneMatches(s: Sensor)
    ensures Matches(DefaultCriteria.(lowBatteryOnly := true), s) <==> s.battery < LowBatteryThreshold
  {
    EmptyQueryMatches(s);
  }

  /** Against the defaults, `Recent` alone keeps exactly the sensors with a recent label. */
  lemma RecentAloneMatches(s: Sensor)
    ensures Matches(DefaultCriteria.(timeFilter := Recent), s) <==> IsRecent(s.lastUpdated)
  {
    EmptyQueryMatches(s);
  }

  /** The battery criterion is strict: 29 percent is low, 30 is not. */
  lemma LowBatteryBoundary(s: Sensor)
    ensures MatchesBattery(true, s) <==> s.battery <= 29
    ensures s.battery == 30 ==> !MatchesBattery(true, s)
  {
  }

  /** A monitoring card draws its battery icon red exactly for the sensors the low-battery
      switch keeps. */
  function CardBatteryRed(s: Sensor): (r: bool)
    ensures r <==> MatchesBattery(true, s)
  {
    s.battery < 30
  }

  /** The dashboard's red battery icon (below 20) is stricter than the monitoring screen's
      low-battery criterion (below 30): every red icon passes the criterion, not conversely. */
  lemma BatteryThresholdsDiffer(s: Sensor)
    ensures Dashboard.BatteryIconRed(s.battery) ==> MatchesBattery(true, s)
    ensures s.battery == 25 ==> MatchesBattery(true, s) && !Dashboard.BatteryIconRed(s.battery)
  {
  }

  /** The badge: how many of status, battery and time differ from their defaults. The search
      text is not counted. */
  function ActiveFilterCount(c: FilterCriteria): (n: nat)
    ensures n <= 3
    ensures n == 0 <==> c.statusFilter == AllStatuses && !c.lowBatteryOnly && c.timeFilter == AnyTime
    ensures n == 3 <==> c.statusFilter != AllStatuses && c.lowBatteryOnly && c.timeFilter != AnyTime
  {
    (if c.statusFilter != AllStatuses then 1 else 0)
    + (if c.lowBatteryOnly then 1 else 0)
    + (if c.timeFilter != AnyTime then 1 else 0)
  }

  /** Each of status, battery and time adds exactly one to the badge when set away from its
      default; with the zero at the defaults this fixes the badge at the number of criteria set. */
  lemma ActiveFilterCountStep(c: FilterCriteria, st: SensorStatus, t: TimeFilter)
    requires t != AnyTime
    ensures ActiveFilterCount(c.(statusFilter := OnlyStatus(st))) == ActiveFilterCount(c.(statusFilter := AllStatuses)) + 1
    ensures ActiveFilterCount(c.(lowBatteryOnly := true)) == ActiveFilterCount(c.(lowBatteryOnly := false)) + 1
    ensures ActiveFilterCount(c.(timeFilter := t)) == ActiveFilterCount(c.(timeFilter := AnyTime)) + 1
  {
  }

  lemma ActiveFilterCountIgnoresSearch(c: FilterCriteria, query: string)
    ensures ActiveFilterCount(c.(searchQuery := query)) == ActiveFilterCount(c)
  {
  }

  /** `Today` lights the badge although it keeps every sensor the default keeps. */
  lemma TodayCountsButKeepsAll(sensors: seq<Sensor>)
    ensures ActiveFilterCount(DefaultCriteria.(timeFilter := Today)) == 1
    ensures FilterSensors(sensors, DefaultCriteria.(timeFilter := Today)) == sensors
  {
    TodayFiltersLikeAnyTime(sensors, DefaultCriteria);
    DefaultCriteriaKeepAll(sensors);
  }

  /** A sensor whose name and location both lack, in either case, one of the query's
      lower-case letters does not match the query. */
  lemma MissesSearch(s: Sensor, query: string, c: char)
    requires 'a' <= c <= 'z' && c in Lower(query)
    requires c !in s.name && (c as int - 32) as char !in s.name
    requires c !in s.location && (c as int - 32) as char !in s.location
    ensures !MatchesSearch(query, s)
  {
    LowerExcludes(s.name, Lower(query), c);
    LowerExcludes(s.location, Lower(query), c);
  }

  /** The empty query matches every sensor. */
  lemma EmptyQueryMatches(s: Sensor)
    ensures MatchesSearch("", s)
  {
    assert Lower("") == "";
    IncludesEmpty(Lower(s.name));
  }
}
