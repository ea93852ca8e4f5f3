/** The monitoring screen's criteria applied to the three mock sensors of constants.ts. Each
    example is assembled from one fact per sensor, proved on its own. */
module MonitoringExamples {
  import opened Types
  import opened Text
  import opened Constants
  import opened Monitoring

  /** Status `warning` alone keeps only the LPG store. */
  lemma MockWarningStatus()
    ensures FilterSensors(MockSensors, DefaultCriteria.(statusFilter := OnlyStatus(Warning))) == [LpgStorage]
  {
    StatusAloneMatches(Warning, KitchenMain);
    StatusAloneMatches(Warning, RestaurantUnitA);
    StatusAloneMatches(Warning, LpgStorage);
    FilterThree(KitchenMain, RestaurantUnitA, LpgStorage, DefaultCriteria.(statusFilter := OnlyStatus(Warning)));
  }

  /** Low battery alone keeps nothing: every mock battery is at 45 percent or more. */
  lemma MockLowBattery()
    ensures FilterSensors(MockSensors, DefaultCriteria.(lowBatteryOnly := true)) == []
  {
    LowBatteryAloneMatches(KitchenMain);
    LowBatteryAloneMatches(RestaurantUnitA);
    LowBatteryAloneMatches(LpgStorage);
    FilterThree(KitchenMain, RestaurantUnitA, LpgStorage, DefaultCriteria.(lowBatteryOnly := true));
  }

  /** The recency labels of the mock sensors: "2 mins ago" and "Now" are recent, "5 mins ago" is not. */
  lemma MockRecency()
    ensures IsRecent("2 mins ago") && IsRecent("Now") && !IsRecent("5 mins ago")
  {
    assert "2 mins" <= "2 mins ago";
    MissingCharNotIncluded("5 mins ago", "2 mins", '2');
  }

  /** `recent` keeps the kitchen sensor ("2 mins ago") and the LPG store ("Now"). */
  lemma MockRecent()
    ensures FilterSensors(MockSensors, DefaultCriteria.(timeFilter := Recent)) == [KitchenMain, LpgStorage]
  {
    MockRecency();
    RecentAloneMatches(KitchenMain);
    RecentAloneMatches(RestaurantUnitA);
    RecentAloneMatches(LpgStorage);
    FilterThree(KitchenMain, RestaurantUnitA, LpgStorage, DefaultCriteria.(timeFilter := Recent));
  }

  lemma LowerPokhara()
    ensures Lower("pokhara") == "pokhara" && Lower("Pokhara") == "pokhara"
  {
  }

  /** "Kitchen Main" and "Kathmandu" have no `p` in either case. */
  lemma PokharaMissesKitchenMain()
    ensures !MatchesSearch("pokhara", KitchenMain)
  {
    LowerPokhara();
    MissesSearch(KitchenMain, "pokhara", 'p');
  }

  /** The lower-case query matches the capitalised location "Pokhara". */
  lemma PokharaFindsRestaurantUnitA()
    ensures MatchesSearch("pokhara", RestaurantUnitA)
  {
    LowerPokhara();
    assert "pokhara" <= "pokhara";
  }

  /** "LPG Storage" and "Lalitpur" have no `k` in either case. */
  lemma PokharaMissesLpgStorage()
    ensures !MatchesSearch("pokhara", LpgStorage)
  {
    LowerPokhara();
    MissesSearch(LpgStorage, "pokhara", 'k');
  }

  /** The lower-case query "pokhara" finds the sensor located in "Pokhara" and nothing else. */
  lemma MockSearchPokhara()
    ensures FilterSensors(MockSensors, DefaultCriteria.(searchQuery := "pokhara")) == [RestaurantUnitA]
  {
    PokharaMissesKitchenMain();
    PokharaFindsRestaurantUnitA();
    PokharaMissesLpgStorage();
    FilterThree(KitchenMain, RestaurantUnitA, LpgStorage, DefaultCriteria.(searchQuery := "pokhara"));
  }
}
