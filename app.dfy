/** The application shell: the state the top-level component keeps (language, active tab,
    the gas reading shared with the dashboard, the dismissal of the emergency overlay, the
    mobile menu and the first-run walkthrough) and the handlers that update it. */
module App {
  import opened Types
  import Dashboard
  import Gauge

  /** The four navigation entries. */
  datatype Tab = DashboardTab | MonitoringTab | ComplianceTab | SettingsTab

  /** Readings above this many ppm raise the emergency overlay. */
  const EmergencyPpm := 500

  /** The reading the shell starts with. */
  const InitialPpm := 245

  /** The language toggle swaps English and Nepali. */
  function Toggled(l: Language): (r: Language)
    ensures r != l
  {
    if l == EN then NP else EN
  }

  lemma ToggledTwice(l: Language)
    ensures Toggled(Toggled(l)) == l
  {
  }

  /** Each language's name, written in that language. */
  function LanguageName(l: Language): string
  {
    match l
    case EN => "English"
    case NP => "नेपाली"
  }

  /** The language button shows the name of the language it switches to. */
  function LanguageButtonCaption(l: Language): (r: string)
    ensures r == LanguageName(Toggled(l))
    ensures r != LanguageName(l)
  {
    if l == EN then "नेपाली" else "English"
  }

  /** The overlay is mounted while the reading is above 500 and the user has not dismissed it. */
  predicate OverlayShown(ppm: int, dismissed: bool)
  {
    ppm > EmergencyPpm && !dismissed
  }

  /** The dismissal flag after the reading moves from `oldPpm` to `newPpm`: the effect keyed on
      the reading runs only when the value changes, and clears the flag when the new value is
      above 500. */
  function DismissedAfterReading(oldPpm: int, newPpm: int, dismissed: bool): (r: bool)
    ensures newPpm != oldPpm && newPpm > EmergencyPpm ==> OverlayShown(newPpm, r)
    ensures newPpm == oldPpm ==> r == dismissed
    ensures newPpm <= EmergencyPpm ==> r == dismissed && !OverlayShown(newPpm, r)
    ensures r ==> dismissed
  {
    if newPpm != oldPpm && newPpm > EmergencyPpm then false else dismissed
  }

  /** The overlay only ever covers a reading the dashboard calls dangerous and whose gauge
      badge pulses. */
  lemma OverlayMeansDanger(ppm: int, dismissed: bool)
    requires OverlayShown(ppm, dismissed)
    ensures Dashboard.Classify(ppm) == Danger
    ensures Gauge.BadgePulses(ppm)
  {
  }

  class AppState {
    var language: Language
    var activeTab: Tab
    var ppm: int
    var emergencyDismissed: bool
    var mobileMenuOpen: bool
    var showOnboarding: bool
    /** Whether the browser's storage holds the "onboarded" mark. */
    var onboardedStored: bool

    /** The state once the first effects have run: English, dashboard, 245 ppm, nothing
        dismissed, menu closed, and the walkthrough shown unless storage holds the mark. */
    constructor(hasSeenOnboarding: bool)
      ensures language == EN && activeTab == DashboardTab
      ensures ppm == InitialPpm && !emergencyDismissed && !mobileMenuOpen
      ensures showOnboarding == !hasSeenOnboarding && onboardedStored == hasSeenOnboarding
      ensures !OverlayVisible()
    {
      language := EN;
      activeTab := DashboardTab;
      ppm := InitialPpm;
      emergencyDismissed := false;
      mobileMenuOpen := false;
      showOnboarding := !hasSeenOnboarding;
      onboardedStored := hasSeenOnboarding;
    }

    predicate OverlayVisible()
      reads this
    {
      OverlayShown(ppm, emergencyDismissed)
    }

    /** A new reading from the dashboard. A changed reading above 500 brings the overlay back
        even after a dismissal; an unchanged one leaves the dismissal alone. */
    method SetPpm(v: int)
      modifies this`ppm, this`emergencyDismissed
      ensures ppm == v
      ensures emergencyDismissed == DismissedAfterReading(old(ppm), v, old(emergencyDismissed))
      ensures v != old(ppm) && v > EmergencyPpm ==> OverlayVisible()
      ensures v <= EmergencyPpm ==> !OverlayVisible()
    {
      var changed := v != ppm;
      ppm := v;
      if changed && ppm > EmergencyPpm {
        emergencyDismissed := false;
      }
    }

    /** The overlay's dismiss button. */
    method DismissEmergency()
      modifies this`emergencyDismissed
      ensures emergencyDismissed
      ensures !OverlayVisible()
    {
      emergencyDismissed := true;
    }

    method ToggleLanguage()
      modifies this`language
      ensures language == Toggled(old(language))
    {
      language := Toggled(language);
    }

    /** A sidebar entry. */
    method SelectTab(t: Tab)
      modifies this`activeTab
      ensures activeTab == t
    {
      activeTab := t;
    }

    /** An entry of the mobile menu selects the tab and closes the menu. */
    method SelectTabFromMobileMenu(t: Tab)
      modifies this`activeTab, this`mobileMenuOpen
      ensures activeTab == t && !mobileMenuOpen
    {
      activeTab := t;
      mobileMenuOpen := false;
    }

    /** The header's menu button. */
    method ToggleMobileMenu()
      modifies this`mobileMenuOpen
      ensures mobileMenuOpen == !old(mobileMenuOpen)
    {
      mobileMenuOpen := !mobileMenuOpen;
    }

    /** The walkthrough's completion: the mark is stored and the walkthrough is closed. */
    method CompleteOnboarding()
      modifies this`showOnboarding, this`onboardedStored
      ensures onboardedStored && !showOnboarding
    {
      onboardedStored := true;
      showOnboarding := false;
    }
  }

  /** A dismissal lasts until the reading changes to another value above 500: 600 shows the
      overlay, dismissing hides it, 600 again keeps it hidden, 400 keeps it hidden, and the
      return to 600 shows it again. */
  method DismissalScenario() returns (atFirst: bool, afterDismiss: bool, sameAgain: bool, afterDrop: bool, afterRise: bool)
    ensures atFirst && !afterDismiss && !sameAgain && !afterDrop && afterRise
  {
    var app := new AppState(true);
    app.SetPpm(600);
    atFirst := app.OverlayVisible();
    app.DismissEmergency();
    afterDismiss := app.OverlayVisible();
    app.SetPpm(600);
    sameAgain := app.OverlayVisible();
    app.SetPpm(400);
    afterDrop := app.OverlayVisible();
    app.SetPpm(600);
    afterRise := app.OverlayVisible();
  }

  /** A first run shows the walkthrough; once completed, the stored mark keeps it closed on
      the next start. */
  method OnboardingOnce() returns (firstRun: bool, secondRun: bool)
    ensures firstRun && !secondRun
  {
    var app := new AppState(false);
    firstRun := app.showOnboarding;
    app.CompleteOnboarding();
    var next := new AppState(app.onboardedStored);
    secondRun := next.showOnboarding;
  }
}
