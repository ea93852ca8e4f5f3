# GasGuard front end, modelled in Dafny

GasGuard is a React dashboard for LPG leak sensors in Nepal. This project models the logic of its
screens and proves properties of that model:

- the monitoring screen's sensor filter (search text, status, low battery, recency), the badge
  that counts active filters, and the component state the filter controls update;
- the reading tiers (safe / warning / danger) used by the dashboard caption, the chart colour
  and the gauge, the gauge's clamp and colour cascade, and the battery-icon thresholds;
- the advice panel's line cleaning: split at newlines, then strip one leading bullet (`•`, `*`
  or `-`) and the whitespace after it;
- the application shell: reading, emergency-overlay dismissal and its re-arming, language
  toggle, tabs, mobile menu and the first-run walkthrough flag;
- the onboarding walkthrough's page counter, progress dots and button caption.

Modules, one file each: `Types` (entities), `Constants` (translated captions, mock sensors),
`Text` (the string operations used: ASCII lower-casing, substring search, split/join,
ECMAScript `\s`), `Dashboard`, `Gauge`, `Monitoring` (the pure filter),
`MonitoringExamples` (the filter on the mock sensors), `MonitoringScreen` (the screen's state
as a class), `App` (the shell's state as a class) and `Onboarding` (the walkthrough as a class).

The model follows the code: the overlay's dismissal is cleared by an effect that depends on
the reading alone (App.tsx:50-54). React runs it only when the reading changes, so an unchanged
reading above 500 does not bring a dismissed overlay back, while any change to another value
above 500 does. `App.DismissalScenario`
walks through this: 600, dismiss, 600 again (still hidden), 400 (hidden), 600 (shown).

## Model

| member | source | states |
|---|---|---|
| Constants.TierCaption | constants.ts:44-46 | the tier captions of both languages (English at constants.ts:21-23); their meaning is stated by Constants.TierCaptionInjective and Dashboard.StatusLabel |
| Constants.TierCaptionInjective | constants.ts:21-23 | within one language the three tier captions are pairwise different |
| Text.AsciiLower | components/Monitoring.tsx:31 | only the 26 ASCII capitals change, each to the letter 32 code points above; the result is never an ASCII capital |
| Text.Lower | components/Monitoring.tsx:31-32 | lower-casing keeps the length and lower-cases each character in place |
| Text.LowerIdempotent | components/Monitoring.tsx:31-32 | lower-casing twice is lower-casing once |
| Text.Includes | components/Monitoring.tsx:31-32 | the substring test `includes`; its meaning is stated by Text.IncludesIffOccurs and Text.IncludesEmpty |
| Text.IncludesIffOccurs | components/Monitoring.tsx:31-32 | the left-to-right substring search succeeds iff the query occurs at some index of the text |
| Text.IncludesEmpty | components/Monitoring.tsx:31-32 | the empty query is found in every text |
| Text.MissingCharNotIncluded | components/Monitoring.tsx:31-32 | a text lacking one of the query's characters does not include the query |
| Text.LowerMissing | components/Monitoring.tsx:31-32 | lower-casing yields a lower-case letter only from that letter or its capital |
| Text.LowerExcludes | components/Monitoring.tsx:31-32 | a text lacking both cases of one of the query's letters does not match it after lower-casing |
| Text.Split | components/Dashboard.tsx:161 | `split` at one separator character; its meaning is stated by Text.SplitPieces and Text.SplitJoin |
| Text.SplitPieces | components/Dashboard.tsx:161 | splitting at newlines yields one piece more than there are newlines, none holding a newline, and joining them back gives the text |
| Text.SplitJoin | components/Dashboard.tsx:161 | splitting undoes joining for pieces free of the separator |
| Text.SplitNoSeparator | components/Dashboard.tsx:161 | a text without the separator is one piece |
| Text.SplitPrefix | components/Dashboard.tsx:161 | a separator-free first piece, the separator, then the rest, splits into that piece followed by the rest's pieces |
| Text.TrimStartSpaces | components/Dashboard.tsx:164 | the `\s*` run after a bullet; its meaning is stated by Text.TrimStartSpacesSuffix and Text.TrimStartSpacesOf |
| Text.TrimStartSpacesSuffix | components/Dashboard.tsx:164 | trimming leading whitespace keeps a suffix, drops only whitespace and leaves no leading whitespace |
| Text.TrimStartSpacesOf | components/Dashboard.tsx:164 | whitespace followed by text not starting with whitespace trims to exactly that text |
| Dashboard.Classify | components/Dashboard.tsx:53-57 | danger iff above 500, warning iff in (200, 500], safe iff at most 200: the tiers partition all readings |
| Dashboard.ClassifyMonotone | components/Dashboard.tsx:53-57 | a higher reading never gets a lower tier |
| Dashboard.StatusLabel | components/Dashboard.tsx:53-57 | the caption is the current language's entry for the reading's tier |
| Dashboard.StatusLabelSameIffSameTier | components/Dashboard.tsx:38 | two readings get the same caption iff they are in the same tier |
| Dashboard.ChartColourFor | components/Dashboard.tsx:207-208 | the chart uses the palette's secondary orange iff the reading is not in the safe tier (above 200), the primary navy otherwise |
| Dashboard.BatteryIconRed | components/Dashboard.tsx:324 | a dashboard sensor's battery icon is red iff the battery is at most 19 percent |
| Dashboard.StripBullet | components/Dashboard.tsx:164 | the bullet-stripping replacement on one line; its meaning is stated by Dashboard.StripBulletSuffix and Dashboard.StripBulletOf |
| Dashboard.StripBulletSuffix | components/Dashboard.tsx:164 | a cleaned line is a suffix of the line; a line without a leading bullet is unchanged; otherwise exactly the bullet and the whitespace run after it go |
| Dashboard.StripBulletOf | components/Dashboard.tsx:164 | a bullet, whitespace, then text not starting with whitespace cleans to exactly that text |
| Dashboard.StripAll | components/Dashboard.tsx:161-164 | every piece is cleaned, in order, and none is dropped |
| Dashboard.AdviceLines | components/Dashboard.tsx:161-164 | the advice split at newlines with each piece cleaned; its meaning is stated by Dashboard.AdviceLineCount, Dashboard.SingleLineAdvice and Dashboard.TwoLineAdvice |
| Dashboard.AdviceLineCount | components/Dashboard.tsx:161-164 | the panel shows newline count plus one lines, the k-th being the k-th piece cleaned |
| Dashboard.SingleLineAdvice | components/Dashboard.tsx:161-164 | a text without newlines is one line, unchanged when it does not start with a bullet |
| Dashboard.TwoLineAdvice | components/Dashboard.tsx:161-164 | two newline-free lines joined by a newline are cleaned one by one |
| Dashboard.StripBulletExamples | components/Dashboard.tsx:164 | "* Vent" cleans to "Vent" and "-  Call" to "Call" |
| Dashboard.StripBulletKeepsRest | components/Dashboard.tsx:164 | only the first bullet goes ("-- x" becomes "- x"); "Vent" stays as it is |
| Dashboard.BulletedAdviceExample | components/Dashboard.tsx:161-164 | a bulleted two-line advice text becomes the two clean lines |
| Gauge.Normalize | components/Gauge.tsx:10 | the clamped value lies in [0, 1000], equals the value inside that range, and is the nearer bound outside it |
| Gauge.NormalizeIdempotent | components/Gauge.tsx:10 | clamping twice is clamping once |
| Gauge.NormalizeMonotone | components/Gauge.tsx:10 | clamping keeps the order of readings |
| Gauge.Colour | components/Gauge.tsx:16-18 | green iff at most 200, amber iff in (200, 500], red iff above 500, from the raw value |
| Gauge.ColourMatchesTier | components/Gauge.tsx:16-18 | the gauge colour is the colour of the dashboard's tier for the same reading |
| Gauge.ColourUsesRawValue | components/Gauge.tsx:16-18 | the colour ignores the clamp: 1500 is red and -5 is green |
| Gauge.BadgePulses | components/Gauge.tsx:50 | the badge pulses iff the colour is red iff the tier is danger |
| Monitoring.MatchesSearch | components/Monitoring.tsx:31-32 | case-insensitive search on name or location; stated by Monitoring.SearchIgnoresCase, Monitoring.EmptyQueryMatches and Monitoring.MissesSearch |
| Monitoring.MatchesStatus | components/Monitoring.tsx:33 | `all` or the sensor's own status; stated by Monitoring.StatusAloneMatches |
| Monitoring.MatchesBattery | components/Monitoring.tsx:34 | no limit, or battery below 30; stated by Monitoring.LowBatteryAloneMatches and Monitoring.LowBatteryBoundary |
| Monitoring.IsRecent | components/Monitoring.tsx:39 | "Now" or a label containing "2 mins"; stated by MonitoringExamples.MockRecency |
| Monitoring.MatchesTime | components/Monitoring.tsx:37-40 | only `recent` constrains; stated by Monitoring.RecentAloneMatches and Monitoring.TodayFiltersLikeAnyTime |
| Monitoring.Matches | components/Monitoring.tsx:42 | all four tests hold; stated by Monitoring.FilterMembership |
| Monitoring.FilterSensors | components/Monitoring.tsx:29-44 | filtering never lengthens the list |
| Monitoring.FilterIsSubsequence | components/Monitoring.tsx:30 | the result is an order-preserving subsequence of the input |
| Monitoring.FilterMultiplicity | components/Monitoring.tsx:30-43 | each sensor occurs in the result as often as in the input when it matches, and not at all otherwise |
| Monitoring.FilterCons | components/Monitoring.tsx:30 | filtering decides the first sensor, then filters the rest |
| Monitoring.FilterThree | components/Monitoring.tsx:30 | a three-sensor list is filtered sensor by sensor |
| Monitoring.FilterMembership | components/Monitoring.tsx:31-42 | a sensor is in the result iff it is in the input and search, status, battery and time all hold |
| Monitoring.FilterKeepsAllMatching | components/Monitoring.tsx:29-44 | when every sensor matches, the result is the input |
| Monitoring.FilterAllMatch | components/Monitoring.tsx:29-44 | every sensor of the result matches the criteria |
| Monitoring.FilterIdempotent | components/Monitoring.tsx:29-44 | filtering the filtered list again changes nothing |
| Monitoring.DefaultCriteriaKeepAll | components/Monitoring.tsx:23-27 | the initial criteria (empty search, all statuses, no battery limit, any time) keep every sensor |
| Monitoring.SearchIgnoresCase | components/Monitoring.tsx:31-32 | lower-casing the query first does not change the search result |
| Monitoring.TodayFiltersLikeAnyTime | components/Monitoring.tsx:37-40 | the `today` choice selects exactly what `all` selects |
| Monitoring.StatusAloneMatches | components/Monitoring.tsx:33 | against otherwise default criteria, a status choice keeps exactly the sensors with that status |
| Monitoring.LowBatteryAloneMatches | components/Monitoring.tsx:34 | against otherwise default criteria, the switch keeps exactly the batteries below 30 |
| Monitoring.RecentAloneMatches | components/Monitoring.tsx:37-40 | against otherwise default criteria, `recent` keeps exactly the sensors with a recent label |
| Monitoring.LowBatteryBoundary | components/Monitoring.tsx:34 | the battery test is strict: 29 percent passes, 30 does not |
| Monitoring.CardBatteryRed | components/Monitoring.tsx:258 | a monitoring card's battery icon is red iff the low-battery switch would keep the sensor |
| Monitoring.BatteryThresholdsDiffer | components/Dashboard.tsx:324 | every sensor with a red dashboard icon passes the low-battery filter, but 25 percent passes without a red icon |
| Monitoring.ActiveFilterCount | components/Monitoring.tsx:46 | the badge is in 0..3, is 0 iff status, battery and time are all at their defaults, and 3 iff none is; its step-by-step value is Monitoring.ActiveFilterCountStep |
| Monitoring.ActiveFilterCountStep | components/Monitoring.tsx:46 | setting status, battery or time away from its default adds exactly one to the badge; with 0 at the defaults this makes the badge the number of criteria set |
| Monitoring.ActiveFilterCountIgnoresSearch | components/Monitoring.tsx:46 | the search text never changes the badge |
| Monitoring.TodayCountsButKeepsAll | components/Monitoring.tsx:46 | `today` lights the badge with 1 yet keeps every sensor |
| Monitoring.MissesSearch | components/Monitoring.tsx:31-32 | a sensor whose name and location both lack, in either case, one of the query's letters does not match |
| Monitoring.EmptyQueryMatches | components/Monitoring.tsx:31-32 | the empty query matches every sensor |
| MonitoringExamples.MockWarningStatus | constants.ts:63-67 | status `warning` alone keeps only "LPG Storage" |
| MonitoringExamples.MockLowBattery | constants.ts:63-67 | the low-battery switch alone keeps no mock sensor |
| MonitoringExamples.MockRecency | constants.ts:64-66 | "2 mins ago" and "Now" are recent, "5 mins ago" is not |
| MonitoringExamples.MockRecent | components/Monitoring.tsx:37-40 | `recent` keeps "Kitchen Main" and "LPG Storage", in that order |
| MonitoringExamples.LowerPokhara | components/Monitoring.tsx:31-32 | "Pokhara" and "pokhara" both lower-case to "pokhara" |
| MonitoringExamples.PokharaMissesKitchenMain | constants.ts:64 | the query "pokhara" does not match "Kitchen Main" in "Kathmandu" |
| MonitoringExamples.PokharaFindsRestaurantUnitA | constants.ts:65 | the query "pokhara" matches the location "Pokhara" |
| MonitoringExamples.PokharaMissesLpgStorage | constants.ts:66 | the query "pokhara" does not match "LPG Storage" in "Lalitpur" |
| MonitoringExamples.MockSearchPokhara | components/Monitoring.tsx:31-32 | searching "pokhara" keeps only "Restaurant Unit A" |
| MonitoringScreen.Screen.constructor | components/Monitoring.tsx:23-27 | the screen opens with the panel closed and the default criteria |
| MonitoringScreen.Screen.SetSearchQuery | components/Monitoring.tsx:72 | typing replaces only the query, and the badge stays the same |
| MonitoringScreen.Screen.ToggleFilterPanel | components/Monitoring.tsx:77 | the filter button flips the panel |
| MonitoringScreen.Screen.CloseFilterPanel | components/Monitoring.tsx:97 | the close button closes the panel |
| MonitoringScreen.Screen.SelectStatus | components/Monitoring.tsx:110 | a status button replaces only the status criterion |
| MonitoringScreen.Screen.ToggleLowBatteryOnly | components/Monitoring.tsx:130 | the switch flips only the battery criterion |
| MonitoringScreen.Screen.SelectTimeFilter | components/Monitoring.tsx:142 | the select replaces only the time criterion |
| MonitoringScreen.Screen.ClearFilters | components/Monitoring.tsx:48-52 | status, battery and time return to their defaults, the search text is kept, and the badge is 0 |
| MonitoringScreen.Screen.Visible | components/Monitoring.tsx:29-44 | the mock sensors filtered by the current criteria; stated by MonitoringScreen.VisibleIsFiltered |
| MonitoringScreen.Screen.Badge | components/Monitoring.tsx:46 | the badge of the current criteria; stated by MonitoringScreen.Screen.ClearFilters and MonitoringScreen.Screen.SetSearchQuery |
| MonitoringScreen.WarningThenClear | components/Monitoring.tsx:48-52 | picking `warning` shows "LPG Storage" with badge 1; clearing shows all three mock sensors with badge 0 |
| MonitoringScreen.VisibleIsFiltered | components/Monitoring.tsx:29-44 | in any state, the visible list is an ordered subsequence of the mock sensors, holding exactly those that meet the current criteria |
| App.Toggled | App.tsx:56-58 | the toggle always changes the language |
| App.ToggledTwice | App.tsx:56-58 | toggling twice restores the language |
| App.LanguageButtonCaption | App.tsx:149 | the language button names the language it switches to, never the current one |
| App.DismissedAfterReading | App.tsx:49-54 | a changed reading above 500 shows the overlay; an unchanged reading or one at most 500 leaves the flag alone; the flag is never set by a reading |
| App.OverlayShown | App.tsx:217 | above 500 and not dismissed; stated by App.DismissedAfterReading and App.OverlayMeansDanger |
| App.OverlayMeansDanger | App.tsx:217 | the overlay only covers readings in the danger tier, whose gauge badge pulses |
| App.AppState.constructor | App.tsx:27-32 | English, dashboard tab, 245 ppm, nothing dismissed, menu closed, the walkthrough shown unless storage holds the mark; the overlay is hidden |
| App.AppState.OverlayVisible | App.tsx:217 | the overlay condition on the current state; stated by App.AppState.constructor, App.AppState.SetPpm and App.AppState.DismissEmergency |
| App.AppState.SetPpm | App.tsx:49-54 | the reading is replaced; the flag is cleared only for a changed reading above 500; the overlay is hidden whenever the reading is at most 500 |
| App.AppState.DismissEmergency | App.tsx:220 | dismissing sets the flag, leaves the reading alone, and hides the overlay |
| App.AppState.ToggleLanguage | App.tsx:56-58 | the language becomes the other one |
| App.AppState.SelectTab | App.tsx:118 | a sidebar entry selects its tab |
| App.AppState.SelectTabFromMobileMenu | App.tsx:185-188 | a mobile menu entry selects its tab and closes the menu |
| App.AppState.ToggleMobileMenu | App.tsx:170 | the menu button flips the menu |
| App.AppState.CompleteOnboarding | App.tsx:42-45 | completion stores the mark and closes the walkthrough |
| App.DismissalScenario | App.tsx:49-54 | 600 shows the overlay; after dismissing, 600 again and 400 keep it hidden; the return to 600 shows it |
| App.OnboardingOnce | App.tsx:35-45 | a first start shows the walkthrough; after completion the next start does not |
| Onboarding.Dots | components/Onboarding.tsx:57 | there are three dots and dot i is highlighted iff i is the current page |
| Onboarding.HighlightedOne | components/Onboarding.tsx:57 | dots with one highlighted position count one highlighted dot |
| Onboarding.HighlightedNone | components/Onboarding.tsx:57 | dots with none highlighted count zero |
| Onboarding.OneDotPerPage | components/Onboarding.tsx:54-59 | on every page exactly one dot is highlighted, the current one |
| Onboarding.ButtonCaption | components/Onboarding.tsx:67 | "Get Started" (or its Nepali form) iff on the last page, "Next" (or its Nepali form) otherwise |
| Onboarding.Wizard.constructor | components/Onboarding.tsx:12 | the walkthrough starts on page 0 |
| Onboarding.Wizard.Press | components/Onboarding.tsx:64 | before the last page the page advances by one without completing; on the last page it completes and the page stays; the page stays in 0..2 and never decreases |
| Onboarding.Walkthrough | components/Onboarding.tsx:64-67 | three presses: two advance under "Next", the third completes under "Get Started" |

## Left out

- The advice itself: it comes from a hosted language model over the network
  (services/geminiService.ts), through an asynchronous effect in which the last response wins
  (components/Dashboard.tsx:43-51). The model takes the advice text as a parameter of
  `Dashboard.AdviceLines`; the fetch, its loading state and the fixed fallback sentence are not
  modelled.
- Browser storage: the "onboarded" mark is the constructor parameter `hasSeenOnboarding` of
  `App.AppState` and the field `onboardedStored`. The read happens in an effect after the
  first render, so the very first render (walkthrough not yet shown) is not modelled.
- `App.AppState.SetPpm`: the effect runs after the render in which the reading changed, so
  for one frame a dismissed overlay stays hidden before it re-appears. The model applies the
  effect as part of the same step.
- The reading slider's `parseInt` (components/Dashboard.tsx:125): `SetPpm` takes an integer.
- `App.AppState.SelectTab`: the tab is one of the four navigation entries. The source keeps it
  as free text with a "module under maintenance" fallback page that no button can reach.
- The gauge's arc geometry (percentage, circumference, dash offset): floating point.
- `Text.Lower`: ASCII only. JavaScript's `toLowerCase` also folds non-ASCII letters.
- The Compliance, Settings and EmergencyOverlay screens: static markup and show/hide
  toggles. The overlay's only behaviour, its dismiss callback, is `DismissEmergency`.
- The mains-power switch of the dashboard, the page titles, texts, icons and colours of the
  walkthrough, and all styling, charts and layout.
- Translation tables other than the three tier captions and the walkthrough button captions.
