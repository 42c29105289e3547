# SAJH Health Monitor: a Dafny model of its screen state

SAJH Health Monitor is a mobile health-information app. A navigation shell shows one of seven screens and opens a slide-out drawer to switch between them. Four screens hold local state: a water-intake counter, a symptom self-checker, a medication list and a mood/stress check-in. This project models that state and the handlers that change it, and proves what the app promises about them.

One module per source file:

| module | file | source |
|---|---|---|
| `Common` | common.dfy | the `T \| null` option type and a no-duplicates predicate |
| `WaterTracking` | water_tracking.dfy | app/screens/WaterTrackingScreen.tsx |
| `SymptomChecker` | symptom_checker.dfy | app/screens/SymptomCheckerScreen.tsx |
| `Medications` | medications.dfy | app/screens/MedicationsScreen.tsx |
| `MentalHealth` | mental_health.dfy | app/screens/MentalHealthScreen.tsx |
| `Shell` | health_app.dfy | app/HealthApp.tsx |
| `Drawer` | custom_drawer.dfy | components/CustomDrawer.tsx |

Each screen module and the shell share one shape:
- Pure step functions give a handler's effect on the state as a value. Their `ensures` say what the step means, and lemmas about them state the invariants over any sequence of user actions.
- A class holds the component's `useState` fields. Its methods are proved to change those fields exactly as the step functions say. Each class has a `Valid()` invariant that its methods keep:
  - the water count is in 0..8;
  - the symptom selection has no duplicates;
  - every medication entry has all four text fields filled;
  - the ratings are unset or in 0..4;
  - the current screen is a key of the screen tables.

The `Drawer` module has no `useState` fields. Its class `DrawerAnimation` holds the `translateX` shared value, and `HandleItemPress` is a module-level method that calls the shell's two callbacks in order.

How the model treats the app's outside world:
- Alerts become returned outcome tags: `AddOutcome`, `CheckOutcome`, `SaveOutcome`.
- The delete confirmation dialog becomes a `confirmed` flag.
- The clock-generated medication id (`Date.now().toString()`) is a parameter. Ids are not assumed unique, so toggling and deleting act on every entry with the id.
- The drawer width is a positive real parameter.

"Severe Headache" is on the serious-symptom list but is not one of the twelve symptom buttons. So no sequence of presses on the screen can select it. `SymptomChecker.SevereHeadacheUnreachable` proves this. For every reachable selection, the serious test comes down to "Chest Pain" or "Shortness of Breath".

The drawer renders nothing as soon as `isOpen` is false (components/CustomDrawer.tsx:63). `Drawer.Render` does the same, and `Drawer.CloseAnimationNeverShown` proves the close animation is never on screen.

`navigateToScreen` casts its argument unchecked (app/HealthApp.tsx:49). An unknown key would leave `screens[currentScreen]` undefined, so a known key is a precondition of `Shell.Navigated` and `Shell.HealthApp.NavigateToScreen`. `Drawer.MenuTouchesAreKnown` proves the menu only ever sends known keys.

## Model

| member | source | states |
|---|---|---|
| WaterTracking.AddStep | app/screens/WaterTrackingScreen.tsx:11-18 | below the goal of 8 the count grows by exactly one, at or above it nothing changes; the alert fires exactly when the step makes the count reach the goal; the step keeps the count in 0..8 |
| WaterTracking.RemoveStep | app/screens/WaterTrackingScreen.tsx:20-24 | above zero the count drops by exactly one, at zero nothing changes; the step keeps the count in 0..8 |
| WaterTracking.RunStaysInRange | app/screens/WaterTrackingScreen.tsx:8-24 | any sequence of add and remove presses from a count in 0..8 ends in 0..8 |
| WaterTracking.ReachableCountsInRange | app/screens/WaterTrackingScreen.tsx:8-9 | from the initial count 0, every reachable count n satisfies 0 <= n <= 8, so "n / 8 glasses" never shows n above 8 |
| WaterTracking.AddThenRemove | app/screens/WaterTrackingScreen.tsx:11-24 | from any count below the goal, add then remove restores the count |
| WaterTracking.GoalAlertOnlyOnArrival | app/screens/WaterTrackingScreen.tsx:12-16 | the goal alert fires on an add exactly when the count was 7, and never on an add at the goal |
| WaterTracking.WaterTracker.constructor | app/screens/WaterTrackingScreen.tsx:8 | the screen starts with 0 glasses |
| WaterTracking.WaterTracker.AddWater | app/screens/WaterTrackingScreen.tsx:11-18 | the new count and the returned alert flag are those of AddStep on the old count; 0..8 is kept |
| WaterTracking.WaterTracker.RemoveWater | app/screens/WaterTrackingScreen.tsx:20-24 | the new count is RemoveStep of the old count; 0..8 is kept |
| SymptomChecker.Without | app/screens/SymptomCheckerScreen.tsx:18 | the symptom no longer occurs, every other symptom is present exactly when it was, each other symptom keeps its multiplicity, and a list without the symptom is returned unchanged |
| SymptomChecker.WithoutAppend | app/screens/SymptomCheckerScreen.tsx:18 | removing distributes over concatenation, so the remaining symptoms keep their order |
| SymptomChecker.WithoutKeepsNoDuplicates | app/screens/SymptomCheckerScreen.tsx:18 | removing a symptom from a duplicate-free list leaves it duplicate-free |
| SymptomChecker.Toggle | app/screens/SymptomCheckerScreen.tsx:16-22 | the pressed symptom is selected afterwards exactly when it was not before, no other symptom's membership changes, an absent symptom is appended at the end with the rest unchanged, and a present one shortens the list |
| SymptomChecker.ToggleKeepsNoDuplicates | app/screens/SymptomCheckerScreen.tsx:16-22 | a toggle keeps a duplicate-free selection duplicate-free |
| SymptomChecker.ToggleTwiceAbsent | app/screens/SymptomCheckerScreen.tsx:16-22 | pressing an unselected symptom twice gives back the original list |
| SymptomChecker.ToggleAllKeepsNoDuplicates | app/screens/SymptomCheckerScreen.tsx:16-22 | any sequence of presses keeps a duplicate-free selection duplicate-free |
| SymptomChecker.ReachableSelectionsHaveNoDuplicates | app/screens/SymptomCheckerScreen.tsx:8 | from the initial empty selection, no sequence of presses creates a duplicate |
| SymptomChecker.ToggleAllWithin | app/screens/SymptomCheckerScreen.tsx:65-72 | when the selection and every toggled symptom come from a pool, the resulting selection stays within it |
| SymptomChecker.IsSerious | app/screens/SymptomCheckerScreen.tsx:30-32 | true exactly when some selected symptom is Chest Pain, Shortness of Breath or Severe Headache |
| SymptomChecker.CheckSymptoms | app/screens/SymptomCheckerScreen.tsx:24-47 | "No Symptoms Selected" exactly for the empty selection; "Seek Medical Attention" exactly when some selected symptom is serious; "General Advice" exactly for a non-empty selection with none serious |
| SymptomChecker.SevereHeadacheNotOffered | app/screens/SymptomCheckerScreen.tsx:10-14 | no symptom button is "Severe Headache" |
| SymptomChecker.OfferedSeriousSymptoms | app/screens/SymptomCheckerScreen.tsx:10-14 | the only buttons on the serious list are Chest Pain and Shortness of Breath |
| SymptomChecker.SevereHeadacheUnreachable | app/screens/SymptomCheckerScreen.tsx:31 | Severe Headache is on the serious list yet never in a selection made with the buttons; for those selections "serious" means Chest Pain or Shortness of Breath is selected |
| SymptomChecker.SymptomSelection.constructor | app/screens/SymptomCheckerScreen.tsx:8 | the selection starts empty |
| SymptomChecker.SymptomSelection.ToggleSymptom | app/screens/SymptomCheckerScreen.tsx:16-22 | the new selection is Toggle of the old one, and it stays duplicate-free |
| SymptomChecker.SymptomSelection.Check | app/screens/SymptomCheckerScreen.tsx:24-47 | the alert returned is CheckSymptoms of the current selection |
| Medications.InitialListShape | app/screens/MedicationsScreen.tsx:17-34 | the initial list has two entries, ids "1" and "2", neither taken |
| Medications.ToggleTaken | app/screens/MedicationsScreen.tsx:43-47 | length and order are kept; each entry with the id has exactly its taken flag flipped; every other entry is unchanged |
| Medications.ToggleTakenTwice | app/screens/MedicationsScreen.tsx:44-46 | toggling the same id twice gives back the list |
| Medications.RemoveById | app/screens/MedicationsScreen.tsx:78 | the survivors are exactly the entries whose id differs; the list never grows; without a matching entry it is unchanged |
| Medications.RemoveByIdAppend | app/screens/MedicationsScreen.tsx:78 | deletion distributes over concatenation, so survivors keep their order |
| Medications.Delete | app/screens/MedicationsScreen.tsx:69-82 | cancel leaves the list unchanged; delete keeps exactly the entries with another id |
| Medications.NewEntry | app/screens/MedicationsScreen.tsx:55-62 | the new record has the given id, name and dosage and is not taken; an empty frequency becomes "As needed" and an empty time "Not specified" |
| Medications.AddFromForm | app/screens/MedicationsScreen.tsx:49-67 | an empty name or dosage gives the error outcome with list and form unchanged; otherwise exactly one entry, NewEntry of the form, is appended at the end and all four form fields are cleared |
| Medications.PerformKeepsFilled | app/screens/MedicationsScreen.tsx:43-82 | marking, adding and deleting never put an entry with an empty name, dosage, frequency or time on a list that has none |
| Medications.PerformAllKeepsFilled | app/screens/MedicationsScreen.tsx:43-82 | the same holds for any sequence of those actions |
| Medications.ReachableEntriesFilled | app/screens/MedicationsScreen.tsx:17-34 | every entry the screen can ever list has all four text fields filled |
| Medications.MedicationsScreen.constructor | app/screens/MedicationsScreen.tsx:17-41 | the screen starts with the two initial entries, both filled, and an empty form |
| Medications.MedicationsScreen.ToggleMedicationTaken | app/screens/MedicationsScreen.tsx:43-47 | the new list is ToggleTaken of the old one; the form is unchanged; every entry stays filled |
| Medications.MedicationsScreen.AddMedication | app/screens/MedicationsScreen.tsx:49-67 | the new list, the new form and the returned outcome are those of AddFromForm on the old list and form; every entry stays filled |
| Medications.MedicationsScreen.DeleteMedication | app/screens/MedicationsScreen.tsx:69-82 | the new list is Delete of the old one for the user's answer; the form is unchanged; every entry stays filled |
| Medications.MedicationsScreen.SetName | app/screens/MedicationsScreen.tsx:132 | only the form's name changes |
| Medications.MedicationsScreen.SetDosage | app/screens/MedicationsScreen.tsx:138 | only the form's dosage changes |
| Medications.MedicationsScreen.SetFrequency | app/screens/MedicationsScreen.tsx:144 | only the form's frequency changes |
| Medications.MedicationsScreen.SetTime | app/screens/MedicationsScreen.tsx:150 | only the form's time changes |
| MentalHealth.Save | app/screens/MentalHealthScreen.tsx:18-34 | "Incomplete Entry" exactly when mood or stress level is unset, with all three fields unchanged; otherwise "Entry Saved" and the fields are reset to unset, unset and empty |
| MentalHealth.SaveAfterSaveIsIncomplete | app/screens/MentalHealthScreen.tsx:30-33 | right after a successful save, a second save is refused |
| MentalHealth.RatingScale | app/screens/MentalHealthScreen.tsx:36-61 | one button per emoji, whose value is its index; a button is highlighted exactly when its index is the selected value; its label is defined exactly when the label array reaches that index |
| MentalHealth.AtMostOneHighlighted | app/screens/MentalHealthScreen.tsx:51 | no two buttons of a scale are highlighted; some button is highlighted exactly when the selected value is one of the scale's indices |
| MentalHealth.ScalesAreFiveLabelled | app/screens/MentalHealthScreen.tsx:12-16 | both scales have five emojis and five labels; every button is labelled; the selectable values are exactly 0..4 |
| MentalHealth.StepAllWellFormed | app/screens/MentalHealthScreen.tsx:75-89 | using only the scale buttons, the notes input and save, mood and stress level are always unset or in 0..4 |
| MentalHealth.MentalHealthScreen.constructor | app/screens/MentalHealthScreen.tsx:8-10 | the form starts with mood and stress unset and empty notes |
| MentalHealth.MentalHealthScreen.SelectMood | app/screens/MentalHealthScreen.tsx:75-81 | only mood changes, to the pressed index |
| MentalHealth.MentalHealthScreen.SelectStressLevel | app/screens/MentalHealthScreen.tsx:83-89 | only stress level changes, to the pressed index |
| MentalHealth.MentalHealthScreen.SetNotes | app/screens/MentalHealthScreen.tsx:93-97 | only the notes change |
| MentalHealth.MentalHealthScreen.SaveMoodEntry | app/screens/MentalHealthScreen.tsx:18-34 | the new fields and the returned outcome are those of Save on the old fields |
| Shell.TablesShareKeys | app/HealthApp.tsx:18-36 | the component table and the title table have exactly the same seven keys, so both lookups are total on a known screen |
| Shell.TablesInjective | app/HealthApp.tsx:18-36 | distinct screen keys map to distinct components and distinct titles |
| Shell.Opened | app/HealthApp.tsx:45 | the drawer is open afterwards and the screen is unchanged |
| Shell.Closed | app/HealthApp.tsx:46 | the drawer is closed afterwards and the screen is unchanged |
| Shell.Navigated | app/HealthApp.tsx:48-51 | for a known key, the state afterwards is that screen with the drawer closed, whatever it was before |
| Shell.OpenCloseIdempotent | app/HealthApp.tsx:45-46 | opening twice is opening once; closing twice is closing once |
| Shell.LastCommandWins | app/HealthApp.tsx:45-46 | after any run of opens and closes, the drawer is open exactly when the last command was an open, and the screen never changes |
| Shell.NavigateToWaterFromStart | app/HealthApp.tsx:39-51 | navigating to WaterTracking from the initial state closes the drawer, shows title "Water Tracking" and mounts the water screen |
| Shell.HealthApp.constructor | app/HealthApp.tsx:39-40 | the shell starts on Home with the drawer closed |
| Shell.HealthApp.OpenDrawer | app/HealthApp.tsx:45 | the new state is Opened of the old one |
| Shell.HealthApp.CloseDrawer | app/HealthApp.tsx:46 | the new state is Closed of the old one |
| Shell.HealthApp.NavigateToScreen | app/HealthApp.tsx:48-51 | for a known key, the new state is Navigated of the old one, and the screen stays known |
| Shell.HealthApp.HeaderTitle | app/HealthApp.tsx:67 | the header shows an entry of the title table, defined for every reachable state |
| Drawer.ItemsDistinct | components/CustomDrawer.tsx:36-44 | the menu has seven items with distinct ids and distinct target screens |
| Drawer.ItemsAgreeWithShell | components/CustomDrawer.tsx:36-44 | every item targets a key of the shell's component table and carries that key's title, and every key has an item |
| Drawer.ActiveItemUnique | components/CustomDrawer.tsx:92 | at most one item is highlighted, and one is exactly when the current screen is a known key |
| Drawer.HeaderMatchesActiveItem | components/CustomDrawer.tsx:92-101 | the shell's header title is the title of the highlighted drawer item |
| Drawer.Render | components/CustomDrawer.tsx:63-117 | nothing is rendered exactly when the drawer is closed; otherwise one row per menu item in menu order, highlighted exactly when its screen is current |
| Drawer.RenderHighlightsExactlyOne | components/CustomDrawer.tsx:87-104 | an open drawer on a known screen highlights exactly one row |
| Drawer.TranslateTarget | components/CustomDrawer.tsx:50-52 | the animation target is 0 exactly when open, and minus the drawer width when closed |
| Drawer.LatestIsOpenWins | components/CustomDrawer.tsx:50-52 | after any series of isOpen changes, the target depends only on the last value |
| Drawer.OpenCloseOpenTargetsOpen | components/CustomDrawer.tsx:50-52 | open, close, open ends targeting the open position |
| Drawer.CloseAnimationNeverShown | components/CustomDrawer.tsx:63 | whenever something is rendered the target is 0, and whenever the target is the hidden offset nothing is rendered |
| Drawer.DrawerAnimation.constructor | components/CustomDrawer.tsx:48 | the shared value starts at minus the drawer width |
| Drawer.DrawerAnimation.OnIsOpenChange | components/CustomDrawer.tsx:50-52 | the effect sets the shared value's target to TranslateTarget of the new isOpen |
| Drawer.TouchEffects | components/CustomDrawer.tsx:58-74 | a row press leaves its screen current with the drawer closed, and the trailing close changes nothing; a scrim tap and the back request close the drawer and keep the screen; a tap on the panel changes nothing |
| Drawer.MenuTouchesAreKnown | components/CustomDrawer.tsx:94 | every menu row sends a screen key the shell can navigate to |
| Drawer.HandleItemPress | components/CustomDrawer.tsx:58-61 | navigate then close leaves the pressed screen current and the drawer closed, as the callback sequence says |

## Left out

- Rendering, styles, themed components, `ParallaxScrollView`, the status bar and colour scheme: presentation only.
- app/screens/HomeScreen.tsx, app/screens/NutritionGuideScreen.tsx and app/screens/HealthTipsScreen.tsx: static text, plus `Linking.openURL`, a foreign call. app/_layout.tsx only wraps the app in a theme provider.
- Alert dialogs: only their titles are modelled, as outcome tags. The delete confirmation is the `confirmed` input.
- `Date.now()`: the medication id is a parameter.
- The `withTiming` interpolation (300 ms), `Dimensions.get('window')` and the factor 0.8 in `DRAWER_WIDTH`: floating-point animation and device I/O. Only the target offset is modelled, against a positive width parameter.
- The water progress-bar width `(waterGlasses / dailyGoal) * 100`: floating-point display. Its input range is covered by `WaterTracking.ReachableCountsInRange`.
- Screen state across navigation: the shell mounts `screens[currentScreen]` (app/HealthApp.tsx:43,74). Navigating to a different key unmounts the previous screen and discards its state. On return the water count is 0 again, the symptom selection is empty, the list holds only the two initial medications, and the check-in is cleared. Navigating to the screen already shown keeps its state. The four screen classes are not composed with `Shell`, so the model does not capture this reset.
- React's asynchronous state batching: each handler is modelled as one atomic update of the state it reads.
- Shell.HealthApp.HeaderTitle: states only that the title comes from the title table. That it is the title of the current screen's drawer item is `Drawer.HeaderMatchesActiveItem`.
