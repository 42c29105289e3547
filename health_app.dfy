/**
 * The navigation shell of app/HealthApp.tsx: which of the seven screens is
 * shown and whether the drawer is open, the two constant tables that map a
 * screen key to its component and to its header title, and the three
 * handlers that change the state.
 */
module Shell {

  /** The screen components the `screens` table refers to. */
  datatype ScreenComponent =
    | HomeScreen
    | WaterTrackingScreen
    | NutritionGuideScreen
    | SymptomCheckerScreen
    | MedicationsScreen
    | MentalHealthScreen
    | HealthTipsScreen

  /** `screens`: screen key to component. */
  const Screens: map<string, ScreenComponent> := map[
    "Home" := HomeScreen,
    "WaterTracking" := WaterTrackingScreen,
    "NutritionGuide" := NutritionGuideScreen,
    "SymptomChecker" := SymptomCheckerScreen,
    "Medications" := MedicationsScreen,
    "MentalHealth" := MentalHealthScreen,
    "HealthTips" := HealthTipsScreen
  ]

  /** `screenTitles`: screen key to header title. */
  const ScreenTitles: map<string, string> := map[
    "Home" := "Home",
    "WaterTracking" := "Water Tracking",
    "NutritionGuide" := "Nutrition Guide",
    "SymptomChecker" := "Symptom Checker",
    "Medications" := "Medications",
    "MentalHealth" := "Mental Health",
    "HealthTips" := "Health Tips"
  ]

  /** The seven keys of `keyof typeof screens`. */
  const ScreenKeys: set<string> :=
    {"Home", "WaterTracking", "NutritionGuide", "SymptomChecker", "Medications", "MentalHealth", "HealthTips"}

  /** Both tables have exactly the seven screen keys, so both lookups are total on every screen key. */
  lemma TablesShareKeys()
    ensures Screens.Keys == ScreenTitles.Keys == ScreenKeys
    ensures |ScreenKeys| == 7
  {
  }

  /** Different keys name different components and different titles. */
  lemma TablesInjective(a: string, b: string)
    requires a in Screens && b in Screens && a != b
    ensures Screens[a] != Screens[b]
    ensures ScreenTitles[a] != ScreenTitles[b]
  {
  }

  /** The shell's two state fields. */
  datatype ShellState = ShellState(currentScreen: string, isDrawerOpen: bool)

  /** The screen shown is one the tables know. */
  predicate ValidState(st: ShellState)
  {
    st.currentScreen in Screens
  }

  const InitialState: ShellState := ShellState("Home", false)

  /** `openDrawer`. */
  function Opened(st: ShellState): (r: ShellState)
    ensures r.isDrawerOpen && r.currentScreen == st.currentScreen
  {
    st.(isDrawerOpen := true)
  }

  /** `closeDrawer`. */
  function Closed(st: ShellState): (r: ShellState)
    ensures !r.isDrawerOpen && r.currentScreen == st.currentScreen
  {
    st.(isDrawerOpen := false)
  }

  /**
   * `navigateToScreen`: the target becomes the current screen and the
   * drawer ends closed, whatever the state before. The cast in the source
   * is unchecked; a key outside the tables is ruled out by the requires.
   */
  function Navigated(st: ShellState, screen: string): (r: ShellState)
    requires screen in Screens
    ensures r == ShellState(screen, false) && ValidState(r)
  {
    Closed(st.(currentScreen := screen))
  }

  /** Opening and closing are idempotent. */
  lemma OpenCloseIdempotent(st: ShellState)
    ensures Opened(Opened(st)) == Opened(st)
    ensures Closed(Closed(st)) == Closed(st)
  {
  }

  /** `screenTitles[currentScreen]`, the header text. */
  function Title(st: ShellState): string
    requires ValidState(st)
  {
    ScreenTitles[st.currentScreen]
  }

  /** `screens[currentScreen]`, the component mounted below the header. */
  function Component(st: ShellState): ScreenComponent
    requires ValidState(st)
  {
    Screens[st.currentScreen]
  }

  /** The header's menu button and the drawer's close request. */
  datatype DrawerCommand = Open | Close

  function Command(st: ShellState, c: DrawerCommand): ShellState
  {
    match c
    case Open => Opened(st)
    case Close => Closed(st)
  }

  function CommandAll(st: ShellState, cs: seq<DrawerCommand>): ShellState
    decreases |cs|
  {
    if cs == [] then st else CommandAll(Command(st, cs[0]), cs[1..])
  }

  /** After any run of opens and closes the drawer is open exactly when the last command was an open; the screen never changes. */
  lemma {:induction false} LastCommandWins(st: ShellState, cs: seq<DrawerCommand>)
    ensures CommandAll(st, cs).currentScreen == st.currentScreen
    ensures CommandAll(st, cs).isDrawerOpen == if cs == [] then st.isDrawerOpen else cs[|cs| - 1] == Open
    decreases |cs|
  {
    if cs != [] {
      LastCommandWins(Command(st, cs[0]), cs[1..]);
      if |cs| > 1 {
        assert cs[1..][|cs[1..]| - 1] == cs[|cs| - 1];
      }
    }
  }

  /** Navigating from the initial state to the water screen closes the drawer and shows the "Water Tracking" title. */
  lemma NavigateToWaterFromStart()
    ensures Navigated(InitialState, "WaterTracking") == ShellState("WaterTracking", false)
    ensures Title(Navigated(InitialState, "WaterTracking")) == "Water Tracking"
    ensures Component(Navigated(InitialState, "WaterTracking")) == WaterTrackingScreen
  {
  }

  /** The shell component's state. */
  class HealthApp {
    var currentScreen: string
    var isDrawerOpen: bool

    function State(): ShellState
      reads this
    {
      ShellState(currentScreen, isDrawerOpen)
    }

    ghost predicate Valid()
      reads this
    {
      ValidState(State())
    }

    constructor ()
      ensures Valid() && State() == InitialState
    {
      currentScreen := "Home";
      isDrawerOpen := false;
    }

    /** The header's menu button. */
    method OpenDrawer()
      requires Valid()
      modifies this
      ensures Valid() && State() == Opened(old(State()))
    {
      isDrawerOpen := true;
    }

    /** The drawer's `onClose`. */
    method CloseDrawer()
      requires Valid()
      modifies this
      ensures Valid() && State() == Closed(old(State()))
    {
      isDrawerOpen := false;
    }

    /** The drawer's `onNavigate`. */
    method NavigateToScreen(screen: string)
      requires Valid() && screen in Screens
      modifies this
      ensures Valid() && State() == Navigated(old(State()), screen)
    {
      currentScreen := screen;
      CloseDrawer();
    }

    /** The header title shown for the current state. */
    function HeaderTitle(): (t: string)
      reads this
      requires Valid()
      ensures t in ScreenTitles.Values
    {
      Title(State())
    }
  }
}
