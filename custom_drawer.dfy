/**
 * The slide-out navigation drawer of components/CustomDrawer.tsx: a fixed
 * menu over the shell's seven screens, the active-item highlight, the
 * rendering guard, the slide animation's target offset, and the wiring of
 * presses to the shell's `onNavigate` and `onClose` callbacks.
 */
module Drawer {
  import opened Common
  import opened Shell

  /** The `DrawerItem` record. */
  datatype DrawerItem = DrawerItem(id: string, title: string, icon: string, screen: string)

  /** `drawerItems`, in menu order. */
  const DrawerItems: seq<DrawerItem> := [
    DrawerItem("home", "Home", "🏠", "Home"),
    DrawerItem("water", "Water Tracking", "💧", "WaterTracking"),
    DrawerItem("nutrition", "Nutrition Guide", "🥗", "NutritionGuide"),
    DrawerItem("symptoms", "Symptom Checker", "🩺", "SymptomChecker"),
    DrawerItem("medications", "Medications", "💊", "Medications"),
    DrawerItem("mental", "Mental Health", "🧠", "MentalHealth"),
    DrawerItem("tips", "Health Tips", "💡", "HealthTips")
  ]

  /** The menu has seven items with pairwise distinct ids and pairwise distinct target screens. */
  lemma ItemsDistinct()
    ensures |DrawerItems| == 7
    ensures forall i, j :: 0 <= i < j < |DrawerItems| ==> DrawerItems[i].id != DrawerItems[j].id
    ensures forall i, j :: 0 <= i < j < |DrawerItems| ==> DrawerItems[i].screen != DrawerItems[j].screen
  {
  }

  /**
   * The menu and the shell's tables describe the same seven screens: each
   * item targets a key of `screens` and carries that key's header title, and
   * every key has an item.
   */
  lemma ItemsAgreeWithShell()
    ensures forall i :: 0 <= i < |DrawerItems| ==> DrawerItems[i].screen in Screens
    ensures forall i :: 0 <= i < |DrawerItems| ==> ScreenTitles[DrawerItems[i].screen] == DrawerItems[i].title
    ensures forall k :: k in Screens ==> exists i :: 0 <= i < |DrawerItems| && DrawerItems[i].screen == k
  {
    forall k | k in Screens ensures exists i :: 0 <= i < |DrawerItems| && DrawerItems[i].screen == k {
      var i := if k == "Home" then 0 else if k == "WaterTracking" then 1 else if k == "NutritionGuide" then 2
               else if k == "SymptomChecker" then 3 else if k == "Medications" then 4
               else if k == "MentalHealth" then 5 else 6;
      assert DrawerItems[i].screen == k;
    }
  }

  /** The highlight test `currentScreen === item.screen`. */
  predicate IsActive(currentScreen: string, item: DrawerItem)
  {
    currentScreen == item.screen
  }

  /** At most one item is highlighted, and exactly one when the current screen is a shell key. */
  lemma ActiveItemUnique(currentScreen: string)
    ensures forall i, j ::
              (0 <= i < |DrawerItems| && 0 <= j < |DrawerItems| &&
               IsActive(currentScreen, DrawerItems[i]) && IsActive(currentScreen, DrawerItems[j])) ==> i == j
    ensures currentScreen in Screens <==> exists i :: 0 <= i < |DrawerItems| && IsActive(currentScreen, DrawerItems[i])
  {
    ItemsDistinct();
    ItemsAgreeWithShell();
  }

  /** The shell's header title is the title of the menu item the drawer highlights. */
  lemma HeaderMatchesActiveItem(st: ShellState)
    requires ValidState(st)
    ensures exists i :: 0 <= i < |DrawerItems| && IsActive(st.currentScreen, DrawerItems[i]) && DrawerItems[i].title == Title(st)
  {
    ItemsAgreeWithShell();
    var i :| 0 <= i < |DrawerItems| && DrawerItems[i].screen == st.currentScreen;
    assert IsActive(st.currentScreen, DrawerItems[i]);
  }

  /** One menu row as drawn: its item and whether it is highlighted. */
  datatype MenuRow = MenuRow(item: DrawerItem, active: bool)

  /** The component's output: nothing while closed (`if (!isOpen) return null`), otherwise the menu rows. */
  function Render(isOpen: bool, currentScreen: string): (r: Option<seq<MenuRow>>)
    ensures r.None? <==> !isOpen
    ensures r.Some? ==> |r.value| == |DrawerItems|
    ensures r.Some? ==> forall i :: 0 <= i < |DrawerItems| ==>
              r.value[i].item == DrawerItems[i] && (r.value[i].active <==> IsActive(currentScreen, DrawerItems[i]))
  {
    if !isOpen then None
    else Some(seq(|DrawerItems|, i requires 0 <= i < |DrawerItems| =>
                MenuRow(DrawerItems[i], IsActive(currentScreen, DrawerItems[i]))))
  }

  /** While the drawer shows a valid screen, exactly one of its rows is highlighted. */
  lemma RenderHighlightsExactlyOne(currentScreen: string)
    requires currentScreen in Screens
    ensures exists i :: 0 <= i < |DrawerItems| && Render(true, currentScreen).value[i].active
    ensures forall i, j ::
              (0 <= i < |DrawerItems| && 0 <= j < |DrawerItems| &&
               Render(true, currentScreen).value[i].active && Render(true, currentScreen).value[j].active) ==> i == j
  {
    ActiveItemUnique(currentScreen);
    var i :| 0 <= i < |DrawerItems| && IsActive(currentScreen, DrawerItems[i]);
    assert Render(true, currentScreen).value[i].active;
  }

  /**
   * The offset the effect animates `translateX` towards: on screen (0) when
   * open, one drawer width to the left when closed. `drawerWidth` stands for
   * `DRAWER_WIDTH`, a positive device-dependent value.
   */
  function TranslateTarget(isOpen: bool, drawerWidth: real): (x: real)
    requires drawerWidth > 0.0
    ensures isOpen ==> x == 0.0
    ensures !isOpen ==> x == -drawerWidth
    ensures x == 0.0 <==> isOpen
  {
    if isOpen then 0.0 else -drawerWidth
  }

  /** The target after the effect has run once for each value of `isOpen` in turn, from the initial `-DRAWER_WIDTH`. */
  function TargetAfter(start: real, drawerWidth: real, changes: seq<bool>): real
    requires drawerWidth > 0.0
    decreases |changes|
  {
    if changes == [] then start else TargetAfter(TranslateTarget(changes[0], drawerWidth), drawerWidth, changes[1..])
  }

  /** The target depends only on the latest `isOpen`, not on the history or on timing. */
  lemma {:induction false} LatestIsOpenWins(start: real, drawerWidth: real, changes: seq<bool>)
    requires drawerWidth > 0.0 && changes != []
    ensures TargetAfter(start, drawerWidth, changes) == TranslateTarget(changes[|changes| - 1], drawerWidth)
    decreases |changes|
  {
    if |changes| > 1 {
      LatestIsOpenWins(TranslateTarget(changes[0], drawerWidth), drawerWidth, changes[1..]);
      assert changes[1..][|changes[1..]| - 1] == changes[|changes| - 1];
    }
  }

  /** Open, close, open in quick succession ends targeting the open position. */
  lemma OpenCloseOpenTargetsOpen(start: real, drawerWidth: real)
    requires drawerWidth > 0.0
    ensures TargetAfter(start, drawerWidth, [true, false, true]) == 0.0
  {
    LatestIsOpenWins(start, drawerWidth, [true, false, true]);
  }

  /**
   * Whenever the drawer renders anything its target is the open position,
   * and whenever the target is the hidden position nothing is rendered: the
   * close animation is never on screen.
   */
  lemma CloseAnimationNeverShown(isOpen: bool, currentScreen: string, drawerWidth: real)
    requires drawerWidth > 0.0
    ensures Render(isOpen, currentScreen).Some? ==> TranslateTarget(isOpen, drawerWidth) == 0.0
    ensures TranslateTarget(isOpen, drawerWidth) == -drawerWidth ==> Render(isOpen, currentScreen).None?
  {
  }

  /** The shared value `translateX`, holding the animation's current target. */
  class DrawerAnimation {
    const drawerWidth: real
    var translateX: real

    ghost predicate Valid()
      reads this
    {
      drawerWidth > 0.0
    }

    /** `useSharedValue(-DRAWER_WIDTH)`. */
    constructor (drawerWidth: real)
      requires drawerWidth > 0.0
      ensures Valid() && this.drawerWidth == drawerWidth && translateX == -drawerWidth
    {
      this.drawerWidth := drawerWidth;
      translateX := -drawerWidth;
    }

    /** The effect run when `isOpen` changes. */
    method OnIsOpenChange(isOpen: bool)
      requires Valid()
      modifies this
      ensures Valid() && translateX == TranslateTarget(isOpen, drawerWidth)
    {
      translateX := if isOpen then 0.0 else -drawerWidth;
    }
  }

  /** Where the user can touch while the drawer is shown. */
  datatype Touch =
    | MenuItemPress(screen: string)  // a menu row
    | OverlayPress                   // the scrim outside the panel
    | PanelPress                     // the panel outside any row
    | BackRequest                    // the hardware back button (`onRequestClose`)

  /** The callbacks into the shell, in call order. */
  datatype Callback = OnNavigate(target: string) | OnClose

  /** Which callbacks each touch invokes: a row calls `onNavigate` then `onClose`, the scrim and back call `onClose`, the panel nothing. */
  function Callbacks(t: Touch): seq<Callback>
  {
    match t
    case MenuItemPress(screen) => [OnNavigate(screen), OnClose]
    case OverlayPress => [OnClose]
    case PanelPress => []
    case BackRequest => [OnClose]
  }

  predicate TargetsKnown(cbs: seq<Callback>)
  {
    forall i :: 0 <= i < |cbs| && cbs[i].OnNavigate? ==> cbs[i].target in Screens
  }

  /** The shell state after the callbacks run in order. */
  function Invoke(st: ShellState, cbs: seq<Callback>): ShellState
    requires TargetsKnown(cbs)
    decreases |cbs|
  {
    if cbs == [] then st
    else
      var next := match cbs[0]
        case OnNavigate(target) => Navigated(st, target)
        case OnClose => Closed(st);
      Invoke(next, cbs[1..])
  }

  /**
   * Against the shell: a row press shows its screen with the drawer closed
   * (the extra `onClose` after `onNavigate` changes nothing); the scrim and
   * the back button close the drawer and keep the screen; a press on the
   * panel itself changes nothing.
   */
  lemma TouchEffects(st: ShellState, t: Touch)
    requires t.MenuItemPress? ==> t.screen in Screens
    ensures TargetsKnown(Callbacks(t))
    ensures t.MenuItemPress? ==> Invoke(st, Callbacks(t)) == ShellState(t.screen, false)
    ensures t.MenuItemPress? ==> Invoke(st, Callbacks(t)) == Invoke(st, [OnNavigate(t.screen)])
    ensures t.OverlayPress? || t.BackRequest? ==> Invoke(st, Callbacks(t)) == ShellState(st.currentScreen, false)
    ensures t.PanelPress? ==> Invoke(st, Callbacks(t)) == st
  {
  }

  /** Every row of the menu sends a key the shell can navigate to. */
  lemma MenuTouchesAreKnown(i: int)
    requires 0 <= i < |DrawerItems|
    ensures TargetsKnown(Callbacks(MenuItemPress(DrawerItems[i].screen)))
  {
    ItemsAgreeWithShell();
  }

  /** `handleItemPress`: `onNavigate(screen)` then `onClose()`, with the shell as the owner of both callbacks. */
  method HandleItemPress(app: HealthApp, screen: string)
    requires app.Valid() && screen in Screens
    modifies app
    ensures app.Valid() && app.State() == Invoke(old(app.State()), Callbacks(MenuItemPress(screen)))
    ensures app.State() == ShellState(screen, false)
  {
    app.NavigateToScreen(screen);
    app.CloseDrawer();
  }
}
