/**
 * The water-intake counter of app/screens/WaterTrackingScreen.tsx: a glass
 * count that starts at zero and is kept between zero and the daily goal by
 * the guarded `addWater` and `removeWater` handlers.
 */
module WaterTracking {

  /** `dailyGoal`: the number of glasses the screen asks for per day. */
  const DailyGoal: int := 8

  /** The initial value of the `waterGlasses` state. */
  const InitialGlasses: int := 0

  /** What one press of "+ Add Glass" produces: the new count, and whether the congratulation alert is shown. */
  datatype AddResult = AddResult(glasses: int, goalReached: bool)

  /** The range every count the screen displays ("n / 8 glasses") lies in. */
  predicate InRange(glasses: int)
  {
    0 <= glasses <= DailyGoal
  }

  /**
   * `addWater`: below the goal the count grows by one, and the alert fires
   * exactly when that step lands on the goal; at (or above) the goal nothing
   * happens.
   */
  function AddStep(glasses: int): (r: AddResult)
    ensures glasses < DailyGoal ==> r.glasses == glasses + 1
    ensures glasses >= DailyGoal ==> r.glasses == glasses
    ensures r.goalReached <==> r.glasses == DailyGoal && r.glasses != glasses
    ensures InRange(glasses) ==> InRange(r.glasses)
  {
    if glasses < DailyGoal then AddResult(glasses + 1, glasses + 1 == DailyGoal)
    else AddResult(glasses, false)
  }

  /** `removeWater`: above zero the count shrinks by one; at zero nothing happens. */
  function RemoveStep(glasses: int): (r: int)
    ensures glasses > 0 ==> r == glasses - 1
    ensures glasses <= 0 ==> r == glasses
    ensures InRange(glasses) ==> InRange(r)
  {
    if glasses > 0 then glasses - 1 else glasses
  }

  /** The two buttons of the screen. */
  datatype WaterAction = AddGlass | RemoveGlass

  /** The count after one button press. */
  function Apply(glasses: int, action: WaterAction): int
  {
    match action
    case AddGlass => AddStep(glasses).glasses
    case RemoveGlass => RemoveStep(glasses)
  }

  /** The count after a sequence of button presses, first press first. */
  function Run(glasses: int, actions: seq<WaterAction>): int
    decreases |actions|
  {
    if actions == [] then glasses else Run(Apply(glasses, actions[0]), actions[1..])
  }

  /** Whatever buttons are pressed, the count never leaves 0..DailyGoal. */
  lemma {:induction false} RunStaysInRange(glasses: int, actions: seq<WaterAction>)
    requires InRange(glasses)
    ensures InRange(Run(glasses, actions))
    decreases |actions|
  {
    if actions != [] {
      RunStaysInRange(Apply(glasses, actions[0]), actions[1..]);
    }
  }

  /** From the initial count, every reachable count is displayable as "n / 8" with n <= 8. */
  lemma ReachableCountsInRange(actions: seq<WaterAction>)
    ensures 0 <= Run(InitialGlasses, actions) <= DailyGoal
  {
    RunStaysInRange(InitialGlasses, actions);
  }

  /** Below the goal, adding a glass and removing it again restores the count. */
  lemma AddThenRemove(glasses: int)
    requires 0 <= glasses < DailyGoal
    ensures RemoveStep(AddStep(glasses).glasses) == glasses
  {
  }

  /**
   * The congratulation alert fires on the add that brings the count from
   * DailyGoal - 1 to the goal. The second clause, implied by the first,
   * spells out the case of an add pressed at the goal.
   */
  lemma GoalAlertOnlyOnArrival(glasses: int)
    requires InRange(glasses)
    ensures AddStep(glasses).goalReached <==> glasses == DailyGoal - 1
    ensures glasses == DailyGoal ==> !AddStep(glasses).goalReached
  {
  }

  /** The screen's state: its `waterGlasses` counter. */
  class WaterTracker {
    var glasses: int

    ghost predicate Valid()
      reads this
    {
      InRange(glasses)
    }

    constructor ()
      ensures Valid() && glasses == InitialGlasses
    {
      glasses := InitialGlasses;
    }

    /** "+ Add Glass": returns whether the goal-reached alert is shown. */
    method AddWater() returns (goalReached: bool)
      requires Valid()
      modifies this
      ensures Valid()
      ensures AddResult(glasses, goalReached) == AddStep(old(glasses))
    {
      goalReached := false;
      if glasses < DailyGoal {
        goalReached := glasses + 1 == DailyGoal;
        glasses := glasses + 1;
      }
    }

    /** "- Remove Glass". */
    method RemoveWater()
      requires Valid()
      modifies this
      ensures Valid()
      ensures glasses == RemoveStep(old(glasses))
    {
      if glasses > 0 {
        glasses := glasses - 1;
      }
    }
  }
}
