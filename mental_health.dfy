/**
 * The mood and stress check-in of app/screens/MentalHealthScreen.tsx: two
 * optional ratings picked from five-button scales, free-text notes, and a
 * save that is refused until both ratings are set and that clears the form.
 */
module MentalHealth {
  import opened Common

  const MoodEmojis: seq<string> := ["😢", "😔", "😐", "🙂", "😊"]
  const MoodLabels: seq<string> := ["Very Sad", "Sad", "Neutral", "Happy", "Very Happy"]
  const StressEmojis: seq<string> := ["😌", "😊", "😐", "😰", "😱"]
  const StressLabels: seq<string> := ["Very Relaxed", "Relaxed", "Neutral", "Stressed", "Very Stressed"]

  /** The three state fields `mood`, `stressLevel` and `notes`. */
  datatype CheckIn = CheckIn(mood: Option<int>, stressLevel: Option<int>, notes: string)

  /** The form as it starts and as a successful save leaves it. */
  const EmptyCheckIn: CheckIn := CheckIn(None, None, "")

  /** The alert `saveMoodEntry` shows, by its title. */
  datatype SaveOutcome = IncompleteEntry | EntrySaved

  datatype SaveResult = SaveResult(checkIn: CheckIn, outcome: SaveOutcome)

  /**
   * `saveMoodEntry`: with either rating unset the entry is reported
   * incomplete and nothing changes; otherwise it is saved and all three
   * fields are reset.
   */
  function Save(c: CheckIn): (r: SaveResult)
    ensures r.outcome == IncompleteEntry <==> c.mood.None? || c.stressLevel.None?
    ensures r.outcome == IncompleteEntry ==> r.checkIn == c
    ensures r.outcome == EntrySaved ==> r.checkIn == EmptyCheckIn
  {
    if c.mood.None? || c.stressLevel.None? then SaveResult(c, IncompleteEntry)
    else SaveResult(EmptyCheckIn, EntrySaved)
  }

  /** Right after a successful save, saving again is refused until both ratings are picked anew. */
  lemma SaveAfterSaveIsIncomplete(c: CheckIn)
    requires Save(c).outcome == EntrySaved
    ensures Save(Save(c).checkIn) == SaveResult(EmptyCheckIn, IncompleteEntry)
  {
  }

  /** One button of a rating scale as `renderRatingScale` draws it; `caption` is `labels[index]`, absent when undefined. */
  datatype RatingButton = RatingButton(emoji: string, caption: Option<string>, value: int, highlighted: bool)

  /** `renderRatingScale`: one button per emoji, its value the emoji's index, highlighted when that index is selected. */
  function RatingScale(emojis: seq<string>, labels: seq<string>, selected: Option<int>): (r: seq<RatingButton>)
    ensures |r| == |emojis|
    ensures forall i :: 0 <= i < |r| ==> r[i].value == i && r[i].emoji == emojis[i]
    ensures forall i :: 0 <= i < |r| ==> (r[i].highlighted <==> selected == Some(i))
    ensures forall i :: 0 <= i < |r| ==> (r[i].caption.Some? <==> i < |labels|)
  {
    seq(|emojis|, i requires 0 <= i < |emojis| =>
      RatingButton(emojis[i], if i < |labels| then Some(labels[i]) else None, i, selected == Some(i)))
  }

  /** At most one button of a scale is highlighted, and some button is highlighted exactly when the selection is one of its values. */
  lemma AtMostOneHighlighted(emojis: seq<string>, labels: seq<string>, selected: Option<int>)
    ensures forall i, j :: 0 <= i < j < |emojis| ==>
              !(RatingScale(emojis, labels, selected)[i].highlighted && RatingScale(emojis, labels, selected)[j].highlighted)
    ensures (exists i :: 0 <= i < |emojis| && RatingScale(emojis, labels, selected)[i].highlighted) <==>
              selected.Some? && 0 <= selected.value < |emojis|
  {
    var r := RatingScale(emojis, labels, selected);
    if selected.Some? && 0 <= selected.value < |emojis| {
      assert r[selected.value].highlighted;
    }
  }

  /** The values a press on the mood or the stress scale can set: exactly 0..4. */
  predicate IsRating(v: int)
  {
    0 <= v < 5
  }

  /** Both real scales have five buttons and a label for every one, and their values are exactly the ratings. */
  lemma ScalesAreFiveLabelled(selected: Option<int>)
    ensures |MoodEmojis| == |MoodLabels| == |StressEmojis| == |StressLabels| == 5
    ensures forall b :: b in RatingScale(MoodEmojis, MoodLabels, selected) ==> b.caption.Some? && IsRating(b.value)
    ensures forall b :: b in RatingScale(StressEmojis, StressLabels, selected) ==> b.caption.Some? && IsRating(b.value)
    ensures forall v :: IsRating(v) ==> exists b :: b in RatingScale(MoodEmojis, MoodLabels, selected) && b.value == v
    ensures forall v :: IsRating(v) ==> exists b :: b in RatingScale(StressEmojis, StressLabels, selected) && b.value == v
  {
    var m := RatingScale(MoodEmojis, MoodLabels, selected);
    var s := RatingScale(StressEmojis, StressLabels, selected);
    forall v | IsRating(v)
      ensures exists b :: b in m && b.value == v
      ensures exists b :: b in s && b.value == v
    {
      assert m[v] in m && s[v] in s;
    }
  }

  /** A ratings field is well formed when it is unset or holds a value a scale button can set. */
  predicate RatingField(f: Option<int>)
  {
    f.Some? ==> IsRating(f.value)
  }

  predicate WellFormed(c: CheckIn)
  {
    RatingField(c.mood) && RatingField(c.stressLevel)
  }

  /** What the user can do on the screen. */
  datatype CheckInAction = PickMood(index: int) | PickStress(index: int) | EditNotes(text: string) | SaveEntry

  /** A scale button can only send one of its own indices. */
  predicate Allowed(a: CheckInAction)
  {
    match a
    case PickMood(index) => 0 <= index < |MoodEmojis|
    case PickStress(index) => 0 <= index < |StressEmojis|
    case _ => true
  }

  function Step(c: CheckIn, a: CheckInAction): CheckIn
  {
    match a
    case PickMood(index) => c.(mood := Some(index))
    case PickStress(index) => c.(stressLevel := Some(index))
    case EditNotes(text) => c.(notes := text)
    case SaveEntry => Save(c).checkIn
  }

  function StepAll(c: CheckIn, actions: seq<CheckInAction>): CheckIn
    decreases |actions|
  {
    if actions == [] then c else StepAll(Step(c, actions[0]), actions[1..])
  }

  /** Using only the screen's buttons, each rating is always unset or in 0..4. */
  lemma {:induction false} StepAllWellFormed(c: CheckIn, actions: seq<CheckInAction>)
    requires WellFormed(c)
    requires forall i :: 0 <= i < |actions| ==> Allowed(actions[i])
    ensures WellFormed(StepAll(c, actions))
    decreases |actions|
  {
    if actions != [] {
      assert Allowed(actions[0]);
      StepAllWellFormed(Step(c, actions[0]), actions[1..]);
    }
  }

  /** The screen's state. */
  class MentalHealthScreen {
    var mood: Option<int>
    var stressLevel: Option<int>
    var notes: string

    function State(): CheckIn
      reads this
    {
      CheckIn(mood, stressLevel, notes)
    }

    ghost predicate Valid()
      reads this
    {
      WellFormed(State())
    }

    constructor ()
      ensures Valid() && State() == EmptyCheckIn
    {
      mood, stressLevel, notes := None, None, "";
    }

    /** `setMood`, as the mood scale's `onSelect` calls it with a button index. */
    method SelectMood(index: int)
      requires Valid() && 0 <= index < |MoodEmojis|
      modifies this
      ensures Valid() && State() == old(State()).(mood := Some(index))
    {
      mood := Some(index);
    }

    /** `setStressLevel`, as the stress scale's `onSelect` calls it with a button index. */
    method SelectStressLevel(index: int)
      requires Valid() && 0 <= index < |StressEmojis|
      modifies this
      ensures Valid() && State() == old(State()).(stressLevel := Some(index))
    {
      stressLevel := Some(index);
    }

    /** `setNotes`, the notes input's change handler. */
    method SetNotes(text: string)
      requires Valid()
      modifies this
      ensures Valid() && State() == old(State()).(notes := text)
    {
      notes := text;
    }

    /** The "Save Check-in" button: returns the alert shown. */
    method SaveMoodEntry() returns (outcome: SaveOutcome)
      requires Valid()
      modifies this
      ensures Valid() && SaveResult(State(), outcome) == Save(old(State()))
    {
      if mood.None? || stressLevel.None? {
        outcome := IncompleteEntry;
        return;
      }
      outcome := EntrySaved;
      mood := None;
      stressLevel := None;
      notes := "";
    }
  }
}
