/**
 * The medication list of app/screens/MedicationsScreen.tsx: a list of
 * `Medication` records that can be marked taken, added from a four-field
 * form (name and dosage required) and deleted after a confirmation.
 */
module Medications {

  /** The `Medication` record. */
  datatype Medication = Medication(id: string, name: string, dosage: string, frequency: string, time: string, taken: bool)

  /** The `newMedication` form state. */
  datatype MedicationForm = MedicationForm(name: string, dosage: string, frequency: string, time: string)

  /** The alert `addMedication` shows: 'Error' for a missing name or dosage, 'Success' for an added entry. */
  datatype AddOutcome = MissingFields | Added

  /** The whole screen state after `addMedication`, with the alert shown. */
  datatype AddResult = AddResult(medications: seq<Medication>, form: MedicationForm, outcome: AddOutcome)

  const DefaultFrequency: string := "As needed"
  const DefaultTime: string := "Not specified"

  /** The form as it starts and as a successful add leaves it. */
  const EmptyForm: MedicationForm := MedicationForm("", "", "", "")

  /** The list the screen starts with. */
  const InitialMedications: seq<Medication> := [
    Medication("1", "Vitamin D", "1000 IU", "Once daily", "9:00 AM", false),
    Medication("2", "Omega-3", "500mg", "Twice daily", "9:00 AM, 6:00 PM", false)
  ]

  lemma InitialListShape()
    ensures |InitialMedications| == 2
    ensures InitialMedications[0].id == "1" && InitialMedications[1].id == "2"
    ensures forall m :: m in InitialMedications ==> !m.taken
  {
  }

  /** The entry with `taken` flipped. */
  function Flipped(m: Medication): Medication
  {
    m.(taken := !m.taken)
  }

  /**
   * `toggleMedicationTaken`: every entry with the given id has `taken`
   * flipped; all other entries, all other fields, the length and the order
   * stay as they were.
   */
  function ToggleTaken(meds: seq<Medication>, id: string): (r: seq<Medication>)
    ensures |r| == |meds|
    ensures forall i :: 0 <= i < |meds| && meds[i].id == id ==> r[i] == Flipped(meds[i])
    ensures forall i :: 0 <= i < |meds| && meds[i].id != id ==> r[i] == meds[i]
  {
    if meds == [] then []
    else
      var rest := ToggleTaken(meds[1..], id);
      [if meds[0].id == id then Flipped(meds[0]) else meds[0]] + rest
  }

  /** Marking the same id twice restores the list. */
  lemma ToggleTakenTwice(meds: seq<Medication>, id: string)
    ensures ToggleTaken(ToggleTaken(meds, id), id) == meds
  {
    var once := ToggleTaken(meds, id);
    var twice := ToggleTaken(once, id);
    forall i | 0 <= i < |meds| ensures twice[i] == meds[i] {
      assert once[i].id == meds[i].id;
    }
  }

  /** `medications.filter(med => med.id !== id)`. */
  function RemoveById(meds: seq<Medication>, id: string): (r: seq<Medication>)
    ensures forall m :: m in r <==> m in meds && m.id != id
    ensures |r| <= |meds|
    ensures (forall m :: m in meds ==> m.id != id) ==> r == meds
  {
    if meds == [] then []
    else if meds[0].id == id then RemoveById(meds[1..], id)
    else [meds[0]] + RemoveById(meds[1..], id)
  }

  /** Deletion distributes over concatenation, so the surviving entries keep their order. */
  lemma {:induction false} RemoveByIdAppend(a: seq<Medication>, b: seq<Medication>, id: string)
    ensures RemoveById(a + b, id) == RemoveById(a, id) + RemoveById(b, id)
  {
    if a == [] {
      assert a + b == b;
    } else {
      assert (a + b)[0] == a[0] && (a + b)[1..] == a[1..] + b;
      RemoveByIdAppend(a[1..], b, id);
    }
  }

  /**
   * `deleteMedication` followed by the user's answer to its confirmation:
   * "Delete" removes every entry with the id, "Cancel" keeps the list.
   */
  function Delete(meds: seq<Medication>, id: string, confirmed: bool): (r: seq<Medication>)
    ensures !confirmed ==> r == meds
    ensures confirmed ==> forall m :: m in r <==> m in meds && m.id != id
  {
    if confirmed then RemoveById(meds, id) else meds
  }

  /** The guard of `addMedication`: name and dosage must be non-empty. */
  predicate FormComplete(form: MedicationForm)
  {
    form.name != "" && form.dosage != ""
  }

  /** The record `addMedication` builds; `id` stands for `Date.now().toString()`. */
  function NewEntry(form: MedicationForm, id: string): (m: Medication)
    ensures m.id == id && m.name == form.name && m.dosage == form.dosage && !m.taken
    ensures m.frequency == (if form.frequency == "" then DefaultFrequency else form.frequency)
    ensures m.time == (if form.time == "" then DefaultTime else form.time)
  {
    Medication(id, form.name, form.dosage,
               if form.frequency != "" then form.frequency else DefaultFrequency,
               if form.time != "" then form.time else DefaultTime,
               false)
  }

  /**
   * `addMedication`: an incomplete form is reported and changes nothing; a
   * complete one appends exactly one entry at the end and clears the form.
   */
  function AddFromForm(meds: seq<Medication>, form: MedicationForm, id: string): (r: AddResult)
    ensures r.outcome == MissingFields <==> form.name == "" || form.dosage == ""
    ensures r.outcome == MissingFields ==> r.medications == meds && r.form == form
    ensures r.outcome == Added ==>
              && |r.medications| == |meds| + 1
              && r.medications[..|meds|] == meds
              && r.medications[|meds|] == NewEntry(form, id)
              && r.form == EmptyForm
  {
    if !FormComplete(form) then AddResult(meds, form, MissingFields)
    else AddResult(meds + [NewEntry(form, id)], EmptyForm, Added)
  }

  /** Every text field of an entry shows something. */
  predicate Filled(m: Medication)
  {
    m.name != "" && m.dosage != "" && m.frequency != "" && m.time != ""
  }

  predicate AllFilled(meds: seq<Medication>)
  {
    forall i :: 0 <= i < |meds| ==> Filled(meds[i])
  }

  /** What the user can do on the screen; `Add` carries the id the clock would give. */
  datatype MedicationAction =
    | MarkTaken(id: string)
    | Add(form: MedicationForm, newId: string)
    | Remove(id: string, confirmed: bool)

  /** The list after one action. */
  function Perform(meds: seq<Medication>, action: MedicationAction): seq<Medication>
  {
    match action
    case MarkTaken(id) => ToggleTaken(meds, id)
    case Add(form, newId) => AddFromForm(meds, form, newId).medications
    case Remove(id, confirmed) => Delete(meds, id, confirmed)
  }

  /** The list after a sequence of actions, first action first. */
  function PerformAll(meds: seq<Medication>, actions: seq<MedicationAction>): seq<Medication>
    decreases |actions|
  {
    if actions == [] then meds else PerformAll(Perform(meds, actions[0]), actions[1..])
  }

  /**
   * No action ever puts an entry with an empty field on the list: the add
   * guard rejects an empty name or dosage and the defaults fill the rest.
   */
  lemma PerformKeepsFilled(meds: seq<Medication>, action: MedicationAction)
    requires AllFilled(meds)
    ensures AllFilled(Perform(meds, action))
  {
    match action
    case MarkTaken(id) =>
    case Add(form, newId) =>
    case Remove(id, confirmed) =>
      var r := Delete(meds, id, confirmed);
      forall i | 0 <= i < |r| ensures Filled(r[i]) {
        assert r[i] in meds;
      }
  }

  lemma {:induction false} PerformAllKeepsFilled(meds: seq<Medication>, actions: seq<MedicationAction>)
    requires AllFilled(meds)
    ensures AllFilled(PerformAll(meds, actions))
    decreases |actions|
  {
    if actions != [] {
      PerformKeepsFilled(meds, actions[0]);
      PerformAllKeepsFilled(Perform(meds, actions[0]), actions[1..]);
    }
  }

  /** Every entry the screen can ever list has all four text fields filled in. */
  lemma ReachableEntriesFilled(actions: seq<MedicationAction>)
    ensures AllFilled(PerformAll(InitialMedications, actions))
  {
    PerformAllKeepsFilled(InitialMedications, actions);
  }

  /** The screen's state: the `medications` list and the `newMedication` form. */
  class MedicationsScreen {
    var medications: seq<Medication>
    var form: MedicationForm

    /** Every listed entry has all four text fields filled. */
    ghost predicate Valid()
      reads this
    {
      AllFilled(medications)
    }

    constructor ()
      ensures Valid() && medications == InitialMedications && form == EmptyForm
    {
      medications := InitialMedications;
      form := EmptyForm;
    }

    /** The "Mark as Taken" / "✓ Taken" button of the entry with this id. */
    method ToggleMedicationTaken(id: string)
      requires Valid()
      modifies this
      ensures Valid()
      ensures medications == ToggleTaken(old(medications), id) && form == old(form)
    {
      PerformKeepsFilled(medications, MarkTaken(id));
      medications := ToggleTaken(medications, id);
    }

    /** The "Add Medication" button; `id` is the value `Date.now().toString()` would give. */
    method AddMedication(id: string) returns (outcome: AddOutcome)
      requires Valid()
      modifies this
      ensures Valid()
      ensures AddResult(medications, form, outcome) == AddFromForm(old(medications), old(form), id)
    {
      PerformKeepsFilled(medications, Add(form, id));
      if form.name == "" || form.dosage == "" {
        outcome := MissingFields;
        return;
      }
      var medication := NewEntry(form, id);
      medications := medications + [medication];
      form := EmptyForm;
      outcome := Added;
    }

    /** The "×" button of an entry, with the user's answer to the confirmation. */
    method DeleteMedication(id: string, confirmed: bool)
      requires Valid()
      modifies this
      ensures Valid()
      ensures medications == Delete(old(medications), id, confirmed) && form == old(form)
    {
      PerformKeepsFilled(medications, Remove(id, confirmed));
      if confirmed {
        medications := RemoveById(medications, id);
      }
    }

    /** The four text inputs of the form. */
    method SetName(text: string)
      requires Valid()
      modifies this
      ensures Valid() && form == old(form).(name := text) && medications == old(medications)
    {
      form := form.(name := text);
    }

    method SetDosage(text: string)
      requires Valid()
      modifies this
      ensures Valid() && form == old(form).(dosage := text) && medications == old(medications)
    {
      form := form.(dosage := text);
    }

    method SetFrequency(text: string)
      requires Valid()
      modifies this
      ensures Valid() && form == old(form).(frequency := text) && medications == old(medications)
    {
      form := form.(frequency := text);
    }

    method SetTime(text: string)
      requires Valid()
      modifies this
      ensures Valid() && form == old(form).(time := text) && medications == old(medications)
    {
      form := form.(time := text);
    }
  }
}
