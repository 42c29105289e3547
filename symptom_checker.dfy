/**
 * The symptom self-checker of app/screens/SymptomCheckerScreen.tsx: a list
 * of selected symptoms used as a set (a press toggles membership) and the
 * three-way advice given when "Check Symptoms" is pressed.
 */
module SymptomChecker {
  import opened Common

  /** `commonSymptoms`: the buttons the screen offers, in display order. */
  const CommonSymptoms: seq<string> := [
    "Headache", "Fever", "Cough", "Sore Throat", "Fatigue",
    "Nausea", "Dizziness", "Chest Pain", "Shortness of Breath",
    "Stomach Pain", "Joint Pain", "Skin Rash"
  ]

  /** The symptoms `checkSymptoms` treats as serious. */
  const SeriousSymptoms: seq<string> := ["Chest Pain", "Shortness of Breath", "Severe Headache"]

  /** The alert `checkSymptoms` shows, by its title. */
  datatype CheckOutcome = NoSymptomsSelected | SeekMedicalAttention | GeneralAdvice

  /** `s.filter(x => x !== symptom)`: every occurrence of `symptom` dropped, the rest kept in order. */
  function Without(s: seq<string>, symptom: string): (r: seq<string>)
    ensures symptom !in r
    ensures forall x :: x != symptom ==> (x in r <==> x in s)
    ensures multiset(r) == multiset(s)[symptom := 0]
    ensures symptom !in s ==> r == s
    ensures symptom in s ==> |r| < |s|
  {
    if s == [] then []
    else
      assert s == [s[0]] + s[1..];
      if s[0] == symptom then Without(s[1..], symptom)
      else [s[0]] + Without(s[1..], symptom)
  }

  /** Filtering distributes over concatenation, so the kept symptoms stay in their original order. */
  lemma {:induction false} WithoutAppend(a: seq<string>, b: seq<string>, symptom: string)
    ensures Without(a + b, symptom) == Without(a, symptom) + Without(b, symptom)
  {
    if a == [] {
      assert a + b == b;
    } else {
      assert (a + b)[0] == a[0] && (a + b)[1..] == a[1..] + b;
      WithoutAppend(a[1..], b, symptom);
    }
  }

  /** Removing a symptom from a duplicate-free list leaves it duplicate-free. */
  lemma {:induction false} WithoutKeepsNoDuplicates(s: seq<string>, symptom: string)
    requires NoDuplicates(s)
    ensures NoDuplicates(Without(s, symptom))
  {
    if s != [] {
      assert NoDuplicates(s[1..]) by {
        forall i, j | 0 <= i < j < |s[1..]| ensures s[1..][i] != s[1..][j] {
          assert s[1..][i] == s[i + 1] && s[1..][j] == s[j + 1];
        }
      }
      WithoutKeepsNoDuplicates(s[1..], symptom);
      if s[0] != symptom {
        var rest := Without(s[1..], symptom);
        assert s[0] !in s[1..] by {
          forall k | 0 <= k < |s[1..]| ensures s[1..][k] != s[0] {
            assert s[1..][k] == s[k + 1];
          }
        }
        assert s[0] !in rest;
        forall i, j | 0 <= i < j < |[s[0]] + rest| ensures ([s[0]] + rest)[i] != ([s[0]] + rest)[j] {
          if i == 0 {
            assert ([s[0]] + rest)[j] == rest[j - 1];
          } else {
            assert ([s[0]] + rest)[i] == rest[i - 1] && ([s[0]] + rest)[j] == rest[j - 1];
          }
        }
      }
    }
  }

  /**
   * `toggleSymptom`: a selected symptom is deselected (all of its
   * occurrences go), an unselected one is appended at the end.
   */
  function Toggle(selected: seq<string>, symptom: string): (r: seq<string>)
    ensures symptom in r <==> symptom !in selected
    ensures forall x :: x != symptom ==> (x in r <==> x in selected)
    ensures symptom !in selected ==> |r| == |selected| + 1 && r[..|selected|] == selected && r[|selected|] == symptom
    ensures symptom in selected ==> |r| < |selected|
  {
    if symptom in selected then Without(selected, symptom) else selected + [symptom]
  }

  /** Toggling preserves a duplicate-free selection. */
  lemma ToggleKeepsNoDuplicates(selected: seq<string>, symptom: string)
    requires NoDuplicates(selected)
    ensures NoDuplicates(Toggle(selected, symptom))
  {
    if symptom in selected {
      WithoutKeepsNoDuplicates(selected, symptom);
    }
  }

  /** Pressing an unselected symptom twice gives back the original selection. */
  lemma ToggleTwiceAbsent(selected: seq<string>, symptom: string)
    requires symptom !in selected
    ensures Toggle(Toggle(selected, symptom), symptom) == selected
  {
    WithoutAppend(selected, [symptom], symptom);
    assert Without([symptom], symptom) == [];
  }

  /** The selection after a sequence of presses, first press first. */
  function ToggleAll(selected: seq<string>, presses: seq<string>): seq<string>
    decreases |presses|
  {
    if presses == [] then selected else ToggleAll(Toggle(selected, presses[0]), presses[1..])
  }

  /** From a duplicate-free selection, no sequence of presses creates a duplicate. */
  lemma {:induction false} ToggleAllKeepsNoDuplicates(selected: seq<string>, presses: seq<string>)
    requires NoDuplicates(selected)
    ensures NoDuplicates(ToggleAll(selected, presses))
    decreases |presses|
  {
    if presses != [] {
      ToggleKeepsNoDuplicates(selected, presses[0]);
      ToggleAllKeepsNoDuplicates(Toggle(selected, presses[0]), presses[1..]);
    }
  }

  /** Every selection reachable from the screen's initial empty list is duplicate-free. */
  lemma ReachableSelectionsHaveNoDuplicates(presses: seq<string>)
    ensures NoDuplicates(ToggleAll([], presses))
  {
    ToggleAllKeepsNoDuplicates([], presses);
  }

  /** If the selection and every press come from `pool`, so does the resulting selection. */
  lemma {:induction false} ToggleAllWithin(selected: seq<string>, presses: seq<string>, pool: seq<string>)
    requires forall x :: x in selected ==> x in pool
    requires forall i :: 0 <= i < |presses| ==> presses[i] in pool
    ensures forall x :: x in ToggleAll(selected, presses) ==> x in pool
    decreases |presses|
  {
    if presses != [] {
      ToggleAllWithin(Toggle(selected, presses[0]), presses[1..], pool);
    }
  }

  /** `isSerious`: `selectedSymptoms.some(s => SeriousSymptoms.includes(s))`. */
  function IsSerious(selected: seq<string>): (b: bool)
    ensures b <==> exists i :: 0 <= i < |selected| && selected[i] in SeriousSymptoms
  {
    if selected == [] then false
    else if selected[0] in SeriousSymptoms then true
    else
      var b := IsSerious(selected[1..]);
      assert forall i :: 1 <= i < |selected| ==> selected[i] == selected[1..][i - 1];
      b
  }

  /** `checkSymptoms`: the alert shown for a selection. */
  function CheckSymptoms(selected: seq<string>): (o: CheckOutcome)
    ensures o == NoSymptomsSelected <==> selected == []
    ensures o == SeekMedicalAttention <==> exists x :: x in selected && x in SeriousSymptoms
    ensures o == GeneralAdvice <==> selected != [] && forall x :: x in selected ==> x !in SeriousSymptoms
  {
    if |selected| == 0 then NoSymptomsSelected
    else if IsSerious(selected) then SeekMedicalAttention
    else GeneralAdvice
  }

  /**
   * "Severe Headache" is listed as serious but is not one of the buttons, so
   * no sequence of presses on the screen can select it; for every reachable
   * selection the serious test reduces to chest pain or shortness of breath.
   */
  lemma SevereHeadacheUnreachable(presses: seq<string>)
    requires forall i :: 0 <= i < |presses| ==> presses[i] in CommonSymptoms
    ensures "Severe Headache" in SeriousSymptoms
    ensures "Severe Headache" !in ToggleAll([], presses)
    ensures IsSerious(ToggleAll([], presses)) <==>
            "Chest Pain" in ToggleAll([], presses) || "Shortness of Breath" in ToggleAll([], presses)
  {
    var sel := ToggleAll([], presses);
    ToggleAllWithin([], presses, CommonSymptoms);
    SevereHeadacheNotOffered();
    forall x | x in sel && x in SeriousSymptoms ensures x == "Chest Pain" || x == "Shortness of Breath" {
      OfferedSeriousSymptoms(x);
    }
    assert IsSerious(sel) <==> exists x :: x in sel && x in SeriousSymptoms by {
      if IsSerious(sel) {
        var i :| 0 <= i < |sel| && sel[i] in SeriousSymptoms;
        assert sel[i] in sel;
      }
    }
    assert "Chest Pain" in SeriousSymptoms && "Shortness of Breath" in SeriousSymptoms;
  }

  /** The serious symptoms a button can select are chest pain and shortness of breath. */
  lemma OfferedSeriousSymptoms(x: string)
    requires x in CommonSymptoms && x in SeriousSymptoms
    ensures x == "Chest Pain" || x == "Shortness of Breath"
  {
    SevereHeadacheNotOffered();
  }

  /** No button of the screen is labelled "Severe Headache". */
  lemma SevereHeadacheNotOffered()
    ensures "Severe Headache" !in CommonSymptoms
  {
    forall i | 0 <= i < |CommonSymptoms| ensures CommonSymptoms[i] != "Severe Headache" {
      assert |CommonSymptoms[i]| != |"Severe Headache"|;
    }
  }

  /** The screen's state: its `selectedSymptoms` list. */
  class SymptomSelection {
    var selected: seq<string>

    ghost predicate Valid()
      reads this
    {
      NoDuplicates(selected)
    }

    constructor ()
      ensures Valid() && selected == []
    {
      selected := [];
    }

    /** A press on a symptom button. */
    method ToggleSymptom(symptom: string)
      requires Valid()
      modifies this
      ensures Valid()
      ensures selected == Toggle(old(selected), symptom)
    {
      ToggleKeepsNoDuplicates(selected, symptom);
      if symptom in selected {
        selected := Without(selected, symptom);
      } else {
        selected := selected + [symptom];
      }
    }

    /** A press on "Check Symptoms": the alert shown; the selection is not changed. */
    method Check() returns (outcome: CheckOutcome)
      ensures outcome == CheckSymptoms(selected)
    {
      if |selected| == 0 {
        outcome := NoSymptomsSelected;
      } else if IsSerious(selected) {
        outcome := SeekMedicalAttention;
      } else {
        outcome := GeneralAdvice;
      }
    }
  }
}
