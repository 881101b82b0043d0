/**
 * The controls panel (rascal2/widgets/controls.py): a fit-settings form per
 * procedure, whose rows carry validation messages, and the Run/Stop buttons,
 * which refuse to start a run while any setting of the shown form is
 * invalid.
 *
 * Widgets are reduced to the state the rules read and write: label texts,
 * enabled and checked flags, the shown form. The presenter's verdict on an
 * edit (pydantic's validation) is a parameter, and the presenter's `run` is
 * counted.
 */
module ControlsWidgets {
  import opened Text
  import opened Sequences
  import C = Commands

  /** The values of RATapi's `Procedures`, in the order of the procedure drop-down. */
  const Procedures: seq<string> := ["calculate", "simplex", "de", "ns", "dream"]

  lemma ProceduresDistinct()
    ensures NoDuplicates(Procedures)
  {
  }

  /** `[f for f in fields if f != "procedure"]`: the settings a procedure's form shows. */
  function ProcSettings(fields: seq<string>): (r: seq<string>)
    ensures |r| <= |fields|
  {
    if fields == [] then []
    else (if fields[0] == "procedure" then [] else [fields[0]]) + ProcSettings(fields[1..])
  }

  /** A form shows every field of its procedure except `procedure`, each once if listed once. */
  lemma {:induction false} ProcSettingsMembership(fields: seq<string>, f: string)
    ensures f in ProcSettings(fields) <==> f in fields && f != "procedure"
  {
    if fields != [] {
      ProcSettingsMembership(fields[1..], f);
      assert fields == [fields[0]] + fields[1..];
    }
  }

  lemma {:induction false} ProcSettingsNoDuplicates(fields: seq<string>)
    requires NoDuplicates(fields)
    ensures NoDuplicates(ProcSettings(fields))
  {
    if fields != [] {
      assert NoDuplicates(fields[1..]);
      ProcSettingsNoDuplicates(fields[1..]);
      ProcSettingsMembership(fields[1..], fields[0]);
      assert fields[0] !in fields[1..];
    }
  }

  /**
   * `get_invalid_inputs` as a specification: the settings, in row order,
   * whose validation label is not empty.
   */
  function Invalid(settings: seq<string>, texts: map<string, string>): seq<string>
    requires forall s :: s in settings ==> s in texts
  {
    if settings == [] then []
    else
      var last := settings[|settings| - 1];
      Invalid(settings[..|settings| - 1], texts) + (if texts[last] != "" then [last] else [])
  }

  /** A setting is reported exactly when its label has text. */
  lemma {:induction false} InvalidMembership(settings: seq<string>, texts: map<string, string>, s: string)
    requires forall x :: x in settings ==> x in texts
    ensures s in Invalid(settings, texts) <==> s in settings && texts[s] != ""
  {
    if settings != [] {
      var front := settings[..|settings| - 1];
      InvalidMembership(front, texts, s);
      assert settings == front + [settings[|settings| - 1]];
    }
  }

  /** The report keeps row order: the invalid settings of two runs of rows, one after the other. */
  lemma {:induction false} InvalidAppend(a: seq<string>, b: seq<string>, texts: map<string, string>)
    requires forall x :: x in a + b ==> x in texts
    ensures Invalid(a + b, texts) == Invalid(a, texts) + Invalid(b, texts)
  {
    if b == [] {
      assert a + b == a;
    } else {
      var front := b[..|b| - 1];
      var last := b[|b| - 1];
      assert (a + b)[..|a + b| - 1] == a + front;
      InvalidAppend(a, front, texts);
    }
  }

  /** The text shown when Run is refused: one indented line per invalid setting. */
  function RunErrorText(invalid: seq<string>): string
  {
    "Could not run due to invalid fit settings:\n    " + Join("\n    ", invalid)
    + "\nFix these inputs and try again.\nSee fit settings for more details.\n"
  }

  /** The refusal names each invalid setting. */
  lemma RunErrorNamesEach(invalid: seq<string>, k: int)
    requires 0 <= k < |invalid|
    ensures Contains(RunErrorText(invalid), invalid[k])
  {
    JoinContainsEach("\n    ", invalid, k);
    ContainsAfterPrefix("Could not run due to invalid fit settings:\n    ", Join("\n    ", invalid), invalid[k]);
    ContainsBeforeSuffix("Could not run due to invalid fit settings:\n    " + Join("\n    ", invalid),
                         "\nFix these inputs and try again.\nSee fit settings for more details.\n", invalid[k]);
  }

  /** Pydantic's verdict on one edit: accepted, or rejected with at least one error message. */
  datatype Verdict = Accepted | Rejected(first: string, more: seq<string>)

  /** `FitSettingsWidget`: one row and one validation label per setting. */
  class FitSettingsWidget {
    const settings: seq<string>
    const controls: C.Controls
    /** The text of each setting's validation label. */
    var valTexts: map<string, string>
    /** Whether each setting's editor is drawn in red. */
    var marked: map<string, bool>

    /** The rows are the keys of a dict: each setting once. */
    ghost predicate Valid()
      reads this
    {
      && NoDuplicates(settings)
      && (forall s :: s in settings <==> s in valTexts)
      && (forall s :: s in settings <==> s in marked)
    }

    constructor(controls: C.Controls, settings: seq<string>)
      requires NoDuplicates(settings)
      ensures this.controls == controls && this.settings == settings
      ensures Valid()
      ensures forall s :: s in settings ==> valTexts[s] == "" && !marked[s]
    {
      this.controls := controls;
      this.settings := settings;
      valTexts := map s | s in settings :: "";
      marked := map s | s in settings :: false;
    }

    /** `set_validation_text`: the label shows `text`, and the editor is red exactly when it is not empty. */
    method SetValidationText(setting: string, text: string)
      requires Valid() && setting in settings
      modifies this
      ensures Valid()
      ensures valTexts == old(valTexts)[setting := text] && marked == old(marked)[setting := text != ""]
    {
      valTexts := valTexts[setting := text];
      marked := marked[setting := text != ""];
    }

    /**
     * The setter made by `create_model_data_setter`: the presenter edits the
     * controls; a rejected edit leaves them as they were and records the
     * first validation message, an accepted one clears the setting's label.
     */
    method SetModelData(setting: string, value: C.ControlValue, verdict: Verdict)
      requires Valid() && setting in settings
      modifies this, controls
      ensures Valid()
      ensures verdict.Accepted? ==> controls.values == C.SetAttr(old(controls.values), setting, value)
                                    && valTexts == old(valTexts)[setting := ""]
      ensures verdict.Rejected? ==> controls.values == old(controls.values)
                                    && valTexts == old(valTexts)[setting := verdict.first]
      ensures marked == old(marked)[setting := valTexts[setting] != ""]
    {
      if verdict.Rejected? {
        SetValidationText(setting, verdict.first);
      } else {
        controls.values := controls.values[setting := value];
        SetValidationText(setting, "");
      }
    }

    /** `get_invalid_inputs`. */
    method GetInvalidInputs() returns (r: seq<string>)
      requires Valid()
      ensures r == Invalid(settings, valTexts)
    {
      r := [];
      var i := 0;
      while i < |settings|
        invariant 0 <= i <= |settings|
        invariant r == Invalid(settings[..i], valTexts)
      {
        var s := settings[i];
        assert settings[..i + 1][..i] == settings[..i];
        if valTexts[s] != "" {
          r := r + [s];
        }
        i := i + 1;
      }
      assert settings[..i] == settings;
    }
  }

  /** `ControlsWidget`: the shown form, the run buttons and the validation label. */
  class ControlsWidget {
    const controls: C.Controls
    const forms: seq<FitSettingsWidget>
    var currentIndex: nat
    var validationLabel: string
    var runChecked: bool
    var runEnabled: bool
    var stopEnabled: bool
    /** The view's `set_editing_enabled` state. */
    var editingEnabled: bool
    /** How often the presenter was asked to run. */
    var runs: nat

    ghost predicate Valid()
      reads this, forms
    {
      && |forms| == |Procedures|
      && currentIndex < |forms|
      && forall i :: 0 <= i < |forms| ==> forms[i].controls == controls && forms[i].Valid()
    }

    /**
     * The widget after `setup_controls`: one form per procedure, holding
     * the fields `fieldsOf` lists for it except `procedure`, with the
     * controls' procedure selected; Run is enabled and unchecked and Stop
     * disabled. (Selecting it re-sets `procedure` to the value it already
     * has, so the controls' values are unchanged.)
     */
    constructor(controls: C.Controls, fieldsOf: seq<seq<string>>)
      requires |fieldsOf| == |Procedures|
      requires forall i :: 0 <= i < |fieldsOf| ==> NoDuplicates(fieldsOf[i])
      requires "procedure" in controls.values && controls.values["procedure"].TextValue?
      requires controls.values["procedure"].text in Procedures
      ensures Valid() && this.controls == controls
      ensures Procedures[currentIndex] == controls.values["procedure"].text
      ensures currentIndex == IndexOf(Procedures, controls.values["procedure"].text)
      ensures forall i :: 0 <= i < |forms| ==> forms[i].settings == ProcSettings(fieldsOf[i])
      ensures validationLabel == "" && !runChecked && runEnabled && !stopEnabled && editingEnabled && runs == 0
    {
      var made: seq<FitSettingsWidget> := [];
      var i := 0;
      while i < |fieldsOf|
        invariant 0 <= i <= |fieldsOf| && |made| == i
        invariant forall j :: 0 <= j < i ==> made[j].controls == controls && made[j].Valid()
        invariant forall j :: 0 <= j < i ==> made[j].settings == ProcSettings(fieldsOf[j])
      {
        ProcSettingsNoDuplicates(fieldsOf[i]);
        var form := new FitSettingsWidget(controls, ProcSettings(fieldsOf[i]));
        made := made + [form];
        i := i + 1;
      }
      this.controls := controls;
      forms := made;
      currentIndex := IndexOf(Procedures, controls.values["procedure"].text);
      validationLabel := "";
      runChecked := false;
      runEnabled := true;
      stopEnabled := false;
      editingEnabled := true;
      runs := 0;
    }

    /** The settings of the shown form that are invalid. */
    ghost function CurrentInvalid(): seq<string>
      reads this, forms, forms[currentIndex]
      requires Valid()
    {
      Invalid(forms[currentIndex].settings, forms[currentIndex].valTexts)
    }

    /**
     * `toggle_run_button`, the slot of Run's `toggled` signal (so Run is
     * already in the state `toggled`). Switched on with invalid settings it
     * names them, unchecks Run (whose signal runs the slot again, switched
     * off) and starts nothing; with valid settings it clears the label,
     * disables editing and Run, enables Stop and runs. Switched off, it
     * enables editing and Run and disables Stop.
     */
    method ToggleRunButton(toggled: bool)
      requires Valid() && runChecked == toggled
      modifies this
      ensures Valid() && currentIndex == old(currentIndex)
      ensures toggled && old(CurrentInvalid()) != [] ==>
                validationLabel == RunErrorText(old(CurrentInvalid())) && !runChecked && runs == old(runs)
                && editingEnabled && runEnabled && !stopEnabled
      ensures toggled && old(CurrentInvalid()) == [] ==>
                validationLabel == "" && runChecked && runs == old(runs) + 1
                && !editingEnabled && !runEnabled && stopEnabled
      ensures !toggled ==>
                validationLabel == old(validationLabel) && !runChecked && runs == old(runs)
                && editingEnabled && runEnabled && !stopEnabled
    {
      if toggled {
        var invalidInputs := forms[currentIndex].GetInvalidInputs();
        if invalidInputs != [] {
          RefuseRun(invalidInputs);
          return;
        }
        StartRun();
      } else {
        StopRun();
      }
    }

    /** Run switched on with invalid settings: they are named and Run is unchecked, which switches it off again. */
    method RefuseRun(invalid: seq<string>)
      requires Valid()
      modifies this
      ensures Valid() && currentIndex == old(currentIndex)
      ensures validationLabel == RunErrorText(invalid) && !runChecked && runs == old(runs)
      ensures editingEnabled && runEnabled && !stopEnabled
    {
      validationLabel := RunErrorText(invalid);
      runChecked := false;
      StopRun();
    }

    /** Run switched on with valid settings. */
    method StartRun()
      requires Valid()
      modifies this
      ensures Valid() && currentIndex == old(currentIndex)
      ensures validationLabel == "" && runChecked == old(runChecked) && runs == old(runs) + 1
      ensures !editingEnabled && !runEnabled && stopEnabled
    {
      validationLabel := "";
      editingEnabled := false;
      runEnabled := false;
      stopEnabled := true;
      runs := runs + 1;
    }

    /** Run switched off. */
    method StopRun()
      requires Valid()
      modifies this
      ensures Valid() && currentIndex == old(currentIndex)
      ensures validationLabel == old(validationLabel) && runChecked == old(runChecked) && runs == old(runs)
      ensures editingEnabled && runEnabled && !stopEnabled
    {
      editingEnabled := true;
      runEnabled := true;
      stopEnabled := false;
    }

    /**
     * `set_procedure`: the procedure's form is shown and the presenter sets
     * the controls' `procedure` to the procedure at that index of the
     * drop-down.
     */
    method SetProcedure(index: nat)
      requires Valid() && index < |Procedures|
      modifies this, controls
      ensures Valid() && currentIndex == index
      ensures controls.values == C.SetAttr(old(controls.values), "procedure", C.TextValue(Procedures[index]))
      ensures validationLabel == old(validationLabel) && runChecked == old(runChecked) && runs == old(runs)
      ensures runEnabled == old(runEnabled) && stopEnabled == old(stopEnabled) && editingEnabled == old(editingEnabled)
    {
      currentIndex := index;
      controls.values := controls.values["procedure" := C.TextValue(Procedures[index])];
    }

    /** `update_ui`: the drop-down and the shown form follow the controls' procedure. */
    method UpdateUi()
      requires Valid()
      requires "procedure" in controls.values && controls.values["procedure"].TextValue?
      requires controls.values["procedure"].text in Procedures
      modifies this
      ensures Valid() && Procedures[currentIndex] == controls.values["procedure"].text
      ensures validationLabel == old(validationLabel) && runChecked == old(runChecked) && runs == old(runs)
      ensures runEnabled == old(runEnabled) && stopEnabled == old(stopEnabled) && editingEnabled == old(editingEnabled)
    {
      currentIndex := IndexOf(Procedures, controls.values["procedure"].text);
    }
  }

  /**
   * Choosing a procedure and then redrawing from the controls shows the
   * same procedure: the drop-down's index survives the round trip through
   * the controls' `procedure` value.
   */
  lemma ProcedureIndexRoundTrip(index: nat)
    requires index < |Procedures|
    ensures IndexOf(Procedures, Procedures[index]) == index
  {
    ProceduresDistinct();
    var j := IndexOf(Procedures, Procedures[index]);
    assert Procedures[j] == Procedures[index];
  }
}
