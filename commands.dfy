/**
 * The RATapi `Controls` object the GUI edits, and the undoable command that
 * edits one of its attributes (rascal2/core/commands.py). Controls are a
 * mutable object shared by the main window model, the fit-settings widgets
 * and the undo stack, so they are a class whose attribute map is updated in
 * place.
 */
module Commands {
  import opened Wrappers
  import opened Text

  /**
   * A controls attribute value. A float is held by the text Python prints
   * for it, since float formatting is not part of this model.
   */
  datatype ControlValue =
    | TextValue(text: string)
    | IntValue(n: int)
    | BoolValue(b: bool)
    | FloatValue(repr: string)

  /** `f"{value}"`. */
  function Show(v: ControlValue): string
  {
    match v
    case TextValue(s) => s
    case IntValue(n) => if n < 0 then "-" + NatToString(-n) else NatToString(n)
    case BoolValue(b) => if b then "True" else "False"
    case FloatValue(repr) => repr
  }

  /** A `RAT.Controls` object: its attributes by name. */
  class Controls {
    var values: map<string, ControlValue>

    constructor(values: map<string, ControlValue>)
      ensures this.values == values
    {
      this.values := values;
    }
  }

  /** `setattr(controls, attr, value)` on the attribute map. */
  function SetAttr(values: map<string, ControlValue>, attr: string, value: ControlValue): (r: map<string, ControlValue>)
    ensures r.Keys == values.Keys + {attr} && r[attr] == value
    ensures forall a :: a in values && a != attr ==> r[a] == values[a]
  {
    values[attr := value]
  }

  /** The attribute's value before a command, `None` when the object had no such attribute. */
  function Lookup(values: map<string, ControlValue>, attr: string): Option<ControlValue>
  {
    if attr in values then Some(values[attr]) else None
  }

  /** Putting back a value looked up before: the value itself, or no attribute at all. */
  function Restore(values: map<string, ControlValue>, attr: string, previous: Option<ControlValue>): map<string, ControlValue>
  {
    if previous.Some? then values[attr := previous.value] else values - {attr}
  }

  /**
   * `EditControls`: sets one controls attribute. `redo` and `undo` as
   * written both set the new value. The source's `__init__` keeps only the
   * controls, the attribute and the value; `previous`, the value the
   * attribute had when the command was made, is added here for the
   * intended undo `RestoringUndo`, which puts it back.
   */
  class EditControls {
    const controls: Controls
    const attr: string
    const value: ControlValue
    const previous: Option<ControlValue>

    constructor(controls: Controls, attr: string, value: ControlValue)
      ensures this.controls == controls && this.attr == attr && this.value == value
      ensures previous == Lookup(controls.values, attr)
    {
      this.controls := controls;
      this.attr := attr;
      this.value := value;
      previous := Lookup(controls.values, attr);
    }

    /** `redo`: the attribute is set; `accepted` is pydantic's verdict on the assignment, which raises otherwise. */
    method Redo(accepted: bool) returns (ok: bool)
      modifies controls
      ensures ok == accepted
      ensures controls.values == if accepted then SetAttr(old(controls.values), attr, value) else old(controls.values)
    {
      if !accepted {
        return false;
      }
      controls.values := controls.values[attr := value];
      return true;
    }

    /** `undo` as written: the same assignment as `redo`. */
    method Undo()
      modifies controls
      ensures controls.values == SetAttr(old(controls.values), attr, value)
    {
      controls.values := controls.values[attr := value];
    }

    /** The undo the command evidently intends: the attribute goes back to its value before the command. */
    method RestoringUndo()
      modifies controls
      ensures controls.values == Restore(old(controls.values), attr, previous)
    {
      if previous.Some? {
        controls.values := controls.values[attr := previous.value];
      } else {
        controls.values := controls.values - {attr};
      }
    }

    /** `text`: the label the undo stack shows. */
    function Text(): string
      reads this
    {
      CommandText(attr, value)
    }
  }

  function CommandText(attr: string, value: ControlValue): string
  {
    "Set control " + attr + " to " + Show(value)
  }

  /**
   * As written, `undo` is not an inverse: after `redo` the attribute keeps
   * the new value however often `undo` and `redo` run, and setting an
   * attribute that held something else cannot be taken back.
   */
  lemma UndoAsWrittenKeepsValue(values: map<string, ControlValue>, attr: string, value: ControlValue)
    ensures SetAttr(SetAttr(values, attr, value), attr, value) == SetAttr(values, attr, value)
    ensures attr in values && values[attr] != value ==> SetAttr(SetAttr(values, attr, value), attr, value) != values
  {
    var once := SetAttr(values, attr, value);
    assert SetAttr(once, attr, value) == once;
  }

  /** A concrete edit that `undo` fails to take back: procedure `calculate`, set to `dream`, stays `dream`. */
  lemma UndoDoesNotRestore()
    ensures var before := map["procedure" := TextValue("calculate")];
      SetAttr(SetAttr(before, "procedure", TextValue("dream")), "procedure", TextValue("dream")) != before
  {
    var before := map["procedure" := TextValue("calculate")];
    assert SetAttr(SetAttr(before, "procedure", TextValue("dream")), "procedure", TextValue("dream"))["procedure"] == TextValue("dream");
  }

  /**
   * The restoring undo is an inverse: after `redo`, it gives back the
   * controls as they were (whether or not the attribute existed), and a
   * further `redo` gives the edited controls again.
   */
  lemma RestoringUndoRestores(values: map<string, ControlValue>, attr: string, value: ControlValue)
    ensures Restore(SetAttr(values, attr, value), attr, Lookup(values, attr)) == values
    ensures SetAttr(Restore(SetAttr(values, attr, value), attr, Lookup(values, attr)), attr, value) == SetAttr(values, attr, value)
  {
    var restored := Restore(SetAttr(values, attr, value), attr, Lookup(values, attr));
    assert restored.Keys == values.Keys;
    assert forall a :: a in values ==> restored[a] == values[a];
  }

  /**
   * The label names the attribute and the value: for attribute names
   * without spaces, two labels are equal only for the same attribute and
   * the same printed value.
   */
  lemma CommandTextInjective(a1: string, v1: ControlValue, a2: string, v2: ControlValue)
    requires ' ' !in a1 && ' ' !in a2
    requires CommandText(a1, v1) == CommandText(a2, v2)
    ensures a1 == a2 && Show(v1) == Show(v2)
  {
    LabelInjective(a1, Show(v1), a2, Show(v2));
  }

  lemma LabelInjective(a1: string, s1: string, a2: string, s2: string)
    requires ' ' !in a1 && ' ' !in a2
    requires "Set control " + a1 + " to " + s1 == "Set control " + a2 + " to " + s2
    ensures a1 == a2 && s1 == s2
  {
    var prefix := "Set control ";
    var t := prefix + a1 + " to " + s1;
    var rest1, rest2 := a1 + (" to " + s1), a2 + (" to " + s2);
    assert t == prefix + rest1 && prefix + a2 + " to " + s2 == prefix + rest2;
    assert rest1 == t[|prefix|..] == rest2;
    SpaceEndsAttr(a1, " to " + s1, a2, " to " + s2);
    assert s1 == (" to " + s1)[4..];
  }

  /** A word without spaces followed by text starting with a space is read back unambiguously. */
  lemma SpaceEndsAttr(a1: string, s1: string, a2: string, s2: string)
    requires ' ' !in a1 && ' ' !in a2
    requires |s1| > 0 && |s2| > 0 && s1[0] == ' ' && s2[0] == ' '
    requires a1 + s1 == a2 + s2
    ensures a1 == a2 && s1 == s2
  {
    var t := a1 + s1;
    assert forall k :: 0 <= k < |a1| ==> t[k] == a1[k] != ' ';
    assert forall k :: 0 <= k < |a2| ==> t[k] == a2[k] != ' ';
    assert t[|a1|] == ' ' && (a2 + s2)[|a2|] == ' ';
    assert |a1| == |a2|;
    assert a1 == t[..|a1|] && a2 == (a2 + s2)[..|a2|];
    assert s1 == t[|a1|..] && s2 == (a2 + s2)[|a2|..];
  }
}
