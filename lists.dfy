/**
 * The list-based tabs of the project editor (rascal2/widgets/project/lists.py):
 * the item model over a class list, the list of layer names that makes up a
 * standard-layers contrast model, the conversion of contrasts to and from
 * contrasts with a domain ratio, and the naming rules for new contrasts and
 * imported datasets.
 *
 * The row Qt's selection model reports as current is a parameter of the
 * operations that read it (-1 when no row is selected).
 */
module ProjectLists {
  import opened Wrappers
  import opened Text
  import opened Sequences
  import opened ProjectItems
  import opened Projects
  import opened DraftProject
  import F = FieldNames

  // ---------------------------------------------------------------------------
  // The class-list item model
  // ---------------------------------------------------------------------------

  /** The index `list.pop(row)` removes: a negative row counts from the end. */
  function PopIndex(row: int, n: int): (r: int)
    requires n > 0 && -n <= row < n
    ensures 0 <= r < n
    ensures row >= 0 ==> r == row
    ensures row < 0 ==> r == n + row
  {
    if row < 0 then n + row else row
  }

  /**
   * `ClassListItemModel`: a list model showing the names of the items of a
   * ClassList object (the draft's own, in the project editor).
   */
  class ClassListItemModel {
    var classlist: ClassListObject
    /** `item_type`: the class handle the list had when it was given. */
    var handle: ItemKind
    var editMode: bool

    constructor(classlist: ClassListObject)
      ensures this.classlist == classlist && handle == classlist.handle && !editMode
    {
      this.classlist := classlist;
      handle := classlist.handle;
      editMode := false;
    }

    /** `data`: an item's name for the display role, nothing for any other role. */
    function Data(row: int, display: bool): (r: Option<Value>)
      requires 0 <= row < |classlist.items|
      reads this, classlist
      ensures r.Some? <==> display
      ensures r.Some? ==> r.value == NameOf(classlist.items[row]) && r.value == Names(classlist.items)[row]
    {
      if display then Some(NameOf(classlist.items[row])) else None
    }

    /**
     * `set_data`: one attribute of one item of the shared list is replaced.
     * `accepted` is pydantic's verdict on the assignment; a rejected one
     * raises (`ok` is false) and leaves the item as it was.
     */
    method SetData(row: int, attr: F.Field, value: Value, accepted: bool) returns (ok: bool)
      requires 0 <= row < |classlist.items|
      modifies classlist
      ensures ok == accepted
      ensures classlist.items == if accepted then old(classlist.items)[row := SetAttr(old(classlist.items)[row], attr, value)]
                                 else old(classlist.items)
      ensures classlist.handle == old(classlist.handle)
    {
      if !accepted {
        return false;
      }
      classlist.items := classlist.items[row := SetAttr(classlist.items[row], attr, value)];
      return true;
    }

    /** `append_item`: the given item, or `blank` (the class called with no arguments), is added at the end. */
    method AppendItem(item: Option<Item>, blank: Item)
      requires blank.kind == handle
      modifies classlist
      ensures classlist.items == old(classlist.items) + [item.GetOr(blank)] && classlist.handle == old(classlist.handle)
    {
      classlist.items := classlist.items + [item.GetOr(blank)];
    }

    /**
     * `delete_item`: nothing happens to an empty list; otherwise the row is
     * popped, where row -1 (no current row) pops the last item.
     */
    method DeleteItem(row: int)
      requires classlist.items == [] || -|classlist.items| <= row < |classlist.items|
      modifies classlist
      ensures old(classlist.items) == [] ==> classlist.items == []
      ensures old(classlist.items) != [] ==>
        classlist.items == RemoveAt(old(classlist.items), PopIndex(row, |old(classlist.items)|))
      ensures classlist.handle == old(classlist.handle)
    {
      if |classlist.items| == 0 {
        return;
      }
      classlist.items := RemoveAt(classlist.items, PopIndex(row, |classlist.items|));
    }
  }

  /** `set_data` leaves every other item, and every other attribute of the item, as it was. */
  lemma SetDataChangesOneAttribute(items: seq<Item>, row: int, attr: F.Field, value: Value, i: int, f: F.Field)
    requires 0 <= row < |items| && 0 <= i < |items|
    ensures var after := items[row := SetAttr(items[row], attr, value)];
      && AttrOf(after[row], attr) == value
      && (i != row ==> after[i] == items[i])
      && (f != attr ==> AttrOf(after[row], f) == AttrOf(items[row], f))
      && after[row].kind == items[row].kind
  {
  }

  /** Deleting takes exactly the popped item out of the list, and deleting right after appending undoes the append. */
  lemma DeleteRemovesOne(items: seq<Item>, row: int, x: Item)
    requires items != [] && -|items| <= row < |items|
    ensures multiset(RemoveAt(items, PopIndex(row, |items|))) + multiset{items[PopIndex(row, |items|)]} == multiset(items)
    ensures RemoveAt(items + [x], PopIndex(-1, |items| + 1)) == items
  {
    RemoveAtMultiset(items, PopIndex(row, |items|));
    assert (items + [x])[..|items|] == items;
  }

  // ---------------------------------------------------------------------------
  // The layer list of a standard-layers contrast model
  // ---------------------------------------------------------------------------

  /** `QStringListModel.removeRow(row)`: refused outside the rows. */
  function RemoveRow(s: seq<string>, row: int): (r: seq<string>)
    ensures 0 <= row < |s| ==> r == RemoveAt(s, row)
    ensures !(0 <= row < |s|) ==> r == s
  {
    if 0 <= row < |s| then RemoveAt(s, row) else s
  }

  /** `QStringListModel.insertRow(row)`: a blank entry before `row`, refused outside `0..len`. */
  function InsertRow(s: seq<string>, row: int): (r: seq<string>)
    ensures 0 <= row <= |s| ==> r == InsertAt(s, row, "")
    ensures !(0 <= row <= |s|) ==> r == s
  {
    if 0 <= row <= |s| then InsertAt(s, row, "") else s
  }

  /** `QStringListModel.setData(index, v)`, where `row` is -1 for an invalid index. */
  function SetRow(s: seq<string>, row: int, v: string): (r: seq<string>)
    ensures 0 <= row < |s| ==> r == s[row := v]
    ensures !(0 <= row < |s|) ==> r == s
  {
    if 0 <= row < |s| then s[row := v] else s
  }

  /** The row `move_item` moves to: `row` pulled back into `0..n-1` (-1 when there are no rows). */
  function ClampRow(row: int, n: int): int
  {
    if row < 0 then 0 else if row >= n then n - 1 else row
  }

  /** The clamped row is the row of the list nearest to the one asked for. */
  lemma ClampIsNearest(row: int, n: int, k: int)
    requires n > 0 && 0 <= k < n
    ensures 0 <= ClampRow(row, n) < n
    ensures row - ClampRow(row, n) <= row - k || ClampRow(row, n) - row <= k - row
    ensures ClampRow(row, n) == row <==> 0 <= row < n
  {
  }

  /** The list with the entry at `from` taken out and put back at `to`. */
  function Moved(s: seq<string>, from: int, to: int): (r: seq<string>)
    requires 0 <= from < |s| && 0 <= to < |s|
  {
    InsertAt(RemoveAt(s, from), to, s[from])
  }

  /**
   * `move_item` as written: the current row's text is read, its row removed,
   * a blank row inserted at the clamped row's index and given the text. The
   * index is taken before the removal, so it is invalid (-1) only when the
   * list has no rows. With no current row (-1) the text read is blank and
   * nothing is removed, yet the blank row is still inserted.
   */
  function MoveAsWritten(s: seq<string>, current: int, delta: int): (r: seq<string>)
    requires -1 <= current < |s|
  {
    var n := |s|;
    var newRow := ClampRow(current + delta, n);
    var target := if 0 <= newRow < n then newRow else -1;
    var text := if current >= 0 then s[current] else "";
    SetRow(InsertRow(RemoveRow(s, current), target), target, text)
  }

  /**
   * With no row selected, moving in a non-empty layer list adds a blank
   * layer at the clamped row and moves nothing; an empty list is left as it is.
   */
  lemma MoveWithoutSelectionAddsBlank(s: seq<string>, delta: int)
    ensures |s| > 0 ==> MoveAsWritten(s, -1, delta) == InsertAt(s, ClampRow(delta - 1, |s|), "")
    ensures |s| == 0 ==> MoveAsWritten(s, -1, delta) == s
  {
  }

  /** A concrete case: one layer `a`, nothing selected, moving down one row gives a blank layer above `a`. */
  lemma MoveWithoutSelectionExample()
    ensures MoveAsWritten(["a"], -1, 1) == ["", "a"]
  {
    MoveWithoutSelectionAddsBlank(["a"], 1);
  }

  /** With a row selected, the steps as written move that row's entry to the clamped row. */
  lemma MoveAsWrittenMoves(s: seq<string>, current: int, delta: int)
    requires 0 <= current < |s|
    ensures MoveAsWritten(s, current, delta) == Moved(s, current, ClampRow(current + delta, |s|))
  {
  }

  /** A move is a permutation that puts the moved entry at its new row and keeps the others in order. */
  lemma MovedIsPermutation(s: seq<string>, from: int, to: int)
    requires 0 <= from < |s| && 0 <= to < |s|
    ensures |Moved(s, from, to)| == |s|
    ensures multiset(Moved(s, from, to)) == multiset(s)
    ensures Moved(s, from, to)[to] == s[from]
    ensures RemoveAt(Moved(s, from, to), to) == RemoveAt(s, from)
  {
    RemoveAtMultiset(s, from);
    InsertAtMultiset(RemoveAt(s, from), to, s[from]);
    var r := Moved(s, from, to);
    assert RemoveAt(r, to) == RemoveAt(s, from);
  }

  /** Moving an entry back to where it came from restores the list. */
  lemma MovedBackRestores(s: seq<string>, from: int, to: int)
    requires 0 <= from < |s| && 0 <= to < |s|
    ensures Moved(Moved(s, from, to), to, from) == s
  {
    MovedIsPermutation(s, from, to);
    var r := Moved(s, from, to);
    var back := Moved(r, to, from);
    assert back == InsertAt(RemoveAt(s, from), from, s[from]);
    assert s == s[..from] + [s[from]] + s[from + 1..];
  }

  /** `StandardLayerModelWidget`: the editable list of layer (or domain contrast) names of one contrast. */
  class StandardLayerModelWidget {
    var layers: seq<string>
    var domains: bool
    var addEnabled: bool

    /** The Add button starts disabled when the list already has two entries. */
    constructor(initList: seq<string>, domains: bool)
      ensures layers == initList && this.domains == domains && addEnabled == (|initList| != 2)
    {
      layers := initList;
      this.domains := domains;
      addEnabled := |initList| != 2;
    }

    /**
     * `append_item`: refused for a domains model that already has two
     * entries; otherwise a blank entry goes right after the current row and
     * becomes the current row.
     */
    method AppendItem(current: int) returns (newCurrent: int)
      requires -1 <= current < |layers|
      modifies this
      ensures domains && |old(layers)| == 2 ==>
        layers == old(layers) && newCurrent == current && addEnabled == old(addEnabled)
      ensures !(domains && |old(layers)| == 2) ==>
        && layers == InsertAt(old(layers), current + 1, "")
        && newCurrent == current + 1
        && addEnabled == (old(addEnabled) && !(domains && |layers| == 2))
      ensures domains == old(domains)
    {
      if domains && |layers| == 2 {
        return current;
      }
      layers := InsertRow(layers, current + 1);
      newCurrent := current + 1;
      if domains && |layers| == 2 {
        addEnabled := false;
      }
    }

    /** `delete_item`: the current row is removed (nothing when no row is current) and Add is enabled again. */
    method DeleteItem(current: int)
      requires -1 <= current < |layers|
      modifies this
      ensures current >= 0 ==> layers == RemoveAt(old(layers), current)
      ensures current < 0 ==> layers == old(layers)
      ensures addEnabled && domains == old(domains)
    {
      layers := RemoveRow(layers, current);
      addEnabled := true;
    }

    /**
     * `move_item`, with a row selected: the current entry moves by `delta`
     * rows, clamped to the list, and its new row becomes current. With no
     * row selected nothing happens (see `MoveAsWritten` for the steps as
     * written, which add a blank entry in that case).
     */
    method MoveItem(delta: int, current: int) returns (newCurrent: int)
      requires -1 <= current < |layers|
      modifies this
      ensures current >= 0 ==>
        && layers == Moved(old(layers), current, ClampRow(current + delta, |old(layers)|))
        && newCurrent == ClampRow(current + delta, |old(layers)|)
      ensures current < 0 ==> layers == old(layers) && newCurrent == current
      ensures domains == old(domains) && addEnabled == old(addEnabled)
    {
      if current < 0 {
        return current;
      }
      var n := |layers|;
      var newRow := ClampRow(current + delta, n);
      var text := layers[current];
      layers := RemoveRow(layers, current);
      layers := InsertRow(layers, newRow);
      layers := SetRow(layers, newRow, text);
      newCurrent := newRow;
    }
  }

  // ---------------------------------------------------------------------------
  // Contrasts with and without a domain ratio
  // ---------------------------------------------------------------------------

  /**
   * A field of `ContrastWithRatio(**dict(contrast), domain_ratio=ratios.get(contrast.name, ""))`:
   * the ratio is looked up by name and every other field is copied.
   */
  function RatioField(contrast: Item, ratios: map<Value, Value>, f: F.Field): Value
  {
    if f == F.DomainRatio then (if NameOf(contrast) in ratios then ratios[NameOf(contrast)] else Text(""))
    else AttrOf(contrast, f)
  }

  function ToRatioContrast(contrast: Item, ratios: map<Value, Value>): Item
  {
    Item(ContrastWithRatio, map f | f in Fields(ContrastWithRatio) :: RatioField(contrast, ratios, f))
  }

  /** `Contrast(name=contrast.name, ..., model=contrast.model)`: every field but the ratio is copied. */
  function ToPlainContrast(contrast: Item): Item
  {
    Item(Contrast, map f | f in Fields(Contrast) :: AttrOf(contrast, f))
  }

  function WithRatios(items: seq<Item>, ratios: map<Value, Value>): (r: seq<Item>)
    ensures |r| == |items| && forall i :: 0 <= i < |items| ==> r[i] == ToRatioContrast(items[i], ratios)
  {
    seq(|items|, i requires 0 <= i < |items| => ToRatioContrast(items[i], ratios))
  }

  function WithoutRatios(items: seq<Item>): (r: seq<Item>)
    ensures |r| == |items| && forall i :: 0 <= i < |items| ==> r[i] == ToPlainContrast(items[i])
  {
    seq(|items|, i requires 0 <= i < |items| => ToPlainContrast(items[i]))
  }

  /** Both conversions keep every field the two classes share, and give the new class exactly its fields. */
  lemma DomainsCarryOver(contrast: Item, ratios: map<Value, Value>, f: F.Field)
    requires f in Fields(Contrast)
    ensures FieldsExact(ToRatioContrast(contrast, ratios)) && FieldsExact(ToPlainContrast(contrast))
    ensures AttrOf(ToRatioContrast(contrast, ratios), f) == AttrOf(contrast, f)
    ensures AttrOf(ToPlainContrast(contrast), f) == AttrOf(contrast, f)
    ensures NameOf(contrast) in ratios ==> AttrOf(ToRatioContrast(contrast, ratios), F.DomainRatio) == ratios[NameOf(contrast)]
    ensures NameOf(contrast) !in ratios ==> AttrOf(ToRatioContrast(contrast, ratios), F.DomainRatio) == Text("")
  {
    assert f in Fields(ContrastWithRatio);
  }

  /** One contrast survives gaining a ratio and losing it again. */
  lemma ContrastOnOff(contrast: Item, ratios: map<Value, Value>)
    requires FieldsExact(contrast) && contrast.kind == Contrast
    ensures ToPlainContrast(ToRatioContrast(contrast, ratios)) == contrast
  {
    var back := ToPlainContrast(ToRatioContrast(contrast, ratios));
    forall f | f in Fields(Contrast)
      ensures back.attrs[f] == contrast.attrs[f]
    {
      assert f in Fields(ContrastWithRatio);
    }
  }

  /** One contrast with a ratio survives losing it and regaining it, when `ratios` holds its ratio under its name. */
  lemma ContrastOffOn(contrast: Item, ratios: map<Value, Value>)
    requires FieldsExact(contrast) && contrast.kind == ContrastWithRatio
    requires NameOf(contrast) in ratios && ratios[NameOf(contrast)] == AttrOf(contrast, F.DomainRatio)
    ensures ToRatioContrast(ToPlainContrast(contrast), ratios) == contrast
  {
    var back := ToRatioContrast(ToPlainContrast(contrast), ratios);
    forall f | f in Fields(ContrastWithRatio)
      ensures back.attrs[f] == contrast.attrs[f]
    {
      assert f == F.DomainRatio || f in Fields(Contrast);
    }
  }

  /** Turning domains on and then off gives back the original contrasts. */
  lemma DomainsOnOffRestores(items: seq<Item>, ratios: map<Value, Value>)
    requires AllOfKind(items, Contrast)
    ensures WithoutRatios(WithRatios(items, ratios)) == items
  {
    var back := WithoutRatios(WithRatios(items, ratios));
    forall i | 0 <= i < |items|
      ensures back[i] == items[i]
    {
      ContrastOnOff(items[i], ratios);
    }
  }

  /**
   * Turning domains off, saving the ratios by name, and on again gives back
   * the original contrasts when contrast names are unique.
   */
  lemma DomainsOffOnRestores(items: seq<Item>)
    requires AllOfKind(items, ContrastWithRatio) && UniqueNames(items)
    ensures WithRatios(WithoutRatios(items), AttrByName(items, F.DomainRatio)) == items
  {
    var ratios := AttrByName(items, F.DomainRatio);
    var back := WithRatios(WithoutRatios(items), ratios);
    forall i | 0 <= i < |items|
      ensures back[i] == items[i]
    {
      AttrByNameOfUnique(items, F.DomainRatio, i);
      ContrastOffOn(items[i], ratios);
    }
  }

  /** Converted contrasts hold exactly the fields of their new class. */
  lemma ConvertedContrastsExact(items: seq<Item>, ratios: map<Value, Value>)
    ensures AllOfKind(WithRatios(items, ratios), ContrastWithRatio)
    ensures AllOfKind(WithoutRatios(items), Contrast)
  {
  }

  /** `ContrastModel`: the contrast list model, which remembers domain ratios while domains are off. */
  class ContrastModel {
    const list: ClassListItemModel
    var domains: bool
    var domainRatios: map<Value, Value>

    ghost predicate Valid()
      reads this, list, list.classlist
    {
      && (list.handle == Contrast || list.handle == ContrastWithRatio)
      && list.classlist.handle == list.handle
      && domains == (list.handle == ContrastWithRatio)
      && AllOfKind(list.classlist.items, list.handle)
    }

    constructor(classlist: ClassListObject)
      requires classlist.handle == Contrast || classlist.handle == ContrastWithRatio
      requires AllOfKind(classlist.items, classlist.handle)
      ensures Valid() && fresh(list)
      ensures list.classlist == classlist && list.handle == classlist.handle && !list.editMode
      ensures domains == (classlist.handle == ContrastWithRatio) && domainRatios == map[]
    {
      list := new ClassListItemModel(classlist);
      domains := classlist.handle == ContrastWithRatio;
      domainRatios := map[];
    }

    /**
     * `set_domains`: nothing happens when the setting is unchanged. Turning
     * domains on gives each contrast the ratio saved under its name (blank if
     * none); turning them off saves each contrast's ratio by name and drops
     * it. The converted contrasts are a new ClassList object, which the
     * model takes and the draft project holds from then on.
     */
    method SetDomains(on: bool, project: ProjectWidget)
      requires Valid() && project.draft.Some?
      modifies this, list, project
      ensures Valid() && domains == on
      ensures old(domains) == on ==>
        && list.classlist == old(list.classlist) && list.handle == old(list.handle)
        && domainRatios == old(domainRatios) && project.draft == old(project.draft)
      ensures old(domains) != on && on ==>
        && list.classlist.items == WithRatios(old(list.classlist.items), old(domainRatios)) && list.handle == ContrastWithRatio
        && domainRatios == old(domainRatios)
      ensures old(domains) != on && !on ==>
        && list.classlist.items == WithoutRatios(old(list.classlist.items)) && list.handle == Contrast
        && domainRatios == AttrByName(old(list.classlist.items), F.DomainRatio)
      ensures old(domains) != on ==>
        && fresh(list.classlist)
        && project.draft == Some(old(project.draft).value["contrasts" := Shared(list.classlist)])
      ensures list.editMode == old(list.editMode) && project.oldContrastModels == old(project.oldContrastModels)
    {
      if domains != on {
        var items := list.classlist.items;
        ConvertedContrastsExact(items, domainRatios);
        domains := on;
        if on {
          items := WithRatios(items, domainRatios);
          list.handle := ContrastWithRatio;
        } else {
          domainRatios := AttrByName(items, F.DomainRatio);
          items := WithoutRatios(items);
          list.handle := Contrast;
        }
        list.classlist := new ClassListObject(ClassList(list.handle, items));
        project.UpdateDraftProject(map["contrasts" := Shared(list.classlist)]);
        UpdateOne(old(project.draft).value, "contrasts", Shared(list.classlist));
      }
    }
  }

  /**
   * `ContrastWidget`, the contrasts tab. Its `set_domains` asks the model to
   * convert the contrasts and then calls `update_model` with the converted
   * list, which builds a new `ContrastModel` around it; the ratios the old
   * model had saved are not carried over.
   */
  class ContrastWidget {
    var model: ContrastModel

    ghost predicate Valid()
      reads this, model, model.list, model.list.classlist
    {
      model.Valid()
    }

    constructor(classlist: ClassListObject)
      requires classlist.handle == Contrast || classlist.handle == ContrastWithRatio
      requires AllOfKind(classlist.items, classlist.handle)
      ensures Valid() && fresh(model) && fresh(model.list)
      ensures model.list.classlist == classlist && model.domainRatios == map[]
    {
      model := new ContrastModel(classlist);
    }

    /**
     * `set_domains` as written: the model converts the contrasts as
     * `ContrastModel.SetDomains` does, and the widget then replaces the model
     * by a new one over the same list, whose saved ratios are empty.
     */
    method SetDomains(on: bool, project: ProjectWidget)
      requires Valid() && project.draft.Some?
      modifies this, model, model.list, project
      ensures Valid() && fresh(model) && fresh(model.list) && model.domains == on && model.domainRatios == map[]
      ensures old(model.domains) == on ==>
        && model.list.classlist == old(model.list.classlist) && project.draft == old(project.draft)
      ensures old(model.domains) != on && on ==>
        model.list.classlist.items == WithRatios(old(model.list.classlist.items), old(model.domainRatios))
      ensures old(model.domains) != on && !on ==>
        model.list.classlist.items == WithoutRatios(old(model.list.classlist.items))
      ensures old(model.domains) != on ==>
        && fresh(model.list.classlist)
        && project.draft == Some(old(project.draft).value["contrasts" := Shared(model.list.classlist)])
    {
      model.SetDomains(on, project);
      model := new ContrastModel(model.list.classlist);
    }
  }

  /**
   * Turning domains off and on again through the widget: the model that
   * saved the ratios is gone by the time they are needed, so every contrast
   * comes back with a blank ratio.
   */
  method WidgetOffOnBlanksRatios(widget: ContrastWidget, project: ProjectWidget)
    requires widget.Valid() && widget.model.domains && project.draft.Some?
    modifies widget, widget.model, widget.model.list, project
    ensures widget.Valid() && widget.model.domains
    ensures widget.model.list.classlist.items == WithRatios(WithoutRatios(old(widget.model.list.classlist.items)), map[])
  {
    widget.SetDomains(false, project);
    widget.SetDomains(true, project);
  }

  /**
   * After the widget's rebuild no ratio is saved, so turning domains back on
   * gives every contrast a blank ratio, and the contrasts are not restored
   * when any ratio was set.
   */
  lemma RebuiltModelBlanksRatios(items: seq<Item>)
    ensures forall i :: 0 <= i < |items| ==> AttrOf(WithRatios(WithoutRatios(items), map[])[i], F.DomainRatio) == Text("")
    ensures (exists i :: 0 <= i < |items| && AttrOf(items[i], F.DomainRatio) != Text("")) ==>
      WithRatios(WithoutRatios(items), map[]) != items
  {
    var back := WithRatios(WithoutRatios(items), map[]);
    forall i | 0 <= i < |items|
      ensures AttrOf(back[i], F.DomainRatio) == Text("")
    {
      assert F.DomainRatio in Fields(ContrastWithRatio);
    }
  }

  // ---------------------------------------------------------------------------
  // Names of new contrasts and datasets
  // ---------------------------------------------------------------------------

  /** The name `set_name_data` stores: the one typed, or the default when it is blank. */
  function NameOrDefault(name: string, default: string): (r: string)
    ensures name != "" ==> r == name
    ensures name == "" ==> r == default
  {
    if name != "" then name else default
  }

  const UnnamedContrast: string := "Unnamed Contrast"
  const UnnamedData: string := "Unnamed Data"

  /**
   * `ContrastWidget.set_name_data` and `DataWidget.set_name_data`: a blank
   * name becomes the default; `accepted` is pydantic's verdict on it.
   */
  method SetNameData(model: ClassListItemModel, index: int, name: string, default: string, accepted: bool)
    requires 0 <= index < |model.classlist.items| && default != ""
    modifies model.classlist
    ensures accepted ==> model.classlist.items == old(model.classlist.items)[index := SetAttr(old(model.classlist.items)[index], F.Name, Text(NameOrDefault(name, default)))]
    ensures accepted ==> NameOf(model.classlist.items[index]) != Text("")
    ensures !accepted ==> model.classlist.items == old(model.classlist.items)
    ensures model.classlist.handle == old(model.classlist.handle)
  {
    var _ := model.SetData(index, F.Name, Text(NameOrDefault(name, default)), accepted);
  }

  /** `name-k`, the k-th copy name of a dataset. */
  function CopyName(name: string, k: nat): string
  {
    name + "-" + NatToString(k)
  }

  lemma CopyNameInjective(name: string, j: nat, k: nat)
    requires CopyName(name, j) == CopyName(name, k)
    ensures j == k
  {
    var pre := name + "-";
    assert CopyName(name, j)[|pre|..] == NatToString(j);
    assert CopyName(name, k)[|pre|..] == NatToString(k);
    NatToStringInjective(j, k);
  }

  /** The copy names `name-1` .. `name-(k-1)`. */
  function CopiesBelow(name: string, k: nat): set<string>
  {
    set j | 1 <= j < k :: CopyName(name, j)
  }

  lemma CopiesBelowGrow(name: string, k: nat)
    requires k >= 1
    ensures CopiesBelow(name, k + 1) == CopiesBelow(name, k) + {CopyName(name, k)}
    ensures CopyName(name, k) !in CopiesBelow(name, k)
    ensures |CopiesBelow(name, k + 1)| == |CopiesBelow(name, k)| + 1
  {
    CopyNotBelow(name, k);
    CopiesBelowStep(name, k);
  }

  lemma CopyNotBelow(name: string, k: nat)
    ensures CopyName(name, k) !in CopiesBelow(name, k)
  {
    if CopyName(name, k) in CopiesBelow(name, k) {
      var j :| 1 <= j < k && CopyName(name, j) == CopyName(name, k);
      CopyNameInjective(name, j, k);
    }
  }

  lemma CopiesBelowStep(name: string, k: nat)
    requires k >= 1
    ensures CopiesBelow(name, k + 1) == CopiesBelow(name, k) + {CopyName(name, k)}
  {
  }

  /**
   * The name an imported dataset gets: its own when no item in the list has
   * it, otherwise `name-k` for the smallest k >= 1 that no item has.
   */
  method UniqueName(name: string, existing: seq<Value>) returns (r: string)
    ensures Text(r) !in existing
    ensures Text(name) !in existing ==> r == name
    ensures Text(name) in existing ==>
      exists k :: k >= 1 && r == CopyName(name, k) && forall j :: 1 <= j < k ==> Text(CopyName(name, j)) in existing
  {
    if Text(name) !in existing {
      return name;
    }
    var taken := set v | v in existing && v.Text? :: v.text;
    var k := 1;
    ghost var tried: set<string> := {};
    while Text(CopyName(name, k)) in existing
      invariant k >= 1
      invariant tried == CopiesBelow(name, k) && |tried| == k - 1
      invariant tried <= taken
      invariant forall j :: 1 <= j < k ==> Text(CopyName(name, j)) in existing
      decreases |taken| - |tried|
    {
      CopiesBelowGrow(name, k);
      tried := tried + {CopyName(name, k)};
      k := k + 1;
      assert tried <= taken;
      SubsetSize(tried, taken);
    }
    return CopyName(name, k);
  }

  lemma SubsetSize(a: set<string>, b: set<string>)
    requires a <= b
    ensures |a| <= |b|
  {
    assert b == a + (b - a);
  }

  /**
   * `added` is `dataset` appended to a list whose names are `present`: its
   * own name when no item has it, otherwise `name-k` for the smallest k >= 1
   * that no item has; every other field is kept.
   */
  ghost predicate Imported(added: Item, dataset: Item, present: seq<Value>)
  {
    && added.kind == dataset.kind && F.Name in added.attrs
    && added.attrs == dataset.attrs[F.Name := added.attrs[F.Name]]
    && NameOf(added) !in present
    && (NameOf(dataset) !in present ==> NameOf(added) == NameOf(dataset))
    && (NameOf(dataset) in present ==>
          && NameOf(dataset).Text?
          && exists k :: k >= 1 && NameOf(added) == Text(CopyName(NameOf(dataset).text, k))
                        && forall j :: 1 <= j < k ==> Text(CopyName(NameOf(dataset).text, j)) in present)
  }

  /**
   * `DataWidget.append_item` for the datasets read from one file: each is
   * renamed by `UniqueName` against the names in the list at that moment
   * and appended, so the names stay unique.
   */
  method AppendDatasets(model: ClassListItemModel, datasets: seq<Item>)
    requires model.handle == DataItem && UniqueNames(model.classlist.items)
    requires forall i :: 0 <= i < |datasets| ==>
      datasets[i].kind == DataItem && F.Name in datasets[i].attrs && datasets[i].attrs[F.Name].Text?
    modifies model.classlist
    ensures UniqueNames(model.classlist.items)
    ensures |model.classlist.items| == |old(model.classlist.items)| + |datasets|
    ensures model.classlist.items[..|old(model.classlist.items)|] == old(model.classlist.items)
    ensures forall i :: 0 <= i < |datasets| ==>
      Imported(model.classlist.items[|old(model.classlist.items)| + i], datasets[i], Names(model.classlist.items[..|old(model.classlist.items)| + i]))
    ensures model.classlist.handle == old(model.classlist.handle)
  {
    var list := model.classlist;
    ghost var before := list.items;
    var i := 0;
    while i < |datasets|
      invariant 0 <= i <= |datasets|
      invariant model.classlist == list && model.handle == DataItem && list.handle == old(list.handle)
      invariant UniqueNames(list.items)
      invariant |list.items| == |before| + i && list.items[..|before|] == before
      invariant forall j :: 0 <= j < i ==> Imported(list.items[|before| + j], datasets[j], Names(list.items[..|before| + j]))
    {
      var dataset := datasets[i];
      var existing := Names(list.items);
      if NameOf(dataset) in existing {
        var newName := UniqueName(NameOf(dataset).text, existing);
        dataset := SetAttr(dataset, F.Name, Text(newName));
      }
      AppendKeepsUnique(list.items, dataset);
      model.AppendItem(Some(dataset), dataset);
      i := i + 1;
    }
  }

  /** Appending an item whose name no item has keeps the names unique. */
  lemma AppendKeepsUnique(items: seq<Item>, x: Item)
    requires UniqueNames(items) && NameOf(x) !in Names(items)
    ensures UniqueNames(items + [x])
  {
    var r := items + [x];
    forall j, k | 0 <= j < k < |r|
      ensures NameOf(r[j]) != NameOf(r[k])
    {
      if k == |items| {
        assert NameOf(r[j]) == Names(items)[j];
      }
    }
  }
}
