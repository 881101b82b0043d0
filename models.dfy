/**
 * The earlier table model for class-list project fields
 * (rascal2/widgets/project/models.py): one column per field of the item
 * class after a leading delete-button column, with the parameter table
 * showing `fit` first and guarding `name`, `mu` and `sigma`. It shares Qt's
 * roles, cell data and item flags with the later table models.
 */
module ClassListModels {
  import opened Wrappers
  import opened Text
  import opened Sequences
  import opened ProjectItems
  import opened Tables
  import F = FieldNames

  /**
   * The headers: `list(model_fields)`, with `fit` moved to the front by
   * the parameters model.
   */
  function ModelHeaders(parameters: bool, handle: ItemKind): seq<F.Field>
  {
    if parameters then [F.Fit, F.Name, F.Min, F.Value, F.Max, F.PriorType, F.Mu, F.Sigma, F.ShowPriors]
    else Fields(handle)
  }

  /**
   * The parameters model's headers are `headers.insert(0, headers.pop(headers.index("fit")))`
   * applied to the parameter fields: `fit` first, then every other field in
   * declaration order, `show_priors` included.
   */
  lemma ParameterModelHeadersAsBuilt(handle: ItemKind)
    requires handle == Parameter
    ensures ModelHeaders(true, handle) == [F.Fit] + RemoveFirst(Fields(handle), F.Fit)
  {
    var fields := Fields(handle);
    RemoveFirstAt(fields, F.Fit, 4);
    assert fields[..4] + fields[5..] == [F.Name, F.Min, F.Value, F.Max, F.PriorType, F.Mu, F.Sigma, F.ShowPriors];
  }

  /** Every header is a field of the item class. */
  lemma ModelHeadersPresent(parameters: bool, handle: ItemKind, item: Item)
    requires parameters ==> handle == Parameter
    requires FieldsExact(item) && IsInstance(item.kind, handle)
    ensures HasFields(item, ModelHeaders(parameters, handle))
  {
    assert Fields(item.kind) == Fields(handle);
    var headers := ModelHeaders(parameters, handle);
    forall k | 0 <= k < |headers|
      ensures headers[k] in item.attrs
    {
      assert headers[k] in Fields(handle);
    }
  }

  /** `headerData` of this model: underscores become spaces and the result is title-cased. */
  function ModelHeaderTitle(header: string): (r: string)
    ensures |r| == |header|
  {
    Title(ReplaceChar(header, '_', ' '))
  }

  /**
   * The title has no underscores, differs from the header only in case, and
   * has its word-initial letters, and only those, in upper case. It agrees
   * with the later tables' title except on headers containing `SLD`, which
   * this model title-cases too.
   */
  lemma ModelHeaderTitleShape(header: string, i: int)
    requires 0 <= i < |header|
    ensures ModelHeaderTitle(header)[i] != '_'
    ensures header[i] != '_' ==> ToLower(ModelHeaderTitle(header)[i]) == ToLower(header[i])
    ensures IsLetter(header[i]) ==> ('A' <= ModelHeaderTitle(header)[i] <= 'Z' <==> i == 0 || !IsLetter(header[i - 1]))
    ensures !Contains(header, "SLD") ==> ModelHeaderTitle(header) == HeaderTitle(header)
  {
    var spaced := ReplaceChar(header, '_', ' ');
    var afterLetter := i > 0 && IsLetter(spaced[i - 1]);
    assert ModelHeaderTitle(header)[i] == TitleChar(spaced[i], afterLetter);
    TitleCharCase(spaced[i], afterLetter);
  }

  /** How the display role shows a value here: an enum as its string, anything else as it is. */
  function ModelShown(v: Value): (r: Value)
    ensures v.Choice? ==> r == Text(v.choice)
    ensures !v.Choice? ==> r == v
  {
    if v.Choice? then Text(v.choice) else v
  }

  /** `data` for the cell of `item` under `header`. */
  function ModelCellValue(item: Item, header: F.Field, role: Role): (r: CellData)
    ensures r.CheckState? <==> role == CheckStateRole && header == F.Fit
    ensures r.Display? <==> role == DisplayRole && header != F.Fit
    ensures r.CheckState? ==> r.checked == Truthy(AttrOf(item, header))
    ensures r.Display? ==> r.value == ModelShown(AttrOf(item, header))
  {
    var v := AttrOf(item, header);
    if role == DisplayRole && header != F.Fit then Display(ModelShown(v))
    else if role == CheckStateRole && header == F.Fit then CheckState(Truthy(v))
    else NoData
  }

  /**
   * `ClassListModel`, and `ParametersModel` when `parameters` holds: a
   * table over a ClassList object, which the model keeps and does not copy.
   */
  class ClassListModel {
    const parameters: bool
    const classlist: ClassListObject
    /** `item_type`: the class handle the list had when it was set up. */
    var handle: ItemKind
    var headers: seq<F.Field>
    var editMode: bool
    /** `ParametersModel.protected_indices`. */
    var protectedIndices: seq<int>

    ghost predicate Valid()
      reads this, classlist
    {
      && IsPydantic(handle) && (parameters ==> handle == Parameter) && classlist.handle == handle
      && headers == ModelHeaders(parameters, handle)
      && ItemsFit(classlist.items, handle, headers)
    }

    constructor(parameters: bool, classlist: ClassListObject)
      requires IsPydantic(classlist.handle) && (parameters ==> classlist.handle == Parameter)
      requires ValidClassList(classlist.Contents())
      ensures Valid()
      ensures this.parameters == parameters && this.classlist == classlist && handle == classlist.handle
      ensures headers == ModelHeaders(parameters, classlist.handle) && !editMode
      ensures parameters ==> protectedIndices == ProtectedRows(classlist.items)
      ensures !parameters ==> protectedIndices == []
    {
      this.parameters := parameters;
      this.classlist := classlist;
      handle := classlist.handle;
      headers := ModelHeaders(parameters, classlist.handle);
      editMode := false;
      var items := classlist.items;
      var protected: seq<int> := [];
      if parameters {
        var i := 0;
        while i < |items|
          invariant 0 <= i <= |items|
          invariant protected == ProtectedRows(items[..i])
        {
          assert items[..i + 1][..i] == items[..i];
          if items[i].kind == ProtectedParameter {
            protected := protected + [i];
          }
          i := i + 1;
        }
        assert items[..i] == items;
      }
      protectedIndices := protected;
      new;
      forall i | 0 <= i < |items|
        ensures ItemFits(items[i], handle, headers)
      {
        ModelHeadersPresent(parameters, handle, items[i]);
      }
    }

    function ColumnCount(): (r: int)
      reads this
      ensures r == |headers| + 1
    {
      |headers| + 1
    }

    /** `index_header`: column 0 has no header; column `c` shows `headers[c - 1]`. */
    function IndexHeader(col: int): (r: Option<F.Field>)
      reads this
      requires 0 <= col < ColumnCount()
      ensures r.None? <==> col == 0
      ensures r.Some? ==> r.value == headers[col - 1]
    {
      if col == 0 then None else Some(headers[col - 1])
    }

    /** `headerData`: a title for a horizontal header in the display role, except on column 0. */
    function HeaderData(section: int, horizontal: bool, role: Role): (r: Option<string>)
      reads this
      requires 0 <= section < ColumnCount()
      ensures r.Some? <==> horizontal && role == DisplayRole && section != 0
      ensures r.Some? ==> r.value == ModelHeaderTitle(F.FieldName(headers[section - 1]))
    {
      if horizontal && role == DisplayRole && section != 0 then Some(ModelHeaderTitle(F.FieldName(headers[section - 1])))
      else None
    }

    /** `data`: nothing for column 0, otherwise the cell's value. */
    function Data(row: int, col: int, role: Role): (r: CellData)
      reads this, classlist
      requires 0 <= row < |classlist.items| && 0 <= col < ColumnCount()
      ensures col == 0 ==> r == NoData
      ensures col != 0 ==> r == ModelCellValue(classlist.items[row], headers[col - 1], role)
    {
      match IndexHeader(col)
      case None => NoData
      case Some(header) => ModelCellValue(classlist.items[row], header, role)
    }

    /** `flags`: Qt's default for the base model, the parameter rules for `ParametersModel`. */
    function CellFlags(row: int, col: int): (r: Flags)
      reads this, classlist
      requires 0 <= row < |classlist.items| && 0 <= col < ColumnCount()
      ensures !parameters ==> r == DefaultFlags
      ensures parameters ==> r == ParameterFlags(classlist.items[row], col, IndexHeader(col), row, editMode, protectedIndices)
    {
      if parameters then ParameterFlags(classlist.items[row], col, IndexHeader(col), row, editMode, protectedIndices)
      else DefaultFlags
    }

    /**
     * `setData`: only the edit and check-state roles store, and only on a
     * column with a header; `accepted` is pydantic's verdict on the
     * assignment. `updated` tells whether the parent's `update_project` is
     * called, which happens after every stored value outside edit mode.
     */
    method SetData(row: int, col: int, value: Value, role: Role, accepted: bool) returns (ok: bool, updated: bool)
      requires Valid() && 0 <= row < |classlist.items| && 0 <= col < ColumnCount()
      modifies classlist
      ensures Valid()
      ensures ok == ((role == EditRole || role == CheckStateRole) && col != 0 && accepted)
      ensures ok ==> classlist.items == old(classlist.items)[row := SetAttr(old(classlist.items)[row], headers[col - 1],
                                                                          Stored(headers[col - 1], value))]
      ensures !ok ==> classlist.items == old(classlist.items)
      ensures classlist.handle == old(classlist.handle)
      ensures updated == (ok && !editMode)
    {
      ok, updated := false, false;
      if role == EditRole || role == CheckStateRole {
        var header := IndexHeader(col);
        if header.Some? {
          if !accepted {
            return false, false;
          }
          classlist.items := classlist.items[row := SetAttr(classlist.items[row], header.value, Stored(header.value, value))];
          updated := !editMode;
          ok := true;
        }
      }
    }

    /** `append_item`: `blank` is the item class called with no arguments. */
    method AppendItem(blank: Item)
      requires Valid() && FieldsExact(blank) && blank.kind == handle
      modifies classlist
      ensures Valid()
      ensures classlist.items == old(classlist.items) + [blank] && classlist.handle == old(classlist.handle)
    {
      ModelHeadersPresent(parameters, handle, blank);
      classlist.items := classlist.items + [blank];
    }

    /** `delete_item`: `classlist.pop(row)`. */
    method DeleteItem(row: int)
      requires Valid() && -|classlist.items| <= row < |classlist.items|
      modifies classlist
      ensures Valid()
      ensures classlist.items == RemoveAt(old(classlist.items), if row < 0 then |old(classlist.items)| + row else row)
      ensures classlist.handle == old(classlist.handle)
    {
      classlist.items := RemoveAt(classlist.items, if row < 0 then |classlist.items| + row else row);
    }
  }

  /** A stored value is what `data` shows back, and a stored `fit` is checked iff the check state set was `Checked`. */
  lemma ModelStoredShownBack(item: Item, header: F.Field, value: Value)
    requires !value.Choice?
    ensures header == F.Fit ==>
      ModelCellValue(SetAttr(item, header, Stored(header, value)), header, CheckStateRole) == CheckState(value == Number(2.0))
    ensures header != F.Fit ==>
      ModelCellValue(SetAttr(item, header, Stored(header, value)), header, DisplayRole) == Display(value)
  {
  }

  /**
   * The model for a class list, or the `NotImplementedError` raised for a
   * class that is not a pydantic model.
   */
  method NewClassListModel(parameters: bool, classlist: ClassListObject) returns (r: Result<ClassListModel, string>)
    requires (parameters ==> classlist.handle == Parameter) && ValidClassList(classlist.Contents())
    ensures r.Failure? <==> !IsPydantic(classlist.handle)
    ensures r.Failure? ==> r.error == "ClassListModel only works for classlists of Pydantic models!"
    ensures r.Success? ==> fresh(r.value) && r.value.Valid() && r.value.classlist == classlist && !r.value.editMode
  {
    if !IsPydantic(classlist.handle) {
      return Failure("ClassListModel only works for classlists of Pydantic models!");
    }
    var m := new ClassListModel(parameters, classlist);
    return Success(m);
  }
}
