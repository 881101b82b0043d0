/**
 * The table models behind the project editor's class-list tables
 * (rascal2/widgets/project/tables.py): one column per item field after a
 * leading delete-button column, cell display and editing, header titles,
 * per-cell permissions, and what the parameter, layer, custom-file and
 * signal (background and resolution) tables do differently.
 */
module Tables {
  import opened Wrappers
  import opened Text
  import opened Sequences
  import opened ProjectItems
  import opened Projects
  import opened DraftProject
  import F = FieldNames

  /** Which subclass of `ClassListTableModel` a table uses. */
  datatype TableKind =
    | PlainTable
    | ParametersTable
    | LayersTable
    | DomainsTable
    | CustomFilesTable
    | BackgroundsTable
    | ResolutionsTable

  /** The class each table subclass is used with. */
  predicate KindFits(kind: TableKind, handle: ItemKind)
  {
    match kind
    case PlainTable => true
    case ParametersTable => handle == Parameter
    case LayersTable => handle == Layer || handle == AbsorptionLayer
    case DomainsTable => handle == DomainContrast
    case CustomFilesTable => handle == CustomFile
    case BackgroundsTable => handle == Background
    case ResolutionsTable => handle == Resolution
  }

  /** The Qt item-data roles the models tell apart. */
  datatype Role = DisplayRole | EditRole | CheckStateRole | OtherRole

  /** What `data` returns for a cell. */
  datatype CellData = NoData | Display(value: Value) | CheckState(checked: bool)

  /** A cell's Qt item flags. */
  datatype Flags = Flags(enabled: bool, selectable: bool, editable: bool, checkable: bool)

  const NoItemFlags := Flags(false, false, false, false)

  /** What `QAbstractTableModel.flags` gives a valid cell: enabled and selectable. */
  const DefaultFlags := Flags(true, true, false, false)

  /** `DefaultFlags`, made editable when `editable` holds. */
  function EditableIf(editable: bool): Flags
  {
    DefaultFlags.(editable := editable)
  }

  // ---------------------------------------------------------------------------
  // Headers
  // ---------------------------------------------------------------------------

  /**
   * The headers a table shows for items of class `handle`: the class's
   * fields, except that the parameter table moves `fit` to the front and
   * drops `show_priors`, and the custom-file table drops `path`.
   */
  function HeadersFor(kind: TableKind, handle: ItemKind): seq<F.Field>
  {
    match kind
    case ParametersTable => [F.Fit, F.Name, F.Min, F.Value, F.Max, F.PriorType, F.Mu, F.Sigma]
    case CustomFilesTable => [F.Name, F.Filename, F.FunctionName, F.Language]
    case _ => Fields(handle)
  }

  /**
   * `headers.insert(0, headers.pop(headers.index("fit")))` followed by
   * `headers.pop(headers.index("show_priors"))`.
   */
  function ParameterHeaders(fields: seq<F.Field>): seq<F.Field>
  {
    var moved := [F.Fit] + RemoveFirst(fields, F.Fit);
    RemoveFirst(moved, F.ShowPriors)
  }

  /**
   * With `fit` first at index `i` and `show_priors` first at a later index
   * `j`, the parameter headers are `fit`, then the fields before `j` other
   * than `fit`, then the fields after `j`.
   */
  lemma ParameterHeadersShape(fields: seq<F.Field>, i: int, j: int)
    requires 0 <= i < j < |fields| && fields[i] == F.Fit && fields[j] == F.ShowPriors
    requires F.Fit !in fields[..i] && F.ShowPriors !in fields[..j]
    ensures ParameterHeaders(fields) == [F.Fit] + fields[..i] + fields[i + 1..j] + fields[j + 1..]
  {
    MoveThenRemove(fields, F.Fit, F.ShowPriors, i, j);
  }

  /** The parameter table's headers are what its constructor makes of `model_fields`. */
  lemma ParameterHeadersAsBuilt(handle: ItemKind)
    requires KindFits(ParametersTable, handle)
    ensures HeadersFor(ParametersTable, handle) == ParameterHeaders(Fields(handle))
  {
    ParameterFieldsMoved();
  }

  lemma ParameterFieldsMoved()
    ensures ParameterHeaders(Fields(Parameter)) == [F.Fit, F.Name, F.Min, F.Value, F.Max, F.PriorType, F.Mu, F.Sigma]
  {
    ParameterFieldsCut();
    ParameterFieldsPieces();
  }

  lemma ParameterFieldsCut()
    ensures ParameterHeaders(ParameterFields)
            == [F.Fit] + ParameterFields[..4] + ParameterFields[5..8] + ParameterFields[9..]
  {
    var fs := ParameterFields;
    assert fs[..8] == fs[..4] + [F.Fit] + fs[5..8];
    ParameterHeadersShape(fs, 4, 8);
  }

  lemma ParameterFieldsPieces()
    ensures [F.Fit] + ParameterFields[..4] + ParameterFields[5..8] + ParameterFields[9..]
            == [F.Fit, F.Name, F.Min, F.Value, F.Max, F.PriorType, F.Mu, F.Sigma]
  {
  }

  /** The custom-file table's headers are `model_fields` with `path` removed. */
  lemma CustomFileHeadersAsBuilt(handle: ItemKind)
    requires KindFits(CustomFilesTable, handle)
    ensures HeadersFor(CustomFilesTable, handle) == RemoveFirst(Fields(handle), F.Path)
  {
    RemoveFirstAt(Fields(handle), F.Path, 4);
  }

  /**
   * Which fields are headers: the parameter table's headers start with `fit`
   * and leave out `show_priors`, the custom-file table's leave out `path`,
   * and every other table shows every field.
   */
  lemma HeadersAreFields(kind: TableKind, handle: ItemKind, h: F.Field)
    requires KindFits(kind, handle)
    ensures kind == ParametersTable ==> HeadersFor(kind, handle)[0] == F.Fit
    ensures kind == ParametersTable ==> (h in HeadersFor(kind, handle) <==> h in Fields(handle) && h != F.ShowPriors)
    ensures kind == CustomFilesTable ==> (h in HeadersFor(kind, handle) <==> h in Fields(handle) && h != F.Path)
    ensures kind != ParametersTable && kind != CustomFilesTable ==> HeadersFor(kind, handle) == Fields(handle)
  {
  }

  /** An item holds every field in `fields`. */
  predicate HasFields(item: Item, fields: seq<F.Field>)
  {
    forall k :: 0 <= k < |fields| ==> fields[k] in item.attrs
  }

  /** Every header of a table is a field of each item its class list can hold. */
  lemma HeadersPresent(kind: TableKind, handle: ItemKind, item: Item)
    requires KindFits(kind, handle) && FieldsExact(item) && IsInstance(item.kind, handle)
    ensures HasFields(item, HeadersFor(kind, handle))
  {
    assert Fields(item.kind) == Fields(handle);
    var headers := HeadersFor(kind, handle);
    forall k | 0 <= k < |headers|
      ensures headers[k] in item.attrs
    {
      HeadersAreFields(kind, handle, headers[k]);
    }
  }

  /** An item a table with class `handle` and `headers` can show. */
  predicate ItemFits(item: Item, handle: ItemKind, headers: seq<F.Field>)
  {
    FieldsExact(item) && IsInstance(item.kind, handle) && HasFields(item, headers)
  }

  predicate ItemsFit(items: seq<Item>, handle: ItemKind, headers: seq<F.Field>)
  {
    forall i :: 0 <= i < |items| ==> ItemFits(items[i], handle, headers)
  }

  /** An instance holding exactly its fields has every header of its table. */
  lemma InstanceFits(kind: TableKind, handle: ItemKind, item: Item)
    requires KindFits(kind, handle) && FieldsExact(item) && IsInstance(item.kind, handle)
    ensures ItemFits(item, handle, HeadersFor(kind, handle))
  {
    HeadersPresent(kind, handle, item);
  }

  /** Replacing one item by one that fits keeps every item fitting. */
  lemma ItemsFitUpdate(items: seq<Item>, handle: ItemKind, headers: seq<F.Field>, row: int, item: Item)
    requires ItemsFit(items, handle, headers) && 0 <= row < |items| && ItemFits(item, handle, headers)
    ensures ItemsFit(items[row := item], handle, headers)
  {
  }

  /**
   * `headerData` for a horizontal header in the display role: underscores
   * become spaces, and the header is title-cased unless it contains `SLD`.
   */
  function HeaderTitle(header: string): (r: string)
    ensures |r| == |header|
  {
    var spaced := ReplaceChar(header, '_', ' ');
    if Contains(header, "SLD") then spaced else Title(spaced)
  }

  /** One character of a title-cased (non-`SLD`) header. */
  lemma TitledHeaderAt(header: string, i: int)
    requires !Contains(header, "SLD")
    requires 0 <= i < |header|
    ensures HeaderTitle(header)[i] != '_'
    ensures header[i] != '_' ==> ToLower(HeaderTitle(header)[i]) == ToLower(header[i])
    ensures IsLetter(header[i]) ==> ('A' <= HeaderTitle(header)[i] <= 'Z' <==> i == 0 || !IsLetter(header[i - 1]))
  {
    var spaced := ReplaceChar(header, '_', ' ');
    var afterLetter := i > 0 && IsLetter(spaced[i - 1]);
    assert HeaderTitle(header)[i] == TitleChar(spaced[i], afterLetter);
    TitleCharCase(spaced[i], afterLetter);
  }

  /**
   * A header title has no underscores and differs from the header only in
   * case; an `SLD` header keeps its case, and any other header has exactly
   * its word-initial letters in upper case.
   */
  lemma HeaderTitleShape(header: string)
    ensures forall i :: 0 <= i < |header| ==> HeaderTitle(header)[i] != '_'
    ensures forall i :: 0 <= i < |header| && header[i] != '_' ==> ToLower(HeaderTitle(header)[i]) == ToLower(header[i])
    ensures Contains(header, "SLD") ==> HeaderTitle(header) == ReplaceChar(header, '_', ' ')
    ensures !Contains(header, "SLD") ==> forall i :: 0 <= i < |header| && IsLetter(header[i]) ==>
      ('A' <= HeaderTitle(header)[i] <= 'Z' <==> i == 0 || !IsLetter(header[i - 1]))
  {
    if !Contains(header, "SLD") {
      forall i | 0 <= i < |header| {
        TitledHeaderAt(header, i);
      }
    }
  }

  // ---------------------------------------------------------------------------
  // Cell display and storage
  // ---------------------------------------------------------------------------

  /** Python truthiness of a field value. */
  predicate Truthy(v: Value)
  {
    match v
    case Text(s) => s != ""
    case Flag(b) => b
    case Number(x) => x != 0.0
    case Choice(s) => s != ""
    case TextList(l) => l != []
    case PathValue(_) => true
  }

  /** How the display role shows a value: enums as their string, lists joined by ", ". */
  function Shown(v: Value): (r: Value)
    ensures v.Choice? ==> r == Text(v.choice)
    ensures v.TextList? ==> r == Text(Join(", ", v.list))
    ensures !v.Choice? && !v.TextList? ==> r == v
  {
    match v
    case Choice(s) => Text(s)
    case TextList(l) => Text(Join(", ", l))
    case _ => v
  }

  /** The directory a custom file's `path` field holds. */
  function DirOf(item: Item): string
  {
    var p := AttrOf(item, F.Path);
    if p.PathValue? then p.path else "."
  }

  /**
   * `data` for the cell of `item` under `header`. The custom-file table
   * shows, in edit mode, "Browse..." for a blank filename and the file's
   * full path otherwise.
   */
  function CellValue(kind: TableKind, item: Item, header: F.Field, role: Role, editMode: bool): (r: CellData)
    ensures r.CheckState? <==> role == CheckStateRole && header == F.Fit
    ensures r.Display? <==> role == DisplayRole && header != F.Fit
    ensures r.CheckState? ==> r.checked == Truthy(AttrOf(item, header))
  {
    var v := AttrOf(item, header);
    if role == DisplayRole && header != F.Fit then
      if kind == CustomFilesTable && header == F.Filename && editMode && v.Text? then
        if v.text == "" then Display(Text("Browse...")) else Display(Text(JoinPosix(DirOf(item), v.text)))
      else Display(Shown(v))
    else if role == CheckStateRole && header == F.Fit then CheckState(Truthy(AttrOf(item, header)))
    else NoData
  }

  /** The value `setData` stores: a check state becomes a bool for `fit`, anything else is kept. */
  function Stored(header: F.Field, value: Value): (r: Value)
    ensures header == F.Fit ==> r == Flag(value == Number(2.0))
    ensures header != F.Fit ==> r == value
  {
    if header == F.Fit then Flag(value == Number(2.0)) else value
  }

  /**
   * What `setData` stores is what `data` shows back: a `fit` cell is checked
   * iff the check state set was `Checked`, and a text or number set on any
   * other cell is displayed as it was set.
   */
  lemma StoredShownBack(kind: TableKind, item: Item, header: F.Field, value: Value, editMode: bool)
    requires value.Text? || value.Number?
    requires !(kind == CustomFilesTable && header == F.Filename && editMode)
    ensures header == F.Fit ==>
      CellValue(kind, SetAttr(item, header, Stored(header, value)), header, CheckStateRole, editMode) == CheckState(value == Number(2.0))
    ensures header != F.Fit ==>
      CellValue(kind, SetAttr(item, header, Stored(header, value)), header, DisplayRole, editMode) == Display(value)
  {
  }

  // ---------------------------------------------------------------------------
  // Flags
  // ---------------------------------------------------------------------------

  /**
   * `ParametersModel.flags`: nothing for the delete column or for `mu` and
   * `sigma` of a non-gaussian prior; `fit` is checkable; `name` is editable
   * only in edit mode on an unprotected row; every other column is editable.
   */
  function ParameterFlags(item: Item, col: int, header: Option<F.Field>, row: int, editMode: bool, protectedRows: seq<int>): (r: Flags)
    ensures r == NoItemFlags <==>
      col == 0 || (AttrOf(item, F.PriorType) != Choice("gaussian") && (header == Some(F.Mu) || header == Some(F.Sigma)))
    ensures r != NoItemFlags ==> r.enabled && r.selectable
    ensures r != NoItemFlags ==> (r.checkable <==> header == Some(F.Fit))
    ensures r != NoItemFlags && header == Some(F.Name) ==> (r.editable <==> editMode && row !in protectedRows)
    ensures r != NoItemFlags && header != Some(F.Name) ==> (r.editable <==> header != Some(F.Fit))
  {
    if col == 0 || (AttrOf(item, F.PriorType) != Choice("gaussian") && header in [Some(F.Mu), Some(F.Sigma)]) then
      NoItemFlags
    else if header == Some(F.Fit) then DefaultFlags.(checkable := true)
    else EditableIf(header != Some(F.Name) || (editMode && row !in protectedRows))
  }

  /** The signal types. */
  predicate IsSignalType(v: Value)
  {
    v == Choice("constant") || v == Choice("data") || v == Choice("function")
  }

  /** `num_valid_values`: how many value fields constant, data and function signals use. */
  function NumValidValues(kind: TableKind): (int, int, int)
  {
    if kind == BackgroundsTable then (0, 1, 5) else (0, -1, 5)
  }

  /**
   * `AbstractSignalModel.flags`: columns past the name, type and source
   * columns and the value fields the signal type uses are disabled; the
   * rest are editable in edit mode.
   */
  function SignalFlags(kind: TableKind, signalType: Value, col: int, editMode: bool): (r: Flags)
    requires kind == BackgroundsTable || kind == ResolutionsTable
    requires IsSignalType(signalType)
    ensures signalType == Choice("constant") ==> (r == NoItemFlags <==> col >= 4)
    ensures signalType == Choice("function") ==> (r == NoItemFlags <==> col >= 9)
    ensures kind == BackgroundsTable && signalType == Choice("data") ==> (r == NoItemFlags <==> col >= 5)
    ensures kind == ResolutionsTable && signalType == Choice("data") ==> (r == NoItemFlags <==> col >= 3)
    ensures r != NoItemFlags ==> r == EditableIf(editMode)
  {
    var n := NumValidValues(kind);
    var disableFrom := if signalType == Choice("constant") then n.0 else if signalType == Choice("data") then n.1 else n.2;
    if col > disableFrom + 3 then NoItemFlags else EditableIf(editMode)
  }

  /** The row indices of protected parameters, in order. */
  function ProtectedRows(items: seq<Item>): seq<int>
  {
    if items == [] then []
    else ProtectedRows(items[..|items| - 1]) + (if items[|items| - 1].kind == ProtectedParameter then [|items| - 1] else [])
  }

  /** The protected rows are exactly the rows holding protected parameters, in increasing order. */
  lemma {:induction false} ProtectedRowsExact(items: seq<Item>)
    ensures forall i :: i in ProtectedRows(items) <==> 0 <= i < |items| && items[i].kind == ProtectedParameter
    ensures forall j, k :: 0 <= j < k < |ProtectedRows(items)| ==> ProtectedRows(items)[j] < ProtectedRows(items)[k]
  {
    if items != [] {
      var init := items[..|items| - 1];
      ProtectedRowsExact(init);
      assert forall i :: 0 <= i < |init| ==> init[i] == items[i];
      var before := ProtectedRows(init);
      forall k | 0 <= k < |before|
        ensures before[k] < |init|
      {
        assert before[k] in before;
      }
    }
  }

  // ---------------------------------------------------------------------------
  // Custom files
  // ---------------------------------------------------------------------------

  /** The language a custom file's extension selects, if any. */
  function LanguageFor(extension: string): (r: Option<Value>)
    ensures extension == ".py" ==> r == Some(Choice("python"))
    ensures extension == ".m" ==> r == Some(Choice("matlab"))
    ensures extension in [".dll", ".so", ".dylib"] ==> r == Some(Choice("cpp"))
    ensures extension !in [".py", ".m", ".dll", ".so", ".dylib"] ==> r == None
  {
    if extension == ".py" then Some(Choice("python"))
    else if extension == ".m" then Some(Choice("matlab"))
    else if extension == ".dll" || extension == ".so" || extension == ".dylib" then Some(Choice("cpp"))
    else None
  }

  /**
   * The function names recorded for a chosen file: those found in a Python
   * file, and none for any other file.
   */
  function FunctionNamesFound(value: string, pyFunctionNames: seq<string>): Option<seq<string>>
  {
    if Suffix(value) == ".py" then Some(pyFunctionNames) else None
  }

  /**
   * A custom file with `path` and `filename` set, and `function_name` and
   * `language` set when a value for them is given.
   */
  function WithFile(item: Item, dir: string, name: string, functionName: Option<string>, language: Option<Value>): Item
  {
    var attrs := item.attrs[F.Path := PathValue(dir)][F.Filename := Text(name)];
    var attrs := if functionName.Some? then attrs[F.FunctionName := Text(functionName.value)] else attrs;
    var attrs := if language.Some? then attrs[F.Language := language.value] else attrs;
    Item(item.kind, attrs)
  }

  /**
   * `WithFile` stores what it is given under the four fields it names, adds
   * no other field, and leaves every other field and every field it is given
   * no value for alone.
   */
  lemma WithFileFields(item: Item, dir: string, name: string, functionName: Option<string>, language: Option<Value>)
    ensures WithFile(item, dir, name, functionName, language).kind == item.kind
    ensures WithFile(item, dir, name, functionName, language).attrs[F.Path] == PathValue(dir)
    ensures WithFile(item, dir, name, functionName, language).attrs[F.Filename] == Text(name)
    ensures functionName.Some? ==> WithFile(item, dir, name, functionName, language).attrs[F.FunctionName] == Text(functionName.value)
    ensures functionName.None? ==> AttrOf(WithFile(item, dir, name, functionName, language), F.FunctionName) == AttrOf(item, F.FunctionName)
    ensures language.Some? ==> WithFile(item, dir, name, functionName, language).attrs[F.Language] == language.value
    ensures language.None? ==> AttrOf(WithFile(item, dir, name, functionName, language), F.Language) == AttrOf(item, F.Language)
    ensures item.attrs.Keys <= WithFile(item, dir, name, functionName, language).attrs.Keys
    ensures WithFile(item, dir, name, functionName, language).attrs.Keys <= item.attrs.Keys + {F.Path, F.Filename, F.FunctionName, F.Language}
    ensures forall f :: f in item.attrs && f != F.Path && f != F.Filename && f != F.FunctionName && f != F.Language ==>
      WithFile(item, dir, name, functionName, language).attrs[f] == item.attrs[f]
  {
  }

  /** The first function name found in a Python file, if there is one. */
  function FirstFunction(value: string, pyFunctionNames: seq<string>): (r: Option<string>)
    ensures r.Some? <==> Suffix(value) == ".py" && |pyFunctionNames| > 0
    ensures r.Some? ==> r.value == pyFunctionNames[0]
  {
    var found := FunctionNamesFound(value, pyFunctionNames);
    if found.Some? && |found.value| > 0 then Some(found.value[0]) else None
  }

  /**
   * Choosing a file for a custom file (the `filename` branch of `setData`):
   * its directory goes to `path` and its name to `filename`, the first
   * function found in a Python file to `function_name`, and the language
   * its extension selects, if any, to `language`.
   */
  function WithFilename(item: Item, value: string, pyFunctionNames: seq<string>): Item
  {
    WithFile(item, Parent(value), Name(value), FirstFunction(value, pyFunctionNames), LanguageFor(Suffix(value)))
  }

  /** In edit mode the filename cell shows the chosen file's path again. */
  lemma FilenameShownBack(item: Item, value: string, pyFunctionNames: seq<string>)
    requires Normalised(value)
    ensures CellValue(CustomFilesTable, WithFilename(item, value, pyFunctionNames), F.Filename, DisplayRole, true)
      == Display(Text(value))
  {
    var r := WithFilename(item, value, pyFunctionNames);
    WithFileFields(item, Parent(value), Name(value), FirstFunction(value, pyFunctionNames), LanguageFor(Suffix(value)));
    JoinParentName(value);
    assert AttrOf(r, F.Filename) == Text(Name(value));
    assert DirOf(r) == Parent(value);
  }

  /** A custom file keeps exactly its fields when a file is chosen. */
  lemma ChosenFileExact(item: Item, value: string, pyFunctionNames: seq<string>)
    requires FieldsExact(item) && item.kind == CustomFile
    ensures FieldsExact(WithFilename(item, value, pyFunctionNames))
    ensures WithFilename(item, value, pyFunctionNames).kind == CustomFile
  {
    WithFileFields(item, Parent(value), Name(value), FirstFunction(value, pyFunctionNames), LanguageFor(Suffix(value)));
    assert F.Path in Fields(CustomFile) && F.Filename in Fields(CustomFile);
    assert F.FunctionName in Fields(CustomFile) && F.Language in Fields(CustomFile);
  }

  /** Choosing a file for one row of a custom-file table keeps every row fitting. */
  lemma ChosenFileFits(kind: TableKind, handle: ItemKind, items: seq<Item>, headers: seq<F.Field>, row: int,
                        value: string, pyFunctionNames: seq<string>)
    requires kind == CustomFilesTable && KindFits(kind, handle) && headers == HeadersFor(kind, handle)
    requires ItemsFit(items, handle, headers) && 0 <= row < |items|
    ensures ItemsFit(items[row := WithFilename(items[row], value, pyFunctionNames)], handle, headers)
  {
    var chosen := WithFilename(items[row], value, pyFunctionNames);
    ChosenFileExact(items[row], value, pyFunctionNames);
    InstanceFits(kind, handle, chosen);
    ItemsFitUpdate(items, handle, headers, row, chosen);
  }

  // ---------------------------------------------------------------------------
  // Absorption
  // ---------------------------------------------------------------------------

  /**
   * A field of `AbsorptionLayer(**dict(layer), SLD_imaginary=imags.get(layer.name, ""))`:
   * the layer's `SLD` fills the real SLD, the imaginary SLD is looked up by
   * name, and every other field is copied.
   */
  function AbsorptionField(layer: Item, imags: map<Value, Value>, f: F.Field): Value
  {
    if f == F.SLDReal then AttrOf(layer, F.SLD)
    else if f == F.SLDImaginary then (if NameOf(layer) in imags then imags[NameOf(layer)] else Text(""))
    else AttrOf(layer, f)
  }

  function ToAbsorptionLayer(layer: Item, imags: map<Value, Value>): Item
  {
    Item(AbsorptionLayer, map f | f in Fields(AbsorptionLayer) :: AbsorptionField(layer, imags, f))
  }

  /**
   * A field of `Layer(name=layer.name, ..., SLD=layer.SLD_real, ...)`: the real
   * SLD fills `SLD`, the imaginary SLD is dropped, every other field is copied.
   */
  function PlainField(layer: Item, f: F.Field): Value
  {
    if f == F.SLD then AttrOf(layer, F.SLDReal) else AttrOf(layer, f)
  }

  function ToPlainLayer(layer: Item): Item
  {
    Item(Layer, map f | f in Fields(Layer) :: PlainField(layer, f))
  }

  function ToAbsorption(items: seq<Item>, imags: map<Value, Value>): (r: seq<Item>)
    ensures |r| == |items| && forall i :: 0 <= i < |items| ==> r[i] == ToAbsorptionLayer(items[i], imags)
  {
    seq(|items|, i requires 0 <= i < |items| => ToAbsorptionLayer(items[i], imags))
  }

  function ToPlain(items: seq<Item>): (r: seq<Item>)
    ensures |r| == |items| && forall i :: 0 <= i < |items| ==> r[i] == ToPlainLayer(items[i])
  {
    seq(|items|, i requires 0 <= i < |items| => ToPlainLayer(items[i]))
  }

  /** Converted layers hold exactly the fields of their new class. */
  lemma ConvertedLayersExact(items: seq<Item>, imags: map<Value, Value>)
    ensures AllOfKind(ToAbsorption(items, imags), AbsorptionLayer)
    ensures AllOfKind(ToPlain(items), Layer)
  {
  }

  /** One layer survives a conversion to an absorption layer and back. */
  lemma LayerOnOff(layer: Item, imags: map<Value, Value>)
    requires FieldsExact(layer) && layer.kind == Layer
    ensures ToPlainLayer(ToAbsorptionLayer(layer, imags)) == layer
  {
    var back := ToPlainLayer(ToAbsorptionLayer(layer, imags));
    forall f | f in Fields(Layer)
      ensures back.attrs[f] == layer.attrs[f]
    {
      assert f == F.SLD || f in Fields(AbsorptionLayer);
    }
  }

  /**
   * One absorption layer survives a conversion to a plain layer and back,
   * when `imags` maps its name to its imaginary SLD.
   */
  lemma AbsorptionOffOn(layer: Item, imags: map<Value, Value>)
    requires FieldsExact(layer) && layer.kind == AbsorptionLayer
    requires NameOf(layer) in imags && imags[NameOf(layer)] == AttrOf(layer, F.SLDImaginary)
    ensures ToAbsorptionLayer(ToPlainLayer(layer), imags) == layer
  {
    var back := ToAbsorptionLayer(ToPlainLayer(layer), imags);
    forall f | f in Fields(AbsorptionLayer)
      ensures back.attrs[f] == layer.attrs[f]
    {
      assert f == F.SLDReal || f == F.SLDImaginary || f in Fields(Layer);
    }
  }

  /** Turning absorption on and then off gives back the original layers. */
  lemma AbsorptionOnOffRestores(items: seq<Item>, imags: map<Value, Value>)
    requires AllOfKind(items, Layer)
    ensures ToPlain(ToAbsorption(items, imags)) == items
  {
    var back := ToPlain(ToAbsorption(items, imags));
    forall i | 0 <= i < |items|
      ensures back[i] == items[i]
    {
      LayerOnOff(items[i], imags);
    }
  }

  /**
   * Turning absorption off, saving the imaginary SLDs by name, and on again
   * gives back the original absorption layers when layer names are unique.
   */
  lemma AbsorptionOffOnRestores(items: seq<Item>)
    requires AllOfKind(items, AbsorptionLayer) && UniqueNames(items)
    ensures ToAbsorption(ToPlain(items), AttrByName(items, F.SLDImaginary)) == items
  {
    var imags := AttrByName(items, F.SLDImaginary);
    var back := ToAbsorption(ToPlain(items), imags);
    forall i | 0 <= i < |items|
      ensures back[i] == items[i]
    {
      AttrByNameOfUnique(items, F.SLDImaginary, i);
      AbsorptionOffOn(items[i], imags);
    }
  }

  // ---------------------------------------------------------------------------
  // Appending
  // ---------------------------------------------------------------------------

  /** The keyword arguments `append_item` passes to the item class. */
  function AppendArgs(kind: TableKind, absorption: bool): map<F.Field, Value>
  {
    match kind
    case LayersTable =>
      var base := map[F.Thickness := Text(""), F.SLD := Text(""), F.Roughness := Text("")];
      if absorption then base[F.SLDImaginary := Text("")] else base
    case CustomFilesTable => map[F.Filename := Text(""), F.Path := PathValue("/")]
    case _ => map[]
  }

  /**
   * `created` is what the class's constructor returns for those keyword
   * arguments: an absorption layer takes `SLD` as its real SLD.
   */
  predicate MadeWith(created: Item, handle: ItemKind, args: map<F.Field, Value>)
  {
    && FieldsExact(created) && created.kind == handle
    && forall f :: f in args ==> AttrOf(created, if f == F.SLD && handle == AbsorptionLayer then F.SLDReal else f) == args[f]
  }

  // ---------------------------------------------------------------------------
  // The table model
  // ---------------------------------------------------------------------------

  /**
   * A class-list table: the ClassList object it edits (the draft's own, in
   * the project editor) and the state its subclass keeps.
   */
  class TableModel {
    const kind: TableKind
    var classlist: ClassListObject
    /** `item_type`: the class handle the list had when it was set up. */
    var handle: ItemKind
    var headers: seq<F.Field>
    var editMode: bool
    /** `ParametersModel.protected_indices`. */
    var protectedIndices: seq<int>
    /** `LayersModel.absorption` and `LayersModel.SLD_imags`. */
    var absorption: bool
    var sldImags: map<Value, Value>
    /** `CustomFileModel.func_names`: the function names found in each chosen file, if they were looked for. */
    var funcNames: map<string, Option<seq<string>>>

    ghost predicate Valid()
      reads this, classlist
    {
      && KindFits(kind, handle) && IsPydantic(handle) && classlist.handle == handle
      && headers == HeadersFor(kind, handle)
      && (kind == LayersTable ==> absorption == (handle == AbsorptionLayer))
      && ItemsFit(classlist.items, handle, headers)
    }

    /** `__init__` and `setup_classlist` for a class list of pydantic models: the object is kept, not copied. */
    constructor(kind: TableKind, classlist: ClassListObject)
      requires KindFits(kind, classlist.handle) && IsPydantic(classlist.handle) && ValidClassList(classlist.Contents())
      ensures Valid()
      ensures this.kind == kind && this.classlist == classlist && handle == classlist.handle
      ensures headers == HeadersFor(kind, classlist.handle) && !editMode
      ensures kind == ParametersTable ==> protectedIndices == ProtectedRows(classlist.items)
      ensures kind != ParametersTable ==> protectedIndices == []
      ensures absorption == (classlist.handle == AbsorptionLayer) && sldImags == map[] && funcNames == map[]
    {
      this.kind := kind;
      this.classlist := classlist;
      handle := classlist.handle;
      headers := HeadersFor(kind, classlist.handle);
      editMode := false;
      absorption := classlist.handle == AbsorptionLayer;
      sldImags := map[];
      funcNames := map[];
      var items := classlist.items;
      var protected: seq<int> := [];
      if kind == ParametersTable {
        var i := 0;
        while i < |items|
          invariant 0 <= i <= |items|
          invariant protected == ProtectedRows(items[..i])
        {
          assert items[..i + 1][..i] == items[..i];
          if items[i].kind == ProtectedParameter {
            protected := protected + [i];
          }
          i := i + 1;
        }
        assert items[..i] == items;
      }
      protectedIndices := protected;
      new;
      forall i | 0 <= i < |items|
        ensures ItemFits(items[i], handle, headers)
      {
        InstanceFits(kind, classlist.handle, items[i]);
      }
    }

    function ColumnCount(): (r: int)
      reads this
      ensures r == |headers| + (if kind == CustomFilesTable then 2 else 1)
    {
      if kind == CustomFilesTable then |headers| + 2 else |headers| + 1
    }

    /**
     * `index_header`: the delete column (and the custom-file table's
     * edit-file column) has no header; column `c` shows `headers[c - 1]`.
     */
    function IndexHeader(col: int): (r: Option<F.Field>)
      reads this
      requires 0 <= col < ColumnCount()
      ensures r.None? <==> col == 0 || (kind == CustomFilesTable && col == ColumnCount() - 1)
      ensures r.Some? ==> r.value == headers[col - 1]
    {
      if kind == CustomFilesTable && col == ColumnCount() - 1 then None
      else if col == 0 then None
      else Some(headers[col - 1])
    }

    /**
     * `headerData`: a title for a horizontal header in the display role on
     * a column that has a header (not column 0, nor the custom-file
     * table's last column).
     */
    function HeaderData(section: int, horizontal: bool, role: Role): (r: Option<string>)
      reads this
      requires 0 <= section < ColumnCount()
      ensures r.Some? <==> horizontal && role == DisplayRole && IndexHeader(section).Some?
      ensures r.Some? ==> r.value == HeaderTitle(F.FieldName(headers[section - 1]))
    {
      if kind == CustomFilesTable && section == ColumnCount() - 1 then None
      else if horizontal && role == DisplayRole && section != 0 then Some(HeaderTitle(F.FieldName(headers[section - 1])))
      else None
    }

    /** `data`: nothing for a column without a header, otherwise the cell's value. */
    function Data(row: int, col: int, role: Role): (r: CellData)
      reads this, classlist
      requires 0 <= row < |classlist.items| && 0 <= col < ColumnCount()
      ensures IndexHeader(col).None? ==> r == NoData
      ensures IndexHeader(col).Some? ==> r == CellValue(kind, classlist.items[row], IndexHeader(col).value, role, editMode)
    {
      match IndexHeader(col)
      case None => NoData
      case Some(header) => CellValue(kind, classlist.items[row], header, role, editMode)
    }

    /** `flags` of each table subclass. */
    function CellFlags(row: int, col: int): (r: Flags)
      reads this, classlist
      requires 0 <= row < |classlist.items| && 0 <= col < ColumnCount()
      requires kind == BackgroundsTable || kind == ResolutionsTable ==> IsSignalType(AttrOf(classlist.items[row], F.Type))
    {
      var item := classlist.items[row];
      match kind
      case PlainTable => DefaultFlags
      case ParametersTable => ParameterFlags(item, col, IndexHeader(col), row, editMode, protectedIndices)
      case CustomFilesTable => if col == 0 || col == ColumnCount() - 1 then NoItemFlags else EditableIf(editMode)
      case BackgroundsTable => SignalFlags(kind, AttrOf(item, F.Type), col, editMode)
      case ResolutionsTable => SignalFlags(kind, AttrOf(item, F.Type), col, editMode)
      case _ => EditableIf(editMode)
    }

    /**
     * `setData` for any column but the custom-file table's filename column.
     * `accepted` is pydantic's verdict on assigning the value to the item;
     * `projectUpdate` is `Some(recalculate)` when the parent's
     * `update_project` is called. The item is changed inside the shared
     * list, so in edit mode this is how the draft is edited.
     */
    method SetData(row: int, col: int, value: Value, role: Role, accepted: bool) returns (ok: bool, projectUpdate: Option<bool>)
      requires Valid() && 0 <= row < |classlist.items| && 0 <= col < ColumnCount()
      requires !(kind == CustomFilesTable && IndexHeader(col) == Some(F.Filename))
      modifies classlist
      ensures Valid()
      ensures ok == ((role == EditRole || role == CheckStateRole) && IndexHeader(col).Some? && accepted)
      ensures ok ==> classlist.items == old(classlist.items)[row := SetAttr(old(classlist.items)[row], IndexHeader(col).value,
                                                                          Stored(IndexHeader(col).value, value))]
      ensures !ok ==> classlist.items == old(classlist.items)
      ensures classlist.handle == old(classlist.handle)
      ensures projectUpdate == (if ok && !editMode then Some(IndexHeader(col) == Some(F.Value)) else None)
    {
      var header := IndexHeader(col);
      ok, projectUpdate := false, None;
      if role == EditRole || role == CheckStateRole {
        if header.Some? {
          if !accepted {
            return false, None;
          }
          classlist.items := classlist.items[row := SetAttr(classlist.items[row], header.value, Stored(header.value, value))];
          if !editMode {
            projectUpdate := Some(header == Some(F.Value));
          }
          ok := true;
        }
      }
    }

    /**
     * `CustomFileModel.setData` on the filename column, whatever the role:
     * `pyFunctionNames` are the functions found in a Python file.
     */
    method SetFilename(row: int, value: string, pyFunctionNames: seq<string>)
      requires Valid() && kind == CustomFilesTable && 0 <= row < |classlist.items|
      modifies this, classlist
      ensures Valid()
      ensures classlist.items == old(classlist.items)[row := WithFilename(old(classlist.items)[row], value, pyFunctionNames)]
      ensures classlist.handle == old(classlist.handle)
      ensures funcNames == old(funcNames)[value := FunctionNamesFound(value, pyFunctionNames)]
      ensures classlist == old(classlist) && handle == old(handle) && headers == old(headers) && editMode == old(editMode)
      ensures protectedIndices == old(protectedIndices) && absorption == old(absorption) && sldImags == old(sldImags)
    {
      funcNames := funcNames[value := FunctionNamesFound(value, pyFunctionNames)];
      ChosenFileFits(kind, handle, classlist.items, headers, row, value, pyFunctionNames);
      classlist.items := classlist.items[row := WithFilename(classlist.items[row], value, pyFunctionNames)];
    }

    /** `append_item`: `created` is what the class constructor returns for the table's keyword arguments. */
    method AppendItem(created: Item)
      requires Valid() && MadeWith(created, handle, AppendArgs(kind, absorption))
      modifies classlist
      ensures Valid()
      ensures classlist.items == old(classlist.items) + [created] && classlist.handle == old(classlist.handle)
    {
      InstanceFits(kind, handle, created);
      classlist.items := classlist.items + [created];
    }

    /** `delete_item`: `list.pop(row)` on the shared list. */
    method DeleteItem(row: int)
      requires Valid() && 0 <= row < |classlist.items|
      modifies classlist
      ensures Valid()
      ensures classlist.items == RemoveAt(old(classlist.items), row) && classlist.handle == old(classlist.handle)
    {
      classlist.items := RemoveAt(classlist.items, row);
    }

    /**
     * `LayersModel.set_absorption`: converts every layer to the other layer
     * class, saving the imaginary SLDs by name when absorption is turned off
     * and restoring them when it is turned on. The converted layers are a
     * new ClassList object, which the model takes and the draft project
     * holds from then on; the old object is left as it was.
     */
    method SetAbsorption(on: bool, project: ProjectWidget)
      requires Valid() && kind == LayersTable && project.draft.Some?
      modifies this, project
      ensures Valid()
      ensures old(absorption) == on ==>
        && classlist == old(classlist) && handle == old(handle) && sldImags == old(sldImags)
        && project.draft == old(project.draft)
      ensures old(absorption) != on && on ==>
        && classlist.items == ToAbsorption(old(classlist.items), old(sldImags)) && handle == AbsorptionLayer
        && sldImags == old(sldImags)
      ensures old(absorption) != on && !on ==>
        && classlist.items == ToPlain(old(classlist.items)) && handle == Layer
        && sldImags == AttrByName(old(classlist.items), F.SLDImaginary)
      ensures old(absorption) != on ==>
        && fresh(classlist) && classlist.handle == handle
        && project.draft == Some(old(project.draft).value["layers" := Shared(classlist)])
      ensures absorption == on && project.oldContrastModels == old(project.oldContrastModels)
      ensures editMode == old(editMode) && protectedIndices == old(protectedIndices)
      ensures funcNames == old(funcNames)
    {
      if absorption != on {
        var items := classlist.items;
        ConvertedLayersExact(items, sldImags);
        if on {
          items := ToAbsorption(items, sldImags);
          handle := AbsorptionLayer;
        } else {
          sldImags := AttrByName(items, F.SLDImaginary);
          items := ToPlain(items);
          handle := Layer;
        }
        classlist := new ClassListObject(ClassList(handle, items));
        absorption := on;
        headers := HeadersFor(kind, handle);
        forall i | 0 <= i < |items|
          ensures ItemFits(items[i], handle, headers)
        {
          InstanceFits(kind, handle, items[i]);
        }
        project.UpdateDraftProject(map["layers" := Shared(classlist)]);
        UpdateOne(old(project.draft).value, "layers", Shared(classlist));
      }
    }
  }

  /**
   * A table for a class list, or the error `setup_classlist` raises for a
   * class that is not a pydantic model.
   */
  method NewTableModel(kind: TableKind, classlist: ClassListObject) returns (r: Result<TableModel, string>)
    requires KindFits(kind, classlist.handle) && ValidClassList(classlist.Contents())
    ensures r.Failure? <==> !IsPydantic(classlist.handle)
    ensures r.Failure? ==> r.error == "ClassListTableModel only works for classlists of Pydantic models!"
    ensures r.Success? ==> fresh(r.value) && r.value.Valid() && r.value.classlist == classlist && !r.value.editMode
  {
    if !IsPydantic(classlist.handle) {
      return Failure("ClassListTableModel only works for classlists of Pydantic models!");
    }
    var t := new TableModel(kind, classlist);
    return Success(t);
  }
}
