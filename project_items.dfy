/**
 * The items a project's class lists hold. An item is a record: its kind (the
 * RATapi model class) fixes the names of its fields, in declaration order,
 * and the kind of value each field holds. Field values are compared and
 * displayed the way the GUI compares and displays them.
 */
module ProjectItems {
  import F = FieldNames
  /** The Python type of a field value. */
  datatype ValueKind = TextKind | FlagKind | NumberKind | ChoiceKind | ListKind | PathKind

  /**
   * A field value: a string, a bool, a float, a member of a string enum, a list
   * of strings, or a path.
   */
  datatype Value =
    | Text(text: string)
    | Flag(flag: bool)
    | Number(number: real)
    | Choice(choice: string)
    | TextList(list: seq<string>)
    | PathValue(path: string)

  function KindOf(v: Value): ValueKind
  {
    match v
    case Text(_) => TextKind
    case Flag(_) => FlagKind
    case Number(_) => NumberKind
    case Choice(_) => ChoiceKind
    case TextList(_) => ListKind
    case PathValue(_) => PathKind
  }

  /** The RATapi model classes, plus one class that is not a pydantic model. */
  datatype ItemKind =
    | Parameter
    | ProtectedParameter
    | Layer
    | AbsorptionLayer
    | Contrast
    | ContrastWithRatio
    | DomainContrast
    | CustomFile
    | Background
    | Resolution
    | DataItem
    | PlainObject

  predicate IsPydantic(k: ItemKind)
  {
    k != PlainObject
  }

  /** The fields of `Parameter`, in declaration order. */
  const ParameterFields := [F.Name, F.Min, F.Value, F.Max, F.Fit, F.PriorType, F.Mu, F.Sigma, F.ShowPriors]

  /** `model_fields` of each model class: its field names in declaration order. */

  function Fields(k: ItemKind): seq<F.Field>
  {
    match k
    case Parameter | ProtectedParameter => ParameterFields
    case Layer => [F.Name, F.Thickness, F.SLD, F.Roughness, F.Hydration, F.HydrateWith]
    case AbsorptionLayer => [F.Name, F.Thickness, F.SLDReal, F.SLDImaginary, F.Roughness, F.Hydration, F.HydrateWith]
    case Contrast =>
      [F.Name, F.Data, F.Background, F.BackgroundAction, F.BulkIn, F.BulkOut, F.Scalefactor, F.Resolution,
       F.Resample, F.Model]
    case ContrastWithRatio =>
      [F.Name, F.Data, F.Background, F.BackgroundAction, F.BulkIn, F.BulkOut, F.Scalefactor, F.Resolution,
       F.Resample, F.DomainRatio, F.Model]
    case DomainContrast => [F.Name, F.Model]
    case CustomFile => [F.Name, F.Filename, F.FunctionName, F.Language, F.Path]
    case Background | Resolution =>
      [F.Name, F.Type, F.Source, F.Value1, F.Value2, F.Value3, F.Value4, F.Value5]
    case DataItem => [F.Name]
    case PlainObject => []
  }

  /**
   * The declared type of a field. A field name has the same type in every
   * class that declares it: parameter bounds and prior moments are floats,
   * switches are bools, enum fields are choices, a contrast's model is a list
   * of layer names, a custom file's directory is a path, and everything else
   * (names and references to other items) is a string.
   */
  function FieldKind(f: F.Field): ValueKind
  {
    if f in {F.Min, F.Value, F.Max, F.Mu, F.Sigma} then NumberKind
    else if f in {F.Fit, F.ShowPriors, F.Resample} then FlagKind
    else if f in {F.PriorType, F.HydrateWith, F.BackgroundAction, F.Language, F.Type} then ChoiceKind
    else if f == F.Model then ListKind
    else if f == F.Path then PathKind
    else TextKind
  }

  /** An instance of a model class: its class and its attribute values. */
  datatype Item = Item(kind: ItemKind, attrs: map<F.Field, Value>)

  /** An item holds exactly its class's fields. */
  predicate FieldsExact(item: Item)
  {
    && (forall f :: f in item.attrs ==> f in Fields(item.kind))
    && (forall f :: f in Fields(item.kind) ==> f in item.attrs)
  }

  /** An item holds exactly its class's fields, each with a value of the declared type. */
  predicate WellTyped(item: Item)
  {
    FieldsExact(item) && forall f :: f in item.attrs ==> KindOf(item.attrs[f]) == FieldKind(f)
  }

  /** `isinstance(item, handle)`: ProtectedParameter is the only subclass among the kinds. */
  predicate IsInstance(k: ItemKind, handle: ItemKind)
  {
    k == handle || (k == ProtectedParameter && handle == Parameter)
  }

  /** `setattr(item, a, v)`: the item with one attribute replaced. */
  function SetAttr(item: Item, a: F.Field, v: Value): (r: Item)
    ensures r.kind == item.kind && r.attrs == item.attrs[a := v]
  {
    Item(item.kind, item.attrs[a := v])
  }

  /** Every item is an instance of class `k` holding exactly its fields. */
  predicate AllOfKind(items: seq<Item>, k: ItemKind)
  {
    forall i :: 0 <= i < |items| ==> FieldsExact(items[i]) && items[i].kind == k
  }

  /** A RATapi ClassList: a class handle and items that are instances of it. */
  datatype ClassList = ClassList(handle: ItemKind, items: seq<Item>)

  predicate ValidClassList(c: ClassList)
  {
    forall i :: 0 <= i < |c.items| ==> WellTyped(c.items[i]) && IsInstance(c.items[i].kind, c.handle)
  }

  /**
   * A ClassList object. Python hands it around by reference: the draft
   * project and the models of the tabs showing its field hold the same
   * object, so a change made through one of them is seen by all.
   */
  class ClassListObject {
    var handle: ItemKind
    var items: seq<Item>

    constructor(c: ClassList)
      ensures handle == c.handle && items == c.items
    {
      handle := c.handle;
      items := c.items;
    }

    /** What the object holds now, as a value. */
    function Contents(): ClassList
      reads this
    {
      ClassList(handle, items)
    }
  }

  /** The `name` attribute of an item, as the value the GUI compares. */
  function NameOf(item: Item): Value
  {
    if F.Name in item.attrs then item.attrs[F.Name] else Text("")
  }

  /** `[x.name for x in items]`. */
  function Names(items: seq<Item>): (r: seq<Value>)
    ensures |r| == |items|
    ensures forall i :: 0 <= i < |items| ==> r[i] == NameOf(items[i])
  {
    seq(|items|, i requires 0 <= i < |items| => NameOf(items[i]))
  }

  /** No two items share a name. */
  predicate UniqueNames(items: seq<Item>)
  {
    forall j, k :: 0 <= j < k < |items| ==> NameOf(items[j]) != NameOf(items[k])
  }

  /** `getattr(item, attr)` for a field the item has; a blank text otherwise. */
  function AttrOf(item: Item, attr: F.Field): Value
  {
    if attr in item.attrs then item.attrs[attr] else Text("")
  }

  /** `{x.name: getattr(x, attr) for x in items}`: when names repeat, the later item wins. */
  function AttrByName(items: seq<Item>, attr: F.Field): map<Value, Value>
  {
    if items == [] then map[]
    else
      var last := items[|items| - 1];
      AttrByName(items[..|items| - 1], attr)[NameOf(last) := AttrOf(last, attr)]
  }

  /** With unique names, the value stored under an item's name is that item's own value. */
  lemma {:induction false} AttrByNameOfUnique(items: seq<Item>, attr: F.Field, i: int)
    requires UniqueNames(items)
    requires 0 <= i < |items|
    ensures NameOf(items[i]) in AttrByName(items, attr)
    ensures AttrByName(items, attr)[NameOf(items[i])] == AttrOf(items[i], attr)
    decreases |items|
  {
    var init := items[..|items| - 1];
    if i < |items| - 1 {
      assert forall j :: 0 <= j < |init| ==> init[j] == items[j];
      AttrByNameOfUnique(init, attr, i);
    }
  }
}
