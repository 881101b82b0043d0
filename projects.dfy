/**
 * A RATapi project as the GUI handles it: a record of named fields, some
 * scalar and some class lists. The draft project the editor works on is a
 * dictionary with the same keys.
 */
module Projects {
  import opened ProjectItems

  datatype LayerModel = StandardLayers | CustomLayers | CustomXY

  datatype Calculation = Normal | Domains

  /** The value of one project field. */
  datatype FieldValue =
    | TextField(text: string)
    | FlagField(flag: bool)
    | CalculationField(calculation: Calculation)
    | ModelField(model: LayerModel)
    | ListField(classlist: ClassList)

  /** The project fields that are class lists, in declaration order. */
  const ClassListFields: seq<string> :=
    ["parameters", "bulk_in", "bulk_out", "scalefactors", "domain_ratios", "background_parameters", "backgrounds",
     "resolution_parameters", "resolutions", "custom_files", "data", "layers", "domain_contrasts", "contrasts"]

  /** `Project.model_fields`, in declaration order. */
  const ProjectFields: seq<string> := ["name", "calculation", "model", "geometry", "absorption"] + ClassListFields

  /** The class a project field's ClassList holds. */
  predicate HandleFits(field: string, handle: ItemKind)
  {
    match field
    case "backgrounds" => handle == Background
    case "resolutions" => handle == Resolution
    case "custom_files" => handle == CustomFile
    case "data" => handle == DataItem
    case "layers" => handle == Layer || handle == AbsorptionLayer
    case "domain_contrasts" => handle == DomainContrast
    case "contrasts" => handle == Contrast || handle == ContrastWithRatio
    case _ => handle == Parameter
  }

  /** The type a project field's value has. */
  predicate FieldFits(field: string, v: FieldValue)
  {
    match field
    case "name" => v.TextField?
    case "geometry" => v.TextField?
    case "absorption" => v.FlagField?
    case "calculation" => v.CalculationField?
    case "model" => v.ModelField?
    case _ => v.ListField? && HandleFits(field, v.classlist.handle) && ValidClassList(v.classlist)
  }

  /** A project: exactly the declared fields, each holding a value of its type. */
  predicate ValidProject(p: map<string, FieldValue>)
  {
    && p.Keys == set f | f in ProjectFields
    && forall f :: f in p ==> FieldFits(f, p[f])
  }

  /** `vars(project).update(values)` and `dict.update(values)`: the given keys are overwritten. */
  function UpdateFields(p: map<string, FieldValue>, values: map<string, FieldValue>): (r: map<string, FieldValue>)
    ensures r.Keys == p.Keys + values.Keys
    ensures forall f :: f in values ==> r[f] == values[f]
    ensures forall f :: f in p && f !in values ==> r[f] == p[f]
  {
    p + values
  }

  /** Updating a valid project with values of the right types keeps it valid. */
  lemma UpdateKeepsValid(p: map<string, FieldValue>, values: map<string, FieldValue>)
    requires ValidProject(p)
    requires values.Keys <= p.Keys
    requires forall f :: f in values ==> FieldFits(f, values[f])
    ensures ValidProject(UpdateFields(p, values))
  {
  }
}
