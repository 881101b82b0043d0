/**
 * The attribute names of the RATapi model classes. Items are keyed by these
 * attributes; the GUI shows them as column headers and in validation
 * messages through `FieldName`, the attribute's Python name. Each attribute
 * is numbered by its place in `FieldNameTable`.
 */
module FieldNames {
  newtype Field = x: int | 0 <= x < 37

  const Name: Field := 0
  const Min: Field := 1
  const Value: Field := 2
  const Max: Field := 3
  const Fit: Field := 4
  const PriorType: Field := 5
  const Mu: Field := 6
  const Sigma: Field := 7
  const ShowPriors: Field := 8
  const Thickness: Field := 9
  const SLD: Field := 10
  const SLDReal: Field := 11
  const SLDImaginary: Field := 12
  const Roughness: Field := 13
  const Hydration: Field := 14
  const HydrateWith: Field := 15
  const Data: Field := 16
  const Background: Field := 17
  const BackgroundAction: Field := 18
  const BulkIn: Field := 19
  const BulkOut: Field := 20
  const Scalefactor: Field := 21
  const Resolution: Field := 22
  const Resample: Field := 23
  const DomainRatio: Field := 24
  const Model: Field := 25
  const Filename: Field := 26
  const FunctionName: Field := 27
  const Language: Field := 28
  const Path: Field := 29
  const Type: Field := 30
  const Source: Field := 31
  const Value1: Field := 32
  const Value2: Field := 33
  const Value3: Field := 34
  const Value4: Field := 35
  const Value5: Field := 36

  /** The Python name of each attribute, by number. */
  const FieldNameTable: seq<string> := [
    "name", "min", "value", "max", "fit", "prior_type", "mu", "sigma", "show_priors", "thickness", "SLD",
    "SLD_real", "SLD_imaginary", "roughness", "hydration", "hydrate_with", "data", "background",
    "background_action", "bulk_in", "bulk_out", "scalefactor", "resolution", "resample", "domain_ratio",
    "model", "filename", "function_name", "language", "path", "type", "source", "value_1", "value_2",
    "value_3", "value_4", "value_5"]

  /** The attribute's Python name. */
  function FieldName(f: Field): string
  {
    FieldNameTable[f]
  }

  /** The Python names of a sequence of attributes, in order. */
  function FieldNameList(fs: seq<Field>): (r: seq<string>)
    ensures |r| == |fs|
    ensures forall k :: 0 <= k < |fs| ==> r[k] == FieldName(fs[k])
  {
    seq(|fs|, k requires 0 <= k < |fs| => FieldName(fs[k]))
  }
}
