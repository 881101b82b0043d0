/**
 * The project editor: the draft project it edits, the checks run on the
 * draft before it is saved, and the swap of contrast models when the layer
 * model crosses the standard-layers boundary (rascal2/widgets/project/project.py).
 */
module DraftProject {
  import opened Wrappers
  import opened Text
  import opened Sequences
  import opened ProjectItems
  import opened Projects
  import F = FieldNames

  // ---------------------------------------------------------------------------
  // Creating the draft
  // ---------------------------------------------------------------------------

  /** `create_draft_project`: one entry per project field, holding that field's value. */
  function CreateDraftProject(project: map<string, FieldValue>): (d: map<string, FieldValue>)
    requires ValidProject(project)
    ensures d.Keys == set f | f in ProjectFields
    ensures forall f :: f in d ==> d[f] == project[f]
  {
    map f | f in ProjectFields :: project[f]
  }

  /** The draft's values are the project's own: `create_draft_project` copies, it does not change. */
  lemma DraftIsCopy(project: map<string, FieldValue>)
    requires ValidProject(project)
    ensures CreateDraftProject(project) == project
  {
  }

  /** Saving an untouched draft into any project gives back the project the draft came from. */
  lemma SaveUntouchedDraft(project: map<string, FieldValue>, other: map<string, FieldValue>)
    requires ValidProject(project) && ValidProject(other)
    ensures UpdateFields(other, CreateDraftProject(project)) == project
  {
  }

  // ---------------------------------------------------------------------------
  // Validation messages
  // ---------------------------------------------------------------------------

  /** One problem found in the draft; `row` is 1-based and `name` is the item's name. */
  datatype Issue =
    | LayerMissing(row: nat, name: string, attrs: seq<F.Field>)
    | LayerInvalid(row: nat, name: string, pairs: seq<(F.Field, string)>)
    | ContrastMissing(row: nat, name: string, attrs: seq<F.Field>)
    | ContrastInvalid(row: nat, name: string, pairs: seq<(F.Field, string)>)
    | InvalidModelValues(row: nat, name: string, values: seq<string>)
    | NoModelSet(row: nat, name: string)
    | InvalidModel(row: nat, name: string, value: string)

  function QuotedFor(pairs: seq<(F.Field, string)>, noun: string): seq<string>
  {
    seq(|pairs|, i requires 0 <= i < |pairs| => "\"" + pairs[i].1 + "\" for " + noun + " " + F.FieldName(pairs[i].0))
  }

  /**
   * The three messages the editor builds with `.format`: an f-string
   * writes the name into the template, then `.format` puts the listed
   * values in place of `{0}`.
   */
  predicate Formatted(issue: Issue)
  {
    issue.LayerInvalid? || issue.ContrastInvalid? || issue.InvalidModelValues?
  }

  function Lead(issue: Issue): (r: string)
    ensures Braceless(r) && |r| > 0
  {
    if issue.LayerInvalid? || issue.LayerMissing? then "Layer '" else "Contrast '"
  }

  function FormatNoun(issue: Issue): (r: string)
    requires Formatted(issue)
    ensures Braceless(r)
  {
    if issue.InvalidModelValues? then
      (if |issue.values| == 1 then "an invalid model value" else "invalid model values")
    else if |issue.pairs| == 1 then "an invalid value" else "invalid values"
  }

  /** What follows the name in a formatted message's template, up to `{0}`. */
  function FormatTail(issue: Issue): (r: string)
    requires Formatted(issue)
    ensures Braceless(r)
  {
    var row := NatToString(issue.row);
    DigitsBraceless(row);
    BracelessConcat("' (row ", row);
    BracelessConcat("' (row " + row, ") has ");
    BracelessConcat("' (row " + row + ") has ", FormatNoun(issue));
    BracelessConcat("' (row " + row + ") has " + FormatNoun(issue), ": ");
    "' (row " + row + ") has " + FormatNoun(issue) + ": "
  }

  /** The text `.format` puts in place of `{0}`. */
  function FormatArg(issue: Issue): string
    requires Formatted(issue)
  {
    match issue
    case LayerInvalid(_, _, pairs) => Join(",\n  ", QuotedFor(pairs, "parameter"))
    case ContrastInvalid(_, _, pairs) => Join(",\n  ", QuotedFor(pairs, "field"))
    case InvalidModelValues(_, _, values) => Join(", ", values)
  }

  /** The text each message is meant to have, with the issue's name as it is. */
  function MessageText(issue: Issue): (r: string)
    ensures |r| > 0
  {
    var row := NatToString(issue.row);
    match issue
    case LayerMissing(_, name, attrs) =>
      "Layer '" + name + "' (row " + row + ") is missing " + (if |attrs| == 1 then "a parameter" else "parameters")
      + ": " + Join(", ", F.FieldNameList(attrs))
    case ContrastMissing(_, name, attrs) =>
      "Contrast '" + name + "' (row " + row + ") is missing: " + Join(", ", F.FieldNameList(attrs))
    case NoModelSet(_, name) =>
      "Contrast '" + name + "' (row " + row + ") has no model set"
    case InvalidModel(_, name, value) =>
      "Contrast '" + name + "' (row " + row + ") has invalid model: " + value
    case _ => Lead(issue) + issue.name + FormatTail(issue) + FormatArg(issue)
  }

  /**
   * The text the editor builds for an issue, as written. For a formatted
   * message `.format` reads braces in the name as its own syntax: the
   * result is `None` when it raises, and may differ from `MessageText`
   * when the name holds `{0}` or doubled braces; a name without braces
   * always gives `MessageText`.
   */
  function Render(issue: Issue): (r: Option<string>)
    ensures Braceless(issue.name) ==> r == Some(MessageText(issue))
    ensures !Formatted(issue) ==> r == Some(MessageText(issue))
  {
    if Formatted(issue) then
      PlainHead(issue);
      Format(Head(issue) + "{0}", FormatArg(issue))
    else Some(MessageText(issue))
  }

  /** A formatted message's template up to its `{0}`: the name sits between the lead and the tail. */
  function Head(issue: Issue): string
    requires Formatted(issue)
  {
    Lead(issue) + issue.name + FormatTail(issue)
  }

  lemma PlainHead(issue: Issue)
    requires Formatted(issue)
    ensures Braceless(issue.name) ==> Format(Head(issue) + "{0}", FormatArg(issue)) == Some(MessageText(issue))
  {
    if Braceless(issue.name) {
      BracelessConcat(Lead(issue), issue.name);
      BracelessConcat(Lead(issue) + issue.name, FormatTail(issue));
      FormatAfterBraceless(Head(issue), FormatArg(issue));
    }
  }

  /** Every message that `.format` does not make raise has text. */
  lemma RenderNonEmpty(issue: Issue)
    ensures Render(issue).Some? ==> |Render(issue).value| > 0
  {
    if Formatted(issue) {
      FormatKeepsLead(Lead(issue), issue.name, FormatTail(issue) + "{0}", FormatArg(issue));
      assert Head(issue) + "{0}" == Lead(issue) + issue.name + (FormatTail(issue) + "{0}");
    }
  }

  /**
   * As written, a formatted message whose name holds a replacement field
   * made of letters, such as `a{b}`, raises (`KeyError`; an empty `{}`
   * cannot be mixed with the template's `{0}`), whatever follows it.
   */
  lemma BraceFieldRaises(issue: Issue, a: string, b: string, c: string)
    requires Formatted(issue) && issue.name == a + "{" + b + "}" + c
    requires Braceless(a) && forall i :: 0 <= i < |b| ==> IsLetter(b[i])
    ensures Render(issue).None?
  {
    FormatNameFieldRaises(Lead(issue), a, b, c, FormatTail(issue), FormatArg(issue));
  }

  /**
   * As written, a formatted message whose name holds a single `}`, such
   * as `x}`, raises (`ValueError`), whatever follows it.
   */
  lemma StrayBraceRaises(issue: Issue, a: string, c: string)
    requires Formatted(issue) && issue.name == a + "}" + c
    requires Braceless(a) && (c == [] || c[0] != '}')
    ensures Render(issue).None?
  {
    FormatNameCloseRaises(Lead(issue), a, c, FormatTail(issue), FormatArg(issue));
  }

  /**
   * As written, a `{0}` in a formatted message's name is replaced by the
   * listed values, so the message no longer shows the name.
   */
  lemma FieldInNameSubstituted(issue: Issue, a: string, c: string)
    requires Formatted(issue) && issue.name == a + "{0}" + c
    requires Braceless(a) && Braceless(c)
    ensures Render(issue) == Some(Lead(issue) + a + FormatArg(issue) + c + FormatTail(issue) + FormatArg(issue))
  {
    FormatNameFieldSubstituted(Lead(issue), a, c, FormatTail(issue), FormatArg(issue));
  }

  /**
   * The message as evidently intended, with the name's braces escaped
   * (doubled) in the template: every issue gets `MessageText`, whatever
   * its name.
   */
  function RenderEscaped(issue: Issue): (r: Option<string>)
    ensures r == Some(MessageText(issue))
  {
    if Formatted(issue) then
      FormatAfterEscaped(Head(issue), FormatArg(issue));
      Format(EscapeBraces(Head(issue)) + "{0}", FormatArg(issue))
    else Some(MessageText(issue))
  }

  // ---------------------------------------------------------------------------
  // What the draft must hold for the checks to read it
  // ---------------------------------------------------------------------------

  predicate TextAttr(item: Item, a: F.Field)
  {
    a in item.attrs && item.attrs[a].Text?
  }

  function AttrText(item: Item, a: F.Field): string
    requires TextAttr(item, a)
  {
    item.attrs[a].text
  }

  /** An item whose name and whose checked attributes are strings. */
  predicate Readable(item: Item, attrs: seq<F.Field>)
  {
    TextAttr(item, F.Name) && forall a :: a in attrs ==> TextAttr(item, a)
  }

  predicate HasModelList(item: Item)
  {
    F.Model in item.attrs && item.attrs[F.Model].TextList?
  }

  predicate IsList(d: map<string, FieldValue>, field: string)
  {
    field in d && d[field].ListField?
  }

  function Items(d: map<string, FieldValue>, field: string): seq<Item>
    requires IsList(d, field)
  {
    d[field].classlist.items
  }

  /** The layer attributes that are checked: every field except `name` and `hydrate_with`. */
  function CheckedLayerAttrs(k: ItemKind): (r: seq<F.Field>)
    ensures forall a :: a in r <==> a in Fields(k) && a != F.Name && a != F.HydrateWith
  {
    Filter(Fields(k), a => a != F.Name && a != F.HydrateWith)
  }

  /** The contrast attributes that are checked against project fields. */
  function CheckedContrastAttrs(k: ItemKind): (r: seq<F.Field>)
    ensures forall a :: a in r <==>
      a in Fields(k) && a != F.Name && a != F.BackgroundAction && a != F.Model && a != F.Resample
  {
    Filter(Fields(k), a => a != F.Name && a != F.BackgroundAction && a != F.Model && a != F.Resample)
  }

  /** The project field whose names a contrast attribute refers to. */
  function ReferencedField(attr: F.Field): string
  {
    if attr in {F.Data, F.BulkIn, F.BulkOut} then F.FieldName(attr) else F.FieldName(attr) + "s"
  }

  /**
   * A draft the checks can read: the layer model, the calculation and every
   * class-list field are present, and the layers and contrasts hold strings
   * where the checks compare strings.
   */
  predicate Checkable(d: map<string, FieldValue>)
  {
    && "model" in d && "calculation" in d
    && IsList(d, "parameters") && IsList(d, "layers") && IsList(d, "contrasts")
    && IsList(d, "domain_contrasts") && IsList(d, "custom_files")
    && (var layers := Items(d, "layers");
        |layers| > 0 ==> forall l :: l in layers ==> Readable(l, CheckedLayerAttrs(layers[0].kind)))
    && (var contrasts := Items(d, "contrasts");
        |contrasts| > 0 ==>
          && (forall a :: a in CheckedContrastAttrs(contrasts[0].kind) ==> IsList(d, ReferencedField(a)))
          && forall c :: c in contrasts ==> Readable(c, CheckedContrastAttrs(contrasts[0].kind)) && HasModelList(c))
  }

  // ---------------------------------------------------------------------------
  // Layers
  // ---------------------------------------------------------------------------

  predicate MissingLayerValue(a: F.Field, v: Value)
  {
    v == Text("") && a != F.Hydration
  }

  /** The checked attributes of a layer that are blank, other than `hydration`, in order. */
  function MissingLayerAttrs(layer: Item, attrs: seq<F.Field>): seq<F.Field>
  {
    Filter(attrs, a => a in layer.attrs && MissingLayerValue(a, layer.attrs[a]))
  }

  /** The checked attributes of a layer whose value is neither missing nor a valid name, in order. */
  function InvalidLayerAttrs(layer: Item, attrs: seq<F.Field>, valid: seq<Value>): seq<F.Field>
  {
    Filter(attrs, a => a in layer.attrs && !MissingLayerValue(a, layer.attrs[a]) && layer.attrs[a] !in valid)
  }

  /** Each attribute of `attrs` paired with the item's string value for it. */
  function ValuePairs(item: Item, attrs: seq<F.Field>): (r: seq<(F.Field, string)>)
    requires forall a :: a in attrs ==> TextAttr(item, a)
    ensures |r| == |attrs|
    ensures forall k :: 0 <= k < |r| ==> r[k] == (attrs[k], AttrText(item, attrs[k]))
  {
    seq(|attrs|, k requires 0 <= k < |attrs| => (attrs[k], AttrText(item, attrs[k])))
  }

  lemma ValuePairsMembership(item: Item, attrs: seq<F.Field>, a: F.Field, v: string)
    requires forall a :: a in attrs ==> TextAttr(item, a)
    ensures (a, v) in ValuePairs(item, attrs) <==> a in attrs && item.attrs[a] == Text(v)
  {
    var r := ValuePairs(item, attrs);
    if a in attrs && item.attrs[a] == Text(v) {
      var k :| 0 <= k < |attrs| && attrs[k] == a;
      assert r[k] == (a, v);
    }
    if (a, v) in r {
      var k :| 0 <= k < |r| && r[k] == (a, v);
      assert attrs[k] == a;
    }
  }

  /** The issues of one layer, at 0-based row `i`: its missing values, then its invalid values. */
  function LayerRowIssues(i: nat, layer: Item, attrs: seq<F.Field>, valid: seq<Value>): (r: seq<Issue>)
    requires Readable(layer, attrs)
    ensures |r| <= 2
    ensures forall k :: 0 <= k < |r| ==> r[k].row == i + 1 && r[k].name == AttrText(layer, F.Name)
    ensures forall k :: 0 <= k < |r| ==> r[k].LayerMissing? || r[k].LayerInvalid?
    ensures |r| == 2 ==> r[0].LayerMissing? && r[1].LayerInvalid?
  {
    var missing := MissingLayerAttrs(layer, attrs);
    var pairs := ValuePairs(layer, InvalidLayerAttrs(layer, attrs, valid));
    var name := AttrText(layer, F.Name);
    (if |missing| > 0 then [LayerMissing(i + 1, name, missing)] else [])
    + (if |pairs| > 0 then [LayerInvalid(i + 1, name, pairs)] else [])
  }

  /** Blank values other than `hydration` are missing; nothing else is. */
  lemma LayerMissingIff(i: nat, layer: Item, attrs: seq<F.Field>, valid: seq<Value>, a: F.Field)
    requires Readable(layer, attrs)
    ensures var r := LayerRowIssues(i, layer, attrs, valid);
      (|r| > 0 && r[0].LayerMissing? && a in r[0].attrs) <==> a in attrs && MissingLayerValue(a, layer.attrs[a])
  {
    FilterMembership(attrs, a => a in layer.attrs && MissingLayerValue(a, layer.attrs[a]), a);
  }

  /** Non-missing values that are not valid names are invalid; the pairs hold the attribute and its value. */
  lemma LayerInvalidIff(i: nat, layer: Item, attrs: seq<F.Field>, valid: seq<Value>, a: F.Field, v: string)
    requires Readable(layer, attrs)
    ensures var r := LayerRowIssues(i, layer, attrs, valid);
      (|r| > 0 && r[|r| - 1].LayerInvalid? && (a, v) in r[|r| - 1].pairs)
      <==> a in attrs && layer.attrs[a] == Text(v) && !MissingLayerValue(a, Text(v)) && Text(v) !in valid
  {
    var bad := InvalidLayerAttrs(layer, attrs, valid);
    FilterMembership(attrs, a => a in layer.attrs && !MissingLayerValue(a, layer.attrs[a]) && layer.attrs[a] !in valid, a);
    ValuePairsMembership(layer, bad, a, v);
  }

  /** Per-row issue lists, flattened in row order. */
  function Concat(rows: seq<seq<Issue>>): seq<Issue>
  {
    if rows == [] then [] else rows[0] + Concat(rows[1..])
  }

  /** Every issue in the `i`-th list carries the 1-based row number `start + i + 1`. */
  predicate RowsNumbered(rows: seq<seq<Issue>>, start: nat)
  {
    forall i, k :: 0 <= i < |rows| && 0 <= k < |rows[i]| ==> rows[i][k].row == start + i + 1
  }

  /** Flattening numbered rows gives issues whose rows are in range and never decrease. */
  lemma {:induction false} ConcatInRowOrder(rows: seq<seq<Issue>>, start: nat)
    requires RowsNumbered(rows, start)
    ensures forall k :: 0 <= k < |Concat(rows)| ==> start < Concat(rows)[k].row <= start + |rows|
    ensures forall j, k :: 0 <= j < k < |Concat(rows)| ==> Concat(rows)[j].row <= Concat(rows)[k].row
    decreases |rows|
  {
    if rows != [] {
      var first := rows[0];
      var rest := Concat(rows[1..]);
      assert forall i, k :: 0 <= i < |rows[1..]| && 0 <= k < |rows[1..][i]| ==> rows[1..][i][k] == rows[i + 1][k];
      ConcatInRowOrder(rows[1..], start + 1);
      var r := Concat(rows);
      assert r == first + rest;
      forall k | 0 <= k < |r|
        ensures start < r[k].row <= start + |rows|
      {
        if k < |first| {
          assert r[k] == rows[0][k];
        } else {
          assert r[k] == rest[k - |first|];
        }
      }
      forall j, k | 0 <= j < k < |r|
        ensures r[j].row <= r[k].row
      {
        if k < |first| {
          assert r[j] == rows[0][j] && r[k] == rows[0][k];
        } else if j < |first| {
          assert r[j] == rows[0][j] && r[k] == rest[k - |first|];
        } else {
          assert r[j] == rest[j - |first|] && r[k] == rest[k - |first|];
        }
      }
    }
  }

  /** Every flattened issue comes from one of the rows, the `i`-th. */
  lemma {:induction false} ConcatOrigin(rows: seq<seq<Issue>>, m: Issue) returns (i: nat)
    requires m in Concat(rows)
    ensures i < |rows| && m in rows[i]
    decreases |rows|
  {
    assert Concat(rows) == rows[0] + Concat(rows[1..]);
    if m in rows[0] {
      i := 0;
    } else {
      var j := ConcatOrigin(rows[1..], m);
      i := j + 1;
      assert rows[1..][j] == rows[i];
    }
  }

  /** The issues of each layer, one list per row. */
  function LayerIssueRows(layers: seq<Item>, attrs: seq<F.Field>, valid: seq<Value>): (rows: seq<seq<Issue>>)
    requires forall l :: l in layers ==> Readable(l, attrs)
    ensures |rows| == |layers|
    ensures forall i :: 0 <= i < |layers| ==> rows[i] == LayerRowIssues(i, layers[i], attrs, valid)
    ensures RowsNumbered(rows, 0)
  {
    seq(|layers|, i requires 0 <= i < |layers| => LayerRowIssues(i, layers[i], attrs, valid))
  }

  /**
   * `validate_layers`: nothing unless the model is standard layers and there
   * are layers; otherwise each layer's missing and invalid values, in row order.
   */
  function ValidateLayers(d: map<string, FieldValue>): (r: seq<Issue>)
    requires Checkable(d)
    ensures d["model"] != ModelField(StandardLayers) || |Items(d, "layers")| == 0 ==> r == []
    ensures forall k :: 0 <= k < |r| ==> 1 <= r[k].row <= |Items(d, "layers")|
    ensures forall j, k :: 0 <= j < k < |r| ==> r[j].row <= r[k].row
  {
    var layers := Items(d, "layers");
    if d["model"] == ModelField(StandardLayers) && |layers| > 0 then
      var rows := LayerIssueRows(layers, CheckedLayerAttrs(layers[0].kind), Names(Items(d, "parameters")) + [Text("")]);
      ConcatInRowOrder(rows, 0);
      Concat(rows)
    else
      []
  }

  /** What one layer's issues can list: checked attributes, never a blank `hydration`, never a blank value as invalid. */
  lemma LayerIssueContents(i: nat, layer: Item, attrs: seq<F.Field>, valid: seq<Value>, m: Issue)
    requires Readable(layer, attrs) && Text("") in valid
    requires m in LayerRowIssues(i, layer, attrs, valid)
    ensures m.LayerMissing? ==> forall a :: a in m.attrs ==> a in attrs && a != F.Hydration
    ensures m.LayerInvalid? ==> forall p :: p in m.pairs ==> p.0 in attrs && p.1 != ""
  {
    var r := LayerRowIssues(i, layer, attrs, valid);
    var k :| 0 <= k < |r| && r[k] == m;
    if m.LayerMissing? {
      assert m == r[0];
      forall a | a in m.attrs
        ensures a in attrs && a != F.Hydration
      {
        LayerMissingIff(i, layer, attrs, valid, a);
      }
    } else {
      assert m == r[|r| - 1];
      forall p | p in m.pairs
        ensures p.0 in attrs && p.1 != ""
      {
        LayerInvalidIff(i, layer, attrs, valid, p.0, p.1);
      }
    }
  }

  /** A blank `hydration` is never reported, and neither are `name` and `hydrate_with`. */
  lemma BlankHydrationNotReported(d: map<string, FieldValue>, m: Issue)
    requires Checkable(d)
    requires m in ValidateLayers(d)
    ensures m.LayerMissing? ==> F.Hydration !in m.attrs && F.Name !in m.attrs && F.HydrateWith !in m.attrs
    ensures m.LayerInvalid? ==> (F.Hydration, "") !in m.pairs
    ensures m.LayerInvalid? ==> forall p :: p in m.pairs ==> p.0 != F.Name && p.0 != F.HydrateWith
  {
    var layers := Items(d, "layers");
    var attrs := CheckedLayerAttrs(layers[0].kind);
    var valid := Names(Items(d, "parameters")) + [Text("")];
    var rows := LayerIssueRows(layers, attrs, valid);
    var i := ConcatOrigin(rows, m);
    assert Text("") in valid;
    LayerIssueContents(i, layers[i], attrs, valid, m);
  }

  // ---------------------------------------------------------------------------
  // Contrasts
  // ---------------------------------------------------------------------------

  /** What a contrast's checks need of the draft beyond the contrast itself. */
  predicate ContrastContext(d: map<string, FieldValue>, attrs: seq<F.Field>)
  {
    && ModelContext(d)
    && forall a :: a in attrs ==> IsList(d, ReferencedField(a))
  }

  /** What the model checks read: the layer model, the calculation and the lists model names refer to. */
  predicate ModelContext(d: map<string, FieldValue>)
  {
    && "model" in d && "calculation" in d
    && IsList(d, "layers") && IsList(d, "domain_contrasts") && IsList(d, "custom_files")
  }

  /** The names a standard-layers contrast model may use: domain contrasts for domains, else layers. */
  function ModelNames(d: map<string, FieldValue>): seq<Value>
    requires ModelContext(d)
  {
    Names(Items(d, if d["calculation"] == CalculationField(Domains) then "domain_contrasts" else "layers"))
  }

  /** The model checks of one contrast at 0-based row `i`. */
  function ModelIssues(d: map<string, FieldValue>, i: nat, name: string, model: seq<string>): (r: seq<Issue>)
    requires ModelContext(d)
    ensures |r| <= 1
    ensures forall k :: 0 <= k < |r| ==> r[k].row == i + 1 && r[k].name == name
    ensures forall k :: 0 <= k < |r| ==> r[k].InvalidModelValues? || r[k].NoModelSet? || r[k].InvalidModel?
  {
    if d["model"] == ModelField(StandardLayers) then
      var valid := ModelNames(d);
      var nonBlank := Filter(model, m => m != "");
      var bad := Dedup(Filter(nonBlank, m => Text(m) !in valid));
      if |bad| > 0 then [InvalidModelValues(i + 1, name, bad)] else []
    else if |model| == 0 then [NoModelSet(i + 1, name)]
    else if Text(model[0]) !in Names(Items(d, "custom_files")) then [InvalidModel(i + 1, name, model[0])]
    else []
  }

  /**
   * Under standard layers, the invalid model values are exactly the non-blank
   * entries that are not names in the list the calculation selects, each once.
   */
  lemma StandardModelChecks(d: map<string, FieldValue>, i: nat, name: string, model: seq<string>)
    requires ModelContext(d)
    requires d["model"] == ModelField(StandardLayers)
    ensures var r := ModelIssues(d, i, name, model);
      && (r == [] || r[0].InvalidModelValues?)
      && (r != [] ==> NoDuplicates(r[0].values))
      && (r != [] ==> forall v :: v in r[0].values ==> v in model && v != "" && Text(v) !in ModelNames(d))
      && (forall v :: v in model && v != "" && Text(v) !in ModelNames(d) ==> r != [] && v in r[0].values)
  {
    var valid := ModelNames(d);
    var p := (m: string) => m != "";
    var q := (m: string) => Text(m) !in valid;
    var nonBlank := Filter(model, p);
    var kept := Filter(nonBlank, q);
    var bad := Dedup(kept);
    forall v | v in model && v != "" && Text(v) !in valid
      ensures v in bad
    {
      var j :| 0 <= j < |model| && model[j] == v;
      assert p(model[j]);
      var k :| 0 <= k < |nonBlank| && nonBlank[k] == v;
      assert q(nonBlank[k]);
      var l :| 0 <= l < |kept| && kept[l] == v;
    }
    forall v | v in bad
      ensures v in model && v != "" && Text(v) !in valid
    {
      var l :| 0 <= l < |bad| && bad[l] == v;
      var k :| 0 <= k < |kept| && kept[k] == v;
      assert q(kept[k]);
      var j :| 0 <= j < |nonBlank| && nonBlank[j] == v;
      assert p(nonBlank[j]);
    }
  }

  /** Otherwise the first model entry must name a custom file, and an empty model is reported. */
  lemma CustomModelChecks(d: map<string, FieldValue>, i: nat, name: string, model: seq<string>)
    requires ModelContext(d)
    requires d["model"] != ModelField(StandardLayers)
    ensures var r := ModelIssues(d, i, name, model);
      && (|model| == 0 ==> r == [NoModelSet(i + 1, name)])
      && (|model| > 0 ==> (r == [] <==> Text(model[0]) in Names(Items(d, "custom_files"))))
      && (|model| > 0 && r != [] ==> r == [InvalidModel(i + 1, name, model[0])])
  {
  }

  /** Invalid model values are listed in the order they first occur. */
  lemma ModelValuesInFirstOccurrenceOrder(d: map<string, FieldValue>, i: nat, name: string, model: seq<string>)
    requires ModelContext(d)
    requires d["model"] == ModelField(StandardLayers)
    ensures var r := ModelIssues(d, i, name, model);
      r != [] ==> r[0].values == FirstOccurrences(Filter(Filter(model, m => m != ""), m => Text(m) !in ModelNames(d)), {})
  {
    var valid := ModelNames(d);
    DedupIsFirstOccurrences(Filter(Filter(model, m => m != ""), m => Text(m) !in valid), {});
  }

  /** The checked attributes of a contrast that are blank, in order. */
  function MissingContrastAttrs(c: Item, attrs: seq<F.Field>): seq<F.Field>
  {
    Filter(attrs, a => a in c.attrs && c.attrs[a] == Text(""))
  }

  /** The checked attributes of a contrast whose non-blank value names nothing in the field it refers to. */
  function InvalidContrastAttrs(d: map<string, FieldValue>, c: Item, attrs: seq<F.Field>): seq<F.Field>
  {
    Filter(attrs, a =>
      && a in c.attrs && c.attrs[a] != Text("")
      && IsList(d, ReferencedField(a))
      && c.attrs[a] !in Names(Items(d, ReferencedField(a))))
  }

  /** The issues of one contrast at 0-based row `i`: missing, invalid, then model. */
  function ContrastRowIssues(d: map<string, FieldValue>, i: nat, c: Item, attrs: seq<F.Field>): (r: seq<Issue>)
    requires ContrastContext(d, attrs) && Readable(c, attrs) && HasModelList(c)
    ensures |r| <= 3
    ensures forall k :: 0 <= k < |r| ==> r[k].row == i + 1 && r[k].name == AttrText(c, F.Name)
  {
    var missing := MissingContrastAttrs(c, attrs);
    var pairs := ValuePairs(c, InvalidContrastAttrs(d, c, attrs));
    var name := AttrText(c, F.Name);
    (if |missing| > 0 then [ContrastMissing(i + 1, name, missing)] else [])
    + (if |pairs| > 0 then [ContrastInvalid(i + 1, name, pairs)] else [])
    + ModelIssues(d, i, name, c.attrs[F.Model].list)
  }

  /** A contrast attribute is missing iff it is blank. */
  lemma ContrastMissingIff(d: map<string, FieldValue>, i: nat, c: Item, attrs: seq<F.Field>, a: F.Field)
    requires ContrastContext(d, attrs) && Readable(c, attrs) && HasModelList(c)
    ensures var r := ContrastRowIssues(d, i, c, attrs);
      (|r| > 0 && r[0].ContrastMissing? && a in r[0].attrs) <==> a in attrs && c.attrs[a] == Text("")
  {
    FilterMembership(attrs, a => a in c.attrs && c.attrs[a] == Text(""), a);
  }

  /** The (attribute, value) pairs a contrast's invalid-value message lists. */
  function ContrastPairs(d: map<string, FieldValue>, c: Item, attrs: seq<F.Field>): seq<(F.Field, string)>
    requires Readable(c, attrs)
  {
    ValuePairs(c, InvalidContrastAttrs(d, c, attrs))
  }

  /** A non-blank contrast value is listed as invalid iff it is not a name in the field it refers to. */
  lemma ContrastPairsIff(d: map<string, FieldValue>, c: Item, attrs: seq<F.Field>, a: F.Field, v: string)
    requires ContrastContext(d, attrs) && Readable(c, attrs)
    ensures (a, v) in ContrastPairs(d, c, attrs)
      <==> a in attrs && c.attrs[a] == Text(v) && v != "" && Text(v) !in Names(Items(d, ReferencedField(a)))
  {
    FilterMembership(attrs, a =>
      && a in c.attrs && c.attrs[a] != Text("")
      && IsList(d, ReferencedField(a))
      && c.attrs[a] !in Names(Items(d, ReferencedField(a))), a);
    ValuePairsMembership(c, InvalidContrastAttrs(d, c, attrs), a, v);
  }

  /** A contrast row reports invalid values at most once, listing exactly `ContrastPairs`. */
  lemma ContrastInvalidIssue(d: map<string, FieldValue>, i: nat, c: Item, attrs: seq<F.Field>)
    requires ContrastContext(d, attrs) && Readable(c, attrs) && HasModelList(c)
    ensures var r := ContrastRowIssues(d, i, c, attrs);
      && (forall k :: 0 <= k < |r| && r[k].ContrastInvalid? ==> r[k].pairs == ContrastPairs(d, c, attrs))
      && (|ContrastPairs(d, c, attrs)| > 0 <==> exists k :: 0 <= k < |r| && r[k].ContrastInvalid?)
  {
    var missing := MissingContrastAttrs(c, attrs);
    var name := AttrText(c, F.Name);
    var front := if |missing| > 0 then [ContrastMissing(i + 1, name, missing)] else [];
    var model := ModelIssues(d, i, name, c.attrs[F.Model].list);
    InvalidOnce(front, ContrastPairs(d, c, attrs), i + 1, name, model);
  }

  /** Between issues of other kinds, one optional invalid-values issue is the only one, and lists its pairs. */
  lemma InvalidOnce(front: seq<Issue>, pairs: seq<(F.Field, string)>, row: nat, name: string, back: seq<Issue>)
    requires forall k :: 0 <= k < |front| ==> !front[k].ContrastInvalid?
    requires forall k :: 0 <= k < |back| ==> !back[k].ContrastInvalid?
    ensures var r := front + (if |pairs| > 0 then [ContrastInvalid(row, name, pairs)] else []) + back;
      && (forall k :: 0 <= k < |r| && r[k].ContrastInvalid? ==> r[k].pairs == pairs)
      && (|pairs| > 0 <==> exists k :: 0 <= k < |r| && r[k].ContrastInvalid?)
  {
    var middle := if |pairs| > 0 then [ContrastInvalid(row, name, pairs)] else [];
    var r := front + middle + back;
    assert forall k :: 0 <= k < |front| ==> r[k] == front[k];
    assert forall k :: |front| + |middle| <= k < |r| ==> r[k] == back[k - |front| - |middle|];
    if |pairs| > 0 {
      assert r[|front|].ContrastInvalid?;
    }
  }

  /** The issues of each contrast, one list per row. */
  function ContrastIssueRows(d: map<string, FieldValue>, contrasts: seq<Item>, attrs: seq<F.Field>): (rows: seq<seq<Issue>>)
    requires ContrastContext(d, attrs)
    requires forall c :: c in contrasts ==> Readable(c, attrs) && HasModelList(c)
    ensures |rows| == |contrasts|
    ensures forall i :: 0 <= i < |contrasts| ==> rows[i] == ContrastRowIssues(d, i, contrasts[i], attrs)
    ensures RowsNumbered(rows, 0)
  {
    seq(|contrasts|, i requires 0 <= i < |contrasts| => ContrastRowIssues(d, i, contrasts[i], attrs))
  }

  /** `validate_contrasts`: nothing without contrasts; otherwise each contrast's issues, in row order. */
  function ValidateContrasts(d: map<string, FieldValue>): (r: seq<Issue>)
    requires Checkable(d)
    ensures |Items(d, "contrasts")| == 0 ==> r == []
    ensures forall k :: 0 <= k < |r| ==> 1 <= r[k].row <= |Items(d, "contrasts")|
    ensures forall j, k :: 0 <= j < k < |r| ==> r[j].row <= r[k].row
  {
    var contrasts := Items(d, "contrasts");
    if |contrasts| > 0 then
      var rows := ContrastIssueRows(d, contrasts, CheckedContrastAttrs(contrasts[0].kind));
      ConcatInRowOrder(rows, 0);
      Concat(rows)
    else
      []
  }

  // ---------------------------------------------------------------------------
  // Saving
  // ---------------------------------------------------------------------------

  /**
   * `validate_draft_project`, as `save_changes` consumes it with `join`:
   * the layer messages, then the contrast messages; `None` when building
   * any of them raises, which the join passes on.
   */
  function ValidateDraftProject(d: map<string, FieldValue>): (r: Option<seq<string>>)
    requires Checkable(d)
    ensures r.Some? <==> forall m :: m in ValidateLayers(d) + ValidateContrasts(d) ==> Render(m).Some?
    ensures r.Some? ==> |r.value| == |ValidateLayers(d)| + |ValidateContrasts(d)|
    ensures r.Some? ==> forall k :: 0 <= k < |ValidateLayers(d)| ==> Render(ValidateLayers(d)[k]) == Some(r.value[k])
    ensures r.Some? ==> forall k :: 0 <= k < |ValidateContrasts(d)| ==>
                          Render(ValidateContrasts(d)[k]) == Some(r.value[|ValidateLayers(d)| + k])
  {
    RenderAllConcat(ValidateLayers(d), ValidateContrasts(d));
    RenderAll(ValidateLayers(d) + ValidateContrasts(d))
  }

  /** Each issue's text, in order; `None` as soon as one of them raises. */
  function RenderAll(issues: seq<Issue>): (r: Option<seq<string>>)
    ensures r.Some? <==> forall m :: m in issues ==> Render(m).Some?
    ensures (forall m :: m in issues ==> Braceless(m.name)) ==> r.Some?
    ensures r.Some? ==> |r.value| == |issues| && forall k :: 0 <= k < |issues| ==> Render(issues[k]) == Some(r.value[k])
  {
    if forall k :: 0 <= k < |issues| ==> Render(issues[k]).Some? then
      Some(seq(|issues|, k requires 0 <= k < |issues| => Render(issues[k]).value))
    else None
  }

  /** Rendering two lists of issues one after the other: the first list's texts come first. */
  lemma RenderAllConcat(a: seq<Issue>, b: seq<Issue>)
    ensures RenderAll(a + b).Some? <==> forall m :: m in a + b ==> Render(m).Some?
    ensures RenderAll(a + b).Some? ==> |RenderAll(a + b).value| == |a| + |b|
    ensures RenderAll(a + b).Some? ==> forall k :: 0 <= k < |a| ==> Render(a[k]) == Some(RenderAll(a + b).value[k])
    ensures RenderAll(a + b).Some? ==> forall k :: 0 <= k < |b| ==> Render(b[k]) == Some(RenderAll(a + b).value[|a| + k])
  {
    var issues := a + b;
    assert forall k :: 0 <= k < |b| ==> issues[|a| + k] == b[k];
  }

  /**
   * What `save_changes` does with the draft. `Raised` is an exception
   * escaping it: the uncaught-exception hook logs it, nothing is written
   * to the terminal and the project is not edited.
   */
  datatype SaveOutcome = ErrorWritten(text: string) | ProjectEdited(draft: map<string, FieldValue>) | Raised

  /**
   * `save_changes` once the draft's validation messages are known: any message
   * stops the save and is written to the terminal; otherwise the draft goes to
   * `edit_project`, whose pydantic error (if `pydanticError` holds one) is
   * written instead.
   */
  function SaveWith(d: map<string, FieldValue>, messages: seq<string>, pydanticError: Option<string>): SaveOutcome
  {
    var errors := Join("\n  ", messages);
    if errors != "" then ErrorWritten("Could not save draft project:\n  " + errors)
    else if pydanticError.Some? then ErrorWritten("Could not save draft project:\n  " + pydanticError.value)
    else ProjectEdited(d)
  }

  /** `save_changes` on the draft: it raises exactly when building a validation message raises. */
  function SaveChanges(d: map<string, FieldValue>, pydanticError: Option<string>): (r: SaveOutcome)
    requires Checkable(d)
    ensures r.Raised? <==> ValidateDraftProject(d).None?
    ensures !r.Raised? ==> r == SaveWith(d, ValidateDraftProject(d).value, pydanticError)
  {
    match ValidateDraftProject(d)
    case None => Raised
    case Some(messages) => SaveWith(d, messages, pydanticError)
  }

  /**
   * The project is edited, with the draft unchanged, iff there is no message
   * and pydantic accepts the draft; otherwise every message is written.
   */
  lemma SaveGate(d: map<string, FieldValue>, messages: seq<string>, pydanticError: Option<string>)
    requires forall k :: 0 <= k < |messages| ==> messages[k] != ""
    ensures SaveWith(d, messages, pydanticError).ProjectEdited? <==> messages == [] && pydanticError.None?
    ensures SaveWith(d, messages, pydanticError).ProjectEdited? ==> SaveWith(d, messages, pydanticError).draft == d
    ensures forall m :: m in messages ==>
      SaveWith(d, messages, pydanticError).ErrorWritten? && Contains(SaveWith(d, messages, pydanticError).text, m)
  {
    if messages != [] {
      JoinNonEmpty("\n  ", messages);
    }
    forall m | m in messages
      ensures SaveWith(d, messages, pydanticError).ErrorWritten? && Contains(SaveWith(d, messages, pydanticError).text, m)
    {
      var k :| 0 <= k < |messages| && messages[k] == m;
      JoinContainsEach("\n  ", messages, k);
      ContainsAfterPrefix("Could not save draft project:\n  ", Join("\n  ", messages), m);
    }
  }

  /** Every validation message is non-empty, so `SaveGate` applies to `SaveChanges`. */
  lemma MessagesNonEmpty(d: map<string, FieldValue>)
    requires Checkable(d)
    ensures ValidateDraftProject(d).Some? ==>
              forall k :: 0 <= k < |ValidateDraftProject(d).value| ==> ValidateDraftProject(d).value[k] != ""
  {
    var issues := ValidateLayers(d) + ValidateContrasts(d);
    forall m | m in issues
      ensures Render(m).Some? ==> |Render(m).value| > 0
    {
      RenderNonEmpty(m);
    }
    if ValidateDraftProject(d).Some? {
      var r := ValidateDraftProject(d).value;
      forall k | 0 <= k < |r|
        ensures r[k] != ""
      {
        if k < |ValidateLayers(d)| {
          assert ValidateLayers(d)[k] in issues;
        } else {
          assert ValidateContrasts(d)[k - |ValidateLayers(d)|] in issues;
        }
      }
    }
  }

  // ---------------------------------------------------------------------------
  // Switching the layer model
  // ---------------------------------------------------------------------------

  /** The contrast with its `model` attribute set to `m`. */
  function WithModel(c: Item, m: Value): (r: Item)
    ensures r.kind == c.kind && r.attrs.Keys == c.attrs.Keys + {F.Model}
    ensures r.attrs[F.Model] == m && forall a :: a in c.attrs && a != F.Model ==> r.attrs[a] == c.attrs[a]
  {
    Item(c.kind, c.attrs[F.Model := m])
  }

  /** `saved.get(name, [])`. */
  function SavedModel(saved: map<Value, Value>, name: Value): Value
  {
    if name in saved then saved[name] else TextList([])
  }

  /** Each contrast given the model saved under its name, or an empty model. */
  function SwapModels(cs: seq<Item>, saved: map<Value, Value>): (r: seq<Item>)
    ensures |r| == |cs|
    ensures forall i :: 0 <= i < |cs| ==> r[i] == WithModel(cs[i], SavedModel(saved, NameOf(cs[i])))
  {
    seq(|cs|, i requires 0 <= i < |cs| => WithModel(cs[i], SavedModel(saved, NameOf(cs[i]))))
  }

  /** `{c.name: c.model for c in cs}`: a later contrast with the same name wins. */
  function SavedModels(cs: seq<Item>): map<Value, Value>
  {
    AttrByName(cs, F.Model)
  }

  /** Swapping models changes nothing but the `model` attribute, so names are kept. */
  lemma SwapKeepsNames(cs: seq<Item>, saved: map<Value, Value>)
    requires forall c :: c in cs ==> F.Name in c.attrs
    ensures Names(SwapModels(cs, saved)) == Names(cs)
  {
    var r := SwapModels(cs, saved);
    forall i | 0 <= i < |cs|
      ensures NameOf(r[i]) == NameOf(cs[i])
    {
      assert r[i].attrs[F.Name] == cs[i].attrs[F.Name];
    }
  }

  /**
   * Crossing the standard-layers boundary twice gives every contrast its
   * original model back, when contrast names are unique.
   */
  lemma {:induction false} CrossTwiceRestores(cs: seq<Item>, saved: map<Value, Value>)
    requires forall c :: c in cs ==> F.Model in c.attrs && F.Name in c.attrs
    requires UniqueNames(cs)
    ensures forall c :: c in SwapModels(cs, saved) ==> F.Model in c.attrs
    ensures SwapModels(SwapModels(cs, saved), SavedModels(cs)) == cs
  {
    var once := SwapModels(cs, saved);
    var twice := SwapModels(once, SavedModels(cs));
    SwapKeepsNames(cs, saved);
    forall i | 0 <= i < |cs|
      ensures twice[i] == cs[i]
    {
      AttrByNameOfUnique(cs, F.Model, i);
      assert NameOf(once[i]) == Names(once)[i] == Names(cs)[i] == NameOf(cs[i]);
      assert twice[i].attrs == cs[i].attrs;
    }
  }

  /** The model switch reads the draft's layer model and its contrasts' names and models. */
  predicate ModelSwitchable(d: map<string, FieldValue>)
  {
    "model" in d && IsList(d, "contrasts") && forall c :: c in Items(d, "contrasts") ==> F.Model in c.attrs
  }

  /**
   * A value in the draft dictionary: a plain value, or a ClassList object,
   * which the draft shares with the models of the tabs showing its field.
   */
  datatype DraftEntry = Plain(value: FieldValue) | Shared(list: ClassListObject)

  /** The objects a draft dictionary holds. */
  function SharedLists(m: map<string, DraftEntry>): set<ClassListObject>
  {
    set f | f in m && m[f].Shared? :: m[f].list
  }

  /** The draft dictionary's values as they are now: each shared list with what it holds at this moment. */
  function EntriesValue(m: map<string, DraftEntry>): (d: map<string, FieldValue>)
    reads SharedLists(m)
    ensures d.Keys == m.Keys
    ensures forall f :: f in m && m[f].Plain? ==> d[f] == m[f].value
    ensures forall f :: f in m && m[f].Shared? ==> d[f] == ListField(m[f].list.Contents())
  {
    map f | f in m :: match m[f] case Plain(v) => v case Shared(o) => ListField(o.Contents())
  }

  /** Every class list in the draft is an object of its own: no plain list, and no object under two fields. */
  predicate OwnLists(m: map<string, DraftEntry>)
  {
    && (forall f :: f in m && m[f].Plain? ==> !m[f].value.ListField?)
    && (forall f, g :: f in m && g in m && m[f].Shared? && m[g].Shared? && f != g ==> m[f].list != m[g].list)
  }

  /**
   * When only the object under `f` has changed, the draft's values differ
   * only at `f`, which holds what that object holds now.
   */
  twostate lemma EntriesFollowList(m: map<string, DraftEntry>, f: string)
    requires OwnLists(m) && f in m && m[f].Shared?
    requires forall g :: g in m && g != f && m[g].Shared? ==> unchanged(m[g].list)
    ensures EntriesValue(m) == old(EntriesValue(m))[f := ListField(m[f].list.Contents())]
  {
    var now := EntriesValue(m);
    var before := old(EntriesValue(m));
    forall g | g in m
      ensures now[g] == before[f := ListField(m[f].list.Contents())][g]
    {
      if g != f && m[g].Shared? {
        assert unchanged(m[g].list);
      }
    }
  }

  lemma EntriesHoldValue(m: map<string, DraftEntry>)
    ensures forall f :: f in m ==> EntryHolds(m[f], EntriesValue(m)[f])
  {
  }

  /** `dict.update` with one key is an assignment to that key. */
  lemma UpdateOne<K, V>(m: map<K, V>, k: K, v: V)
    ensures m + map[k := v] == m[k := v]
  {
  }

  /** Putting plain values in the draft changes its values at those keys only. */
  lemma EntriesValuePlain(m: map<string, DraftEntry>, f: string, v: FieldValue)
    ensures SharedLists(m[f := Plain(v)]) <= SharedLists(m)
    ensures EntriesValue(m[f := Plain(v)]) == EntriesValue(m)[f := v]
  {
  }

  /**
   * `create_draft_project` as the loop it is: each class list is copied
   * into a new ClassList object with the same handle, and every other field
   * is taken as it is.
   */
  method CreateDraft(project: map<string, FieldValue>) returns (entries: map<string, DraftEntry>)
    ensures OwnLists(entries) && entries.Keys == project.Keys
    ensures forall f :: f in entries && entries[f].Shared? ==> fresh(entries[f].list)
    ensures forall f :: f in entries ==> EntryHolds(entries[f], project[f])
    ensures EntriesValue(entries) == project
  {
    entries := map[];
    var todo := project.Keys;
    while todo != {}
      invariant todo <= project.Keys && entries.Keys == project.Keys - todo
      invariant OwnLists(entries)
      invariant forall g :: g in entries && entries[g].Shared? ==> fresh(entries[g].list)
      invariant forall g :: g in entries ==> EntryHolds(entries[g], project[g])
      decreases |todo|
    {
      var f :| f in todo;
      if project[f].ListField? {
        var o := new ClassListObject(project[f].classlist);
        entries := entries[f := Shared(o)];
      } else {
        entries := entries[f := Plain(project[f])];
      }
      todo := todo - {f};
    }
    EntriesHold(entries, project);
  }

  /** The entry holds the value `v`: as a plain value, or as what its object holds now. */
  predicate EntryHolds(e: DraftEntry, v: FieldValue)
    reads if e.Shared? then {e.list} else {}
  {
    match e
    case Plain(w) => w == v
    case Shared(o) => ListField(o.Contents()) == v
  }

  lemma EntriesHold(m: map<string, DraftEntry>, p: map<string, FieldValue>)
    requires m.Keys == p.Keys && forall f :: f in m ==> EntryHolds(m[f], p[f])
    ensures EntriesValue(m) == p
  {
  }

  /**
   * The loop of `handle_model_update` that crosses the boundary: each
   * contrast takes the model saved under its name, and its own model is
   * saved under its name instead.
   */
  method SwapAll(cs: seq<Item>, saved: map<Value, Value>) returns (swapped: seq<Item>, newSaved: map<Value, Value>)
    requires forall c :: c in cs ==> F.Model in c.attrs
    ensures swapped == SwapModels(cs, saved) && newSaved == SavedModels(cs)
  {
    newSaved := map[];
    swapped := [];
    var i := 0;
    while i < |cs|
      invariant 0 <= i <= |cs|
      invariant newSaved == SavedModels(cs[..i])
      invariant swapped == SwapModels(cs[..i], saved)
    {
      assert cs[..i + 1][..i] == cs[..i];
      newSaved := newSaved[NameOf(cs[i]) := cs[i].attrs[F.Model]];
      swapped := swapped + [WithModel(cs[i], SavedModel(saved, NameOf(cs[i])))];
      i := i + 1;
    }
    assert cs[..i] == cs;
  }

  /** The project editor's state: the draft being edited and the contrast models put aside. */
  class ProjectWidget {
    /** `draft_project`: `None` until a project is shown. */
    var draft: Option<map<string, DraftEntry>>
    var oldContrastModels: map<Value, Value>

    /** The class-list objects the draft holds. */
    function Lists(): set<ClassListObject>
      reads this
    {
      if draft.None? then {} else SharedLists(draft.value)
    }

    /** The draft as `validate_draft_project` reads it: the shared lists as they are now. */
    function Draft(): Option<map<string, FieldValue>>
      reads this, Lists()
    {
      if draft.None? then None else Some(EntriesValue(draft.value))
    }

    /** The draft holds the object `o` under the class-list field `f`. */
    predicate HoldsList(f: string, o: ClassListObject)
      reads this
    {
      draft.Some? && f in draft.value && draft.value[f] == Shared(o)
    }

    /** The object under `f`, if the draft holds one there: what `handle_model_update` may change. */
    function ListUnder(f: string): set<ClassListObject>
      reads this
    {
      if draft.Some? && f in draft.value && draft.value[f].Shared? then {draft.value[f].list} else {}
    }

    ghost predicate Valid()
      reads this
    {
      draft.Some? ==> OwnLists(draft.value)
    }

    constructor()
      ensures Valid()
      ensures draft == None && oldContrastModels == map[]
    {
      draft := None;
      oldContrastModels := map[];
    }

    /**
     * The draft part of `update_project_view`: a new draft from the
     * project, whose list objects the tabs' models are then given.
     */
    method UpdateProjectView(project: map<string, FieldValue>)
      requires ValidProject(project)
      modifies this
      ensures Valid() && draft.Some? && draft.value.Keys == project.Keys
      ensures forall f :: f in draft.value && draft.value[f].Shared? ==> fresh(draft.value[f].list)
      ensures Draft() == Some(project) == Some(CreateDraftProject(project))
      ensures oldContrastModels == old(oldContrastModels)
    {
      var entries := CreateDraft(project);
      draft := Some(entries);
      EntriesHold(entries, project);
      DraftIsCopy(project);
    }

    /**
     * `update_draft_project`: `dict.update`, so the given keys are
     * overwritten and the others kept; a list put in is shared, not copied.
     */
    method UpdateDraftProject(newValues: map<string, DraftEntry>)
      requires draft.Some?
      modifies this
      ensures draft == Some(old(draft).value + newValues)
      ensures oldContrastModels == old(oldContrastModels)
    {
      draft := Some(draft.value + newValues);
    }

    /**
     * The crossing branch of `handle_model_update`: the contrast list the
     * draft holds is changed in place, so only the draft's contrasts change.
     */
    method SwapContrastModels(c: ClassListObject)
      requires Valid() && HoldsList("contrasts", c)
      requires forall x :: x in c.items ==> F.Model in x.attrs
      modifies this, c
      ensures Valid() && draft == old(draft) && c.handle == old(c.handle)
      ensures c.items == SwapModels(old(c.items), old(oldContrastModels)) && oldContrastModels == SavedModels(old(c.items))
      ensures Draft() == Some(old(Draft()).value["contrasts" := ListField(c.Contents())])
    {
      var m := draft.value;
      ghost var before := EntriesValue(m);
      EntriesHoldValue(m);
      var swapped, saved := SwapAll(c.items, oldContrastModels);
      c.items := swapped;
      oldContrastModels := saved;
      ghost var after := before["contrasts" := ListField(c.Contents())];
      forall g | g in m
        ensures EntryHolds(m[g], after[g])
      {
        if g != "contrasts" && m[g].Shared? {
          assert m[g].list != c;
        }
      }
      EntriesHold(m, after);
    }

    /**
     * `handle_model_update`: records the new layer model; when the change
     * crosses the standard-layers boundary, each contrast in the draft's
     * contrast list takes the model saved under its name (or none) and its
     * current model is saved instead. The list is changed in place, so the
     * contrast models of the tabs see the new models too.
     */
    method HandleModelUpdate(newType: LayerModel)
      requires Valid() && (draft.Some? ==> ModelSwitchable(Draft().value))
      modifies this, ListUnder("contrasts")
      ensures Valid()
      ensures old(draft).None? ==> draft == None && oldContrastModels == old(oldContrastModels)
      ensures old(draft).Some? ==>
        var c := old(draft).value["contrasts"].list;
        var cs := old(c.items);
        && draft == Some(old(draft).value["model" := Plain(ModelField(newType))])
        && c.handle == old(c.handle)
        && if (old(Draft()).value["model"] == ModelField(StandardLayers)) != (newType == StandardLayers) then
             c.items == SwapModels(cs, old(oldContrastModels)) && oldContrastModels == SavedModels(cs)
           else
             c.items == cs && oldContrastModels == old(oldContrastModels)
      ensures old(draft).Some? ==>
        var d := old(Draft()).value;
        var updated := UpdateFields(d, map["model" := ModelField(newType)]);
        var cs := Items(d, "contrasts");
        if (d["model"] == ModelField(StandardLayers)) != (newType == StandardLayers) then
          Draft() == Some(updated["contrasts" := ListField(ClassList(d["contrasts"].classlist.handle,
                                                                     SwapModels(cs, old(oldContrastModels))))])
        else
          Draft() == Some(updated)
    {
      if draft.None? {
        return;
      }
      var entries := draft.value;
      var c := entries["contrasts"].list;
      var oldType := EntriesValue(entries)["model"];
      var v := ModelField(newType);
      ghost var updated := EntriesValue(entries)["model" := v];
      EntriesValuePlain(entries, "model", v);
      UpdateOne(EntriesValue(entries), "model", v);
      UpdateDraftProject(map["model" := Plain(v)]);
      UpdateOne(entries, "model", Plain(v));
      assert draft.value == entries["model" := Plain(v)];
      if (oldType == ModelField(StandardLayers)) != (newType == StandardLayers) {
        SwapContrastModels(c);
      } else {
        assert Draft().value == updated;
      }
    }
  }
}
