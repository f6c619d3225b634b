/** The collector's property widgets with the Qt removed
    (python/tk_multi_publish2/base_hooks/collector.py): which configured
    properties get a row, how the selected items' values are collapsed into
    one, how an edited value is normalised and written back, and how a
    template setting's fields are gathered, flattened and cached. */
module Collector {
  import opened Values

  // ---- PropertiesWidgetController: one row per usable entry ----------------

  /** A row of the properties form: its label, the property name, the widget
      class name and the keyword arguments left for the widget. */
  datatype PropertyRow = PropertyRow(displayName: Value, name: Value, widgetType: Value, kwargs: map<string, Value>)

  /** The row a "Properties To Display" entry yields: none when it has no
      name, no widget type, or names a widget class the hook does not have. */
  function RowFor(entry: map<string, Value>, hookHas: Value -> bool): (r: Option<PropertyRow>)
    ensures r.Some? <==>
      Truthy(Get(entry, "name", NoneVal)) && Truthy(Get(entry, "type", NoneVal)) && hookHas(Get(entry, "type", NoneVal))
    ensures r.Some? ==>
      && r.value.name == entry["name"] && r.value.widgetType == entry["type"]
      && r.value.kwargs.Keys == entry.Keys - {"name", "type"}
      && (forall k | k in r.value.kwargs :: r.value.kwargs[k] == entry[k])
      && r.value.displayName == Get(entry, "display_name", entry["name"])
  {
    var name := Get(entry, "name", NoneVal);
    var kwargs := entry - {"name"};
    if !Truthy(name) then None
    else
      var widgetType := Get(kwargs, "type", NoneVal);
      var kwargs' := kwargs - {"type"};
      if !Truthy(widgetType) || !hookHas(widgetType) then None
      else Some(PropertyRow(Get(kwargs', "display_name", name), name, widgetType, kwargs'))
  }

  /** An optional row as a list of at most one row. */
  function RowList(r: Option<PropertyRow>): (rows: seq<PropertyRow>)
    ensures forall row :: row in rows <==> r == Some(row)
    ensures |rows| <= 1
  {
    match r
    case Some(row) => [row]
    case None => []
  }

  /** The rows of the form, in entry order. */
  function Rows(entries: seq<map<string, Value>>, hookHas: Value -> bool): seq<PropertyRow>
    decreases |entries|
  {
    if entries == [] then []
    else Rows(entries[..|entries| - 1], hookHas) + RowList(RowFor(entries[|entries| - 1], hookHas))
  }

  /** Every usable entry yields a row, every row comes from a usable entry,
      and there are never more rows than entries. */
  lemma RowsAreTheUsableEntries(entries: seq<map<string, Value>>, hookHas: Value -> bool)
    ensures |Rows(entries, hookHas)| <= |entries|
    ensures forall row | row in Rows(entries, hookHas) ::
      exists i | 0 <= i < |entries| :: RowFor(entries[i], hookHas) == Some(row)
    ensures forall i | 0 <= i < |entries| && RowFor(entries[i], hookHas).Some? ::
      RowFor(entries[i], hookHas).value in Rows(entries, hookHas)
  {
    RowsComeFromEntries(entries, hookHas);
    UsableEntriesGiveRows(entries, hookHas);
  }

  lemma {:induction false} RowsComeFromEntries(entries: seq<map<string, Value>>, hookHas: Value -> bool)
    ensures |Rows(entries, hookHas)| <= |entries|
    ensures forall row | row in Rows(entries, hookHas) ::
      exists i | 0 <= i < |entries| :: RowFor(entries[i], hookHas) == Some(row)
    decreases |entries|
  {
    if entries != [] {
      var init := entries[..|entries| - 1];
      RowsComeFromEntries(init, hookHas);
      forall row | row in Rows(entries, hookHas)
        ensures exists i | 0 <= i < |entries| :: RowFor(entries[i], hookHas) == Some(row)
      {
        if row in Rows(init, hookHas) {
          var i :| 0 <= i < |init| && RowFor(init[i], hookHas) == Some(row);
          assert entries[i] == init[i];
        } else {
          assert RowFor(entries[|entries| - 1], hookHas) == Some(row);
        }
      }
    }
  }

  lemma {:induction false} UsableEntriesGiveRows(entries: seq<map<string, Value>>, hookHas: Value -> bool)
    ensures forall i | 0 <= i < |entries| && RowFor(entries[i], hookHas).Some? ::
      RowFor(entries[i], hookHas).value in Rows(entries, hookHas)
    decreases |entries|
  {
    if entries != [] {
      var init := entries[..|entries| - 1];
      UsableEntriesGiveRows(init, hookHas);
      forall i | 0 <= i < |entries| && RowFor(entries[i], hookHas).Some?
        ensures RowFor(entries[i], hookHas).value in Rows(entries, hookHas)
      {
        if i < |init| {
          assert entries[i] == init[i];
        }
      }
    }
  }

  /** The controller's loop over the configured entries. */
  method BuildRows(entries: seq<map<string, Value>>, hookHas: Value -> bool) returns (rows: seq<PropertyRow>)
    ensures rows == Rows(entries, hookHas)
  {
    rows := [];
    var i := 0;
    while i < |entries|
      invariant 0 <= i <= |entries|
      invariant rows == Rows(entries[..i], hookHas)
    {
      assert entries[..i + 1][..i] == entries[..i];
      var row := RowFor(entries[i], hookHas);
      if row.Some? {
        rows := rows + [row.value];
      }
      i := i + 1;
    }
    assert entries[..i] == entries;
  }

  // ---- PropertyWidget: collapsing the items' values ---------------------------

  /** The values that are not None, in order. */
  function NonNone(vs: seq<Value>): (r: seq<Value>)
    ensures |r| <= |vs|
    ensures forall v :: v in r <==> v in vs && v != NoneVal
    decreases |vs|
  {
    if vs == [] then []
    else if vs[0] == NoneVal then NonNone(vs[1..])
    else [vs[0]] + NonNone(vs[1..])
  }

  /** How many different values there are: `len(set(values))`. Lists and
      dictionaries compare by contents, as the source's tuple and frozenset
      conversions make them. */
  function DistinctCount(vs: seq<Value>): nat {
    |set v | v in vs|
  }

  predicate AllSame(vs: seq<Value>) {
    forall i | 0 <= i < |vs| :: vs[i] == vs[0]
  }

  /** Counting distinct values is the same as asking whether they all agree. */
  lemma SeveralDistinctIffNotAllSame(vs: seq<Value>)
    requires vs != []
    ensures DistinctCount(vs) > 1 <==> !AllSame(vs)
    ensures DistinctCount(vs) >= 1
  {
    var s := set v | v in vs;
    assert vs[0] in s;
    if AllSame(vs) {
      assert s == {vs[0]};
    } else {
      var i :| 0 <= i < |vs| && vs[i] != vs[0];
      var pair := {vs[0], vs[i]};
      assert |pair| == 2;
      assert s == pair + (s - pair);
    }
  }

  /** The value and the value type a property widget starts with. */
  datatype Aggregated = Aggregated(value: Value, valueType: string)

  /** The aggregation with the evident intent: no value at all gives None.
      The type is the declared one, else that of the first value present. */
  function Aggregate(vs: seq<Value>, declared: Option<string>): (r: Aggregated)
    ensures NonNone(vs) == [] ==> r == Aggregated(NoneVal, declared.GetOr("NoneType"))
    ensures NonNone(vs) != [] ==> r.valueType == declared.GetOr(TypeName(NonNone(vs)[0]))
    ensures (exists i, j | 0 <= i < |vs| && 0 <= j < |vs| :: vs[i] != NoneVal && vs[j] != NoneVal && vs[i] != vs[j])
            ==> r.value == MultiplesValue
    ensures NonNone(vs) != [] && (forall i, j | 0 <= i < |vs| && 0 <= j < |vs| && vs[i] != NoneVal && vs[j] != NoneVal :: vs[i] == vs[j])
            ==> r.value in vs && r.value != NoneVal && forall v | v in vs :: v == NoneVal || v == r.value
  {
    var values := NonNone(vs);
    if values == [] then
      assert forall i | 0 <= i < |vs| :: vs[i] == NoneVal by {
        forall i | 0 <= i < |vs| ensures vs[i] == NoneVal {
          assert vs[i] in vs;
        }
      }
      Aggregated(NoneVal, declared.GetOr("NoneType"))
    else
      SeveralDistinctIffNotAllSame(values);
      assert values[0] in vs;
      var valueType := declared.GetOr(TypeName(values[0]));
      if DistinctCount(values) > 1 then
        var k :| 0 <= k < |values| && values[k] != values[0];
        assert values[k] in vs && values[0] in vs;
        var i :| 0 <= i < |vs| && vs[i] == values[0];
        var j :| 0 <= j < |vs| && vs[j] == values[k];
        assert vs[i] != NoneVal && vs[j] != NoneVal && vs[i] != vs[j];
        Aggregated(MultiplesValue, valueType)
      else
        assert forall i, j | 0 <= i < |vs| && 0 <= j < |vs| && vs[i] != NoneVal && vs[j] != NoneVal :: vs[i] == vs[j] by {
          forall i, j | 0 <= i < |vs| && 0 <= j < |vs| && vs[i] != NoneVal && vs[j] != NoneVal
            ensures vs[i] == vs[j]
          {
            assert vs[i] in values && vs[j] in values;
            var a :| 0 <= a < |values| && values[a] == vs[i];
            var b :| 0 <= b < |values| && values[b] == vs[j];
          }
        }
        Aggregated(values[0], valueType)
  }

  /** The aggregation as written: the default of `kwargs.pop("type", …)` is
      `type(values[0])`, evaluated even when a type is given, so a selection
      whose values are all None fails before the `num_values < 1` branch is
      reached. */
  function AggregateAsWritten(vs: seq<Value>, declared: Option<string>): (r: Result<Aggregated>)
    ensures r.Err? <==> NonNone(vs) == []
    ensures r.Err? ==> r.error == IndexError
    ensures r.Ok? ==> r.value == Aggregate(vs, declared)
  {
    var values := NonNone(vs);
    if values == [] then Err(IndexError)
    else Ok(Aggregate(vs, declared))
  }

  /** Two items without the property: the code as written fails on an empty
      list, while the evident intent is the value None. */
  lemma AllNoneSelectionFailsAsWritten()
    ensures AggregateAsWritten([NoneVal, NoneVal], Some("str")) == Err(IndexError)
    ensures Aggregate([NoneVal, NoneVal], Some("str")) == Aggregated(NoneVal, "str")
  {
    assert NonNone([NoneVal, NoneVal]) == [];
  }

  // ---- Normalising an edited value --------------------------------------------

  /** The TypeError message; the field editor's copy has a doubled quote. */
  function UnknownConversion(fromType: string, toType: string, fieldEdit: bool): string {
    "Unknown conversion from type '" + fromType + (if fieldEdit then "''" else "'") + " to '" + toType + "'"
  }

  /** An edited value as it is stored: the NoneValue marker and "" mean None,
      MultiplesValue and values of the declared type pass, a string is
      converted by the host's convert_string_to_type, and any other value is
      a TypeError. */
  function Normalise(edited: Value, declaredType: string, convert: (string, string) -> Result<Value>,
                     fieldEdit: bool): (r: Result<Value>)
    ensures edited == NoneValue || edited == StrVal("") ==> r == Ok(NoneVal)
    ensures edited == MultiplesValue ==> r == Ok(MultiplesValue)
    ensures edited != NoneValue && edited != StrVal("") && edited != MultiplesValue ==>
      && (TypeName(edited) == declaredType ==> r == Ok(edited))
      && (TypeName(edited) != declaredType && edited.StrVal? ==> r == convert(edited.s, declaredType))
      && (TypeName(edited) != declaredType && !edited.StrVal? ==>
            r == Err(TypeError(UnknownConversion(TypeName(edited), declaredType, fieldEdit))))
  {
    if edited == NoneValue || edited == StrVal("") then Ok(NoneVal)
    else if edited == MultiplesValue then Ok(edited)
    else if TypeName(edited) == declaredType then Ok(edited)
    else if edited.StrVal? then convert(edited.s, declaredType)
    else Err(TypeError(UnknownConversion(TypeName(edited), declaredType, fieldEdit)))
  }

  /** When the host converts strings to the requested type, whatever is
      stored is None, the MultiplesValue marker or a value of the declared type. */
  lemma NormalisedValueIsTyped(edited: Value, declaredType: string, convert: (string, string) -> Result<Value>,
                               fieldEdit: bool)
    requires forall s | convert(s, declaredType).Ok? :: TypeName(convert(s, declaredType).value) == declaredType
    ensures var r := Normalise(edited, declaredType, convert, fieldEdit);
      r.Ok? ==> r.value == NoneVal || r.value == MultiplesValue || TypeName(r.value) == declaredType
  {
  }

  /** Normalising a stored value other than None again gives it back. */
  lemma NormaliseIsIdempotent(edited: Value, declaredType: string, convert: (string, string) -> Result<Value>,
                              fieldEdit: bool)
    requires forall s | convert(s, declaredType).Ok? :: TypeName(convert(s, declaredType).value) == declaredType
    requires declaredType != "NoneValue"
    requires Normalise(edited, declaredType, convert, fieldEdit).Ok?
    requires Normalise(edited, declaredType, convert, fieldEdit).value != NoneVal
    ensures var stored := Normalise(edited, declaredType, convert, fieldEdit).value;
      Normalise(stored, declaredType, convert, fieldEdit) == Ok(stored)
  {
  }

  // ---- Items and task settings -------------------------------------------------

  datatype ItemContext = ItemContext(id: string)

  datatype TemplateField = TemplateField(name: string, value: Value, fieldType: string, editable: bool, isMissing: bool)

  /** A task setting. `cachedFields` is the "fields" entry of its `extra`
      dictionary, None while that entry does not exist. */
  class TaskSetting {
    const name: string
    const settingType: string
    var value: Value
    var cachedFields: Option<map<string, TemplateField>>

    constructor (name: string, settingType: string, value: Value)
      ensures this.name == name && this.settingType == settingType && this.value == value
      ensures cachedFields.None?
    {
      this.name := name;
      this.settingType := settingType;
      this.value := value;
      cachedFields := None;
    }
  }

  /** A collected item: its properties, its context and the settings of all
      its tasks, task by task. */
  class Item {
    var properties: map<string, Value>
    const context: ItemContext
    const settings: seq<TaskSetting>

    constructor (properties: map<string, Value>, context: ItemContext, settings: seq<TaskSetting>)
      ensures this.properties == properties && this.context == context && this.settings == settings
    {
      this.properties := properties;
      this.context := context;
      this.settings := settings;
    }
  }

  /** `[item.properties.get(name) for item in items]`. */
  function PropertyValues(items: seq<Item>, name: string): (vs: seq<Value>)
    reads items
    ensures |vs| == |items|
    ensures forall i | 0 <= i < |items| :: vs[i] == Get(items[i].properties, name, NoneVal)
    decreases |items|
  {
    if items == [] then [] else [Get(items[0].properties, name, NoneVal)] + PropertyValues(items[1..], name)
  }

  /** A property shown for several items at once. */
  class PropertyWidget {
    const name: string
    const items: seq<Item>
    var value: Value
    var valueType: string

    constructor (items: seq<Item>, name: string, declared: Option<string>)
      ensures this.items == items && this.name == name
      ensures value == Aggregate(PropertyValues(items, name), declared).value
      ensures valueType == Aggregate(PropertyValues(items, name), declared).valueType
    {
      this.items := items;
      this.name := name;
      var aggregated := Aggregate(PropertyValues(items, name), declared);
      value := aggregated.value;
      valueType := aggregated.valueType;
    }

    /** update_value: stores the edited value and writes it to every item,
        unless it is the MultiplesValue marker. A failed conversion leaves the
        raw edited value in the widget and the items untouched. */
    method UpdateValue(edited: Value, convert: (string, string) -> Result<Value>) returns (r: Result<()>)
      modifies this, items
      ensures valueType == old(valueType)
      ensures var n := Normalise(edited, old(valueType), convert, false);
        && (r.Err? <==> n.Err?)
        && (n.Err? ==> r.error == n.error && value == edited
                       && forall it | it in items :: it.properties == old(it.properties))
        && (n.Ok? ==> value == n.value
                      && forall it | it in items ::
                           it.properties == if n.value == MultiplesValue then old(it.properties)
                                            else old(it.properties)[name := n.value])
    {
      value := edited;
      var n := Normalise(edited, valueType, convert, false);
      if n.Err? {
        return Err(n.error);
      }
      value := n.value;
      var i := 0;
      while i < |items|
        invariant 0 <= i <= |items|
        invariant value == n.value && valueType == old(valueType)
        invariant forall it | it in items ::
          it.properties == if it in items[..i] && value != MultiplesValue then old(it.properties)[name := value]
                           else old(it.properties)
      {
        if value != MultiplesValue {
          items[i].properties := items[i].properties[name := value];
        }
        i := i + 1;
      }
      r := Ok(());
    }
  }

  // ---- FieldsWidget: the fields of a template setting -------------------------

  /** A template: its name and the names of its keys. */
  datatype Template = Template(name: string, keys: set<string>)

  /** The host routines the fields widget relies on: get_template_by_name,
      context.as_template_fields (None where it raises TankError),
      tmpl.missing_keys(fields, True) and tmpl.apply_fields(fields, ignore_types). */
  datatype Host = Host(
    getTemplate: Value -> Option<Template>,
    contextFields: (ItemContext, Template) -> Option<map<string, Value>>,
    missingKeys: (Template, map<string, Value>) -> seq<string>,
    applyFields: (Template, map<string, Value>, set<string>) -> string)

  /** Every field is stored under its own name. */
  predicate WellNamed(fields: map<string, TemplateField>) {
    forall k | k in fields :: fields[k].name == k
  }

  /** `dict([(k, v.value) for k, v in fields.iteritems()])`. */
  function FieldValues(fields: map<string, TemplateField>): (values: map<string, Value>)
    ensures values.Keys == fields.Keys
    ensures forall k | k in fields :: values[k] == fields[k].value
  {
    map k | k in fields :: fields[k].value
  }

  /** Fields taken from the context: text, not editable, not missing. */
  function ContextAsFields(contextFields: map<string, Value>): (r: map<string, TemplateField>)
    ensures WellNamed(r) && r.Keys == contextFields.Keys
    ensures forall k | k in r :: r[k].value == contextFields[k] && r[k].fieldType == "str" && !r[k].editable && !r[k].isMissing
  {
    map k | k in contextFields :: TemplateField(k, contextFields[k], "str", false, false)
  }

  /** Adds the incoming fields that belong to the template. A key seen before
      keeps its field while the values agree and is marked MultiplesValue, no
      longer missing, when they differ. */
  function Merge(fields: map<string, TemplateField>, incoming: map<string, TemplateField>,
                 templateKeys: set<string>): (r: map<string, TemplateField>)
    ensures r.Keys == fields.Keys + (incoming.Keys * templateKeys)
    ensures forall k | k in incoming && k in templateKeys && k !in fields :: r[k] == incoming[k]
    ensures forall k | k in fields :: r[k].name == fields[k].name && r[k].fieldType == fields[k].fieldType
                                      && r[k].editable == fields[k].editable
    ensures forall k | k in fields && k in incoming && k in templateKeys && fields[k].value != incoming[k].value ::
      r[k].value == MultiplesValue && !r[k].isMissing
    ensures forall k | k in fields && !(k in incoming && k in templateKeys && fields[k].value != incoming[k].value) ::
      r[k] == fields[k]
    ensures WellNamed(fields) && WellNamed(incoming) ==> WellNamed(r)
  {
    map k | k in fields.Keys + (incoming.Keys * templateKeys) ::
      if k in incoming && k in templateKeys then
        if k !in fields then incoming[k]
        else if fields[k].value != incoming[k].value then fields[k].(value := MultiplesValue, isMissing := false)
        else fields[k]
      else fields[k]
  }

  /** Merging the same fields a second time changes nothing: items sharing a
      context or a cache never conflict with each other. */
  lemma MergeIsIdempotent(fields: map<string, TemplateField>, incoming: map<string, TemplateField>,
                          templateKeys: set<string>)
    ensures Merge(Merge(fields, incoming, templateKeys), incoming, templateKeys) == Merge(fields, incoming, templateKeys)
  {
    var once := Merge(fields, incoming, templateKeys);
    var twice := Merge(once, incoming, templateKeys);
    forall k | k in twice ensures twice[k] == once[k] {
      if k in incoming && k in templateKeys && once[k].value != incoming[k].value {
        assert k in fields && fields[k].value != incoming[k].value;
      }
    }
  }

  /** The keys the template reports missing, as written: a key already
      present is left as it is, because the `_replace` result is discarded. */
  function AddMissingAsWritten(fields: map<string, TemplateField>, missing: seq<string>): (r: map<string, TemplateField>)
    ensures r.Keys == fields.Keys + (set k | k in missing)
    ensures forall k | k in fields :: r[k] == fields[k]
    ensures forall k | k in missing && k !in fields :: r[k] == TemplateField(k, NoneVal, "str", true, true)
  {
    map k | k in fields.Keys + (set k | k in missing) ::
      if k in fields then fields[k] else TemplateField(k, NoneVal, "str", true, true)
  }

  /** The keys the template reports missing, with the evident intent: a new
      key is added as an empty, editable, missing field, and a key present
      with a value is marked MultiplesValue and missing. */
  function AddMissing(fields: map<string, TemplateField>, missing: seq<string>): (r: map<string, TemplateField>)
    ensures r.Keys == fields.Keys + (set k | k in missing)
    ensures forall k | k in missing && k !in fields :: r[k] == TemplateField(k, NoneVal, "str", true, true)
    ensures forall k | k in missing && k in fields && fields[k].value != NoneVal ::
      r[k] == fields[k].(value := MultiplesValue, isMissing := true)
    ensures forall k | k in fields && (k !in missing || fields[k].value == NoneVal) :: r[k] == fields[k]
    ensures WellNamed(fields) ==> WellNamed(r)
  {
    map k | k in fields.Keys + (set k | k in missing) ::
      if k !in fields then TemplateField(k, NoneVal, "str", true, true)
      else if k in missing && fields[k].value != NoneVal then fields[k].(value := MultiplesValue, isMissing := true)
      else fields[k]
  }

  /** A field already filled in from the context but reported missing by the
      template: as written it stays complete, with the intended fix it is
      flagged missing. */
  lemma FilledMissingKeyStaysUnflaggedAsWritten()
    ensures var fields := map["shot" := TemplateField("shot", StrVal("sh010"), "str", false, false)];
      && !AddMissingAsWritten(fields, ["shot"])["shot"].isMissing
      && AddMissing(fields, ["shot"])["shot"].isMissing
      && AddMissing(fields, ["shot"])["shot"].value == MultiplesValue
  {
    var fields := map["shot" := TemplateField("shot", StrVal("sh010"), "str", false, false)];
    assert "shot" in ["shot"];
  }

  /** Values already set through the widget win over the gathered ones. */
  function Override(fields: map<string, TemplateField>, overrides: map<string, TemplateField>): (r: map<string, TemplateField>)
    ensures r.Keys == fields.Keys
    ensures forall k | k in fields :: r[k] == if k in overrides then overrides[k] else fields[k]
    ensures WellNamed(fields) && WellNamed(overrides) ==> WellNamed(r)
  {
    map k | k in fields :: if k in overrides then overrides[k] else fields[k]
  }

  /** The settings whose name contains the template source setting name. */
  function Relevant(settings: seq<TaskSetting>, source: string): (r: seq<TaskSetting>)
    ensures forall s | s in r :: s in settings && Contains(s.name, source)
    ensures forall s | s in settings && Contains(s.name, source) :: s in r
    ensures forall s | s in settings :: multiset(r)[s] == if Contains(s.name, source) then multiset(settings)[s] else 0
    decreases |settings|
  {
    if settings == [] then []
    else
      assert settings == [settings[0]] + settings[1..];
      (if Contains(settings[0].name, source) then [settings[0]] else []) + Relevant(settings[1..], source)
  }

  /** The task settings of all the items. */
  ghost function SettingsOf(items: seq<Item>): set<TaskSetting> {
    set it, s | it in items && s in it.settings :: s
  }

  /** One pass of gather_fields' loop over the items. An item counts only
      when exactly one relevant setting exists and its value is not None. */
  function Step(item: Item, acc: map<string, TemplateField>, overrides: map<string, TemplateField>,
                source: string, host: Host): (r: Result<map<string, TemplateField>>)
    reads set s | s in item.settings
    ensures |Relevant(item.settings, source)| != 1 ==> r == Ok(acc)
    ensures |Relevant(item.settings, source)| == 1 ==>
      var setting := Relevant(item.settings, source)[0];
      && (setting.value == NoneVal ==> r == Ok(acc))
      && (setting.value != NoneVal && host.getTemplate(setting.value).None? ==>
            r == Err(TankMissingTemplateError(setting.value)))
      && (setting.value != NoneVal && host.getTemplate(setting.value).Some? ==>
            r.Ok? && r.value.Keys >= acc.Keys)
  {
    var relevant := Relevant(item.settings, source);
    if |relevant| != 1 || relevant[0].value == NoneVal then Ok(acc)
    else
      var setting := relevant[0];
      match host.getTemplate(setting.value)
      case None => Err(TankMissingTemplateError(setting.value))
      case Some(tmpl) =>
        var withContext :=
          match host.contextFields(item.context, tmpl)
          case Some(contextFields) => Merge(acc, ContextAsFields(contextFields), tmpl.keys)
          case None => acc;
        var withCached :=
          match setting.cachedFields
          case Some(cached) => Merge(withContext, cached, tmpl.keys)
          case None => withContext;
        var withMissing := AddMissing(withCached, host.missingKeys(tmpl, FieldValues(withCached)));
        Ok(Override(withMissing, overrides))
  }

  /** gather_fields' loop, from the fields gathered so far. */
  function Gather(items: seq<Item>, acc: map<string, TemplateField>, overrides: map<string, TemplateField>,
                  source: string, host: Host): (r: Result<map<string, TemplateField>>)
    reads SettingsOf(items)
    ensures r.Ok? ==> r.value.Keys >= acc.Keys
    decreases |items|
  {
    if items == [] then Ok(acc)
    else
      var next :- Step(items[0], acc, overrides, source, host);
      Gather(items[1..], next, overrides, source, host)
  }

  /** When the host reports only template keys as missing, an item adds no
      key its template does not have. */
  lemma {:induction false} GatherStaysWithinTemplates(items: seq<Item>, acc: map<string, TemplateField>,
                                                      overrides: map<string, TemplateField>, source: string,
                                                      host: Host, bound: set<string>)
    requires acc.Keys <= bound
    requires forall v | host.getTemplate(v).Some? :: host.getTemplate(v).value.keys <= bound
    requires forall t, m, k | k in host.missingKeys(t, m) :: k in t.keys
    ensures var r := Gather(items, acc, overrides, source, host); r.Ok? ==> r.value.Keys <= bound
    decreases |items|
  {
    if items != [] {
      var next := Step(items[0], acc, overrides, source, host);
      if next.Ok? {
        var relevant := Relevant(items[0].settings, source);
        if |relevant| == 1 && relevant[0].value != NoneVal {
          var tmpl := host.getTemplate(relevant[0].value).value;
          assert tmpl.keys <= bound;
        }
        GatherStaysWithinTemplates(items[1..], next.value, overrides, source, host, bound);
      }
    }
  }

  /** The fields cached on every setting of the items are stored under their
      own names. */
  ghost predicate CachesWellNamed(items: seq<Item>)
    reads SettingsOf(items)
  {
    forall it | it in items ::
      assert forall s | s in it.settings :: s in SettingsOf(items);
      ItemCachesWellNamed(it)
  }

  /** The fields cached on an item's settings are stored under their own names. */
  ghost predicate ItemCachesWellNamed(it: Item)
    reads it.settings
  {
    forall s | s in it.settings && s.cachedFields.Some? :: WellNamed(s.cachedFields.value)
  }

  lemma SettingsOfHas(items: seq<Item>, i: nat)
    requires i < |items|
    ensures forall s | s in items[i].settings :: s in SettingsOf(items)
  {
    assert items[i] in items;
  }

  lemma SettingsOfTail(items: seq<Item>)
    requires items != []
    ensures SettingsOf(items[1..]) <= SettingsOf(items)
    ensures forall s | s in items[0].settings :: s in SettingsOf(items)
  {
    forall s | s in SettingsOf(items[1..]) ensures s in SettingsOf(items) {
      var it :| it in items[1..] && s in it.settings;
      assert it in items;
    }
  }

  /** One item keeps every field under its own name, provided its caches and
      the overriding fields do. */
  lemma StepKeepsFieldsWellNamed(item: Item, acc: map<string, TemplateField>,
                                 overrides: map<string, TemplateField>, source: string, host: Host)
    requires WellNamed(acc) && WellNamed(overrides)
    requires forall s | s in item.settings && s.cachedFields.Some? :: WellNamed(s.cachedFields.value)
    ensures var r := Step(item, acc, overrides, source, host); r.Ok? ==> WellNamed(r.value)
  {
    var relevant := Relevant(item.settings, source);
    if |relevant| == 1 && relevant[0].value != NoneVal && host.getTemplate(relevant[0].value).Some? {
      var setting := relevant[0];
      var tmpl := host.getTemplate(setting.value).value;
      var withContext :=
        match host.contextFields(item.context, tmpl)
        case Some(contextFields) => Merge(acc, ContextAsFields(contextFields), tmpl.keys)
        case None => acc;
      assert WellNamed(withContext);
      assert setting in item.settings;
      var withCached :=
        match setting.cachedFields
        case Some(cached) => Merge(withContext, cached, tmpl.keys)
        case None => withContext;
      assert WellNamed(withCached);
      var withMissing := AddMissing(withCached, host.missingKeys(tmpl, FieldValues(withCached)));
      assert WellNamed(withMissing);
    }
  }

  /** Gathering keeps every field under its own name, provided the caches and
      the overriding fields do. */
  lemma {:induction false} GatherKeepsFieldsWellNamed(items: seq<Item>, acc: map<string, TemplateField>,
                                                      overrides: map<string, TemplateField>, source: string, host: Host)
    requires WellNamed(acc) && WellNamed(overrides) && CachesWellNamed(items)
    ensures var r := Gather(items, acc, overrides, source, host); r.Ok? ==> WellNamed(r.value)
    decreases |items|
  {
    if items != [] {
      SettingsOfTail(items);
      assert items[0] in items;
      StepKeepsFieldsWellNamed(items[0], acc, overrides, source, host);
      var next := Step(items[0], acc, overrides, source, host);
      if next.Ok? {
        assert forall it | it in items[1..] :: it in items;
        GatherKeepsFieldsWellNamed(items[1..], next.value, overrides, source, host);
      }
    }
  }

  /** What resolve_template_value produces: the None or Multiples markers'
      text, or a text. */
  datatype Resolved = NoneStr | MultiplesStr | Text(text: string)

  const MissingFieldsMessage := "Cannot resolve template. Missing field values!"

  predicate AnyMissing(fields: map<string, TemplateField>) {
    exists k | k in fields :: fields[k].isMissing
  }

  /** The fields handed to apply_fields: a MultiplesValue field becomes the
      placeholder "{name}" and is ignored for type checks; every other field
      passes unchanged. */
  function Flatten(fields: map<string, TemplateField>): (r: (map<string, Value>, set<string>))
    ensures r.0.Keys == fields.Keys
    ensures forall k :: k in r.1 <==> k in fields && fields[k].value == MultiplesValue
    ensures forall k | k in fields && fields[k].value != MultiplesValue :: r.0[k] == fields[k].value
    ensures forall k | k in r.1 :: r.0[k] == StrVal("{" + k + "}")
  {
    (map k | k in fields :: if fields[k].value == MultiplesValue then StrVal("{" + k + "}") else fields[k].value,
     set k | k in fields && fields[k].value == MultiplesValue)
  }

  /** Without conflicting fields, the template sees exactly the fields' values
      and ignores nothing. */
  lemma FlattenWithoutConflicts(fields: map<string, TemplateField>)
    requires forall k | k in fields :: fields[k].value != MultiplesValue
    ensures Flatten(fields) == (FieldValues(fields), {})
  {
    assert Flatten(fields).0 == FieldValues(fields);
    assert Flatten(fields).1 == {};
  }

  /** The field as update_field leaves it: the new value, no longer missing. */
  function EditedField(fields: map<string, TemplateField>, fieldName: string, newValue: Value): (r: map<string, TemplateField>)
    requires fieldName in fields
    ensures r.Keys == fields.Keys
    ensures r[fieldName].value == newValue && !r[fieldName].isMissing
    ensures r[fieldName].name == fields[fieldName].name && r[fieldName].fieldType == fields[fieldName].fieldType
    ensures forall k | k in fields && k != fieldName :: r[k] == fields[k]
  {
    fields[fieldName := fields[fieldName].(value := newValue, isMissing := false)]
  }

  /** Filling in the last missing field unblocks the template's resolution,
      and keeps the fields under their own names. */
  lemma EditingLastMissingFieldCompletes(fields: map<string, TemplateField>, fieldName: string, newValue: Value)
    requires fieldName in fields && WellNamed(fields)
    requires forall k | k in fields && fields[k].isMissing :: k == fieldName
    ensures !AnyMissing(EditedField(fields, fieldName, newValue))
    ensures WellNamed(EditedField(fields, fieldName, newValue))
  {
  }

  /** The fields written into `item.properties[name]`: the editable ones
      whose value is not MultiplesValue. */
  function Written(fields: map<string, TemplateField>): (w: map<string, Value>)
    ensures forall k :: k in w <==> k in fields && fields[k].editable && fields[k].value != MultiplesValue
    ensures forall k | k in w :: w[k] == fields[k].value
  {
    map k | k in fields && fields[k].editable && fields[k].value != MultiplesValue :: fields[k].value
  }

  /** An item's "fields" property, an empty dictionary when there is none. */
  function ItemFields(properties: map<string, Value>): map<string, Value> {
    var f := Get(properties, "fields", DictVal(map[]));
    if f.DictVal? then f.entries else map[]
  }

  /** The item's fields as they are cached on a template setting: text,
      editable, not missing. */
  function AsCached(entries: map<string, Value>): (c: map<string, TemplateField>)
    ensures WellNamed(c) && c.Keys == entries.Keys
    ensures forall k | k in c :: c[k].value == entries[k] && c[k].fieldType == "str" && c[k].editable && !c[k].isMissing
  {
    map k | k in entries :: TemplateField(k, entries[k], "str", true, false)
  }

  /** The fields cache_data puts on a setting are stored under their own
      names, so a cache that was well named stays so. */
  lemma CachingKeepsCacheWellNamed(cached: Option<map<string, TemplateField>>, properties: map<string, Value>)
    requires cached.Some? ==> WellNamed(cached.value)
    ensures CachedSettingFields(cached, properties).Some?
    ensures WellNamed(CachedSettingFields(cached, properties).value)
  {
  }

  /** An item's properties after cache_data. */
  function CachedProperties(properties: map<string, Value>, name: string, fields: map<string, TemplateField>): map<string, Value> {
    if name in properties && properties[name].DictVal? then
      properties[name := DictVal(properties[name].entries + Written(fields))]
    else properties
  }

  /** cache_data never writes MultiplesValue or a field that is not editable,
      and leaves the other entries of the property alone. */
  lemma CacheWritesOnlyEditableValues(properties: map<string, Value>, name: string, fields: map<string, TemplateField>)
    requires name in properties && properties[name].DictVal?
    ensures var after := CachedProperties(properties, name, fields);
      && after.Keys == properties.Keys
      && (forall k | k != name && k in properties :: after[k] == properties[k])
      && after[name].DictVal?
      && (forall k | k in after[name].entries ::
            if k in fields && fields[k].editable && fields[k].value != MultiplesValue then after[name].entries[k] == fields[k].value
            else k in properties[name].entries && after[name].entries[k] == properties[name].entries[k])
  {
  }

  /** A template setting's cached fields after cache_data. */
  function CachedSettingFields(cached: Option<map<string, TemplateField>>, properties: map<string, Value>): Option<map<string, TemplateField>> {
    Some(cached.GetOr(map[]) + AsCached(ItemFields(properties)))
  }

  predicate HasTemplateSetting(item: Item) {
    exists s | s in item.settings :: s.settingType == "template"
  }

  /** What cache_data needs of the items: `properties[name]` is a dictionary,
      and an item with a template setting has a "fields" dictionary holding a
      "version". */
  predicate CacheReady(items: seq<Item>, name: string)
    reads items
  {
    forall it | it in items ::
      && name in it.properties && it.properties[name].DictVal?
      && (HasTemplateSetting(it) ==>
            "fields" in it.properties && it.properties["fields"].DictVal? && "version" in it.properties["fields"].entries)
  }

  /** The items are distinct objects and no two of them share a setting. */
  predicate Separate(items: seq<Item>) {
    && (forall i, j | 0 <= i < j < |items| :: items[i] != items[j])
    && (forall i, j, s | 0 <= i < |items| && 0 <= j < |items| && i != j && s in items[i].settings :: s !in items[j].settings)
  }

  lemma SeparateAt(items: seq<Item>, i: nat)
    requires Separate(items) && i < |items|
    ensures forall k | 0 <= k < |items| && k != i :: items[k] != items[i]
    ensures forall k, s | 0 <= k < |items| && k != i && s in items[k].settings :: s !in items[i].settings
  {
  }

  /** cache_data's inner loop over one item's task settings. */
  method CacheOnSettings(settings: seq<TaskSetting>, itemFields: map<string, Value>)
    requires (exists s | s in settings :: s.settingType == "template") ==> "version" in itemFields
    modifies settings
    ensures forall s | s in settings ::
      && s.value == old(s.value)
      && s.cachedFields == if s.settingType == "template" then Some(old(s.cachedFields).GetOr(map[]) + AsCached(itemFields))
                           else old(s.cachedFields)
  {
    var j := 0;
    while j < |settings|
      invariant 0 <= j <= |settings|
      invariant forall s | s in settings ::
        && s.value == old(s.value)
        && s.cachedFields == if s in settings[..j] && s.settingType == "template"
                             then Some(old(s.cachedFields).GetOr(map[]) + AsCached(itemFields))
                             else old(s.cachedFields)
    {
      var setting := settings[j];
      if setting.settingType == "template" {
        var cached := setting.cachedFields.GetOr(map[]);
        if setting in settings[..j] {
          assert cached == old(setting.cachedFields).GetOr(map[]) + AsCached(itemFields);
          assert cached + AsCached(itemFields) == cached;
        }
        var merged := cached + AsCached(itemFields);
        merged := merged["version" := TemplateField("version", itemFields["version"], "str", true, false)];
        assert merged == cached + AsCached(itemFields);
        setting.cachedFields := Some(merged);
        assert setting.cachedFields == Some(old(setting.cachedFields).GetOr(map[]) + AsCached(itemFields));
      }
      j := j + 1;
    }
  }

  /** An item and its settings as cache_data leaves them. */
  twostate predicate ItemCached(it: Item, name: string, fields: map<string, TemplateField>)
    reads it, it.settings
  {
    && it.properties == CachedProperties(old(it.properties), name, fields)
    && (forall s | s in it.settings ::
          && s.value == old(s.value)
          && s.cachedFields == (if s.settingType == "template" then CachedSettingFields(old(s.cachedFields), it.properties)
                                else old(s.cachedFields)))
  }

  twostate predicate ItemUntouched(it: Item)
    reads it, it.settings
  {
    it.properties == old(it.properties) && forall s | s in it.settings :: s.value == old(s.value) && s.cachedFields == old(s.cachedFields)
  }

  /** cache_data's work on one item. */
  method CacheItem(it: Item, name: string, fields: map<string, TemplateField>)
    requires name in it.properties && it.properties[name].DictVal?
    requires HasTemplateSetting(it) ==>
      "fields" in it.properties && it.properties["fields"].DictVal? && "version" in it.properties["fields"].entries
    modifies it, it.settings
    ensures ItemCached(it, name, fields)
  {
    it.properties := CachedProperties(it.properties, name, fields);
    assert HasTemplateSetting(it) ==> "version" in ItemFields(it.properties);
    CacheOnSettings(it.settings, ItemFields(it.properties));
  }

  /** A template setting shown for several items: the property widget's name,
      items, value and value type, plus the gathered template fields. */
  class FieldsWidget {
    const name: string
    const items: seq<Item>
    const templateSourceSettingName: string
    var value: Value
    var valueType: string
    var fields: map<string, TemplateField>

    /** Fields are stored under their own names. */
    ghost predicate Valid()
      reads this
    {
      WellNamed(fields)
    }

    /** The property widget's set-up, then an empty field map; the template
        source setting name defaults to "publish_path_template". */
    constructor (items: seq<Item>, name: string, declared: Option<string>, templateSourceSettingName: Option<string>)
      ensures this.items == items && this.name == name
      ensures this.templateSourceSettingName == templateSourceSettingName.GetOr("publish_path_template")
      ensures value == Aggregate(PropertyValues(items, name), declared).value
      ensures valueType == Aggregate(PropertyValues(items, name), declared).valueType
      ensures fields == map[]
      ensures Valid()
    {
      this.items := items;
      this.name := name;
      var aggregated := Aggregate(PropertyValues(items, name), declared);
      value := aggregated.value;
      valueType := aggregated.valueType;
      fields := map[];
      this.templateSourceSettingName := templateSourceSettingName.GetOr("publish_path_template");
    }

    /** gather_fields: rebuilds the fields from every item, the fields
        already set through the widget winning. A missing template raises and
        leaves the fields as they were. */
    method GatherFields(host: Host) returns (r: Result<()>)
      requires Valid() && CachesWellNamed(items)
      modifies this
      ensures value == old(value) && valueType == old(valueType)
      ensures var g := Gather(items, map[], old(fields), templateSourceSettingName, host);
        && (r.Err? <==> g.Err?)
        && (g.Err? ==> r.error == g.error && fields == old(fields))
        && (g.Ok? ==> fields == g.value)
      ensures Valid()
    {
      var overrides := fields;
      var acc: map<string, TemplateField> := map[];
      var i := 0;
      while i < |items|
        invariant 0 <= i <= |items|
        invariant fields == overrides && value == old(value) && valueType == old(valueType)
        invariant Gather(items, map[], overrides, templateSourceSettingName, host)
                  == Gather(items[i..], acc, overrides, templateSourceSettingName, host)
      {
        var next := Step(items[i], acc, overrides, templateSourceSettingName, host);
        assert items[i..][0] == items[i];
        if next.Err? {
          return Err(next.error);
        }
        assert items[i..][1..] == items[i + 1..];
        acc := next.value;
        i := i + 1;
      }
      assert items[i..] == [];
      GatherKeepsFieldsWellNamed(items, map[], overrides, templateSourceSettingName, host);
      label gathered:
      fields := acc;
      assert unchanged@gathered(SettingsOf(items));
      assert Gather(items, map[], overrides, templateSourceSettingName, host) == Ok(fields);
      r := Ok(());
    }

    /** resolve_template_value: the markers' text for a None or conflicting
        template name, the missing-fields message while a field is missing,
        otherwise the template applied to the flattened fields. */
    function ResolveTemplateValue(host: Host): (r: Result<Resolved>)
      requires Valid()
      reads this
      ensures value == NoneVal ==> r == Ok(NoneStr)
      ensures value == MultiplesValue ==> r == Ok(MultiplesStr)
      ensures value != NoneVal && value != MultiplesValue && AnyMissing(fields) ==> r == Ok(Text(MissingFieldsMessage))
      ensures value != NoneVal && value != MultiplesValue && !AnyMissing(fields) ==>
        && (host.getTemplate(value).None? ==> r == Err(TankMissingTemplateError(value)))
        && (host.getTemplate(value).Some? ==>
              r == Ok(Text(host.applyFields(host.getTemplate(value).value, Flatten(fields).0, Flatten(fields).1))))
    {
      if value == NoneVal then Ok(NoneStr)
      else if value == MultiplesValue then Ok(MultiplesStr)
      else if AnyMissing(fields) then Ok(Text(MissingFieldsMessage))
      else
        match host.getTemplate(value)
        case None => Err(TankMissingTemplateError(value))
        case Some(tmpl) =>
          var flat := Flatten(fields);
          Ok(Text(host.applyFields(tmpl, flat.0, flat.1)))
    }

    /** The state cache_data leaves behind, from the state before it. */
    twostate predicate Cached()
      reads this, items, SettingsOf(items)
    {
      forall k | 0 <= k < |items| ::
        assert items[k] in items && forall s | s in items[k].settings :: s in SettingsOf(items);
        ItemCached(items[k], name, fields)
    }

    /** cache_data: writes the editable, settled fields into every item's
        property, then caches the item's "fields" on each template setting of
        its tasks. */
    method CacheData()
      requires CacheReady(items, name) && Separate(items)
      modifies items, SettingsOf(items)
      ensures Cached()
    {
      var i := 0;
      while i < |items|
        invariant 0 <= i <= |items|
        invariant forall k | 0 <= k < i :: ItemCached(items[k], name, fields)
        invariant forall k | i <= k < |items| :: ItemUntouched(items[k])
      {
        var it := items[i];
        SettingsOfHas(items, i);
        SeparateAt(items, i);
        label before:
        CacheItem(it, name, fields);
        forall k | 0 <= k < |items| && k != i
          ensures unchanged@before(items[k])
        {
        }
        forall k, s | 0 <= k < |items| && k != i && s in items[k].settings
          ensures unchanged@before(s)
        {
        }
        i := i + 1;
      }
    }

    /** update_field: an edit of a field the widget does not show is ignored;
        otherwise the edited value is normalised against the field's type,
        stored with the field no longer missing, and cached. */
    method UpdateField(fieldName: string, edited: Value, convert: (string, string) -> Result<Value>) returns (r: Result<()>)
      requires fieldName in fields ==> CacheReady(items, name) && Separate(items)
      modifies this, items, SettingsOf(items)
      ensures value == old(value) && valueType == old(valueType)
      ensures fieldName !in old(fields) ==> r == Ok(()) && fields == old(fields) && unchanged(items) && unchanged(SettingsOf(items))
      ensures fieldName in old(fields) ==>
        var n := Normalise(edited, old(fields)[fieldName].fieldType, convert, true);
        && (n.Err? ==> r == Err(n.error) && fields == old(fields) && unchanged(items) && unchanged(SettingsOf(items)))
        && (n.Ok? ==> r == Ok(()) && fields == EditedField(old(fields), fieldName, n.value) && Cached())
      ensures old(Valid()) ==> Valid()
    {
      if fieldName !in fields {
        return Ok(());
      }
      var n := Normalise(edited, fields[fieldName].fieldType, convert, true);
      if n.Err? {
        return Err(n.error);
      }
      fields := EditedField(fields, fieldName, n.value);
      label edited:
      CacheData();
      assert Cached@edited();
      r := Ok(());
    }
  }
}
