/** The basic "Publish File(s) to Shotgun" plugin's schema, acceptance and
    validation rules (hooks/basic/publish_files.py). */
module PublishFiles {
  import opened Values

  /** One entry of the default item type settings. */
  function ItemTypeEntry(publishType: string): Value {
    DictVal(map["publish_type" := StrVal(publishType),
                "publish_name_template" := NoneVal,
                "publish_path_template" := NoneVal])
  }

  /** DEFAULT_ITEM_TYPE_SETTINGS: the publish type of every known file item type. */
  const DefaultItemTypeSettings: map<string, Value> := map[
    "file.alembic" := ItemTypeEntry("Alembic Cache"),
    "file.3dsmax" := ItemTypeEntry("3dsmax Scene"),
    "file.nukestudio" := ItemTypeEntry("NukeStudio Project"),
    "file.houdini" := ItemTypeEntry("Houdini Scene"),
    "file.maya" := ItemTypeEntry("Maya Scene"),
    "file.motionbuilder" := ItemTypeEntry("Motion Builder FBX"),
    "file.nuke" := ItemTypeEntry("Nuke Script"),
    "file.photoshop" := ItemTypeEntry("Photoshop Image"),
    "file.render.sequence" := ItemTypeEntry("Rendered Image"),
    "file.texture" := ItemTypeEntry("Texture Image"),
    "file.image" := ItemTypeEntry("Image"),
    "file.video" := ItemTypeEntry("Movie")
  ]

  /** `schema[name]["default_value"]`, failing as Python does when a key is
      missing or an entry is not a dictionary. */
  function DefaultValueOf(schema: map<string, Value>, name: string): (r: Result<Value>)
    ensures r.Ok? <==> name in schema && schema[name].DictVal? && "default_value" in schema[name].entries
    ensures r.Ok? ==> r.value == schema[name].entries["default_value"]
  {
    if name !in schema then Err(KeyError(name))
    else if !schema[name].DictVal? then Err(TypeError("'" + TypeName(schema[name]) + "' object has no attribute '__getitem__'"))
    else if "default_value" !in schema[name].entries then Err(KeyError("default_value"))
    else Ok(schema[name].entries["default_value"])
  }

  /** `schema[name]["default_value"] = value`, for an entry known to exist. */
  function WithDefaultValue(schema: map<string, Value>, name: string, value: Value): map<string, Value>
    requires name in schema && schema[name].DictVal?
  {
    schema[name := DictVal(schema[name].entries["default_value" := value])]
  }

  /** settings_schema: the parent's schema with "file.*" appended to the item
      type filters and the default item type settings merged into the item
      type settings. */
  function SettingsSchema(parent: map<string, Value>): (r: Result<map<string, Value>>)
    ensures r.Ok? <==>
      DefaultValueOf(parent, "Item Type Filters").Ok? && DefaultValueOf(parent, "Item Type Filters").value.ListVal?
      && DefaultValueOf(parent, "Item Type Settings").Ok? && DefaultValueOf(parent, "Item Type Settings").value.DictVal?
    ensures r.Ok? ==>
      && r.value.Keys == parent.Keys
      && (forall k | k in parent && k != "Item Type Filters" && k != "Item Type Settings" :: r.value[k] == parent[k])
      && DefaultValueOf(r.value, "Item Type Filters").Ok?
      && DefaultValueOf(r.value, "Item Type Filters").value
         == ListVal(DefaultValueOf(parent, "Item Type Filters").value.elems + [StrVal("file.*")])
      && DefaultValueOf(r.value, "Item Type Settings").Ok?
      && DefaultValueOf(r.value, "Item Type Settings").value
         == DictVal(DefaultValueOf(parent, "Item Type Settings").value.entries + DefaultItemTypeSettings)
  {
    var filters :- DefaultValueOf(parent, "Item Type Filters");
    if !filters.ListVal? then Err(AttributeError("append"))
    else
      var withFilter := WithDefaultValue(parent, "Item Type Filters", ListVal(filters.elems + [StrVal("file.*")]));
      var settings :- DefaultValueOf(withFilter, "Item Type Settings");
      if !settings.DictVal? then Err(AttributeError("update"))
      else Ok(WithDefaultValue(withFilter, "Item Type Settings", DictVal(settings.entries + DefaultItemTypeSettings)))
  }

  /** Every known file item type gets its default publish type, whatever the
      parent configured for it. */
  lemma SchemaKnowsEveryFileType(parent: map<string, Value>, itemType: string)
    requires SettingsSchema(parent).Ok?
    requires itemType in DefaultItemTypeSettings
    ensures var settings := DefaultValueOf(SettingsSchema(parent).value, "Item Type Settings").value;
      settings.DictVal? && itemType in settings.entries
      && settings.entries[itemType] == DefaultItemTypeSettings[itemType]
  {
  }

  /** accept: an accepted "file." item without a path is turned down with an
      explanation; everything else keeps the parent's verdict. */
  function Accept(parentAccept: map<string, Value>, itemType: string, itemName: string,
                  properties: map<string, Value>): (r: map<string, Value>)
    ensures !Truthy(Get(parentAccept, "accepted", NoneVal)) ==> r == parentAccept
    ensures Truthy(Get(parentAccept, "accepted", NoneVal)) && StartsWith(itemType, "file.")
            && !Truthy(Get(properties, "path", NoneVal)) ==>
      && r.Keys == parentAccept.Keys + {"accepted", "extra_info"}
      && r["accepted"] == BoolVal(false)
      && r["extra_info"] == ShowMoreInfo("'path' property is not set for item: " + itemName)
      && forall k | k in parentAccept && k != "accepted" && k != "extra_info" :: r[k] == parentAccept[k]
    ensures !StartsWith(itemType, "file.") || Truthy(Get(properties, "path", NoneVal)) ==> r == parentAccept
  {
    if !Truthy(Get(parentAccept, "accepted", NoneVal)) then parentAccept
    else if StartsWith(itemType, "file.") && !Truthy(Get(properties, "path", NoneVal)) then
      var msg := "'path' property is not set for item: " + itemName;
      parentAccept["extra_info" := ShowMoreInfo(msg)]["accepted" := BoolVal(false)]
    else parentAccept
  }

  /** validate: a "file." item must have its files on disk; then the parent
      decides. A missing property reads as None. */
  function Validate(itemType: string, properties: map<string, Value>, pathExists: Value -> bool,
                    parentVerdict: bool): (r: bool)
    ensures r ==> parentVerdict
    ensures !StartsWith(itemType, "file.") ==> r == parentVerdict
    ensures StartsWith(itemType, "file.") && Truthy(Get(properties, "is_sequence", NoneVal)) ==>
      (r <==> Truthy(Get(properties, "sequence_paths", NoneVal)) && parentVerdict)
    ensures StartsWith(itemType, "file.") && !Truthy(Get(properties, "is_sequence", NoneVal)) ==>
      (r <==> pathExists(Get(properties, "path", NoneVal)) && parentVerdict)
  {
    if StartsWith(itemType, "file.") then
      if Truthy(Get(properties, "is_sequence", NoneVal)) then
        if !Truthy(Get(properties, "sequence_paths", NoneVal)) then false else parentVerdict
      else if !pathExists(Get(properties, "path", NoneVal)) then false else parentVerdict
    else parentVerdict
  }
}
