# tk-multi-publish2: decision rules of the publisher, in Dafny

This project models the parts of the Shotgun Toolkit publisher
(tk-multi-publish2, Python 2) that decide things, rather than draw them or
call the host platform:

- **Settings resolution** (`Setting`): a `PluginSetting` record, and
  `get_plugin_setting`. Given a context, it picks the application whose
  settings apply:
  - the current application, when the context is its own;
  - otherwise the single settings record found;
  - otherwise the first record named after the current instance.

  It then lays the plugin's schema over the application's schema and hands
  the key to the host's resolver.
- **Task tree nodes** (`TaskTree`): a publish tree node that pulls its
  checkbox state from its task. The node also turns the task's validate,
  publish and finalize outcomes into status icons on itself and its
  ancestors:
  - validation failures are swallowed;
  - publish and finalize failures are re-raised.
- **Collector property widgets** (`Collector`), with Qt removed:
  - which "Properties To Display" entries get a row;
  - how several items' values are collapsed into one value, the
    `MultiplesValue` marker, or None;
  - how an edited value is normalised and written back to the items;
  - how a template setting's fields are gathered from context, cache and the
    template's missing keys, flattened for the template, and cached on the
    items and their task settings.
- **Plugin instance set-up** (`InstanceBase`): the logger choice, and the
  settings built from the hook's schema and the settings configured for the
  context. This includes the fallbacks when either of those raises.
- **Basic publish hooks** (`PublishFiles`, `CreateVersion`):
  - the "Publish File(s) to Shotgun" schema extension, and its accept and
    validate rules;
  - the "Submit for Review" accept and validate rules, frame range, and
    the template fields it hands to the review app.

Python values are the `Values.Value` datatype. Truthiness is
`Values.Truthy`, and an exception is the `Err` case of `Values.Result`,
named by its class.

Calls into the host are parameters of the functions and methods that need
them. These cover:
- `find_app_settings`, `get_application` and `resolve_setting_value`;
- `convert_string_to_type`;
- `get_template_by_name`, `context.as_template_fields`,
  `tmpl.missing_keys` and `tmpl.apply_fields`;
- `os.path.exists` and `get_frame_number`;
- the review submission app's two storage settings.

Objects that the source updates in place are classes with `modifies` and
`reads` frames: the plugin instance, tree nodes and their widgets, items,
task settings, and property and fields widgets.

Modules: `Values` (values.dfy), `Setting` (setting.dfy), `TaskTree`
(tree_node_task.dfy), `Collector` (collector.dfy), `InstanceBase`
(instance_base.dfy), `PublishFiles` (publish_files.dfy) and
`CreateVersion` (create_version.dfy).

## Model

| member | source | states |
|---|---|---|
| Setting.PluginSetting.constructor | python/tk_multi_publish2/api/plugins/setting.py:42-46 | a new setting's value is its default value; its default value, description, name and type are the constructor's arguments |
| Setting.PluginSetting.StringValue | python/tk_multi_publish2/api/plugins/setting.py:49-51 | the string value is Python's str() of the value: a string is itself, and an integer's text reads back as that integer |
| Setting.EffectiveContext | python/tk_multi_publish2/api/plugins/setting.py:61 | no context given means the current application's context; a given context is kept |
| Setting.InstanceNames | python/tk_multi_publish2/api/plugins/setting.py:98 | the candidates' application instance names, one per candidate, in order |
| Setting.FirstNamed | python/tk_multi_publish2/api/plugins/setting.py:87-90 | finds the first candidate named after the instance, with no earlier candidate so named; finds none exactly when no candidate is so named |
| Setting.SelectSettings | python/tk_multi_publish2/api/plugins/setting.py:79-100 | zero candidates: the "Cannot find settings" TankError. One candidate: that candidate, whatever its name. Several: success exactly when one of them is named after the current instance, and then the first such one. Otherwise the "too many results" TankError listing every candidate's name |
| Setting.SelectSettingsAsWritten | python/tk_multi_publish2/api/plugins/setting.py:79-100 | as written, zero candidates fail on the unbound name TankError, and several unmatched candidates fail on the unbound name app_settings; a single candidate, or several with one named after the current instance, select exactly what SelectSettings selects, and any success agrees with SelectSettings |
| Setting.NoCandidateFailsOnTankErrorName | python/tk_multi_publish2/api/plugins/setting.py:79-81 | with no candidate, the code as written raises NameError("TankError") where "Cannot find settings" is intended |
| Setting.AmbiguousCandidatesReadUnboundName | python/tk_multi_publish2/api/plugins/setting.py:83-100 | two candidates that do not match the instance: the code as written raises NameError("app_settings"), while the intended behaviour is the error listing both names |
| Setting.ChooseApp | python/tk_multi_publish2/api/plugins/setting.py:61-116 | in the application's own context, the current application; otherwise the selection's error, or the application the host builds from the selected record |
| Setting.CurrentContextNeedsNoLookup | python/tk_multi_publish2/api/plugins/setting.py:61-68 | in the current context, the chosen application is the current one whatever the host's lookups would return |
| Setting.MergeSchema | python/tk_multi_publish2/api/plugins/setting.py:119-120 | the merged schema has the keys of both schemas; the plugin's entry wins for its keys, and the base entry stays for all other keys |
| Setting.GetPluginSetting | python/tk_multi_publish2/api/plugins/setting.py:54-136 | an application-choice error is passed on; a key missing from the merged schema is a KeyError; otherwise the result is the resolver's, unchanged |
| Setting.FalsyValueIsReturned | python/tk_multi_publish2/api/plugins/setting.py:133-136 | a falsy resolved value is returned as a value, not turned into an error |
| TaskTree.CheckStateFor | python/tk_multi_publish2/publish_tree_widget/tree_node_task.py:44 | Checked exactly when the task is checked, Unchecked exactly when it is not |
| TaskTree.Pulled | python/tk_multi_publish2/publish_tree_widget/tree_node_task.py:44-47 | after a pull, the item's check data and the widget's checkbox both mirror the task's checked flag, the checkbox is enabled exactly when the task is, and status and message are untouched |
| TaskTree.PullIsIdempotent | python/tk_multi_publish2/publish_tree_widget/tree_node_task.py:40-47 | pulling an unchanged task's state twice shows what one pull shows |
| TaskTree.TreeNodeTask.constructor | python/tk_multi_publish2/publish_tree_widget/tree_node_task.py:25-38 | the new node holds its task and has pulled the task's checked and enabled flags, so it is enabled exactly when its task is checked |
| TaskTree.TreeNodeTask.Update | python/tk_multi_publish2/publish_tree_widget/tree_node_task.py:40-47 | the node's visible state becomes the pull of the task's flags over its previous state |
| TaskTree.UpdateTwice | python/tk_multi_publish2/publish_tree_widget/tree_node_task.py:40-47 | two updates in a row leave what one update leaves |
| TaskTree.TreeNodeTask.CreateSummary | python/tk_multi_publish2/publish_tree_widget/tree_node_task.py:93-102 | the plugin's name alone when the node is enabled, the empty list exactly when it is not |
| TaskTree.TreeNodeTask.SetStatusUpwards | python/tk_multi_publish2/publish_tree_widget/tree_node_task.py:115-118 | the node and every ancestor show the status and message; no checkbox changes |
| TaskTree.TreeNodeTask.Validate | python/tk_multi_publish2/publish_tree_widget/tree_node_task.py:104-133 | a disabled node succeeds and changes nothing. A truthy result shows VALIDATION_STANDALONE or VALIDATION with an empty message on the node alone. A falsy result shows VALIDATION_ERROR and "Unknown validation error" upwards and returns false. An exception shows VALIDATION_ERROR and its message upwards, returns false and does not propagate. No checkbox of the node or of an ancestor changes |
| TaskTree.TreeNodeTask.RunFatal | python/tk_multi_publish2/publish_tree_widget/tree_node_task.py:135-173 | a disabled node succeeds and changes nothing; success shows the done status with an empty message on the node alone and returns true; an exception shows the failed status and its message upwards and propagates it; no checkbox of the node or of an ancestor changes |
| TaskTree.TreeNodeTask.Publish | python/tk_multi_publish2/publish_tree_widget/tree_node_task.py:135-153 | a disabled node returns true and changes nothing; success shows PUBLISH with an empty message on the node alone and returns true; an exception shows PUBLISH_ERROR and its message on the node and every ancestor and is raised again; no checkbox of the node or of an ancestor changes |
| TaskTree.TreeNodeTask.Finalize | python/tk_multi_publish2/publish_tree_widget/tree_node_task.py:155-173 | a disabled node returns true and changes nothing; success shows FINALIZE with an empty message on the node alone and returns true; an exception shows FINALIZE_ERROR and its message on the node and every ancestor and is raised again; no checkbox of the node or of an ancestor changes |
| TaskTree.TreeNodeTask.SetCheckState | python/tk_multi_publish2/publish_tree_widget/tree_node_task.py:66-75 | applied to all plugins, every node of the tree whose task has this plugin gets the state and the others keep theirs; otherwise only this node changes; every node that gets the state is afterwards enabled exactly when the state is not Unchecked, and every other node keeps its enabled flag |
| TaskTree.PublishTree.SetCheckStateForAllPlugins | python/tk_multi_publish2/publish_tree_widget/tree_node_task.py:70-72 | exactly the nodes whose task has the plugin get the state, and they are afterwards enabled exactly when the state is not Unchecked |
| InstanceBase.ChooseLogger | python/tk_multi_publish2/api/plugins/instance_base.py:40-43 | the manager's logger when it has one, otherwise the module logger |
| InstanceBase.BaseGetSettingsForContext | python/tk_multi_publish2/api/plugins/instance_base.py:168-176 | always NotImplementedError |
| InstanceBase.ConfiguredAfter | python/tk_multi_publish2/api/plugins/instance_base.py:103-110 | the lookup's result, a dictionary or None, when it succeeds; the empty dictionary when it raises |
| InstanceBase.SettingFor | python/tk_multi_publish2/api/plugins/instance_base.py:112-119 | a setting built from its name and schema entry, and from its configured value, or None when nothing is configured |
| InstanceBase.BaseInstanceConfiguresNothing | python/tk_multi_publish2/api/plugins/instance_base.py:103-176 | with the base class's lookup, nothing is configured and every setting is built from None |
| InstanceBase.PluginInstance.constructor | python/tk_multi_publish2/api/plugins/instance_base.py:27-51 | the path and context, the chosen logger, an empty dictionary of configured settings and no settings yet |
| InstanceBase.PluginInstance.Create | python/tk_multi_publish2/api/plugins/instance_base.py:27-56 | construction fails with the AttributeError of `None.get` exactly when the lookup gave None and the schema has a key; otherwise the new instance has the chosen logger, the hook's schema or an empty one, the configured settings or {} when the lookup raised, and exactly one setting per schema key, built from its configured value |
| InstanceBase.PluginInstance.ValidateAndResolveConfig | python/tk_multi_publish2/api/plugins/instance_base.py:81-119 | the schema is the hook's, or empty; the configured settings are replaced only when the lookup succeeds; when they are None and the schema has a key, it fails with AttributeError and adds no setting; otherwise every schema key gets its setting; settings for other keys are kept |
| PublishFiles.DefaultValueOf | hooks/basic/publish_files.py:155-156 | a schema entry's default value, present exactly when the entry exists, is a dictionary and has one |
| PublishFiles.SettingsSchema | hooks/basic/publish_files.py:154-157 | succeeds exactly when the parent's two defaults have the right shapes. Keeps every key and every other entry. Appends "file.*" to the item type filters. Merges every default item type setting into the item type settings |
| PublishFiles.SchemaKnowsEveryFileType | hooks/basic/publish_files.py:154-157 | every known file item type ends up with its default publish type, whatever the parent had for it |
| PublishFiles.Accept | hooks/basic/publish_files.py:190-208 | a parent rejection is returned unchanged. An accepted "file." item without a path gets accepted False and the "Show Info" explanation, with all else kept. Any other item keeps the parent's data |
| PublishFiles.Validate | hooks/basic/publish_files.py:226-236 | true only when the parent agrees; a "file." sequence needs sequence paths, and a single "file." item needs its path to exist; other items get the parent's verdict |
| CreateVersion.Accept | hooks/basic/create_version.py:130-177 | in order: a parent rejection is returned unchanged; a missing path sets accepted False; then a missing review app, or one that neither uploads nor stores on disk, sets enabled and checked False with its message. All other entries are kept |
| CreateVersion.PathCheckPrecedesAppCheck | hooks/basic/create_version.py:134-158 | a pathless item is rejected with its enabled and checked entries as the parent left them, with or without a review app |
| CreateVersion.Validate | hooks/basic/create_version.py:196-205 | a sequence is valid exactly when it has sequence paths, a single file exactly when its path exists |
| CreateVersion.FrameRange | hooks/basic/create_version.py:297-303 | (0, 0) for a single file; the frame numbers of the first and last sequence paths; IndexError for an empty path list, and an error for a path value that is not a list |
| CreateVersion.OneFrameSequence | hooks/basic/create_version.py:297-303 | a one-path sequence starts and ends on that path's frame |
| CreateVersion.PublishFields | hooks/basic/create_version.py:222-232 | the item's fields, with "version" replaced by the publish data's version number when there is publish data, and the context's fields laid over the top and winning. Fails exactly when the fields or the publish data have the wrong shape |
| Collector.RowFor | python/tk_multi_publish2/base_hooks/collector.py:41-63 | an entry gives a row exactly when it has a name and a widget type the hook has; the row's keyword arguments are the entry without name and type, and its label is the display name, else the name |
| Collector.RowsAreTheUsableEntries | python/tk_multi_publish2/base_hooks/collector.py:41-68 | every row comes from an entry, every usable entry gives a row, and there are never more rows than entries |
| Collector.RowsComeFromEntries | python/tk_multi_publish2/base_hooks/collector.py:41-68 | every row comes from some entry that yields it, and there are never more rows than entries |
| Collector.UsableEntriesGiveRows | python/tk_multi_publish2/base_hooks/collector.py:41-68 | every entry that has a name and a widget type the hook has yields its row |
| Collector.BuildRows | python/tk_multi_publish2/base_hooks/collector.py:41-68 | the controller's loop builds exactly the rows of the usable entries, in order |
| Collector.NonNone | python/tk_multi_publish2/base_hooks/collector.py:82-83 | exactly the values that are not None |
| Collector.SeveralDistinctIffNotAllSame | python/tk_multi_publish2/base_hooks/collector.py:88-95 | more than one distinct value exactly when the values disagree, and at least one when there is a value |
| Collector.PropertyValues | python/tk_multi_publish2/base_hooks/collector.py:82 | one value per item: its property, or None |
| Collector.Aggregate | python/tk_multi_publish2/base_hooks/collector.py:81-100 | no value present gives None. Two present values that differ give MultiplesValue. Present values that all agree give that value. The type is the declared one, else the first present value's type |
| Collector.AggregateAsWritten | python/tk_multi_publish2/base_hooks/collector.py:81-100 | as written, fails with IndexError exactly when no value is present, and otherwise agrees with Aggregate |
| Collector.AllNoneSelectionFailsAsWritten | python/tk_multi_publish2/base_hooks/collector.py:87-98 | two items without the property: IndexError as written, None as intended |
| Collector.PropertyWidget.constructor | python/tk_multi_publish2/base_hooks/collector.py:77-103 | the widget starts with the aggregated value and value type of its items' property |
| Collector.Normalise | python/tk_multi_publish2/base_hooks/collector.py:133-145 | NoneValue and "" become None; MultiplesValue and values of the declared type pass; a string of another type is converted by the host; any other type is a TypeError naming both types |
| Collector.NormalisedValueIsTyped | python/tk_multi_publish2/base_hooks/collector.py:133-145 | when the host converts to the requested type, a stored value is None, MultiplesValue or of the declared type |
| Collector.NormaliseIsIdempotent | python/tk_multi_publish2/base_hooks/collector.py:133-145 | normalising a stored value other than None again gives it back |
| Collector.PropertyWidget.UpdateValue | python/tk_multi_publish2/base_hooks/collector.py:124-170 | a failed conversion leaves every item untouched. Otherwise the normalised value is stored, and every item's property becomes it, unless it is MultiplesValue, in which case no item changes |
| Collector.FieldValues | python/tk_multi_publish2/base_hooks/collector.py:412 | each field's value under its key |
| Collector.ContextAsFields | python/tk_multi_publish2/base_hooks/collector.py:396-397 | fields from the context are of type "str", not editable and not missing |
| Collector.Merge | python/tk_multi_publish2/base_hooks/collector.py:388-409 | only incoming keys of the template are added; a new key takes the incoming field; a known key with a different value becomes MultiplesValue and not missing; every other field is kept; fields stay under their own names |
| Collector.MergeIsIdempotent | python/tk_multi_publish2/base_hooks/collector.py:388-409 | merging the same fields twice is merging them once |
| Collector.AddMissingAsWritten | python/tk_multi_publish2/base_hooks/collector.py:411-421 | as written, new missing keys become empty, editable, missing fields, and every existing field is left as it is |
| Collector.AddMissing | python/tk_multi_publish2/base_hooks/collector.py:411-421 | new missing keys become empty, editable, missing fields; a missing key that holds a value becomes MultiplesValue and missing; other fields are kept; fields stay under their own names |
| Collector.FilledMissingKeyStaysUnflaggedAsWritten | python/tk_multi_publish2/base_hooks/collector.py:415-418 | a field filled from the context but reported missing stays unflagged as written, and is flagged as intended |
| Collector.Override | python/tk_multi_publish2/base_hooks/collector.py:424-426 | gathered keys are kept; a field already set through the widget wins; fields stay under their own names |
| Collector.Relevant | python/tk_multi_publish2/base_hooks/collector.py:358-359 | exactly the settings whose name contains the template source setting name |
| Collector.Step | python/tk_multi_publish2/base_hooks/collector.py:357-426 | an item without exactly one relevant setting, or whose setting is None, adds nothing; an unknown template raises TankMissingTemplateError with the name; otherwise no gathered key is lost |
| Collector.Gather | python/tk_multi_publish2/base_hooks/collector.py:356-429 | gathering over the items never loses a key gathered so far |
| Collector.GatherStaysWithinTemplates | python/tk_multi_publish2/base_hooks/collector.py:376-421 | when the host reports only template keys missing, every gathered key belongs to some item's template |
| Collector.StepKeepsFieldsWellNamed | python/tk_multi_publish2/base_hooks/collector.py:388-426 | one item keeps every field under its own name |
| Collector.GatherKeepsFieldsWellNamed | python/tk_multi_publish2/base_hooks/collector.py:356-429 | gathering keeps every field under its own name when the caches and widget fields do |
| Collector.FieldsWidget.constructor | python/tk_multi_publish2/base_hooks/collector.py:186-197 | the property widget's value and type, no fields, and "publish_path_template" as the default template source setting |
| Collector.FieldsWidget.GatherFields | python/tk_multi_publish2/base_hooks/collector.py:349-429 | the fields become the gathering over all items, with the widget's earlier fields overriding; a missing template raises and leaves the fields as they were; fields stay under their own names |
| Collector.Flatten | python/tk_multi_publish2/base_hooks/collector.py:460-467 | every field is passed; a MultiplesValue field becomes "{name}" and is exactly one of the ignored types; every other field passes its value |
| Collector.FlattenWithoutConflicts | python/tk_multi_publish2/base_hooks/collector.py:460-467 | without conflicts, the template sees exactly the fields' values and ignores nothing |
| Collector.FieldsWidget.ResolveTemplateValue | python/tk_multi_publish2/base_hooks/collector.py:431-470 | None gives NoneStr; MultiplesValue gives MultiplesStr; a missing field gives the missing-values message; an unknown template raises; otherwise the template applied to the flattened fields |
| Collector.EditedField | python/tk_multi_publish2/base_hooks/collector.py:331-332 | the edited field takes the new value and is no longer missing; every other field is kept |
| Collector.EditingLastMissingFieldCompletes | python/tk_multi_publish2/base_hooks/collector.py:331-332 | filling in the last missing field leaves no field missing and all fields under their own names |
| Collector.Written | python/tk_multi_publish2/base_hooks/collector.py:474-481 | exactly the editable fields whose value is not MultiplesValue, with their values |
| Collector.CacheWritesOnlyEditableValues | python/tk_multi_publish2/base_hooks/collector.py:474-481 | caching writes only editable, settled values into the item's property, keeping its other entries and all other properties |
| Collector.AsCached | python/tk_multi_publish2/base_hooks/collector.py:491-493 | the item's fields as cached: same keys and values, type "str", editable, not missing |
| Collector.CachingKeepsCacheWellNamed | python/tk_multi_publish2/base_hooks/collector.py:486-497 | a setting's cache stays stored under field names after caching |
| Collector.CacheOnSettings | python/tk_multi_publish2/base_hooks/collector.py:484-497 | every template setting's cache becomes its old cache with the item's fields laid over it; other settings and all values are untouched |
| Collector.CacheItem | python/tk_multi_publish2/base_hooks/collector.py:474-497 | one item's property and its template settings' caches are as cache_data leaves them |
| Collector.FieldsWidget.CacheData | python/tk_multi_publish2/base_hooks/collector.py:472-497 | every item and its template settings are as cache_data leaves them |
| Collector.FieldsWidget.UpdateField | python/tk_multi_publish2/base_hooks/collector.py:280-345 | a field the widget does not show is ignored. A failed conversion raises and changes nothing. Otherwise the field takes the normalised value, is no longer missing, and the data is cached. Fields stay under their own names |

## Left out

- Qt: layouts, signals and their connections, `blockSignals`, `refresh_ui`, the value and field editor widgets, and `__init__`'s flags. `PropertyWidget.update_value` re-displaying a value sent from another widget is not modelled.
- Logging, including the debug message for a falsy setting, is not modelled. So is the error logging of the plugin instance and of the collector.
- `TreeNodeBase` is not part of this model. Its `enabled` is taken to be "the node's check data is not Unchecked" (`TaskTree.TreeNodeTask.Enabled`), which is what makes `create_summary` list the ticked tasks. `set_status` is taken to clear the message. `_set_status_upwards` is taken to set the status and message on the node and on each ancestor's widget.
- TaskTree.TreeNodeTask.SetCheckState: `TreeNodeBase.set_check_state` is taken to change only the node's check data. The embedded widget's checkbox is left as it was, and the checking of parents and children that Qt drives from the check data is not modelled.
- TaskTree.TreeNodeTask.Validate: returns the truthiness of the task's status rather than the status object itself.
- Python 2's mixed-type ordering in the reverse sort of `PropertyWidget.__init__` is not modelled. The value type is taken from the first value present in item order, rather than from the largest value.
- Python equalities across types (`1 == True`) and the TypeError for an unhashable value inside a list are not modelled. Lists and dictionaries compare structurally.
- Collector.FieldsWidget.constructor: the calls to `gather_fields` and `cache_data` that end `FieldsWidget.__init__` are left to the caller (`GatherFields`, then `CacheData`), together with the `relevant_task_settings` it computes and never uses. `FieldsWidget.update_value`, which re-gathers and re-caches when the template name changes, is those same two calls.
- Collector.FieldsWidget.ResolveTemplateValue: returns the resolved text instead of storing it. It requires the widget's fields to be stored under their own names (`Valid`), which every method of the widget keeps; the flattening then keys each value by the field's name, as the source does. `ignore_types` is a set rather than a list, because the field names are distinct.
- Collector.Step: an `as_template_fields` failure other than TankError propagates in the source. Here the host's context fields are either present or absent (TankError).
- Collector.FieldsWidget.CacheData: requires each item's property to be a dictionary. It also requires each item with a template setting to have a "fields" dictionary with a "version". The source raises mid-way when these do not hold. It also requires the items to be distinct objects that share no task setting (`Separate`), so that caching one item cannot overwrite another's cache.
- Collector.PropertyWidget.constructor: uses the corrected `Aggregate`, so a selection whose items all lack the property shows None, where the source raises IndexError (see "## Findings").
- Collector.FieldsWidget.constructor: uses the corrected `Aggregate`, as `Collector.PropertyWidget.constructor` does.
- Collector.Step: uses the corrected `AddMissing`, so a field that is already filled and is reported missing becomes MultiplesValue and missing, where the source leaves it as it was (see "## Findings").
- Collector.Gather: uses the corrected `AddMissing` through `Collector.Step`.
- Collector.FieldsWidget.GatherFields: uses the corrected `AddMissing` through `Collector.Gather`.
- Collector.Gather: dictionary iteration order is not modelled. The merged result does not depend on it, except for which conflicting value is seen first, and a conflict is MultiplesValue either way.
- Item properties are dictionaries; the source's attribute access on `item.properties` (`is_sequence`, `path`) reads as `Get(..., NoneVal)`.
- CreateVersion.FrameRange: the error for a `sequence_paths` that is not a list is only stated to be an error. `get_frame_number` and `int()` are one host function.
- `os.path.exists`, `get_frame_number` and `convert_string_to_type` are parameters.
- `render_and_submit_path`, `change_context`, the colour space, the thumbnail and storing `sg_version_data` are not modelled, nor is `finalize` of the hooks.
- `PropertiesWidgetController.__init__` pops "name" and "type" from the configured dictionaries in place. The rows hold the remaining entries, but the shared dictionaries are not shown being changed.
- `copy.deepcopy` and `copy.copy` are value semantics, so the model cannot express aliasing between the copy and the original.
- `create_plugin_setting` and `_create_hook_instance` are not part of this model. A created setting is its name, configured value and schema entry.
- The DCC hooks (Houdini, Nuke, Mari), the abstract basic publish session hook, the base hook property holder and the app's start-up are not part of this model.

## Findings

| source | as written | input that shows it | evidently intended | confidence | as-written member | corrected member |
|---|---|---|---|---|---|---|
| python/tk_multi_publish2/api/plugins/setting.py:81 | `TankError` is raised but never imported, so the intended error becomes a NameError | a context other than the application's, for which `find_app_settings` returns no record | TankError "Cannot find settings for <app> for context <context>" | not executed | Setting.NoCandidateFailsOnTankErrorName | Setting.SelectSettings |
| python/tk_multi_publish2/api/plugins/setting.py:94 | with several records and none named after the instance, `app_settings` is read unbound, and the TankError at line 95 is unreachable and unimported | two records with instance names "a" and "b", and a current instance named otherwise | TankError listing "a, b" as too many results | not executed | Setting.AmbiguousCandidatesReadUnboundName | Setting.SelectSettings |
| python/tk_multi_publish2/base_hooks/collector.py:87 | the default `type(values[0]).__name__` of `kwargs.pop` is evaluated even when a type is given, so the `num_values < 1` branch at line 97 is unreachable | a selection of items that all lack the property, with type "str" configured | the value None | not executed | Collector.AllNoneSelectionFailsAsWritten | Collector.Aggregate |
| python/tk_multi_publish2/base_hooks/collector.py:417 | `fields[k]._replace(...)` builds a new field and discards it, so a present key reported missing keeps its value and is not flagged | a field "shot" filled from the context and reported missing by the template | the field marked MultiplesValue and missing | not executed | Collector.FilledMissingKeyStaysUnflaggedAsWritten | Collector.AddMissing |
