/** Construction of a plugin instance's settings from its hook's schema and
    the settings configured for its context
    (python/tk_multi_publish2/api/plugins/instance_base.py). */
module InstanceBase {
  import opened Values

  /** The logger a plugin instance writes to. */
  datatype Logger = ManagerLogger(id: string) | ModuleLogger

  /** A setting as create_plugin_setting receives it: the setting's name, its
      configured value (None when the context configures none) and its schema
      entry. create_plugin_setting itself is not part of this model. */
  datatype CreatedSetting = CreatedSetting(name: string, configuredValue: Value, schema: Value)

  /** The logger choice: the publish manager's logger when it has one. */
  function ChooseLogger(managerLogger: Option<string>): (l: Logger)
    ensures managerLogger.Some? ==> l == ManagerLogger(managerLogger.value)
    ensures managerLogger.None? ==> l == ModuleLogger
  {
    match managerLogger
    case Some(id) => ManagerLogger(id)
    case None => ModuleLogger
  }

  /** The base class's get_settings_for_context: always NotImplementedError.
      A subclass's lookup gives a dictionary, or None. */
  function BaseGetSettingsForContext(context: string): (r: Result<Option<map<string, Value>>>)
    ensures r == Err(NotImplementedError)
  {
    Err(NotImplementedError)
  }

  /** The configured settings kept after the context lookup: its result (a
      dictionary or None), or the empty dictionary the constructor started
      with when it raised. */
  function ConfiguredAfter(lookup: Result<Option<map<string, Value>>>): (c: Option<map<string, Value>>)
    ensures lookup.Ok? ==> c == lookup.value
    ensures lookup.Err? ==> c == Some(map[])
  {
    if lookup.Ok? then lookup.value else Some(map[])
  }

  /** The setting built for one schema key. */
  function SettingFor(name: string, schemaEntry: Value, configured: map<string, Value>): (s: CreatedSetting)
    ensures s.name == name && s.schema == schemaEntry
    ensures name in configured ==> s.configuredValue == configured[name]
    ensures name !in configured ==> s.configuredValue == NoneVal
  {
    CreatedSetting(name, Get(configured, name, NoneVal), schemaEntry)
  }

  /** With the base class's lookup nothing is configured, so every setting is
      built from None. */
  lemma BaseInstanceConfiguresNothing(context: string, name: string, schemaEntry: Value)
    ensures ConfiguredAfter(BaseGetSettingsForContext(context)) == Some(map[])
    ensures SettingFor(name, schemaEntry, ConfiguredAfter(BaseGetSettingsForContext(context)).value).configuredValue == NoneVal
  {
  }

  class PluginInstance {
    const path: string
    const context: string
    var logger: Logger
    var settingsSchema: map<string, Value>
    var configuredSettings: Option<map<string, Value>>
    var settings: map<string, CreatedSetting>

    /** The fields __init__ sets before it resolves the configuration. */
    constructor (path: string, context: string, managerLogger: Option<string>)
      ensures this.path == path && this.context == context
      ensures logger == ChooseLogger(managerLogger)
      ensures settingsSchema == map[] && configuredSettings == Some(map[]) && settings == map[]
    {
      this.path := path;
      this.context := context;
      this.logger := ChooseLogger(managerLogger);
      this.configuredSettings := Some(map[]);
      this.settings := map[];
      this.settingsSchema := map[];
    }

    /** __init__ as a whole. The hook's settings_schema is `hookSchema` (None
        when the hook raises NotImplementedError); the subclass's
        get_settings_for_context gives `lookup`. Construction fails with the
        AttributeError of `None.get` exactly when the lookup gave None and
        the schema has a key. */
    static method Create(path: string, context: string, managerLogger: Option<string>,
                         hookSchema: Option<map<string, Value>>, lookup: Result<Option<map<string, Value>>>)
      returns (r: Result<PluginInstance>)
      ensures r.Err? <==> ConfiguredAfter(lookup).None? && hookSchema.GetOr(map[]) != map[]
      ensures r.Err? ==> r.error == AttributeError("get")
      ensures r.Ok? ==> fresh(r.value)
      ensures r.Ok? ==>
        var p := r.value;
        p.path == path && p.context == context && p.logger == ChooseLogger(managerLogger)
        && p.settingsSchema == hookSchema.GetOr(map[])
        && p.configuredSettings == ConfiguredAfter(lookup)
        && p.settings.Keys == p.settingsSchema.Keys
        && forall k | k in p.settings ::
             p.configuredSettings.Some? && p.settings[k] == SettingFor(k, p.settingsSchema[k], p.configuredSettings.value)
    {
      var p := new PluginInstance(path, context, managerLogger);
      var resolved := p.ValidateAndResolveConfig(hookSchema, lookup);
      if resolved.Err? {
        return Err(resolved.error);
      }
      r := Ok(p);
    }

    /** _validate_and_resolve_config: take the hook's schema (empty when the
        hook defines none), keep the configured settings unless the lookup
        raised, and add one setting per schema key. When the lookup gave None,
        the first schema key fails on `None.get` before any setting is added. */
    method ValidateAndResolveConfig(hookSchema: Option<map<string, Value>>, lookup: Result<Option<map<string, Value>>>)
      returns (r: Result<()>)
      modifies this`settingsSchema, this`configuredSettings, this`settings
      ensures settingsSchema == hookSchema.GetOr(map[])
      ensures configuredSettings == (if lookup.Ok? then lookup.value else old(configuredSettings))
      ensures r.Err? <==> configuredSettings.None? && settingsSchema != map[]
      ensures r.Err? ==> r.error == AttributeError("get") && settings == old(settings)
      ensures r.Ok? ==> settings.Keys == old(settings).Keys + settingsSchema.Keys
      ensures r.Ok? ==> forall k | k in settingsSchema ::
        configuredSettings.Some? && settings[k] == SettingFor(k, settingsSchema[k], configuredSettings.value)
      ensures forall k | k in old(settings) && k !in settingsSchema :: settings[k] == old(settings)[k]
    {
      settingsSchema := hookSchema.GetOr(map[]);
      if lookup.Ok? {
        configuredSettings := lookup.value;
      }
      if configuredSettings.None? {
        if settingsSchema != map[] {
          return Err(AttributeError("get"));
        }
        return Ok(());
      }
      var configured := configuredSettings.value;
      var remaining := settingsSchema.Keys;
      while remaining != {}
        invariant settingsSchema == hookSchema.GetOr(map[])
        invariant configuredSettings == Some(configured) == (if lookup.Ok? then lookup.value else old(configuredSettings))
        invariant remaining <= settingsSchema.Keys
        invariant settings.Keys == old(settings).Keys + (settingsSchema.Keys - remaining)
        invariant forall k | k in settingsSchema && k !in remaining ::
          settings[k] == SettingFor(k, settingsSchema[k], configured)
        invariant forall k | k in old(settings) && k !in settingsSchema :: settings[k] == old(settings)[k]
        invariant forall k | k in old(settings) && k in remaining :: k in settings
        decreases remaining
      {
        var name :| name in remaining;
        settings := settings[name := SettingFor(name, settingsSchema[name], configured)];
        remaining := remaining - {name};
      }
      r := Ok(());
    }
  }
}
