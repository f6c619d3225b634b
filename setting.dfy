/** Plugin settings and their resolution in a given context
    (python/tk_multi_publish2/api/plugins/setting.py). */
module Setting {
  import opened Values

  /** A setting exposed to a publish task. `value` starts at the default and
      may be overwritten later by settings resolution. */
  class PluginSetting {
    var defaultValue: Value
    var description: Value
    var name: string
    var dataType: string
    var value: Value

    constructor (name: string, dataType: string, defaultValue: Value, description: Value)
      ensures this.defaultValue == defaultValue && this.description == description
      ensures this.name == name && this.dataType == dataType
      ensures value == defaultValue
    {
      this.defaultValue := defaultValue;
      this.description := description;
      this.name := name;
      this.dataType := dataType;
      this.value := defaultValue;
    }

    /** The current value as text: Python's str() of it. */
    ghost function StringValue(): (s: string)
      reads this
      ensures s == Str(value)
      ensures value.StrVal? ==> s == value.s
      ensures value.IntVal? ==> ParseInt(s) == value.i
    {
      if value.IntVal? then IntStrRoundTrip(value.i); Str(value) else Str(value)
    }
  }

  /** An execution context; only compared, never looked into. */
  datatype Context = Context(id: string)

  /** One record of the host's find_app_settings result: the environment,
      engine and application instance names and the raw settings. */
  datatype SettingsRecord =
    SettingsRecord(envInstance: string, engineInstance: string, appInstance: string, settings: map<string, Value>)

  /** An application instance of the publisher: its names, its context, its
      descriptor's configuration schema and its raw settings. */
  datatype App =
    App(name: string, instanceName: string, engineName: string, context: Context,
        schema: map<string, Value>, settings: map<string, Value>)

  /** `context or app.context`. */
  function EffectiveContext(context: Option<Context>, app: App): (c: Context)
    ensures context.None? ==> c == app.context
    ensures context.Some? ==> c == context.value
  {
    context.GetOr(app.context)
  }

  function CannotFindMessage(app: App, context: Context): string {
    "Cannot find settings for " + app.name + " for context " + context.id
  }

  function TooManyMessage(app: App, context: Context, candidates: seq<SettingsRecord>): string {
    "Search for " + app.name + " settings for context " + context.id + " yielded too many results ("
      + Join(InstanceNames(candidates)) + "), none named '" + app.instanceName + "'"
  }

  /** The application instance name of every candidate, in order. */
  function InstanceNames(candidates: seq<SettingsRecord>): (names: seq<string>)
    ensures |names| == |candidates|
    ensures forall i | 0 <= i < |candidates| :: names[i] == candidates[i].appInstance
  {
    seq(|candidates|, i requires 0 <= i < |candidates| => candidates[i].appInstance)
  }

  /** The position of the first candidate whose application instance is named
      `instanceName`, if any. */
  function FirstNamed(candidates: seq<SettingsRecord>, instanceName: string): (r: Option<nat>)
    ensures r.Some? ==> r.value < |candidates| && candidates[r.value].appInstance == instanceName
    ensures r.Some? ==> forall j | 0 <= j < r.value :: candidates[j].appInstance != instanceName
    ensures r.None? <==> forall j | 0 <= j < |candidates| :: candidates[j].appInstance != instanceName
    decreases |candidates|
  {
    if candidates == [] then None
    else if candidates[0].appInstance == instanceName then Some(0)
    else
      match FirstNamed(candidates[1..], instanceName)
      case Some(i) => Some(i + 1)
      case None => None
  }

  /** Picks the settings record to use among the candidates found for a
      context other than the current one. */
  function SelectSettings(candidates: seq<SettingsRecord>, app: App, context: Context): (r: Result<SettingsRecord>)
    ensures |candidates| == 0 ==> r == Err(TankError(CannotFindMessage(app, context)))
    ensures |candidates| == 1 ==> r == Ok(candidates[0])
    ensures |candidates| > 1 ==>
      (r.Ok? <==> exists j | 0 <= j < |candidates| :: candidates[j].appInstance == app.instanceName)
    ensures |candidates| > 1 && r.Ok? ==>
      exists i | 0 <= i < |candidates| :: r.value == candidates[i] && candidates[i].appInstance == app.instanceName
        && forall j | 0 <= j < i :: candidates[j].appInstance != app.instanceName
    ensures |candidates| > 1 && r.Err? ==> r.error == TankError(TooManyMessage(app, context, candidates))
  {
    if |candidates| == 0 then Err(TankError(CannotFindMessage(app, context)))
    else if |candidates| > 1 then
      match FirstNamed(candidates, app.instanceName)
      case Some(i) => Ok(candidates[i])
      case None => Err(TankError(TooManyMessage(app, context, candidates)))
    else Ok(candidates[0])
  }

  /** The selection as written: the module never imports TankError, so the
      zero-match case fails on that name, and with several candidates none of
      which matches, `app_settings` is read before it was ever bound. */
  function SelectSettingsAsWritten(candidates: seq<SettingsRecord>, app: App, context: Context): (r: Result<SettingsRecord>)
    ensures |candidates| == 0 ==> r == Err(NameError("TankError"))
    ensures |candidates| > 1 && FirstNamed(candidates, app.instanceName).None? ==> r == Err(NameError("app_settings"))
    ensures r.Ok? ==> r == SelectSettings(candidates, app, context)
    ensures |candidates| == 1 || (|candidates| > 1 && FirstNamed(candidates, app.instanceName).Some?) ==>
      r == SelectSettings(candidates, app, context)
  {
    if |candidates| == 0 then Err(NameError("TankError"))
    else if |candidates| > 1 then
      match FirstNamed(candidates, app.instanceName)
      case Some(i) => Ok(candidates[i])
      case None => Err(NameError("app_settings"))
    else Ok(candidates[0])
  }

  /** No candidate: the intended "Cannot find settings" error is replaced by a
      failure on the unbound name TankError. */
  lemma NoCandidateFailsOnTankErrorName(app: App, context: Context)
    ensures SelectSettingsAsWritten([], app, context) == Err(NameError("TankError"))
    ensures SelectSettings([], app, context) == Err(TankError(CannotFindMessage(app, context)))
  {
  }

  /** Two candidates, neither named after the current instance: the code as
      written reads the unbound `app_settings`, while the intended behaviour is
      the "too many results" error naming both candidates. */
  lemma AmbiguousCandidatesReadUnboundName(app: App, context: Context, settings: map<string, Value>)
    requires app.instanceName != "a" && app.instanceName != "b"
    ensures
      var candidates := [SettingsRecord("env", "engine", "a", settings), SettingsRecord("env", "engine", "b", settings)];
      SelectSettingsAsWritten(candidates, app, context) == Err(NameError("app_settings"))
      && SelectSettings(candidates, app, context).Err?
      && InstanceNames(candidates) == ["a", "b"]
  {
    var candidates := [SettingsRecord("env", "engine", "a", settings), SettingsRecord("env", "engine", "b", settings)];
    assert FirstNamed(candidates, app.instanceName).None?;
  }

  /** The application instance to resolve against: the current one when the
      context is its own, otherwise one built from the selected record. */
  function ChooseApp(context: Option<Context>, app: App,
                     findAppSettings: Context -> seq<SettingsRecord>,
                     getApplication: (App, SettingsRecord, Context) -> App): (r: Result<App>)
    ensures EffectiveContext(context, app) == app.context ==> r == Ok(app)
    ensures EffectiveContext(context, app) != app.context ==>
      var ctx := EffectiveContext(context, app);
      var selected := SelectSettings(findAppSettings(ctx), app, ctx);
      (r.Err? <==> selected.Err?)
      && (selected.Err? ==> r.error == selected.error)
      && (selected.Ok? ==> r.value == getApplication(app, selected.value, ctx))
  {
    var ctx := EffectiveContext(context, app);
    if ctx == app.context then Ok(app)
    else
      var record :- SelectSettings(findAppSettings(ctx), app, ctx);
      Ok(getApplication(app, record, ctx))
  }

  /** In the current application's own context no settings search happens:
      the result does not depend on the host lookups at all. */
  lemma CurrentContextNeedsNoLookup(context: Option<Context>, app: App,
                                    find1: Context -> seq<SettingsRecord>, find2: Context -> seq<SettingsRecord>,
                                    get1: (App, SettingsRecord, Context) -> App, get2: (App, SettingsRecord, Context) -> App)
    requires context.None? || context.value == app.context
    ensures ChooseApp(context, app, find1, get1) == ChooseApp(context, app, find2, get2) == Ok(app)
  {
  }

  /** The plugin's schema laid over a copy of the application's schema. */
  function MergeSchema(base: map<string, Value>, pluginSchema: map<string, Value>): (merged: map<string, Value>)
    ensures merged.Keys == base.Keys + pluginSchema.Keys
    ensures forall k | k in pluginSchema :: merged[k] == pluginSchema[k]
    ensures forall k | k in base && k !in pluginSchema :: merged[k] == base[k]
  {
    base + pluginSchema
  }

  /** get_plugin_setting: resolves `settingsKey` for a context. The host's
      resolve_setting_value is `resolveSettingValue`; whatever it returns or
      raises is passed on unchanged, a falsy value included. */
  function GetPluginSetting(settingsKey: string, context: Option<Context>, pluginSchema: map<string, Value>,
                            validate: bool, app: App,
                            findAppSettings: Context -> seq<SettingsRecord>,
                            getApplication: (App, SettingsRecord, Context) -> App,
                            resolveSettingValue: (App, Value, string, bool) -> Result<Value>): (r: Result<Value>)
    ensures var chosen := ChooseApp(context, app, findAppSettings, getApplication);
      && (chosen.Err? ==> r == Err(chosen.error))
      && (chosen.Ok? ==>
            var schema := MergeSchema(chosen.value.schema, pluginSchema);
            (settingsKey !in schema ==> r == Err(KeyError(settingsKey)))
            && (settingsKey in schema ==>
                  r == resolveSettingValue(chosen.value, schema[settingsKey], settingsKey, validate)))
  {
    var appObj :- ChooseApp(context, app, findAppSettings, getApplication);
    var schema := MergeSchema(appObj.schema, pluginSchema);
    if settingsKey !in schema then Err(KeyError(settingsKey))
    else resolveSettingValue(appObj, schema[settingsKey], settingsKey, validate)
  }

  /** A falsy resolved value is a legitimate outcome: it is returned, not
      turned into an error. */
  lemma FalsyValueIsReturned(settingsKey: string, pluginSchema: map<string, Value>, validate: bool, app: App,
                             findAppSettings: Context -> seq<SettingsRecord>,
                             getApplication: (App, SettingsRecord, Context) -> App,
                             resolveSettingValue: (App, Value, string, bool) -> Result<Value>)
    requires settingsKey in pluginSchema
    requires resolveSettingValue(app, pluginSchema[settingsKey], settingsKey, validate).Ok?
    requires !Truthy(resolveSettingValue(app, pluginSchema[settingsKey], settingsKey, validate).value)
    ensures var r := GetPluginSetting(settingsKey, None, pluginSchema, validate, app,
                                      findAppSettings, getApplication, resolveSettingValue);
      r.Ok? && !Truthy(r.value)
  {
  }
}
