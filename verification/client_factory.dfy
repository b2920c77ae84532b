/**
  `LLMClientFactory`: the loaded configuration, the default provider and
  model, and client creation through the provider registry.

  Creating a client resolves the provider and the model, falling back on
  the defaults.  Both are resolved before anything is attempted, and a
  missing name fails there.  A failure while building the client is
  retried once against the mock provider and model.  That happens only if
  the configuration enables `fallback_to_mock` and the failed provider was
  not `mock` already; the retry asks for `mock`, so it cannot fall back
  again.  The registry is threaded through, since building caches
  providers.
 */
module ClientFactory {

  import opened Base
  import opened Dict
  import opened Json
  import opened Errors
  import opened LlmFacade
  import opened LlmProvider
  import opened ProviderFactory
  import opened ConfigLoader
  import Interactions
  import LlmClient

  /** The factory's state; `JNull` stands for Python's `None`. */
  datatype Factory = Factory(config: Json, defaultProvider: Json, defaultModel: Json)

  /** A factory before any configuration is loaded. */
  const Unconfigured: Factory := Factory(JNull, JNull, JNull)

  /** `load_config(path)` given what reading the file produces.  A file
      that cannot be read or parsed raises and changes nothing.  A parsed
      file becomes the configuration at once; the defaults are then read
      from its `defaults` entry, falling back on `mock` and `mock-model`,
      and a configuration that is not a dict raises with only the
      configuration replaced. */
  function LoadConfig(cf: Factory, path: string, file: FileState<Json>): (r: (Factory, Option<Exc>))
    ensures !file.Parsed? ==> r == (cf, Some(Unreadable(path)))
    ensures file.Parsed? ==> r.0.config == file.content
    ensures file.Parsed? && r.1.Some? ==> r.0 == cf.(config := file.content) && r.1.value.Py?
    ensures file.Parsed? && r.1.None? ==>
              && file.content.JObj?
              && var defaults := GetOr(file.content.fields, "defaults", JObj([]));
                 && defaults.JObj?
                 && r.0.defaultProvider == GetOr(defaults.fields, "provider", JStr("mock"))
                 && r.0.defaultModel == GetOr(defaults.fields, "model", JStr("mock-model"))
  {
    match file
    case Parsed(config) =>
      var cf1 := cf.(config := config);
      (match PyGet(config, "defaults", JObj([]))
       case Err(e) => (cf1, Some(Py(e)))
       case Ok(defaults) =>
         match PyGet(defaults, "provider", JStr("mock"))
         case Err(e) => (cf1, Some(Py(e)))
         case Ok(provider) =>
           var model := PyGet(defaults, "model", JStr("mock-model")).value;
           (cf1.(defaultProvider := provider, defaultModel := model), None))
    case _ => (cf, Some(Unreadable(path)))
  }

  /** `set_defaults(provider, model)`. */
  function SetDefaults(cf: Factory, provider: Json, model: Json): (r: Factory)
    ensures r.config == cf.config && r.defaultProvider == provider && r.defaultModel == model
  {
    cf.(defaultProvider := provider, defaultModel := model)
  }

  /** The parameters `create_facade(self, model_name, **kwargs)` binds
      positionally. */
  const FacadeBound: seq<string> := ["self", "model_name"]

  /** The body of `create_client`'s `try`: look the provider up (a name
      that is not a string has no `lower`), check that it supports the
      model, create the facade and wrap it in a client. */
  function Attempt(reg: Registry, env: Dict<string>, name: Json, model: Json, apiKey: Json,
                   historySize: Json, kwargs: Dict<Json>): (r: (Registry, Result<LlmClient.Client, Exc>))
    ensures !name.JStr? ==> r == (reg, Err(Py(AttributeError("lower"))))
    ensures name.JStr? ==>
              var (reg1, lookup) := GetProvider(reg, name.s, apiKey, GetOr(kwargs, "provider_config", JNull), true, env);
              && r.0 == reg1
              && (lookup.Err? ==> r.1 == Err(lookup.error))
              && (lookup.Ok? && !SupportsModel(lookup.value, model) ==>
                    r.1 == Err(ModelNotSupported(model, name.s, AvailableModels(lookup.value))))
              && (r.1.Ok? ==> lookup.Ok? && SupportsModel(lookup.value, model)
                              && Clash(kwargs, FacadeBound).None?
                              && CreateFacade(lookup.value, model.s, kwargs).Ok?
                              && r.1.value.facade == CreateFacade(lookup.value, model.s, kwargs).value
                              && Interactions.New(historySize) == Ok(r.1.value.history)
                              && r.1.value.defaults == [])
  {
    if !name.JStr? then (reg, Err(Py(AttributeError("lower"))))
    else
      var (reg1, lookup) := GetProvider(reg, name.s, apiKey, GetOr(kwargs, "provider_config", JNull), true, env);
      match lookup
      case Err(e) => (reg1, Err(e))
      case Ok(p) =>
        if !SupportsModel(p, model) then (reg1, Err(ModelNotSupported(model, name.s, AvailableModels(p))))
        else match Clash(kwargs, FacadeBound)
          case Some(e) => (reg1, Err(e))
          case None =>
            match CreateFacade(p, model.s, kwargs)
            case Err(e) => (reg1, Err(e))
            case Ok(facade) => (reg1, LlmClient.New(facade, historySize))
  }

  /** `name if name is not None else default`. */
  function Resolve(name: Json, default: Json): (r: Json)
    ensures !name.JNull? ==> r == name
    ensures name.JNull? ==> r == default
  {
    if name.JNull? then default else name
  }

  /** Whether a failure is retried against the mock provider: the
      configuration is loaded, enables `fallback_to_mock`, and the failed
      provider was not `mock`.  Reading the flag from a configuration that
      is not a dict raises. */
  function FallsBack(cf: Factory, name: Json): (r: Result<bool, Exc>)
    ensures !Truthy(cf.config) ==> r == Ok(false)
    ensures Truthy(cf.config) && !cf.config.JObj? ==> r == Err(Py(AttributeError("get")))
    ensures r == Ok(true) <==>
              cf.config.JObj? && Truthy(cf.config) && Truthy(GetOr(cf.config.fields, "fallback_to_mock", JBool(false)))
              && name != JStr("mock")
  {
    if !Truthy(cf.config) then Ok(false)
    else match PyGet(cf.config, "fallback_to_mock", JBool(false))
      case Err(e) => Err(Py(e))
      case Ok(flag) => Ok(Truthy(flag) && name != JStr("mock"))
  }

  /** `create_client(provider_name, model_name, api_key, history_size,
      **kwargs)`. */
  function CreateClient(cf: Factory, reg: Registry, env: Dict<string>, providerName: Json, modelName: Json,
                        apiKey: Json, historySize: Json, kwargs: Dict<Json>): (r: (Registry, Result<LlmClient.Client, Exc>))
    ensures Resolve(providerName, cf.defaultProvider).JNull? ==> r == (reg, Err(NoProviderSpecified))
    ensures !Resolve(providerName, cf.defaultProvider).JNull? && Resolve(modelName, cf.defaultModel).JNull?
            ==> r == (reg, Err(NoModelSpecified))
    ensures var name := Resolve(providerName, cf.defaultProvider);
            var model := Resolve(modelName, cf.defaultModel);
            var first := Attempt(reg, env, name, model, apiKey, historySize, kwargs);
            !name.JNull? && !model.JNull? ==>
              && (first.1.Ok? ==> r == first)
              && (first.1.Err? && FallsBack(cf, name) == Ok(false) ==> r == first)
              && (first.1.Err? && FallsBack(cf, name).Err? ==> r == (first.0, Err(FallsBack(cf, name).error)))
              && (first.1.Err? && FallsBack(cf, name) == Ok(true) ==>
                    r == Attempt(first.0, env, JStr("mock"), JStr("mock-model"), JNull, historySize, []))
  {
    var name := Resolve(providerName, cf.defaultProvider);
    if name.JNull? then (reg, Err(NoProviderSpecified))
    else
      var model := Resolve(modelName, cf.defaultModel);
      if model.JNull? then (reg, Err(NoModelSpecified))
      else
        var first := Attempt(reg, env, name, model, apiKey, historySize, kwargs);
        if first.1.Ok? then first
        else match FallsBack(cf, name)
          case Err(e) => (first.0, Err(e))
          case Ok(retry) =>
            if retry then Retry(cf, first.0, env, historySize)
            else first
  }

  /** The retry: `create_client('mock', 'mock-model', history_size=...)`,
      whose own failure is re-raised because its provider is `mock`.  The
      configuration was read as a dict just before. */
  function Retry(cf: Factory, reg: Registry, env: Dict<string>, historySize: Json): (r: (Registry, Result<LlmClient.Client, Exc>))
    requires cf.config.JObj?
    ensures r == Attempt(reg, env, JStr("mock"), JStr("mock-model"), JNull, historySize, [])
  {
    var again := Attempt(reg, env, JStr("mock"), JStr("mock-model"), JNull, historySize, []);
    if again.1.Ok? then again
    else match FallsBack(cf, JStr("mock"))
      case Err(e) =>
        assert false; again
      case Ok(retry) =>
        assert !retry;
        again
  }

  /** `get_provider_models(provider_name)`: the catalog of the provider the
      registry returns (caching it), `[]` on any error. */
  function ProviderModels(reg: Registry, env: Dict<string>, name: Json): (r: (Registry, seq<string>))
    ensures !name.JStr? ==> r == (reg, [])
    ensures name.JStr? ==>
              var (reg1, lookup) := GetProvider(reg, name.s, JNull, JNull, true, env);
              r.0 == reg1 && r.1 == (if lookup.Ok? then AvailableModels(lookup.value) else [])
  {
    if !name.JStr? then (reg, [])
    else
      var (reg1, lookup) := GetProvider(reg, name.s, JNull, JNull, true, env);
      (reg1, if lookup.Ok? then AvailableModels(lookup.value) else [])
  }

  // ---------------------------------------------------------------------
  // Lemmas.

  /** Without a provider name or a default one, creation fails before any
      lookup, and no fallback applies whatever the configuration says. */
  lemma NoProviderNeverFallsBack(cf: Factory, reg: Registry, env: Dict<string>, modelName: Json,
                                 apiKey: Json, historySize: Json, kwargs: Dict<Json>)
    requires cf.defaultProvider.JNull?
    ensures CreateClient(cf, reg, env, JNull, modelName, apiKey, historySize, kwargs) == (reg, Err(NoProviderSpecified))
  {
  }

  /** A request for `mock` that fails is never retried: the failure of the
      attempt is the answer (unless reading the flag raises). */
  lemma MockNeverRetried(cf: Factory, reg: Registry, env: Dict<string>, modelName: Json,
                         apiKey: Json, historySize: Json, kwargs: Dict<Json>)
    requires cf.config.JObj? || !Truthy(cf.config)
    requires !Resolve(modelName, cf.defaultModel).JNull?
    ensures CreateClient(cf, reg, env, JStr("mock"), modelName, apiKey, historySize, kwargs)
            == Attempt(reg, env, JStr("mock"), Resolve(modelName, cf.defaultModel), apiKey, historySize, kwargs)
  {
  }

  /** A created client is bound to the requested model of the provider as
      it was named, starts with an empty history and no defaults. */
  lemma CreatedClient(reg: Registry, env: Dict<string>, name: string, model: Json, apiKey: Json,
                      historySize: Json, kwargs: Dict<Json>)
    requires Attempt(reg, env, JStr(name), model, apiKey, historySize, kwargs).1.Ok?
    ensures var c := Attempt(reg, env, JStr(name), model, apiKey, historySize, kwargs).1.value;
            && model == JStr(c.facade.modelName)
            && c.facade.providerName
               == GetProvider(reg, name, apiKey, GetOr(kwargs, "provider_config", JNull), true, env).1.value.name
            && Interactions.IsEmpty(c.history) && c.defaults == []
  {
  }

  /** Loading a configuration without a `defaults` entry sets the defaults
      to `mock` and `mock-model`. */
  lemma MockDefaults(cf: Factory, path: string, fields: Dict<Json>)
    requires !HasKey(fields, "defaults")
    ensures LoadConfig(cf, path, Parsed(JObj(fields))) == (Factory(JObj(fields), JStr("mock"), JStr("mock-model")), None)
  {
    assert GetOr([], "provider", JStr("mock")) == JStr("mock");
  }

  /** After `set_defaults`, a creation without names uses them. */
  lemma DefaultsUsed(cf: Factory, reg: Registry, env: Dict<string>, provider: string, model: string,
                     apiKey: Json, historySize: Json, kwargs: Dict<Json>)
    ensures var cf1 := SetDefaults(cf, JStr(provider), JStr(model));
            var first := Attempt(reg, env, JStr(provider), JStr(model), apiKey, historySize, kwargs);
            first.1.Ok? ==> CreateClient(cf1, reg, env, JNull, JNull, apiKey, historySize, kwargs) == first
  {
  }
}
