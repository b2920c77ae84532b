/**
  `LLMSystem`, the one-per-process entry point: an uninitialised/initialised
  switch guarding the configuration loader, the provider registry and the
  client factory.

  Every `LLMSystem()` returns the same instance, so the model threads one
  `LlmSystem` value through the operations.  The provider registry and the
  client factory are themselves process-wide singletons: a failed
  `initialize` leaves their changes in place, and a later one works on the
  same registry and factory.  The configuration directory's files and the
  process environment are parameters.
 */
module System {

  import opened Base
  import opened Dict
  import opened Text
  import opened Json
  import opened Errors
  import opened LlmFacade
  import opened LlmProvider
  import opened ProviderFactory
  import opened ConfigLoader
  import opened ClientFactory
  import LlmClient
  import MockVendor
  import AnthropicVendor
  import BedrockVendor
  import TogetherVendor
  import GoogleVendor
  import HuggingFaceVendor
  import GrokVendor

  /** The singleton's state: whether `initialize` completed, the loader it
      made (`None` before the first attempt), and the two process-wide
      factories. */
  datatype LlmSystem = LlmSystem(initialized: bool, loader: Option<Loader>, registry: Registry, factory: Factory)

  /** The state of a process that has not called `initialize` yet. */
  const Start: LlmSystem := LlmSystem(false, None, ProviderFactory.Empty, Unconfigured)

  /** An initialised system always has its loader. */
  predicate Ready(s: LlmSystem) {
    s.initialized ==> s.loader.Some?
  }

  /** The configuration directory: its path and what reading its two files
      produces. */
  datatype Directory = Directory(path: string, files: Files)

  /** What `create_client` raises before initialisation. */
  const CreateGuard: string := "System not initialized. Call initialize() first."

  /** What the other guarded operations raise before initialisation. */
  const Guard: string := "System not initialized"

  /** `os.path.join(dir, 'models_config.json')` on a POSIX path. */
  function ModelsPath(dir: string): (r: string)
    ensures |r| > |dir| && r[..|dir|] == dir
  {
    if dir == [] || dir[|dir| - 1] == '/' then dir + "models_config.json"
    else dir + "/models_config.json"
  }

  /** The class each vendor module defines. */
  function ClassOf(v: Vendor): ProviderClass {
    match v
    case Mock => MockVendor.New
    case Anthropic => AnthropicVendor.New
    case Bedrock => BedrockVendor.New
    case Together => TogetherVendor.New
    case Google => GoogleVendor.New
    case HuggingFace => HuggingFaceVendor.New
    case Grok => GrokVendor.New
  }

  /** The providers `_register_providers` registers, in order, each with
      its vendor's class. */
  const Builtin: seq<(string, Vendor)> := [
    ("mock", Mock),
    ("anthropic", Anthropic),
    ("bedrock", Bedrock),
    ("together", Together),
    ("google", Google),
    ("huggingface", HuggingFace),
    ("grok", Grok)
  ]

  /** Whether some registration in `ps` is under the key `k`. */
  predicate RegistersKey(ps: seq<(string, Vendor)>, k: string) {
    exists i :: 0 <= i < |ps| && Key(ps[i].0) == k
  }

  /** Register each name with its vendor's class, in order, as the loop
      does. */
  function RegisterAll(reg: Registry, ps: seq<(string, Vendor)>, classOf: Vendor -> ProviderClass): Registry
    decreases |ps|
  {
    if |ps| == 0 then reg
    else RegisterAll(Register(reg, ps[0].0, classOf(ps[0].1)), ps[1..], classOf)
  }

  /** `_register_providers()`, with `classes` giving each vendor's class. */
  function RegisterProviders(reg: Registry, classes: Vendor -> ProviderClass): Registry {
    RegisterAll(reg, Builtin, classes)
  }

  /** `initialize(config_dir)`.  An initialised system is left as it is.
      Otherwise the loader reads the directory, the seven providers are
      registered, and the client factory loads `models_config.json`; only
      when that load succeeds does the system count as initialised.
      `classes` are the vendor modules' classes, `ClassOf` in the running
      program. */
  function Initialize(s: LlmSystem, dir: Directory, classes: Vendor -> ProviderClass): (r: (LlmSystem, Option<Exc>))
    ensures s.initialized ==> r == (s, None)
    ensures !s.initialized ==>
              var (factory, failure) := LoadConfig(s.factory, ModelsPath(dir.path), dir.files.models);
              && r.0.loader == Some(Load(dir.files))
              && r.0.registry == RegisterProviders(s.registry, classes)
              && r.0.factory == factory
              && r.1 == failure
              && (r.0.initialized <==> failure.None?)
    ensures Ready(s) ==> Ready(r.0)
  {
    if s.initialized then (s, None)
    else
      var loader := Load(dir.files);
      var registry := RegisterProviders(s.registry, classes);
      var (factory, failure) := LoadConfig(s.factory, ModelsPath(dir.path), dir.files.models);
      (LlmSystem(failure.None?, Some(loader), registry, factory), failure)
  }

  /** The guarded part of `create_client`: a configured credential is added
      as `api_key` when a provider is named, the caller gave no `api_key`,
      and the configuration has a non-empty one.  Looking it up for a name
      that is not a string fails on `upper`. */
  function WithApiKey(l: Loader, env: Dict<string>, providerName: Json, kwargs: Dict<Json>): (r: Result<Dict<Json>, Exc>)
    ensures !Truthy(providerName) || HasKey(kwargs, "api_key") ==> r == Ok(kwargs)
    ensures Truthy(providerName) && !HasKey(kwargs, "api_key") && !providerName.JStr?
            ==> r == Err(Py(AttributeError("upper")))
    ensures r.Err? ==> r.error.Py?
    ensures r.Ok? ==> forall k :: k != "api_key" ==> Get(r.value, k) == Get(kwargs, k)
    ensures r.Ok? && Get(r.value, "api_key") != Get(kwargs, "api_key") ==>
              && !HasKey(kwargs, "api_key") && providerName.JStr?
              && GetApiKey(l, env, providerName.s).Ok?
              && NonEmpty(GetApiKey(l, env, providerName.s).value)
              && Get(r.value, "api_key") == Some(JStr(GetApiKey(l, env, providerName.s).value.value))
  {
    if !Truthy(providerName) || HasKey(kwargs, "api_key") then Ok(kwargs)
    else if !providerName.JStr? then Err(Py(AttributeError("upper")))
    else match GetApiKey(l, env, providerName.s)
      case Err(f) => Err(Py(f))
      case Ok(key) =>
        if key.Some? then
          var r := Set(kwargs, "api_key", JStr(key.value));
          forall k ensures Get(r, k) == if k == "api_key" then Some(JStr(key.value)) else Get(kwargs, k) {
            GetSet(kwargs, "api_key", JStr(key.value), k);
          }
          Ok(r)
        else Ok(kwargs)
  }

  /** What the client factory's `create_client` binds from the keyword
      arguments: `api_key` (default `None`), `history_size` (default 50),
      and the rest. */
  function Bind(kwargs: Dict<Json>): (r: (Json, Json, Dict<Json>))
    ensures r.0 == GetOr(kwargs, "api_key", JNull)
    ensures r.1 == GetOr(kwargs, "history_size", JInt(50))
    ensures !HasKey(r.2, "api_key") && !HasKey(r.2, "history_size")
    ensures forall k :: k != "api_key" && k != "history_size" ==> Get(r.2, k) == Get(kwargs, k)
  {
    var rest := Remove(Remove(kwargs, "api_key"), "history_size");
    forall k ensures Get(rest, k) == if k == "api_key" || k == "history_size" then None else Get(kwargs, k) {
      GetRemove(kwargs, "api_key", k);
      GetRemove(Remove(kwargs, "api_key"), "history_size", k);
    }
    (GetOr(kwargs, "api_key", JNull), GetOr(kwargs, "history_size", JInt(50)), rest)
  }

  /** `create_client(provider_name, model_name, **kwargs)`. */
  function CreateClient(s: LlmSystem, env: Dict<string>, providerName: Json, modelName: Json,
                        kwargs: Dict<Json>): (r: (LlmSystem, Result<LlmClient.Client, Exc>))
    requires Ready(s)
    ensures !s.initialized ==> r == (s, Err(NotInitialized(CreateGuard)))
    ensures r.0 == s.(registry := r.0.registry) && r.0.registry.classes == s.registry.classes
    ensures s.initialized ==>
              var injected := WithApiKey(s.loader.value, env, providerName, kwargs);
              && (injected.Err? ==> r == (s, Err(injected.error)))
              && (injected.Ok? ==>
                    var (apiKey, historySize, rest) := Bind(injected.value);
                    var (reg, client) := ClientFactory.CreateClient(s.factory, s.registry, env, providerName, modelName,
                                                                    apiKey, historySize, rest);
                    r == (s.(registry := reg), client))
  {
    if !s.initialized then (s, Err(NotInitialized(CreateGuard)))
    else match WithApiKey(s.loader.value, env, providerName, kwargs)
      case Err(e) => (s, Err(e))
      case Ok(kw) =>
        var (apiKey, historySize, rest) := Bind(kw);
        var (reg, client) := ClientFactory.CreateClient(s.factory, s.registry, env, providerName, modelName,
                                                        apiKey, historySize, rest);
        (s.(registry := reg), client)
  }

  /** `list_providers()`: the registered provider keys. */
  function ListProviders(s: LlmSystem): (r: Result<seq<string>, Exc>)
    ensures !s.initialized ==> r == Err(NotInitialized(Guard))
    ensures s.initialized ==> r.Ok? && forall k :: k in r.value <==> HasKey(s.registry.classes, k)
    ensures r.Ok? ==> forall i, j :: 0 <= i < j < |r.value| ==> r.value[i] != r.value[j]
  {
    if !s.initialized then Err(NotInitialized(Guard))
    else Ok(ProviderFactory.AvailableProviders(s.registry))
  }

  /** `list_models(provider_name)`: a named provider's catalog through the
      client factory (which may cache the provider), otherwise the keys of
      the configuration's `models` table. */
  function ListModels(s: LlmSystem, env: Dict<string>, providerName: Json): (r: (LlmSystem, Result<seq<string>, Exc>))
    requires Ready(s)
    ensures !s.initialized ==> r == (s, Err(NotInitialized(Guard)))
    ensures r.0 == s.(registry := r.0.registry) && r.0.registry.classes == s.registry.classes
    ensures s.initialized && Truthy(providerName) ==>
              r == (s.(registry := ClientFactory.ProviderModels(s.registry, env, providerName).0),
                    Ok(ClientFactory.ProviderModels(s.registry, env, providerName).1))
    ensures s.initialized && !Truthy(providerName) ==> r.0 == s
    ensures s.initialized && !Truthy(providerName) && r.1.Ok? ==>
              && AllModels(s.loader.value).Ok? && AllModels(s.loader.value).value.JObj?
              && forall k :: k in r.1.value <==> HasKey(AllModels(s.loader.value).value.fields, k)
    ensures s.initialized && !Truthy(providerName) && r.1.Err? ==>
              r.1.error.Py? && (AllModels(s.loader.value).Err? || !AllModels(s.loader.value).value.JObj?)
  {
    if !s.initialized then (s, Err(NotInitialized(Guard)))
    else if Truthy(providerName) then
      var (reg, models) := ClientFactory.ProviderModels(s.registry, env, providerName);
      (s.(registry := reg), Ok(models))
    else match AllModels(s.loader.value)
      case Err(f) => (s, Err(Py(f)))
      case Ok(JObj(fields)) =>
        forall k ensures k in Keys(fields) <==> HasKey(fields, k) {
          KeysMembership(fields, k);
        }
        (s, Ok(Keys(fields)))
      case Ok(_) => (s, Err(Py(AttributeError("keys"))))
  }

  /** `get_model_info(model_name)`: the model's configuration entry, `{}`
      when it has none. */
  function GetModelInfo(s: LlmSystem, name: string): (r: Result<Json, Exc>)
    requires Ready(s)
    ensures !s.initialized ==> r == Err(NotInitialized(Guard))
    ensures s.initialized && ModelConfig(s.loader.value, name).Err? ==> r == Err(Py(ModelConfig(s.loader.value, name).error))
    ensures s.initialized && ModelConfig(s.loader.value, name).Ok? ==> r == Ok(ConfigOr(ModelConfig(s.loader.value, name).value))
    ensures r.Ok? ==> Truthy(r.value) || r.value == JObj([])
  {
    if !s.initialized then Err(NotInitialized(Guard))
    else match ModelConfig(s.loader.value, name)
      case Err(f) => Err(Py(f))
      case Ok(v) => Ok(ConfigOr(v))
  }

  /** `get_provider_info(provider_name)`: the provider's configuration
      entry, `{}` when it has none. */
  function GetProviderInfo(s: LlmSystem, name: string): (r: Result<Json, Exc>)
    requires Ready(s)
    ensures !s.initialized ==> r == Err(NotInitialized(Guard))
    ensures s.initialized && ProviderConfig(s.loader.value, name).Err? ==> r == Err(Py(ProviderConfig(s.loader.value, name).error))
    ensures s.initialized && ProviderConfig(s.loader.value, name).Ok? ==> r == Ok(ConfigOr(ProviderConfig(s.loader.value, name).value))
    ensures r.Ok? ==> Truthy(r.value) || r.value == JObj([])
  {
    if !s.initialized then Err(NotInitialized(Guard))
    else match ProviderConfig(s.loader.value, name)
      case Err(f) => Err(Py(f))
      case Ok(v) => Ok(ConfigOr(v))
  }

  /** `is_initialized()`. */
  predicate IsInitialized(s: LlmSystem) {
    s.initialized
  }

  /** `reload_config()`: the loader re-reads the directory and the client
      factory reloads `models_config.json`; the system stays initialised
      even when that reload raises. */
  function ReloadConfig(s: LlmSystem, dir: Directory): (r: (LlmSystem, Option<Exc>))
    requires Ready(s)
    ensures !s.initialized ==> r == (s, Some(NotInitialized(Guard)))
    ensures s.initialized ==>
              var (factory, failure) := LoadConfig(s.factory, ModelsPath(dir.path), dir.files.models);
              r == (s.(loader := Some(Load(dir.files)), factory := factory), failure)
    ensures Ready(r.0) && r.0.initialized == s.initialized && r.0.registry == s.registry
  {
    if !s.initialized then (s, Some(NotInitialized(Guard)))
    else
      var loader := Reload(s.loader.value, dir.files);
      var (factory, failure) := LoadConfig(s.factory, ModelsPath(dir.path), dir.files.models);
      (s.(loader := Some(loader), factory := factory), failure)
  }

  // ---------------------------------------------------------------------
  // Lemmas.

  /** Before `initialize` completes, every guarded operation raises and
      changes nothing. */
  lemma GuardsBeforeInitialize(s: LlmSystem, env: Dict<string>, dir: Directory, providerName: Json,
                               modelName: Json, kwargs: Dict<Json>, name: string)
    requires Ready(s) && !IsInitialized(s)
    ensures CreateClient(s, env, providerName, modelName, kwargs) == (s, Err(NotInitialized(CreateGuard)))
    ensures ListProviders(s) == Err(NotInitialized(Guard))
    ensures ListModels(s, env, providerName) == (s, Err(NotInitialized(Guard)))
    ensures GetModelInfo(s, name) == Err(NotInitialized(Guard))
    ensures GetProviderInfo(s, name) == Err(NotInitialized(Guard))
    ensures ReloadConfig(s, dir) == (s, Some(NotInitialized(Guard)))
  {
  }

  /** Once `initialize` has succeeded, calling it again, with any
      directory, changes nothing. */
  lemma InitializeOnce(s: LlmSystem, dir: Directory, again: Directory, classes: Vendor -> ProviderClass)
    requires Initialize(s, dir, classes).1.None?
    ensures IsInitialized(Initialize(s, dir, classes).0)
    ensures Initialize(Initialize(s, dir, classes).0, again, classes) == (Initialize(s, dir, classes).0, None)
  {
  }

  /** `initialize` fails, and the system stays uninitialised, exactly when
      the client factory cannot load `models_config.json`; in particular a
      missing file is fatal even though the loader falls back on defaults. */
  lemma MissingModelsFileFatal(s: LlmSystem, dir: Directory, classes: Vendor -> ProviderClass)
    requires !IsInitialized(s) && !dir.files.models.Parsed?
    ensures Initialize(s, dir, classes).1 == Some(Unreadable(ModelsPath(dir.path)))
    ensures !IsInitialized(Initialize(s, dir, classes).0)
    ensures Initialize(s, dir, classes).0.loader.value.models == DefaultModels
  {
  }

  /** Registering a sequence adds exactly its keys and leaves the cache
      alone. */
  lemma {:induction false} RegisterAllKeys(reg: Registry, ps: seq<(string, Vendor)>, classOf: Vendor -> ProviderClass,
                                           k: string)
    ensures RegisterAll(reg, ps, classOf).instances == reg.instances
    ensures HasKey(RegisterAll(reg, ps, classOf).classes, k) <==> HasKey(reg.classes, k) || RegistersKey(ps, k)
    decreases |ps|
  {
    if |ps| > 0 {
      RegisterAllKeys(Register(reg, ps[0].0, classOf(ps[0].1)), ps[1..], classOf, k);
      if RegistersKey(ps, k) {
        var i :| 0 <= i < |ps| && Key(ps[i].0) == k;
        if i > 0 {
          assert ps[1..][i - 1] == ps[i];
        }
      }
      if RegistersKey(ps[1..], k) {
        var i :| 0 <= i < |ps[1..]| && Key(ps[1..][i].0) == k;
        assert ps[i + 1] == ps[1..][i];
      }
    }
  }

  /** A registration sequence whose keys are pairwise distinct leaves each
      of its classes under its own key. */
  lemma {:induction false} RegisteredClass(reg: Registry, ps: seq<(string, Vendor)>, classOf: Vendor -> ProviderClass, i: nat, name: string,
                                           apiKey: Json, config: Json)
    requires i < |ps|
    requires forall j :: i < j < |ps| ==> Key(ps[j].0) != Key(ps[i].0)
    ensures Get(RegisterAll(reg, ps, classOf).classes, Key(ps[i].0)).Some?
    ensures Get(RegisterAll(reg, ps, classOf).classes, Key(ps[i].0)).value(name, apiKey, config) == classOf(ps[i].1)(name, apiKey, config)
    decreases |ps|
  {
    var reg1 := Register(reg, ps[0].0, classOf(ps[0].1));
    if i == 0 {
      UntouchedClass(reg1, ps[1..], classOf, Key(ps[0].0));
    } else {
      forall j | i - 1 < j < |ps[1..]| ensures Key(ps[1..][j].0) != Key(ps[1..][i - 1].0) {
        assert ps[1..][j] == ps[j + 1];
      }
      RegisteredClass(reg1, ps[1..], classOf, i - 1, name, apiKey, config);
      assert ps[1..][i - 1] == ps[i];
    }
  }

  /** Registrations under other keys leave a key's class as it was. */
  lemma {:induction false} UntouchedClass(reg: Registry, ps: seq<(string, Vendor)>, classOf: Vendor -> ProviderClass, k: string)
    requires forall j :: 0 <= j < |ps| ==> Key(ps[j].0) != k
    ensures Get(RegisterAll(reg, ps, classOf).classes, k) == Get(reg.classes, k)
    decreases |ps|
  {
    if |ps| > 0 {
      var reg1 := Register(reg, ps[0].0, classOf(ps[0].1));
      forall j | 0 <= j < |ps[1..]| ensures Key(ps[1..][j].0) != k {
        assert ps[1..][j] == ps[j + 1];
      }
      UntouchedClass(reg1, ps[1..], classOf, k);
    }
  }

  /** A name of lower-case letters is its own key. */
  lemma LowerCaseKey(name: string)
    requires forall i :: 0 <= i < |name| ==> 'a' <= name[i] <= 'z'
    ensures Key(name) == name
  {
  }

  /** The names `_register_providers` lists. */
  const BuiltinNames: seq<string> := ["mock", "anthropic", "bedrock", "together", "google", "huggingface", "grok"]

  /** The built-in names are those, each its own registry key. */
  lemma BuiltinKeys()
    ensures |Builtin| == |BuiltinNames|
    ensures forall i :: 0 <= i < |Builtin| ==> Builtin[i].0 == BuiltinNames[i] && Key(Builtin[i].0) == Builtin[i].0
  {
    forall i | 0 <= i < |Builtin| ensures Key(Builtin[i].0) == Builtin[i].0 {
      LowerCaseKey(Builtin[i].0);
    }
  }

  /** Some built-in registration is under `k` exactly when `k` is one of
      the built-in names. */
  lemma BuiltinRegistersKey(k: string)
    ensures RegistersKey(Builtin, k) <==> k in BuiltinNames
  {
    BuiltinKeys();
    if k in BuiltinNames {
      var i :| 0 <= i < |BuiltinNames| && BuiltinNames[i] == k;
      assert Key(Builtin[i].0) == k;
    }
  }

  /** The first `initialize` registers exactly mock, anthropic, bedrock,
      together, google, huggingface and grok, under any spelling, whether
      or not the configuration then loads. */
  lemma InitializeRegisters(s: LlmSystem, dir: Directory, classes: Vendor -> ProviderClass, k: string)
    requires !IsInitialized(s) && s.registry.classes == []
    ensures IsRegistered(Initialize(s, dir, classes).0.registry, k) <==> Key(k) in BuiltinNames
  {
    RegisterAllKeys(s.registry, Builtin, classes, Key(k));
    BuiltinRegistersKey(Key(k));
  }

  /** After registration, a provider requested under any spelling of a
      built-in name is built by that vendor's class. */
  lemma BuiltinClasses(reg: Registry, classes: Vendor -> ProviderClass, i: nat, name: string, apiKey: Json, config: Json)
    requires i < |Builtin|
    ensures match Get(RegisterProviders(reg, classes).classes, Key(Builtin[i].0))
            case Some(cls) => cls(name, apiKey, config) == classes(Builtin[i].1)(name, apiKey, config)
            case None => false
  {
    BuiltinKeys();
    RegisteredClass(reg, Builtin, classes, i, name, apiKey, config);
  }

  /** A caller's own `api_key`, even `None`, is passed on untouched. */
  lemma ExplicitKeyKept(s: LlmSystem, env: Dict<string>, providerName: Json, modelName: Json, kwargs: Dict<Json>)
    requires Ready(s) && IsInitialized(s) && HasKey(kwargs, "api_key")
    ensures CreateClient(s, env, providerName, modelName, kwargs).1
            == ClientFactory.CreateClient(s.factory, s.registry, env, providerName, modelName,
                                          Get(kwargs, "api_key").value, GetOr(kwargs, "history_size", JInt(50)),
                                          Bind(kwargs).2).1
  {
  }

  /** With a named provider and no `api_key` of the caller's, the
      configured credential is what the client factory receives, and
      without one the factory receives `None`. */
  lemma ConfiguredKeyInjected(s: LlmSystem, env: Dict<string>, name: string, modelName: Json, kwargs: Dict<Json>)
    requires Ready(s) && IsInitialized(s) && name != "" && !HasKey(kwargs, "api_key")
    requires GetApiKey(s.loader.value, env, name).Ok?
    ensures var key := GetApiKey(s.loader.value, env, name).value;
            var passed := if key.Some? then JStr(key.value) else JNull;
            CreateClient(s, env, JStr(name), modelName, kwargs).1
            == ClientFactory.CreateClient(s.factory, s.registry, env, JStr(name), modelName,
                                          passed, GetOr(kwargs, "history_size", JInt(50)), Bind(kwargs).2).1
  {
    var key := GetApiKey(s.loader.value, env, name).value;
    var kw := WithApiKey(s.loader.value, env, JStr(name), kwargs).value;
    if key.Some? {
      assert kw == kwargs + [("api_key", JStr(key.value))];
      RemoveAppended(kwargs, "api_key", JStr(key.value));
    }
  }
}
