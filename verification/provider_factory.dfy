/**
  `LLMProviderFactory`: the registry of provider classes, keyed by the
  lower-cased provider name, and the cache of provider instances built from
  them, under the same keys.

  A cached instance is returned as it is, whatever credential or
  configuration the new request carries.  A missing credential is read from
  the environment variable `<NAME>_API_KEY`, named after the requested name
  upper-cased.  The instance is built with the name exactly as requested.
  The process environment is a parameter.
 */
module ProviderFactory {

  import opened Base
  import opened Dict
  import opened Text
  import opened Json
  import opened Errors
  import opened LlmProvider

  /** The registry's two class-level dictionaries. */
  datatype Registry = Registry(classes: Dict<ProviderClass>, instances: Dict<Provider>)

  /** A registry before anything is registered. */
  const Empty: Registry := Registry([], [])

  /** The key a provider name is registered and cached under. */
  function Key(name: string): string {
    Lower(name)
  }

  /** `register_provider(name, cls)`: `cls` under the lower-cased name,
      replacing an earlier class there. */
  function Register(reg: Registry, name: string, cls: ProviderClass): (r: Registry)
    ensures r.instances == reg.instances
    ensures HasKey(r.classes, Key(name))
    ensures forall a, b, c :: Get(r.classes, Key(name)).value(a, b, c) == cls(a, b, c)
    ensures forall k :: k != Key(name) ==> Get(r.classes, k) == Get(reg.classes, k)
  {
    var r := reg.(classes := Set(reg.classes, Key(name), cls));
    forall k ensures Get(r.classes, k) == if k == Key(name) then Some(cls) else Get(reg.classes, k) {
      GetSet(reg.classes, Key(name), cls, k);
    }
    r
  }

  /** `os.environ.get(f"{provider_name.upper()}_API_KEY")`. */
  function EnvironmentKey(env: Dict<string>, name: string): (r: Json)
    ensures r.JNull? <==> !HasKey(env, Upper(name) + "_API_KEY")
    ensures r.JStr? ==> Get(env, Upper(name) + "_API_KEY") == Some(r.s)
  {
    match Get(env, Upper(name) + "_API_KEY")
    case Some(v) => JStr(v)
    case None => JNull
  }

  /** Whether `get_provider` with `use_cache` answers from the cache. */
  predicate Cached(reg: Registry, name: string, useCache: bool) {
    useCache && HasKey(reg.instances, Key(name))
  }

  /** `get_provider(provider_name, api_key, config, use_cache)`, with the
      environment it reads a missing credential from. */
  function GetProvider(reg: Registry, name: string, apiKey: Json, config: Json, useCache: bool,
                       env: Dict<string>): (r: (Registry, Result<Provider, Exc>))
    ensures r.0.classes == reg.classes
    ensures Cached(reg, name, useCache) ==> r == (reg, Ok(Get(reg.instances, Key(name)).value))
    ensures r.1.Err? <==> !Cached(reg, name, useCache) && !HasKey(reg.classes, Key(name))
    ensures r.1.Err? ==> r == (reg, Err(ProviderNotRegistered(name, Keys(reg.classes))))
    ensures r.1.Ok? && !Cached(reg, name, useCache) ==>
              r.1.value == Get(reg.classes, Key(name)).value(
                             name, if apiKey.JNull? then EnvironmentKey(env, name) else apiKey, config)
    ensures useCache && r.1.Ok? ==> Get(r.0.instances, Key(name)) == Some(r.1.value)
    ensures forall k :: k != Key(name) ==> Get(r.0.instances, k) == Get(reg.instances, k)
    ensures !useCache ==> r.0 == reg
  {
    var key := Key(name);
    if useCache && HasKey(reg.instances, key) then (reg, Ok(Get(reg.instances, key).value))
    else if !HasKey(reg.classes, key) then (reg, Err(ProviderNotRegistered(name, Keys(reg.classes))))
    else
      var cls := Get(reg.classes, key).value;
      var credential := if apiKey.JNull? then EnvironmentKey(env, name) else apiKey;
      var p := cls(name, credential, config);
      if useCache then
        var r := reg.(instances := Set(reg.instances, key, p));
        forall k ensures Get(r.instances, k) == if k == key then Some(p) else Get(reg.instances, k) {
          GetSet(reg.instances, key, p, k);
        }
        (r, Ok(p))
      else (reg, Ok(p))
  }

  /** `get_available_providers()`: the registered keys, each once. */
  function AvailableProviders(reg: Registry): (r: seq<string>)
    ensures forall k :: k in r <==> HasKey(reg.classes, k)
    ensures forall i, j :: 0 <= i < j < |r| ==> r[i] != r[j]
  {
    forall k ensures k in Keys(reg.classes) <==> HasKey(reg.classes, k) {
      KeysMembership(reg.classes, k);
    }
    KeysDistinct(reg.classes);
    Keys(reg.classes)
  }

  /** `is_provider_registered(name)`, case-insensitively. */
  predicate IsRegistered(reg: Registry, name: string) {
    HasKey(reg.classes, Key(name))
  }

  /** `clear_cache(provider_name)`: a non-empty name drops that provider's
      cached instance; no name, or the empty one, drops them all. */
  function ClearCache(reg: Registry, name: Option<string>): (r: Registry)
    ensures r.classes == reg.classes
    ensures name.None? || name.value == "" ==> r.instances == []
    ensures name.Some? && name.value != "" ==>
              forall k :: Get(r.instances, k) == if k == Key(name.value) then None else Get(reg.instances, k)
  {
    if name.Some? && name.value != "" then
      var r := reg.(instances := Remove(reg.instances, Key(name.value)));
      forall k ensures Get(r.instances, k) == if k == Key(name.value) then None else Get(reg.instances, k) {
        GetRemove(reg.instances, Key(name.value), k);
      }
      r
    else reg.(instances := [])
  }

  // ---------------------------------------------------------------------
  // Lemmas.

  /** Registration ignores case: any spelling of a registered name finds it,
      and registering adds exactly that key. */
  lemma RegisterIgnoresCase(reg: Registry, name: string, cls: ProviderClass, other: string)
    ensures IsRegistered(Register(reg, name, cls), other) <==> Key(other) == Key(name) || IsRegistered(reg, other)
  {
  }

  /** Once registered, an uncached request under any spelling of the name
      builds the registered class with the name as requested and the given
      credential. */
  lemma RegisteredBuilds(reg: Registry, name: string, cls: ProviderClass, other: string,
                         apiKey: Json, config: Json, useCache: bool, env: Dict<string>)
    requires Key(other) == Key(name)
    requires !Cached(Register(reg, name, cls), other, useCache)
    requires !apiKey.JNull?
    ensures GetProvider(Register(reg, name, cls), other, apiKey, config, useCache, env).1
            == Ok(cls(other, apiKey, config))
  {
  }

  /** Without a credential the registry reads `<NAME>_API_KEY`, upper-casing
      the name as requested. */
  lemma CredentialFromEnvironment(reg: Registry, name: string, config: Json, useCache: bool,
                                  env: Dict<string>, secret: string)
    requires !Cached(reg, name, useCache) && IsRegistered(reg, name)
    requires Get(env, Upper(name) + "_API_KEY") == Some(secret)
    ensures GetProvider(reg, name, JNull, config, useCache, env).1
            == Ok(Get(reg.classes, Key(name)).value(name, JStr(secret), config))
  {
  }

  /** A second cached request, under any spelling of the name, returns the
      first request's instance whatever its own credential and
      configuration, and changes nothing. */
  lemma CacheIgnoresArguments(reg: Registry, name: string, apiKey: Json, config: Json, env: Dict<string>,
                              other: string, apiKey2: Json, config2: Json, env2: Dict<string>)
    requires Key(other) == Key(name)
    requires GetProvider(reg, name, apiKey, config, true, env).1.Ok?
    ensures var (reg1, first) := GetProvider(reg, name, apiKey, config, true, env);
            GetProvider(reg1, other, apiKey2, config2, true, env2) == (reg1, first)
  {
  }

  /** After clearing a provider from the cache the next request builds a
      fresh instance from the registered class. */
  lemma ClearedRebuilds(reg: Registry, name: string, apiKey: Json, config: Json, env: Dict<string>)
    requires name != "" && IsRegistered(reg, name) && !apiKey.JNull?
    ensures GetProvider(ClearCache(reg, Some(name)), name, apiKey, config, true, env).1
            == Ok(Get(reg.classes, Key(name)).value(name, apiKey, config))
  {
  }

  /** An unregistered name fails with the registered keys listed, and the
      registry is left as it was. */
  lemma UnregisteredFails(reg: Registry, name: string, apiKey: Json, config: Json, useCache: bool,
                          env: Dict<string>)
    requires !IsRegistered(reg, name) && !Cached(reg, name, useCache)
    ensures GetProvider(reg, name, apiKey, config, useCache, env)
            == (reg, Err(ProviderNotRegistered(name, AvailableProviders(reg))))
  {
  }
}
