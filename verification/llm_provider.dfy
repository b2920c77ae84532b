/**
  The provider contract shared by every vendor: a provider holds its name,
  credential, configuration and model catalog, answers questions about the
  catalog, and creates a facade bound to one catalogued model.

  A provider class (what the registry stores) is a constructor from the
  requested provider name, the credential and the configuration to a
  provider; each vendor module defines one, with its own catalog.
 */
module LlmProvider {

  import opened Base
  import opened Dict
  import opened Text
  import opened Json
  import opened Errors
  import opened LlmFacade
  import Catalogs

  /** An `LLMProvider` instance.  `config` is stored as `config or {}`. */
  datatype Provider = Provider(
    vendor: Vendor,
    name: string,
    apiKey: Json,
    config: Json,
    models: Dict<Json>)

  /** A provider class: `cls(provider_name=..., api_key=..., config=...)`. */
  type ProviderClass = (string, Json, Json) -> Provider

  /** Python's `config or {}`. */
  function ConfigOr(config: Json): (r: Json)
    ensures Truthy(config) ==> r == config
    ensures !Truthy(config) ==> r == JObj([])
  {
    if Truthy(config) then config else JObj([])
  }

  /** The base constructor, given the catalog the subclass installs. */
  function NewProvider(vendor: Vendor, name: string, apiKey: Json, config: Json,
                       models: Dict<Json>): (p: Provider)
    ensures p.vendor == vendor && p.name == name && p.apiKey == apiKey && p.models == models
    ensures p.config == ConfigOr(config)
    ensures Truthy(p.config) ==> p.config == config
  {
    Provider(vendor, name, apiKey, ConfigOr(config), models)
  }

  /** `get_available_models()`: the catalog's keys in insertion order. */
  function AvailableModels(p: Provider): (r: seq<string>)
    ensures forall m :: m in r <==> HasKey(p.models, m)
    ensures forall i, j :: 0 <= i < j < |r| ==> r[i] != r[j]
  {
    var r := Keys(p.models);
    forall m ensures m in r <==> HasKey(p.models, m) {
      KeysMembership(p.models, m);
    }
    KeysDistinct(p.models);
    r
  }

  /** `supports_model(model_name)`: membership in the model list.  A value
      that is not a string is never in the list. */
  function SupportsModel(p: Provider, model: Json): (r: bool)
    ensures r <==> model.JStr? && HasKey(p.models, model.s)
  {
    model.JStr? && model.s in AvailableModels(p)
  }

  /** `get_model_info(model_name)`: the catalog record, `None` when the model
      is not catalogued. */
  function ModelInfo(p: Provider, model: string): (r: Option<Json>)
    ensures r.Some? <==> SupportsModel(p, JStr(model))
    ensures r.Some? ==> Some(r.value) == Get(p.models, model)
  {
    Get(p.models, model)
  }

  /** `get_provider_name()`. */
  function ProviderName(p: Provider): string {
    p.name
  }

  /** The value of `k` across layered dicts: the topmost layer that has `k`
      decides. */
  function Layered(layers: seq<Dict<Json>>, k: string): Option<Json> {
    if |layers| == 0 then None
    else if HasKey(layers[|layers| - 1], k) then Get(layers[|layers| - 1], k)
    else Layered(layers[..|layers| - 1], k)
  }

  /** The delay the mock provider gives a model unless told otherwise: a
      hundredth of a second for models whose name contains "fast", a tenth
      for the others. */
  function MockDelay(model: string): Json {
    if Contains(model, "fast") then JFloat(0.01) else JFloat(0.1)
  }

  /** The provider configuration as a dict (empty when it is not one). */
  function OwnConfig(p: Provider): Dict<Json> {
    if p.config.JObj? then p.config.fields else []
  }

  /** The configuration layers `create_facade` merges, lowest first: the mock
      provider's default delay (written with `setdefault`, so it yields to
      everything), the catalog record, the keyword arguments, and for Bedrock
      and Grok the provider's own configuration. */
  function Layers(p: Provider, model: string, entry: Dict<Json>, kwargs: Dict<Json>): seq<Dict<Json>> {
    match p.vendor
    case Mock => [[("response_delay", MockDelay(model))], entry, kwargs]
    case Bedrock => [entry, kwargs, OwnConfig(p)]
    case Grok => [entry, kwargs, OwnConfig(p)]
    case _ => [entry, kwargs]
  }

  /** `create_facade(model_name, **kwargs)`: a facade for a catalogued model,
      configured with a copy of the model's record updated by the keyword
      arguments (and, for Bedrock and Grok, by the provider configuration);
      `ValueError` listing the catalog for any other model. */
  function CreateFacade(p: Provider, model: string, kwargs: Dict<Json>): (r: Result<Facade, Exc>)
    ensures !HasKey(p.models, model) ==> r == Err(ModelNotAvailable(model, AvailableModels(p)))
    ensures (HasKey(p.models, model) && Get(p.models, model).value.JObj?
             && (p.vendor in {Bedrock, Grok} ==> p.config.JObj?)) ==> r.Ok?
    ensures r.Ok? ==> HasKey(p.models, model) && Get(p.models, model).value.JObj?
    ensures r.Ok? ==> r.value.vendor == p.vendor && r.value.modelName == model
                      && r.value.providerName == p.name && r.value.apiKey == p.apiKey
    ensures r.Ok? ==> forall k :: Get(r.value.config, k)
                        == Layered(Layers(p, model, Get(p.models, model).value.fields, kwargs), k)
  {
    match Get(p.models, model)
    case None => Err(ModelNotAvailable(model, AvailableModels(p)))
    case Some(record) =>
      if !record.JObj? then Err(Py(AttributeError("copy")))
      else
      var entry := record.fields;
      var config := Update(entry, kwargs);
      match p.vendor
      case Mock =>
        var c := SetDefault(config, "response_delay", MockDelay(model));
        MockLayers(entry, kwargs, MockDelay(model));
        Ok(NewFacade(p.vendor, model, p.name, p.apiKey, Some(c)))
      case Bedrock => WithProviderConfig(p, model, entry, kwargs)
      case Grok => WithProviderConfig(p, model, entry, kwargs)
      case _ =>
        assert forall k :: Get(config, k) == Layered([entry, kwargs], k) by {
          forall k ensures Get(config, k) == Layered([entry, kwargs], k) {
            GetUpdate(entry, kwargs, k);
            LayeredTwo(entry, kwargs, k);
          }
        }
        Ok(NewFacade(p.vendor, model, p.name, p.apiKey, Some(config)))
  }

  /** Bedrock's and Grok's merge: `model_config.update(self.config)` after
      the keyword arguments.  A configuration that is not a dict is refused. */
  function WithProviderConfig(p: Provider, model: string, entry: Dict<Json>, kwargs: Dict<Json>)
    : (r: Result<Facade, Exc>)
    requires p.vendor in {Bedrock, Grok}
    ensures r.Ok? <==> p.config.JObj?
    ensures r.Ok? ==> r.value.vendor == p.vendor && r.value.modelName == model
                      && r.value.providerName == p.name && r.value.apiKey == p.apiKey
    ensures r.Ok? ==> forall k :: Get(r.value.config, k) == Layered([entry, kwargs, OwnConfig(p)], k)
  {
    match p.config
    case JObj(own) =>
      var config := Update(Update(entry, kwargs), own);
      assert forall k :: Get(config, k) == Layered([entry, kwargs, own], k) by {
        forall k ensures Get(config, k) == Layered([entry, kwargs, own], k) {
          GetUpdate(Update(entry, kwargs), own, k);
          GetUpdate(entry, kwargs, k);
          LayeredThree(entry, kwargs, own, k);
        }
      }
      Ok(NewFacade(p.vendor, model, p.name, p.apiKey, Some(config)))
    case _ => Err(Py(TypeError("dictionary update sequence expected")))
  }

  lemma LayeredTwo(a: Dict<Json>, b: Dict<Json>, k: string)
    ensures Layered([a, b], k) == if HasKey(b, k) then Get(b, k) else Get(a, k)
  {
    assert [a, b][..1] == [a];
    assert [a][..0] == [];
    assert Layered([a], k) == (if HasKey(a, k) then Get(a, k) else Layered([], k));
  }

  lemma LayeredThree(a: Dict<Json>, b: Dict<Json>, c: Dict<Json>, k: string)
    ensures Layered([a, b, c], k)
            == if HasKey(c, k) then Get(c, k) else if HasKey(b, k) then Get(b, k) else Get(a, k)
  {
    assert [a, b, c][..2] == [a, b];
    LayeredTwo(a, b, k);
  }

  /** The mock provider's merge agrees with the layered reading. */
  lemma MockLayers(entry: Dict<Json>, kwargs: Dict<Json>, delay: Json)
    ensures forall k :: Get(SetDefault(Update(entry, kwargs), "response_delay", delay), k)
                        == Layered([[("response_delay", delay)], entry, kwargs], k)
  {
    forall k ensures Get(SetDefault(Update(entry, kwargs), "response_delay", delay), k)
                     == Layered([[("response_delay", delay)], entry, kwargs], k)
    {
      GetSetDefault(Update(entry, kwargs), "response_delay", delay, k);
      GetUpdate(entry, kwargs, k);
      UpdateHasKey(entry, kwargs, k);
      LayeredThree([("response_delay", delay)], entry, kwargs, k);
    }
  }

  // ---------------------------------------------------------------------
  // Lemmas.

  /** A keyword argument always overrides the catalog record, except that the
      Bedrock and Grok provider configuration overrides both. */
  lemma KeywordOverridesRecord(p: Provider, model: string, kwargs: Dict<Json>, k: string)
    requires CreateFacade(p, model, kwargs).Ok?
    requires HasKey(kwargs, k)
    requires p.vendor in {Bedrock, Grok} ==> !HasKey(p.config.fields, k)
    ensures Get(CreateFacade(p, model, kwargs).value.config, k) == Get(kwargs, k)
  {
    var entry := Get(p.models, model).value.fields;
    if p.vendor == Mock {
      LayeredThree([("response_delay", MockDelay(model))], entry, kwargs, k);
    } else if p.vendor in {Bedrock, Grok} {
      LayeredThree(entry, kwargs, OwnConfig(p), k);
    } else {
      LayeredTwo(entry, kwargs, k);
    }
  }

  /** The mock provider never leaves the response delay unset: a facade it
      creates always has one, and it is the default only when neither the
      record nor the keyword arguments supply one. */
  lemma MockDelaySet(p: Provider, model: string, kwargs: Dict<Json>)
    requires p.vendor == Mock && CreateFacade(p, model, kwargs).Ok?
    ensures var entry := Get(p.models, model).value.fields;
            Get(CreateFacade(p, model, kwargs).value.config, "response_delay")
            == if HasKey(kwargs, "response_delay") then Get(kwargs, "response_delay")
               else if HasKey(entry, "response_delay") then Get(entry, "response_delay")
               else Some(MockDelay(model))
  {
    var entry := Get(p.models, model).value.fields;
    var d := [("response_delay", MockDelay(model))];
    LayeredThree(d, entry, kwargs, "response_delay");
    GetOfDistinct(d, 0);
  }

  /** A provider reports the name it was constructed with, and a facade it
      creates carries that name as its provider. */
  lemma NameKept(vendor: Vendor, name: string, apiKey: Json, config: Json, models: Dict<Json>,
                 model: string, kwargs: Dict<Json>)
    ensures ProviderName(NewProvider(vendor, name, apiKey, config, models)) == name
    ensures var p := NewProvider(vendor, name, apiKey, config, models);
            CreateFacade(p, model, kwargs).Ok? ==> CreateFacade(p, model, kwargs).value.providerName == name
  {
  }

  /** A facade's model is always one the provider supports. */
  lemma FacadeModelSupported(p: Provider, model: string, kwargs: Dict<Json>)
    requires CreateFacade(p, model, kwargs).Ok?
    ensures SupportsModel(p, JStr(CreateFacade(p, model, kwargs).value.modelName))
  {
  }

  /** A provider built from a listing that names no model twice offers the
      listed models in listing order. */
  lemma CatalogModels(p: Provider, l: seq<(string, Catalogs.Details)>)
    requires p.models == Catalogs.Records(l) && Catalogs.NamesDistinct(l)
    ensures AvailableModels(p) == Catalogs.Names(l)
    ensures forall m :: SupportsModel(p, JStr(m)) ==>
              ModelInfo(p, m).value.JObj?
              && Get(ModelInfo(p, m).value.fields, "name") == Some(JStr(m))
  {
    Catalogs.RecordsKeys(l);
    forall m | SupportsModel(p, JStr(m))
      ensures ModelInfo(p, m).value.JObj? && Get(ModelInfo(p, m).value.fields, "name") == Some(JStr(m))
    {
      Catalogs.RecordsNamed(l, m);
    }
  }
}
