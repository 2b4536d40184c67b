/**
 * The server settings' view of the language models on offer: the
 * `available_models` string ("ModelA:ProviderA, ModelB:ProviderB") is grouped
 * per provider, and a provider is offered only when an API key is found for
 * it in the settings or in the process environment.
 */
module Config {
  import opened Options
  import opened PyDicts
  import opened PyStrings

  /** The settings fields the providers are read from. */
  datatype Settings = Settings(
    availableModels: string,
    fields: map<string, string>)   // attribute name -> value, for the fields that are not None

  datatype ProviderConfig = ProviderConfig(name: string, apiKey: string, models: seq<string>, baseUrl: Option<string>)

  datatype ModelInfo = ModelInfo(provider: string, model: string, displayName: string)

  // ----- credentials -----

  /** The settings attribute when it is set and non-empty, the environment variable otherwise. */
  function Lookup(settings: Settings, environ: map<string, string>, attribute: string, variable: string): (r: Option<string>)
    ensures attribute in settings.fields && settings.fields[attribute] != "" ==> r == Some(settings.fields[attribute])
    ensures !(attribute in settings.fields && settings.fields[attribute] != "") ==>
      (r.Some? <==> variable in environ) && (r.Some? ==> r.value == environ[variable])
  {
    if attribute in settings.fields && settings.fields[attribute] != "" then Some(settings.fields[attribute])
    else if variable in environ then Some(environ[variable])
    else None
  }

  function ApiKey(settings: Settings, environ: map<string, string>, provider: string): Option<string> {
    Lookup(settings, environ, provider + "_api_key", Upper(provider) + "_API_KEY")
  }

  function BaseUrl(settings: Settings, environ: map<string, string>, provider: string): Option<string> {
    Lookup(settings, environ, provider + "_base_url", Upper(provider) + "_BASE_URL")
  }

  /** A key that is found and non-empty: the only kind that makes a provider available. */
  predicate HasKey(settings: Settings, environ: map<string, string>, provider: string) {
    ApiKey(settings, environ, provider).Some? && ApiKey(settings, environ, provider).value != ""
  }

  // ----- parsing `available_models` -----

  /**
   * One comma-separated item: the model and the lower-cased provider around
   * its first colon, both stripped; nothing for an item without a colon or
   * with an empty side.
   */
  function ParseEntry(item: string): (r: Option<(string, string)>)
    ensures ':' !in item ==> r.None?
    ensures r.Some? ==> r.value.0 != "" && r.value.1 != ""
    ensures r.Some? ==> forall i :: 0 <= i < |r.value.1| ==> !('A' <= r.value.1[i] <= 'Z')
  {
    match FirstIndex(item, ':')
    case None => None
    case Some(k) =>
      var model := Strip(item[..k]);
      var provider := Lower(Strip(item[k + 1..]));
      if model != "" && provider != "" then Some((model, provider)) else None
  }

  /** The (model, provider) entries of the items that have one, in order. */
  function Parsed(items: seq<string>): seq<(string, string)> {
    if items == [] then []
    else
      Parsed(items[..|items| - 1]) +
      match ParseEntry(items[|items| - 1])
      case Some(entry) => [entry]
      case None => []
  }

  /** `model_map` after the given entries: the models of each provider, providers in order of first mention. */
  function Grouped(entries: seq<(string, string)>): Dict<string, seq<string>> {
    if entries == [] then []
    else
      var m := Grouped(entries[..|entries| - 1]);
      var (model, provider) := entries[|entries| - 1];
      Set(m, provider, Get(m, provider).GetOr([]) + [model])
  }

  /** Reference definition: the models the entries name for `provider`, in order, repeats included. */
  function ModelsOf(entries: seq<(string, string)>, provider: string): seq<string> {
    if entries == [] then []
    else
      var (model, p) := entries[|entries| - 1];
      ModelsOf(entries[..|entries| - 1], provider) + if p == provider then [model] else []
  }

  /** Grouping loses and invents nothing: each provider holds exactly the models named for it. */
  lemma {:induction false} GroupedModels(entries: seq<(string, string)>, provider: string)
    ensures Get(Grouped(entries), provider) == if ModelsOf(entries, provider) == [] then None else Some(ModelsOf(entries, provider))
    decreases |entries|
  {
    if entries != [] {
      var init := entries[..|entries| - 1];
      GroupedModels(init, provider);
      var m := Grouped(init);
      var (model, p) := entries[|entries| - 1];
      var before := ModelsOf(init, provider);
      var v := Get(m, p).GetOr([]) + [model];
      if p == provider {
        GetSetSame(m, p, v);
        assert Get(m, p).GetOr([]) == before;
        assert ModelsOf(entries, provider) == before + [model] == v;
      } else {
        GetSetOther(m, p, v, provider);
        assert ModelsOf(entries, provider) == before + [] == before;
      }
    }
  }

  /** The grouping is a dict: no provider twice. */
  lemma {:induction false} GroupedValid(entries: seq<(string, string)>)
    ensures Valid(Grouped(entries))
    decreases |entries|
  {
    if entries != [] {
      var init := entries[..|entries| - 1];
      GroupedValid(init);
      var (model, p) := entries[|entries| - 1];
      SetValid(Grouped(init), p, Get(Grouped(init), p).GetOr([]) + [model]);
    }
  }

  /** An item is cut at its first colon: later colons stay in the provider part. */
  lemma FirstColonSplits(model: string, provider: string)
    requires ':' !in model
    ensures ParseEntry(model + ":" + provider) ==
      if Strip(model) != "" && Lower(Strip(provider)) != "" then Some((Strip(model), Lower(Strip(provider)))) else None
  {
    var item := model + ":" + provider;
    FirstIndexAt(model, ':', provider);
    assert item[..|model|] == model && item[|model| + 1..] == provider;
  }

  // ----- the providers -----

  /** The provider configurations made from `model_map`'s entries, in its order. */
  function ProvidersFrom(entries: Dict<string, seq<string>>, settings: Settings, environ: map<string, string>): Dict<string, ProviderConfig> {
    if entries == [] then []
    else
      var acc := ProvidersFrom(entries[..|entries| - 1], settings, environ);
      var (name, models) := entries[|entries| - 1];
      if HasKey(settings, environ, name) then
        Set(acc, name, ProviderConfig(name, ApiKey(settings, environ, name).value, models, BaseUrl(settings, environ, name)))
      else acc
  }

  /** The configuration `get_llm_providers` would make for one provider. */
  function ConfigFor(name: string, models: seq<string>, settings: Settings, environ: map<string, string>): ProviderConfig
    requires HasKey(settings, environ, name)
  {
    ProviderConfig(name, ApiKey(settings, environ, name).value, models, BaseUrl(settings, environ, name))
  }

  /** A provider is kept exactly when it has models and a key, with its models as they were grouped. */
  lemma {:induction false} ProvidersFromGet(entries: Dict<string, seq<string>>, settings: Settings, environ: map<string, string>, p: string)
    requires Valid(entries)
    ensures Get(ProvidersFrom(entries, settings, environ), p) ==
      if Contains(entries, p) && HasKey(settings, environ, p)
      then Some(ConfigFor(p, Get(entries, p).value, settings, environ))
      else None
    decreases |entries|
  {
    if entries != [] {
      var n := |entries| - 1;
      var init := entries[..n];
      ValidLast(entries);
      ProvidersFromGet(init, settings, environ, p);
      var (name, models) := entries[n];
      assert entries == init + [(name, models)];
      GetAppend(init, [(name, models)], p);
      var acc := ProvidersFrom(init, settings, environ);
      if HasKey(settings, environ, name) {
        var c := ConfigFor(name, models, settings, environ);
        if p == name {
          GetSetSame(acc, name, c);
        } else {
          GetSetOther(acc, name, c, p);
        }
      }
    }
  }

  /** What `get_llm_providers` returns: nothing for an empty `available_models`, the keyed groups otherwise. */
  function Providers(settings: Settings, environ: map<string, string>): Dict<string, ProviderConfig> {
    if settings.availableModels == "" then []
    else ProvidersFrom(Grouped(Parsed(Split(settings.availableModels, ','))), settings, environ)
  }

  /** Every provider on offer was named in `available_models` and has a key; its models are the ones named for it. */
  lemma ProvidersOffered(settings: Settings, environ: map<string, string>, p: string)
    ensures settings.availableModels == "" ==> !Contains(Providers(settings, environ), p)
    ensures settings.availableModels != "" ==>
      var models := ModelsOf(Parsed(Split(settings.availableModels, ',')), p);
      Get(Providers(settings, environ), p) ==
        if models != [] && HasKey(settings, environ, p) then Some(ConfigFor(p, models, settings, environ)) else None
  {
    if settings.availableModels != "" {
      var entries := Parsed(Split(settings.availableModels, ','));
      GroupedValid(entries);
      GroupedModels(entries, p);
      ProvidersFromGet(Grouped(entries), settings, environ, p);
    }
  }

  /** `get_llm_providers`: `model_map` is filled first, then the provider configurations. */
  method GetLlmProviders(settings: Settings, environ: map<string, string>) returns (providers: Dict<string, ProviderConfig>)
    ensures providers == Providers(settings, environ)
  {
    providers := [];
    if settings.availableModels == "" {
      return;
    }
    var modelMap := GroupModels(Split(settings.availableModels, ','));
    providers := MakeProviders(modelMap, settings, environ);
  }

  /** The first loop of `get_llm_providers`: an empty list for a new provider, then the model appended. */
  method GroupModels(items: seq<string>) returns (modelMap: Dict<string, seq<string>>)
    ensures modelMap == Grouped(Parsed(items))
  {
    modelMap := [];
    for i := 0 to |items|
      invariant modelMap == Grouped(Parsed(items[..i]))
    {
      ParsedStep(items, i);
      var entry := ParseEntry(items[i]);
      if entry.Some? {
        var (model, provider) := entry.value;
        GroupedSnoc(Parsed(items[..i]), entry.value);
        modelMap := AddModel(modelMap, model, provider);
      }
    }
    assert items[..|items|] == items;
  }

  lemma ParsedStep(items: seq<string>, i: nat)
    requires i < |items|
    ensures ParseEntry(items[i]).Some? ==> Parsed(items[..i + 1]) == Parsed(items[..i]) + [ParseEntry(items[i]).value]
    ensures ParseEntry(items[i]).None? ==> Parsed(items[..i + 1]) == Parsed(items[..i])
  {
    assert items[..i + 1][..i] == items[..i];
  }

  lemma GroupedSnoc(entries: seq<(string, string)>, entry: (string, string))
    ensures Grouped(entries + [entry]) == Set(Grouped(entries), entry.1, Get(Grouped(entries), entry.1).GetOr([]) + [entry.0])
  {
    assert (entries + [entry])[..|entries|] == entries;
  }

  /** `model_map[provider].append(model)`, creating the list first for a new provider. */
  method AddModel(modelMap: Dict<string, seq<string>>, model: string, provider: string) returns (r: Dict<string, seq<string>>)
    ensures r == Set(modelMap, provider, Get(modelMap, provider).GetOr([]) + [model])
  {
    if !Contains(modelMap, provider) {
      var empty: seq<string> := [];
      var created := Set(modelMap, provider, empty);
      GetSetSame(modelMap, provider, empty);
      assert Get(created, provider).value + [model] == [model];
      SetTwice(modelMap, provider, empty, [model]);
      r := Set(created, provider, Get(created, provider).value + [model]);
      assert Get(modelMap, provider).GetOr([]) + [model] == [model];
    } else {
      r := Set(modelMap, provider, Get(modelMap, provider).value + [model]);
    }
  }

  /** The second loop of `get_llm_providers`: a configuration for each provider with a key. */
  method MakeProviders(modelMap: Dict<string, seq<string>>, settings: Settings, environ: map<string, string>)
    returns (providers: Dict<string, ProviderConfig>)
    ensures providers == ProvidersFrom(modelMap, settings, environ)
  {
    providers := [];
    for j := 0 to |modelMap|
      invariant providers == ProvidersFrom(modelMap[..j], settings, environ)
    {
      assert modelMap[..j + 1][..j] == modelMap[..j];
      var (name, models) := modelMap[j];
      var apiKey := ApiKey(settings, environ, name);
      var baseUrl := BaseUrl(settings, environ, name);
      if apiKey.Some? && apiKey.value != "" {
        providers := Set(providers, name, ProviderConfig(name, apiKey.value, models, baseUrl));
      }
    }
    assert modelMap[..|modelMap|] == modelMap;
  }

  // ----- the model list -----

  /** One entry per model of one provider, in order, each shown under its own name. */
  function Infos(provider: string, models: seq<string>): (r: seq<ModelInfo>)
    ensures |r| == |models|
    ensures forall i :: 0 <= i < |models| ==> r[i] == ModelInfo(provider, models[i], models[i])
  {
    if models == [] then [] else Infos(provider, models[..|models| - 1]) + [ModelInfo(provider, models[|models| - 1], models[|models| - 1])]
  }

  /** The list `get_all_models` builds from the providers, provider by provider. */
  function AllModels(providers: Dict<string, ProviderConfig>): seq<ModelInfo> {
    if providers == [] then []
    else
      var (name, config) := providers[|providers| - 1];
      AllModels(providers[..|providers| - 1]) + Infos(name, config.models)
  }

  /** The list names exactly the (provider, model) pairs on offer, each with its model as display name. */
  lemma {:induction false} AllModelsListsPairs(providers: Dict<string, ProviderConfig>, info: ModelInfo)
    ensures info in AllModels(providers) <==> info.displayName == info.model && Offers(providers, info.provider, info.model)
    decreases |providers|
  {
    if providers != [] {
      var n := |providers| - 1;
      AllModelsListsPairs(providers[..n], info);
      OffersLast(providers, info.provider, info.model);
      InfosHold(providers[n].0, providers[n].1.models, info);
    }
  }

  /** Some provider entry named `provider` lists `model`. */
  predicate Offers(providers: Dict<string, ProviderConfig>, provider: string, model: string) {
    exists i :: 0 <= i < |providers| && providers[i].0 == provider && model in providers[i].1.models
  }

  lemma OffersLast(providers: Dict<string, ProviderConfig>, provider: string, model: string)
    requires providers != []
    ensures
      var n := |providers| - 1;
      Offers(providers, provider, model) <==>
        Offers(providers[..n], provider, model) || (providers[n].0 == provider && model in providers[n].1.models)
  {
    var n := |providers| - 1;
    var init := providers[..n];
    if Offers(init, provider, model) {
      var i :| 0 <= i < |init| && init[i].0 == provider && model in init[i].1.models;
      assert providers[i] == init[i];
    }
    if Offers(providers, provider, model) {
      var i :| 0 <= i < |providers| && providers[i].0 == provider && model in providers[i].1.models;
      if i < n {
        assert init[i] == providers[i];
      }
    }
  }

  lemma InfosHold(provider: string, models: seq<string>, info: ModelInfo)
    ensures info in Infos(provider, models) <==> info.provider == provider && info.model in models && info.displayName == info.model
  {
    var infos := Infos(provider, models);
    if info.provider == provider && info.model in models && info.displayName == info.model {
      var k :| 0 <= k < |models| && models[k] == info.model;
      assert infos[k] == info;
    }
  }

  /** `get_all_models`: the providers in order, and within each its models in order. */
  method GetAllModels(settings: Settings, environ: map<string, string>) returns (models: seq<ModelInfo>)
    ensures models == AllModels(Providers(settings, environ))
  {
    var providers := GetLlmProviders(settings, environ);
    models := [];
    for j := 0 to |providers|
      invariant models == AllModels(providers[..j])
    {
      var infos := ProviderModels(providers[j].0, providers[j].1.models);
      AllModelsStep(providers, j);
      models := models + infos;
    }
    assert providers[..|providers|] == providers;
  }

  /** The inner loop of `get_all_models`: one entry per model of one provider. */
  method ProviderModels(name: string, models: seq<string>) returns (infos: seq<ModelInfo>)
    ensures infos == Infos(name, models)
  {
    infos := [];
    for k := 0 to |models|
      invariant infos == Infos(name, models[..k])
    {
      InfosStep(name, models, k);
      infos := infos + [ModelInfo(name, models[k], models[k])];
    }
    assert models[..|models|] == models;
  }

  lemma InfosStep(provider: string, models: seq<string>, k: nat)
    requires k < |models|
    ensures Infos(provider, models[..k + 1]) == Infos(provider, models[..k]) + [ModelInfo(provider, models[k], models[k])]
  {
    assert models[..k + 1][..k] == models[..k];
  }

  lemma AllModelsStep(providers: Dict<string, ProviderConfig>, j: nat)
    requires j < |providers|
    ensures AllModels(providers[..j + 1]) == AllModels(providers[..j]) + Infos(providers[j].0, providers[j].1.models)
  {
    assert providers[..j + 1][..j] == providers[..j];
  }
}
