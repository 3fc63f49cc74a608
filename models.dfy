/** The model catalog of `lib/ai/models.ts`: the fixed provider registry, the
    normalised model descriptor, and the process-wide catalog store with its
    four order-preserving queries. */
module Models {

  import opened Seqs

  datatype ProviderCapabilities = ProviderCapabilities(streaming: bool, functions: bool, jsonValidation: bool)

  datatype Provider = Provider(
    id: string,
    name: string,
    description: string,
    website: string,
    capabilities: ProviderCapabilities)

  /** The provider registry, in its declared order. */
  const Providers: seq<Provider> := [
    Provider("openai", "OpenAI", "Leading AI research company", "https://openai.com",
      ProviderCapabilities(true, true, true)),
    Provider("anthropic", "Anthropic", "Advanced AI systems with strong safety focus", "https://anthropic.com",
      ProviderCapabilities(true, false, true)),
    Provider("google", "Google", "State-of-the-art language models", "https://ai.google.dev",
      ProviderCapabilities(true, true, true)),
    Provider("mistral", "Mistral AI", "Efficient and powerful open models", "https://mistral.ai",
      ProviderCapabilities(true, false, false)),
    Provider("meta", "Meta AI", "Open source language models", "https://ai.meta.com",
      ProviderCapabilities(true, false, false)),
    Provider("deepseek", "DeepSeek", "Specialized in code and reasoning", "https://deepseek.ai",
      ProviderCapabilities(true, false, false)),
    Provider("cohere", "Cohere", "Enterprise-focused language models", "https://cohere.ai",
      ProviderCapabilities(true, true, true)),
    Provider("openrouter", "OpenRouter", "Universal API for AI models", "https://openrouter.ai",
      ProviderCapabilities(true, true, true))
  ]

  /** `ps.find(p => p.id === id)`: the first entry with that id, if any. */
  function FindProvider(ps: seq<Provider>, id: string): (r: Option<Provider>)
    ensures r.Some? ==> r.value in ps && r.value.id == id
    ensures r.None? <==> forall i :: 0 <= i < |ps| ==> ps[i].id != id
    ensures r.Some? ==> exists i :: 0 <= i < |ps| && ps[i] == r.value && forall j :: 0 <= j < i ==> ps[j].id != id
  {
    if ps == [] then None
    else if ps[0].id == id then Some(ps[0])
    else
      var r := FindProvider(ps[1..], id);
      assert forall i :: 1 <= i < |ps| ==> ps[i] == ps[1..][i - 1];
      r
  }

  /** The registry has eight entries with distinct ids ... */
  lemma ProviderIdsDistinct()
    ensures |Providers| == 8
    ensures forall i, j :: 0 <= i < j < |Providers| ==> Providers[i].id != Providers[j].id
  {
  }

  /** ... and looking up `openrouter` yields the last one: the non-null
      assertion in the catalog fetcher never fails. */
  lemma RegistryShape()
    ensures FindProvider(Providers, "openrouter") == Some(Providers[7])
  {
    ProviderIdsDistinct();
    assert Providers[7].id == "openrouter";
    FindFirst(Providers, "openrouter", 7);
  }

  /** The lookup finds the first entry with the id. */
  lemma FindFirst(ps: seq<Provider>, id: string, k: nat)
    requires k < |ps| && ps[k].id == id
    requires forall j :: 0 <= j < k ==> ps[j].id != id
    ensures FindProvider(ps, id) == Some(ps[k])
  {
    var r := FindProvider(ps, id);
    var i :| 0 <= i < |ps| && ps[i] == r.value && forall j :: 0 <= j < i ==> ps[j].id != id;
    assert i == k;
  }

  /** The registry entry every fetched model is attached to. */
  function OpenRouterProvider(): (p: Provider)
    ensures p == Providers[7] && p.id == "openrouter"
  {
    RegistryShape();
    FindProvider(Providers, "openrouter").value
  }

  /** `ModelCategory`; the enum's string values are given by `Label`. */
  datatype ModelCategory = Latest | Efficient | Specialized | OpenSource
  {
    function Label(): string
    {
      match this
      case Latest => "Latest & Most Capable"
      case Efficient => "Fast & Efficient"
      case Specialized => "Specialized Models"
      case OpenSource => "Open Source Models"
    }
  }

  /** The number `parseFloat(text)`. The float itself is never computed: a
      price is the text it is parsed from. */
  datatype Price = ParseFloat(text: string)

  datatype Pricing = Pricing(prompt: Price, completion: Price)

  datatype ModelCapabilities = ModelCapabilities(vision: bool, streaming: bool, functions: bool, jsonValidation: bool)

  /** `keyof Model['capabilities']`. */
  datatype Capability = Vision | Streaming | Functions | JsonValidation

  /** `capabilities[key]`. */
  function HasCapability(caps: ModelCapabilities, key: Capability): bool
  {
    match key
    case Vision => caps.vision
    case Streaming => caps.streaming
    case Functions => caps.functions
    case JsonValidation => caps.jsonValidation
  }

  datatype Model = Model(
    id: string,
    displayLabel: string,  // the source field `label` (a Dafny keyword)
    apiIdentifier: string,
    description: string,
    category: ModelCategory,
    provider: Provider,
    contextWindow: int,
    pricing: Pricing,
    capabilities: ModelCapabilities,
    tags: seq<string>)

  /** `DEFAULT_MODEL_NAME`. */
  const DefaultModelName: string := "gpt-4-0125-preview"

  /** The module-level `models` array: empty at start, replaced wholesale by
      `updateModels`, read by the `getModelsBy*` queries. */
  class Catalog {
    var models: seq<Model>

    constructor ()
      ensures models == []
    {
      models := [];
    }

    /** `updateModels(newModels)`: the store becomes exactly `newModels`. */
    method UpdateModels(newModels: seq<Model>)
      modifies this
      ensures models == newModels
    {
      models := newModels;
    }

    /** `getModelsByCategory`: the stored models of that category, each as
        often as stored, in stored order. */
    function GetModelsByCategory(category: ModelCategory): (r: seq<Model>)
      reads this
      ensures forall m :: m in r <==> m in models && m.category == category
      ensures forall m :: multiset(r)[m] == if m.category == category then multiset(models)[m] else 0
      ensures IsSubsequence(r, models)
    {
      Filter(models, (m: Model) => m.category == category)
    }

    /** `getModelsByCapability`: the stored models with that capability set. */
    function GetModelsByCapability(key: Capability): (r: seq<Model>)
      reads this
      ensures forall m :: m in r <==> m in models && HasCapability(m.capabilities, key)
      ensures forall m :: multiset(r)[m] == if HasCapability(m.capabilities, key) then multiset(models)[m] else 0
      ensures IsSubsequence(r, models)
    {
      Filter(models, (m: Model) => HasCapability(m.capabilities, key))
    }

    /** `getModelsByTag`: the stored models whose tags include `tag`. */
    function GetModelsByTag(tag: string): (r: seq<Model>)
      reads this
      ensures forall m :: m in r <==> m in models && tag in m.tags
      ensures forall m :: multiset(r)[m] == if tag in m.tags then multiset(models)[m] else 0
      ensures IsSubsequence(r, models)
    {
      Filter(models, (m: Model) => tag in m.tags)
    }

    /** `getModelsByProvider`: the stored models whose provider has that id. */
    function GetModelsByProvider(providerId: string): (r: seq<Model>)
      reads this
      ensures forall m :: m in r <==> m in models && m.provider.id == providerId
      ensures forall m :: multiset(r)[m] == if m.provider.id == providerId then multiset(models)[m] else 0
      ensures IsSubsequence(r, models)
    {
      Filter(models, (m: Model) => m.provider.id == providerId)
    }

    /** The four category queries partition the store: every stored model is
        returned by exactly one of them, and together they return each stored
        occurrence exactly once. */
    lemma CategoryQueriesPartition()
      ensures forall m, c :: m in models ==> (m in GetModelsByCategory(c) <==> c == m.category)
      ensures multiset(GetModelsByCategory(Latest)) + multiset(GetModelsByCategory(Efficient))
            + multiset(GetModelsByCategory(Specialized)) + multiset(GetModelsByCategory(OpenSource))
           == multiset(models)
      ensures |GetModelsByCategory(Latest)| + |GetModelsByCategory(Efficient)|
            + |GetModelsByCategory(Specialized)| + |GetModelsByCategory(OpenSource)|
           == |models|
    {
      var l, e := GetModelsByCategory(Latest), GetModelsByCategory(Efficient);
      var s, o := GetModelsByCategory(Specialized), GetModelsByCategory(OpenSource);
      var sum := multiset(l) + multiset(e) + multiset(s) + multiset(o);
      assert sum == multiset(models) by {
        forall m ensures sum[m] == multiset(models)[m] {
          assert multiset(l)[m] == if m.category == Latest then multiset(models)[m] else 0;
          assert multiset(e)[m] == if m.category == Efficient then multiset(models)[m] else 0;
          assert multiset(s)[m] == if m.category == Specialized then multiset(models)[m] else 0;
          assert multiset(o)[m] == if m.category == OpenSource then multiset(models)[m] else 0;
        }
      }
      assert |sum| == |l| + |e| + |s| + |o|;
    }
  }
}
