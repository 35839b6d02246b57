/**
 * The model registry: the chat models the application offers, in display order,
 * each with the provider that serves it and the provider's own name for it, and
 * the model used when a request names none.
 */
module ModelList {
  import opened Wrappers

  /** The providers a registry entry may name. */
  datatype Provider = OpenAI | Google | Anthropic | Mistral

  /** The provider's key as the registry spells it. */
  function ProviderKey(p: Provider): (key: string)
    ensures key != ""
  {
    match p
    case OpenAI => "openai"
    case Google => "google"
    case Anthropic => "anthropic"
    case Mistral => "mistral"
  }

  /** Different providers have different keys. */
  lemma ProviderKeyInjective(p: Provider, q: Provider)
    ensures ProviderKey(p) == ProviderKey(q) <==> p == q
  {
    if p != q {
      assert ProviderKey(p)[0] != ProviderKey(q)[0] || |ProviderKey(p)| != |ProviderKey(q)|;
    }
  }

  /** One registry entry: the id users pick, its provider and the id sent to that provider. */
  datatype ModelConfig = ModelConfig(id: string, provider: Provider, modelId: string)

  const Models: seq<ModelConfig> := [
    ModelConfig("gpt-4o-mini", OpenAI, "gpt-4o-mini"),
    ModelConfig("gpt-4.1", OpenAI, "gpt-4-turbo"),
    ModelConfig("gemini-2.5-flash", Google, "gemini-2.5-flash"),
    ModelConfig("gemini-2.5-pro", Google, "gemini-2.5-pro"),
    ModelConfig("claude-4.0-sonnet", Anthropic, "claude-4-sonnet-20240229"),
    ModelConfig("claude-3.5-haiku", Anthropic, "claude-3-5-haiku-20241022")
  ]

  const DefaultModelId := "gemini-2.5-flash"

  /**
   * The position `list.find(model => model.id === id)` stops at: the first entry whose
   * user-facing id is exactly `id`, or `None` when there is none.
   */
  function FindIndex(list: seq<ModelConfig>, id: string): (r: Option<nat>)
    ensures r.None? <==> forall i :: 0 <= i < |list| ==> list[i].id != id
    ensures r.Some? ==> r.value < |list| && list[r.value].id == id && forall j :: 0 <= j < r.value ==> list[j].id != id
  {
    if list == [] then None
    else if list[0].id == id then Some(0)
    else
      assert forall i :: 1 <= i < |list| ==> list[i] == list[1..][i - 1];
      match FindIndex(list[1..], id)
      case None => None
      case Some(i) => Some(i + 1)
  }

  /** `list.find(model => model.id === id)`: the entry at `FindIndex`, if any. */
  function Find(list: seq<ModelConfig>, id: string): Option<ModelConfig>
  {
    match FindIndex(list, id)
    case Some(i) => Some(list[i])
    case None => None
  }

  /** No two entries of `list` share a user-facing id. */
  predicate DistinctIds(list: seq<ModelConfig>)
  {
    forall i, j :: 0 <= i < j < |list| ==> list[i].id != list[j].id
  }

  /** With distinct ids, looking an entry up by its id finds that very entry. */
  lemma {:induction false} FindEntry(list: seq<ModelConfig>, i: nat)
    requires DistinctIds(list) && i < |list|
    ensures Find(list, list[i].id) == Some(list[i])
  {
    if i > 0 {
      assert list[0].id != list[i].id;
      assert DistinctIds(list[1..]) by {
        forall a, b | 0 <= a < b < |list[1..]|
          ensures list[1..][a].id != list[1..][b].id
        {
          assert list[1..][a] == list[a + 1] && list[1..][b] == list[b + 1];
        }
      }
      assert list[1..][i - 1] == list[i];
      FindEntry(list[1..], i - 1);
    }
  }

  /** The registry's ids are pairwise distinct. */
  lemma RegistryIdsDistinct()
    ensures DistinctIds(Models)
  {
    assert Models[2].id[0] != Models[5].id[0];
  }

  /** The default id is registered, so resolving it always succeeds. */
  lemma DefaultRegistered()
    ensures Find(Models, DefaultModelId) == Some(Models[2])
    ensures Models[2] == ModelConfig("gemini-2.5-flash", Google, "gemini-2.5-flash")
  {
    RegistryIdsDistinct();
    FindEntry(Models, 2);
  }

  /** Every registered entry is served by OpenAI, Google or Anthropic; none by Mistral. */
  lemma NoMistralEntry()
    ensures forall m :: m in Models ==> m.provider in {OpenAI, Google, Anthropic}
  {
  }

  /**
   * The user-facing id and the provider's id may differ: `gpt-4.1` is served as
   * `gpt-4-turbo`, and `gpt-4-turbo` itself is not a registry id.
   */
  lemma LookupIsById()
    ensures Find(Models, "gpt-4.1") == Some(ModelConfig("gpt-4.1", OpenAI, "gpt-4-turbo"))
    ensures Find(Models, "gpt-4-turbo") == None
  {
    RegistryIdsDistinct();
    FindEntry(Models, 1);
    assert forall i :: 0 <= i < |Models| ==> Models[i].id != "gpt-4-turbo" by {
      assert Models[0].id[4] != 't' && Models[1].id[4] != 't';
    }
  }

  /** The display rank of a provider in the registry. */
  function Rank(p: Provider): nat
  {
    match p
    case OpenAI => 0
    case Google => 1
    case Anthropic => 2
    case Mistral => 3
  }

  /**
   * The entries are sorted by provider rank: the entries of a provider are
   * contiguous, and OpenAI comes before Google, which comes before Anthropic.
   */
  lemma RegistryGroupedByProvider()
    ensures forall i, j :: 0 <= i <= j < |Models| ==> Rank(Models[i].provider) <= Rank(Models[j].provider)
    ensures forall i, j, k :: 0 <= i <= j <= k < |Models| && Models[i].provider == Models[k].provider ==>
      Models[j].provider == Models[i].provider
  {
  }
}
