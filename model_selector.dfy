/**
 * The logic of the model selector shared by both of its variants: which registry
 * entry is shown as selected, how the entries are grouped by provider for the menu,
 * the label of each group, and what choosing an entry hands back to the page.
 *
 * The grouping accumulator is a plain object keyed by provider: a map from key to
 * entries, together with the order in which the keys were first added, which is the
 * order `Object.entries` lists them in for keys that are not array indices.
 */
module ModelSelector {
  import opened Wrappers
  import opened Text
  import opened ModelList

  // ---------------------------------------------------------------------------
  // Selected model

  /**
   * The entry shown as selected: the one with the selected id, otherwise the
   * default entry; the component throws "Model <id> not found" when neither exists.
   */
  function SelectedModel(list: seq<ModelConfig>, defaultId: string, selectedId: string): (r: Result<ModelConfig, string>)
    ensures Find(list, selectedId).Some? ==> r == Success(Find(list, selectedId).value)
    ensures Find(list, selectedId).None? && Find(list, defaultId).Some? ==> r == Success(Find(list, defaultId).value)
    ensures r.Failure? <==> Find(list, selectedId).None? && Find(list, defaultId).None?
    ensures r.Failure? ==> r.error == "Model " + selectedId + " not found"
  {
    match Find(list, selectedId)
    case Some(m) => Success(m)
    case None =>
      match Find(list, defaultId)
      case Some(m) => Success(m)
      case None => Failure("Model " + selectedId + " not found")
  }

  /** With the registry, the selection never throws: an unknown id shows the default model. */
  lemma SelectionNeverThrows(selectedId: string)
    ensures SelectedModel(Models, DefaultModelId, selectedId).Success?
    ensures (forall i :: 0 <= i < |Models| ==> Models[i].id != selectedId) ==>
      SelectedModel(Models, DefaultModelId, selectedId) == Success(Models[2])
  {
    DefaultRegistered();
  }

  // ---------------------------------------------------------------------------
  // Grouping by provider

  /** The provider keys of `list` in the order each first occurs. */
  function ProviderOrder(list: seq<ModelConfig>): (keys: seq<string>)
    ensures |keys| <= |list|
    decreases |list|
  {
    if list == [] then []
    else
      var keys := ProviderOrder(list[..|list| - 1]);
      var k := ProviderKey(list[|list| - 1].provider);
      if k in keys then keys else keys + [k]
  }

  /** Each provider is listed once. */
  lemma {:induction false} ProviderOrderDistinct(list: seq<ModelConfig>)
    ensures forall i, j :: 0 <= i < j < |ProviderOrder(list)| ==> ProviderOrder(list)[i] != ProviderOrder(list)[j]
    decreases |list|
  {
    if list != [] {
      var init := list[..|list| - 1];
      var keys, k := ProviderOrder(init), ProviderKey(list[|list| - 1].provider);
      ProviderOrderDistinct(init);
      if k !in keys {
        forall i, j | 0 <= i < j < |keys| + 1
          ensures (keys + [k])[i] != (keys + [k])[j]
        {
          assert (keys + [k])[i] == keys[i];
          if j == |keys| {
            assert keys[i] in keys;
          } else {
            assert (keys + [k])[j] == keys[j];
          }
        }
        assert ProviderOrder(list) == keys + [k];
      }
    }
  }

  /** The entries of `list` whose provider key is `key`, in list order. */
  function ModelsOf(list: seq<ModelConfig>, key: string): (group: seq<ModelConfig>)
    ensures forall i :: 0 <= i < |group| ==> ProviderKey(group[i].provider) == key
    ensures |group| <= |list|
    decreases |list|
  {
    if list == [] then []
    else
      var init := ModelsOf(list[..|list| - 1], key);
      var m := list[|list| - 1];
      if ProviderKey(m.provider) == key then init + [m] else init
  }

  /** A group holds only entries of the list. */
  lemma {:induction false} ModelsOfMembers(list: seq<ModelConfig>, key: string)
    ensures forall x :: x in ModelsOf(list, key) ==> x in list
    decreases |list|
  {
    if list != [] {
      var init := list[..|list| - 1];
      ModelsOfMembers(init, key);
      assert forall x :: x in init ==> x in list;
    }
  }

  /** What one more entry does to the key order. */
  lemma ExtendOrder(list: seq<ModelConfig>, n: nat)
    requires n < |list|
    ensures var k := ProviderKey(list[n].provider);
      ProviderOrder(list[..n + 1]) == if k in ProviderOrder(list[..n]) then ProviderOrder(list[..n]) else ProviderOrder(list[..n]) + [k]
  {
    assert list[..n + 1][..n] == list[..n];
  }

  /** What one more entry does to the group of `key`. */
  lemma ExtendGroup(list: seq<ModelConfig>, n: nat, key: string)
    requires n < |list|
    ensures ModelsOf(list[..n + 1], key) ==
      if ProviderKey(list[n].provider) == key then ModelsOf(list[..n], key) + [list[n]] else ModelsOf(list[..n], key)
  {
    assert list[..n + 1][..n] == list[..n];
  }

  /** The group of a key in two lists one after the other. */
  lemma {:induction false} ModelsOfAppend(a: seq<ModelConfig>, b: seq<ModelConfig>, key: string)
    ensures ModelsOf(a + b, key) == ModelsOf(a, key) + ModelsOf(b, key)
    decreases |b|
  {
    if b == [] {
      assert a + b == a;
    } else {
      var init := b[..|b| - 1];
      assert (a + b)[..|a + b| - 1] == a + init;
      ModelsOfAppend(a, init, key);
    }
  }

  /** A list all of whose entries have provider key `key` is its own group. */
  lemma {:induction false} ModelsOfAll(list: seq<ModelConfig>, key: string)
    requires forall i :: 0 <= i < |list| ==> ProviderKey(list[i].provider) == key
    ensures ModelsOf(list, key) == list
    decreases |list|
  {
    if list != [] {
      var init := list[..|list| - 1];
      assert forall i :: 0 <= i < |init| ==> init[i] == list[i];
      ModelsOfAll(init, key);
    }
  }

  /** A list none of whose entries has provider key `key` has an empty group. */
  lemma {:induction false} ModelsOfNone(list: seq<ModelConfig>, key: string)
    requires forall i :: 0 <= i < |list| ==> ProviderKey(list[i].provider) != key
    ensures ModelsOf(list, key) == []
    decreases |list|
  {
    if list != [] {
      var init := list[..|list| - 1];
      assert forall i :: 0 <= i < |init| ==> init[i] == list[i];
      ModelsOfNone(init, key);
    }
  }

  /**
   * The key order after a non-empty block of entries of one provider: its key is
   * added at the end unless it is already listed.
   */
  lemma {:induction false} ProviderOrderAppendBlock(a: seq<ModelConfig>, b: seq<ModelConfig>, key: string)
    requires b != [] && forall i :: 0 <= i < |b| ==> ProviderKey(b[i].provider) == key
    ensures ProviderOrder(a + b) == if key in ProviderOrder(a) then ProviderOrder(a) else ProviderOrder(a) + [key]
    decreases |b|
  {
    var init := b[..|b| - 1];
    assert (a + b)[..|a + b| - 1] == a + init;
    if init != [] {
      assert forall i :: 0 <= i < |init| ==> init[i] == b[i];
      ProviderOrderAppendBlock(a, init, key);
    } else {
      assert a + init == a;
    }
  }

  /** Every entry of `list` has provider key `key`. */
  predicate AllOf(list: seq<ModelConfig>, key: string)
  {
    forall i :: 0 <= i < |list| ==> ProviderKey(list[i].provider) == key
  }

  /** A non-empty block of one provider shows that provider alone. */
  lemma OneBlockOrder(a: seq<ModelConfig>, ka: string)
    requires a != [] && AllOf(a, ka)
    ensures ProviderOrder(a) == [ka]
  {
    assert [] + a == a;
    ProviderOrderAppendBlock([], a, ka);
  }

  /** A block of a second provider after it adds that provider second. */
  lemma TwoBlockOrder(a: seq<ModelConfig>, b: seq<ModelConfig>, ka: string, kb: string)
    requires a != [] && b != [] && AllOf(a, ka) && AllOf(b, kb) && ka != kb
    ensures ProviderOrder(a + b) == [ka, kb]
  {
    OneBlockOrder(a, ka);
    ProviderOrderAppendBlock(a, b, kb);
  }

  /**
   * A list made of three non-empty blocks, each of a single provider and the three
   * providers different, shows those three providers in that order.
   */
  lemma ThreeBlockOrder(a: seq<ModelConfig>, b: seq<ModelConfig>, c: seq<ModelConfig>, ka: string, kb: string, kc: string)
    requires a != [] && b != [] && c != []
    requires AllOf(a, ka) && AllOf(b, kb) && AllOf(c, kc)
    requires ka != kb && ka != kc && kb != kc
    ensures ProviderOrder(a + b + c) == [ka, kb, kc]
  {
    TwoBlockOrder(a, b, ka, kb);
    ProviderOrderAppendBlock(a + b, c, kc);
  }

  /** In the same list, each provider's group is exactly its block. */
  lemma ThreeBlockGroups(a: seq<ModelConfig>, b: seq<ModelConfig>, c: seq<ModelConfig>, ka: string, kb: string, kc: string)
    requires AllOf(a, ka) && AllOf(b, kb) && AllOf(c, kc)
    requires ka != kb && ka != kc && kb != kc
    ensures ModelsOf(a + b + c, ka) == a && ModelsOf(a + b + c, kb) == b && ModelsOf(a + b + c, kc) == c
  {
    ModelsOfAppend(a + b, c, ka);
    ModelsOfAppend(a + b, c, kb);
    ModelsOfAppend(a + b, c, kc);
    ModelsOfAppend(a, b, ka);
    ModelsOfAppend(a, b, kb);
    ModelsOfAppend(a, b, kc);
    ModelsOfAll(a, ka);
    ModelsOfNone(a, kb);
    ModelsOfNone(a, kc);
    ModelsOfNone(b, ka);
    ModelsOfAll(b, kb);
    ModelsOfNone(b, kc);
    ModelsOfNone(c, ka);
    ModelsOfNone(c, kb);
    ModelsOfAll(c, kc);
    assert a + [] + [] == a && [] + b + [] == b && [] + [] + c == c;
  }

  /** A key that does not occur has an empty group. */
  lemma {:induction false} ModelsOfAbsent(list: seq<ModelConfig>, key: string)
    requires key !in ProviderOrder(list)
    ensures ModelsOf(list, key) == []
    decreases |list|
  {
    if list != [] {
      var init := list[..|list| - 1];
      assert ProviderOrder(init) <= ProviderOrder(list);
      ModelsOfAbsent(init, key);
    }
  }

  /** The plain-object accumulator listed as `Object.entries` lists it. */
  function Entries(order: seq<string>, acc: map<string, seq<ModelConfig>>): seq<(string, seq<ModelConfig>)>
    requires forall k :: k in order ==> k in acc
  {
    seq(|order|, i requires 0 <= i < |order| => (order[i], acc[order[i]]))
  }

  /**
   * The accumulator after the entries `done`: `order` lists the provider keys in order
   * of first occurrence, and each key maps to its entries in list order.
   */
  ghost predicate Accumulated(done: seq<ModelConfig>, order: seq<string>, acc: map<string, seq<ModelConfig>>)
  {
    && order == ProviderOrder(done)
    && (forall k :: k in acc <==> k in order)
    && (forall k :: k in acc ==> acc[k] == ModelsOf(done, k))
  }

  /** One reduce step: create the provider's array when missing, then push the entry. */
  lemma AccumulateStep(list: seq<ModelConfig>, n: nat, order: seq<string>, acc: map<string, seq<ModelConfig>>,
                       order': seq<string>, acc': map<string, seq<ModelConfig>>)
    requires n < |list| && Accumulated(list[..n], order, acc)
    requires var key := ProviderKey(list[n].provider);
      && order' == (if key in acc then order else order + [key])
      && acc' == (var created := if key in acc then acc else acc[key := []]; created[key := created[key] + [list[n]]])
    ensures Accumulated(list[..n + 1], order', acc')
  {
    var key := ProviderKey(list[n].provider);
    ExtendOrder(list, n);
    if key !in acc {
      ModelsOfAbsent(list[..n], key);
    }
    forall k | k in acc'
      ensures acc'[k] == ModelsOf(list[..n + 1], k)
    {
      ExtendGroup(list, n, k);
    }
  }

  /** The entries of the final accumulator are the groups in order of first occurrence. */
  lemma AccumulatedEntries(list: seq<ModelConfig>, order: seq<string>, acc: map<string, seq<ModelConfig>>)
    requires Accumulated(list, order, acc)
    ensures forall k :: k in order ==> k in acc
    ensures var groups := Entries(order, acc);
      |groups| == |ProviderOrder(list)|
      && forall g :: 0 <= g < |groups| ==> groups[g] == (ProviderOrder(list)[g], ModelsOf(list, ProviderOrder(list)[g]))
  {
  }

  /**
   * The `groupedModels` reduce: for each entry, creates its provider's array when
   * missing and pushes the entry. The groups come out keyed by provider in order of
   * first occurrence, each holding exactly that provider's entries in list order.
   */
  method GroupModels(list: seq<ModelConfig>) returns (groups: seq<(string, seq<ModelConfig>)>)
    ensures |groups| == |ProviderOrder(list)|
    ensures forall g :: 0 <= g < |groups| ==> groups[g] == (ProviderOrder(list)[g], ModelsOf(list, ProviderOrder(list)[g]))
  {
    var acc: map<string, seq<ModelConfig>> := map[];
    var order: seq<string> := [];
    var n := 0;
    while n < |list|
      invariant 0 <= n <= |list|
      invariant Accumulated(list[..n], order, acc)
    {
      ghost var order0, acc0 := order, acc;
      var model := list[n];
      var key := ProviderKey(model.provider);
      if key !in acc {
        acc := acc[key := []];
        order := order + [key];
      }
      acc := acc[key := acc[key] + [model]];
      AccumulateStep(list, n, order0, acc0, order, acc);
      n := n + 1;
    }
    assert list[..n] == list;
    AccumulatedEntries(list, order, acc);
    groups := Entries(order, acc);
  }

  /** Every group of the menu has at least one entry. */
  lemma {:induction false} GroupsNonEmpty(list: seq<ModelConfig>)
    ensures forall g :: 0 <= g < |ProviderOrder(list)| ==> ModelsOf(list, ProviderOrder(list)[g]) != []
    decreases |list|
  {
    if list != [] {
      var init := list[..|list| - 1];
      GroupsNonEmpty(init);
      ExtendOrder(list, |list| - 1);
      forall g | 0 <= g < |ProviderOrder(list)|
        ensures ModelsOf(list, ProviderOrder(list)[g]) != []
      {
        ExtendGroup(list, |list| - 1, ProviderOrder(list)[g]);
      }
      assert list[..|list| - 1 + 1] == list;
    }
  }

  /** Each entry has its provider's key among the groups and is in that group. */
  lemma EntryInOwnGroup(list: seq<ModelConfig>, i: nat)
    requires i < |list|
    ensures ProviderKey(list[i].provider) in ProviderOrder(list)
    ensures list[i] in ModelsOf(list, ProviderKey(list[i].provider))
  {
    var key := ProviderKey(list[i].provider);
    ExtendOrder(list, i);
    ExtendGroup(list, i, key);
    assert key in ProviderOrder(list[..i + 1]);
    assert list[i] in ModelsOf(list[..i + 1], key);
    ProviderOrderPrefix(list, i + 1);
    ModelsOfPrefix(list, i + 1, key);
  }

  /** The sum of the sizes of the groups of `keys`. */
  function GroupSizes(list: seq<ModelConfig>, keys: seq<string>): nat
  {
    if keys == [] then 0 else |ModelsOf(list, keys[0])| + GroupSizes(list, keys[1..])
  }

  /** How many times `key` occurs in `keys`. */
  function Count(keys: seq<string>, key: string): nat
  {
    if keys == [] then 0 else (if keys[0] == key then 1 else 0) + Count(keys[1..], key)
  }

  /** One more entry adds one to the group sizes for each time its key is listed. */
  lemma {:induction false} GroupSizesExtend(list: seq<ModelConfig>, n: nat, keys: seq<string>)
    requires n < |list|
    ensures GroupSizes(list[..n + 1], keys) == GroupSizes(list[..n], keys) + Count(keys, ProviderKey(list[n].provider))
    decreases |keys|
  {
    if keys != [] {
      ExtendGroup(list, n, keys[0]);
      GroupSizesExtend(list, n, keys[1..]);
    }
  }

  lemma {:induction false} CountAppend(keys: seq<string>, k: string, key: string)
    ensures Count(keys + [k], key) == Count(keys, key) + (if k == key then 1 else 0)
    decreases |keys|
  {
    if keys == [] {
      assert [k][1..] == [];
    } else {
      assert (keys + [k])[1..] == keys[1..] + [k];
      CountAppend(keys[1..], k, key);
    }
  }

  lemma {:induction false} GroupSizesAppend(list: seq<ModelConfig>, keys: seq<string>, k: string)
    ensures GroupSizes(list, keys + [k]) == GroupSizes(list, keys) + |ModelsOf(list, k)|
    decreases |keys|
  {
    if keys == [] {
      assert [k][1..] == [];
    } else {
      assert (keys + [k])[1..] == keys[1..] + [k];
      GroupSizesAppend(list, keys[1..], k);
    }
  }

  /** A key listed once among distinct keys is counted once. */
  lemma {:induction false} CountDistinct(keys: seq<string>, key: string)
    requires forall i, j :: 0 <= i < j < |keys| ==> keys[i] != keys[j]
    ensures Count(keys, key) == if key in keys then 1 else 0
    decreases |keys|
  {
    if keys != [] {
      CountDistinct(keys[1..], key);
      assert key in keys[1..] ==> keys[0] != key;
      assert key in keys <==> key == keys[0] || key in keys[1..];
    }
  }

  /** The groups partition the list: their sizes add up to its length. */
  lemma {:induction false} GroupSizesSum(list: seq<ModelConfig>)
    ensures GroupSizes(list, ProviderOrder(list)) == |list|
    decreases |list|
  {
    if list != [] {
      var n := |list| - 1;
      var init := list[..n];
      var k := ProviderKey(list[n].provider);
      var order := ProviderOrder(init);
      GroupSizesSum(init);
      ExtendOrder(list, n);
      assert list[..n + 1] == list;
      GroupSizesExtend(list, n, ProviderOrder(list));
      ProviderOrderDistinct(list);
      if k in order {
        CountDistinct(order, k);
      } else {
        GroupSizesAppend(init, order, k);
        ModelsOfAbsent(init, k);
        CountDistinct(order + [k], k);
      }
    }
  }

  /** Adding entries only appends to a group: entries keep their list order. */
  lemma {:induction false} ModelsOfPrefix(list: seq<ModelConfig>, n: nat, key: string)
    requires n <= |list|
    ensures ModelsOf(list[..n], key) <= ModelsOf(list, key)
    decreases |list| - n
  {
    if n < |list| {
      ExtendGroup(list, n, key);
      ModelsOfPrefix(list, n + 1, key);
    } else {
      assert list[..n] == list;
    }
  }

  /** Adding entries only appends keys: groups are ordered by first occurrence. */
  lemma {:induction false} ProviderOrderPrefix(list: seq<ModelConfig>, n: nat)
    requires n <= |list|
    ensures ProviderOrder(list[..n]) <= ProviderOrder(list)
    decreases |list| - n
  {
    if n < |list| {
      ExtendOrder(list, n);
      ProviderOrderPrefix(list, n + 1);
    } else {
      assert list[..n] == list;
    }
  }

  // ---------------------------------------------------------------------------
  // Group labels

  /**
   * `getProviderLabel`: fixed labels for the three known providers; any other key
   * has its first character upper-cased and the rest kept.
   */
  function ProviderLabel(provider: string): (text: string)
    ensures provider == "openai" ==> text == "OpenAI"
    ensures provider == "google" ==> text == "Google"
    ensures provider == "anthropic" ==> text == "Anthropic"
    ensures provider !in {"openai", "google", "anthropic"} ==>
      |text| == |provider| && (provider != "" ==> text[0] == UpperChar(provider[0]) && text[1..] == provider[1..])
  {
    if provider == "openai" then "OpenAI"
    else if provider == "google" then "Google"
    else if provider == "anthropic" then "Anthropic"
    else if provider == "" then ""
    else [UpperChar(provider[0])] + provider[1..]
  }

  /** A label never starts with a lower-case ASCII letter. */
  lemma LabelStartsUpper(provider: string)
    ensures ProviderLabel(provider) != "" ==> !('a' <= ProviderLabel(provider)[0] <= 'z')
  {
  }

  // ---------------------------------------------------------------------------
  // Choosing an entry

  /** `handleModelSelect`: exactly one `onModelChange` call, carrying the chosen id. */
  function HandleModelSelect(modelId: string): (calls: seq<string>)
    ensures |calls| == 1 && calls[0] == modelId
  {
    [modelId]
  }

  /**
   * Choosing any entry of any group of the registry menu, and showing the id it hands
   * back as the selection, shows that very entry.
   */
  lemma ChoiceShowsEntry(g: nat, j: nat)
    requires g < |ProviderOrder(Models)| && j < |ModelsOf(Models, ProviderOrder(Models)[g])|
    ensures var m := ModelsOf(Models, ProviderOrder(Models)[g])[j];
      SelectedModel(Models, DefaultModelId, HandleModelSelect(m.id)[0]) == Success(m)
  {
    var m := ModelsOf(Models, ProviderOrder(Models)[g])[j];
    ModelsOfMembers(Models, ProviderOrder(Models)[g]);
    assert m in Models;
    var i :| 0 <= i < |Models| && Models[i] == m;
    RegistryIdsDistinct();
    FindEntry(Models, i);
  }
}
