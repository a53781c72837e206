/** The static model registry: four model descriptors, looked up by id. */
module Registry {
  import opened Common
  import opened ChatTypes

  /** The registry, in its declared order. */
  const AI_MODELS: seq<AIModel> := [
    AIModel("gpt-4", "OpenAI GPT-4", "openai"),
    AIModel("gpt-3.5", "OpenAI GPT-3.5", "openai"),
    AIModel("claude", "Anthropic Claude", "anthropic"),
    AIModel("gemini", "Google Gemini", "google")
  ]

  /** No two descriptors share an id. */
  predicate DistinctIds(models: seq<AIModel>) {
    forall i, j :: 0 <= i < j < |models| ==> models[i].id != models[j].id
  }

  /** The set of ids present in a list of descriptors. */
  function Ids(models: seq<AIModel>): set<string> {
    set i | 0 <= i < |models| :: models[i].id
  }

  /**
   * The first descriptor whose id equals `id`, as an array `find` returns it,
   * or None when no descriptor carries that id.
   */
  function Find(models: seq<AIModel>, id: string): (r: Option<AIModel>)
    ensures r.None? <==> id !in Ids(models)
    ensures r.Some? ==> r.value in models && r.value.id == id
    ensures r.Some? ==> exists k :: 0 <= k < |models| && models[k] == r.value &&
                          forall j :: 0 <= j < k ==> models[j].id != id
  {
    if models == [] then None
    else if models[0].id == id then Some(models[0])
    else
      var r := Find(models[1..], id);
      assert Ids(models) == {models[0].id} + Ids(models[1..]) by {
        forall x | x in Ids(models) ensures x in {models[0].id} + Ids(models[1..]) {
          var i :| 0 <= i < |models| && models[i].id == x;
          if i > 0 { assert models[1..][i - 1].id == x; }
        }
        forall x | x in Ids(models[1..]) ensures x in Ids(models) {
          var i :| 0 <= i < |models[1..]| && models[1..][i].id == x;
          assert models[i + 1].id == x;
        }
      }
      if r.Some? then
        var k :| 0 <= k < |models[1..]| && models[1..][k] == r.value &&
                 forall j :: 0 <= j < k ==> models[1..][j].id != id;
        assert models[k + 1] == r.value;
        assert forall j :: 0 <= j < k + 1 ==> models[j].id != id by {
          forall j | 0 <= j < k + 1 ensures models[j].id != id {
            if j > 0 { assert models[j].id == models[1..][j - 1].id; }
          }
        }
        r
      else
        r
  }

  /** Lookup in the registry by id. */
  function Lookup(id: string): (r: Option<AIModel>)
    ensures r.Some? ==> r.value in AI_MODELS && r.value.id == id
    ensures r.None? <==> id !in Ids(AI_MODELS)
  {
    Find(AI_MODELS, id)
  }

  /** In a list with distinct ids, looking up an entry's id yields that entry. */
  lemma {:induction false} FindDistinct(models: seq<AIModel>, i: nat)
    requires DistinctIds(models)
    requires i < |models|
    ensures Find(models, models[i].id) == Some(models[i])
  {
    if i > 0 {
      assert models[0].id != models[i].id;
      assert models[1..][i - 1] == models[i];
      FindDistinct(models[1..], i - 1);
    }
  }

  /** The registry holds exactly four entries with ids in the declared order. */
  lemma RegistryShape()
    ensures |AI_MODELS| == 4
    ensures AI_MODELS[0].id == "gpt-4" && AI_MODELS[1].id == "gpt-3.5"
    ensures AI_MODELS[2].id == "claude" && AI_MODELS[3].id == "gemini"
    ensures Ids(AI_MODELS) == {"gpt-4", "gpt-3.5", "claude", "gemini"}
  {
  }

  /** The ids are pairwise distinct, so lookup by id is a partial function. */
  lemma RegistryIdsDistinct()
    ensures DistinctIds(AI_MODELS)
  {
  }

  /** Every registry entry is what lookup of its own id returns. */
  lemma LookupEveryEntry(i: nat)
    requires i < |AI_MODELS|
    ensures Lookup(AI_MODELS[i].id) == Some(AI_MODELS[i])
  {
    RegistryIdsDistinct();
    FindDistinct(AI_MODELS, i);
  }

  /** Display names and providers as the registry lists them. */
  lemma LookupTable()
    ensures Lookup("gpt-4") == Some(AIModel("gpt-4", "OpenAI GPT-4", "openai"))
    ensures Lookup("gpt-3.5") == Some(AIModel("gpt-3.5", "OpenAI GPT-3.5", "openai"))
    ensures Lookup("claude") == Some(AIModel("claude", "Anthropic Claude", "anthropic"))
    ensures Lookup("gemini") == Some(AIModel("gemini", "Google Gemini", "google"))
  {
    LookupEveryEntry(0);
    LookupEveryEntry(1);
    LookupEveryEntry(2);
    LookupEveryEntry(3);
  }

  /** Lookup succeeds exactly on the four registry ids. */
  lemma LookupDefinedOn(id: string)
    ensures Lookup(id).Some? <==> id in {"gpt-4", "gpt-3.5", "claude", "gemini"}
  {
    RegistryShape();
  }
}
