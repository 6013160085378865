/** The API-key registry of the settings page (src/pages/Settings.tsx): keys
    are appended from a small form and deleted by id. */
module Settings {
  import opened Text
  import opened Seqs

  datatype ApiKey = ApiKey(id: string, name: string, key: string, created: int)

  /** The add-key form: a name and an unused description. */
  datatype KeyForm = KeyForm(name: string, description: string)

  const EmptyForm := KeyForm("", "")

  const KeyPrefix := "new_****"

  /** The two keys the page starts with, created on 2024-01-15 and 2024-01-20. */
  const InitialKeys := [
    ApiKey("1", "Threat Intelligence API", "ti_****1234", 1705276800000),
    ApiKey("2", "SIEM Integration", "siem_****5678", 1705708800000)
  ]

  /** `Math.floor(draw * 10000)` for a draw `Math.random()` returns. */
  function KeySuffix(draw: real): (n: nat)
    requires 0.0 <= draw < 1.0
    ensures n < 10000
    ensures n as real <= draw * 10000.0 < n as real + 1.0
  {
    (draw * 10000.0).Floor
  }

  /** The key `handleAddApiKey` creates for a list of `count` keys. */
  function NewKey(count: nat, name: string, draw: real, now: int): (k: ApiKey)
    requires 0.0 <= draw < 1.0
    ensures k.name == name && k.created == now
    ensures k.id == NatToString(count + 1) && k.key == KeyPrefix + NatToString(KeySuffix(draw))
    ensures AllDigits(k.id) && ParseNat(k.id) == count + 1
    ensures |k.key| > |KeyPrefix| && k.key[..|KeyPrefix|] == KeyPrefix
    ensures AllDigits(k.key[|KeyPrefix|..]) && ParseNat(k.key[|KeyPrefix|..]) < 10000
  {
    var suffix := KeySuffix(draw);
    ParseNatToString(count + 1);
    ParseNatToString(suffix);
    var key := KeyPrefix + NatToString(suffix);
    assert key[|KeyPrefix|..] == NatToString(suffix);
    ApiKey(NatToString(count + 1), name, key, now)
  }

  /** `apiKeys.filter(k => k.id !== id)`. */
  function WithoutKey(keys: seq<ApiKey>, id: string): seq<ApiKey>
  {
    Filter(keys, (k: ApiKey) => k.id != id)
  }

  /** Deleting removes every key with the id and keeps every copy of the
      others, in order. */
  lemma WithoutKeyExactly(keys: seq<ApiKey>, id: string)
    ensures IsSubsequence(WithoutKey(keys, id), keys)
    ensures forall k :: k in WithoutKey(keys, id) <==> k in keys && k.id != id
    ensures forall k :: multiset(WithoutKey(keys, id))[k] == if k.id != id then multiset(keys)[k] else 0
  {
    FilterIsSubsequence(keys, (k: ApiKey) => k.id != id);
    FilterMultiset(keys, (k: ApiKey) => k.id != id);
  }

  /** Deleting an id no key has leaves the list unchanged. */
  lemma WithoutAbsentKey(keys: seq<ApiKey>, id: string)
    requires forall i :: 0 <= i < |keys| ==> keys[i].id != id
    ensures WithoutKey(keys, id) == keys
  {
    FilterAllKept(keys, (k: ApiKey) => k.id != id);
  }

  /** Deleting twice is deleting once. */
  lemma WithoutKeyTwice(keys: seq<ApiKey>, id: string)
    ensures WithoutKey(WithoutKey(keys, id), id) == WithoutKey(keys, id)
  {
    FilterIdempotent(keys, (k: ApiKey) => k.id != id);
  }

  /** The settings page's API-key state. */
  class SettingsPage {
    var apiKeys: seq<ApiKey>
    var newApiKey: KeyForm

    constructor ()
      ensures apiKeys == InitialKeys && newApiKey == EmptyForm
    {
      apiKeys := InitialKeys;
      newApiKey := EmptyForm;
    }

    /** Typing in the form's fields. */
    method EditForm(form: KeyForm)
      modifies this`newApiKey
      ensures newApiKey == form
    {
      newApiKey := form;
    }

    /** `handleAddApiKey`, with `Math.random()` as `draw` and `new Date()` as
        `now`: with a name entered, one key is appended and the form is
        cleared; with no name, nothing changes. */
    method AddApiKey(draw: real, now: int)
      requires 0.0 <= draw < 1.0
      modifies this
      ensures old(newApiKey.name) == "" ==> apiKeys == old(apiKeys) && newApiKey == old(newApiKey)
      ensures old(newApiKey.name) != "" ==>
        && apiKeys == old(apiKeys) + [NewKey(|old(apiKeys)|, old(newApiKey.name), draw, now)]
        && newApiKey == EmptyForm
    {
      if newApiKey.name != "" {
        var key := NewKey(|apiKeys|, newApiKey.name, draw, now);
        apiKeys := apiKeys + [key];
        newApiKey := EmptyForm;
      }
    }

    /** `handleDeleteApiKey(id)`. */
    method DeleteApiKey(id: string)
      modifies this`apiKeys
      ensures apiKeys == WithoutKey(old(apiKeys), id)
    {
      apiKeys := WithoutKey(apiKeys, id);
    }
  }

  /** Key ids are not unique: deleting key "1" of the initial pair and then
      adding a key gives the new key the id "2", which the remaining key
      already has. */
  lemma DuplicateIdAfterDelete(name: string, draw: real, now: int)
    requires 0.0 <= draw < 1.0
    ensures var kept := WithoutKey(InitialKeys, "1");
            var keys := kept + [NewKey(|kept|, name, draw, now)];
            |keys| == 2 && keys[0].id == keys[1].id == "2"
  {
    var kept := WithoutKey(InitialKeys, "1");
    assert kept == [InitialKeys[1]] by {
      assert InitialKeys[1..] == [InitialKeys[1]];
      assert InitialKeys[1..][1..] == [];
    }
    assert NewKey(1, name, draw, now).id == "2" by {
      assert NatToString(2) == [DigitChar(2)];
    }
  }
}
