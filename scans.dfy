/**
 * The two read-only scans the collection performs over its providers, in
 * list order: an "any" over the prefix answers, and a "first non-null" over
 * the lookup answers.
 */
module ProviderScans {
  import opened Wrappers
  import opened ValueProviders

  /** The answer the collection's lookup asks of one provider. */
  function Answer(provider: Provider, key: string): Option<ValueProviderResult> {
    GetValueFromProvider(provider, key, false)
  }

  /** True if some provider in `providers` reports `prefix`. */
  function AnyContainsPrefix(providers: seq<Provider>, prefix: string): (b: bool)
    ensures b <==> exists i :: 0 <= i < |providers| && providers[i].ContainsPrefix(prefix)
  {
    if providers == [] then false
    else if providers[0].ContainsPrefix(prefix) then true
    else
      assert forall i :: 1 <= i < |providers| ==> providers[i] == providers[1..][i - 1];
      AnyContainsPrefix(providers[1..], prefix)
  }

  /** Position `i` holds the first provider whose answer for `key` is not null. */
  ghost predicate IsFirstHit(providers: seq<Provider>, key: string, i: int) {
    0 <= i < |providers| && Answer(providers[i], key).Some? &&
    forall j :: 0 <= j < i ==> Answer(providers[j], key).None?
  }

  /** The first non-null answer for `key`, in list order; null if every answer is null. */
  function FirstValue(providers: seq<Provider>, key: string): (r: Option<ValueProviderResult>)
    ensures r.None? <==> forall i :: 0 <= i < |providers| ==> Answer(providers[i], key).None?
    ensures r.Some? ==> exists i :: IsFirstHit(providers, key, i) && r == Answer(providers[i], key)
  {
    if providers == [] then None
    else if Answer(providers[0], key).Some? then
      assert IsFirstHit(providers, key, 0);
      Answer(providers[0], key)
    else
      var r := FirstValue(providers[1..], key);
      assert forall i :: 1 <= i < |providers| ==> providers[i] == providers[1..][i - 1];
      assert r.Some? ==> exists i :: IsFirstHit(providers, key, i) && r == Answer(providers[i], key) by {
        if r.Some? {
          var i :| IsFirstHit(providers[1..], key, i) && r == Answer(providers[1..][i], key);
          assert IsFirstHit(providers, key, i + 1);
        }
      }
      r
  }

  /**
   * The first hit determines the lookup: whatever follows it is never the
   * answer. This follows from `FirstValue`'s contract, since a list has at
   * most one first hit.
   */
  lemma FirstValueAt(providers: seq<Provider>, key: string, i: int)
    requires IsFirstHit(providers, key, i)
    ensures FirstValue(providers, key) == Answer(providers[i], key)
  {
  }

  /** Appending providers can only make a prefix query true, never false. */
  lemma {:induction false} AnyContainsPrefixAppend(front: seq<Provider>, back: seq<Provider>, prefix: string)
    ensures AnyContainsPrefix(front + back, prefix) == (AnyContainsPrefix(front, prefix) || AnyContainsPrefix(back, prefix))
  {
    if front != [] {
      assert (front + back)[1..] == front[1..] + back;
      AnyContainsPrefixAppend(front[1..], back, prefix);
    } else {
      assert front + back == back;
    }
  }

  /**
   * Appending providers never changes a lookup that already succeeds; a
   * lookup that fails on `front` is answered by `back`.
   */
  lemma {:induction false} FirstValueAppend(front: seq<Provider>, back: seq<Provider>, key: string)
    ensures FirstValue(front + back, key) ==
              if FirstValue(front, key).Some? then FirstValue(front, key) else FirstValue(back, key)
  {
    if front != [] {
      assert (front + back)[1..] == front[1..] + back;
      FirstValueAppend(front[1..], back, key);
    } else {
      assert front + back == back;
    }
  }

  /** Replacing a provider behind the first hit leaves the lookup unchanged. */
  lemma FirstValueReplaceAfterHit(providers: seq<Provider>, key: string, i: int, j: int, p: Provider)
    requires IsFirstHit(providers, key, i) && i < j < |providers|
    ensures FirstValue(providers[j := p], key) == FirstValue(providers, key)
  {
    assert IsFirstHit(providers[j := p], key, i);
    FirstValueAt(providers[j := p], key, i);
    FirstValueAt(providers, key, i);
  }
}
