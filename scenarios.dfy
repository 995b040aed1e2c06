/**
 * The collection's unit tests, each replayed as a client of the model for
 * arbitrary providers configured the way the test configures its mocks.
 */
module ValueProviderCollectionTests {
  import opened Wrappers
  import opened ValueProviders
  import opened ProviderScans
  import opened ValueProviderCollections

  /** Wrapping a two-element list yields those two providers, in order. */
  method ListWrappingConstructor(p1: Provider, p2: Provider) returns (c: ValueProviderCollection)
    ensures c.Count() == 2 && c.Item(0) == p1 && c.Item(1) == p2
  {
    var r := ValueProviderCollection.FromList(Some([p1, p2]));
    c := r.value;
  }

  /** Wrapping a null list throws with parameter name "list". */
  method ListWrappingConstructorThrowsIfListIsNull() returns (e: ArgumentNullException)
    ensures e.paramName == "list"
  {
    var r := ValueProviderCollection.FromList(None);
    e := r.error;
  }

  /** A new collection is empty. */
  method DefaultConstructor() returns (count: nat)
    ensures count == 0
  {
    var c := new ValueProviderCollection();
    count := c.Count();
  }

  /** Adding null throws with parameter name "item". */
  method AddNullValueProviderThrows() returns (e: ArgumentNullException)
    ensures e.paramName == "item"
  {
    var c := new ValueProviderCollection();
    var r := c.Add(None);
    e := r.error;
  }

  /** Overwriting position 0 keeps the count at 1 and stores the new provider. */
  method SetItem(original: Provider, newProvider: Provider) returns (count: nat, stored: Provider)
    ensures count == 1 && stored == newProvider
  {
    var c := new ValueProviderCollection();
    var added := c.Add(Some(original));
    var replaced := c.SetItem(0, Some(newProvider));
    count, stored := c.Count(), c.Item(0);
  }

  /** Setting position 0 to null throws with parameter name "item". */
  method SetNullValueProviderThrows(original: Provider) returns (e: ArgumentNullException)
    ensures e.paramName == "item"
  {
    var c := new ValueProviderCollection();
    var added := c.Add(Some(original));
    var r := c.SetItem(0, None);
    e := r.error;
  }

  /** Answers false, true, false in list order make the collection report the prefix. */
  method ContainsPrefix(p1: Provider, p2: Provider, p3: Provider, prefix: string) returns (retVal: bool)
    requires !p1.ContainsPrefix(prefix) && p2.ContainsPrefix(prefix) && !p3.ContainsPrefix(prefix)
    ensures retVal
  {
    var c := new ValueProviderCollection();
    var a1 := c.Add(Some(p1));
    var a2 := c.Add(Some(p2));
    var a3 := c.Add(Some(p3));
    retVal := c.ContainsPrefix(prefix);
  }

  /**
   * Plain providers answering null, "2" and "3" in list order: the lookup
   * yields the second provider's result, not the third's.
   */
  method GetValue(p1: Provider, p2: Provider, p3: Provider, key: string, r2: ValueProviderResult, r3: ValueProviderResult)
    returns (result: Option<ValueProviderResult>)
    requires p1.Standard? && p2.Standard? && p3.Standard?
    requires p1.GetValue(key) == None && p2.GetValue(key) == Some(r2) && p3.GetValue(key) == Some(r3)
    ensures result == Some(r2)
  {
    var c := new ValueProviderCollection();
    var a1 := c.Add(Some(p1));
    var a2 := c.Add(Some(p2));
    var a3 := c.Add(Some(p3));
    assert IsFirstHit(c.items, key, 1);
    result := c.GetValue(key);
    FirstValueAt(c.items, key, 1);
  }

  /** A plain provider is asked `GetValue(key)` whether or not validation is skipped. */
  lemma NormalProviderEitherFlag(provider: Provider, expected: ValueProviderResult)
    requires provider.Standard? && provider.GetValue("key") == Some(expected)
    ensures GetValueFromProvider(provider, "key", false) == Some(expected)
    ensures GetValueFromProvider(provider, "key", true) == Some(expected)
  {
  }

  /** An unvalidated provider is asked `GetValue(key, skipValidation)` with the caller's flag. */
  lemma UnvalidatedProviderEitherFlag(provider: Provider, skipValidation: bool, expected: ValueProviderResult)
    requires provider.Unvalidated? && provider.GetValueWithFlag("key", skipValidation) == Some(expected)
    ensures GetValueFromProvider(provider, "key", skipValidation) == Some(expected)
  {
  }
}
