/**
 * `ValueProviderCollection`: an ordered, mutable list of provider handles
 * that refuses null on construction, on `Add` and on the indexer's set, and
 * that answers prefix queries and lookups by scanning its providers in list
 * order.
 */
module ValueProviderCollections {
  import opened Wrappers
  import opened ValueProviders
  import opened ProviderScans

  /** `ArgumentNullException`, carrying the name of the offending parameter. */
  datatype ArgumentNullException = ArgumentNullException(paramName: string)

  class ValueProviderCollection {
    /** The providers, in scan order. */
    var items: seq<Provider>

    /** The default constructor: an empty collection. */
    constructor ()
      ensures items == [] && Count() == 0
    {
      items := [];
    }

    /**
     * The list-wrapping constructor. A null list throws with parameter name
     * "list"; otherwise the collection holds the list's providers in the
     * list's order.
     */
    static method FromList(list: Option<seq<Provider>>) returns (r: Result<ValueProviderCollection, ArgumentNullException>)
      ensures list.None? <==> r.Failure?
      ensures r.Failure? ==> r.error == ArgumentNullException("list")
      ensures r.Success? ==> fresh(r.value) && r.value.items == list.value
      ensures r.Success? ==> forall i :: 0 <= i < |list.value| ==> r.value.Item(i) == list.value[i]
    {
      if list.None? {
        return Failure(ArgumentNullException("list"));
      }
      var collection := new ValueProviderCollection();
      collection.items := list.value;
      return Success(collection);
    }

    /** `Count`. */
    function Count(): nat
      reads this
    {
      |items|
    }

    /** The indexer's get. */
    function Item(index: nat): Provider
      reads this
      requires index < |items|
    {
      items[index]
    }

    /** `Add`: a null item throws with parameter name "item" and leaves the list as it was. */
    method Add(item: Option<Provider>) returns (r: Outcome<ArgumentNullException>)
      modifies this
      ensures item.None? <==> r.Fail?
      ensures r.Fail? ==> r.error == ArgumentNullException("item") && items == old(items)
      ensures r.Pass? ==> items == old(items) + [item.value]
      ensures r.Pass? ==> Count() == old(Count()) + 1 && Item(Count() - 1) == item.value
      ensures r.Pass? ==>
        forall prefix :: AnyContainsPrefix(items, prefix) ==
          (AnyContainsPrefix(old(items), prefix) || item.value.ContainsPrefix(prefix))
      ensures r.Pass? ==>
        forall key :: FirstValue(items, key) ==
          (if FirstValue(old(items), key).Some? then FirstValue(old(items), key) else Answer(item.value, key))
    {
      if item.None? {
        return Fail(ArgumentNullException("item"));
      }
      ghost var before := items;
      items := items + [item.value];
      forall prefix
        ensures AnyContainsPrefix(items, prefix) == (AnyContainsPrefix(before, prefix) || item.value.ContainsPrefix(prefix))
      {
        AnyContainsPrefixAppend(before, [item.value], prefix);
      }
      forall key
        ensures FirstValue(items, key) ==
                  (if FirstValue(before, key).Some? then FirstValue(before, key) else Answer(item.value, key))
      {
        FirstValueAppend(before, [item.value], key);
        assert [item.value][1..] == [];
      }
      return Pass;
    }

    /**
     * The indexer's set, `collection[index] = item`: a null item throws with
     * parameter name "item" and leaves the list as it was; otherwise it
     * replaces the provider at `index` and nothing else.
     */
    method SetItem(index: nat, item: Option<Provider>) returns (r: Outcome<ArgumentNullException>)
      requires index < |items|
      modifies this
      ensures item.None? <==> r.Fail?
      ensures r.Fail? ==> r.error == ArgumentNullException("item") && items == old(items)
      ensures r.Pass? ==> items == old(items)[index := item.value]
      ensures Count() == old(Count())
      ensures r.Pass? ==> Item(index) == item.value
      ensures forall key, i :: IsFirstHit(old(items), key, i) && i < index ==>
                FirstValue(items, key) == FirstValue(old(items), key)
    {
      if item.None? {
        return Fail(ArgumentNullException("item"));
      }
      ghost var before := items;
      items := items[index := item.value];
      forall key, i | IsFirstHit(before, key, i) && i < index
        ensures FirstValue(items, key) == FirstValue(before, key)
      {
        FirstValueReplaceAfterHit(before, key, i, index, item.value);
      }
      return Pass;
    }

    /** `ContainsPrefix`: true exactly when some provider in the list reports `prefix`. */
    method ContainsPrefix(prefix: string) returns (b: bool)
      ensures b == AnyContainsPrefix(items, prefix)
    {
      var i := 0;
      while i < |items|
        invariant 0 <= i <= |items|
        invariant forall j :: 0 <= j < i ==> !items[j].ContainsPrefix(prefix)
      {
        if items[i].ContainsPrefix(prefix) {
          return true;
        }
        i := i + 1;
      }
      return false;
    }

    /**
     * `GetValue`: the first non-null answer in list order, with each provider
     * asked through `GetValueFromProvider` without skipping validation; null
     * when every provider answers null.
     */
    method GetValue(key: string) returns (r: Option<ValueProviderResult>)
      ensures r == FirstValue(items, key)
    {
      var i := 0;
      while i < |items|
        invariant 0 <= i <= |items|
        invariant forall j :: 0 <= j < i ==> Answer(items[j], key).None?
      {
        var result := GetValueFromProvider(items[i], key, false);
        if result.Some? {
          FirstValueAt(items, key, i);
          return result;
        }
        i := i + 1;
      }
      return None;
    }
  }
}
