/**
 * Value providers as the collection sees them: handles that answer prefix
 * queries and key lookups. A plain provider implements `IValueProvider`
 * only; an unvalidated provider implements `IUnvalidatedValueProvider`,
 * which adds a lookup taking a skip-validation flag.
 */
module ValueProviders {
  import opened Wrappers

  /**
   * The opaque result of a successful lookup. The collection never looks
   * inside it; `handle` stands for the object's identity, so two results are
   * equal exactly when they are the same object.
   */
  datatype ValueProviderResult = ValueProviderResult(handle: nat)

  /**
   * A provider with fixed answers. `handle` tells apart providers whose
   * answers are equal, as two distinct mock objects are; equality of
   * `Provider` values compares every field, handle and answers. A key that
   * is absent from a map is a lookup that returns null, and a prefix that is
   * absent from `prefixes` is a prefix query that answers false.
   */
  datatype Provider =
    | Standard(handle: nat, prefixes: set<string>, values: map<string, ValueProviderResult>)
    | Unvalidated(handle: nat, prefixes: set<string>, values: map<string, ValueProviderResult>,
                  validatedValues: map<string, ValueProviderResult>,
                  unvalidatedValues: map<string, ValueProviderResult>)
  {
    /** `IValueProvider.ContainsPrefix(prefix)`. */
    predicate ContainsPrefix(prefix: string) {
      prefix in prefixes
    }

    /** `IValueProvider.GetValue(key)`. */
    function GetValue(key: string): Option<ValueProviderResult> {
      Find(values, key)
    }

    /** `IUnvalidatedValueProvider.GetValue(key, skipValidation)`. */
    function GetValueWithFlag(key: string, skipValidation: bool): Option<ValueProviderResult>
      requires Unvalidated?
    {
      Find(if skipValidation then unvalidatedValues else validatedValues, key)
    }
  }

  /** The answer a map of fixed answers gives for `key`; null when absent. */
  function Find(answers: map<string, ValueProviderResult>, key: string): Option<ValueProviderResult> {
    if key in answers then Some(answers[key]) else None
  }

  /**
   * `ValueProviderCollection.GetValueFromProvider`: the single place that
   * branches on the provider's capability. An unvalidated provider receives
   * the flag; a plain provider is validation-agnostic and is asked the
   * one-argument lookup whatever the flag is.
   */
  function GetValueFromProvider(provider: Provider, key: string, skipValidation: bool): Option<ValueProviderResult> {
    match provider
    case Unvalidated(_, _, _, _, _) => provider.GetValueWithFlag(key, skipValidation)
    case Standard(_, _, _) => provider.GetValue(key)
  }

  /** A plain provider gives the same answer for either flag. */
  lemma PlainProviderIgnoresFlag(provider: Provider, key: string, flag1: bool, flag2: bool)
    requires provider.Standard?
    ensures GetValueFromProvider(provider, key, flag1) == GetValueFromProvider(provider, key, flag2)
    ensures GetValueFromProvider(provider, key, flag1) == Find(provider.values, key)
  {
  }

  /**
   * An unvalidated provider's flag flows through unchanged: each flag gets
   * the answer configured for that flag, so when the two configured answers
   * differ, the dispatcher's two answers differ too.
   */
  lemma UnvalidatedProviderReceivesFlag(provider: Provider, key: string)
    requires provider.Unvalidated?
    ensures GetValueFromProvider(provider, key, false) == Find(provider.validatedValues, key)
    ensures GetValueFromProvider(provider, key, true) == Find(provider.unvalidatedValues, key)
    ensures provider.GetValueWithFlag(key, false) != provider.GetValueWithFlag(key, true) ==>
              GetValueFromProvider(provider, key, false) != GetValueFromProvider(provider, key, true)
  {
  }
}
