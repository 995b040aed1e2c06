# ValueProviderCollection (ASP.NET MVC 3), modelled in Dafny

ASP.NET MVC's `ValueProviderCollection` is an ordered, mutable list of value
providers. A model binder asks it whether any provider knows a key prefix
(`ContainsPrefix`) and asks it for the value of a key (`GetValue`). The lookup
returns the first non-null answer in list order. The collection refuses null
providers. The static helper `GetValueFromProvider` is the one place that
branches on a provider's capability. A provider implementing
`IUnvalidatedValueProvider` receives the caller's skip-validation flag. A plain
`IValueProvider` is asked the one-argument `GetValue(key)`, whatever the flag is.

The behaviour modelled is the one pinned down by the collection's unit tests
in `mvc3/test/SystemWebMvcTest/Mvc/Test/ValueProviderCollectionTest.cs`.

Files (all verified together):

- `wrappers.dfy` (`Wrappers`): `Option` stands in for a null reference. `Result` and `Outcome` stand in for a call that may throw.
- `providers.dfy` (`ValueProviders`): the opaque `ValueProviderResult`, whose only field is its identity `handle`, so two results are equal exactly when they are the same object. The `Provider` datatype has two variants: `Standard` for a plain `IValueProvider` and `Unvalidated` for `IUnvalidatedValueProvider`. Each provider's answers are fixed: a set of prefixes and maps from key to result, where an absent key means null. This file also holds the dispatcher `GetValueFromProvider` and its two flag lemmas.
- `scans.dfy` (`ProviderScans`): the two scans as pure recursive functions. `AnyContainsPrefix` is proved equal to "some position reports the prefix". `FirstValue` is proved equal to "the answer at the first non-null position". The file also has lemmas on appending providers and on replacing providers.
- `collection.dfy` (`ValueProviderCollections`): the class `ValueProviderCollection`, with a `seq<Provider>` field that its methods reassign. It has the default constructor and, for the list-wrapping constructor, the static method `FromList`, which returns a `Result` because a Dafny constructor cannot fail. It also has `Count`, the indexer get and set, `Add`, and loop-based `ContainsPrefix` and `GetValue`, each proved equal to the scan function.
- `scenarios.dfy` (`ValueProviderCollectionTests`): each unit test replayed as a client of the model, for arbitrary providers configured the way the test configures its mocks.

Null arguments (`ArgumentNullException` naming `"list"` or `"item"`) are modelled as `Failure`/`Fail` results, not as preconditions. A failing call leaves the list unchanged.

## Model

| member | source | states |
|---|---|---|
| `ValueProviders.GetValueFromProvider` | mvc3/test/SystemWebMvcTest/Mvc/Test/ValueProviderCollectionTest.cs:135-192 | The dispatcher. No contract of its own: `PlainProviderIgnoresFlag` and `UnvalidatedProviderReceivesFlag` state, for every provider and key, that a plain provider gives its one-argument answer whatever the flag is, and an unvalidated provider gives its answer for the caller's flag. |
| `ValueProviders.PlainProviderIgnoresFlag` | mvc3/test/SystemWebMvcTest/Mvc/Test/ValueProviderCollectionTest.cs:135-162 | For a plain provider the dispatcher's answer is the same for both flags. It is the provider's configured answer for the key. |
| `ValueProviders.UnvalidatedProviderReceivesFlag` | mvc3/test/SystemWebMvcTest/Mvc/Test/ValueProviderCollectionTest.cs:164-192 | For an unvalidated provider, flag false gets the validated answer and flag true gets the unvalidated answer. When those two differ, the dispatcher's two answers differ too, so the flag flows through. |
| `ProviderScans.AnyContainsPrefix` | mvc3/test/SystemWebMvcTest/Mvc/Test/ValueProviderCollectionTest.cs:88-108 | True if and only if some provider in the list reports the prefix. |
| `ProviderScans.FirstValue` | mvc3/test/SystemWebMvcTest/Mvc/Test/ValueProviderCollectionTest.cs:111-132 | Null if and only if every provider answers null. Otherwise it is the answer at a position where every earlier provider answered null. |
| `ProviderScans.FirstValueAt` | mvc3/test/SystemWebMvcTest/Mvc/Test/ValueProviderCollectionTest.cs:111-132 | If position i holds the first non-null answer, the lookup returns exactly that answer, never a later provider's. |
| `ProviderScans.AnyContainsPrefixAppend` | mvc3/test/SystemWebMvcTest/Mvc/Test/ValueProviderCollectionTest.cs:99-104 | The prefix query on a list grown by appending is the OR of the query on the two parts. `Add` uses it for its effect on `ContainsPrefix`. |
| `ProviderScans.FirstValueAppend` | mvc3/test/SystemWebMvcTest/Mvc/Test/ValueProviderCollectionTest.cs:122-127 | Appending providers keeps a lookup that already succeeds. A lookup that fails on the front part is answered by the appended part. `Add` uses it for its effect on `GetValue`. |
| `ProviderScans.FirstValueReplaceAfterHit` | mvc3/test/SystemWebMvcTest/Mvc/Test/ValueProviderCollectionTest.cs:115-130 | Replacing a provider behind the first non-null answer does not change the lookup. `SetItem` uses it for its effect on `GetValue`. |
| `ValueProviderCollections.ValueProviderCollection.constructor` | mvc3/test/SystemWebMvcTest/Mvc/Test/ValueProviderCollectionTest.cs:36-42 | The default constructor yields an empty collection, with `Count() == 0`. |
| `ValueProviderCollections.ValueProviderCollection.FromList` | mvc3/test/SystemWebMvcTest/Mvc/Test/ValueProviderCollectionTest.cs:12-33 | A null list fails with `ArgumentNullException("list")`, and only a null list fails. Otherwise a fresh collection holds the list's providers in the list's order. |
| `ValueProviderCollections.ValueProviderCollection.Count` | mvc3/test/SystemWebMvcTest/Mvc/Test/ValueProviderCollectionTest.cs:41 | The number of providers held, read at line 41 and again at line 69. It has no contract of its own: the constructors' and mutators' ensures give `items`, and through it `Count()`. |
| `ValueProviderCollections.ValueProviderCollection.Item` | mvc3/test/SystemWebMvcTest/Mvc/Test/ValueProviderCollectionTest.cs:70 | The indexer get `collection[index]`: the provider at `index`, for `index < Count()`. It has no contract of its own: the constructors' and mutators' ensures give `items`, and through it `Item(index)`. |
| `ValueProviderCollections.ValueProviderCollection.Add` | mvc3/test/SystemWebMvcTest/Mvc/Test/ValueProviderCollectionTest.cs:45-55 | A null item fails with `ArgumentNullException("item")` and leaves the list unchanged. Otherwise the item is appended, so the count grows by one and the last element is the item. |
| `ValueProviderCollections.ValueProviderCollection.SetItem` | mvc3/test/SystemWebMvcTest/Mvc/Test/ValueProviderCollectionTest.cs:58-85 | A null item fails with `ArgumentNullException("item")` and leaves the list unchanged. Otherwise only position `index` changes and it now holds the item. The count is unchanged in both cases. A lookup whose first non-null answer lies before `index` keeps its answer. |
| `ValueProviderCollections.ValueProviderCollection.ContainsPrefix` | mvc3/test/SystemWebMvcTest/Mvc/Test/ValueProviderCollectionTest.cs:88-108 | The scan over the current contents returns `AnyContainsPrefix` of those contents. |
| `ValueProviderCollections.ValueProviderCollection.GetValue` | mvc3/test/SystemWebMvcTest/Mvc/Test/ValueProviderCollectionTest.cs:111-132 | The scan over the current contents, asking each provider without skipping validation, returns `FirstValue` of those contents. |
| `ValueProviderCollectionTests.ListWrappingConstructor` | mvc3/test/SystemWebMvcTest/Mvc/Test/ValueProviderCollectionTest.cs:12-23 | Wrapping `[p1, p2]` gives a collection of count 2 holding `p1` then `p2`. |
| `ValueProviderCollectionTests.ListWrappingConstructorThrowsIfListIsNull` | mvc3/test/SystemWebMvcTest/Mvc/Test/ValueProviderCollectionTest.cs:26-33 | Wrapping null fails, and the error names `"list"`. |
| `ValueProviderCollectionTests.DefaultConstructor` | mvc3/test/SystemWebMvcTest/Mvc/Test/ValueProviderCollectionTest.cs:36-42 | A new collection has count 0. |
| `ValueProviderCollectionTests.AddNullValueProviderThrows` | mvc3/test/SystemWebMvcTest/Mvc/Test/ValueProviderCollectionTest.cs:45-55 | `Add(null)` fails, and the error names `"item"`. |
| `ValueProviderCollectionTests.SetItem` | mvc3/test/SystemWebMvcTest/Mvc/Test/ValueProviderCollectionTest.cs:58-71 | After one `Add` and `collection[0] = newProvider`, the count is 1 and position 0 holds `newProvider`. |
| `ValueProviderCollectionTests.SetNullValueProviderThrows` | mvc3/test/SystemWebMvcTest/Mvc/Test/ValueProviderCollectionTest.cs:74-85 | `collection[0] = null` fails, and the error names `"item"`. |
| `ValueProviderCollectionTests.ContainsPrefix` | mvc3/test/SystemWebMvcTest/Mvc/Test/ValueProviderCollectionTest.cs:88-108 | Prefix answers false, true, false in list order make the collection report the prefix. |
| `ValueProviderCollectionTests.GetValue` | mvc3/test/SystemWebMvcTest/Mvc/Test/ValueProviderCollectionTest.cs:111-132 | With plain providers answering null, `r2` and `r3` in list order, the lookup gives `r2`, the second provider's result. |
| `ValueProviderCollectionTests.NormalProviderEitherFlag` | mvc3/test/SystemWebMvcTest/Mvc/Test/ValueProviderCollectionTest.cs:135-162 | A plain provider configured with `GetValue("key")` gives that result through the dispatcher for flag false and for flag true. |
| `ValueProviderCollectionTests.UnvalidatedProviderEitherFlag` | mvc3/test/SystemWebMvcTest/Mvc/Test/ValueProviderCollectionTest.cs:164-192 | An unvalidated provider configured with `GetValue("key", flag)` gives that result through the dispatcher for the same flag. |

## Left out

- Mock objects, `ExceptionHelper` and the test attributes are test harness. Providers are modelled as values with fixed answers. A mock's defaults (null for a lookup, false for a prefix query) are the absent map key and the absent prefix.
- `ValueProviderResult.ConvertTo` (type and culture conversion) is not part of this model. Results are compared by identity (`handle`), and the test's `ConvertTo(typeof(int)) == 2` becomes "the result is the second provider's result".
- The concrete providers (form, query string, route data) and the request pipeline are not part of this model.
- Call counts and short-circuiting are not claimed; the tests do not assert them.
- GetValue: the lookup test at ValueProviderCollectionTest.cs:111-132 uses plain providers only. Asking an unvalidated provider in the collection `GetValue(key, false)`, through `GetValueFromProvider`, is this model's own choice.
- Exceptions thrown by a provider during a scan are not modelled, because providers here are total values.
- FromList: a null element inside an adopted list is not representable, because the collection's element type is a non-null `Provider`. The source's wrapping constructor does not check the elements, and the tests never pass a null element.
- FromList: the source wraps the caller's list, so later changes through either handle are visible through the other. The model copies the list's value at construction, so this aliasing is not captured.
- `Insert`, `Remove`, `Clear` and the collection's own two-argument `GetValue(key, skipValidation)` are not exercised by the tests and are not part of this model.
- An index out of range is the underlying list's contract and is a precondition of `SetItem` and `Item`.
- Thread safety: the collection is not synchronized, and the model is sequential.
