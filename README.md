# Model catalog and model resolver of open-deep-research, in Dafny

This project models the model-catalog and model-binding core of
open-deep-research (`lib/ai/`) and proves properties of that model:

- **Catalog refresh** (`lib/ai/fetch-models.ts`, module `FetchModels`). The
  raw OpenRouter listing is sorted in place by descending context length. An
  array insertion sort stands in for JavaScript's stable `Array.prototype.sort`.
  Each entry is then converted to a `Model`:
  - its category comes from an ordered, case-sensitive first-match test on the raw id;
  - its tags come from six guarded pushes: five substring tests on the lowercased id
    and one threshold test on the context length;
  - its short id, description and capability flags come from the id and the entry.

  The catalog store is replaced only when the listing was retrieved.
- **Catalog store and queries** (`lib/ai/models.ts`, module `Models`). It holds:
  - the fixed eight-entry provider registry;
  - the `Model` descriptor and the `ModelCategory` enumeration;
  - the module-level `models` array, as the class `Catalog`. Its `UpdateModels`
    method replaces the contents wholesale. Its four `getModelsBy*` queries are
    order-preserving filters.
- **Provider resolver** (`lib/ai/index.ts`, module `Resolver`). It covers:
  - the two allow-lists;
  - `getReasoningModel`, with its fallback to `o1-mini` and the warnings it prints;
  - the provider chain of `customModel`, from the configured keys and the shape
    of the identifier;
  - the wrapping of the bound model with the middleware.
- **Request middleware** (`lib/ai/custom-middleware.ts`, module `CustomMiddleware`).
  Given a request, `experimental_modifyRequest` returns it with the
  `HTTP-Referer` and `X-Title` headers merged in when an OpenRouter key is set,
  and returns it unchanged otherwise.

The supporting modules are:
- `Seqs`: `Option`, `filter`, `map`, subsequences and permutations.
- `Strings`: `includes`, `startsWith`, ASCII `toLowerCase`, `split('/')`,
  `replace` with a string pattern, and the regular expression `/^.*?\//`.
- `Environment`: the environment variables, as one record passed as a parameter.

Points of the code that are easy to misread, modelled as the code has them:

- Categorisation tests the raw id case-sensitively: `MISTRAL` is `Latest`
  (`UpperCaseMistralIsLatest`). Only the tag tests lowercase the id.
- The refresh never applies the zod `ModelSchema`. Every raw entry becomes a
  model and none is dropped (`NormalizeKeepsEveryEntry`). The provider is
  always the `openrouter` registry entry, never a synthetic one.
- The store has no lookup of a model by its identifier. Only the four filter
  queries exist.
- The middleware tests `OPENROUTER_API_KEY` for plain truthiness.
  `customModel` also rejects the placeholder `****`. So with the placeholder,
  no OpenRouter binding is made, yet `experimental_modifyRequest` still returns
  the request with the OpenRouter headers (`PlaceholderKeyStillAddsHeaders`).
- Without an OpenRouter key, the OpenAI-key branch of the chain gives the
  same binding as the fallback branch: both drop the `openai/` segment
  (`OpenAIKeyDoesNotChangeBinding`, `FallbackDropsFirstSegment`).

`customModel` and every other pure operation are Dafny functions, so they are
total and deterministic by construction.

## Model

| member | source | states |
|---|---|---|
| Models.ProviderIdsDistinct | lib/ai/models.ts:17-106 | the registry has eight entries, and their ids are pairwise distinct |
| Models.FindFirst | lib/ai/fetch-models.ts:72 | `find` returns the first entry with the id: if entry `k` has it and no earlier entry does, the result is entry `k` |
| Models.FindProvider | lib/ai/fetch-models.ts:72 | a found entry is in the list and has the id. Nothing is found exactly when no entry has it. The found entry follows only entries with other ids |
| Models.RegistryShape | lib/ai/models.ts:96 | looking up `openrouter` yields the eighth registry entry, so the non-null assertion never fails |
| Models.OpenRouterProvider | lib/ai/fetch-models.ts:72 | the provider attached to fetched models is registry entry 7, with id `openrouter` |
| Models.Catalog.constructor | lib/ai/models.ts:140 | the store starts empty |
| Models.Catalog.UpdateModels | lib/ai/models.ts:143-145 | after the call the store is exactly the new list |
| Models.Catalog.GetModelsByCategory | lib/ai/models.ts:151-152 | a model is returned exactly when it is stored with that category; each is returned as often as it is stored; store order is kept |
| Models.Catalog.GetModelsByCapability | lib/ai/models.ts:155-156 | a model is returned exactly when it is stored with that capability set; multiplicities and order are kept |
| Models.Catalog.GetModelsByTag | lib/ai/models.ts:159-160 | a model is returned exactly when it is stored with that tag; multiplicities and order are kept |
| Models.Catalog.GetModelsByProvider | lib/ai/models.ts:163-164 | a model is returned exactly when it is stored with that provider id; multiplicities and order are kept |
| Models.Catalog.CategoryQueriesPartition | lib/ai/models.ts:109-114 | every stored model is returned by the query for its own category and by no other. Together the four results hold each stored occurrence exactly once |
| FetchModels.GetModelCategory | lib/ai/fetch-models.ts:16-31 | no contract of its own; see `CategoryFollowsTable`, `EarlierRuleWins`, `NoLowerCaseIdIsLatest` |
| FetchModels.FirstMatch | lib/ai/fetch-models.ts:16-31 | the result is the category of the first rule whose markers occur, or the default when no rule matches |
| FetchModels.CategoryFollowsTable | lib/ai/fetch-models.ts:16-31 | `getModelCategory` equals first-match over the four ordered rules, defaulting to `Latest` |
| FetchModels.EarlierRuleWins | lib/ai/fetch-models.ts:17-22 | an id containing both `gpt-4` and `mistral` is `Latest` |
| FetchModels.NoLowerCaseIdIsLatest | lib/ai/fetch-models.ts:16-31 | an id without lower-case letters matches no rule and is `Latest` |
| FetchModels.LowerCaseMistralIsEfficient | lib/ai/fetch-models.ts:20-21 | `mistral` is `Efficient` |
| FetchModels.UpperCaseMistralIsLatest | lib/ai/fetch-models.ts:29-30 | `MISTRAL` is `Latest`: the tests are case-sensitive |
| FetchModels.RunTagTests | lib/ai/fetch-models.ts:36-43 | no contract of its own; five substring tests on the lowercased id and one threshold test on the context length, see `TagMembership` |
| FetchModels.PushTags | lib/ai/fetch-models.ts:35-45 | no contract of its own; see `PushedExactlyWhenTested`, `PushedInOrder`, `PushedOnce` |
| FetchModels.GenerateTags | lib/ai/fetch-models.ts:34-46 | no contract of its own; see `TagMembership` |
| FetchModels.PushedExactlyWhenTested | lib/ai/fetch-models.ts:38-43 | each of the six tags is pushed exactly when its test holds |
| FetchModels.PushedInOrder | lib/ai/fetch-models.ts:35-45 | the pushed tags are a subsequence of vision, coding, reasoning, fast, open-source, high-context |
| FetchModels.PushedOnce | lib/ai/fetch-models.ts:35-45 | no tag is pushed twice |
| FetchModels.TagMembership | lib/ai/fetch-models.ts:34-45 | each tag is present exactly when its substring test on the lowercased id holds. `high-context` is present exactly when the context length is at least 32000. The tags come in the fixed order, each at most once |
| FetchModels.ModelIdOf | lib/ai/fetch-models.ts:62-64 | an id without `/` is kept whole. The result has no `/` unless it is the whole id |
| FetchModels.ModelIdAfterFirstSlash | lib/ai/fetch-models.ts:64 | for `p/q`, the id is the first segment of `q`, or the whole `p/q` when that segment is empty |
| FetchModels.DescriptionOf | lib/ai/fetch-models.ts:58-70 | a non-empty raw description is used. Otherwise the description is `<name> by <id before its first />` |
| FetchModels.CapabilitiesOf | lib/ai/fetch-models.ts:78-83 | no contract of its own; see `CapabilityFlags` |
| FetchModels.CapabilityFlags | lib/ai/fetch-models.ts:78-83 | vision exactly when the raw id contains `vision`; streaming always; functions exactly for `gpt-4`/`gpt-3.5`; JSON validation exactly for those or `claude`; functions imply JSON validation |
| FetchModels.ToModel | lib/ai/fetch-models.ts:66-85 | the converted model carries the raw id as API identifier, the name as label, the context length as context window, and the two price texts as its prices. Its short id, description, category, capabilities and tags are those of `ModelIdOf`, `DescriptionOf`, `GetModelCategory`, `CapabilitiesOf` and `GenerateTags`, so the lemmas about those apply to it |
| FetchModels.ToModelCapabilities | lib/ai/fetch-models.ts:78-83 | the converted model's capability flags are the substring tests on the raw id, with streaming always on |
| FetchModels.ToModelProvider | lib/ai/fetch-models.ts:72 | every converted model's provider is a registry entry with id `openrouter` |
| FetchModels.VisionCapabilityHasTag | lib/ai/fetch-models.ts:36-79 | a model with the vision capability always has the `vision` tag |
| FetchModels.VisionTagWithoutCapability | lib/ai/fetch-models.ts:36-79 | an upper-case id containing `VISION` gets the tag but not the capability |
| FetchModels.FunctionsImplyReasoningOrFast | lib/ai/fetch-models.ts:40-81 | a model with function calling is tagged `reasoning` or `fast` |
| FetchModels.ToModels | lib/ai/fetch-models.ts:57-86 | no contract of its own; the conversion in listed order, the reference for `NormalizeKeepsEveryEntry` |
| FetchModels.Insert | lib/ai/fetch-models.ts:54 | one insertion step of the stable sort adds one entry; see `InsertPermutes`, `InsertSorted`, `InsertStable`, `InsertAt` |
| FetchModels.SortDesc | lib/ai/fetch-models.ts:54 | the sort keeps the length; see `SortDescSorted`, `SortDescPermutes`, `SortDescStable` |
| FetchModels.InsertPermutes | lib/ai/fetch-models.ts:54 | one insertion step adds exactly the inserted entry to the multiset |
| FetchModels.InsertSorted | lib/ai/fetch-models.ts:54 | inserting into a sorted listing keeps it sorted by non-increasing context length |
| FetchModels.SortDescSorted | lib/ai/fetch-models.ts:54 | the sorted listing has non-increasing context lengths |
| FetchModels.SortDescPermutes | lib/ai/fetch-models.ts:54 | the sorted listing is a permutation of the listing |
| FetchModels.InsertStable | lib/ai/fetch-models.ts:54 | on a sorted listing, insertion puts the new entry after every entry with the same context length |
| FetchModels.SortDescStable | lib/ai/fetch-models.ts:54 | the sort is stable: for each context length, the entries with it keep their relative order |
| FetchModels.SortDescKeepsSorted | lib/ai/fetch-models.ts:54 | a listing already in order is left unchanged |
| FetchModels.InsertAt | lib/ai/fetch-models.ts:54 | in a sorted listing, the new entry lands after the entries with at least its context length. Those keep their places; the rest move up by one |
| FetchModels.ShiftSmallerUp | lib/ai/fetch-models.ts:54 | the shifting loop moves up by one each entry of the prefix below the new entry's context length, leaves the rest in place, and returns the gap |
| FetchModels.InsertIntoSortedPrefix | lib/ai/fetch-models.ts:54 | the in-place step turns the array into the insertion of `a[i]` into the sorted prefix, followed by the untouched suffix |
| FetchModels.SortDescStep | lib/ai/fetch-models.ts:54 | sorting one more entry is inserting it into the sorted prefix, which is itself sorted |
| FetchModels.SortByContextLength | lib/ai/fetch-models.ts:54 | the in-place sort leaves the array holding the stable descending sort of its old contents |
| FetchModels.SortedCopy | lib/ai/fetch-models.ts:51-54 | the array copy of the listing, sorted in place, is the stable descending sort of the listing |
| FetchModels.Normalize | lib/ai/fetch-models.ts:54-86 | no contract of its own; see `NormalizeOrdered`, `NormalizeKeepsEveryEntry` |
| FetchModels.NormalizeOrdered | lib/ai/fetch-models.ts:54-73 | a successful refresh returns one model per raw entry, with non-increasing context windows |
| FetchModels.NormalizeKeepsEveryEntry | lib/ai/fetch-models.ts:57-86 | every raw entry's conversion is returned, and nothing else. The result is a permutation of the entries converted in listed order |
| FetchModels.RefreshedCatalogIsOpenRouter | lib/ai/fetch-models.ts:72-89 | after a refresh, the `openrouter` provider query returns the whole store and any other id returns nothing |
| FetchModels.FetchAndUpdateModels | lib/ai/fetch-models.ts:48-96 | on failure it returns `[]` and the store is unchanged. On success it returns the sorted, converted listing, and the store is exactly that list |
| CustomMiddleware.Middleware.ModifyRequest | lib/ai/custom-middleware.ts:5-18 | no contract of its own; see `ModifyRequestEffect`, `ModifyRequestIdempotent` |
| CustomMiddleware.ModifyRequestEffect | lib/ai/custom-middleware.ts:5-18 | see the middleware bullets below |
| CustomMiddleware.ModifyRequestIdempotent | lib/ai/custom-middleware.ts:8-15 | applying the middleware twice gives the same request as applying it once |
| Resolver.SupportsJsonOutput | lib/ai/index.ts:44-45 | no contract of its own; see `ReasoningModelWarnings` |
| Resolver.ConfiguredReasoningModel | lib/ai/index.ts:48 | no contract of its own; see `ReasoningModelIsAllowed`, `DefaultReasoningModelWarns` |
| Resolver.BypassJsonValidation | lib/ai/index.ts:49 | no contract of its own; see `ReasoningModelWarnings` |
| Resolver.GetReasoningModel | lib/ai/index.ts:52-72 | no contract of its own; see `ReasoningModelIsAllowed`, `ReasoningModelWarnings` |
| Resolver.ReasoningModelIsAllowed | lib/ai/index.ts:52-72 | see the reasoning-model bullets below |
| Resolver.ReasoningModelWarnings | lib/ai/index.ts:58-69 | a warning is printed exactly when the request is not allowed and either the configured model is not allowed, or it lacks JSON support and the bypass is off. The warning contains the configured model |
| Resolver.DefaultReasoningModelWarns | lib/ai/index.ts:48-69 | with `REASONING_MODEL` unset or empty, a request off the list gets `o1-mini`, which warns unless the bypass is on |
| Resolver.HasKey | lib/ai/index.ts:79-80 | no contract of its own; see `ProviderChoice`, `PlaceholderKeyStillAddsHeaders` |
| Resolver.SelectProvider | lib/ai/index.ts:85-101 | no contract of its own; see `ProviderChoice`, `OpenAIKeyDoesNotChangeBinding`, `FallbackDropsFirstSegment` |
| Resolver.ProviderChoice | lib/ai/index.ts:79-101 | see the provider-choice bullets below |
| Resolver.OpenAIKeyDoesNotChangeBinding | lib/ai/index.ts:91-100 | without an OpenRouter key, `openai/<name>` is bound to OpenAI as `<name>` whether or not the OpenAI key is set |
| Resolver.FallbackDropsFirstSegment | lib/ai/index.ts:91-100 | without an OpenRouter key, and whatever the OpenAI key, `p/q` reaches OpenAI as `q` when `p` has no line terminator |
| Resolver.LineTerminatorKeepsWholeId | lib/ai/index.ts:91-100 | without an OpenRouter key, `p/q` whose first segment holds a line terminator reaches OpenAI as the whole `p/q` |
| Resolver.NoSlashReachesOpenAIUnchanged | lib/ai/index.ts:91-100 | without an OpenRouter key, an id without `/` that is neither the TogetherAI nor the DeepSeek model reaches OpenAI unchanged, line terminators included |
| Resolver.CustomModel | lib/ai/index.ts:74-107 | no contract of its own; see `CustomModelUsesReasoningChoice` |
| Resolver.CustomModelUsesReasoningChoice | lib/ai/index.ts:74-106 | outside reasoning, the identifier is bound unchanged with no warning. For reasoning, the binding is that of the `getReasoningModel` choice, with its warnings; so an allowed identifier is bound the same way, and any other is replaced by an allowed one |
| Resolver.DefaultModelBinding | lib/ai/models.ts:148 | the default model name is not on the reasoning allow-list, so a reasoning request for it is replaced. Without an OpenRouter key it is bound to OpenAI unchanged |
| Resolver.PlaceholderKeyStillAddsHeaders | lib/ai/custom-middleware.ts:7 | with the key `****`, the binding is not OpenRouter, yet `experimental_modifyRequest` returns the request with both the `HTTP-Referer` and the `X-Title` header |
| Strings.JoinSplit | lib/ai/fetch-models.ts:58 | joining the pieces of `split('/')` gives back the string |
| Strings.SplitJoin | lib/ai/fetch-models.ts:58 | splitting a join of separator-free pieces gives back the pieces |
| Strings.ReplacePrefix | lib/ai/index.ts:93 | when the id starts with `openai/`, `replace('openai/', '')` drops exactly that prefix |
| Strings.StripFirstSegment | lib/ai/index.ts:100 | `/^.*?\//` removes exactly the first segment and its `/` |
| Strings.StripBlockedByLineTerminator | lib/ai/index.ts:100 | a line terminator before the first `/` leaves the id unchanged |

Three rows point to the bullets that follow.

`CustomMiddleware.ModifyRequestEffect` states:
- with a set key, other fields and other headers are kept;
- `HTTP-Referer` is the app URL, or `http://localhost:3000`;
- `X-Title` is `Open Deep Research`;
- without a key, the request is returned as it is.

`Resolver.ReasoningModelIsAllowed` states:
- the chosen model is always on the allow-list, with at most one warning;
- an allowed request is kept, with no warning;
- otherwise the configured model is chosen when it is allowed, and `o1-mini` when it is not.

`Resolver.ProviderChoice` states:
- the provider is OpenRouter, with the full id, exactly when a real key is set;
- otherwise TogetherAI and DeepSeek each serve exactly their one model, under its full id;
- OpenAI serves the rest.

## Left out

- The HTTP request to the OpenRouter listing is not made. `FetchAndUpdateModels` takes its outcome as an `Option`: `None` stands for a failed request.
- Mistyped or missing response fields are outside the type `RawModel`. The source throws on some of them: a missing `id` or `pricing` object, or a `data.data` that is not an array. It then returns `[]`, as for `None`. It converts the others with `undefined` or `NaN` values and still replaces the store: an entry without `name` gets the label `undefined`, and, when it has no description either, the description `undefined by <prefix>`, and a missing price string gives the price `NaN`.
- `parseFloat` on the price strings is not evaluated. A price is the text it would be parsed from (`Price.ParseFloat`).
- The SDK provider constructors (`openai`, `openrouter`, `togetherai`, `deepseek`) and `wrapLanguageModel` are foreign library calls. They become the `Binding` and `WrappedModel` datatypes.
- `console.warn` and `console.error` are not modelled as I/O. The warnings of `getReasoningModel` are returned as a list, and the error log of a failed refresh is dropped.
- The zod `ModelSchema` (lib/ai/models.ts:167-196) is left out. Dafny's types give the shape, and the refresh never calls the schema.
- `toLowerCase` is modelled on ASCII letters only. Other characters are kept as they are.
- The comparator `b.context_length - a.context_length` is modelled on integers. If a context length is missing or not a number, JavaScript's `NaN` comparisons would follow a different order, and that case is not modelled.
- `REASONING_MODEL` and `BYPASS_JSON_VALIDATION` are read once, when the module loads. The other variables are read on each call. All of them are one `Env` parameter here, which is the same as long as the environment does not change while the process runs.
- The order of keys in the JavaScript header object is not modelled. Headers are a `map`.
- `wrapLanguageModel` belongs to the SDK, and the source does not establish that it ever calls `experimental_modifyRequest`: the object only passes as the SDK's middleware type through a cast (lib/ai/custom-middleware.ts:19). The model states what that function returns, and assumes nothing about the requests the wrapped model actually sends.
- The refreshes are not concurrent. Only one asynchronous call is awaited, so no interleaving is modelled.
- `ModelCategory.Label` (lib/ai/models.ts:109-114) gives the enumeration's display strings. It has no contract because it only lists them.
