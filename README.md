# Model-availability gate and provider registry, in Dafny

This project models the part of the CLI that decides whether a configured
model name may be used. It also models the provider registry that supplies
the list of models.

- **Provider registry** (`providers.dfy`, module `Providers`). `GetProvider`
  maps `"openai"`, `"anthropic"` and `"google"` to their provider. Any other
  name is the error `"Unknown provider: <name>"`. Each provider's
  `listModels` is modelled with its own fallback to `[]`:
  - OpenAI (`OpenAIListModels`, a method with the source's loop): `[]` when
    the key is missing or anything threw. Otherwise the string `id`s of the
    paged records, sorted.
  - Anthropic: a fixed list of three identifiers.
  - Google: `[]` when the key is missing, on an exception, or when the
    response or its `models` field is absent. Otherwise each record's `name`,
    in order.

  Vendor replies are input values (`OpenAIReply`, `GoogleReply`). Keys are
  `Option<string>` parameters, collected in `Vendors`.
- **Model-availability resolver** (`model_utils.dfy`, module `ModelUtils`):
  - `RecommendedModels`, the static allow-list.
  - `FetchModels`: the listing, sorted, or `[]` for an unknown provider name.
  - The memo cache `modelsPromise`: class `ModelCache` with an
    `Option<seq<string>>` field, and methods `GetAvailableModels`,
    `PreloadModels` and `IsModelSupportedForResponses`.
  - The fail-open decision: the pure function `IsModelSupported`, applied to
    the way the race settled (`Fetched(list)`, `TimedOut` or `Failed`).
- **JavaScript built-ins the core relies on.**
  - `js_sort.dfy`: `Array.prototype.sort()` with no comparator, modelled as a
    lexicographic order and an insertion sort. Any sorted permutation is
    proved equal to its result, so the choice of sorting algorithm does not
    matter.
  - `js_trim.dfy`: `String.prototype.trim()`, using the ECMAScript
    WhiteSpace and LineTerminator characters.

The memo is not keyed by provider, and the model keeps that as written.
Once one provider's list is stored, a request naming another provider
receives that stored list. This is proved in `RepliesShareFirstFetch` and
`SecondProviderReusesFirstList`. The recommended-list test compares the
untrimmed name (src/utils/model-utils.ts:69). The membership test uses the
trimmed name (src/utils/model-utils.ts:88). `PaddedNameSkipsFastPath` states
what follows from that difference.

## Model

| member | source | states |
|---|---|---|
| `JsSort.LexLeq` | src/utils/model-utils.ts:35 | the order of `.sort()` without a comparator: the first differing character decides, and a proper prefix comes first |
| `JsSort.Sort` | src/utils/model-utils.ts:35 | the sorted list is nondecreasing in the string order and a permutation (same multiset, same length) of the input |
| `JsSort.SortedPermutationUnique` | src/utils/providers.ts:30 | two sorted permutations of one list are equal, so any sort gives the same result as `Sort` |
| `JsSort.SortIsTheSortedPermutation` | src/utils/model-utils.ts:35 | `Sort` returns the one sorted permutation of its input |
| `JsSort.SortOfSorted` | src/utils/model-utils.ts:35 | sorting an already sorted list (such as OpenAI's listing inside `fetchModels`) leaves it unchanged |
| `JsSort.SortIdempotent` | src/utils/model-utils.ts:35 | sorting twice is the same as sorting once |
| `JsTrim.IsWhiteSpace` | src/utils/model-utils.ts:68 | the characters `.trim()` removes: TAB, VT, FF, SP, NBSP, ZWNBSP, the Zs space separators, LF, CR, LS and PS |
| `JsTrim.TrimStart` | src/utils/model-utils.ts:68 | the result is a suffix of the input, not starting with white space, and everything dropped is white space |
| `JsTrim.TrimEnd` | src/utils/model-utils.ts:68 | the result is a prefix of the input, not ending with white space, and everything dropped is white space |
| `JsTrim.Trim` | src/utils/model-utils.ts:68 | the trimmed name is no longer than the input, and a non-empty result neither starts nor ends with white space |
| `JsTrim.TrimIsInfix` | src/utils/model-utils.ts:88 | the trimmed name is the infix left after removing the white space at both ends, and the removed characters are all white space |
| `JsTrim.TrimBlank` | src/utils/model-utils.ts:68 | a name trims to `""` exactly when every character is white space |
| `JsTrim.TrimDropsLeadingWhiteSpace` | src/utils/model-utils.ts:88 | a leading white-space character does not affect the trimmed name |
| `JsTrim.TrimUnpadded` | src/utils/model-utils.ts:88 | a name with no white space at either end trims to itself |
| `JsTrim.TrimIdempotent` | src/utils/model-utils.ts:88 | trimming twice is the same as trimming once |
| `Providers.GetProvider` | src/utils/providers.ts:77-88 | a provider is returned exactly for the three known names, and its name is the one asked for; any other name is the error "Unknown provider: " + name |
| `Providers.GetProviderSelects` | src/utils/providers.ts:77-88 | a name selects provider `p` if and only if it is `p`'s configuration name |
| `Providers.KeyMissing` | src/utils/providers.ts:18 | a key counts as absent when it is undefined or the empty string, as `!OPENAI_API_KEY` and `!GOOGLE_API_KEY` test |
| `Providers.HasStringId` | src/utils/providers.ts:26 | a paged item is kept when it is truthy and its `id` is a string |
| `Providers.StringIdsCount` | src/utils/providers.ts:25-29 | each id occurs in the collected list exactly as often as a paged record with that string `id` |
| `Providers.StringIdsMembers` | src/utils/providers.ts:26-27 | an id is collected if and only if some paged record has it as a string `id` |
| `Providers.OpenAIListModels` | src/utils/providers.ts:17-34 | the copying loop computes the OpenAI listing: `[]` for a missing or empty key or any exception, otherwise the sorted string ids |
| `Providers.OpenAIListingKeepsStringIds` | src/utils/providers.ts:24-33 | with a key and no exception, the listing has each id as often as records carrying that string `id` (the multiset is kept) |
| `Providers.AnthropicListModels` | src/utils/providers.ts:42-49 | the Anthropic listing is the three fixed identifiers opus, sonnet, haiku, in that order |
| `Providers.AnthropicIgnoresCredentials` | src/utils/providers.ts:42-49 | the Anthropic listing is always the same three identifiers in the written order, whatever the keys and vendor replies |
| `Providers.Names` | src/utils/providers.ts:66 | one name per record, in order: same length, and the i-th result is the i-th record's `name` |
| `Providers.GoogleListModels` | src/utils/providers.ts:57-70 | `[]` for a missing key, an exception, or an absent response or `models` field; otherwise the records' names in order, one per record |
| `Providers.Listing` | src/utils/providers.ts:11-14 | `listModels` on a provider gives that provider's own listing, OpenAI, Anthropic or Google |
| `ModelUtils.FetchModels` | src/utils/model-utils.ts:31-39 | the fetched list is sorted; it is `[]` when the provider name is unknown, and otherwise a permutation of the provider's listing |
| `ModelUtils.FetchedListUnique` | src/utils/model-utils.ts:35 | any sorted permutation of the listing equals the list `fetchModels` resolves to |
| `ModelUtils.AnthropicOrder` | src/utils/providers.ts:45-47 | in the string order the haiku identifier comes before opus, and opus before sonnet |
| `ModelUtils.SortedAnthropicListing` | src/utils/model-utils.ts:35 | sorting the Anthropic listing gives haiku, opus, sonnet |
| `ModelUtils.FetchedAnthropic` | src/utils/model-utils.ts:31-39 | for "anthropic", whatever the credentials, the fetched list is haiku, opus, sonnet |
| `ModelUtils.AnthropicListingRecommended` | src/utils/model-utils.ts:16-18 | each identifier the Anthropic listing returns is a recommended name, so it passes the fast path |
| `ModelUtils.Install` | src/utils/model-utils.ts:52-55 | after a request the cache is always set |
| `ModelUtils.InstallSticky` | src/utils/model-utils.ts:52-55 | once the cache is set, no later request changes it, whatever provider or vendor state it names |
| `ModelUtils.RepliesFromSetCache` | src/utils/model-utils.ts:49-56 | when the cache is set, every request in a run gets the stored list |
| `ModelUtils.RepliesShareFirstFetch` | src/utils/model-utils.ts:49-56 | starting from an empty cache, every request in a run gets the list fetched for the first request |
| `ModelUtils.CacheNeverEmptied` | src/utils/model-utils.ts:29-56 | after any request the cache is set, and a set cache keeps its value through any run of requests |
| `ModelUtils.FastAccept` | src/utils/model-utils.ts:66-70 | the accept-at-once test: not a string, blank once trimmed, or exactly (untrimmed) a recommended name |
| `ModelUtils.IsModelSupported` | src/utils/model-utils.ts:63-93 | the answer is false only when: the name is a string, it is non-blank, it is not recommended (untrimmed), the fetched list won the race and is non-empty, and the trimmed name is not in it |
| `ModelUtils.FastPathAccepts` | src/utils/model-utils.ts:66-72 | a non-string, blank or recommended name is accepted however the race settles |
| `ModelUtils.EmptyListAccepts` | src/utils/model-utils.ts:82-86 | an empty fetched list and a timeout are both accepted |
| `ModelUtils.FailureAccepts` | src/utils/model-utils.ts:89-92 | a rejection during the race is accepted |
| `ModelUtils.NonEmptyListDecidesByMembership` | src/utils/model-utils.ts:88 | past the fast path, a non-empty fetched list gives "trimmed name is in the list" |
| `ModelUtils.RecommendedNamesUnpadded` | src/utils/model-utils.ts:5-27 | every recommended name is non-empty and does not start with white space |
| `ModelUtils.PaddedNameSkipsFastPath` | src/utils/model-utils.ts:66-88 | a name with a white-space character in front is never a recommended name, so it skips the fast path; it trims to the bare name and is refused by a non-empty list lacking it |
| `ModelUtils.RecommendedModels` | src/utils/model-utils.ts:5-27 | the eighteen names accepted without any fetch, in the written order |
| `ModelUtils.PaddedO3NotRecommended` | src/utils/model-utils.ts:5-27 | "o3" is a recommended name and " o3" is not |
| `ModelUtils.ModelCache.constructor` | src/utils/model-utils.ts:29 | the cache starts empty |
| `ModelUtils.ModelCache.GetAvailableModels` | src/utils/model-utils.ts:49-56 | an empty cache is set to the list fetched for this provider; a set cache is unchanged and its value is returned |
| `ModelUtils.ModelCache.PreloadModels` | src/utils/model-utils.ts:41-47 | a set cache is unchanged; otherwise the cache ends as `getAvailableModels` would leave it |
| `ModelUtils.ModelCache.IsModelSupportedForResponses` | src/utils/model-utils.ts:63-93 | the fast path returns true and leaves the cache unchanged; otherwise the fetch is installed whichever side wins, and the answer is the decision rule applied to the race |
| `ModelUtils.SecondProviderReusesFirstList` | src/utils/model-utils.ts:49-56 | in one process, a request for "google" after one for "openai" gets OpenAI's fetched list |

## Left out

- Timing: the 2000 ms timer and `Promise.race` (src/utils/model-utils.ts:4, 75-80) are not modelled. The caller chooses which side settles first (`RaceWinner`).
- Async scheduling and promises: the memo holds the settled list, not a promise. "Pending" and "resolved" are one state. The fetch is installed even when the timer wins, as in the source.
- Vendor SDK calls (`new OpenAI`, `openai.models.list()`, `GoogleGenerativeAI`, the `listModels` property of the Google model object) are foreign library calls. Their outcomes are input values.
- The OpenAI async pager is a finite sequence of records with one flag for "an exception was raised". Every place that can raise leads to `[]`, so where the exception happened does not matter.
- Reading the API keys from the environment and configuration (src/utils/providers.ts:1-6): keys are parameters.
- `createClient` for all three providers: it only constructs vendor clients.
- `disable-react-devtools.mjs`: a bundler plugin that only redirects an import to an empty module.
- Sort: JavaScript compares UTF-16 code units, and the model compares characters by code point. The two orders differ only between astral characters and characters from U+E000 to U+FFFF. The in-place mutation by `.sort()` is modelled as a new value, since no alias of the array is observable.
- Providers.GoogleListModels: each Google record is modelled with a string `name`. A record without `name` would put `undefined` in the source's list. A `null` record would raise a TypeError, which is caught and gives `[]`.
- ModelUtils.FetchModels: the source's `catch` also covers a throwing `listModels`. No modelled `listModels` throws, so only the unknown-provider error reaches it.
