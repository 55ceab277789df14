/** The model-availability gate: the recommended list, the process-wide memo
    of the fetched model list, and the fail-open support decision. */
module ModelUtils {
  import opened Wrappers
  import opened JsSort
  import opened JsTrim
  import opened Providers

  /** Names accepted without consulting any provider. */
  const RecommendedModels: seq<string> := [
    "o4-mini",
    "o3",
    // the OpenAI chat models
    "gpt-4",
    "gpt-4-32k",
    "gpt-4-turbo-preview",
    "gpt-4-vision-preview",
    "gpt-3.5-turbo",
    "gpt-3.5-turbo-16k",
    // the Claude models
    "claude-3-opus-20240229",
    "claude-3-sonnet-20240229",
    "claude-3-haiku-20240307",
    "claude-2.1",
    "claude-2.0",
    "claude-instant-1.2",
    // the Gemini models
    "gemini-1.5-pro-latest",
    "gemini-1.5-flash-latest",
    "gemini-1.0-pro",
    "gemini-pro-vision"
  ]

  // ----------------------------------------------------------- fetchModels

  /** The list `fetchModels` resolves to: the provider's listing, sorted, or
      `[]` when the name selects no provider. */
  function FetchedList(providerName: string, vendors: Vendors): seq<string>
  {
    match GetProvider(providerName)
    case Err(_) => []
    case Ok(p) => Sort(Listing(p, vendors))
  }

  /** `fetchModels`. */
  method FetchModels(providerName: string, vendors: Vendors) returns (models: seq<string>)
    ensures models == FetchedList(providerName, vendors)
    ensures Sorted(models)
    ensures GetProvider(providerName).Err? ==> models == []
    ensures GetProvider(providerName).Ok? ==>
      multiset(models) == multiset(Listing(GetProvider(providerName).value, vendors))
  {
    var provider := GetProvider(providerName);
    if provider.Err? {
      return [];
    }
    var listed := Listing(provider.value, vendors);
    models := Sort(listed);
  }

  /** Whatever the sort used, the fetched list is the one sorted permutation of the listing. */
  lemma {:induction false} FetchedListUnique(providerName: string, vendors: Vendors, s: seq<string>)
    requires GetProvider(providerName).Ok?
    requires Sorted(s) && multiset(s) == multiset(Listing(GetProvider(providerName).value, vendors))
    ensures FetchedList(providerName, vendors) == s
  {
    SortedPermutationUnique(FetchedList(providerName, vendors), s);
  }

  /** The Anthropic identifiers in sorted order: they share the prefix
      "claude-3-", and the character after it decides. */
  lemma {:induction false} AnthropicOrder(haiku: string, opus: string, sonnet: string)
    requires haiku == "claude-3-haiku-20240307"
    requires opus == "claude-3-opus-20240229"
    requires sonnet == "claude-3-sonnet-20240229"
    ensures LexLeq(haiku, opus) && LexLeq(opus, sonnet)
  {
    assert haiku[..9] == opus[..9] == sonnet[..9];
    assert haiku[9] == 'h' && opus[9] == 'o' && sonnet[9] == 's';
    LexLeqAt(haiku, opus, 9);
    LexLeqAt(opus, sonnet, 9);
  }

  lemma {:induction false} RotatedThreePermutes(a: string, b: string, c: string)
    ensures multiset([a, b, c]) == multiset([b, c, a])
  {
    assert [a, b, c] == [a] + [b, c] && [b, c, a] == [b, c] + [a];
  }

  /** Three strings in order, listed as the middle, the last, the first, sort to their order. */
  lemma {:induction false} SortRotatedThree(a: string, b: string, c: string)
    requires LexLeq(a, b) && LexLeq(b, c)
    ensures Sort([b, c, a]) == [a, b, c]
  {
    ThreeSorted(a, b, c);
    RotatedThreePermutes(a, b, c);
    SortIsTheSortedPermutation([b, c, a], [a, b, c]);
  }

  /** Sorting the Anthropic listing puts "haiku" before "opus" before "sonnet". */
  lemma {:induction false} SortedAnthropicListing(listed: seq<string>)
    requires listed == AnthropicListModels()
    ensures Sort(listed) == ["claude-3-haiku-20240307", "claude-3-opus-20240229", "claude-3-sonnet-20240229"]
  {
    AnthropicOrder("claude-3-haiku-20240307", "claude-3-opus-20240229", "claude-3-sonnet-20240229");
    SortRotatedThree("claude-3-haiku-20240307", "claude-3-opus-20240229", "claude-3-sonnet-20240229");
  }

  /** For "anthropic" the fetched list is the fixed listing in sorted order. */
  lemma {:induction false} FetchedAnthropic(vendors: Vendors)
    ensures FetchedList("anthropic", vendors)
      == ["claude-3-haiku-20240307", "claude-3-opus-20240229", "claude-3-sonnet-20240229"]
  {
    SortedAnthropicListing(Listing(AnthropicProvider, vendors));
  }

  /** Every identifier the Anthropic listing returns is also a recommended
      name, so it is accepted before any fetch. */
  lemma {:induction false} AnthropicListingRecommended(m: string)
    requires m in AnthropicListModels()
    ensures m in RecommendedModels
    ensures FastAccept(ModelString(m))
  {
    assert AnthropicListModels() == RecommendedModels[8..11];
  }

  // ------------------------------------------------------- the memo cache

  /** The cache after one request for `providerName`: a stored list stays;
      an empty cache gets the list fetched for this request. */
  function Install(cache: Option<seq<string>>, providerName: string, vendors: Vendors): (r: Option<seq<string>>)
    ensures r.Some?
  {
    if cache.Some? then cache else Some(FetchedList(providerName, vendors))
  }

  /** Once the cache is set, no request changes it, whatever provider it names. */
  lemma {:induction false} InstallSticky(cache: Option<seq<string>>, n: string, v: Vendors, n': string, v': Vendors)
    ensures Install(Install(cache, n, v), n', v') == Install(cache, n, v)
  {
  }

  /** A request to `getAvailableModels`. */
  datatype Request = Request(providerName: string, vendors: Vendors)

  /** The lists a run of requests receives, one per request, in order. */
  function Replies(cache: Option<seq<string>>, requests: seq<Request>): seq<seq<string>>
    decreases |requests|
  {
    if requests == [] then []
    else
      var next := Install(cache, requests[0].providerName, requests[0].vendors);
      [next.value] + Replies(next, requests[1..])
  }

  /** From a set cache every request receives the stored list. */
  lemma {:induction false} RepliesFromSetCache(list: seq<string>, requests: seq<Request>)
    ensures |Replies(Some(list), requests)| == |requests|
    ensures forall k :: 0 <= k < |requests| ==> Replies(Some(list), requests)[k] == list
  {
    if requests != [] {
      RepliesFromSetCache(list, requests[1..]);
    }
  }

  /** From an empty cache, every request of a run receives the list fetched for
      the first request, whatever provider the later ones name. */
  lemma {:induction false} RepliesShareFirstFetch(requests: seq<Request>)
    requires requests != []
    ensures |Replies(None, requests)| == |requests|
    ensures forall k :: 0 <= k < |requests| ==>
      Replies(None, requests)[k] == FetchedList(requests[0].providerName, requests[0].vendors)
  {
    RepliesFromSetCache(FetchedList(requests[0].providerName, requests[0].vendors), requests[1..]);
  }

  /** The cache as seen after a run of requests. */
  function CacheAfter(cache: Option<seq<string>>, requests: seq<Request>): Option<seq<string>>
    decreases |requests|
  {
    if requests == [] then cache
    else CacheAfter(Install(cache, requests[0].providerName, requests[0].vendors), requests[1..])
  }

  /** The cache never returns to empty: after any request it is set, and a set
      cache stays as it was. */
  lemma {:induction false} CacheNeverEmptied(cache: Option<seq<string>>, requests: seq<Request>)
    requires cache.Some? || requests != []
    decreases |requests|
    ensures CacheAfter(cache, requests).Some?
    ensures cache.Some? ==> CacheAfter(cache, requests) == cache
  {
    if requests != [] {
      CacheNeverEmptied(Install(cache, requests[0].providerName, requests[0].vendors), requests[1..]);
    }
  }

  // ------------------------------------------------------ the decision rule

  /** `config.model`: a string, or a value of some other type. */
  datatype ModelField = ModelString(name: string) | NotAString

  /** The part of `AppConfig` the gate reads. */
  datatype Config = Config(provider: string, model: ModelField)

  /** What `Promise.race` settles with: the fetched list, the timer's `[]`,
      or a rejection. */
  datatype RaceOutcome = Fetched(list: seq<string>) | TimedOut | Failed

  /** Which side of the race settles first. */
  datatype RaceWinner = ListWins | TimerWins | RaceThrows

  function Outcome(winner: RaceWinner, list: seq<string>): RaceOutcome
  {
    match winner
    case ListWins => Fetched(list)
    case TimerWins => TimedOut
    case RaceThrows => Failed
  }

  /** The accept-at-once test, made before any fetch: not a string, blank
      once trimmed, or spelled exactly (untrimmed) as a recommended name. */
  predicate FastAccept(model: ModelField)
  {
    model.NotAString? || Trim(model.name) == "" || model.name in RecommendedModels
  }

  /** `isModelSupportedForResponses`, given how the race settled. The
      answer is `false` in one case only: the name is a string, not blank,
      not recommended, the fetched list won the race and is non-empty, and
      the trimmed name is not in it. */
  function IsModelSupported(model: ModelField, race: RaceOutcome): (supported: bool)
    ensures !supported <==>
      && model.ModelString?
      && Trim(model.name) != ""
      && model.name !in RecommendedModels
      && race.Fetched? && race.list != []
      && Trim(model.name) !in race.list
  {
    if FastAccept(model) then true
    else
      match race
      case TimedOut => true  // the timer settles with [], which is accepted
      case Failed => true
      case Fetched(models) => if |models| == 0 then true else Trim(model.name) in models
  }

  /** Not a string, blank, or recommended: accepted whatever the race does. */
  lemma {:induction false} FastPathAccepts(model: ModelField, race: RaceOutcome)
    requires FastAccept(model)
    ensures IsModelSupported(model, race)
  {
  }

  /** An empty list, whether the timer won or the fetch found nothing, accepts. */
  lemma {:induction false} EmptyListAccepts(model: ModelField)
    ensures IsModelSupported(model, Fetched([]))
    ensures IsModelSupported(model, TimedOut)
  {
  }

  /** A rejection while racing accepts. */
  lemma {:induction false} FailureAccepts(model: ModelField)
    ensures IsModelSupported(model, Failed)
  {
  }

  /** Past the fast path, a non-empty fetched list decides by membership of the trimmed name. */
  lemma {:induction false} NonEmptyListDecidesByMembership(name: string, list: seq<string>)
    requires Trim(name) != "" && name !in RecommendedModels && list != []
    ensures IsModelSupported(ModelString(name), Fetched(list)) <==> Trim(name) in list
  {
  }

  /** No recommended name is empty or starts with white space. */
  lemma {:induction false} RecommendedNamesUnpadded()
    ensures forall m :: m in RecommendedModels ==> m != [] && !IsWhiteSpace(m[0])
  {
  }

  /** The recommended-list test uses the untrimmed name: a name without
      white space at its ends, given a white-space character in front, skips
      the fast path, trims back to the bare name, and is refused by a fetched
      list that lacks it. */
  lemma {:induction false} PaddedNameSkipsFastPath(c: char, name: string, list: seq<string>)
    requires IsWhiteSpace(c) && name != [] && !IsWhiteSpace(name[0]) && !IsWhiteSpace(name[|name| - 1])
    requires list != [] && name !in list
    ensures [c] + name !in RecommendedModels
    ensures Trim([c] + name) == name
    ensures !FastAccept(ModelString([c] + name))
    ensures !IsModelSupported(ModelString([c] + name), Fetched(list))
  {
    RecommendedNamesUnpadded();
    assert ([c] + name)[0] == c;
    TrimDropsLeadingWhiteSpace([c] + name);
    assert ([c] + name)[1..] == name;
    TrimUnpadded(name);
  }

  /** "o3" is recommended and " o3" is not, so " o3" meets the lemma above. */
  lemma {:induction false} PaddedO3NotRecommended()
    ensures "o3" in RecommendedModels
    ensures " o3" == [' '] + "o3" && " o3" !in RecommendedModels
  {
    assert "o3" == RecommendedModels[1];
  }

  // ---------------------------------------------------------- the process

  /** The module state `modelsPromise`: `None` until the first fetch is
      installed, then the list it settles with, for the rest of the process. */
  class ModelCache {
    var models: Option<seq<string>>

    constructor ()
      ensures models == None
    {
      models := None;
    }

    /** `getAvailableModels`: installs a fetch for `providerName` when the
        cache is empty, and answers with the stored list. */
    method GetAvailableModels(providerName: string, vendors: Vendors) returns (list: seq<string>)
      modifies this
      ensures models == Install(old(models), providerName, vendors)
      ensures models == Some(list)
      ensures old(models).Some? ==> list == old(models).value
      ensures old(models).None? ==> list == FetchedList(providerName, vendors)
    {
      if models.None? {
        var fetched := FetchModels(providerName, vendors);
        models := Some(fetched);
      }
      list := models.value;
    }

    /** `preloadModels`: does nothing when the cache is set, otherwise installs
        the fetch as `getAvailableModels` would. */
    method PreloadModels(providerName: string, vendors: Vendors)
      modifies this
      ensures old(models).Some? ==> models == old(models)
      ensures models == Install(old(models), providerName, vendors)
    {
      if models.None? {
        var _ := GetAvailableModels(providerName, vendors);
      }
    }

    /** `isModelSupportedForResponses`: the fast path leaves the cache alone;
        otherwise the race asks `getAvailableModels`, which installs the fetch
        whichever side wins. */
    method IsModelSupportedForResponses(config: Config, vendors: Vendors, winner: RaceWinner)
      returns (supported: bool)
      modifies this
      ensures FastAccept(config.model) ==> supported && models == old(models)
      ensures !FastAccept(config.model) ==> models == Install(old(models), config.provider, vendors)
      ensures supported == IsModelSupported(config.model,
                             Outcome(winner, Install(old(models), config.provider, vendors).value))
    {
      if FastAccept(config.model) {
        return true;
      }
      var list := GetAvailableModels(config.provider, vendors);
      supported := IsModelSupported(config.model, Outcome(winner, list));
    }
  }

  /** Two providers in one process: the second request is answered with the
      list fetched for the first, because the memo is not keyed by provider. */
  method SecondProviderReusesFirstList(vendors: Vendors) returns (first: seq<string>, second: seq<string>)
    ensures first == FetchedList("openai", vendors)
    ensures second == first
  {
    var cache := new ModelCache();
    first := cache.GetAvailableModels("openai", vendors);
    second := cache.GetAvailableModels("google", vendors);
  }
}
