/** The provider registry: `getProvider` and the three `listModels`
    implementations. Each vendor's reply is an input value; credentials are
    parameters. */
module Providers {
  import opened Wrappers
  import opened JsSort

  /** The three provider classes. */
  datatype Provider = OpenAIProvider | AnthropicProvider | GoogleProvider

  /** The configuration name that selects `p`. */
  function Name(p: Provider): string
  {
    match p
    case OpenAIProvider => "openai"
    case AnthropicProvider => "anthropic"
    case GoogleProvider => "google"
  }

  /** Selects the provider for a configured name; any other name is the
      "Unknown provider" error. */
  function GetProvider(providerName: string): (r: Result<Provider>)
    ensures r.Ok? <==> providerName in {"openai", "anthropic", "google"}
    ensures r.Ok? ==> Name(r.value) == providerName
    ensures r.Err? ==> r.error == "Unknown provider: " + providerName
  {
    match providerName
    case "openai" => Ok(OpenAIProvider)
    case "anthropic" => Ok(AnthropicProvider)
    case "google" => Ok(GoogleProvider)
    case _ => Err("Unknown provider: " + providerName)
  }

  /** `getProvider` and `Name` are inverse: a name selects `p` exactly when it is `p`'s name. */
  lemma {:induction false} GetProviderSelects(providerName: string, p: Provider)
    ensures GetProvider(providerName) == Ok(p) <==> providerName == Name(p)
  {
  }

  /** A credential the source treats as absent: undefined or the empty string. */
  predicate KeyMissing(key: Option<string>)
  {
    key.None? || key.value == ""
  }

  // ---------------------------------------------------------------- OpenAI

  /** One item of the OpenAI model pager: a falsy item, or an object whose
      `id` is a string (`Some`) or is absent or of another type (`None`). */
  datatype OpenAIRecord = FalsyRecord | Record(id: Option<string>)

  /** What the vendor's model listing yields: the items the pager produced,
      and whether an exception was raised (building the client, requesting
      the list, or while paging after those items). */
  datatype OpenAIReply = OpenAIReply(records: seq<OpenAIRecord>, threw: bool)

  predicate HasStringId(m: OpenAIRecord)
  {
    m.Record? && m.id.Some?
  }

  /** The string `id`s of the records, in pager order. */
  function StringIds(records: seq<OpenAIRecord>): seq<string>
  {
    if records == [] then []
    else
      var last := records[|records| - 1];
      StringIds(records[..|records| - 1]) + (if HasStringId(last) then [last.id.value] else [])
  }

  /** Each identifier occurs among the kept ids exactly as often as a record
      with that string `id` occurs among the items. */
  lemma {:induction false} StringIdsCount(records: seq<OpenAIRecord>, x: string)
    ensures multiset(StringIds(records))[x] == multiset(records)[Record(Some(x))]
  {
    if records != [] {
      var init := records[..|records| - 1];
      StringIdsCount(init, x);
      assert records == init + [records[|records| - 1]];
    }
  }

  /** An identifier is kept exactly when some item is a record with that string `id`. */
  lemma {:induction false} StringIdsMembers(records: seq<OpenAIRecord>, x: string)
    ensures x in StringIds(records) <==> Record(Some(x)) in records
  {
    StringIdsCount(records, x);
  }

  /** The list `OpenAIProvider.listModels` resolves to. */
  function OpenAIListing(key: Option<string>, reply: OpenAIReply): seq<string>
  {
    if KeyMissing(key) || reply.threw then [] else Sort(StringIds(reply.records))
  }

  /** `OpenAIProvider.listModels`: collects the string ids while paging, then sorts. */
  method OpenAIListModels(key: Option<string>, reply: OpenAIReply) returns (models: seq<string>)
    ensures models == OpenAIListing(key, reply)
    ensures KeyMissing(key) || reply.threw ==> models == []
    ensures Sorted(models)
  {
    if KeyMissing(key) {
      return [];
    }
    var collected: seq<string> := [];
    var i := 0;
    while i < |reply.records|
      invariant 0 <= i <= |reply.records|
      invariant collected == StringIds(reply.records[..i])
    {
      var m := reply.records[i];
      assert reply.records[..i + 1][..i] == reply.records[..i];
      if HasStringId(m) {
        collected := collected + [m.id.value];
      }
      i := i + 1;
    }
    assert reply.records[..i] == reply.records;
    if reply.threw {
      return [];
    }
    models := Sort(collected);
  }

  /** Each identifier occurs in the OpenAI listing as often as a record with that
      string `id` was paged, when there is a key and nothing threw. */
  lemma {:induction false} OpenAIListingKeepsStringIds(key: Option<string>, reply: OpenAIReply, x: string)
    requires !KeyMissing(key) && !reply.threw
    ensures multiset(OpenAIListing(key, reply))[x] == multiset(reply.records)[Record(Some(x))]
  {
    StringIdsCount(reply.records, x);
  }

  // ------------------------------------------------------------- Anthropic

  /** `AnthropicProvider.listModels`: the vendor has no listing call, so the
      answer is a fixed list that no credential affects. */
  function AnthropicListModels(): seq<string>
  {
    ["claude-3-opus-20240229", "claude-3-sonnet-20240229", "claude-3-haiku-20240307"]
  }

  // ---------------------------------------------------------------- Google

  /** A record of the Google model listing; the model keeps only its `name`. */
  datatype GoogleModel = GoogleModel(name: string)

  /** The awaited listing object; `models` is absent when `None`. */
  datatype GoogleResponse = GoogleResponse(models: Option<seq<GoogleModel>>)

  /** The outcome of the Google listing call: it threw, or it returned a
      response that may be absent (`None`, also when the listing method itself is missing). */
  datatype GoogleReply = GoogleThrew | GoogleReturned(response: Option<GoogleResponse>)

  /** Each record's name, in order. */
  function Names(models: seq<GoogleModel>): (r: seq<string>)
    ensures |r| == |models|
    ensures forall i :: 0 <= i < |models| ==> r[i] == models[i].name
  {
    if models == [] then [] else [models[0].name] + Names(models[1..])
  }

  /** `GoogleProvider.listModels`. */
  function GoogleListModels(key: Option<string>, reply: GoogleReply): (r: seq<string>)
    ensures KeyMissing(key) ==> r == []
    ensures reply.GoogleThrew? ==> r == []
    ensures reply == GoogleReturned(None) || reply == GoogleReturned(Some(GoogleResponse(None))) ==> r == []
    ensures !KeyMissing(key) && reply.GoogleReturned? && reply.response.Some? && reply.response.value.models.Some? ==>
      var models := reply.response.value.models.value;
      |r| == |models| && forall i :: 0 <= i < |models| ==> r[i] == models[i].name
  {
    if KeyMissing(key) then []
    else match reply
      case GoogleThrew => []
      case GoogleReturned(None) => []
      case GoogleReturned(Some(GoogleResponse(None))) => []
      case GoogleReturned(Some(GoogleResponse(Some(models)))) => Names(models)
  }

  // -------------------------------------------------------------- dispatch

  /** Everything outside the process that a listing depends on: the three
      credentials and the replies the OpenAI and Google vendors would give. */
  datatype Vendors = Vendors(
    openAIKey: Option<string>,
    openAIReply: OpenAIReply,
    anthropicKey: Option<string>,
    googleKey: Option<string>,
    googleReply: GoogleReply)

  /** The list `p.listModels()` resolves to: every failure already degraded
      to `[]`, so the call never throws. */
  function Listing(p: Provider, vendors: Vendors): seq<string>
  {
    match p
    case OpenAIProvider => OpenAIListing(vendors.openAIKey, vendors.openAIReply)
    case AnthropicProvider => AnthropicListModels()
    case GoogleProvider => GoogleListModels(vendors.googleKey, vendors.googleReply)
  }

  /** The Anthropic listing is the same three identifiers, in this order,
      whatever the credentials and vendor replies. */
  lemma {:induction false} AnthropicIgnoresCredentials(v: Vendors, w: Vendors)
    ensures Listing(AnthropicProvider, v) == Listing(AnthropicProvider, w)
    ensures Listing(AnthropicProvider, v)
      == ["claude-3-opus-20240229", "claude-3-sonnet-20240229", "claude-3-haiku-20240307"]
  {
  }
}
