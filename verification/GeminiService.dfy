/**
 * The gateway to the generative text service (services/geminiService.ts):
 * the lazily created client, the 24-hour cache of the popular-products batch,
 * the requests for the three prompts, and the shape test applied to every
 * parsed response. The network call itself, `JSON.parse` and the clock are inputs.
 */
module GeminiService {
  import opened Types
  import opened Seqs
  import opened Json
  import opened Prompts

  const API_MODEL := "gemini-3-flash-preview"
  const POPULAR_TEMPERATURE: real := 0.7
  const RECOMMENDATION_TEMPERATURE: real := 0.5
  const SIMILAR_TEMPERATURE: real := 0.8

  /** Twenty-four hours in milliseconds. */
  const CACHE_DURATION_MS: int := 24 * 60 * 60 * 1000

  const MISSING_KEY_MESSAGE := "API_KEY environment variable not set. Please set it to use the Gemini API."
  const EMPTY_RESPONSE_MESSAGE := "Empty response from API"

  /** The errors a gateway call can throw; all are rethrown to the caller unchanged. */
  datatype Error =
    | MissingApiKey                 // no API key when the client is first needed
    | Transport(message: string)    // the service call itself rejected
    | EmptyResponse                 // the response carried no text, or empty text
    | InvalidJson(message: string)  // `JSON.parse` threw, on the response or on the cache record
    | NullCacheRecord               // the stored cache record parsed to `null` and cannot be destructured

  /** A settled gateway call: it threw, or it resolved to a value (`None` is `null`/`undefined`). */
  datatype Outcome = Threw(error: Error) | Resolved(value: Option<Json>)

  datatype Result<T> = Ok(value: T) | Err(error: Error)

  /** `JSON.parse` of the trimmed response text, as an oracle. */
  datatype ParseResult = Parsed(value: Json) | SyntaxError(message: string)

  /** What the service call produced: a rejection, no (or empty) text, or text and its parse. */
  datatype ServiceReply = TransportFailure(message: string) | NoText | Text(parse: ParseResult)

  /** The storage item `popularProducts`, when present and non-empty, after `JSON.parse`. */
  datatype Stored = Unparsable(message: string) | Record(value: Json)

  /** The result of the freshness check on the cache item. */
  datatype Lookup = Hit(data: Option<Json>) | Miss | Broken(error: Error)

  /** One request sent to the service: the model, the prompt it carries and the temperature. */
  datatype Request = Request(model: string, prompt: Prompt, temperature: real)

  /** `process.env.API_KEY` is truthy: present and non-empty. */
  predicate HasKey(apiKey: Option<string>)
  {
    apiKey.Some? && apiKey.value != ""
  }

  /** The record written to the cache: `{timestamp, data}`. */
  function CacheRecord(timestamp: int, data: Json): Json
  {
    JObject(map["timestamp" := JNumber(timestamp as real), "data" := data])
  }

  /**
   * The cache check of `getPopularProducts`: an absent item is a miss; an item
   * that does not parse, or parses to `null`, throws; otherwise the record is a
   * hit exactly when its timestamp is a number less than 24 hours before `now`,
   * and the hit yields the record's `data` member as it is.
   */
  function LookupCache(stored: Option<Stored>, now: int): Lookup
  {
    match stored
    case None => Miss
    case Some(Unparsable(m)) => Broken(InvalidJson(m))
    case Some(Record(v)) =>
      if v == JNull then Broken(NullCacheRecord)
      else
        var ts := Get(v, "timestamp");
        if ts.Some? && ts.value.JNumber? && (now as real) - ts.value.n < CACHE_DURATION_MS as real
        then Hit(Get(v, "data"))
        else Miss
  }

  /**
   * What a request resolves to once the client is available: rejection and
   * empty text and unparsable text throw; a parsed value passes through
   * unchanged when it has the batch shape and becomes `null` otherwise.
   */
  function Interpret(reply: ServiceReply): (r: Outcome)
    ensures r.Threw? <==> !(reply.Text? && reply.parse.Parsed?)
    ensures r.Resolved? && r.value.Some? <==> reply.Text? && reply.parse.Parsed? && IsBatch(reply.parse.value)
    ensures r.Resolved? && r.value.Some? ==> reply == Text(Parsed(r.value.value))
  {
    match reply
    case TransportFailure(m) => Threw(Transport(m))
    case NoText => Threw(EmptyResponse)
    case Text(SyntaxError(m)) => Threw(InvalidJson(m))
    case Text(Parsed(j)) => if IsBatch(j) then Resolved(Some(j)) else Resolved(None)
  }

  /** A request made with or without a client already built. */
  function RequestOutcome(clientReady: bool, apiKey: Option<string>, reply: ServiceReply): Outcome
  {
    if !clientReady && !HasKey(apiKey) then Threw(MissingApiKey) else Interpret(reply)
  }

  /** `getPopularProducts`: the cache first, then a request on a miss. */
  function PopularProducts(stored: Option<Stored>, clientReady: bool, apiKey: Option<string>,
                           now: int, reply: ServiceReply): Outcome
  {
    match LookupCache(stored, now)
    case Broken(e) => Threw(e)
    case Hit(data) => Resolved(data)
    case Miss => RequestOutcome(clientReady, apiKey, reply)
  }

  /** The cache item after `getPopularProducts`: replaced only by a shape-valid fetched batch. */
  function CacheAfter(stored: Option<Stored>, now: int, outcome: Outcome, fetchedAt: int): Option<Stored>
  {
    if LookupCache(stored, now).Miss? && outcome.Resolved? && outcome.value.Some?
    then Some(Record(CacheRecord(fetchedAt, outcome.value.value)))
    else stored
  }

  // ---------------------------------------------------------------- properties

  /** A cache record written at `t` is served until 24 hours have passed, then ignored. */
  lemma CacheFreshness(t: int, data: Json, now: int)
    ensures LookupCache(Some(Record(CacheRecord(t, data))), now) ==
      if now - t < CACHE_DURATION_MS then Hit(Some(data)) else Miss
  {
    var v := CacheRecord(t, data);
    assert Get(v, "timestamp") == Some(JNumber(t as real));
    assert Get(v, "data") == Some(data);
  }

  /**
   * A cache hit answers without the client or the service: the outcome is the
   * stored data whatever the key, the client state and the reply would be.
   */
  lemma CacheHitNeedsNoService(stored: Option<Stored>, now: int, clientReady: bool,
                               apiKey: Option<string>, reply: ServiceReply)
    requires LookupCache(stored, now).Hit?
    ensures PopularProducts(stored, clientReady, apiKey, now, reply) == Resolved(LookupCache(stored, now).data)
    ensures CacheAfter(stored, now, PopularProducts(stored, clientReady, apiKey, now, reply), now) == stored
  {
  }

  /** An expired record is left in place and a request follows; only a valid batch replaces it. */
  lemma StaleRecordRefetched(t: int, data: Json, now: int, clientReady: bool,
                             apiKey: Option<string>, reply: ServiceReply, fetchedAt: int)
    requires now - t >= CACHE_DURATION_MS
    ensures PopularProducts(Some(Record(CacheRecord(t, data))), clientReady, apiKey, now, reply)
      == RequestOutcome(clientReady, apiKey, reply)
    ensures var stored := Some(Record(CacheRecord(t, data)));
      var r := RequestOutcome(clientReady, apiKey, reply);
      CacheAfter(stored, now, r, fetchedAt) == if r.Resolved? && r.value.Some? then Some(Record(CacheRecord(fetchedAt, r.value.value))) else stored
  {
    CacheFreshness(t, data, now);
  }

  /** A freshly fetched batch is served from the cache for the next 24 hours. */
  lemma FetchedBatchServedFromCache(stored: Option<Stored>, clientReady: bool, apiKey: Option<string>,
                                    now: int, reply: ServiceReply, fetchedAt: int, later: int)
    requires LookupCache(stored, now).Miss?
    requires PopularProducts(stored, clientReady, apiKey, now, reply).Resolved?
    requires PopularProducts(stored, clientReady, apiKey, now, reply).value.Some?
    requires later - fetchedAt < CACHE_DURATION_MS
    ensures forall ready, key, reply' ::
      PopularProducts(CacheAfter(stored, now, PopularProducts(stored, clientReady, apiKey, now, reply), fetchedAt),
                      ready, key, later, reply')
      == PopularProducts(stored, clientReady, apiKey, now, reply)
  {
    var r := PopularProducts(stored, clientReady, apiKey, now, reply);
    CacheFreshness(fetchedAt, r.value.value, later);
  }

  /**
   * A parsed reply without an array `recommendations` resolves to `null`, for
   * all three calls, and leaves the cache item as it was.
   */
  lemma BadShapeResolvesNull(j: Json, clientReady: bool, apiKey: Option<string>, stored: Option<Stored>,
                             now: int, fetchedAt: int)
    requires !IsBatch(j)
    requires clientReady || HasKey(apiKey)
    ensures RequestOutcome(clientReady, apiKey, Text(Parsed(j))) == Resolved(None)
    ensures CacheAfter(stored, now, PopularProducts(stored, clientReady, apiKey, now, Text(Parsed(j))), fetchedAt) == stored
  {
  }

  /**
   * Missing or empty text throws; so do a rejected call and unparsable text.
   * A thrown error never writes the cache.
   */
  lemma FailuresThrowAndNeverCache(reply: ServiceReply, clientReady: bool, apiKey: Option<string>,
                                   stored: Option<Stored>, now: int, fetchedAt: int)
    requires !(reply.Text? && reply.parse.Parsed?)
    ensures RequestOutcome(clientReady, apiKey, reply).Threw?
    ensures reply == NoText && (clientReady || HasKey(apiKey)) ==> RequestOutcome(clientReady, apiKey, reply) == Threw(EmptyResponse)
    ensures CacheAfter(stored, now, PopularProducts(stored, clientReady, apiKey, now, reply), fetchedAt) == stored
  {
  }

  // ---------------------------------------------------------------- the gateway

  /** The service client; it only remembers the key it was built with. */
  class Client {
    const apiKey: string

    constructor(apiKey: string)
      ensures this.apiKey == apiKey
    {
      this.apiKey := apiKey;
    }
  }

  /**
   * The module-level state of the gateway: the lazily built client and the
   * cache item in local storage. The ghost fields count the clients built and
   * log the requests sent to the service.
   */
  class Gateway {
    var aiInstance: Client?
    var cache: Option<Stored>
    ghost var clientsBuilt: nat
    ghost var sent: seq<Request>

    /** At most one client is ever built, and it is the one held. */
    ghost predicate Valid()
      reads this
    {
      clientsBuilt == if aiInstance == null then 0 else 1
    }

    constructor(stored: Option<Stored>)
      ensures Valid()
      ensures aiInstance == null && cache == stored && sent == []
    {
      aiInstance := null;
      cache := stored;
      clientsBuilt := 0;
      sent := [];
    }

    /** `getAiClient`. */
    method GetAiClient(apiKey: Option<string>) returns (r: Result<Client>)
      requires Valid()
      modifies this`aiInstance, this`clientsBuilt
      ensures Valid()
      ensures old(aiInstance) != null ==> r.Ok? && r.value == old(aiInstance) && aiInstance == old(aiInstance)
      ensures old(aiInstance) == null && !HasKey(apiKey) ==> r == Err(MissingApiKey) && aiInstance == null
      ensures old(aiInstance) == null && HasKey(apiKey) ==>
        r.Ok? && r.value == aiInstance && fresh(aiInstance) && aiInstance.apiKey == apiKey.value
    {
      if aiInstance == null {
        if !HasKey(apiKey) {
          return Err(MissingApiKey);
        }
        aiInstance := new Client(apiKey.value);
        clientsBuilt := clientsBuilt + 1;
      }
      r := Ok(aiInstance);
    }

    /** The request part shared by the three calls: get the client, send, check the reply. */
    method Send(prompt: Prompt, temperature: real, apiKey: Option<string>, reply: ServiceReply)
      returns (r: Outcome)
      requires Valid()
      modifies this`aiInstance, this`clientsBuilt, this`sent
      ensures Valid()
      ensures r == RequestOutcome(old(aiInstance) != null, apiKey, reply)
      ensures old(aiInstance) != null ==> aiInstance == old(aiInstance)
      ensures (aiInstance != null) == (old(aiInstance) != null || HasKey(apiKey))
      ensures sent == old(sent) + if aiInstance != null then [Request(API_MODEL, prompt, temperature)] else []
    {
      var client := GetAiClient(apiKey);
      if client.Err? {
        return Threw(client.error);
      }
      sent := sent + [Request(API_MODEL, prompt, temperature)];
      r := Interpret(reply);
    }

    /**
     * `getPopularProducts` at time `now`; `fetchedAt` is the later clock
     * reading taken when a fetched batch is written to the cache.
     */
    method GetPopularProducts(apiKey: Option<string>, now: int, reply: ServiceReply, fetchedAt: int)
      returns (r: Outcome)
      requires Valid()
      modifies this
      ensures Valid()
      ensures r == PopularProducts(old(cache), old(aiInstance) != null, apiKey, now, reply)
      ensures cache == CacheAfter(old(cache), now, r, fetchedAt)
      ensures old(aiInstance) != null ==> aiInstance == old(aiInstance)
      ensures (aiInstance != null) == (old(aiInstance) != null || (LookupCache(old(cache), now).Miss? && HasKey(apiKey)))
      ensures !LookupCache(old(cache), now).Miss? ==> aiInstance == old(aiInstance) && sent == old(sent)
      ensures LookupCache(old(cache), now).Miss? ==>
        sent == old(sent) + if aiInstance != null then [Request(API_MODEL, Popular, POPULAR_TEMPERATURE)] else []
    {
      var lookup := LookupCache(cache, now);
      match lookup
      case Broken(e) =>
        return Threw(e);
      case Hit(data) =>
        return Resolved(data);
      case Miss =>
        r := Send(Popular, POPULAR_TEMPERATURE, apiKey, reply);
        if r.Resolved? && r.value.Some? {
          cache := Some(Record(CacheRecord(fetchedAt, r.value.value)));
        }
    }

    /** `getPCRecommendation`. */
    method GetPCRecommendation(useCase: UseCase, answers: seq<Answer>, apiKey: Option<string>, reply: ServiceReply)
      returns (r: Outcome)
      requires Valid()
      modifies this`aiInstance, this`clientsBuilt, this`sent
      ensures Valid()
      ensures r == RequestOutcome(old(aiInstance) != null, apiKey, reply)
      ensures sent == old(sent) +
        if aiInstance != null then [Request(API_MODEL, ForUseCase(useCase, answers), RECOMMENDATION_TEMPERATURE)] else []
      ensures old(aiInstance) != null ==> aiInstance == old(aiInstance)
      ensures (aiInstance != null) == (old(aiInstance) != null || HasKey(apiKey))
    {
      r := Send(ForUseCase(useCase, answers), RECOMMENDATION_TEMPERATURE, apiKey, reply);
    }

    /** `getSimilarProducts`; the titles returned are not checked against `excludeTitles`. */
    method GetSimilarProducts(product: Product, excludeTitles: seq<string>, apiKey: Option<string>, reply: ServiceReply)
      returns (r: Outcome)
      requires Valid()
      modifies this`aiInstance, this`clientsBuilt, this`sent
      ensures Valid()
      ensures r == RequestOutcome(old(aiInstance) != null, apiKey, reply)
      ensures sent == old(sent) +
        if aiInstance != null then [Request(API_MODEL, SimilarTo(product, excludeTitles), SIMILAR_TEMPERATURE)] else []
      ensures old(aiInstance) != null ==> aiInstance == old(aiInstance)
      ensures (aiInstance != null) == (old(aiInstance) != null || HasKey(apiKey))
    {
      r := Send(SimilarTo(product, excludeTitles), SIMILAR_TEMPERATURE, apiKey, reply);
    }
  }
}
