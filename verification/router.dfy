/** Failover routing of one request: the model's keys in priority order, without those
    whose breaker is open, attempted until one gives an answer that is not retryable. */
module Router {
  import opened Wrappers
  import opened Json
  import opened Conversation
  import opened Keys
  import opened Breaker
  import Mesh
  import OpenAi
  import Anthropic

  datatype Error =
    | InvalidRequest
    | MissingModel
    | ModelNotConfigured
    | NoActiveKeys
    | BadStreamFlag
    | BadBody
    | IncomingTranslation(cause: OpenAi.Error)
    | PrimaryFailed
    | ProviderReturned(status: nat)
    | UpstreamUnreachable

  // ---- Building a provider request -----------------------------------------

  datatype SchemaFormat = OpenAiFormat | AnthropicFormat | GeminiFormat

  datatype AuthScheme = Bearer | XApiKey | GoogleApiKey

  datatype ProviderConfig = ProviderConfig(auth: AuthScheme, format: SchemaFormat)

  datatype ModelConfig = ModelConfig(baseUrl: string, schemaFormat: string, keys: seq<KeyConfig>)

  predicate Contains(s: string, part: string)
  {
    exists i :: 0 <= i <= |s| && part <= s[i..]
  }

  /** The provider, by its lower-case name. */
  function GetProviderConfig(provider: string): ProviderConfig
  {
    if Contains(provider, "anthropic") then ProviderConfig(XApiKey, AnthropicFormat)
    else if Contains(provider, "gemini") then ProviderConfig(GoogleApiKey, GeminiFormat)
    else ProviderConfig(Bearer, OpenAiFormat)
  }

  /** What the JSON library makes of the request bytes: the `model` field (`None` if the
      bytes cannot be read for it), the `stream` flag, and the chat request. */
  datatype Body = Body(model: Option<Option<string>>, stream: Option<Option<bool>>, chat: Option<OpenAi.ChatRequest>)

  datatype Payload =
    | AsReceived(body: Body)
    | AnthropicBody(request: Anthropic.AnthropicRequest)
    | GeminiBody(conv: Conversation)

  datatype Header = Header(name: string, value: string)

  /** The headers are those of the credential. */
  datatype ProviderRequest = ProviderRequest(endpoint: string, headers: seq<Header>, payload: Payload)

  function Credential(config: ProviderConfig, apiKey: string): seq<Header>
  {
    match config.auth
    case Bearer => [Header("Authorization", "Bearer " + apiKey)]
    case GoogleApiKey => [Header("x-goog-api-key", apiKey)]
    case XApiKey =>
      [Header("x-api-key", apiKey)]
      + if config.format == AnthropicFormat then [Header("anthropic-version", "2023-06-01")] else []
  }

  function Endpoint(config: ProviderConfig, baseUrl: string, model: string, body: Body): Result<string, Error>
  {
    match config.format
    case AnthropicFormat => Ok(baseUrl + "/messages")
    case GeminiFormat =>
      (match body.stream
       case None => Err(BadStreamFlag)
       case Some(flag) =>
         Ok(baseUrl + "/" + model + if flag == Some(true) then ":streamGenerateContent" else ":generateContent"))
    case OpenAiFormat => Ok(baseUrl + "/chat/completions")
  }

  function Translate(codec: Codec, config: ProviderConfig, model: string, body: Body): Result<Payload, Error>
  {
    if config.format == OpenAiFormat then Ok(AsReceived(body))
    else
      match body.chat
      case None => Err(BadBody)
      case Some(chat) =>
        match OpenAi.Universal(codec, chat)
        case Err(e) => Err(IncomingTranslation(e))
        case Ok(universal) =>
          var conv := universal.(settings := universal.settings.(model := Some(model)));
          Ok(if config.format == AnthropicFormat then AnthropicBody(Anthropic.Request(conv)) else GeminiBody(conv))
  }

  function BuildProviderRequest(
    codec: Codec, config: ProviderConfig, baseUrl: string, key: KeyConfig, model: string, body: Body)
    : Result<ProviderRequest, Error>
  {
    match Endpoint(config, baseUrl, model, body)
    case Err(e) => Err(e)
    case Ok(endpoint) =>
      match Translate(codec, config, model, body)
      case Err(e) => Err(e)
      case Ok(payload) => Ok(ProviderRequest(endpoint, Credential(config, key.apiKey), payload))
  }

  /** Whether a request can be built does not depend on the key, nor does anything in
      it but the credential. */
  lemma BuildIsKeyBlind(
    codec: Codec, config: ProviderConfig, baseUrl: string, k: KeyConfig, k': KeyConfig, model: string, body: Body)
    ensures var a, b := BuildProviderRequest(codec, config, baseUrl, k, model, body),
                        BuildProviderRequest(codec, config, baseUrl, k', model, body);
      && (a.Err? ==> a == b)
      && (a.Ok? ==> b.Ok? && b.value == a.value.(headers := Credential(config, k'.apiKey)))
  {
  }

  /** What goes to Anthropic and Gemini: the body translated, for the routed model. */
  function Translated(codec: Codec, model: string, body: Body): Result<Conversation, Error>
  {
    if body.chat.None? then Err(BadBody)
    else
      match OpenAi.Universal(codec, body.chat.value)
      case Err(e) => Err(IncomingTranslation(e))
      case Ok(conv) => Ok(conv.(settings := conv.settings.(model := Some(model))))
  }

  predicate Names(provider: string, word: string)
  {
    exists i, j :: 0 <= i <= j <= |provider| && provider[i..j] == word
  }

  lemma NamesIsContains(provider: string, word: string)
    ensures Names(provider, word) <==> Contains(provider, word)
  {
    if Contains(provider, word) {
      var i :| 0 <= i <= |provider| && word <= provider[i..];
      assert provider[i..i + |word|] == word;
    }
    if Names(provider, word) {
      var i, j :| 0 <= i <= j <= |provider| && provider[i..j] == word;
      assert word <= provider[i..];
    }
  }

  /** Address, credential and payload of the request, by the provider's name. */
  lemma RequestOfProvider(
    codec: Codec, provider: string, baseUrl: string, key: KeyConfig, model: string, body: Body)
    ensures var r := BuildProviderRequest(codec, GetProviderConfig(provider), baseUrl, key, model, body);
      var conv := Translated(codec, model, body);
      if Names(provider, "anthropic") then
        r == if conv.Err? then Err(conv.error)
             else Ok(ProviderRequest(
                    baseUrl + "/messages",
                    [Header("x-api-key", key.apiKey), Header("anthropic-version", "2023-06-01")],
                    AnthropicBody(Anthropic.Request(conv.value))))
      else if Names(provider, "gemini") then
        r == if body.stream.None? then Err(BadStreamFlag)
             else if conv.Err? then Err(conv.error)
             else Ok(ProviderRequest(
                    baseUrl + "/" + model
                      + (if body.stream.value == Some(true) then ":streamGenerateContent" else ":generateContent"),
                    [Header("x-goog-api-key", key.apiKey)],
                    GeminiBody(conv.value)))
      else
        r == Ok(ProviderRequest(
                  baseUrl + "/chat/completions", [Header("Authorization", "Bearer " + key.apiKey)], AsReceived(body)))
  {
    NamesIsContains(provider, "anthropic");
    NamesIsContains(provider, "gemini");
    var version := Header("anthropic-version", "2023-06-01");
    assert [Header("x-api-key", key.apiKey)] + [version] == [Header("x-api-key", key.apiKey), version];
  }

  // ---- One request ---------------------------------------------------------

  function Healthy(keys: seq<KeyConfig>, breaker: Breaker, at: nat): seq<KeyConfig>
  {
    if keys == [] then []
    else
      var k := keys[|keys| - 1];
      Healthy(keys[..|keys| - 1], breaker, at) + if IsOpen(breaker, k.alias, at) then [] else [k]
  }

  function Aliases(keys: seq<KeyConfig>): seq<string>
  {
    seq(|keys|, i requires 0 <= i < |keys| => keys[i].alias)
  }

  /** The breaker after trips of `aliases`, the i-th at `clock[i]`. */
  function TripAll(breaker: Breaker, aliases: seq<string>, clock: seq<nat>): Breaker
    requires |aliases| <= |clock|
  {
    if aliases == [] then breaker
    else
      var n := |aliases| - 1;
      TripAll(breaker, aliases[..n], clock)[aliases[n] := clock[n]]
  }

  datatype Prepared = Prepared(
    primaryRequest: ProviderRequest, primaryAlias: string, fallback: seq<KeyConfig>,
    config: ProviderConfig, baseUrl: string, model: string)

  function Chosen(prep: Prepared): seq<string>
  {
    [prep.primaryAlias] + Aliases(prep.fallback)
  }

  /** A model's keys in stable priority order. */
  function SortedKeys(routing: map<string, ModelConfig>, model: string): seq<KeyConfig>
  {
    if model in routing then SortByPriority(routing[model].keys) else []
  }

  /** What preparing a request must give: the first error, or all healthy keys of the
      model in stable priority order, the first of them with its request built. */
  ghost predicate Prepares(
    r: Result<Prepared, Error>, codec: Codec, routing: map<string, ModelConfig>, breaker: Breaker, body: Body, at: nat)
  {
    if body.model.None? then r == Err(InvalidRequest)
    else if body.model.value.None? then r == Err(MissingModel)
    else if body.model.value.value !in routing then r == Err(ModelNotConfigured)
    else
      var model := body.model.value.value;
      var mc := routing[model];
      var healthy := Healthy(SortedKeys(routing, model), breaker, at);
      var config := GetProviderConfig(mc.schemaFormat);
      if healthy == [] then r == Err(NoActiveKeys)
      else
        var built := BuildProviderRequest(codec, config, mc.baseUrl, healthy[0], model, body);
        if built.Err? then r == Err(built.error)
        else r == Ok(Prepared(built.value, healthy[0].alias, healthy[1..], config, mc.baseUrl, model))
  }

  /** The error kept after `n` failed attempts. */
  function LastError(outcomes: seq<Outcome>, n: nat): Error
    requires 1 <= n <= |outcomes|
  {
    if n == 1 then PrimaryFailed
    else if outcomes[n - 1].Unreachable? then UpstreamUnreachable
    else ProviderReturned(outcomes[n - 1].code)
  }

  /** What executing a prepared request must do: attempt a prefix of the chosen keys,
      all but the last failing and tripped. A response is not retryable; an error means
      the last one failed too, and either no key is left or none can be built for. */
  ghost predicate Executes(
    r: Result<nat, Error>, attempts: seq<string>, breaker: Breaker, breaker': Breaker,
    codec: Codec, prep: Prepared, body: Body, outcomes: seq<Outcome>, clock: seq<nat>)
    requires |outcomes| == |clock| == |Chosen(prep)|
  {
    var n := |attempts|;
    && 1 <= n <= |outcomes| && attempts == Chosen(prep)[..n]
    && (forall i | 0 <= i < n - 1 :: Failed(outcomes[i]))
    && (r.Ok? ==> outcomes[n - 1] == Status(r.value) && !IsRetryable(r.value)
                  && breaker' == TripAll(breaker, attempts[..n - 1], clock))
    && (r.Err? ==> Failed(outcomes[n - 1]) && breaker' == TripAll(breaker, attempts, clock)
                   && (n < |outcomes| ==>
                         var built := BuildProviderRequest(codec, prep.config, prep.baseUrl, prep.fallback[n - 1], prep.model, body);
                         built.Err? && r.error == built.error)
                   && (n == |outcomes| ==>
                         r.error == LastError(outcomes, n)))
  }

  /** The requests sent: the one prepared, then one for each fallback key tried, built
      with that key. */
  ghost predicate Sends(sent: seq<ProviderRequest>, codec: Codec, prep: Prepared, body: Body)
  {
    && |sent| <= |prep.fallback| + 1
    && (sent != [] ==> sent[0] == prep.primaryRequest)
    && forall i | 0 < i < |sent| ::
         BuildProviderRequest(codec, prep.config, prep.baseUrl, prep.fallback[i - 1], prep.model, body) == Ok(sent[i])
  }

  lemma SendsNext(sent: seq<ProviderRequest>, codec: Codec, prep: Prepared, body: Body, request: ProviderRequest)
    requires Sends(sent, codec, prep, body) && 0 < |sent| <= |prep.fallback|
    requires BuildProviderRequest(codec, prep.config, prep.baseUrl, prep.fallback[|sent| - 1], prep.model, body) == Ok(request)
    ensures Sends(sent + [request], codec, prep, body)
  {
  }

  /** The attempts so far are the first of the chosen keys, and all failed and tripped. */
  ghost predicate FailedSoFar(
    attempts: seq<string>, breaker: Breaker, breaker': Breaker, prep: Prepared, outcomes: seq<Outcome>, clock: seq<nat>)
    requires |outcomes| == |clock| == |Chosen(prep)|
  {
    && |attempts| <= |outcomes| && attempts == Chosen(prep)[..|attempts|]
    && (forall i | 0 <= i < |attempts| :: Failed(outcomes[i]))
    && breaker' == TripAll(breaker, attempts, clock)
  }

  lemma NextFails(
    attempts: seq<string>, breaker: Breaker, breaker': Breaker, prep: Prepared, outcomes: seq<Outcome>, clock: seq<nat>)
    requires |outcomes| == |clock| == |Chosen(prep)|
    requires FailedSoFar(attempts, breaker, breaker', prep, outcomes, clock)
    requires |attempts| < |outcomes| && Failed(outcomes[|attempts|])
    ensures var alias := Chosen(prep)[|attempts|];
      FailedSoFar(attempts + [alias], breaker, breaker'[alias := clock[|attempts|]], prep, outcomes, clock)
  {
    var alias := Chosen(prep)[|attempts|];
    assert (attempts + [alias])[..|attempts|] == attempts;
  }

  lemma NextAnswers(
    attempts: seq<string>, breaker: Breaker, breaker': Breaker, codec: Codec, prep: Prepared, body: Body,
    outcomes: seq<Outcome>, clock: seq<nat>)
    requires |outcomes| == |clock| == |Chosen(prep)|
    requires FailedSoFar(attempts, breaker, breaker', prep, outcomes, clock)
    requires |attempts| < |outcomes| && !Failed(outcomes[|attempts|])
    ensures Executes(Ok(outcomes[|attempts|].code), attempts + [Chosen(prep)[|attempts|]],
                     breaker, breaker', codec, prep, body, outcomes, clock)
  {
    var alias := Chosen(prep)[|attempts|];
    assert (attempts + [alias])[..|attempts|] == attempts;
  }

  lemma CannotBuild(
    attempts: seq<string>, breaker: Breaker, breaker': Breaker, codec: Codec, prep: Prepared, body: Body,
    outcomes: seq<Outcome>, clock: seq<nat>, e: Error)
    requires |outcomes| == |clock| == |Chosen(prep)| && 1 <= |attempts| < |outcomes|
    requires FailedSoFar(attempts, breaker, breaker', prep, outcomes, clock)
    requires BuildProviderRequest(codec, prep.config, prep.baseUrl, prep.fallback[|attempts| - 1], prep.model, body) == Err(e)
    ensures Executes(Err(e), attempts, breaker, breaker', codec, prep, body, outcomes, clock)
  {
  }

  lemma ChosenAt(prep: Prepared)
    ensures |Chosen(prep)| == |prep.fallback| + 1 && Chosen(prep)[0] == prep.primaryAlias
    ensures forall i | 0 <= i < |prep.fallback| :: Chosen(prep)[i + 1] == prep.fallback[i].alias
  {
  }

  lemma NoneYet(breaker: Breaker, prep: Prepared, outcomes: seq<Outcome>, clock: seq<nat>)
    requires |outcomes| == |clock| == |Chosen(prep)|
    ensures FailedSoFar([], breaker, breaker, prep, outcomes, clock)
  {
  }

  lemma Exhausted(
    attempts: seq<string>, breaker: Breaker, breaker': Breaker, codec: Codec, prep: Prepared, body: Body,
    outcomes: seq<Outcome>, clock: seq<nat>)
    requires |outcomes| == |clock| == |Chosen(prep)| == |attempts|
    requires FailedSoFar(attempts, breaker, breaker', prep, outcomes, clock)
    ensures Executes(Err(LastError(outcomes, |outcomes|)), attempts, breaker, breaker', codec, prep, body, outcomes, clock)
  {
  }

  /** A request can be built for each fallback key, as for every prepared request. */
  ghost predicate BuildsForAll(codec: Codec, prep: Prepared, body: Body)
  {
    forall i | 0 <= i < |prep.fallback| ::
      BuildProviderRequest(codec, prep.config, prep.baseUrl, prep.fallback[i], prep.model, body).Ok?
  }

  /** A prepared request chooses the healthy keys, and can be built for each of them. */
  lemma PreparedBuilds(
    codec: Codec, routing: map<string, ModelConfig>, prepared: Breaker, at: nat, prep: Prepared, body: Body)
    requires Prepares(Ok(prep), codec, routing, prepared, body, at)
    ensures Chosen(prep) == Aliases(Healthy(SortedKeys(routing, prep.model), prepared, at))
    ensures BuildsForAll(codec, prep, body)
  {
    var healthy := Healthy(SortedKeys(routing, prep.model), prepared, at);
    assert Chosen(prep) == Aliases(healthy);
    forall i | 0 <= i < |prep.fallback|
      ensures BuildProviderRequest(codec, prep.config, prep.baseUrl, prep.fallback[i], prep.model, body).Ok?
    {
      BuildIsKeyBlind(codec, prep.config, prep.baseUrl, healthy[0], prep.fallback[i], prep.model, body);
    }
  }

  /** For a prepared request the build error in the fallback loop never fires: an error
      means that every healthy key of the model was attempted, failed and was tripped. */
  lemma ErrorMeansAllAttempted(
    r: Result<nat, Error>, attempts: seq<string>, breaker: Breaker, breaker': Breaker, codec: Codec,
    routing: map<string, ModelConfig>, prepared: Breaker, at: nat,
    prep: Prepared, body: Body, outcomes: seq<Outcome>, clock: seq<nat>)
    requires Prepares(Ok(prep), codec, routing, prepared, body, at)
    requires |outcomes| == |clock| == |Chosen(prep)|
    requires Executes(r, attempts, breaker, breaker', codec, prep, body, outcomes, clock)
    ensures r.Err? ==>
      && attempts == Aliases(Healthy(SortedKeys(routing, prep.model), prepared, at))
      && (forall i | 0 <= i < |outcomes| :: Failed(outcomes[i]))
      && breaker' == TripAll(breaker, attempts, clock)
  {
    PreparedBuilds(codec, routing, prepared, at, prep, body);
    assert Chosen(prep)[..|Chosen(prep)|] == Chosen(prep);
  }

  /** A tripped key is open for 60 s after the call that tripped it. */
  lemma {:induction false} TrippedKeysAreOpen(breaker: Breaker, aliases: seq<string>, clock: seq<nat>, i: nat, at: nat)
    requires i < |aliases| <= |clock| && at < clock[i] + 60_000
    requires forall j, k | 0 <= j <= k < |clock| :: clock[j] <= clock[k]
    ensures IsOpen(TripAll(breaker, aliases, clock), aliases[i], at)
  {
    var n := |aliases| - 1;
    if i < n { TrippedKeysAreOpen(breaker, aliases[..n], clock, i, at); }
  }

  /** An attempt got no answer, or one of the five codes after which another key is tried. */
  predicate Spoilt(o: Outcome)
  {
    o.Unreachable? || o.code in {429, 500, 502, 503, 504}
  }

  predicate SpoiltTo(outcomes: seq<Outcome>, n: nat)
  {
    n <= |outcomes| && forall j | 0 <= j < n :: Spoilt(outcomes[j])
  }

  ghost predicate Ascending(clock: seq<nat>)
  {
    forall j, k | 0 <= j <= k < |clock| :: clock[j] <= clock[k]
  }

  /** Keys are attempted up to and with the first whose answer is not spoilt, and that
      answer is returned; each before it is left open for 60 s. Without such an answer all
      keys are attempted and left open, and an error is returned. */
  ghost predicate FailsOver(
    r: Result<nat, Error>, attempts: seq<string>, breaker': Breaker,
    chosen: seq<string>, outcomes: seq<Outcome>, clock: seq<nat>)
    requires |outcomes| == |clock| == |chosen|
  {
    && |attempts| <= |chosen| && attempts == chosen[..|attempts|]
    && (r.Ok? ==> r.value !in {429, 500, 502, 503, 504})
    && (forall i | 0 <= i < |chosen| && SpoiltTo(outcomes, i) && !Spoilt(outcomes[i]) ::
          |attempts| == i + 1 && r == Ok(outcomes[i].code))
    && (SpoiltTo(outcomes, |chosen|) ==> |attempts| == |chosen| && r.Err?)
    && (forall i, at | 0 <= i < |chosen| && SpoiltTo(outcomes, i + 1) && Ascending(clock) && at < clock[i] + 60_000 ::
          IsOpen(breaker', chosen[i], at))
  }

  lemma FirstUnspoilt(outcomes: seq<Outcome>, n: nat, i: nat)
    requires 1 <= n <= |outcomes| && SpoiltTo(outcomes, n - 1)
    ensures SpoiltTo(outcomes, i) && i < |outcomes| && !Spoilt(outcomes[i]) ==> i >= n - 1
    ensures SpoiltTo(outcomes, i) && !Spoilt(outcomes[n - 1]) ==> i <= n - 1
  {
  }

  /** How the last attempt ended, if a request can be built for all keys. */
  lemma LastAttempt(
    r: Result<nat, Error>, attempts: seq<string>, breaker: Breaker, breaker': Breaker, codec: Codec,
    prep: Prepared, body: Body, outcomes: seq<Outcome>, clock: seq<nat>)
    requires BuildsForAll(codec, prep, body)
    requires |outcomes| == |clock| == |Chosen(prep)|
    requires Executes(r, attempts, breaker, breaker', codec, prep, body, outcomes, clock)
    ensures var n := |attempts|;
      && 1 <= n <= |outcomes| && attempts == Chosen(prep)[..n] && SpoiltTo(outcomes, n - 1)
      && (r.Ok? ==> !Spoilt(outcomes[n - 1]) && outcomes[n - 1] == Status(r.value))
      && (r.Err? ==> Spoilt(outcomes[n - 1]) && n == |outcomes|)
      && breaker' == TripAll(breaker, if r.Ok? then attempts[..n - 1] else attempts, clock)
  {
  }

  /** So a request that can be built for all keys fails over. */
  lemma ExecutionFailsOver(
    r: Result<nat, Error>, attempts: seq<string>, breaker: Breaker, breaker': Breaker, codec: Codec,
    prep: Prepared, body: Body, outcomes: seq<Outcome>, clock: seq<nat>)
    requires BuildsForAll(codec, prep, body)
    requires |outcomes| == |clock| == |Chosen(prep)|
    requires Executes(r, attempts, breaker, breaker', codec, prep, body, outcomes, clock)
    ensures FailsOver(r, attempts, breaker', Chosen(prep), outcomes, clock)
  {
    LastAttempt(r, attempts, breaker, breaker', codec, prep, body, outcomes, clock);
    LastAttemptFailsOver(r, attempts, breaker, breaker', Chosen(prep), outcomes, clock);
  }

  lemma LastAttemptFailsOver(
    r: Result<nat, Error>, attempts: seq<string>, breaker: Breaker, breaker': Breaker,
    chosen: seq<string>, outcomes: seq<Outcome>, clock: seq<nat>)
    requires |outcomes| == |clock| == |chosen|
    requires var n := |attempts|;
      && 1 <= n <= |outcomes| && attempts == chosen[..n] && SpoiltTo(outcomes, n - 1)
      && (r.Ok? ==> !Spoilt(outcomes[n - 1]) && outcomes[n - 1] == Status(r.value))
      && (r.Err? ==> Spoilt(outcomes[n - 1]) && n == |outcomes|)
      && breaker' == TripAll(breaker, if r.Ok? then attempts[..n - 1] else attempts, clock)
    ensures FailsOver(r, attempts, breaker', chosen, outcomes, clock)
  {
    var n := |attempts|;
    forall i | 0 <= i < |chosen| && SpoiltTo(outcomes, i) && !Spoilt(outcomes[i])
      ensures n == i + 1 && r == Ok(outcomes[i].code)
    {
      FirstUnspoilt(outcomes, n, i);
    }
    forall i, at | 0 <= i < |chosen| && SpoiltTo(outcomes, i + 1) && Ascending(clock) && at < clock[i] + 60_000
      ensures IsOpen(breaker', chosen[i], at)
    {
      FirstUnspoilt(outcomes, n, i + 1);
      TrippedKeysAreOpen(breaker, if r.Ok? then attempts[..n - 1] else attempts, clock, i, at);
    }
  }

  /** The gateway attempts the keys of a published model in published order, leaving
      out those whose breaker is open. */
  lemma PublishedOrderIsAttemptOrder(entries: seq<Mesh.Entry>, r: Mesh.Registration, m: string, breaker: Breaker, at: nat)
    ensures var published := SortByPriority(Mesh.Slot(entries, r, m));
      Healthy(SortByPriority(published), breaker, at) == Healthy(published, breaker, at)
  {
    Mesh.PublishedOrder(entries, r, m);
  }

  /** A routed request attempts healthy keys in order: it fails over between them, trips
      the keys that failed it and no others, and fails only when all have. */
  ghost predicate Routes(
    r: Result<nat, Error>, attempts: seq<string>, breaker: Breaker, breaker': Breaker,
    healthy: seq<string>, outcomes: seq<Outcome>, clock: seq<nat>)
  {
    var n := |attempts|;
    && |outcomes| == |clock| == |healthy|
    && 1 <= n <= |healthy| && attempts == healthy[..n]
    && (r.Ok? ==> outcomes[n - 1] == Status(r.value) && !IsRetryable(r.value)
                  && breaker' == TripAll(breaker, attempts[..n - 1], clock))
    && (r.Err? ==> attempts == healthy && (forall i | 0 <= i < |outcomes| :: Failed(outcomes[i]))
                   && breaker' == TripAll(breaker, healthy, clock))
    && FailsOver(r, attempts, breaker', healthy, outcomes, clock)
  }

  /** Each request sent is built with its own key. */
  ghost predicate SentTo(
    sent: seq<ProviderRequest>, codec: Codec, mc: ModelConfig, model: string, keys: seq<KeyConfig>, body: Body)
  {
    |sent| <= |keys| && forall i | 0 <= i < |sent| ::
      BuildProviderRequest(codec, GetProviderConfig(mc.schemaFormat), mc.baseUrl, keys[i], model, body) == Ok(sent[i])
  }

  lemma PreparedSends(
    sent: seq<ProviderRequest>, codec: Codec, routing: map<string, ModelConfig>, prepared: Breaker, at: nat,
    prep: Prepared, body: Body)
    requires Prepares(Ok(prep), codec, routing, prepared, body, at) && Sends(sent, codec, prep, body)
    ensures SentTo(sent, codec, routing[prep.model], prep.model, Healthy(SortedKeys(routing, prep.model), prepared, at), body)
  {
    var keys := Healthy(SortedKeys(routing, prep.model), prepared, at);
    assert forall i | 0 < i < |keys| :: keys[i] == prep.fallback[i - 1];
  }

  class Gateway {
    const codec: Codec
    var routing: map<string, ModelConfig>
    var breaker: Breaker

    constructor (codec: Codec, routing: map<string, ModelConfig>)
      ensures this.codec == codec && this.routing == routing && breaker == map[]
    {
      this.codec, this.routing, breaker := codec, routing, map[];
    }

    method PrepUpstreamRequest(body: Body, at: nat) returns (r: Result<Prepared, Error>)
      ensures Prepares(r, codec, routing, breaker, body, at)
    {
      if body.model.None? { return Err(InvalidRequest); }
      if body.model.value.None? { return Err(MissingModel); }
      var model := body.model.value.value;
      if model !in routing { return Err(ModelNotConfigured); }
      var mc := routing[model];
      if mc.keys == [] {
        return Err(NoActiveKeys);
      }
      var sorted := SortByPriority(mc.keys);
      var healthy: seq<KeyConfig> := [];
      for i := 0 to |sorted|
        invariant healthy == Healthy(sorted[..i], breaker, at)
      {
        assert sorted[..i + 1][..i] == sorted[..i];
        if sorted[i].alias in breaker && at < breaker[sorted[i].alias] + TTL_MS {
        } else {
          healthy := healthy + [sorted[i]];
        }
      }
      assert sorted[..|sorted|] == sorted;
      if healthy == [] { return Err(NoActiveKeys); }
      var config := GetProviderConfig(mc.schemaFormat);
      var primary := healthy[0];
      var built := BuildProviderRequest(codec, config, mc.baseUrl, primary, model, body);
      if built.Err? { return Err(built.error); }
      return Ok(Prepared(built.value, primary.alias, healthy[1..], config, mc.baseUrl, model));
    }

    /** `outcomes[i]` is what the i-th attempt would get, `clock[i]` when it ends. */
    method ExecuteUpstreamRequest(prep: Prepared, body: Body, outcomes: seq<Outcome>, clock: seq<nat>)
      returns (r: Result<nat, Error>, ghost attempts: seq<string>, ghost sent: seq<ProviderRequest>)
      requires |outcomes| == |clock| == |Chosen(prep)|
      modifies this`breaker
      ensures Executes(r, attempts, old(breaker), breaker, codec, prep, body, outcomes, clock)
      ensures BuildsForAll(codec, prep, body) ==> FailsOver(r, attempts, breaker, Chosen(prep), outcomes, clock)
      ensures |sent| == |attempts| && Sends(sent, codec, prep, body)
    {
      r, attempts, sent := AttemptInTurn(prep, body, outcomes, clock);
      if BuildsForAll(codec, prep, body) {
        ExecutionFailsOver(r, attempts, old(breaker), breaker, codec, prep, body, outcomes, clock);
      }
    }

    method AttemptInTurn(prep: Prepared, body: Body, outcomes: seq<Outcome>, clock: seq<nat>)
      returns (r: Result<nat, Error>, ghost attempts: seq<string>, ghost sent: seq<ProviderRequest>)
      requires |outcomes| == |clock| == |Chosen(prep)|
      modifies this`breaker
      ensures Executes(r, attempts, old(breaker), breaker, codec, prep, body, outcomes, clock)
      ensures |sent| == |attempts| && Sends(sent, codec, prep, body)
    {
      ghost var start := breaker;
      ChosenAt(prep);
      attempts, sent := [], [prep.primaryRequest];
      NoneYet(start, prep, outcomes, clock);
      if !Failed(outcomes[0]) {
        NextAnswers(attempts, start, breaker, codec, prep, body, outcomes, clock);
        r, attempts := Ok(outcomes[0].code), attempts + [prep.primaryAlias];
        return;
      }
      NextFails(attempts, start, breaker, prep, outcomes, clock);
      breaker := breaker[prep.primaryAlias := clock[0]];
      r, attempts, sent := TryFallbacks(prep, body, outcomes, clock, start, attempts + [prep.primaryAlias], sent);
    }

    /** One fallback key: the call ends, or the attempt failed and the key is tripped. */
    method TryFallback(
      prep: Prepared, body: Body, i: nat, outcomes: seq<Outcome>, clock: seq<nat>, ghost start: Breaker, ghost tried: seq<string>,
      ghost before: seq<ProviderRequest>)
      returns (end: Option<Result<nat, Error>>, ghost attempts: seq<string>, ghost sent: seq<ProviderRequest>)
      requires |outcomes| == |clock| == |Chosen(prep)| && |tried| == |before| == i + 1 <= |prep.fallback|
      requires Sends(before, codec, prep, body)
      requires FailedSoFar(tried, start, breaker, prep, outcomes, clock)
      modifies this`breaker
      ensures end.Some? ==> Executes(end.value, attempts, start, breaker, codec, prep, body, outcomes, clock)
      ensures end.None? ==> |attempts| == i + 2 && FailedSoFar(attempts, start, breaker, prep, outcomes, clock)
      ensures |sent| == |attempts| && Sends(sent, codec, prep, body)
    {
      ChosenAt(prep);
      var key := prep.fallback[i];
      var built := BuildProviderRequest(codec, prep.config, prep.baseUrl, key, prep.model, body);
      if built.Err? {
        CannotBuild(tried, start, breaker, codec, prep, body, outcomes, clock, built.error);
        return Some(Err(built.error)), tried, before;
      }
      sent := before + [built.value];
      SendsNext(before, codec, prep, body, built.value);
      if !Failed(outcomes[i + 1]) {
        NextAnswers(tried, start, breaker, codec, prep, body, outcomes, clock);
        return Some(Ok(outcomes[i + 1].code)), tried + [key.alias], sent;
      }
      NextFails(tried, start, breaker, prep, outcomes, clock);
      breaker := breaker[key.alias := clock[i + 1]];
      return None, tried + [key.alias], sent;
    }

    /** The loop over the fallback keys, after the primary one failed. */
    method TryFallbacks(
      prep: Prepared, body: Body, outcomes: seq<Outcome>, clock: seq<nat>, ghost start: Breaker, ghost tried: seq<string>,
      ghost before: seq<ProviderRequest>)
      returns (r: Result<nat, Error>, ghost attempts: seq<string>, ghost sent: seq<ProviderRequest>)
      requires |outcomes| == |clock| == |Chosen(prep)| && |tried| == |before| == 1
      requires Sends(before, codec, prep, body)
      requires FailedSoFar(tried, start, breaker, prep, outcomes, clock)
      modifies this`breaker
      ensures Executes(r, attempts, start, breaker, codec, prep, body, outcomes, clock)
      ensures |sent| == |attempts| && Sends(sent, codec, prep, body)
    {
      attempts, sent := tried, before;
      var lastError := PrimaryFailed;
      for i := 0 to |prep.fallback|
        invariant |attempts| == i + 1 && FailedSoFar(attempts, start, breaker, prep, outcomes, clock)
        invariant |sent| == i + 1 && Sends(sent, codec, prep, body)
        invariant lastError == LastError(outcomes, i + 1)
      {
        var end: Option<Result<nat, Error>>;
        end, attempts, sent := TryFallback(prep, body, i, outcomes, clock, start, attempts, sent);
        if end.Some? { return end.value, attempts, sent; }
        lastError := if outcomes[i + 1].Unreachable? then UpstreamUnreachable else ProviderReturned(outcomes[i + 1].code);
      }
      Exhausted(attempts, start, breaker, codec, prep, body, outcomes, clock);
      return Err(lastError), attempts, sent;
    }

    /** Preparation at `at`, then execution. */
    method RouteChatCompletionWithFallback(body: Body, at: nat, outcomes: seq<Outcome>, clock: seq<nat>)
      returns (r: Result<nat, Error>, ghost attempts: seq<string>, ghost sent: seq<ProviderRequest>)
      requires body.model.Some? && body.model.value.Some? && body.model.value.value in routing ==>
        |outcomes| == |clock| == |Healthy(SortedKeys(routing, body.model.value.value), breaker, at)|
      modifies this`breaker
      ensures attempts == [] ==> r.Err? && breaker == old(breaker) && Prepares(Err(r.error), codec, routing, old(breaker), body, at)
      ensures attempts != [] ==>
        && body.model.Some? && body.model.value.Some? && body.model.value.value in routing
        && var model := body.model.value.value;
           var keys := Healthy(SortedKeys(routing, model), old(breaker), at);
           && Routes(r, attempts, old(breaker), breaker, Aliases(keys), outcomes, clock)
           && |sent| == |attempts| && SentTo(sent, codec, routing[model], model, keys, body)
    {
      var prepared := PrepUpstreamRequest(body, at);
      if prepared.Err? { return Err(prepared.error), [], []; }
      var prep := prepared.value;
      PreparedBuilds(codec, routing, breaker, at, prep, body);
      ghost var before := breaker;
      r, attempts, sent := ExecuteUpstreamRequest(prep, body, outcomes, clock);
      ErrorMeansAllAttempted(r, attempts, before, breaker, codec, routing, before, at, prep, body, outcomes, clock);
      PreparedSends(sent, codec, routing, before, at, prep, body);
    }
  }
}
