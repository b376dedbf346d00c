/**
 * The queue-triggered invoice submission (EnviarNFSEFunction): decode the
 * message, map it to the payload, check the NFE.io credentials, build the
 * request, classify the reply. The whole body sits in one try/except, so
 * every failure ends in the handler's single error branch.
 *
 * The environment, the decoding of the message and the HTTP POST are inputs:
 * the handler receives the decoding result, the two environment values and
 * what the POST returned, and reports the request it would send (None when
 * it sends nothing) with the outcome of the run.
 */
module NfseHandler {
  import opened Wrappers
  import opened Json
  import opened Payload

  /** The two environment values `os.getenv` returns (None when unset). */
  datatype Env = Env(apiKey: Option<string>, companyId: Option<string>)

  /** What `msg.get_body().decode("utf-8")` followed by `json.loads` gives. */
  datatype Decoded = NotUtf8 | NotJson | Parsed(value: JsonValue)

  /** What `requests.post` gives: a transport exception, or a response with
      its status, its text and, when the text is JSON, what `response.json()` decodes. */
  datatype PostResult =
    | TransportError(message: string)
    | Response(status: int, text: string, json: Option<JsonValue>)

  datatype NfeRequest = NfeRequest(url: string, headers: map<string, string>, body: JsonValue)

  /** The exceptions the handler's except branch absorbs. */
  datatype PipelineError =
    | BodyNotUtf8
    | BodyNotJson
    | BodyNotObject            // `data.get` on a list, string, number, bool or null
    | MissingCredentials
    | Transport(message: string)
    | SuccessReplyNotJson(status: int)   // `response.json()` raising while logging a success

  /** How a run ends: the try body runs to its end after classifying the reply,
      or an exception lands in the except branch. Nothing escapes the handler. */
  datatype Outcome =
    | Completed(status: int, accepted: bool)
    | Failed(error: PipelineError)

  datatype Run = Run(outcome: Outcome, request: Option<NfeRequest>)

  const UrlPrefix: string := "https://api.nfe.io/v1/companies/"
  const UrlSuffix: string := "/serviceinvoices"
  const AuthScheme: string := "Basic "

  /** Python truthiness of an environment value: unset and empty both fail. */
  predicate Configured(v: Option<string>)
  {
    v.Some? && v.value != ""
  }

  /** The invoice endpoint of one company. */
  function InvoiceUrl(companyId: string): string
  {
    UrlPrefix + companyId + UrlSuffix
  }

  /** Recovers the company from an invoice endpoint URL. */
  function CompanyIdOf(url: string): Option<string>
  {
    if |UrlPrefix| + |UrlSuffix| <= |url|
       && url[..|UrlPrefix|] == UrlPrefix
       && url[|url| - |UrlSuffix|..] == UrlSuffix
    then Some(url[|UrlPrefix|..|url| - |UrlSuffix|])
    else None
  }

  function Authorization(apiKey: string): string
  {
    AuthScheme + apiKey
  }

  function Headers(apiKey: string): map<string, string>
  {
    map[
      "Content-Type" := "application/json",
      "Accept" := "application/json",
      "Authorization" := Authorization(apiKey)]
  }

  function BuildRequest(apiKey: string, companyId: string, payload: InvoicePayload): NfeRequest
  {
    NfeRequest(InvoiceUrl(companyId), Headers(apiKey), ToJson(payload))
  }

  /** Reply classification: 200 and 201 are success, every other status is an error. */
  predicate IsSuccessStatus(status: int)
  {
    status == 200 || status == 201
  }

  /** What happens once the request has been sent. */
  function Classify(post: PostResult): Outcome
  {
    match post
    case TransportError(m) => Failed(Transport(m))
    case Response(status, _, json) =>
      if !IsSuccessStatus(status) then Completed(status, false)
      else if json.None? then Failed(SuccessReplyNotJson(status))
      else Completed(status, true)
  }

  /** One run of the queue handler. */
  function HandleQueueMessage(decoded: Decoded, env: Env, post: PostResult): (run: Run)
    ensures run.request.Some? <==>
      decoded.Parsed? && decoded.value.JObject? && Configured(env.apiKey) && Configured(env.companyId)
    ensures run.request.Some? ==>
      run.request.value == BuildRequest(env.apiKey.value, env.companyId.value, MapPayload(decoded.value.fields))
    ensures run.outcome.Completed? ==>
      run.request.Some? && post.Response? && run.outcome.status == post.status
      && (run.outcome.accepted <==> run.outcome.status in {200, 201})
  {
    match decoded
    case NotUtf8 => Run(Failed(BodyNotUtf8), None)
    case NotJson => Run(Failed(BodyNotJson), None)
    case Parsed(data) =>
      if !data.JObject? then Run(Failed(BodyNotObject), None)
      else
        var payload := MapPayload(data.fields);
        if !Configured(env.apiKey) || !Configured(env.companyId) then Run(Failed(MissingCredentials), None)
        else
          var request := BuildRequest(env.apiKey.value, env.companyId.value, payload);
          Run(Classify(post), Some(request))
  }

  /** The URL determines the company: parsing it back gives the company id. */
  lemma CompanyIdRoundTrip(companyId: string)
    ensures CompanyIdOf(InvoiceUrl(companyId)) == Some(companyId)
  {
    var url := InvoiceUrl(companyId);
    assert url[..|UrlPrefix|] == UrlPrefix;
    assert url[|url| - |UrlSuffix|..] == UrlSuffix;
    assert url[|UrlPrefix|..|url| - |UrlSuffix|] == companyId;
  }

  /** Every URL `CompanyIdOf` accepts is the invoice endpoint of that company. */
  lemma CompanyIdOfOnlyInvoiceUrls(url: string, companyId: string)
    requires CompanyIdOf(url) == Some(companyId)
    ensures url == InvoiceUrl(companyId)
  {
    var n := |url| - |UrlSuffix|;
    assert url == url[..|UrlPrefix|] + url[|UrlPrefix|..n] + url[n..];
  }

  /** Distinct companies post to distinct URLs. */
  lemma InvoiceUrlInjective(a: string, b: string)
    requires InvoiceUrl(a) == InvoiceUrl(b)
    ensures a == b
  {
    CompanyIdRoundTrip(a);
    CompanyIdRoundTrip(b);
  }

  /** The Authorization header determines the key it was built from. */
  lemma AuthorizationInjective(a: string, b: string)
    requires Authorization(a) == Authorization(b)
    ensures a == b
  {
    assert a == Authorization(a)[|AuthScheme|..];
    assert b == Authorization(b)[|AuthScheme|..];
  }

  /** A missing or empty credential stops the run before any POST: no request
      is built, the run ends in the except branch, and what the POST would
      have returned makes no difference. */
  lemma NoPostWithoutCredentials(decoded: Decoded, env: Env, post: PostResult, other: PostResult)
    requires !Configured(env.apiKey) || !Configured(env.companyId)
    ensures HandleQueueMessage(decoded, env, post).request == None
    ensures HandleQueueMessage(decoded, env, post).outcome.Failed?
    ensures HandleQueueMessage(decoded, env, post) == HandleQueueMessage(decoded, env, other)
    ensures decoded.Parsed? && decoded.value.JObject? ==>
      HandleQueueMessage(decoded, env, post).outcome == Failed(MissingCredentials)
  {
  }

  /** A message that does not decode to a JSON object fails at decoding,
      whatever the configuration; the credentials are read only after that. */
  lemma DecodeFailureComesFirst(decoded: Decoded, env: Env, post: PostResult)
    requires !(decoded.Parsed? && decoded.value.JObject?)
    ensures HandleQueueMessage(decoded, env, post) == Run(Failed(
      match decoded
      case NotUtf8 => BodyNotUtf8
      case NotJson => BodyNotJson
      case Parsed(_) => BodyNotObject), None)
  {
  }

  /** Once the request is sent, the reply decides the outcome: a transport
      exception and a 200/201 reply whose body is not JSON end in the except
      branch, 200 and 201 are accepted, every other status is logged as an error. */
  lemma SubmissionOutcome(decoded: Decoded, env: Env, post: PostResult)
    requires decoded.Parsed? && decoded.value.JObject?
    requires Configured(env.apiKey) && Configured(env.companyId)
    ensures post.TransportError? ==>
      HandleQueueMessage(decoded, env, post).outcome == Failed(Transport(post.message))
    ensures post.Response? && post.status !in {200, 201} ==>
      HandleQueueMessage(decoded, env, post).outcome == Completed(post.status, false)
    ensures post.Response? && post.status in {200, 201} && post.json.Some? ==>
      HandleQueueMessage(decoded, env, post).outcome == Completed(post.status, true)
    ensures post.Response? && post.status in {200, 201} && post.json.None? ==>
      HandleQueueMessage(decoded, env, post).outcome == Failed(SuccessReplyNotJson(post.status))
  {
  }

  /** The request that is sent: the company's endpoint, the key behind
      "Basic ", JSON content type, and a body where every defaulted field
      follows its rule and the country is "BRA". */
  lemma SentRequest(data: map<string, JsonValue>, apiKey: string, companyId: string, post: PostResult, i: nat)
    requires apiKey != "" && companyId != "" && i < |Rules|
    ensures var run := HandleQueueMessage(Parsed(JObject(data)), Env(Some(apiKey), Some(companyId)), post);
      && run.request.Some?
      && CompanyIdOf(run.request.value.url) == Some(companyId)
      && run.request.value.headers["Authorization"] == "Basic " + apiKey
      && run.request.value.headers["Content-Type"] == "application/json"
      && Lookup(run.request.value.body, Rules[i].path) == Some(Expected(data, Rules[i]))
      && Lookup(run.request.value.body, CountryPath) == Some(JString("BRA"))
  {
    CompanyIdRoundTrip(companyId);
    MapPayloadFollowsRule(data, i);
    CountryIsAlwaysBra(data);
  }

  /** A message for customer Acme with amount 150, answered with 201. */
  lemma AcmeAccepted(apiKey: string, companyId: string)
    requires apiKey != "" && companyId != ""
    ensures var data := map["cliente" := JString("Acme"), "email" := JString("acme@x.com"), "valor" := JInt(150)];
      var run := HandleQueueMessage(Parsed(JObject(data)), Env(Some(apiKey), Some(companyId)),
                                    Response(201, "{}", Some(JObject(map[]))));
      && run.outcome == Completed(201, true)
      && run.request.Some?
      && Lookup(run.request.value.body, ["servicesAmount"]) == Some(JInt(150))
      && Lookup(run.request.value.body, ["borrower", "name"]) == Some(JString("Acme"))
      && Lookup(run.request.value.body, ["borrower", "address", "state"]) == Some(JString("SP"))
  {
    var data := map["cliente" := JString("Acme"), "email" := JString("acme@x.com"), "valor" := JInt(150)];
    MapPayloadFollowsRule(data, 2);
    MapPayloadFollowsRule(data, 4);
    MapPayloadFollowsRule(data, 12);
  }
}
