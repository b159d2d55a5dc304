/**
 * The legacy customer function's own pipeline. It repeats the service pipeline step by step,
 * with its own messages, reads the environment URL from configuration, and sends the Bearer
 * token without the Prefer header.
 */
module GetCustomersFunction {
  import opened Wrappers
  import opened Exceptions
  import opened Json
  import opened Runtime
  import opened Models
  import opened DataverseUrlBuilder
  import opened Http
  import opened Auth
  import opened ServiceBase
  import opened CustomerService

  const DataverseUrlKey: string := "DATAVERSE_URL"
  const LegacyNetworkErrorMessage: string := "Network error occurred while fetching customers"
  const LegacyStatusPrefix: string := "Failed to fetch customers: "
  const LegacyInvalidJsonMessage: string := "Invalid response format from Dataverse"
  const LegacyProcessFailureMessage: string := "Failed to process customer data"

  /** The request this path sends: the Bearer token and no other header. */
  function LegacyRequest(url: string, token: string): (req: Request)
    ensures req.url == url && req.bearer == Some(token) && req.headers == []
    ensures req.headers != DataverseRequest(url, token).headers
  {
    Request(url, Some(token), [])
  }

  /** The message for a non-2xx response on this path. */
  function LegacyStatusMessage(p: Platform, status: int, reason: string): string {
    LegacyStatusPrefix + p.statusName(status) + " - " + reason
  }

  /**
   * The outcome classification of this path. It succeeds on exactly the outcomes, and with
   * exactly the body, that the service classification does; only the messages differ.
   */
  function LegacyClassify(p: Platform, outcome: Outcome): (r: Result<string, Exception>)
    ensures r.Success? <==> Classify(p, outcome).Success?
    ensures r.Success? ==> r.value == Classify(p, outcome).value
    ensures outcome.Thrown? && outcome.exception.HttpRequestException? ==>
              r == Failure(DataverseApiException(LegacyNetworkErrorMessage, Some(outcome.exception)))
    ensures outcome.Thrown? && !outcome.exception.HttpRequestException? ==> r == Classify(p, outcome)
    ensures outcome.Response? && !IsSuccessStatusCode(outcome.status) ==>
              r == Failure(DataverseApiException(LegacyStatusMessage(p, outcome.status, outcome.reason), None))
    ensures outcome.Response? && IsSuccessStatusCode(outcome.status) && outcome.body.ReadFailed? ==>
              r == Classify(p, outcome)
  {
    match outcome
    case Thrown(e) =>
      if e.HttpRequestException? then Failure(DataverseApiException(LegacyNetworkErrorMessage, Some(e)))
      else Failure(e)
    case Response(status, reason, body) =>
      if !IsSuccessStatusCode(status) then
        Failure(DataverseApiException(LegacyStatusMessage(p, status, reason), None))
      else
        match body
        case Body(text) => Success(text)
        case ReadFailed(cause) => Failure(DataverseApiException(ReadFailedMessage, Some(cause)))
  }

  /**
   * The parsing and mapping of this path: the same customers as the service parser, and on a
   * mapping failure the same cause under this path's message.
   */
  function LegacyParse(p: Platform, json: string): (r: Result<seq<Customer>, Exception>)
    ensures p.parseJson(json).None? ==>
              r == Failure(DataverseApiException(LegacyInvalidJsonMessage, Some(JsonException)))
    ensures r.Success? <==> ParseResponse(p, json, CustomerMapper(p), CustomersEntityName).Success?
    ensures r.Success? ==> r.value == ParseResponse(p, json, CustomerMapper(p), CustomersEntityName).value
    ensures r.Failure? && p.parseJson(json).Some? ==>
              r == Failure(DataverseApiException(LegacyProcessFailureMessage,
                                                 ParseResponse(p, json, CustomerMapper(p), CustomersEntityName).error.inner))
  {
    match p.parseJson(json)
    case None => Failure(DataverseApiException(LegacyInvalidJsonMessage, Some(JsonException)))
    case Some(root) =>
      var mapped := match ValueItems(root)
        case Failure(e) => Failure(e)
        case Success(items) => MapEach(items, CustomerMapper(p));
      match mapped
      case Success(list) => Success(list)
      case Failure(e) => Failure(DataverseApiException(LegacyProcessFailureMessage, Some(e)))
  }

  /** The whole path after the GET: classification, then parsing. */
  function LegacyPipeline(p: Platform, outcome: Outcome): (r: Result<seq<Customer>, Exception>)
    ensures LegacyClassify(p, outcome).Failure? ==> r == Failure(LegacyClassify(p, outcome).error)
    ensures LegacyClassify(p, outcome).Success? ==> r == LegacyParse(p, LegacyClassify(p, outcome).value)
  {
    match LegacyClassify(p, outcome)
    case Failure(e) => Failure(e)
    case Success(json) => LegacyParse(p, json)
  }

  /** On any outcome, this path and the customer service return the same customers, or both fail. */
  lemma LegacyAgreesWithService(p: Platform, outcome: Outcome)
    ensures var service := ParseFetched(p, Classify(p, outcome), CustomerMapper(p), CustomersEntityName);
            var legacy := LegacyPipeline(p, outcome);
            (legacy.Success? <==> service.Success?) && (legacy.Success? ==> legacy.value == service.value)
  {
  }

  class GetCustomers {
    const httpFactory: HttpClientFactory
    const auth: TokenSource
    /** The application settings, read by key; a missing key reads as null. */
    const config: map<string, string>
    const platform: Platform

    constructor (httpFactory: HttpClientFactory, auth: TokenSource, config: map<string, string>, platform: Platform)
      ensures this.httpFactory == httpFactory && this.auth == auth
      ensures this.config == config && this.platform == platform
    {
      this.httpFactory := httpFactory;
      this.auth := auth;
      this.config := config;
      this.platform := platform;
    }

    /** The environment URL as the URL builder receives it: a null setting interpolates as "". */
    function BaseUrl(): (baseUrl: string)
      reads this
      ensures DataverseUrlKey in config ==> baseUrl == config[DataverseUrlKey]
      ensures DataverseUrlKey !in config ==> baseUrl == ""
    {
      if DataverseUrlKey in config then config[DataverseUrlKey] else ""
    }

    /**
     * GetCustomersAsync: one token, one new client with only the Bearer token set, one GET to the
     * customers URL built from the setting, then the classification and parsing of this path.
     */
    method GetCustomersAsync() returns (r: Result<seq<Customer>, Exception>)
      modifies auth, httpFactory, httpFactory.network
      ensures auth.calls == old(auth.calls) + 1
      ensures match auth.answer(old(auth.calls))
        case Failure(e) =>
          r == Failure(e) && httpFactory.created == old(httpFactory.created)
          && httpFactory.network.sent == old(httpFactory.network.sent)
        case Success(token) =>
          var request := LegacyRequest(BuildCustomersUrl(BaseUrl()), token);
          httpFactory.created == old(httpFactory.created) + 1
          && httpFactory.network.sent == old(httpFactory.network.sent) + [request]
          && r == LegacyPipeline(platform, httpFactory.network.server(|old(httpFactory.network.sent)|, request))
    {
      var token := auth.GetToken();
      if token.Failure? {
        return Failure(token.error);
      }
      var client := httpFactory.CreateClient();
      client.SetBearer(token.value);
      var url := BuildCustomersUrl(BaseUrl());
      assert httpFactory.network.sent == old(httpFactory.network.sent);
      var outcome := client.Get(url);
      var json := "";
      match outcome {
        case Thrown(e) =>
          if e.HttpRequestException? {
            return Failure(DataverseApiException(LegacyNetworkErrorMessage, Some(e)));
          }
          return Failure(e);
        case Response(status, reason, body) =>
          if !IsSuccessStatusCode(status) {
            return Failure(DataverseApiException(LegacyStatusMessage(platform, status, reason), None));
          }
          match body {
            case ReadFailed(cause) =>
              return Failure(DataverseApiException(ReadFailedMessage, Some(cause)));
            case Body(text) =>
              json := text;
          }
      }
      match platform.parseJson(json) {
        case None =>
          return Failure(DataverseApiException(LegacyInvalidJsonMessage, Some(JsonException)));
        case Some(root) =>
          var mapped := match ValueItems(root)
            case Failure(e) => Failure(e)
            case Success(items) => MapEach(items, CustomerMapper(platform));
          if mapped.Failure? {
            return Failure(DataverseApiException(LegacyProcessFailureMessage, Some(mapped.error)));
          }
          r := Success(mapped.value);
      }
    }
  }
}
