/**
 * DataverseServiceBase: one authenticated GET per call, the classification of its outcome into
 * a body or a DataverseApiException, the all-or-nothing mapping of the OData collection
 * envelope `{"value": [...]}`, and the two lenient field accessors the invoice mapper uses.
 */
module ServiceBase {
  import opened Wrappers
  import opened Exceptions
  import opened Json
  import opened Guids
  import opened Text
  import opened Runtime
  import opened JsonAccess
  import opened Http
  import opened Auth
  import opened Options

  const NetworkErrorMessage: string := "Network error occurred while communicating with Dataverse"
  const RequestFailedPrefix: string := "Dataverse API request failed: "
  const ReadFailedMessage: string := "Failed to read API response"
  const InvalidJsonMessage: string := "Invalid JSON response from Dataverse"

  /** The header asking Dataverse to annotate lookups with their display names. */
  const PreferHeaderName: string := "Prefer"
  const PreferHeaderValue: string := "odata.include-annotations=OData.Community.Display.V1.FormattedValue"

  /** The message for a non-2xx response: the status code's name, then the reason phrase. */
  function StatusFailureMessage(p: Platform, status: int, reason: string): string {
    RequestFailedPrefix + p.statusName(status) + " - " + reason
  }

  /** The message for a response whose body could not be mapped. */
  function ProcessFailureMessage(entityName: string): string {
    "Failed to process " + entityName + " data"
  }

  /** The request the executor sends: the Bearer token and the Prefer header, nothing else. */
  function DataverseRequest(url: string, token: string): (req: Request)
    ensures req.url == url && req.bearer == Some(token)
    ensures req.headers == [Header(PreferHeaderName, PreferHeaderValue)]
  {
    Request(url, Some(token), [Header(PreferHeaderName, PreferHeaderValue)])
  }

  /**
   * What ExecuteDataverseRequestAsync makes of the GET's outcome. Only a transport failure that is
   * an HttpRequestException is wrapped; any other exception from GetAsync (a timeout's
   * TaskCanceledException) propagates as it is.
   */
  function Classify(p: Platform, outcome: Outcome): (r: Result<string, Exception>)
    // The body comes back, unchanged, exactly when the status is 2xx and the body could be read.
    ensures r.Success? <==> outcome.Response? && IsSuccessStatusCode(outcome.status) && outcome.body.Body?
    ensures r.Success? ==> r.value == outcome.body.text
    // A transport failure is wrapped with the cause as inner exception; no status is looked at.
    ensures outcome.Thrown? && outcome.exception.HttpRequestException? ==>
              r == Failure(DataverseApiException(NetworkErrorMessage, Some(outcome.exception)))
    ensures outcome.Thrown? && !outcome.exception.HttpRequestException? ==> r == Failure(outcome.exception)
    // A non-2xx status names that status and its reason, and wraps nothing.
    ensures outcome.Response? && !IsSuccessStatusCode(outcome.status) ==>
              r == Failure(DataverseApiException(StatusFailureMessage(p, outcome.status, outcome.reason), None))
    ensures outcome.Response? && IsSuccessStatusCode(outcome.status) && outcome.body.ReadFailed? ==>
              r == Failure(DataverseApiException(ReadFailedMessage, Some(outcome.body.cause)))
  {
    match outcome
    case Thrown(e) =>
      if e.HttpRequestException? then Failure(DataverseApiException(NetworkErrorMessage, Some(e))) else Failure(e)
    case Response(status, reason, body) =>
      if !IsSuccessStatusCode(status) then
        Failure(DataverseApiException(StatusFailureMessage(p, status, reason), None))
      else
        match body
        case Body(text) => Success(text)
        case ReadFailed(cause) => Failure(DataverseApiException(ReadFailedMessage, Some(cause)))
  }

  /** `root.GetProperty("value").EnumerateArray()`: the elements of the collection envelope. */
  function ValueItems(root: Json): (r: Result<seq<Json>, Exception>)
    ensures r.Success? <==> root.JObj? && "value" in root.members && root.members["value"].JArr?
    ensures r.Success? ==> r.value == root.members["value"].items
    ensures root.JObj? && "value" !in root.members ==> r == Failure(KeyNotFoundException("value"))
  {
    match GetProperty(root, "value")
    case Failure(e) => Failure(e)
    case Success(v) => if v.JArr? then Success(v.items) else Failure(InvalidOperationException)
  }

  /** Element k is where mapping stops: it fails and every element before it maps. */
  predicate FirstFailure<T>(items: seq<Json>, mapper: Json -> Result<T, Exception>, k: int) {
    0 <= k < |items| && mapper(items[k]).Failure?
    && forall j :: 0 <= j < k ==> mapper(items[j]).Success?
  }

  /** `.Select(mapper).ToList()`: every element mapped in order; the first exception ends the list. */
  function MapEach<T>(items: seq<Json>, mapper: Json -> Result<T, Exception>): (r: Result<seq<T>, Exception>)
    ensures r.Success? <==> forall i :: 0 <= i < |items| ==> mapper(items[i]).Success?
    ensures r.Success? ==> |r.value| == |items|
    ensures r.Success? ==> forall i :: 0 <= i < |items| ==> r.value[i] == mapper(items[i]).value
    ensures r.Failure? ==> exists k :: FirstFailure(items, mapper, k) && r.error == mapper(items[k]).error
  {
    if items == [] then Success([])
    else
      match mapper(items[0])
      case Failure(e) =>
        assert FirstFailure(items, mapper, 0);
        Failure(e)
      case Success(x) =>
        match MapEach(items[1..], mapper)
        case Failure(e) =>
          var k :| FirstFailure(items[1..], mapper, k) && e == mapper(items[1..][k]).error;
          assert FirstFailure(items, mapper, k + 1);
          Failure(e)
        case Success(rest) =>
          assert forall i :: 1 <= i < |items| ==> items[i] == items[1..][i - 1];
          Success([x] + rest)
  }

  /**
   * ParseDataverseResponse: the mapped elements of the root's `value` array, all or nothing.
   * A body that is not JSON, and every failure after parsing, become one DataverseApiException.
   */
  function ParseResponse<T>(p: Platform, json: string, mapper: Json -> Result<T, Exception>, entityName: string)
    : (r: Result<seq<T>, Exception>)
    ensures p.parseJson(json).None? ==> r == Failure(DataverseApiException(InvalidJsonMessage, Some(JsonException)))
    ensures r.Success? <==>
              p.parseJson(json).Some? && ValueItems(p.parseJson(json).value).Success?
              && forall i :: 0 <= i < |ValueItems(p.parseJson(json).value).value| ==>
                   mapper(ValueItems(p.parseJson(json).value).value[i]).Success?
    ensures r.Success? ==>
              var items := ValueItems(p.parseJson(json).value).value;
              |r.value| == |items| && forall i :: 0 <= i < |items| ==> r.value[i] == mapper(items[i]).value
    ensures r.Failure? && p.parseJson(json).Some? ==>
              r.error.DataverseApiException? && r.error.message == ProcessFailureMessage(entityName)
              && r.error.inner.Some?
    // The inner exception is the envelope accessor's, or else the first failing element's.
    ensures r.Failure? && p.parseJson(json).Some? && !ValueItems(p.parseJson(json).value).Success? ==>
              r.error.inner == Some(ValueItems(p.parseJson(json).value).error)
    ensures r.Failure? && p.parseJson(json).Some? && ValueItems(p.parseJson(json).value).Success? ==>
              var items := ValueItems(p.parseJson(json).value).value;
              exists k :: FirstFailure(items, mapper, k) && r.error.inner == Some(mapper(items[k]).error)
  {
    match p.parseJson(json)
    case None => Failure(DataverseApiException(InvalidJsonMessage, Some(JsonException)))
    case Some(root) =>
      var mapped := match ValueItems(root)
        case Failure(e) => Failure(e)
        case Success(items) => MapEach(items, mapper);
      match mapped
      case Success(list) => Success(list)
      case Failure(e) => Failure(DataverseApiException(ProcessFailureMessage(entityName), Some(e)))
  }

  /** An empty collection maps to the empty list, for every mapper. */
  lemma EmptyCollectionGivesEmptyList<T>(p: Platform, json: string, mapper: Json -> Result<T, Exception>, entityName: string)
    requires p.parseJson(json) == Some(JObj(map["value" := JArr([])]))
    ensures ParseResponse(p, json, mapper, entityName) == Success([])
  {
  }

  /** A root without a `value` array fails as a mapping failure, with the accessor's exception inside. */
  lemma MissingValueArrayFails<T>(p: Platform, json: string, mapper: Json -> Result<T, Exception>, entityName: string)
    requires p.parseJson(json).Some? && !ValueItems(p.parseJson(json).value).Success?
    ensures ParseResponse(p, json, mapper, entityName)
            == Failure(DataverseApiException(ProcessFailureMessage(entityName),
                                             Some(ValueItems(p.parseJson(json).value).error)))
    ensures p.parseJson(json).value.JObj? && "value" !in p.parseJson(json).value.members ==>
              ParseResponse(p, json, mapper, entityName)
              == Failure(DataverseApiException(ProcessFailureMessage(entityName), Some(KeyNotFoundException("value"))))
  {
  }

  /** The fetch methods' last step: a failed request passes through, a body is parsed. */
  function ParseFetched<T>(p: Platform, fetched: Result<string, Exception>, mapper: Json -> Result<T, Exception>,
                           entityName: string): (r: Result<seq<T>, Exception>)
    ensures fetched.Failure? ==> r == Failure(fetched.error)
    ensures fetched.Success? ==> r == ParseResponse(p, fetched.value, mapper, entityName)
  {
    match fetched
    case Failure(e) => Failure(e)
    case Success(json) => ParseResponse(p, json, mapper, entityName)
  }

  /**
   * GetStringValue: "" for a missing property or a null, the content of a string, the Int32 text
   * of a number, and the element's ToString for the other kinds. TryGetProperty itself throws
   * when the element is not an object, and GetInt32 throws for a number outside Int32.
   */
  function GetStringValue(p: Platform, element: Json, name: string): (r: Result<string, Exception>)
    ensures r.Success? <==>
              element.JObj? && (name in element.members && element.members[name].JNum? ==>
                                element.members[name].n.int32.Some?)
    ensures r.Failure? ==> r.error == (if element.JObj? then FormatException else InvalidOperationException)
    ensures element.JObj? && name !in element.members ==> r == Success("")
    ensures element.JObj? && name in element.members ==>
              match element.members[name]
              case JStr(s) => r == Success(s)
              case JNull => r == Success("")
              case JBool(b) => r == Success(if b then "True" else "False")
              case JNum(n) => n.int32.Some? ==> r == Success(IntText(n.int32.value)) && ReadIntText(r.value) == Some(n.int32.value)
              case _ => r == Success(p.rawText(element.members[name]))
  {
    if !element.JObj? then Failure(InvalidOperationException)
    else if name !in element.members then Success("")
    else
      match element.members[name]
      case JStr(s) => Success(s)
      case JNum(n) =>
        if n.int32.Some? then
          IntTextRoundTrip(n.int32.value);
          Success(IntText(n.int32.value))
        else Failure(FormatException)
      case JNull => Success("")
      case JBool(b) => Success(if b then "True" else "False")
      case other => Success(p.rawText(other))
  }

  /**
   * GetGuidValue: the GUID a string property parses to, and Guid.Empty for anything else.
   * It fails only where TryGetProperty does, on an element that is not an object.
   */
  function GetGuidValue(p: Platform, element: Json, name: string): (r: Result<Guid, Exception>)
    ensures r.Success? <==> element.JObj?
    ensures r.Failure? ==> r.error == InvalidOperationException
    ensures r.Success? && name in element.members && element.members[name].JStr?
              && p.parseGuid(element.members[name].s).Some? ==>
              r.value == p.parseGuid(element.members[name].s).value
    ensures r.Success? && !(name in element.members && element.members[name].JStr?
                            && p.parseGuid(element.members[name].s).Some?) ==>
              r.value == Empty
  {
    if !element.JObj? then Failure(InvalidOperationException)
    else if name !in element.members then Success(Empty)
    else
      match element.members[name]
      case JStr(s) => Success(if p.parseGuid(s).Some? then p.parseGuid(s).value else Empty)
      case _ => Success(Empty)
  }

  /** A property holding the canonical text of a GUID reads back as that GUID. */
  lemma GetGuidValueReadsGuidText(p: Platform, element: Json, name: string, g: Guid)
    requires AcceptsCanonicalGuids(p)
    requires element.JObj? && name in element.members && element.members[name] == JStr(GuidText(g))
    ensures GetGuidValue(p, element, name) == Success(g)
  {
    assert p.parseGuid(GuidText(g)) == Some(g);
  }

  /** Where the strict reading of a GUID succeeds, the lenient one gives the same GUID. */
  lemma GuidLenientAgreesWithStrict(p: Platform, element: Json, name: string)
    requires PropertyGuid(p, element, name).Success?
    ensures GetGuidValue(p, element, name) == PropertyGuid(p, element, name)
  {
  }

  /** Where the strict reading of a string succeeds, the lenient one gives it too, with null as "". */
  lemma StringLenientAgreesWithStrict(p: Platform, element: Json, name: string)
    requires GetProperty(element, name).Success? && GetString(GetProperty(element, name).value).Success?
    ensures var text := GetString(GetProperty(element, name).value).value;
            GetStringValue(p, element, name) == Success(if text.Some? then text.value else "")
  {
  }

  /** The state shared by the entity services: the client factory, the token source, the options. */
  class DataverseServiceBase {
    const httpFactory: HttpClientFactory
    const authService: TokenSource
    const options: DataverseOptions
    const platform: Platform

    constructor (httpFactory: HttpClientFactory, authService: TokenSource, options: DataverseOptions, platform: Platform)
      ensures this.httpFactory == httpFactory && this.authService == authService
      ensures this.options == options && this.platform == platform
    {
      this.httpFactory := httpFactory;
      this.authService := authService;
      this.options := options;
      this.platform := platform;
    }

    /**
     * ExecuteDataverseRequestAsync: one token, then one new client carrying that token and the
     * Prefer header, then one GET whose outcome is classified. A failing token source sends nothing.
     */
    method ExecuteRequest(url: string) returns (r: Result<string, Exception>)
      modifies authService, httpFactory, httpFactory.network
      ensures authService.calls == old(authService.calls) + 1
      ensures match authService.answer(old(authService.calls))
        case Failure(e) =>
          r == Failure(e) && httpFactory.created == old(httpFactory.created)
          && httpFactory.network.sent == old(httpFactory.network.sent)
        case Success(token) =>
          httpFactory.created == old(httpFactory.created) + 1
          && httpFactory.network.sent == old(httpFactory.network.sent) + [DataverseRequest(url, token)]
          && r == Classify(platform, httpFactory.network.server(|old(httpFactory.network.sent)|, DataverseRequest(url, token)))
    {
      var token := authService.GetToken();
      if token.Failure? {
        return Failure(token.error);
      }
      var client := httpFactory.CreateClient();
      client.SetBearer(token.value);
      client.AddDefaultHeader(PreferHeaderName, PreferHeaderValue);
      assert client.defaultHeaders == [Header(PreferHeaderName, PreferHeaderValue)];
      assert httpFactory.network.sent == old(httpFactory.network.sent);
      var outcome := client.Get(url);
      match outcome {
        case Thrown(e) =>
          if e.HttpRequestException? {
            r := Failure(DataverseApiException(NetworkErrorMessage, Some(e)));
          } else {
            r := Failure(e);
          }
        case Response(status, reason, body) =>
          if !IsSuccessStatusCode(status) {
            r := Failure(DataverseApiException(StatusFailureMessage(platform, status, reason), None));
          } else {
            match body {
              case Body(text) => r := Success(text);
              case ReadFailed(cause) => r := Failure(DataverseApiException(ReadFailedMessage, Some(cause)));
            }
          }
      }
    }
  }
}
