/**
 * The HTTP side as the access layer sees it: a client whose default headers are set before
 * one GET, a factory that hands out new clients, and a network that records every request
 * and answers it. What the network answers is a parameter, so nothing here performs I/O.
 */
module Http {
  import opened Wrappers
  import opened Exceptions

  datatype Header = Header(name: string, value: string)

  /** A GET as it leaves the client: its URL, the Bearer credential, and the other default headers. */
  datatype Request = Request(url: string, bearer: Option<string>, headers: seq<Header>)

  /** What ReadAsStringAsync gives: the body text, or the exception it throws. */
  datatype BodyRead = Body(text: string) | ReadFailed(cause: Exception)

  /** What GetAsync gives: an exception, or a response with its status code, reason phrase and body. */
  datatype Outcome =
    | Thrown(exception: Exception)
    | Response(status: int, reason: string, body: BodyRead)

  /** HttpResponseMessage.IsSuccessStatusCode: the 2xx (Successful) class of status codes. */
  predicate IsSuccessStatusCode(status: int) {
    200 <= status <= 299
  }

  /** The remote side: every request sent so far, and the answer to the n-th request. */
  class Network {
    var sent: seq<Request>
    const server: (nat, Request) -> Outcome

    constructor (server: (nat, Request) -> Outcome)
      ensures sent == [] && this.server == server
    {
      sent := [];
      this.server := server;
    }
  }

  /** System.Net.Http.HttpClient with its DefaultRequestHeaders. */
  class HttpClient {
    var bearer: Option<string>
    var defaultHeaders: seq<Header>
    const network: Network

    constructor (network: Network)
      ensures bearer == None && defaultHeaders == [] && this.network == network
    {
      bearer := None;
      defaultHeaders := [];
      this.network := network;
    }

    /** DefaultRequestHeaders.Authorization = new AuthenticationHeaderValue("Bearer", token). */
    method SetBearer(token: string)
      modifies this`bearer
      ensures bearer == Some(token)
    {
      bearer := Some(token);
    }

    /** DefaultRequestHeaders.Add(name, value). */
    method AddDefaultHeader(name: string, value: string)
      modifies this`defaultHeaders
      ensures defaultHeaders == old(defaultHeaders) + [Header(name, value)]
    {
      defaultHeaders := defaultHeaders + [Header(name, value)];
    }

    /** GetAsync(url): one request, carrying the current default headers, and the network's answer to it. */
    method Get(url: string) returns (outcome: Outcome)
      modifies network
      ensures network.sent == old(network.sent) + [Request(url, bearer, defaultHeaders)]
      ensures outcome == network.server(|old(network.sent)|, Request(url, bearer, defaultHeaders))
    {
      var request := Request(url, bearer, defaultHeaders);
      outcome := network.server(|network.sent|, request);
      network.sent := network.sent + [request];
    }
  }

  /** IHttpClientFactory: every CreateClient returns a new client with no default headers. */
  class HttpClientFactory {
    var created: nat
    const network: Network

    constructor (network: Network)
      ensures created == 0 && this.network == network
    {
      created := 0;
      this.network := network;
    }

    method CreateClient() returns (client: HttpClient)
      modifies this`created
      ensures fresh(client)
      ensures client.network == network && client.bearer == None && client.defaultHeaders == []
      ensures created == old(created) + 1
    {
      client := new HttpClient(network);
      created := created + 1;
    }
  }
}
