/**
 * The request primitive: the endpoint presets of `AsyncClient`, the URL a
 * session requests, and the status rule of `Session._request`. The network
 * itself is a parameter: a server maps each request to its reply.
 */
module Transport {
  import opened Wrappers
  import opened JsonValues
  import opened Marshal

  const SandboxUrl: string := "https://sandbox.tradier.com/v1/"
  const BrokerageUrl: string := "https://api.tradier.com/v1/"
  const EndpointMessage: string := "Endpoint must be either 'sandbox' or 'brokerage'"

  /** What `AsyncClient` keeps: the API token and the base URL of the chosen deployment. */
  datatype Client = Client(token: string, endpoint: string)

  /**
   * `AsyncClient(token, endpoint)`: the preset names `sandbox` and
   * `brokerage` select their fixed base URLs; any other name raises
   * `ValueError`.
   */
  function NewClient(token: string, preset: string): (r: Result<Client>)
    ensures r.Ok? <==> preset == "sandbox" || preset == "brokerage"
    ensures r.Err? ==> r.error == ValueError(EndpointMessage)
    ensures r.Ok? ==> r.value.token == token
    ensures r.Ok? ==> (r.value.endpoint == SandboxUrl <==> preset == "sandbox")
    ensures r.Ok? ==> (r.value.endpoint == BrokerageUrl <==> preset == "brokerage")
  {
    if preset == "sandbox" then Ok(Client(token, SandboxUrl))
    else if preset == "brokerage" then Ok(Client(token, BrokerageUrl))
    else Err(ValueError(EndpointMessage))
  }

  /** Both presets are HTTPS base URLs of API version 1, ending in `/`, and they differ. */
  lemma PresetUrls()
    ensures SandboxUrl != BrokerageUrl
    ensures SandboxUrl[..8] == "https://" && SandboxUrl[|SandboxUrl| - 4..] == "/v1/"
    ensures BrokerageUrl[..8] == "https://" && BrokerageUrl[|BrokerageUrl| - 4..] == "/v1/"
  {
    assert SandboxUrl[8] != BrokerageUrl[8];
  }

  datatype HttpRequest = HttpRequest(verb: string, url: string, params: seq<QueryEntry>)

  /** A reply: status, reason phrase, raw body text and the body decoded as JSON. */
  datatype Reply = Reply(status: int, reason: string, text: string, body: Json)

  /** The request `Session._request('GET', path, params)` issues: the URL is endpoint + path. */
  function RequestTo(endpoint: string, path: string, params: seq<QueryEntry>): (r: HttpRequest)
    ensures r.verb == "GET" && r.params == params
    ensures |r.url| == |endpoint| + |path| && r.url[..|endpoint|] == endpoint && r.url[|endpoint|..] == path
  {
    HttpRequest("GET", endpoint + path, params)
  }

  predicate IsSuccess(status: int) {
    200 <= status < 300
  }

  /**
   * The status rule of `_request`: a 2xx reply gives its decoded body; any
   * other raises `HttpError` with the status, the reason and the body text.
   */
  function CheckStatus(reply: Reply): (r: Result<Json>)
    ensures r.Ok? <==> IsSuccess(reply.status)
    ensures r.Ok? ==> r.value == reply.body
    ensures r.Err? ==> r.error == HttpError(reply.status, reply.reason, reply.text)
  {
    if IsSuccess(reply.status) then Ok(reply.body)
    else Err(HttpError(reply.status, reply.reason, reply.text))
  }

  /** `_request(...)` against `server`. */
  function Fetch(endpoint: string, path: string, params: seq<QueryEntry>, server: HttpRequest -> Reply): (r: Result<Json>)
    ensures var reply := server(RequestTo(endpoint, path, params));
      && (r.Ok? <==> IsSuccess(reply.status))
      && (r.Ok? ==> r.value == reply.body)
      && (r.Err? ==> r.error == HttpError(reply.status, reply.reason, reply.text))
  {
    CheckStatus(server(RequestTo(endpoint, path, params)))
  }

  /**
   * What an endpoint method returns for `reply`: its decoder's outcome on
   * the body when the status is 2xx, and otherwise the `HttpError`, with no
   * decoding at all.
   */
  predicate Answers<T(==)>(r: Result<T>, reply: Reply, decoded: Result<T>) {
    if IsSuccess(reply.status) then r == decoded
    else r == Err(HttpError(reply.status, reply.reason, reply.text))
  }
}
