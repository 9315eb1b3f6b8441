/** The frontend's HTTP client (`kaspatrack-frontend/src/services/api.ts`):
    the base URL, the endpoint strings, and the mapping from what `fetch`
    did to the `{success, data?, error?}` envelope every call returns. */
module Api {
  import opened Wrappers
  import Decimal

  /** `PortfolioData` as the frontend receives it; `kaspaHoldings` is `None`
      when the JSON body has no `kaspa_holdings` member. */
  datatype PortfolioData = PortfolioData(address: string, kaspaHoldings: Option<int>)

  /** `ApiResponse<T>`: `data` and `error` are the optional members. */
  datatype ApiResponse<T> = ApiResponse(success: bool, data: Option<T>, error: Option<string>)

  /** A value thrown in JavaScript: an `Error` (with its message) or anything else. */
  datatype Thrown = ErrorObject(message: string) | NonError

  /** What `response.json()` produced: a value (`None` for JSON `null`) or an exception. */
  datatype Body<T> = Parsed(value: Option<T>) | Unparsable(exception: Thrown)

  /** What `fetch(url)` did: rejected with an exception, or produced a response
      with its `ok` flag, its status and its body. */
  datatype FetchOutcome<T> =
    | Rejected(exception: Thrown)
    | Response(ok: bool, status: nat, body: Body<T>)

  const DefaultBaseUrl := "http://localhost:8080"
  const UnknownError := "Unknown error"
  const HttpErrorPrefix := "HTTP error! status: "

  /** `process.env.REACT_APP_API_URL || 'http://localhost:8080'`. */
  function BaseUrl(apiUrlEnv: Option<string>): (url: string)
    ensures url != ""
    ensures apiUrlEnv.Some? && apiUrlEnv.value != "" ==> url == apiUrlEnv.value
    ensures apiUrlEnv.None? || apiUrlEnv.value == "" ==> url == DefaultBaseUrl
  {
    if apiUrlEnv.Some? && apiUrlEnv.value != "" then apiUrlEnv.value else DefaultBaseUrl
  }

  /** The message of the `Error` thrown for a non-OK response. */
  function HttpErrorMessage(status: nat): (m: string)
    ensures |m| > |HttpErrorPrefix| && m[..|HttpErrorPrefix|] == HttpErrorPrefix
    ensures Decimal.AllDigits(m[|HttpErrorPrefix|..])
  {
    var digits := Decimal.FromNat(status);
    assert (HttpErrorPrefix + digits)[|HttpErrorPrefix|..] == digits;
    HttpErrorPrefix + digits
  }

  /** The status is recoverable from the message: distinct statuses give
      distinct messages. */
  lemma HttpErrorMessageStatus(status: nat)
    ensures Decimal.Value(HttpErrorMessage(status)[|HttpErrorPrefix|..]) == status
  {
    var digits := Decimal.FromNat(status);
    assert HttpErrorMessage(status)[|HttpErrorPrefix|..] == digits;
    Decimal.ValueOfFromNat(status);
  }

  /** The exception that reaches the `catch` of `request`, if any: the one
      `fetch` rejected with, the `Error` thrown for a non-OK status, or the
      one `response.json()` threw. */
  function ThrownBy<T>(outcome: FetchOutcome<T>): (t: Option<Thrown>)
    ensures t.None? <==> outcome.Response? && outcome.ok && outcome.body.Parsed?
    ensures outcome.Rejected? ==> t == Some(outcome.exception)
    ensures outcome.Response? && !outcome.ok ==> t == Some(ErrorObject(HttpErrorMessage(outcome.status)))
    ensures outcome.Response? && outcome.ok && outcome.body.Unparsable? ==> t == Some(outcome.body.exception)
  {
    match outcome
    case Rejected(e) => Some(e)
    case Response(ok, status, body) =>
      if !ok then Some(ErrorObject(HttpErrorMessage(status)))
      else if body.Unparsable? then Some(body.exception)
      else None
  }

  /** The text the `catch` puts in `error`. */
  function MessageOf(e: Thrown): string {
    match e
    case ErrorObject(m) => m
    case NonError => UnknownError
  }

  /** The body of `request` after `fetch` has produced `outcome`. */
  function Envelope<T>(outcome: FetchOutcome<T>): (r: ApiResponse<T>)
    ensures r.success <==> ThrownBy(outcome).None?
    ensures r.success ==> r.error.None? && r.data == outcome.body.value
    ensures !r.success ==> r.data.None? && r.error == Some(MessageOf(ThrownBy(outcome).value))
  {
    match outcome
    case Rejected(e) => ApiResponse(false, None, Some(MessageOf(e)))
    case Response(ok, status, body) =>
      if !ok then ApiResponse(false, None, Some(HttpErrorMessage(status)))
      else match body
        case Parsed(data) => ApiResponse(true, data, None)
        case Unparsable(e) => ApiResponse(false, None, Some(MessageOf(e)))
  }

  /** The envelope for each kind of outcome, as the `try`/`catch` produces it. */
  lemma EnvelopeCases<T>(outcome: FetchOutcome<T>)
    ensures outcome.Response? && outcome.ok && outcome.body.Parsed? ==>
      Envelope(outcome) == ApiResponse(true, outcome.body.value, None)
    ensures outcome.Response? && !outcome.ok ==>
      Envelope(outcome) == ApiResponse(false, None, Some(HttpErrorPrefix + Decimal.FromNat(outcome.status)))
    ensures ThrownBy(outcome) == Some(NonError) ==>
      Envelope(outcome) == ApiResponse(false, None, Some(UnknownError))
    ensures outcome.Rejected? && outcome.exception.ErrorObject? ==>
      Envelope(outcome) == ApiResponse(false, None, Some(outcome.exception.message))
  {
  }

  /** A non-OK response never reads the body: the envelope depends on the status only. */
  lemma NonOkIgnoresBody<T>(status: nat, b1: Body<T>, b2: Body<T>)
    ensures Envelope(Response(false, status, b1)) == Envelope(Response(false, status, b2))
  {
  }

  /** `getPortfolio`'s endpoint. */
  function PortfolioEndpoint(address: string): (e: string)
    ensures |e| == 11 + |address| && e[..11] == "/portfolio/" && e[11..] == address
  {
    "/portfolio/" + address
  }

  /** `getPortfolioUpdates`'s endpoint. */
  function PortfolioUpdatesEndpoint(address: string): (e: string)
    ensures e == PortfolioEndpoint(address) + "/updates"
  {
    "/portfolio/" + address + "/updates"
  }

  /** `getTransactions`'s endpoint. */
  function TransactionsEndpoint(address: string): (e: string)
    ensures |e| == 14 + |address| && e[..14] == "/transactions/" && e[14..] == address
  {
    "/transactions/" + address
  }

  /** The address a portfolio endpoint names, recovered by removing the prefix. */
  function PortfolioEndpointAddress(endpoint: string): (a: Option<string>)
    ensures a.Some? ==> PortfolioEndpoint(a.value) == endpoint
  {
    var prefix := "/portfolio/";
    if |prefix| <= |endpoint| && endpoint[..|prefix|] == prefix then Some(endpoint[|prefix|..]) else None
  }

  /** Building and then reading a portfolio endpoint gives back the address, so
      distinct addresses reach distinct endpoints. */
  lemma PortfolioEndpointRoundTrip(address: string)
    ensures PortfolioEndpointAddress(PortfolioEndpoint(address)) == Some(address)
  {
    assert PortfolioEndpoint(address)[..|"/portfolio/"|] == "/portfolio/";
  }

  /** Transaction endpoints and portfolio endpoints never coincide. */
  lemma TransactionsNotPortfolio(a: string, b: string)
    ensures TransactionsEndpoint(a) != PortfolioEndpoint(b)
    ensures TransactionsEndpoint(a) != PortfolioUpdatesEndpoint(b)
  {
    assert TransactionsEndpoint(a)[1] == 't';
    assert PortfolioEndpoint(b)[1] == 'p';
    assert PortfolioUpdatesEndpoint(b)[1] == 'p';
  }

  /** The address is inserted without escaping, so the updates endpoint of `a`
      is the portfolio endpoint of `a + "/updates"`. */
  lemma UpdatesEndpointIsPortfolioEndpoint(address: string)
    ensures PortfolioUpdatesEndpoint(address) == PortfolioEndpoint(address + "/updates")
  {
  }

  /** `ApiService`: the base URL is fixed when the service is constructed. */
  class ApiService {
    const baseUrl: string

    constructor (apiUrlEnv: Option<string>)
      ensures baseUrl == BaseUrl(apiUrlEnv)
    {
      baseUrl := BaseUrl(apiUrlEnv);
    }

    /** The URL `request` fetches: the base URL and the endpoint, concatenated. */
    function Url(endpoint: string): (url: string)
      ensures |url| == |baseUrl| + |endpoint|
      ensures url[..|baseUrl|] == baseUrl && url[|baseUrl|..] == endpoint
    {
      baseUrl + endpoint
    }

    /** `request(endpoint)`: `fetch` is the browser's, given as a parameter. */
    function Request<T>(endpoint: string, fetch: string -> FetchOutcome<T>): (r: ApiResponse<T>)
      ensures r == Envelope(fetch(baseUrl + endpoint))
    {
      Envelope(fetch(Url(endpoint)))
    }

    function GetPortfolio(address: string, fetch: string -> FetchOutcome<PortfolioData>): (r: ApiResponse<PortfolioData>)
      ensures r == Envelope(fetch(baseUrl + "/portfolio/" + address))
    {
      assert baseUrl + PortfolioEndpoint(address) == baseUrl + "/portfolio/" + address;
      Request(PortfolioEndpoint(address), fetch)
    }

    function GetPortfolioUpdates(address: string, fetch: string -> FetchOutcome<PortfolioData>): (r: ApiResponse<PortfolioData>)
      ensures r == Envelope(fetch(baseUrl + "/portfolio/" + address + "/updates"))
    {
      assert baseUrl + PortfolioUpdatesEndpoint(address) == baseUrl + "/portfolio/" + address + "/updates";
      Request(PortfolioUpdatesEndpoint(address), fetch)
    }

    function GetTransactions<Tx>(address: string, fetch: string -> FetchOutcome<seq<Tx>>): (r: ApiResponse<seq<Tx>>)
      ensures r == Envelope(fetch(baseUrl + "/transactions/" + address))
    {
      assert baseUrl + TransactionsEndpoint(address) == baseUrl + "/transactions/" + address;
      Request(TransactionsEndpoint(address), fetch)
    }
  }
}
