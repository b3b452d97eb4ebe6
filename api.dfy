/** The HTTP client's cross-cutting rules: turning a rejected request into a
    message, attaching the bearer credential to every request, and clearing
    the stored session when the server answers 401. */
module Api {
  import opened Wrappers
  import opened Text
  import Storage

  /** The JSON body of an error response, as far as the client reads it. */
  datatype ErrorBody = ErrorBody(error: Option<string>, message: Option<string>)

  /** The response attached to a rejected request, when the server answered. */
  datatype HttpResponse = HttpResponse(status: int, data: Option<ErrorBody>)

  /** A value a rejected promise can carry. */
  datatype Failure =
    | AxiosError(response: Option<HttpResponse>, message: string)  // raised by the HTTP client
    | PlainError(message: string)                                  // any other `Error`
    | NonError                                                     // a thrown value that is not an `Error`

  const ConnectFallback: string := "Erro ao conectar com o servidor"
  const UnknownFallback: string := "Erro desconhecido"

  /** `error.response?.data`. */
  function ResponseData(e: Failure): Option<ErrorBody> {
    if e.AxiosError? && e.response.Some? then e.response.value.data else None
  }

  /** `error.response?.data?.error`. */
  function DataError(e: Failure): Option<string> {
    match ResponseData(e)
    case Some(b) => b.error
    case None => None
  }

  /** `error.response?.data?.message`. */
  function DataMessage(e: Failure): Option<string> {
    match ResponseData(e)
    case Some(b) => b.message
    case None => None
  }

  /** The first truthy candidate, or `fallback` when none is: the chain `c0 || c1 || ... || fallback`. */
  function FirstTruthy(cands: seq<Option<string>>, fallback: string): string {
    if cands == [] then fallback else OrElse(cands[0], FirstTruthy(cands[1..], fallback))
  }

  /** The chain picks the first truthy candidate in list order, and the fallback only when none is truthy. */
  lemma {:induction false} FirstTruthyIsFirst(cands: seq<Option<string>>, fallback: string)
    ensures (forall k :: 0 <= k < |cands| ==> !Truthy(cands[k])) ==> FirstTruthy(cands, fallback) == fallback
    ensures forall k :: 0 <= k < |cands| && Truthy(cands[k]) && (forall j :: 0 <= j < k ==> !Truthy(cands[j])) ==>
                FirstTruthy(cands, fallback) == cands[k].value
  {
    if cands != [] {
      FirstTruthyIsFirst(cands[1..], fallback);
      forall k | 0 <= k < |cands| && Truthy(cands[k]) && (forall j :: 0 <= j < k ==> !Truthy(cands[j]))
        ensures FirstTruthy(cands, fallback) == cands[k].value
      {
        if k > 0 {
          assert !Truthy(cands[0]);
          assert cands[1..][k - 1] == cands[k];
          assert forall j :: 0 <= j < k - 1 ==> cands[1..][j] == cands[j + 1];
        }
      }
    }
  }

  /** `getErrorMessage`: a human-readable message for any rejection. For a client error it is,
      in priority order, the body's `error`, the body's `message`, the client's own message, or a
      fixed fallback, skipping empty strings; so it is never empty. */
  function GetErrorMessage(e: Failure): (r: string)
    ensures e.AxiosError? ==> r == FirstTruthy([DataError(e), DataMessage(e), Some(e.message)], ConnectFallback)
    ensures e.AxiosError? ==> r != ""
    ensures e.PlainError? ==> r == e.message
    ensures e.NonError? ==> r == UnknownFallback
  {
    match e
    case AxiosError(_, msg) =>
      var c := [DataError(e), DataMessage(e), Some(msg)];
      assert c[1..] == [DataMessage(e), Some(msg)] && c[1..][1..] == [Some(msg)] && c[1..][1..][1..] == [];
      assert FirstTruthy([Some(msg)], ConnectFallback) == OrElse(Some(msg), ConnectFallback);
      OrElse(DataError(e), OrElse(DataMessage(e), OrElse(Some(msg), ConnectFallback)))
    case PlainError(msg) => msg
    case NonError => UnknownFallback
  }

  const AuthorizationHeader: string := "Authorization"
  const BearerPrefix: string := "Bearer "

  /** The headers a request leaves with: the `Authorization` header carries the stored token
      when one is stored and non-empty; otherwise the headers are as they were. */
  function Authorized(headers: map<string, string>, items: map<string, string>): (r: map<string, string>)
    ensures Truthy(Storage.Lookup(items, "token")) ==>
      AuthorizationHeader in r && r[AuthorizationHeader] == BearerPrefix + items["token"]
    ensures !Truthy(Storage.Lookup(items, "token")) ==> r == headers
    ensures r.Keys <= headers.Keys + {AuthorizationHeader}
    ensures forall k :: k in headers && k != AuthorizationHeader ==> k in r && r[k] == headers[k]
  {
    var token := Storage.Lookup(items, "token");
    if Truthy(token) then headers[AuthorizationHeader := BearerPrefix + token.value] else headers
  }

  /** The credential a server reads back from an `Authorization` header value. */
  function BearerToken(header: string): Option<string> {
    if |BearerPrefix| <= |header| && header[..|BearerPrefix|] == BearerPrefix
    then Some(header[|BearerPrefix|..]) else None
  }

  /** The header the request interceptor writes carries exactly the stored token. */
  lemma AuthorizedCarriesToken(headers: map<string, string>, items: map<string, string>)
    requires Truthy(Storage.Lookup(items, "token"))
    ensures BearerToken(Authorized(headers, items)[AuthorizationHeader]) == Some(items["token"])
  {
    var h := BearerPrefix + items["token"];
    assert h[..|BearerPrefix|] == BearerPrefix;
    assert h[|BearerPrefix|..] == items["token"];
  }

  /** The configuration object the request interceptor receives and returns. */
  class RequestConfig {
    var headers: map<string, string>

    constructor (headers: map<string, string>)
      ensures this.headers == headers
    {
      this.headers := headers;
    }
  }

  /** The request interceptor: reads the token from storage and, when it is truthy,
      sets `Authorization: Bearer <token>` on the outgoing configuration. */
  method RequestInterceptor(config: RequestConfig, storage: Storage.LocalStorage) returns (out: RequestConfig)
    modifies config
    ensures out == config
    ensures config.headers == Authorized(old(config.headers), storage.items)
  {
    var token := storage.GetItem("token");
    if Truthy(token) {
      config.headers := config.headers[AuthorizationHeader := BearerPrefix + token.value];
    }
    out := config;
  }

  /** The server answered the request with 401: the credential was rejected. */
  predicate RejectsCredential(e: Failure) {
    e.AxiosError? && e.response.Some? && e.response.value.status == 401
  }

  /** Storage after the response error interceptor: a 401 removes the `token` and `user`
      entries and keeps every other one; any other rejection leaves storage alone. */
  function AfterRejection(items: map<string, string>, e: Failure): (r: map<string, string>)
    ensures RejectsCredential(e) ==> "token" !in r && "user" !in r
    ensures RejectsCredential(e) ==> forall k :: k in items && k != "token" && k != "user" ==> k in r && r[k] == items[k]
    ensures r.Keys <= items.Keys
    ensures !RejectsCredential(e) ==> r == items
  {
    if RejectsCredential(e) then items - {"token", "user"} else items
  }

  /** A 401 sends the browser to `/login` unless the current path already mentions `/login`. */
  predicate RedirectsToLogin(e: Failure, pathname: string) {
    RejectsCredential(e) && !Contains(pathname, "/login")
  }

  /** The response error interceptor: clears the stored session on 401, asks for the
      redirect to `/login` when the page is not already a login page, and rejects with
      the very error it received. */
  method ResponseErrorInterceptor(e: Failure, storage: Storage.LocalStorage, pathname: string)
    returns (redirect: bool, rejected: Failure)
    modifies storage
    ensures storage.items == AfterRejection(old(storage.items), e)
    ensures redirect == RedirectsToLogin(e, pathname)
    ensures rejected == e
  {
    redirect := false;
    if e.AxiosError? && e.response.Some? {
      var status := e.response.value.status;
      if status == 401 {
        storage.RemoveItem("token");
        storage.RemoveItem("user");
        if !Contains(pathname, "/login") {
          redirect := true;
        }
      }
    }
    rejected := e;
  }

  /** After a 401 no later request carries a credential: the request interceptor
      finds no token and leaves the headers as they are. */
  lemma RejectionStopsBearer(items: map<string, string>, e: Failure, headers: map<string, string>)
    requires RejectsCredential(e)
    ensures Authorized(headers, AfterRejection(items, e)) == headers
  {
  }
}
