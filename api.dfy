/**
 * The API client (src/services/api.ts): header construction from the current
 * session token, the normalisation of every transport outcome into one
 * `ApiResponse`, and the endpoint each wrapper calls.
 *
 * `fetch` and `response.json()` are abstracted into `Transport`: either they
 * raised (network failure, unparseable body), or a response arrived with its
 * `ok` flag and its decoded body.
 */
module Api {
  import opened Wrappers
  import UserStore

  /** One entry of the backend's `errors` array. */
  datatype FieldError = FieldError(field: string, message: string, code: string)

  /** The backend envelope `{ success, message, content, meta: { token }, errors }`. */
  datatype Body<T> = Body(
    success: bool,
    message: Option<string>,
    content: Option<T>,
    metaToken: Option<string>,
    errors: Option<seq<FieldError>>)

  /** What `fetch` followed by `response.json()` produced. */
  datatype Transport<T> = Threw | Replied(ok: bool, body: Body<T>)

  /** The uniform result every request resolves to. */
  datatype ApiResponse<T> = ApiResponse(
    success: bool,
    message: Option<string>,
    data: Option<T>,
    token: Option<string>,
    errors: seq<FieldError>)

  datatype Verb = GET | POST | PUT | DELETE | PATCH

  const RequestFailed := "Request failed"
  const NetworkError := "Network error. Please try again."

  /** `m || fallback` on an optional string. */
  function MessageOr(m: Option<string>, fallback: string): string {
    if m.Some? && m.value != "" then m.value else fallback
  }

  /**
   * The try/catch body shared by `post`, `get`, `put`, `delete` and
   * `updateUserSubscription`: a raised failure, a non-2xx reply and a 2xx
   * reply each give their own shape, and only `post` surfaces `meta.token`.
   */
  function Normalise<T>(verb: Verb, t: Transport<T>): (r: ApiResponse<T>)
    ensures t.Threw? ==> r == ApiResponse(false, Some(NetworkError), None, None, [])
    ensures t.Replied? && !t.ok ==>
      && !r.success && r.data.None? && r.token.None?
      && r.message == Some(MessageOr(t.body.message, RequestFailed))
      && r.errors == t.body.errors.GetOr([])
    ensures t.Replied? && t.ok ==>
      && r.success == t.body.success
      && r.message == t.body.message
      && r.data == t.body.content
      && r.token == (if verb == POST then t.body.metaToken else None)
      && r.errors == t.body.errors.GetOr([])
  {
    match t
    case Threw => ApiResponse(false, Some(NetworkError), None, None, [])
    case Replied(ok, body) =>
      if !ok then
        ApiResponse(false, Some(MessageOr(body.message, RequestFailed)), None, None, body.errors.GetOr([]))
      else
        ApiResponse(body.success, body.message, body.content,
                    if verb == POST then body.metaToken else None,
                    body.errors.GetOr([]))
  }

  /** A request that failed in transport or with a non-2xx status always carries a non-empty message. */
  lemma FailurePathsHaveMessage<T>(verb: Verb, t: Transport<T>)
    requires t.Threw? || !t.ok
    ensures var r := Normalise(verb, t); !r.success && r.message.Some? && r.message.value != ""
  {
  }

  /**
   * The 2xx path copies the body's `success` and `message` verbatim, so a
   * 2xx reply whose body says `success: false` with no message resolves to a
   * failure without a message.
   */
  lemma OkReplyMayFailWithoutMessage<T>(verb: Verb, body: Body<T>)
    requires !body.success && body.message.None?
    ensures var r := Normalise(verb, Replied(true, body)); !r.success && r.message.None?
  {
  }

  /** Only POST results carry a token; GET, PUT, DELETE and PATCH results never do. */
  lemma OnlyPostSurfacesToken<T>(verb: Verb, t: Transport<T>)
    ensures Normalise(verb, t).token.Some? ==> verb == POST && t.Replied? && t.ok
  {
  }

  // ---------------------------------------------------------------------
  // Headers

  /** `${import.meta.env.VITE_API_KEY}`: a missing variable renders as "undefined". */
  function ApiKeyText(env: Option<string>): string {
    env.GetOr("undefined")
  }

  /**
   * `getHeaders`: reads the store's current token, always sets the content
   * type and the API key, and adds `Authorization: Bearer <token>` exactly
   * when the token is truthy.
   */
  method GetHeaders(store: UserStore.SessionStore, apiKey: Option<string>) returns (headers: map<string, string>)
    ensures "Content-Type" in headers && headers["Content-Type"] == "application/json"
    ensures "x-api-key" in headers && headers["x-api-key"] == ApiKeyText(apiKey)
    ensures "Authorization" in headers <==> UserStore.Truthy(store.token)
    ensures "Authorization" in headers ==> headers["Authorization"] == "Bearer " + store.token.value
    ensures headers.Keys <= {"Content-Type", "x-api-key", "Authorization"}
  {
    var token := store.token;
    headers := map["Content-Type" := "application/json", "x-api-key" := ApiKeyText(apiKey)];
    if token.Some? && token.value != "" {
      headers := headers["Authorization" := "Bearer " + token.value];
    }
  }

  // ---------------------------------------------------------------------
  // Endpoints

  /** The decimal digits of a natural number, as `${n}` renders it. */
  function NatText(n: nat): (r: string)
    ensures |r| > 0
    ensures forall i :: 0 <= i < |r| ==> '0' <= r[i] <= '9'
  {
    if n < 10 then [DigitChar(n)] else NatText(n / 10) + [DigitChar(n % 10)]
  }

  function DigitChar(d: nat): char
    requires d < 10
  {
    ('0' as int + d) as char
  }

  /** `${i}` for an integer. */
  function IntText(i: int): string {
    if i < 0 then "-" + NatText(-i) else NatText(i)
  }

  /** Reads a string of decimal digits back as a number. */
  function DigitsValue(s: string): nat
    requires forall i :: 0 <= i < |s| ==> '0' <= s[i] <= '9'
  {
    if s == [] then 0 else DigitsValue(s[..|s| - 1]) * 10 + (s[|s| - 1] as int - '0' as int)
  }

  /** The rendering of a page or limit number reads back as that number. */
  lemma {:induction false} NatTextRoundTrip(n: nat)
    ensures DigitsValue(NatText(n)) == n
  {
    if n >= 10 {
      NatTextRoundTrip(n / 10);
      var s := NatText(n);
      assert s[..|s| - 1] == NatText(n / 10);
    }
  }

  /** The wrappers of `ApiService`; a page or limit left `undefined` is `None`. */
  datatype Call =
    | Login
    | Register
    | GetSubscriptions(page: Option<int>, limit: Option<int>)
    | GetSubscriptionById(id: string)
    | CreateSubscription
    | UpdateSubscription(id: string)
    | DeleteSubscription(id: string)
    | GetUsers(page: Option<int>, limit: Option<int>)
    | GetUserById(id: string)
    | CreateUser
    | UpdateUser(id: string)
    | DeleteUser(id: string)
    | UpdateUserSubscription(id: string)

  /** `?page=P&limit=L` with the defaults 1 and 10. */
  function PageQuery(page: Option<int>, limit: Option<int>): string {
    "?page=" + IntText(page.GetOr(1)) + "&limit=" + IntText(limit.GetOr(10))
  }

  /** The verb and the endpoint path each wrapper requests. */
  function Route(c: Call): (Verb, string) {
    match c
    case Login => (POST, "/v1/auth/login")
    case Register => (POST, "/v1/auth/register")
    case GetSubscriptions(page, limit) => (GET, "/v1/subscriptions" + PageQuery(page, limit))
    case GetSubscriptionById(id) => (GET, "/v1/subscriptions/" + id)
    case CreateSubscription => (POST, "/v1/subscriptions")
    case UpdateSubscription(id) => (PUT, "/v1/subscriptions/" + id)
    case DeleteSubscription(id) => (DELETE, "/v1/subscriptions/" + id)
    case GetUsers(page, limit) => (GET, "/v1/users" + PageQuery(page, limit))
    case GetUserById(id) => (GET, "/v1/users/" + id)
    case CreateUser => (POST, "/v1/users")
    case UpdateUser(id) => (PUT, "/v1/users/" + id)
    case DeleteUser(id) => (DELETE, "/v1/users/" + id)
    case UpdateUserSubscription(id) => (PATCH, "/v1/users/" + id + "/subscription")
  }

  /** A wrapper's result: its route's verb applied to the transport outcome. */
  function CallResult<T>(c: Call, t: Transport<T>): ApiResponse<T> {
    Normalise(Route(c).0, t)
  }

  /** The default page and limit render as "1" and "10". */
  lemma DefaultNumbersText()
    ensures IntText(1) == "1" && IntText(10) == "10"
  {
    assert NatText(1) == [DigitChar(1)] == "1";
    assert NatText(10) == NatText(1) + [DigitChar(0)] == "10";
  }

  /** Without arguments the list wrappers ask for page 1 of 10. */
  lemma DefaultPaging()
    ensures Route(GetSubscriptions(None, None)) == (GET, "/v1/subscriptions?page=1&limit=10")
    ensures Route(GetUsers(None, None)) == (GET, "/v1/users?page=1&limit=10")
  {
    DefaultNumbersText();
    var q := PageQuery(None, None);
    assert q == "?page=1&limit=10";
    assert "/v1/subscriptions" + q == "/v1/subscriptions?page=1&limit=10";
    assert "/v1/users" + q == "/v1/users?page=1&limit=10";
  }

  /**
   * For non-negative numbers the list endpoints are `/v1/<list>?page=P&limit=L`
   * with P and L the plain decimal renderings, which read back as the page and
   * the limit.
   */
  lemma PagedRouteReadsBack(page: nat, limit: nat)
    ensures PageQuery(Some(page), Some(limit)) == "?page=" + NatText(page) + "&limit=" + NatText(limit)
    ensures Route(GetSubscriptions(Some(page), Some(limit))).1 == "/v1/subscriptions" + PageQuery(Some(page), Some(limit))
    ensures Route(GetUsers(Some(page), Some(limit))).1 == "/v1/users" + PageQuery(Some(page), Some(limit))
    ensures DigitsValue(NatText(page)) == page && DigitsValue(NatText(limit)) == limit
  {
    assert IntText(page) == NatText(page);
    assert IntText(limit) == NatText(limit);
    NatTextRoundTrip(page);
    NatTextRoundTrip(limit);
  }

  /** `updateUserSubscription` is a PATCH whose result has the same three-way shape and no token. */
  lemma UpdateUserSubscriptionShape<T>(id: string, t: Transport<T>)
    ensures Route(UpdateUserSubscription(id)) == (PATCH, "/v1/users/" + id + "/subscription")
    ensures CallResult(UpdateUserSubscription(id), t) == Normalise(PUT, t)
  {
  }

  /** Of all wrappers, only the POST ones (login, register, the two creates) can surface a token. */
  lemma TokenOnlyFromPostWrappers<T>(c: Call, t: Transport<T>)
    requires CallResult(c, t).token.Some?
    ensures c.Login? || c.Register? || c.CreateSubscription? || c.CreateUser?
  {
  }
}
