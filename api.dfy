/**
 * The HTTP client of src/services/api.jsx: one client for the backend whose
 * request step attaches the stored bearer token and whose response step turns
 * a 401 into a forced sign-out, plus the endpoint tables built on it. The
 * network itself is a parameter: each call is handed the server's reply.
 */
module Api {
  import opened Wrappers
  import opened Records
  import opened JsStrings
  import opened Browser

  const BaseUrl := "http://localhost:3000/api"

  /** What an axios error carries of the server's answer, when there was one. */
  datatype ErrorResponse = ErrorResponse(status: int, message: Option<string>)

  /** An axios error; `response` is absent when no answer came back. */
  datatype HttpError = HttpError(response: Option<ErrorResponse>)

  /** The server's reply to one call: its data, or the error the call rejects with. */
  datatype Reply<+T> = Success(data: T) | Failure(error: HttpError)

  /** `error.response?.status === 401`. */
  predicate IsUnauthorized(e: HttpError) {
    e.response.Some? && e.response.value.status == 401
  }

  /** `error.response?.data?.message || fallback`: the server's message when it sent a non-empty one. */
  function ErrorMessage(e: HttpError, fallback: string): (m: string)
    ensures e.response.None? ==> m == fallback
    ensures e.response.Some? && e.response.value.message.Some? && e.response.value.message.value != ""
            ==> m == e.response.value.message.value
    ensures e.response.Some? && (e.response.value.message.None? || e.response.value.message.value == "")
            ==> m == fallback
  {
    match e.response
    case None => fallback
    case Some(r) => if r.message.Some? && r.message.value != "" then r.message.value else fallback
  }

  datatype Verb = Get | Post | Put | Delete

  /** Every call of `authAPI`, `contactAPI`, `usersAPI`, `productsAPI` and `inquiriesAPI`. */
  datatype Endpoint =
    | AuthRegister | AuthLogin | AuthMe
    | ContactSend
    | UsersGetProfile | UsersUpdateProfile | UsersUpdatePassword | UsersDeleteAccount
    | ProductsList | ProductsCreate | ProductsMine
    | InquiriesOfManufacturer | InquiriesOfBuyer | InquiryGet(id: string) | InquiryCreate
    | InquiryUpdateStatus(id: string) | InquiryRespond(id: string) | InquiryStats

  const InquiriesPrefix := "/inquiries/"

  /** The verb and the path, relative to `BaseUrl`, each endpoint calls. */
  function Route(e: Endpoint): (Verb, string) {
    match e
    case AuthRegister => (Post, "/auth/register")
    case AuthLogin => (Post, "/auth/login")
    case AuthMe => (Get, "/auth/me")
    case ContactSend => (Post, "/contact")
    case UsersGetProfile => (Get, "/users/profile")
    case UsersUpdateProfile => (Put, "/users/profile")
    case UsersUpdatePassword => (Put, "/users/password")
    case UsersDeleteAccount => (Delete, "/users/account")
    case ProductsList => (Get, "/products")
    case ProductsCreate => (Post, "/products")
    case ProductsMine => (Get, "/products/my-products")
    case InquiriesOfManufacturer => (Get, "/inquiries/manufacturer")
    case InquiriesOfBuyer => (Get, "/inquiries/buyer")
    case InquiryGet(id) => (Get, InquiriesPrefix + id)
    case InquiryCreate => (Post, "/inquiries")
    case InquiryUpdateStatus(id) => (Put, InquiriesPrefix + id + "/status")
    case InquiryRespond(id) => (Post, InquiriesPrefix + id + "/respond")
    case InquiryStats => (Get, "/inquiries/stats")
  }

  /** Which endpoint a request under `/inquiries/` addresses, given the rest of its path. */
  function ParseInquiryPath(verb: Verb, rest: string): Option<Endpoint> {
    var i := IndexOf(rest, '/');
    if i < 0 then
      if verb != Get || rest == "" then None
      else if rest == "manufacturer" then Some(InquiriesOfManufacturer)
      else if rest == "buyer" then Some(InquiriesOfBuyer)
      else if rest == "stats" then Some(InquiryStats)
      else Some(InquiryGet(rest))
    else if i == 0 then None
    else if verb == Put && rest[i..] == "/status" then Some(InquiryUpdateStatus(rest[..i]))
    else if verb == Post && rest[i..] == "/respond" then Some(InquiryRespond(rest[..i]))
    else None
  }

  /** The endpoint a request addresses: the inverse of `Route`. */
  function ParseRoute(verb: Verb, path: string): Option<Endpoint> {
    if IsPrefix(InquiriesPrefix, path) then ParseInquiryPath(verb, path[|InquiriesPrefix|..])
    else ParseFixedRoute(verb, path)
  }

  /** The endpoints whose path holds no id and does not start with `/inquiries/`. */
  function ParseFixedRoute(verb: Verb, path: string): Option<Endpoint> {
    match (verb, path)
      case (Post, "/auth/register") => Some(AuthRegister)
      case (Post, "/auth/login") => Some(AuthLogin)
      case (Get, "/auth/me") => Some(AuthMe)
      case (Post, "/contact") => Some(ContactSend)
      case (Get, "/users/profile") => Some(UsersGetProfile)
      case (Put, "/users/profile") => Some(UsersUpdateProfile)
      case (Put, "/users/password") => Some(UsersUpdatePassword)
      case (Delete, "/users/account") => Some(UsersDeleteAccount)
      case (Get, "/products") => Some(ProductsList)
      case (Post, "/products") => Some(ProductsCreate)
      case (Get, "/products/my-products") => Some(ProductsMine)
      case (Post, "/inquiries") => Some(InquiryCreate)
      case _ => None
  }

  /** An id the path builders can carry unambiguously: non-empty, without '/', and not a fixed segment. */
  predicate RoutableId(id: string) {
    id != "" && '/' !in id && id != "manufacturer" && id != "buyer" && id != "stats"
  }

  predicate RoutableIds(e: Endpoint) {
    (e.InquiryGet? || e.InquiryUpdateStatus? || e.InquiryRespond?) ==> RoutableId(e.id)
  }

  /**
   * A call can be told from every other by its verb and path when its ids are
   * routable: the path builders put the id verbatim between `/inquiries/` and
   * the suffix, so an id that is empty, holds '/', or is one of the fixed
   * route names "manufacturer", "buyer" and "stats" would be mistaken for
   * another call (`StatsIdIsAmbiguous`).
   */
  lemma RouteRoundTrip(e: Endpoint)
    requires RoutableIds(e)
    ensures ParseRoute(Route(e).0, Route(e).1) == Some(e)
  {
    match e
    case InquiryGet(id) => InquiryGetRoundTrip(id);
    case InquiryUpdateStatus(id) =>
      InquiryUpdateStatusRoundTrip(id);
      assert InquiriesPrefix + id + "/status" == InquiriesPrefix + (id + "/status");
    case InquiryRespond(id) =>
      InquiryRespondRoundTrip(id);
      assert InquiriesPrefix + id + "/respond" == InquiriesPrefix + (id + "/respond");
    case InquiriesOfManufacturer => FixedInquiryRoundTrip("manufacturer");
    case InquiriesOfBuyer => FixedInquiryRoundTrip("buyer");
    case InquiryStats => FixedInquiryRoundTrip("stats");
    case _ => FixedRoundTrip(e);
  }

  lemma FixedRoundTrip(e: Endpoint)
    requires !(e.InquiryGet? || e.InquiryUpdateStatus? || e.InquiryRespond?)
    requires !(e.InquiriesOfManufacturer? || e.InquiriesOfBuyer? || e.InquiryStats?)
    ensures ParseRoute(Route(e).0, Route(e).1) == Some(e)
  {
    var path := Route(e).1;
    assert |path| < |InquiriesPrefix| || path[1] != InquiriesPrefix[1];
  }

  lemma FixedInquiryRoundTrip(segment: string)
    requires segment == "manufacturer" || segment == "buyer" || segment == "stats"
    ensures var path := InquiriesPrefix + segment;
            path == Route(if segment == "manufacturer" then InquiriesOfManufacturer
                          else if segment == "buyer" then InquiriesOfBuyer else InquiryStats).1
            && ParseRoute(Get, path) == Some(if segment == "manufacturer" then InquiriesOfManufacturer
                                             else if segment == "buyer" then InquiriesOfBuyer else InquiryStats)
  {
    var path := InquiriesPrefix + segment;
    assert path[..|InquiriesPrefix|] == InquiriesPrefix;
    assert path[|InquiriesPrefix|..] == segment;
    assert '/' !in segment;
  }

  lemma StripInquiriesPrefix(rest: string)
    ensures IsPrefix(InquiriesPrefix, InquiriesPrefix + rest)
    ensures (InquiriesPrefix + rest)[|InquiriesPrefix|..] == rest
  {
    var path := InquiriesPrefix + rest;
    assert path[..|InquiriesPrefix|] == InquiriesPrefix;
  }

  lemma SplitAtFirstSlash(id: string, tail: string)
    requires '/' !in id && tail != [] && tail[0] == '/'
    ensures var rest := id + tail;
            IndexOf(rest, '/') == |id| && rest[..|id|] == id && rest[|id|..] == tail
  {
    var rest := id + tail;
    assert rest == id + ['/'] + tail[1..];
    IndexOfAfterFreePrefix(id, '/', tail[1..]);
    assert rest[..|id|] == id;
  }

  lemma InquiryGetRoundTrip(id: string)
    requires RoutableId(id)
    ensures ParseRoute(Get, InquiriesPrefix + id) == Some(InquiryGet(id))
  {
    StripInquiriesPrefix(id);
  }

  lemma InquiryUpdateStatusRoundTrip(id: string)
    requires RoutableId(id)
    ensures ParseRoute(Put, InquiriesPrefix + (id + "/status")) == Some(InquiryUpdateStatus(id))
  {
    StripInquiriesPrefix(id + "/status");
    SplitAtFirstSlash(id, "/status");
  }

  lemma InquiryRespondRoundTrip(id: string)
    requires RoutableId(id)
    ensures ParseRoute(Post, InquiriesPrefix + (id + "/respond")) == Some(InquiryRespond(id))
  {
    StripInquiriesPrefix(id + "/respond");
    SplitAtFirstSlash(id, "/respond");
  }

  /** The id is pasted in unescaped, so the id "stats" addresses the statistics call. */
  lemma StatsIdIsAmbiguous()
    ensures Route(InquiryGet("stats")) == Route(InquiryStats)
  {
    assert InquiriesPrefix + "stats" == "/inquiries/stats";
  }

  const JsonHeaders: map<string, string> := map["Content-Type" := "application/json"]

  const BearerPrefix := "Bearer "

  /**
   * The headers after the request step: with a usable stored token the
   * `Authorization` header is the bearer form of section 2.1 of RFC 6750;
   * every other header is left as it was.
   */
  function WithBearer(headers: map<string, string>, stored: Option<string>): (h: map<string, string>)
    ensures UsableToken(stored).Some? ==> "Authorization" in h && h["Authorization"] == BearerPrefix + stored.value
    ensures UsableToken(stored).None? ==> h == headers
    ensures forall k :: k != "Authorization" ==> (k in h <==> k in headers)
    ensures forall k :: k != "Authorization" && k in headers ==> h[k] == headers[k]
  {
    match UsableToken(stored)
    case Some(t) => headers["Authorization" := BearerPrefix + t]
    case None => headers
  }

  /** The credential can be read back from the header the request step writes. */
  lemma BearerCredential(headers: map<string, string>, token: string)
    requires token != ""
    ensures var h := WithBearer(headers, Some(token));
            IsPrefix(BearerPrefix, h["Authorization"]) && h["Authorization"][|BearerPrefix|..] == token
  {
    var v := BearerPrefix + token;
    assert v[..|BearerPrefix|] == BearerPrefix;
  }

  /**
   * The store after the response step saw an error: a 401 (section 15.5.2 of
   * RFC 9110) removes both keys and sends the window to `/login`; any other
   * error, an unanswered request included, leaves everything as it was.
   */
  function AfterError(s: Store, e: HttpError): (t: Store)
    ensures IsUnauthorized(e) ==> t.token == None && t.userItem == None && t.href == Some("/login")
    ensures !IsUnauthorized(e) ==> t == s
  {
    if IsUnauthorized(e) then Store(None, None, Some("/login")) else s
  }

  /** The store after a whole reply went through the response step; successes change nothing. */
  function AfterReply<T>(s: Store, r: Reply<T>): (t: Store)
    ensures r.Success? ==> t == s
    ensures r.Failure? ==> t == AfterError(s, r.error)
  {
    match r
    case Success(_) => s
    case Failure(e) => AfterError(s, e)
  }

  /** However many 401s arrive, the store ends up as after the first one. */
  lemma UnauthorizedConverges(s: Store, e1: HttpError, e2: HttpError)
    requires IsUnauthorized(e1)
    ensures AfterError(AfterError(s, e1), e2) == AfterError(s, e1)
  {
  }

  /** The response step never leaves one key without the other. */
  lemma AfterErrorKeepsPairing(s: Store, e: HttpError)
    requires Paired(s)
    ensures Paired(AfterError(s, e))
  {
  }

  /** The request object axios hands the request step, whose headers the step changes in place. */
  class RequestConfig {
    const endpoint: Endpoint
    var headers: map<string, string>

    constructor(endpoint: Endpoint, headers: map<string, string>)
      ensures this.endpoint == endpoint && this.headers == headers
    {
      this.endpoint := endpoint;
      this.headers := headers;
    }
  }

  /** The request interceptor: reads the token from storage now, and sets the header if there is one. */
  method InterceptRequest(config: RequestConfig, window: Window)
    modifies config
    ensures config.headers == WithBearer(old(config.headers), window.token)
  {
    var token := window.token;
    if token.Some? && token.value != "" {
      config.headers := config.headers["Authorization" := BearerPrefix + token.value];
    }
  }

  /** The response interceptor's error branch: sign out on a 401, then reject with the same error. */
  method InterceptError(window: Window, error: HttpError) returns (rejected: HttpError)
    modifies window
    ensures rejected == error
    ensures window.Snapshot() == AfterError(old(window.Snapshot()), error)
  {
    if error.response.Some? && error.response.value.status == 401 {
      window.token := None;
      window.userItem := None;
      window.href := Some("/login");
    }
    rejected := error;
  }

  /**
   * One call through the client: the request goes out with the JSON header
   * and the bearer header built from the token stored at that moment; the
   * reply comes back to the caller unchanged, after the response step.
   */
  method Send<T>(window: Window, endpoint: Endpoint, reply: Reply<T>) returns (result: Reply<T>, sent: map<string, string>)
    modifies window
    ensures sent == WithBearer(JsonHeaders, old(window.token))
    ensures result == reply
    ensures window.Snapshot() == AfterReply(old(window.Snapshot()), reply)
  {
    var config := new RequestConfig(endpoint, JsonHeaders);
    InterceptRequest(config, window);
    sent := config.headers;
    match reply
    case Success(_) =>
      result := reply;
    case Failure(e) =>
      var rejected := InterceptError(window, e);
      result := Failure(rejected);
  }

  /** A token stored between two calls is the one the second call carries. */
  method FreshTokenPerRequest(window: Window, first: string, second: string)
    returns (headers1: map<string, string>, headers2: map<string, string>)
    requires first != "" && second != ""
    modifies window
    ensures "Authorization" in headers1 && headers1["Authorization"] == BearerPrefix + first
    ensures "Authorization" in headers2 && headers2["Authorization"] == BearerPrefix + second
  {
    window.token := Some(first);
    var r1: Reply<()>;
    r1, headers1 := Send(window, UsersGetProfile, Success(()));
    window.token := Some(second);
    var r2: Reply<()>;
    r2, headers2 := Send(window, UsersGetProfile, Success(()));
  }
}
