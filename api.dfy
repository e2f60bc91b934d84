/** Token storage, the authentication endpoints' effect on it, the 401
    response interceptor, error classification and the authentication
    check (src/utils/api.js). `localStorage` is a map, the HTTP transport
    an outcome chosen by the network, `atob` followed by `JSON.parse` an
    abstract partial decoder, and `Date.now()` an integer. */
module Api {
  import opened Js
  import App

  const TokenKey := "authToken"
  const UserKey := "user"
  const AuthorizationHeader := "Authorization"

  const LoginUrl := "api/users/login"
  const RegisterUrl := "api/users/register"
  const LogoutUrl := "api/users/logout"
  const LogoutAllUrl := "api/users/logoutAll"

  const NoResponseMessage := "No response from server. Please check your connection."

  /** A non-2xx answer from the server. */
  datatype HttpResponse = HttpResponse(status: int, data: Value)

  /** An axios rejection: `response` when the server answered, `requestSent`
      when a request went out and nothing came back, and the error's own
      `message`. */
  datatype HttpError = HttpError(response: Option<HttpResponse>, requestSent: bool, message: Value)

  /** How one HTTP call ends, as the network decides: the response body, or
      a rejection. */
  datatype Transport = Answered(body: Value) | Rejected(error: HttpError)

  /** The error object `handleApiError` builds and throws. */
  datatype ErrorData = ErrorData(message: Value, status: int, details: Value)

  /** What a failed call throws: `handleApiError`'s error object, or the
      TypeError raised when it reads `message` of a nullish response body. */
  datatype Thrown = ApiError(data: ErrorData) | TypeError

  /** How an `authAPI` call settles. */
  datatype Settled = Returned(value: Value) | Threw(error: Thrown)

  /** `handleApiError(error)`: always throws; sorts the failure by whether
      the server answered, a request went out unanswered, or neither. */
  function HandleApiError(e: HttpError): (t: Thrown)
    ensures e.response.Some? && Nullish(e.response.value.data) ==> t == TypeError
    ensures e.response.Some? && !Nullish(e.response.value.data) ==>
      var data := e.response.value.data;
      && t.ApiError?
      && t.data.status == e.response.value.status
      && t.data.details == data
      && (Truthy(Get(data, "message")) ==> t.data.message == Get(data, "message"))
      && (!Truthy(Get(data, "message")) ==> t.data.message == Str("Error: " + IntToString(e.response.value.status)))
    ensures e.response.None? && e.requestSent ==> t == ApiError(ErrorData(Str(NoResponseMessage), 0, Null))
    ensures e.response.None? && !e.requestSent ==> t == ApiError(ErrorData(e.message, 500, Null))
  {
    match e.response
    case Some(resp) =>
      if Nullish(resp.data) then TypeError
      else ApiError(ErrorData(Or(Get(resp.data, "message"), Str("Error: " + IntToString(resp.status))), resp.status, resp.data))
    case None =>
      if e.requestSent then ApiError(ErrorData(Str(NoResponseMessage), 0, Null))
      else ApiError(ErrorData(e.message, 500, Null))
  }

  /** The status of the thrown error tells the three cases apart when the
      server's status is an HTTP status code (100 to 599). */
  lemma HandleApiErrorStatus(e: HttpError)
    requires e.response.Some? ==> 100 <= e.response.value.status <= 599
    ensures HandleApiError(e).ApiError? ==>
      (HandleApiError(e).data.status == 0 <==> e.response.None? && e.requestSent)
      && (HandleApiError(e).data.status == 500 <==> (e.response.None? && !e.requestSent) || (e.response.Some? && e.response.value.status == 500))
  {
  }

  /** The paths of the endpoints used before a session exists. */
  const AuthPaths := ["/login", "/register", "/forgotPassword", "/resetPassword"]

  /** `isAuthEndpoint`: the URL includes the path of one of the endpoints
      used before a session exists. */
  function IsAuthEndpoint(url: string): (r: bool)
    ensures r <==> exists i :: 0 <= i < |AuthPaths| && Contains(url, AuthPaths[i])
  {
    assert AuthPaths[0] == "/login" && AuthPaths[1] == "/register";
    assert AuthPaths[2] == "/forgotPassword" && AuthPaths[3] == "/resetPassword";
    Contains(url, "/login") || Contains(url, "/register")
    || Contains(url, "/forgotPassword") || Contains(url, "/resetPassword")
  }

  /** What the 401 interceptor does. */
  datatype Decision = Decision(clearToken: bool, redirect: bool)

  /** The response interceptor's decision for a rejected call to `url` while
      the browser shows `pathname`. */
  function UnauthorizedDecision(e: HttpError, url: string, pathname: string): (d: Decision)
    ensures d.clearToken <==> e.response.Some? && e.response.value.status == 401 && !IsAuthEndpoint(url)
    ensures d.redirect <==> d.clearToken && pathname != "/login"
  {
    if e.response.Some? && e.response.value.status == 401 && !IsAuthEndpoint(url) then
      Decision(true, pathname != "/login")
    else
      Decision(false, false)
  }

  lemma LoginUrlIsAuthEndpoint()
    ensures IsAuthEndpoint(LoginUrl) && IsAuthEndpoint(RegisterUrl)
  {
    assert OccursAt(LoginUrl, "/login", 9);
    assert OccursAt(RegisterUrl, "/register", 9);
  }

  /** A URL under "api/users" whose remainder has no 'r', 'n', 'f' or 'w'
      names no authentication endpoint: each endpoint needs one of those
      letters where the URL cannot supply it. */
  lemma UsersEndpointIsNotAuth(tail: string)
    requires 'r' !in tail && 'n' !in tail && 'f' !in tail && 'w' !in tail
    ensures !IsAuthEndpoint("api/use" + ['r'] + tail)
  {
    var url := "api/use" + ['r'] + tail;
    assert 'n' !in url && 'f' !in url && 'w' !in url;
    AbsentChar(url, "/login", 5);
    AbsentChar(url, "/forgotPassword", 1);
    AbsentChar(url, "/resetPassword", 10);
    OnlyOccurrenceTooEarly("api/use", 'r', tail, "/register", 8);
  }

  /** A 401 from either logout endpoint is not from an authentication
      endpoint: the interceptor acts on it. */
  lemma LogoutUrlsAreNotAuthEndpoints()
    ensures !IsAuthEndpoint(LogoutUrl) && !IsAuthEndpoint(LogoutAllUrl)
  {
    assert LogoutUrl == "api/use" + ['r'] + "s/logout";
    UsersEndpointIsNotAuth("s/logout");
    assert LogoutAllUrl == "api/use" + ['r'] + "s/logoutAll";
    UsersEndpointIsNotAuth("s/logoutAll");
  }

  /** A rejected logout call redirects exactly on a 401 while the browser
      is not on "/login", and clears the token exactly on a 401. */
  lemma LogoutRejectionRedirects(e: HttpError, pathname: string)
    ensures UnauthorizedDecision(e, LogoutUrl, pathname).clearToken <==> e.response.Some? && e.response.value.status == 401
    ensures UnauthorizedDecision(e, LogoutAllUrl, pathname).clearToken <==> e.response.Some? && e.response.value.status == 401
    ensures UnauthorizedDecision(e, LogoutUrl, pathname).redirect
        <==> e.response.Some? && e.response.value.status == 401 && pathname != "/login"
    ensures UnauthorizedDecision(e, LogoutAllUrl, pathname).redirect
        <==> e.response.Some? && e.response.value.status == 401 && pathname != "/login"
  {
    LogoutUrlsAreNotAuthEndpoints();
  }

  /** `getAuthToken()` on a snapshot of `localStorage`. */
  function StoredToken(storage: map<string, string>): (t: Option<string>)
    ensures t.Some? <==> TokenKey in storage
    ensures t.Some? ==> t.value == storage[TokenKey]
  {
    if TokenKey in storage then Some(storage[TokenKey]) else None
  }

  /** `if (getAuthToken())`: a non-empty token is stored. */
  predicate HasToken(storage: map<string, string>) {
    TokenKey in storage && storage[TokenKey] != ""
  }

  /** The Authorization header is "Bearer <token>" exactly while a non-empty
      token is stored, and absent otherwise. */
  ghost predicate HeaderInStep(storage: map<string, string>, headers: map<string, string>) {
    if HasToken(storage) then
      AuthorizationHeader in headers && headers[AuthorizationHeader] == "Bearer " + storage[TokenKey]
    else
      AuthorizationHeader !in headers
  }

  /** `response.data && response.data.success && response.data.data &&
      response.data.data.token`: the token a login or registration answer
      carries, when it has that shape. */
  function IssuedToken(body: Value): (t: Option<Value>)
    ensures t.Some? <==>
      Truthy(body) && Truthy(Get(body, "success")) && Truthy(Get(body, "data"))
      && Truthy(Get(Get(body, "data"), "token"))
    ensures t.Some? ==> t.value == Get(Get(body, "data"), "token") && Truthy(t.value)
  {
    if Truthy(body) && Truthy(Get(body, "success")) && Truthy(Get(body, "data"))
       && Truthy(Get(Get(body, "data"), "token"))
    then Some(Get(Get(body, "data"), "token"))
    else None
  }

  /** The token check of `isAuthenticated` against a decoded payload: a
      truthy `exp`, in seconds, that is later than `now`, in milliseconds.
      Reading `exp` of a null payload throws and is caught. */
  predicate ExpiryValid(payload: Value, now: int) {
    if Nullish(payload) then false
    else
      var exp := Get(payload, "exp");
      Truthy(exp) &&
      match exp
      case Num(seconds) => seconds * 1000 > now
      case Bool(b) => 1000 > now
      case _ => false
  }

  /** `isAuthenticated()` with the stored token, the current time in
      milliseconds, and `decode` standing for `JSON.parse(atob(segment))`
      (`None` when either throws). It never throws. */
  function IsAuthenticated(stored: Option<string>, now: int, decode: string -> Option<Value>): (r: bool)
    ensures r ==> stored.Some? && stored.value != ""
    ensures r ==> Count(stored.value, '.') == 2 && |Split(stored.value, '.')| == 3
    ensures r ==> decode(Split(stored.value, '.')[1]).Some?
    ensures r ==> ExpiryValid(decode(Split(stored.value, '.')[1]).value, now)
  {
    match stored
    case None => false
    case Some(token) =>
      if token == "" then false
      else
        var parts := Split(token, '.');
        SplitCount(token, '.');
        if |parts| != 3 then false
        else
          match decode(parts[1])
          case None => false
          case Some(payload) => ExpiryValid(payload, now)
  }

  /** A well-formed token whose payload carries a numeric `exp`, beside any
      other claims, authenticates exactly until `exp` seconds; in particular
      one second before it does and one second after it does not. */
  lemma ExpiryDecides(header: string, payloadSegment: string, signature: string,
                      now: int, decode: string -> Option<Value>, fields: map<string, Value>, exp: int)
    requires '.' !in header && '.' !in payloadSegment && '.' !in signature
    requires exp != 0
    requires "exp" in fields && fields["exp"] == Num(exp)
    requires decode(payloadSegment) == Some(Obj(fields))
    ensures IsAuthenticated(Some(header + "." + payloadSegment + "." + signature), now, decode) <==> exp * 1000 > now
    ensures IsAuthenticated(Some(header + "." + payloadSegment + "." + signature), exp * 1000 - 1000, decode)
    ensures !IsAuthenticated(Some(header + "." + payloadSegment + "." + signature), exp * 1000 + 1000, decode)
  {
    var token := header + "." + payloadSegment + "." + signature;
    SplitThree(header, payloadSegment, signature);
    assert Split(token, '.') == [header, payloadSegment, signature];
    assert Get(Obj(fields), "exp") == Num(exp);
  }

  /** Splitting a part without '.' followed by '.' and the rest. */
  lemma {:induction false} SplitAfterPart(part: string, rest: string)
    requires '.' !in part
    ensures Split(part + "." + rest, '.') == [part] + Split(rest, '.')
  {
    if part == [] {
      assert part + "." + rest == ['.'] + rest;
      assert (['.'] + rest)[1..] == rest;
    } else {
      assert (part + "." + rest)[1..] == part[1..] + "." + rest;
      assert (part + "." + rest)[0] == part[0];
      SplitAfterPart(part[1..], rest);
      assert [part[0]] + part[1..] == part;
    }
  }

  lemma {:induction false} SplitWhole(s: string)
    requires '.' !in s
    ensures Split(s, '.') == [s]
  {
    if s != [] {
      SplitWhole(s[1..]);
      assert [s[0]] + s[1..] == s;
    }
  }

  lemma SplitThree(a: string, b: string, c: string)
    requires '.' !in a && '.' !in b && '.' !in c
    ensures Split(a + "." + b + "." + c, '.') == [a, b, c]
  {
    assert a + "." + b + "." + c == a + "." + (b + "." + c);
    SplitAfterPart(a, b + "." + c);
    SplitAfterPart(b, c);
    SplitWhole(c);
  }

  /** A token without exactly two dots is never accepted, whatever its
      payload would decode to: "not-a-jwt" is rejected. */
  lemma NotAJwtIsRejected(now: int, decode: string -> Option<Value>)
    ensures !IsAuthenticated(Some("not-a-jwt"), now, decode)
  {
    SplitWhole("not-a-jwt");
  }

  /** A token accepted now was accepted at every earlier time. */
  lemma AuthenticationIsMonotoneInTime(stored: Option<string>, now: int, earlier: int, decode: string -> Option<Value>)
    requires earlier <= now
    requires IsAuthenticated(stored, now, decode)
    ensures IsAuthenticated(stored, earlier, decode)
  {
    SplitCount(stored.value, '.');
  }

  /** `getCurrentUser()`: the parsed "user" entry, or `null` when it is
      missing, empty or does not parse. It does not look at the token. */
  function GetCurrentUser(storage: map<string, string>, parse: string -> Option<Value>): (u: Value)
    ensures !(UserKey in storage && storage[UserKey] != "") ==> u == Null
    ensures UserKey in storage && storage[UserKey] != "" && parse(storage[UserKey]).None? ==> u == Null
    ensures UserKey in storage && storage[UserKey] != "" && parse(storage[UserKey]).Some? ==> u == parse(storage[UserKey]).value
  {
    if UserKey in storage && storage[UserKey] != "" then
      match parse(storage[UserKey])
      case None => Null
      case Some(v) => v
    else Null
  }

  /** Removing the token leaves the stored profile readable: the profile is
      not an authentication decision. */
  lemma ProfileOutlivesToken(storage: map<string, string>, parse: string -> Option<Value>)
    ensures GetCurrentUser(storage - {TokenKey}, parse) == GetCurrentUser(storage, parse)
  {
    assert UserKey != TokenKey;
    assert (UserKey in storage - {TokenKey}) == (UserKey in storage);
  }

  /** The axios instance with its default headers, and `localStorage`. */
  class Client {
    /** `localStorage` */
    var storage: map<string, string>
    /** `api.defaults.headers.common` */
    var headers: map<string, string>
    /** The URL of every HTTP call made, in order. */
    var requests: seq<string>

    ghost predicate Valid()
      reads this
    {
      HeaderInStep(storage, headers)
    }

    /** Module start-up: the header is set from a token already stored. */
    constructor (initial: map<string, string>)
      ensures Valid()
      ensures storage == initial && requests == []
      ensures AuthorizationHeader in headers <==> HasToken(initial)
    {
      storage := initial;
      requests := [];
      if TokenKey in initial && initial[TokenKey] != "" {
        headers := map[AuthorizationHeader := "Bearer " + initial[TokenKey]];
      } else {
        headers := map[];
      }
    }

    /** `setAuthToken(token)`: a truthy token is stored (as a string) and
        sent as "Bearer <token>"; a falsy one removes both. */
    method SetAuthToken(token: Value)
      modifies this
      ensures Valid()
      ensures Truthy(token) ==> storage == old(storage)[TokenKey := ToStr(token)]
      ensures Truthy(token) ==> headers == old(headers)[AuthorizationHeader := "Bearer " + ToStr(token)]
      ensures !Truthy(token) ==> storage == old(storage) - {TokenKey}
      ensures !Truthy(token) ==> headers == old(headers) - {AuthorizationHeader}
      ensures requests == old(requests)
    {
      if Truthy(token) {
        storage := storage[TokenKey := ToStr(token)];
        headers := headers[AuthorizationHeader := "Bearer " + ToStr(token)];
      } else {
        storage := storage - {TokenKey};
        headers := headers - {AuthorizationHeader};
      }
    }

    /** The response interceptor for a rejected call to `url`: on a 401 from
        anything but an authentication endpoint it clears the token and,
        unless the browser already shows "/login", navigates there. The
        rejection itself is passed on unchanged by the caller. */
    method OnResponseError(url: string, e: HttpError, router: App.Router)
      requires Valid() && router.Valid()
      modifies this, router
      ensures Valid() && router.Valid()
      ensures requests == old(requests)
      ensures var d := UnauthorizedDecision(e, url, old(router.Pathname()));
        && (d.clearToken ==> storage == old(storage) - {TokenKey} && headers == old(headers) - {AuthorizationHeader})
        && (!d.clearToken ==> storage == old(storage) && headers == old(headers))
        && (d.redirect ==> (router.currentPage == "/login" && router.index == old(router.index) + 1
              && router.entries == old(router.entries[..router.index + 1]) + ["/login"]))
        && (!d.redirect ==> unchanged(router))
    {
      var d := UnauthorizedDecision(e, url, router.Pathname());
      if d.clearToken {
        SetAuthToken(Null);
        if router.Pathname() != "/login" {
          router.Navigate("/login");
        }
      }
    }

    /** One HTTP call through the instance: recorded, and a rejection goes
        through the response interceptor before it reaches the caller. */
    method Request(url: string, outcome: Transport, router: App.Router) returns (r: Transport)
      requires Valid() && router.Valid()
      modifies this, router
      ensures Valid() && router.Valid()
      ensures r == outcome
      ensures requests == old(requests) + [url]
      ensures outcome.Answered? ==> storage == old(storage) && headers == old(headers) && unchanged(router)
      ensures outcome.Rejected? ==>
        var d := UnauthorizedDecision(outcome.error, url, old(router.Pathname()));
        && (d.clearToken ==> storage == old(storage) - {TokenKey} && headers == old(headers) - {AuthorizationHeader})
        && (!d.clearToken ==> storage == old(storage) && headers == old(headers))
        && (d.redirect ==> (router.currentPage == "/login" && router.index == old(router.index) + 1
              && router.entries == old(router.entries[..router.index + 1]) + ["/login"]))
        && (!d.redirect ==> unchanged(router))
    {
      requests := requests + [url];
      if outcome.Rejected? {
        OnResponseError(url, outcome.error, router);
      }
      r := outcome;
    }

    /** The shared body of `login` and `register`: store the issued token
        when the answer has the expected shape, and settle. */
    method Authenticate(url: string, outcome: Transport, router: App.Router) returns (r: Settled)
      requires url == LoginUrl || url == RegisterUrl
      requires Valid() && router.Valid()
      modifies this, router
      ensures Valid() && router.Valid() && unchanged(router)
      ensures requests == old(requests) + [url]
      ensures outcome.Answered? ==> r == Returned(outcome.body)
      ensures outcome.Answered? && IssuedToken(outcome.body).Some? ==>
        storage == old(storage)[TokenKey := ToStr(IssuedToken(outcome.body).value)]
        && headers == old(headers)[AuthorizationHeader := "Bearer " + ToStr(IssuedToken(outcome.body).value)]
      ensures outcome.Answered? && IssuedToken(outcome.body).None? ==> storage == old(storage) && headers == old(headers)
      ensures outcome.Rejected? ==> r == Threw(HandleApiError(outcome.error))
      ensures outcome.Rejected? ==> storage == old(storage) && headers == old(headers)
    {
      LoginUrlIsAuthEndpoint();
      var response := Request(url, outcome, router);
      if response.Rejected? {
        return Threw(HandleApiError(response.error));
      }
      var token := IssuedToken(response.body);
      if token.Some? {
        SetAuthToken(token.value);
      }
      r := Returned(response.body);
    }

    /** `authAPI.login(email, password)`; the credentials only travel in the
        request body, which the model does not carry. */
    method Login(email: string, password: string, outcome: Transport, router: App.Router) returns (r: Settled)
      requires Valid() && router.Valid()
      modifies this, router
      ensures Valid() && router.Valid() && unchanged(router)
      ensures requests == old(requests) + [LoginUrl]
      ensures outcome.Answered? ==> r == Returned(outcome.body)
      ensures outcome.Answered? && IssuedToken(outcome.body).Some? ==>
        storage == old(storage)[TokenKey := ToStr(IssuedToken(outcome.body).value)]
        && headers == old(headers)[AuthorizationHeader := "Bearer " + ToStr(IssuedToken(outcome.body).value)]
      ensures outcome.Answered? && IssuedToken(outcome.body).None? ==> storage == old(storage) && headers == old(headers)
      ensures outcome.Rejected? ==> r == Threw(HandleApiError(outcome.error))
      ensures outcome.Rejected? ==> storage == old(storage) && headers == old(headers)
    {
      r := Authenticate(LoginUrl, outcome, router);
    }

    /** `authAPI.register(userData)` */
    method Register(outcome: Transport, router: App.Router) returns (r: Settled)
      requires Valid() && router.Valid()
      modifies this, router
      ensures Valid() && router.Valid() && unchanged(router)
      ensures requests == old(requests) + [RegisterUrl]
      ensures outcome.Answered? ==> r == Returned(outcome.body)
      ensures outcome.Answered? && IssuedToken(outcome.body).Some? ==>
        storage == old(storage)[TokenKey := ToStr(IssuedToken(outcome.body).value)]
        && headers == old(headers)[AuthorizationHeader := "Bearer " + ToStr(IssuedToken(outcome.body).value)]
      ensures outcome.Answered? && IssuedToken(outcome.body).None? ==> storage == old(storage) && headers == old(headers)
      ensures outcome.Rejected? ==> r == Threw(HandleApiError(outcome.error))
      ensures outcome.Rejected? ==> storage == old(storage) && headers == old(headers)
    {
      r := Authenticate(RegisterUrl, outcome, router);
    }

    /** `authAPI.logout()`: calls the endpoint only when a token is stored,
        and clears the token on every path. */
    method Logout(outcome: Transport, router: App.Router) returns (r: Settled)
      requires Valid() && router.Valid()
      modifies this, router
      ensures Valid() && router.Valid()
      ensures storage == old(storage) - {TokenKey}
      ensures headers == old(headers) - {AuthorizationHeader}
      ensures requests == old(requests) + (if HasToken(old(storage)) then [LogoutUrl] else [])
      ensures !HasToken(old(storage)) || outcome.Answered? ==>
        r == Returned(Obj(map["success" := Bool(true)])) && unchanged(router)
      ensures HasToken(old(storage)) && outcome.Rejected? ==> r == Threw(HandleApiError(outcome.error))
      ensures HasToken(old(storage)) && outcome.Rejected? ==>
        var d := UnauthorizedDecision(outcome.error, LogoutUrl, old(router.Pathname()));
        && (d.redirect ==> (router.currentPage == "/login" && router.index == old(router.index) + 1
              && router.entries == old(router.entries[..router.index + 1]) + ["/login"]))
        && (!d.redirect ==> unchanged(router))
    {
      if TokenKey in storage && storage[TokenKey] != "" {
        var response := Request(LogoutUrl, outcome, router);
        if response.Rejected? {
          SetAuthToken(Null);
          return Threw(HandleApiError(response.error));
        }
      }
      SetAuthToken(Null);
      r := Returned(Obj(map["success" := Bool(true)]));
    }

    /** `authAPI.logoutAll()`: always calls the endpoint and clears the token
        on both paths. */
    method LogoutAll(outcome: Transport, router: App.Router) returns (r: Settled)
      requires Valid() && router.Valid()
      modifies this, router
      ensures Valid() && router.Valid()
      ensures storage == old(storage) - {TokenKey}
      ensures headers == old(headers) - {AuthorizationHeader}
      ensures requests == old(requests) + [LogoutAllUrl]
      ensures outcome.Answered? ==> r == Returned(outcome.body) && unchanged(router)
      ensures outcome.Rejected? ==> r == Threw(HandleApiError(outcome.error))
      ensures outcome.Rejected? ==>
        var d := UnauthorizedDecision(outcome.error, LogoutAllUrl, old(router.Pathname()));
        && (d.redirect ==> (router.currentPage == "/login" && router.index == old(router.index) + 1
              && router.entries == old(router.entries[..router.index + 1]) + ["/login"]))
        && (!d.redirect ==> unchanged(router))
    {
      var response := Request(LogoutAllUrl, outcome, router);
      SetAuthToken(Null);
      if response.Rejected? {
        return Threw(HandleApiError(response.error));
      }
      r := Returned(response.body);
    }
  }

  /** After either logout the check fails at every time, whatever the
      decoder: the session is closed locally even when the server call
      failed. */
  lemma LoggedOutIsNotAuthenticated(storage: map<string, string>, now: int, decode: string -> Option<Value>)
    ensures !IsAuthenticated(StoredToken(storage - {TokenKey}), now, decode)
  {
  }
}
