/** The session authenticator: logs in to the router's LuCI form, caches
    the `sysauth` token for one hour, and attaches it to requests as a
    Cookie header. The clock and the router's replies are parameters. */
module Auth {
  import opened Common
  import opened Sysauth

  /** A token is trusted for one hour (in seconds) after the login. */
  const TokenLifetime: int := 3600

  const InvalidCredentials: string := "Invalid credentials or connection failed"
  const NoTokenInReply: string := "Failed to get authentication token"
  const ConnectFailed: string := "Failed to connect to MWAN3"

  /** The reply to the login POST: its status, its Set-Cookie values in
      header order and the clock reading taken when the reply is handled;
      or the exception the request raised. */
  datatype LoginReply =
    | LoginResponse(status: nat, setCookies: seq<string>, clock: int)
    | LoginRaised(error: Exception)

  /** The reply to the GET of the MWAN3 status page. */
  datatype ProbeReply =
    | ProbeResponse(status: nat)
    | ProbeRaised(error: Exception)

  /** The cached session: the token and its expiry time. */
  datatype Session = Session(token: Option<string>, expiry: Option<int>)

  const NoSession: Session := Session(None, None)

  /** A value the pattern can yield: non-empty and free of ';'. */
  predicate TokenShaped(t: string) {
    t != [] && forall k :: 0 <= k < |t| ==> t[k] != ';'
  }

  /** The cache invariant: a token and its expiry are set and cleared
      together, and a cached token is one the pattern produced. */
  predicate WellFormed(s: Session) {
    (s.token.Some? <==> s.expiry.Some?) && (s.token.Some? ==> TokenShaped(s.token.value))
  }

  /** The cache may be used at time `now`: a non-empty token, an expiry,
      and `now` strictly before it. */
  predicate Reusable(s: Session, now: int) {
    s.token.Some? && s.token.value != [] && s.expiry.Some? && now < s.expiry.value
  }

  /** One login round trip: the token, or what `_get_token` raises. */
  function Login(reply: LoginReply): (r: Result<string>)
    ensures r.Ok? <==> reply.LoginResponse? && reply.status == 302 && FirstToken(reply.setCookies).Some?
    ensures r.Ok? ==> TokenShaped(r.value) && Some(r.value) == FirstToken(reply.setCookies)
    ensures reply.LoginRaised? ==>
      r == if reply.error.kind == ClientError then Err(Exception(ValueError, ConnectFailed)) else Err(reply.error)
    ensures reply.LoginResponse? && reply.status != 302 ==> r == Err(Exception(ValueError, InvalidCredentials))
    ensures reply.LoginResponse? && reply.status == 302 && FirstToken(reply.setCookies).None? ==>
      r == Err(Exception(ValueError, NoTokenInReply))
  {
    match reply
    case LoginRaised(e) =>
      if e.kind == ClientError then Err(Exception(ValueError, ConnectFailed)) else Err(e)
    case LoginResponse(status, cookies, _) =>
      if status != 302 then Err(Exception(ValueError, InvalidCredentials))
      else
        match FirstToken(cookies)
        case Some(t) => Ok(t)
        case None => Err(Exception(ValueError, NoTokenInReply))
  }

  /** `_get_token` as a transition of the cached session: the token or the
      exception, and the cache afterwards. */
  function TokenStep(s: Session, now: int, reply: LoginReply): (r: (Result<string>, Session))
    ensures Reusable(s, now) ==> r == (Ok(s.token.value), s)
    ensures !Reusable(s, now) ==> r.0 == Login(reply)
    ensures r.0.Err? ==> r.1 == s
    ensures r.0.Ok? && !Reusable(s, now) ==>
      reply.LoginResponse? && r.1 == Session(Some(r.0.value), Some(reply.clock + TokenLifetime))
    ensures WellFormed(s) ==> WellFormed(r.1) && (r.0.Ok? ==> TokenShaped(r.0.value))
  {
    if Reusable(s, now) then (Ok(s.token.value), s)
    else
      match Login(reply)
      case Ok(t) => (Ok(t), Session(Some(t), Some(reply.clock + TokenLifetime)))
      case Err(e) => (Err(e), s)
  }

  /** After a successful login the token is reused, whatever the router
      would answer, at every time before the login clock plus one hour,
      and at no time from then on. */
  lemma FreshTokenLifetime(s: Session, now: int, reply: LoginReply, later: int, next: LoginReply)
    requires !Reusable(s, now) && TokenStep(s, now, reply).0.Ok?
    ensures reply.LoginResponse?
    ensures var (t, s') := TokenStep(s, now, reply);
      if later < reply.clock + TokenLifetime then TokenStep(s', later, next) == (t, s')
      else TokenStep(s', later, next).0 == Login(next)
  {
  }

  /** Any login status other than 302 is a credential rejection, and the
      cache stays as it was. */
  lemma LoginRejected(s: Session, now: int, status: nat, cookies: seq<string>, clock: int)
    requires !Reusable(s, now) && status != 302
    ensures TokenStep(s, now, LoginResponse(status, cookies, clock))
         == (Err(Exception(ValueError, InvalidCredentials)), s)
  {
  }

  /** A 302 none of whose cookies matches `sysauth=([^;]+)` fails, and
      the cache stays as it was. */
  lemma RedirectWithoutToken(s: Session, now: int, cookies: seq<string>, clock: int)
    requires !Reusable(s, now)
    requires forall k :: 0 <= k < |cookies| ==> SysauthToken(cookies[k]).None?
    ensures TokenStep(s, now, LoginResponse(302, cookies, clock))
         == (Err(Exception(ValueError, NoTokenInReply)), s)
  {
  }

  /** A transport failure during login is reported as a connection
      failure; any other exception passes through with its own message. */
  lemma LoginTransportFailure(s: Session, now: int, e: Exception)
    requires !Reusable(s, now)
    ensures TokenStep(s, now, LoginRaised(e)).1 == s
    ensures TokenStep(s, now, LoginRaised(e)).0
         == if e.kind == ClientError then Err(Exception(ValueError, ConnectFailed)) else Err(e)
  {
  }

  /** `get_headers`: the single Cookie header carrying the token. */
  function Headers(token: string): map<string, string> {
    map["Cookie" := CookieName + token]
  }

  /** `get_headers` as a function of the cache: the Cookie header for the
      token `_get_token` gives, or the exception it raised. */
  function HeadersResult(s: Session, now: int, reply: LoginReply): (r: Result<map<string, string>>)
    ensures r.Ok? <==> TokenStep(s, now, reply).0.Ok?
    ensures r.Ok? ==> r.value.Keys == {"Cookie"} && r.value["Cookie"] == CookieName + TokenStep(s, now, reply).0.value
    ensures r.Err? ==> r.error == TokenStep(s, now, reply).0.error
  {
    match TokenStep(s, now, reply).0
    case Ok(t) => Ok(Headers(t))
    case Err(e) => Err(e)
  }

  /** On a well-formed cache, whether the token was cached or just
      obtained by a login, the router reading the Cookie header with the
      same pattern finds exactly the token `_get_token` gave. */
  lemma HeadersCarryToken(s: Session, now: int, reply: LoginReply)
    requires WellFormed(s) && HeadersResult(s, now, reply).Ok?
    ensures SysauthToken(HeadersResult(s, now, reply).value["Cookie"]) == Some(TokenStep(s, now, reply).0.value)
  {
    var t := TokenStep(s, now, reply).0.value;
    TokenRoundTrip(t, []);
    assert CookieName + t + [] == CookieName + t;
  }

  const ConnectionSuccessful: string := "Connection successful"
  const AuthenticationFailed: string := "Authentication failed"
  const ConnectionErrorPrefix: string := "Connection error: "

  /** `validate_connection` as a transition: the outcome, the message and
      the cache afterwards. */
  function ValidateStep(s: Session, now: int, login: LoginReply, probe: ProbeReply)
    : (r: (bool, string, Session))
    ensures r.0 <==> TokenStep(s, now, login).0.Ok? && probe == ProbeResponse(200)
    ensures r.0 ==> r.1 == ConnectionSuccessful
    ensures TokenStep(s, now, login).0.Ok? && probe.ProbeResponse? && probe.status in {401, 403} ==>
      r == (false, AuthenticationFailed, NoSession) && forall t :: !Reusable(r.2, t)
    ensures !(TokenStep(s, now, login).0.Ok? && probe.ProbeResponse? && probe.status in {401, 403}) ==>
      r.2 == TokenStep(s, now, login).1
    ensures TokenStep(s, now, login).0.Ok? && probe.ProbeResponse? && probe.status !in {200, 401, 403} ==>
      !r.0 && r.1 == "Failed to access MWAN3 status page (HTTP " + DecimalString(probe.status) + ")"
    ensures TokenStep(s, now, login).0.Err? ==>
      !r.0 && r.1 == ConnectionErrorPrefix + TokenStep(s, now, login).0.error.message
    ensures TokenStep(s, now, login).0.Ok? && probe.ProbeRaised? ==>
      !r.0 && r.1 == ConnectionErrorPrefix + probe.error.message
    ensures WellFormed(s) ==> WellFormed(r.2)
  {
    var (t, s1) := TokenStep(s, now, login);
    match t
    case Err(e) => (false, ConnectionErrorPrefix + e.message, s1)
    case Ok(_) =>
      match probe
      case ProbeRaised(e) => (false, ConnectionErrorPrefix + e.message, s1)
      case ProbeResponse(status) =>
        if status == 200 then (true, ConnectionSuccessful, s1)
        else if status == 401 || status == 403 then (false, AuthenticationFailed, NoSession)
        else (false, "Failed to access MWAN3 status page (HTTP " + DecimalString(status) + ")", s1)
  }

  /** After `validate_connection` saw 401 or 403, the next `_get_token`
      logs in again, at any time. */
  lemma RejectedProbeForcesLogin(s: Session, now: int, login: LoginReply, status: nat,
                                 later: int, next: LoginReply)
    requires TokenStep(s, now, login).0.Ok? && status in {401, 403}
    ensures TokenStep(ValidateStep(s, now, login, ProbeResponse(status)).2, later, next).0 == Login(next)
  {
  }

  /** The loop of `_get_token` over the Set-Cookie values: the first
      value, in header order, that contains `sysauth=` and matches the
      pattern gives the token. */
  method ScanSetCookies(cookies: seq<string>) returns (found: Option<string>)
    ensures found == FirstToken(cookies)
  {
    var i := 0;
    while i < |cookies|
      invariant 0 <= i <= |cookies|
      invariant FirstToken(cookies) == FirstToken(cookies[i..])
    {
      var cookie := cookies[i];
      if Contains(cookie, CookieName) {
        var m := SysauthToken(cookie);
        if m.Some? {
          return m;
        }
      }
      assert cookies[i..][1..] == cookies[i + 1..];
      i := i + 1;
    }
    return None;
  }

  /** `MWAN3Auth`: the credentials, the cached token and its expiry, and
      whether an HTTP session is held open. */
  class Authenticator {
    const host: string
    const username: string
    const password: string
    var token: Option<string>
    var expiry: Option<int>
    var sessionOpen: bool

    function Cached(): Session
      reads this
    {
      Session(token, expiry)
    }

    /** The cache invariant holds for the fields. */
    predicate Valid()
      reads this
    {
      WellFormed(Cached())
    }

    constructor (host: string, username: string, password: string)
      ensures this.host == host && this.username == username && this.password == password
      ensures Cached() == NoSession && !sessionOpen
      ensures Valid()
    {
      this.host := host;
      this.username := username;
      this.password := password;
      token := None;
      expiry := None;
      sessionOpen := false;
    }

    /** `_get_session`: opens a session unless one is open. */
    method OpenSession()
      modifies this`sessionOpen
      ensures sessionOpen
    {
      if !sessionOpen {
        sessionOpen := true;
      }
    }

    /** `_get_token`: the cached token while it is reusable, otherwise a
      login whose token, on success, is cached for one hour. */
    method GetToken(now: int, reply: LoginReply) returns (r: Result<string>)
      modifies this
      requires Valid()
      ensures Valid()
      ensures (r, Cached()) == TokenStep(old(Cached()), now, reply)
      ensures sessionOpen == (old(sessionOpen) || !Reusable(old(Cached()), now))
    {
      if token.Some? && token.value != [] && expiry.Some? && now < expiry.value {
        return Ok(token.value);
      }
      OpenSession();
      match reply {
        case LoginRaised(e) =>
          r := if e.kind == ClientError then Err(Exception(ValueError, ConnectFailed)) else Err(e);
        case LoginResponse(status, cookies, clock) =>
          if status != 302 {
            return Err(Exception(ValueError, InvalidCredentials));
          }
          var found := ScanSetCookies(cookies);
          match found {
            case Some(t) =>
              token := Some(t);
              expiry := Some(clock + TokenLifetime);
              r := Ok(t);
            case None =>
              r := Err(Exception(ValueError, NoTokenInReply));
          }
      }
    }

    /** `get_headers`: the Cookie header for the token `_get_token` gives,
        or the exception it raised. */
    method GetHeaders(now: int, reply: LoginReply) returns (r: Result<map<string, string>>)
      modifies this
      requires Valid()
      ensures Valid()
      ensures Cached() == TokenStep(old(Cached()), now, reply).1
      ensures r == HeadersResult(old(Cached()), now, reply)
      ensures sessionOpen == (old(sessionOpen) || !Reusable(old(Cached()), now))
    {
      var t := GetToken(now, reply);
      match t {
        case Ok(tok) => r := Ok(Headers(tok));
        case Err(e) => r := Err(e);
      }
    }

    /** `validate_connection`: login if needed, then probe the status page;
        a 401 or 403 clears the cache. */
    method ValidateConnection(now: int, login: LoginReply, probe: ProbeReply)
      returns (ok: bool, message: string)
      modifies this
      requires Valid()
      ensures Valid()
      ensures (ok, message, Cached()) == ValidateStep(old(Cached()), now, login, probe)
      ensures sessionOpen
    {
      OpenSession();
      var headers := GetHeaders(now, login);
      if headers.Err? {
        return false, ConnectionErrorPrefix + headers.error.message;
      }
      match probe {
        case ProbeRaised(e) =>
          ok, message := false, ConnectionErrorPrefix + e.message;
        case ProbeResponse(status) =>
          if status == 200 {
            ok, message := true, ConnectionSuccessful;
          } else if status == 401 || status == 403 {
            token := None;
            expiry := None;
            ok, message := false, AuthenticationFailed;
          } else {
            ok, message := false, "Failed to access MWAN3 status page (HTTP " + DecimalString(status) + ")";
          }
      }
    }

    /** `close`: releases the session; the cached token survives. */
    method Close()
      modifies this`sessionOpen
      ensures !sessionOpen
      ensures Cached() == old(Cached())
    {
      if sessionOpen {
        sessionOpen := false;
      }
    }
  }
}
