/** The login decision procedure, with every server reply taken as an input. */
module LoginFlow {
  import opened Wrappers
  import opened PyJson
  import opened Envelope
  import opened CsrfToken
  import opened Session
  import opened Gateway

  /** The one trust level that lets the client skip two-factor verification. */
  const UserRemembered: Json := Str("USER_REMEMBERED")
  /** `requests.codes.ok`. */
  const StatusOk: int := 200

  /** A reply whose status the client inspects, with its decoded body. */
  datatype HttpReply = HttpReply(status: int, body: Json)

  /** Everything the portal answers during one `login` call: the home page
      text, the identify-user reply and the password-confirmation body. */
  datatype LoginReplies = LoginReplies(homePage: string, identify: HttpReply, password: Json)

  /** How a `login` call ends: it returns normally, or raises one of the
      client's exceptions, or lets a built-in exception escape. A
      `LoginFailedException()` raised without argument has no message. */
  datatype LoginOutcome =
    | LoggedIn
    | RequireTwoFactor
    | LoginFailed(message: Option<Json>)
    | Raised(error: PyError)

  /** The client after the call, how the call ended, and the requests it sent
      in order. */
  datatype LoginStep = LoginStep(state: ClientState, outcome: LoginOutcome, requests: seq<Request>)

  /** The scraped home-page token as Python holds it: the string, or None. */
  function ScrapedToken(homePage: string): (v: Json)
    ensures v == Null <==> ExtractCsrf(homePage).None?
    ensures v != Null ==> v == Str(ExtractCsrf(homePage).value) && Truthy(v)
  {
    match ExtractCsrf(homePage)
    case Some(t) => Str(t)
    case None => Null
  }

  /** The identify-user form, carrying the scraped token (possibly None). */
  function IdentifyPayload(username: string, csrf: Json): (p: Payload)
    ensures p.Keys == {"username", "csrf", "apiClient", "bindDevice", "skipLinkAccount",
                       "redirectTo", "skipFirstUse", "referrerId"}
    ensures p["csrf"] == csrf && p["username"] == Str(username) && p["apiClient"] == ApiClient
  {
    map[
      "username" := Str(username),
      "csrf" := csrf,
      "apiClient" := ApiClient,
      "bindDevice" := Str("false"),
      "skipLinkAccount" := Str("false"),
      "redirectTo" := Str(""),
      "skipFirstUse" := Str(""),
      "referrerId" := Str("")
    ]
  }

  /** `__identify_user` once its request is answered: the envelope's token and
      trust level on status 200, the pair (None, None) on any other status. */
  function IdentifyUser(reply: HttpReply): (r: Result<(Json, Json), PyError>)
    ensures reply.status != StatusOk ==> r == Ok((Null, Null))
    ensures r.Ok? && reply.status == StatusOk ==>
      r.value == (HeaderField(reply.body, CsrfKey), HeaderField(reply.body, AuthLevelKey))
    ensures reply.status == StatusOk && WellFormed(reply.body) ==> r.Ok?
    ensures r.Err? ==> reply.status == StatusOk && r.error == TypeError
  {
    if reply.status == StatusOk then
      var newCsrf :- GetSpHeaderValue(reply.body, CsrfKey);
      var authLevel :- GetSpHeaderValue(reply.body, AuthLevelKey);
      Ok((newCsrf, authLevel))
    else
      Ok((Null, Null))
  }

  /** Identification gave a truthy token and a truthy trust level. */
  predicate Identified(replies: LoginReplies) {
    var id := IdentifyUser(replies.identify);
    id.Ok? && Truthy(id.value.0) && Truthy(id.value.1)
  }

  /** Identification read the envelope but one of the two values is None or
      otherwise falsy. */
  predicate Unidentified(replies: LoginReplies) {
    var id := IdentifyUser(replies.identify);
    id.Ok? && !(Truthy(id.value.0) && Truthy(id.value.1))
  }

  /** Identified on a remembered device: the password is confirmed directly. */
  predicate Remembered(replies: LoginReplies) {
    Identified(replies) && IdentifyUser(replies.identify).value.1 == UserRemembered
  }

  /** Lines 60-62 of `login`: the password reply fails the login only when its
      `success` compares equal to False; a missing `success` lets it pass. */
  function PasswordOutcome(body: Json): (r: LoginOutcome)
    ensures r != RequireTwoFactor
    ensures r == LoggedIn <==> GetSpHeaderValue(body, SuccessKey).Ok? && !EqualsFalse(HeaderField(body, SuccessKey))
    ensures r.LoginFailed? ==> r.message.Some? && EqualsFalse(HeaderField(body, SuccessKey))
    ensures r.LoginFailed? ==> GetErrorValue(body) == Ok(r.message.value)
    ensures GetSpHeaderValue(body, SuccessKey).Err? ==> r == Raised(TypeError)
    ensures GetSpHeaderValue(body, SuccessKey).Ok? && EqualsFalse(HeaderField(body, SuccessKey)) ==>
      r == (if GetErrorValue(body).Ok? then LoginFailed(Some(GetErrorValue(body).value))
            else Raised(GetErrorValue(body).error))
    ensures WellFormed(body) && HeaderField(body, SuccessKey) == Null ==> r == LoggedIn
    ensures WellFormed(body) && HeaderField(body, SuccessKey) == Bool(true) ==> r == LoggedIn
    ensures WellFormed(body) && HeaderField(body, SuccessKey) == Bool(false) && HasMessage(body)
            ==> r == LoginFailed(Some(Message(body)))
    ensures WellFormed(body) && HeaderField(body, SuccessKey) == Bool(false) && HeaderField(body, ErrorsKey) == Null
            ==> r == Raised(TypeError)
  {
    match GetSpHeaderValue(body, SuccessKey)
    case Err(e) => Raised(e)
    case Ok(success) =>
      if EqualsFalse(success) then
        match GetErrorValue(body)
        case Ok(message) => LoginFailed(Some(message))
        case Err(e) => Raised(e)
      else LoggedIn
  }

  /** `login`. The home page and identify-user are always requested: a page
      without a token does not stop the call (line 51 builds an exception but
      never raises it), identification simply goes out with None. Only a
      falsy token or trust level fails the login before the token is stored;
      otherwise the new token is stored before any further outcome, an
      unremembered trust level asks for two-factor verification without
      confirming the password, and a remembered one confirms the password
      with the new token. The cookie store is never touched. */
  function Login(st: ClientState, username: string, password: string, replies: LoginReplies): (r: LoginStep)
    ensures 2 <= |r.requests| <= 3
    ensures r.requests[0] == Get(IdentEndpoint)
    ensures r.requests[1] == PostTo("/login/identifyUser", IdentifyPayload(username, ScrapedToken(replies.homePage)))
    ensures r.state.cookies == st.cookies
    ensures r.state != st ==> Identified(replies)
    ensures IdentifyUser(replies.identify).Err? ==>
      r.outcome == Raised(TypeError) && r.state == st && |r.requests| == 2
    ensures Unidentified(replies) <==> r.outcome == LoginFailed(None)
    ensures Unidentified(replies) ==> r.state == st && |r.requests| == 2
    ensures Identified(replies) ==>
      r.state == st.(csrf := IdentifyUser(replies.identify).value.0) && Truthy(r.state.csrf)
    ensures r.outcome == RequireTwoFactor <==> Identified(replies) && !Remembered(replies)
    ensures r.outcome == RequireTwoFactor ==> |r.requests| == 2
    ensures |r.requests| == 3 <==> Remembered(replies)
    ensures |r.requests| == 3 ==> r.requests[2] == AuthenticatePassword(r.state, password)
    ensures Remembered(replies) ==> r.outcome == PasswordOutcome(replies.password)
    ensures r.outcome == LoggedIn ==> Remembered(replies) && Truthy(r.state.csrf)
  {
    var home := Get(IdentEndpoint);
    var identify := PostTo("/login/identifyUser", IdentifyPayload(username, ScrapedToken(replies.homePage)));
    match IdentifyUser(replies.identify)
    case Err(e) => LoginStep(st, Raised(e), [home, identify])
    case Ok((csrf, authLevel)) =>
      if Truthy(csrf) && Truthy(authLevel) then
        var st' := st.(csrf := csrf);
        if authLevel != UserRemembered then
          LoginStep(st', RequireTwoFactor, [home, identify])
        else
          LoginStep(st', PasswordOutcome(replies.password), [home, identify, AuthenticatePassword(st', password)])
      else
        LoginStep(st, LoginFailed(None), [home, identify])
  }

  /** Only the identify-user request depends on the home page: the state and
      outcome of a login are the same whether or not the page held a token. */
  lemma OutcomeIgnoresHomePage(st: ClientState, username: string, password: string,
                               replies: LoginReplies, otherPage: string)
    ensures Login(st, username, password, replies).state
         == Login(st, username, password, replies.(homePage := otherPage)).state
    ensures Login(st, username, password, replies).outcome
         == Login(st, username, password, replies.(homePage := otherPage)).outcome
  {
  }

  /** An identify-user envelope carrying a token and a trust level. */
  function IdentifyEnvelope(csrf: string, authLevel: string): Json {
    Obj(map[SpHeaderKey := Obj(map[CsrfKey := Str(csrf), AuthLevelKey := Str(authLevel)])])
  }

  /** A remembered device goes straight to password confirmation; a reply of
      `success: true` ends the login normally with the identify token stored. */
  lemma RememberedDeviceLogsIn(home: string, username: string, password: string)
    ensures var r := Login(InitialState, username, password,
                           LoginReplies(home, HttpReply(200, IdentifyEnvelope("def-456", "USER_REMEMBERED")),
                                        Obj(map[SpHeaderKey := Obj(map[SuccessKey := Bool(true)])])));
            r.outcome == LoggedIn && r.state.csrf == Str("def-456") && |r.requests| == 3
  {
  }

  /** Any other trust level asks for two-factor verification and sends no
      password. */
  lemma UnknownTrustLevelNeedsTwoFactor(home: string, username: string, password: string, body: Json)
    ensures var r := Login(InitialState, username, password,
                           LoginReplies(home, HttpReply(200, IdentifyEnvelope("T1", "OTHER")), body));
            r.outcome == RequireTwoFactor && r.state.csrf == Str("T1") && |r.requests| == 2
  {
  }

  /** A rejected password carries the server's first error message; without
      an error list the TypeError of `None[0]` escapes instead. */
  lemma RejectedPasswordMessage()
    ensures PasswordOutcome(Obj(map[SpHeaderKey := Obj(map[
              SuccessKey := Bool(false),
              ErrorsKey := Arr([Obj(map[MessageKey := Str("bad password")])])])]))
         == LoginFailed(Some(Str("bad password")))
    ensures PasswordOutcome(Obj(map[SpHeaderKey := Obj(map[SuccessKey := Bool(false)])]))
         == Raised(TypeError)
  {
  }
}
