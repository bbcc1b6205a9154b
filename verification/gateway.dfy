/** The requests the client sends, captured as values: every call to the
    portal becomes a `Request` instead of going over the network. */
module Gateway {
  import opened Wrappers
  import opened PyJson
  import opened Session

  const BaseUrl: string := "https://home.personalcapital.com"
  /** The home page scraped for the first token. */
  const IdentEndpoint: string := BaseUrl + "/page/login/goHome"
  /** Prefix of every API call. */
  const ApiEndpoint: string := BaseUrl + "/api"
  /** Client identifier sent with every payload the client builds itself. */
  const ApiClient: Json := Str("WEB")

  type Payload = map<string, Json>

  datatype Request = Get(url: string) | Post(url: string, payload: Payload)

  /** `post`: the caller's fields go out exactly as given, to the API path. */
  function PostTo(endpoint: string, data: Payload): (r: Request)
    ensures r.Post? && r.url == ApiEndpoint + endpoint
    ensures r.payload == data
  {
    Post(ApiEndpoint + endpoint, data)
  }

  /** The fields `fetch` adds under the caller's own. */
  function FetchDefaults(csrf: Json): Payload {
    map["lastServerChangeId" := Str("-1"), "csrf" := csrf, "apiClient" := ApiClient]
  }

  /** `fetch`: the defaults overridden by the caller's data. Caller keys win,
      every default the caller leaves alone is sent, and nothing else is. */
  function Fetch(st: ClientState, endpoint: string, data: Option<Payload>): (r: Request)
    ensures r.Post? && r.url == ApiEndpoint + endpoint
    ensures data.None? ==> r.payload.Keys == {"lastServerChangeId", "csrf", "apiClient"}
    ensures data.Some? ==> r.payload.Keys == {"lastServerChangeId", "csrf", "apiClient"} + data.value.Keys
    ensures data.Some? ==> forall k :: k in data.value ==> r.payload[k] == data.value[k]
    ensures data.None? || "csrf" !in data.value ==> r.payload["csrf"] == st.csrf
    ensures data.None? || "apiClient" !in data.value ==> r.payload["apiClient"] == ApiClient
    ensures data.None? || "lastServerChangeId" !in data.value ==> r.payload["lastServerChangeId"] == Str("-1")
  {
    var payload := FetchDefaults(st.csrf);
    PostTo(endpoint, if data.None? then payload else payload + data.value)
  }

  /** `fetch` is `post` with the defaults merged in: once the caller's data
      names every default key, nothing of the defaults is left and `fetch`
      sends exactly what `post` would. */
  lemma FetchOverridingDefaultsIsPost(st: ClientState, endpoint: string, data: Payload)
    requires FetchDefaults(st.csrf).Keys <= data.Keys
    ensures Fetch(st, endpoint, Some(data)) == PostTo(endpoint, data)
  {
  }

  /** The two verification modes; code 1 (phone) is reserved and unused. */
  datatype TwoFactorMode = Sms | Email

  /** The mode constants of `TwoFactorVerificationModeEnum`. */
  function ModeCode(m: TwoFactorMode): int {
    match m
    case Sms => 0
    case Email => 2
  }

  /** The mode a caller's code selects; any other code selects none. */
  function ModeOf(code: int): (m: Option<TwoFactorMode>)
    ensures m.Some? ==> ModeCode(m.value) == code
    ensures m.None? ==> code != ModeCode(Sms) && code != ModeCode(Email)
  {
    if code == 0 then Some(Sms) else if code == 2 then Some(Email) else None
  }

  /** `__generate_challenge_payload`. */
  function ChallengePayload(csrf: Json, challengeType: string): (p: Payload)
    ensures p.Keys == {"challengeReason", "challengeMethod", "challengeType", "apiClient", "bindDevice", "csrf"}
    ensures p["csrf"] == csrf && p["apiClient"] == ApiClient
    ensures p["challengeType"] == Str(challengeType)
  {
    map[
      "challengeReason" := Str("DEVICE_AUTH"),
      "challengeMethod" := Str("OP"),
      "challengeType" := Str(challengeType),
      "apiClient" := ApiClient,
      "bindDevice" := Str("false"),
      "csrf" := csrf
    ]
  }

  /** `__generate_authentication_payload`. */
  function AuthenticationPayload(csrf: Json, code: string): (p: Payload)
    ensures p.Keys == {"challengeReason", "challengeMethod", "apiClient", "bindDevice", "code", "csrf"}
    ensures p["csrf"] == csrf && p["apiClient"] == ApiClient
    ensures p["code"] == Str(code)
  {
    map[
      "challengeReason" := Str("DEVICE_AUTH"),
      "challengeMethod" := Str("OP"),
      "apiClient" := ApiClient,
      "bindDevice" := Str("false"),
      "code" := Str(code),
      "csrf" := csrf
    ]
  }

  /** `two_factor_challenge`: SMS and email each have their own endpoint and
      challenge type; any other mode sends nothing. */
  function TwoFactorChallenge(st: ClientState, mode: int): (r: Option<Request>)
    ensures r.Some? <==> ModeOf(mode).Some?
    ensures ModeOf(mode) == Some(Sms) ==>
      r == Some(PostTo("/credential/challengeSms", ChallengePayload(st.csrf, "challengeSMS")))
    ensures ModeOf(mode) == Some(Email) ==>
      r == Some(PostTo("/credential/challengeEmail", ChallengePayload(st.csrf, "challengeEmail")))
    ensures r.Some? ==> r.value.Post? && r.value.payload["csrf"] == st.csrf
  {
    if mode == ModeCode(Sms) then Some(PostTo("/credential/challengeSms", ChallengePayload(st.csrf, "challengeSMS")))
    else if mode == ModeCode(Email) then Some(PostTo("/credential/challengeEmail", ChallengePayload(st.csrf, "challengeEmail")))
    else None
  }

  /** `two_factor_authenticate`: the code goes to the mode's verification
      endpoint; any other mode sends nothing. */
  function TwoFactorAuthenticate(st: ClientState, mode: int, code: string): (r: Option<Request>)
    ensures r.Some? <==> ModeOf(mode).Some?
    ensures ModeOf(mode) == Some(Sms) ==> r.value.url == ApiEndpoint + "/credential/authenticateSms"
    ensures ModeOf(mode) == Some(Email) ==> r.value.url == ApiEndpoint + "/credential/authenticateEmailByCode"
    ensures r.Some? ==> r.value.Post? && r.value.payload == AuthenticationPayload(st.csrf, code)
  {
    if mode == ModeCode(Sms) then Some(PostTo("/credential/authenticateSms", AuthenticationPayload(st.csrf, code)))
    else if mode == ModeCode(Email) then Some(PostTo("/credential/authenticateEmailByCode", AuthenticationPayload(st.csrf, code)))
    else None
  }

  /** `authenticate_password`: posts the password with the current token,
      whatever it is; a client that never logged in sends the empty token. */
  function AuthenticatePassword(st: ClientState, passwd: string): (r: Request)
    ensures r.Post? && r.url == ApiEndpoint + "/credential/authenticatePassword"
    ensures r.payload.Keys == {"bindDevice", "deviceName", "redirectTo", "skipFirstUse", "skipLinkAccount",
                               "referrerId", "passwd", "apiClient", "csrf"}
    ensures r.payload["csrf"] == st.csrf && r.payload["passwd"] == Str(passwd)
    ensures r.payload["apiClient"] == ApiClient && r.payload["bindDevice"] == Str("true")
  {
    PostTo("/credential/authenticatePassword", map[
      "bindDevice" := Str("true"),
      "deviceName" := Str("Personal Capital Python API"),
      "redirectTo" := Str(""),
      "skipFirstUse" := Str(""),
      "skipLinkAccount" := Str("false"),
      "referrerId" := Str(""),
      "passwd" := Str(passwd),
      "apiClient" := ApiClient,
      "csrf" := st.csrf
    ])
  }
}
