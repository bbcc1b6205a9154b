/** The client's security context: the anti-forgery token and the cookie
    store, with the replace-wholesale operations on them. */
module Session {
  import opened Wrappers
  import opened PyJson

  /** Cookie store in its dictionary form, cookie name to value. */
  type CookieMap = map<string, string>

  /** What one client instance carries between calls. The token is whatever
      the portal last handed out, so it is kept as a JSON value. */
  datatype ClientState = ClientState(csrf: Json, cookies: CookieMap)

  /** A fresh client: empty token, no cookies. */
  const InitialState: ClientState := ClientState(Str(""), map[])

  /** What `pickle.load` hands back: the saved dictionary, which may lack
      either key, or a value that is not a dictionary at all. */
  datatype Snapshot =
    | Saved(csrf: Option<Json>, cookies: Option<CookieMap>)
    | NotADict

  /** The client after a load, and the exception the load raised, if any. */
  datatype Loaded = Loaded(state: ClientState, error: Option<PyError>)

  /** `get_session`: the cookie store as a dictionary. */
  function GetSession(st: ClientState): CookieMap {
    st.cookies
  }

  /** `set_session`: replaces the cookie store wholesale and keeps the token. */
  function SetSession(st: ClientState, cookies: CookieMap): (r: ClientState)
    ensures r.csrf == st.csrf
    ensures GetSession(r) == cookies
  {
    st.(cookies := cookies)
  }

  /** The dictionary form round-trips both ways. */
  lemma CookieDictRoundTrip(st: ClientState, cookies: CookieMap)
    ensures GetSession(SetSession(st, cookies)) == cookies
    ensures SetSession(st, GetSession(st)) == st
  {
  }

  /** `save_session`: the token and the whole cookie store, both present. */
  function SaveSession(st: ClientState): (d: Snapshot)
    ensures d.Saved? && d.csrf.Some? && d.cookies.Some?
    ensures forall other :: LoadSession(other, d) == Loaded(st, None)
  {
    Saved(Some(st.csrf), Some(st.cookies))
  }

  /** `load_session`: the cookie store is replaced first and the token second,
      so a snapshot without a token leaves the new cookies next to the old
      token; nothing of the old state survives a complete snapshot. */
  function LoadSession(st: ClientState, d: Snapshot): (r: Loaded)
    ensures d.NotADict? ==> r == Loaded(st, Some(TypeError))
    ensures d.Saved? && d.cookies.None? ==> r == Loaded(st, Some(KeyError))
    ensures d.Saved? && d.cookies.Some? && d.csrf.None?
            ==> r == Loaded(st.(cookies := d.cookies.value), Some(KeyError))
    ensures r.error.None? <==> d.Saved? && d.cookies.Some? && d.csrf.Some?
    ensures r.error.None? ==> r.state == ClientState(d.csrf.value, d.cookies.value)
    ensures r.error.Some? ==> r.state.csrf == st.csrf
  {
    match d
    case NotADict => Loaded(st, Some(TypeError))
    case Saved(csrf, cookies) =>
      if cookies.None? then Loaded(st, Some(KeyError))
      else
        var withCookies := st.(cookies := cookies.value);
        if csrf.None? then Loaded(withCookies, Some(KeyError))
        else Loaded(withCookies.(csrf := csrf.value), None)
  }
}
