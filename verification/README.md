# personalcapital login client, modelled in Dafny

This project models the decision logic of the `personalcapital` Python client.
The client logs in to the Personal Capital web portal by driving the portal's
browser login flow, then sends authenticated API calls. The model replaces the
network with inputs and outputs. Every server reply is an input: the home-page
HTML, the identify-user status and envelope, and the password-confirmation
envelope. Every request the client would send is an output: a `Request` value
with its URL and form fields.

Modules (one file each):

- `Wrappers` (`wrappers.dfy`): `Option` and a `Result` that works with `:-`. A `Result` carries a Python exception that escapes a call.
- `PyJson` (`pyjson.dfy`): decoded JSON values. JSON `null` and Python `None` are the same value, `Null`. The module also holds the Python built-ins the client applies to these values: truthiness, `== False`, `in`, `[key]` and `[0]`, each with its `TypeError`/`KeyError`/`IndexError` cases.
- `Envelope` (`envelope.dfy`): the `spHeader` wrapper and the two accessors `getSpHeaderValue` and `getErrorValue`. Each accessor is checked against a reference reading (`HeaderField`, `Message`).
- `CsrfToken` (`csrf_token.dfy`): a hand-written scanner for the one fixed pattern `window.csrf ='([a-f0-9-]+)'`. It is proved equal to a declarative reading of the pattern (`MatchesAt`) with `re.search`'s leftmost-match rule.
- `Session` (`session.dfy`): the client state, which is the token plus the cookie store. Also the wholesale replacements `set_session` and `load_session`, and `save_session`.
- `Gateway` (`gateway.dfy`): `post`, `fetch` with its default merge, the three payload builders, and the two-factor mode dispatch.
- `LoginFlow` (`login.dfy`): identify-user and the `login` decision procedure. It returns the new state, the outcome and the requests it sent, in order.

The model follows the code as written, including where it departs from what
the login flow evidently intends:

- Lines 51 and 54 build a `LoginFailedException` but never raise it. A home page without a token does not stop `login`: identify-user goes out with `None` as its token.
- `getErrorValue` catches only `ValueError` and `IndexError`. An envelope without an `errors` list evaluates `None[0]`, and the resulting `TypeError` escapes from `login`. The login does not fail with a generic message in that case.
- Line 61 compares with Python `==`, so a `success` of `0` also fails the login. A missing `success` lets the login return normally.
- The pattern needs a blank before `=`. The page text `window.csrf='abc-123'` holds no token for this client (`CsrfToken.NoTokenWithoutBlank`).
- `authenticate_password` does not check that a token was ever set. On a fresh client it sends the empty token.
- `load_session` replaces the cookie store before it reads `csrf`. A snapshot without `csrf` therefore leaves the new cookies next to the old token.

## Model

| member | source | states |
|---|---|---|
| `Envelope.GetSpHeaderValue` | personalcapital/personalcapital.py:17-20 | On any envelope-shaped reply it returns `spHeader[key]` exactly when both `spHeader` and the key are present, and None otherwise. Every value it returns agrees with that reference reading. It raises only TypeError, and only on replies that are not shaped like an envelope. |
| `Envelope.GetErrorValue` | personalcapital/personalcapital.py:22-26 | It returns the `message` of the first error entry whenever there is one, and a non-None result is always that message. None comes only from an empty error list or string, or from a null message. A missing list or a first entry that is not an object raises TypeError, and an entry without `message` raises KeyError. IndexError and ValueError never escape. |
| `CsrfToken.RunEnd` | personalcapital/personalcapital.py:5 | The greedy `[a-f0-9-]+` run: every character up to the returned end is in the class, and the character at the end is not (or the text ends there). |
| `CsrfToken.MatchAt` | personalcapital/personalcapital.py:5 | A capture found at a position is a genuine match of the pattern there. |
| `CsrfToken.MatchAtComplete` | personalcapital/personalcapital.py:5 | Whenever the pattern matches at a position, the scanner finds exactly that capture there. |
| `CsrfToken.MatchUnique` | personalcapital/personalcapital.py:5 | The closing quote ends the token, so one start position admits only one capture. |
| `CsrfToken.SearchFrom` | personalcapital/personalcapital.py:130 | The leftmost match at or after a position: what it returns is a match with no match before it, and when it returns nothing there is no match at all. |
| `CsrfToken.ExtractCsrf` | personalcapital/personalcapital.py:128-134 | It returns the capture of the first match. The capture is a non-empty string over `[a-f0-9-]`. It returns None exactly when the pattern matches nowhere, and never returns an empty token. |
| `CsrfToken.FirstMatchIsExtracted` | personalcapital/personalcapital.py:128-134 | Converse of `ExtractCsrf`: the capture of the first match in the page is what extraction returns. |
| `CsrfToken.ExtractFromSpacedAssignment` | personalcapital/personalcapital.py:5 | The page text `window.csrf ='abc-123'` yields `abc-123`. |
| `CsrfToken.PrefixNeedsBlank` | personalcapital/personalcapital.py:5 | A match can start only in text that contains a blank, because the fixed prefix `csrf ='` contains one. |
| `CsrfToken.NoTokenWithoutBlank` | personalcapital/personalcapital.py:5 | The page text `window.csrf='abc-123'`, with no blank before `=`, yields no token. |
| `Session.SetSession` | personalcapital/personalcapital.py:105-109 | It replaces the cookie store wholesale, so reading the store back gives exactly the new cookies. The token is kept. |
| `Session.CookieDictRoundTrip` | personalcapital/personalcapital.py:99-109 | Setting and then getting the cookie dictionary returns it unchanged. Setting what was read leaves the name-to-value cookie view and the token unchanged. |
| `Session.SaveSession` | personalcapital/personalcapital.py:111-117 | A saved snapshot holds both the token and the cookie store. Loading it into any client restores the saved client exactly, with no error. |
| `Session.LoadSession` | personalcapital/personalcapital.py:119-125 | A complete snapshot replaces token and cookies wholesale, and nothing of the old state survives. A non-dictionary raises TypeError and a missing `cookies` raises KeyError, both with the client unchanged. A missing `csrf` raises KeyError after the cookies were already replaced. No failed load changes the token. |
| `Gateway.FetchOverridingDefaultsIsPost` | personalcapital/personalcapital.py:81-97 | `post` sends the caller's fields unchanged, and `fetch` is `post` with the defaults merged under the caller's data. So once the data names every default key, `fetch` sends exactly the request `post` would. |
| `Gateway.Fetch` | personalcapital/personalcapital.py:81-93 | The key set is the union of the defaults `lastServerChangeId`, `csrf` and `apiClient` with the caller's keys. Caller values win. Each default the caller leaves alone is sent: `"-1"`, the current token and `"WEB"`. |
| `Gateway.ModeOf` | personalcapital/personalcapital.py:31-34 | Code 0 selects SMS and code 2 selects email. Every other code, including the reserved 1, selects no mode. |
| `Gateway.ChallengePayload` | personalcapital/personalcapital.py:161-169 | The challenge form has exactly its six fields, including the given token, the client id `WEB` and the given challenge type. |
| `Gateway.AuthenticationPayload` | personalcapital/personalcapital.py:171-179 | The authentication form has exactly its six fields, including the given token, the client id `WEB` and the given code. |
| `Gateway.TwoFactorChallenge` | personalcapital/personalcapital.py:75-79 | SMS posts to `/credential/challengeSms` with type `challengeSMS`. Email posts to `/credential/challengeEmail` with type `challengeEmail`. Any other mode sends nothing. A sent challenge always carries the current token. |
| `Gateway.TwoFactorAuthenticate` | personalcapital/personalcapital.py:69-73 | SMS posts the code to `/credential/authenticateSms` and email to `/credential/authenticateEmailByCode`. Any other mode sends nothing. A sent form always carries the current token and the code. |
| `Gateway.AuthenticatePassword` | personalcapital/personalcapital.py:197-209 | The password form goes to `/credential/authenticatePassword` with exactly its nine fields. It carries the password, `bindDevice=true` and the current token, even when no token was ever set. |
| `LoginFlow.ScrapedToken` | personalcapital/personalcapital.py:49-51 | The home-page token as the code holds it: None exactly when extraction finds nothing. Otherwise it is the extracted string, which is truthy. |
| `LoginFlow.IdentifyPayload` | personalcapital/personalcapital.py:140-149 | The identify-user form has exactly its eight fields, including the username, the given token (possibly None) and `WEB`. |
| `LoginFlow.IdentifyUser` | personalcapital/personalcapital.py:151-159 | On status 200 it returns the envelope's `csrf` and `authLevel` as the reference reading gives them, and on an envelope-shaped body it never raises. On any other status it returns (None, None). Only a status-200 reply can raise, and only TypeError. |
| `LoginFlow.PasswordOutcome` | personalcapital/personalcapital.py:60-62 | The login fails only when `success` compares equal to False, `0` included. In every such case the outcome is `LoginFailed` carrying exactly what `getErrorValue` returns (None for an empty error list), or the exception `getErrorValue` raises. A missing or true `success` returns normally. A `success` that cannot be read raises TypeError. Two-factor is never asked for here. |
| `LoginFlow.Login` | personalcapital/personalcapital.py:48-64 | The home page and identify-user are always requested, the latter with the scraped token or None. A falsy token or trust level fails with no message and leaves the client unchanged. Otherwise the new token is stored before any further outcome. A trust level other than `USER_REMEMBERED` asks for two-factor verification and sends no password. A remembered one sends the password with the new token and ends as `PasswordOutcome` says. A normal return implies a truthy stored token. Cookies are never touched. |
| `LoginFlow.OutcomeIgnoresHomePage` | personalcapital/personalcapital.py:49-52 | The home page affects only the identify-user request. The resulting state and outcome are the same whether or not the page held a token. |
| `LoginFlow.RememberedDeviceLogsIn` | personalcapital/personalcapital.py:56-62 | Identify reply `{csrf: "def-456", authLevel: "USER_REMEMBERED"}` with password reply `{success: true}`: the login returns normally, stores `def-456` and sends three requests. |
| `LoginFlow.UnknownTrustLevelNeedsTwoFactor` | personalcapital/personalcapital.py:56-59 | Identify reply `{csrf: "T1", authLevel: "OTHER"}`: the login asks for two-factor verification, stores `T1` and sends no password. |
| `LoginFlow.RejectedPasswordMessage` | personalcapital/personalcapital.py:60-62 | `{success: false, errors: [{message: "bad password"}]}` fails the login with `"bad password"`. `{success: false}` without errors lets TypeError escape. |

## Left out

- HTTP transport: `requests.Session`, the GET and POST calls and the user-agent header (lines 44-45) are library I/O. Each reply is an input, each request an output value, and the status of the password reply is not inspected by the code either.
- Transport exceptions are not modelled. A connection error or timeout raised by `requests` on the home-page GET (line 129) or on any POST (line 96) propagates unchanged out of `login` and the other calls. `__identify_user` turns only a non-200 status into (None, None), never a transport failure. The `LoginFlow.IdentifyUser` and `LoginFlow.Login` rows cover only replies that arrived.
- Cookie updates made by the transport from `Set-Cookie` headers are not modelled. `login` itself never touches the cookie store, and the model keeps it unchanged.
- Cookie jar structure: the store is modelled as its name-to-value dictionary form. Domain and path attributes, and cookies of the same name in several domains, are not modelled.
- Session.CookieDictRoundTrip: says nothing about domain and path attributes. In the source, `set_session(get_session())` rebuilds the jar with `cookiejar_from_dict`, which gives every cookie the default domain and path and merges cookies that share a name. The jar itself therefore changes, and only its name-to-value view is kept.
- JSON decoding (`r.json()`): replies are already-decoded values. A body that is not JSON (a `ValueError` from `r.json()`) is not modelled. Numbers are integers; floating-point numbers are not modelled.
- Pickle files: opening, writing and unpickling in `save_session`/`load_session` (lines 111-125) are file I/O. A snapshot is the unpickled value, and unpickling errors are not modelled.
- Form encoding by the transport (for example dropping `None` values) is not modelled. A request carries the dictionary handed to `post`.
- Argument types: usernames, passwords and codes are strings and two-factor modes are integers. Python's `False == 0` makes a `False` mode behave like SMS, which the integer model covers only through the integer 0.
- The exception objects built at lines 51 and 54 are discarded by the code, so the model has no effect for them.
- `setup.py` is packaging metadata with no logic.
