/**
 * The TypeScript auth provider: the session kept under the `auth` key of
 * `localStorage`, the normalisation of a login or refresh response, the
 * decoding of a response body into data or an error, the schedule of the
 * automatic token refresh, and the authorised fetch.
 * The session is the JSON object it was built from, so a stored session
 * keeps whatever properties it was saved with.
 */
module AuthContextTsx {
  import opened Wrappers
  import opened Text
  import opened Browser
  import AS = AuthService
  import PM = ProfileMapper

  const StorageKey := "auth"

  /** Five minutes, in milliseconds: the refresh fires this long before expiry. */
  const RefreshThreshold := 5 * 60 * 1000

  const NoTokenMessage := "No authentication token"

  /** `loadStoredAuth`'s result for the stored text `raw` at time `now`. */
  function StoredAuth(raw: Option<string>, parse: string -> Option<Payload>, now: int): Option<Payload>
  {
    if !Truthy(raw) then None
    else match parse(raw.value)
      case None => None
      case Some(p) =>
        if !Truthy(p.token) || !Truthy(p.refreshToken) || !TruthyNum(p.expiresAt) then None
        else if p.expiresAt.value <= now then None
        else Some(p)
  }

  /** A complete stored session whose expiry has passed: the one case in which the entry is removed. */
  predicate ExpiredEntry(raw: Option<string>, parse: string -> Option<Payload>, now: int)
  {
    Truthy(raw) && parse(raw.value).Some?
    && var p := parse(raw.value).value;
    Truthy(p.token) && Truthy(p.refreshToken) && TruthyNum(p.expiresAt) && p.expiresAt.value <= now
  }

  /**
   * A stored session is accepted exactly when the entry parses, has a token,
   * a refresh token and an expiry, and has not expired; it is returned as
   * parsed. An expired entry yields nothing.
   */
  lemma StoredAuthMeaning(raw: Option<string>, parse: string -> Option<Payload>, now: int)
    ensures StoredAuth(raw, parse, now).Some? <==>
      Truthy(raw) && parse(raw.value).Some?
      && Truthy(parse(raw.value).value.token) && Truthy(parse(raw.value).value.refreshToken)
      && TruthyNum(parse(raw.value).value.expiresAt) && parse(raw.value).value.expiresAt.value > now
    ensures StoredAuth(raw, parse, now).Some? ==> StoredAuth(raw, parse, now) == parse(raw.value)
    ensures ExpiredEntry(raw, parse, now) ==> StoredAuth(raw, parse, now).None?
  {
  }

  /** `loadStoredAuth`: reads the entry, and removes it only when it holds an expired session. */
  method LoadStoredAuth(storage: LocalStorage, parse: string -> Option<Payload>, now: int) returns (r: Option<Payload>)
    modifies storage
    ensures r == StoredAuth(old(storage.GetItem(StorageKey)), parse, now)
    ensures storage.items ==
      if ExpiredEntry(old(storage.GetItem(StorageKey)), parse, now) then old(storage.items) - {StorageKey}
      else old(storage.items)
  {
    var raw := storage.GetItem(StorageKey);
    if !Truthy(raw) {
      return None;
    }
    var parsed := parse(raw.value);
    if parsed.None? {
      return None;
    }
    var p := parsed.value;
    if !Truthy(p.token) || !Truthy(p.refreshToken) || !TruthyNum(p.expiresAt) {
      return None;
    }
    if p.expiresAt.value <= now {
      storage.RemoveItem(StorageKey);
      return None;
    }
    r := Some(p);
  }

  /** The shape of a normalised session: the four `AuthData` properties and no others. */
  predicate IsAuthData(a: Payload)
  {
    a.token.Some? && a.refreshToken.Some? && a.expiresAt.Some?
    && a.accessToken.None? && a.message.None? && a.error.None?
  }

  /**
   * `normaliseAuthPayload`: nothing for no payload; otherwise the token (or
   * else the access token, or else empty), the refresh token or empty, the
   * expiry or zero, and the profile.
   */
  function NormaliseAuthPayload(payload: Option<Payload>): (r: Option<Payload>)
    ensures r.None? <==> payload.None?
    ensures r.Some? ==> IsAuthData(r.value) && r.value.profile == payload.value.profile
    ensures r.Some? ==>
      r.value.token.value == (if Truthy(payload.value.token) then payload.value.token.value
                              else if Truthy(payload.value.accessToken) then payload.value.accessToken.value
                              else "")
    ensures r.Some? ==> r.value.refreshToken.value == OrElse(payload.value.refreshToken, "")
    ensures r.Some? ==> r.value.expiresAt.value == OrElseNum(payload.value.expiresAt, 0)
  {
    if payload.None? then None
    else
      var p := payload.value;
      Some(Payload(Some(OrElse(Or(p.token, p.accessToken), "")), None, Some(OrElse(p.refreshToken, "")),
                   Some(OrElseNum(p.expiresAt, 0)), p.profile, None, None))
  }

  /** Normalising a normalised session changes nothing. */
  lemma NormaliseIdempotent(payload: Option<Payload>)
    ensures NormaliseAuthPayload(NormaliseAuthPayload(payload)) == NormaliseAuthPayload(payload)
  {
  }

  /** The JSON of the backend's `AuthResponse`: its token is named `accessToken`. */
  function FromAuthResponse(r: AS.AuthResponse): Payload
  {
    Payload(None, Some(r.accessToken), Some(r.refreshToken), Some(r.expiresAt), r.profile, None, None)
  }

  /** What the provider exposes: the user, the token, and whether a session is held. */
  datatype AuthState = AuthState(user: Option<PM.ProfileSummary>, token: Option<string>,
                                 isAuthenticated: bool, isLoading: bool, error: Option<string>)

  /** `authState`: authenticated exactly when the session's token is non-empty. */
  function AuthStateOf(auth: Option<Payload>, error: Option<string>): (r: AuthState)
    ensures r.isAuthenticated <==> auth.Some? && Truthy(auth.value.token)
    ensures r.token.Some? <==> r.isAuthenticated
    ensures r.isAuthenticated ==> r.token == auth.value.token
    ensures r.user == (if auth.Some? then auth.value.profile else None)
    ensures !r.isLoading && r.error == error
  {
    var signedIn := auth.Some? && Truthy(auth.value.token);
    AuthState(if auth.Some? then auth.value.profile else None,
              if signedIn then auth.value.token else None,
              signedIn, false, error)
  }

  /**
   * A backend login or refresh response becomes a session whose token is the
   * access token, authenticated exactly when that token is non-empty.
   */
  lemma BackendResponseSignsIn(resp: AS.AuthResponse)
    ensures NormaliseAuthPayload(Some(FromAuthResponse(resp))).value.token == Some(resp.accessToken)
    ensures NormaliseAuthPayload(Some(FromAuthResponse(resp))).value.refreshToken == Some(resp.refreshToken)
    ensures AuthStateOf(NormaliseAuthPayload(Some(FromAuthResponse(resp))), None).isAuthenticated
      <==> resp.accessToken != ""
  {
  }

  /**
   * A normalised session written to storage and read back: restored as it
   * was exactly when it has a token, a refresh token and an unexpired expiry.
   */
  lemma SavedSessionReloads(payload: Payload, stringify: Payload -> string, parse: string -> Option<Payload>, now: int)
    requires var a := NormaliseAuthPayload(Some(payload)).value; stringify(a) != "" && parse(stringify(a)) == Some(a)
    ensures var a := NormaliseAuthPayload(Some(payload)).value;
      StoredAuth(Some(stringify(a)), parse, now) ==
        if a.token.value != "" && a.refreshToken.value != "" && a.expiresAt.value != 0 && a.expiresAt.value > now
        then Some(a) else None
  {
  }

  /** The parsed body: nothing for an empty body or text that is not a JSON object. */
  function Body(response: HttpResponse, parse: string -> Option<Payload>): Option<Payload>
  {
    if response.text == "" then None else parse(response.text)
  }

  /**
   * The message of a failed response: the body's `message`, else its `error`,
   * else the status text, else "Request failed". It is never empty.
   */
  function ErrorMessage(data: Option<Payload>, statusText: string): (r: string)
    ensures r != ""
    ensures data.Some? && Truthy(data.value.message) ==> r == data.value.message.value
    ensures data.Some? && !Truthy(data.value.message) && Truthy(data.value.error) ==> r == data.value.error.value
    ensures (data.None? || (!Truthy(data.value.message) && !Truthy(data.value.error))) ==>
      r == (if statusText != "" then statusText else "Request failed")
  {
    var message := if data.Some? then data.value.message else None;
    var error := if data.Some? then data.value.error else None;
    OrElse(Or(Or(message, error), Some(statusText)), "Request failed")
  }

  /**
   * `parseJsonResponse`: the parsed body of an OK response; for any other, an
   * error carrying the chosen message, the status and the parsed body.
   */
  function ParseJsonResponse(response: HttpResponse, parse: string -> Option<Payload>): (r: Result<Option<Payload>, JsError>)
    ensures r.Err? <==> !response.ok
    ensures r.Ok? ==> r.value == Body(response, parse)
    ensures r.Err? ==> (r.error.message == ErrorMessage(Body(response, parse), response.statusText)
      && r.error.status == Some(response.status) && r.error.payload == Body(response, parse))
  {
    var data := Body(response, parse);
    if !response.ok then Err(JsError(ErrorMessage(data, response.statusText), Some(response.status), data))
    else Ok(data)
  }

  /** A failed response with an empty body reports its status text, or "Request failed" without one. */
  lemma EmptyErrorBody(status: nat, statusText: string, parse: string -> Option<Payload>)
    ensures ParseJsonResponse(HttpResponse(false, status, statusText, ""), parse)
      == Err(JsError(if statusText != "" then statusText else "Request failed", Some(status), None))
  {
  }

  /**
   * The auto-refresh timer: set only for a complete session more than five
   * minutes from expiry, with a positive delay that makes it fire exactly
   * five minutes before the expiry.
   */
  function RefreshDelay(auth: Option<Payload>, now: int): (r: Option<int>)
    ensures r.Some? <==> (auth.Some? && Truthy(auth.value.token) && Truthy(auth.value.refreshToken)
      && TruthyNum(auth.value.expiresAt) && auth.value.expiresAt.value - now > RefreshThreshold)
    ensures r.Some? ==> r.value > 0 && now + r.value == auth.value.expiresAt.value - RefreshThreshold
  {
    if auth.None? || !Truthy(auth.value.token) || !Truthy(auth.value.refreshToken)
      || !TruthyNum(auth.value.expiresAt) then None
    else
      var msUntilExpiry := auth.value.expiresAt.value - now;
      if msUntilExpiry > RefreshThreshold then Some(msUntilExpiry - RefreshThreshold) else None
  }

  /** The request `authorizedFetch` sends: versioned URL and the caller's options, with the injected headers under the caller's. */
  function AuthorizedRequest(auth: Option<Payload>, apiBase: string, url: string, init: RequestInit): (r: Result<FetchRequest, JsError>)
    ensures r.Err? <==> !(auth.Some? && Truthy(auth.value.token))
    ensures r.Err? ==> r.error == JsError(NoTokenMessage, None, None)
    ensures r.Ok? ==> (r.value.url == apiBase + "/v1" + url
      && r.value.init.verb == init.verb && r.value.init.body == init.body)
    ensures r.Ok? ==> r.value.init.headers.Keys == init.headers.Keys + {"Authorization", "Content-Type"}
    ensures r.Ok? ==> forall k :: k in init.headers ==> r.value.init.headers[k] == init.headers[k]
    ensures r.Ok? && "Authorization" !in init.headers ==>
      r.value.init.headers["Authorization"] == "Bearer " + auth.value.token.value
    ensures r.Ok? && "Content-Type" !in init.headers ==>
      r.value.init.headers["Content-Type"] == "application/json"
  {
    if !(auth.Some? && Truthy(auth.value.token)) then Err(JsError(NoTokenMessage, None, None))
    else
      var injected := map["Authorization" := "Bearer " + auth.value.token.value, "Content-Type" := "application/json"];
      Ok(FetchRequest(apiBase + "/v1" + url, init.(headers := injected + init.headers)))
  }

  /** `authorizedFetch`: the response when it is OK; otherwise an error naming its status. */
  function AuthorizedFetch(auth: Option<Payload>, apiBase: string, url: string, init: RequestInit,
                           fetch: FetchRequest -> HttpResponse): (r: Result<HttpResponse, JsError>)
    ensures AuthorizedRequest(auth, apiBase, url, init).Err? ==> r == Err(JsError(NoTokenMessage, None, None))
    ensures AuthorizedRequest(auth, apiBase, url, init).Ok? ==>
      var response := fetch(AuthorizedRequest(auth, apiBase, url, init).value);
      if response.ok then r == Ok(response)
      else r == Err(JsError("Request failed with status " + NatToString(response.status), None, None))
  {
    match AuthorizedRequest(auth, apiBase, url, init)
    case Err(e) => Err(e)
    case Ok(request) =>
      var response := fetch(request);
      if response.ok then Ok(response)
      else Err(JsError("Request failed with status " + NatToString(response.status), None, None))
  }

  /** `setProfileSummary` on a session value. */
  function WithProfile(auth: Option<Payload>, profile: Option<PM.ProfileSummary>): (r: Option<Payload>)
    ensures r.None? <==> auth.None?
    ensures r.Some? ==> r.value.profile == profile
  {
    if auth.Some? then Some(auth.value.(profile := profile)) else None
  }

  /** Replacing the profile keeps the token, so whether a session is held does not change. */
  lemma WithProfileKeepsSession(auth: Option<Payload>, profile: Option<PM.ProfileSummary>, error: Option<string>)
    ensures WithProfile(auth, profile).Some? ==> WithProfile(auth, profile).value.(profile := auth.value.profile) == auth.value
    ensures AuthStateOf(WithProfile(auth, profile), error).isAuthenticated == AuthStateOf(auth, error).isAuthenticated
    ensures auth.Some? ==> AuthStateOf(WithProfile(auth, profile), error).user == profile
  {
  }

  /**
   * The provider's state. The effect on `auth` keeps the storage entry in
   * step with it: the session's JSON while one is held, no entry otherwise.
   */
  class AuthProvider {
    var auth: Option<Payload>
    var error: Option<string>
    const storage: LocalStorage
    const stringify: Payload -> string

    predicate Synced()
      reads this, storage
    {
      (auth.Some? ==> StorageKey in storage.items && storage.items[StorageKey] == stringify(auth.value))
      && (auth.None? ==> StorageKey !in storage.items)
    }

    /** The effect that persists `auth`; no other entry is touched. */
    method Persist()
      modifies storage
      ensures Synced()
      ensures storage.items - {StorageKey} == old(storage.items) - {StorageKey}
    {
      if auth.Some? {
        storage.SetItem(StorageKey, stringify(auth.value));
      } else {
        storage.RemoveItem(StorageKey);
      }
    }

    /** Mounting: the stored session if `loadStoredAuth` accepts it, and the entry rewritten or removed to match. */
    constructor (storage: LocalStorage, parse: string -> Option<Payload>, stringify: Payload -> string, now: int)
      modifies storage
      ensures this.storage == storage && this.stringify == stringify
      ensures auth == StoredAuth(old(storage.GetItem(StorageKey)), parse, now) && error.None?
      ensures Synced()
      ensures storage.items - {StorageKey} == old(storage.items) - {StorageKey}
    {
      this.storage := storage;
      this.stringify := stringify;
      error := None;
      new;
      auth := LoadStoredAuth(storage, parse, now);
      Persist();
    }

    /** `applyAuth`: the normalised payload becomes the session and the error is cleared. */
    method ApplyAuth(payload: Option<Payload>)
      modifies this, storage
      ensures auth == NormaliseAuthPayload(payload) && error.None?
      ensures Synced()
      ensures storage.items - {StorageKey} == old(storage.items) - {StorageKey}
    {
      auth := NormaliseAuthPayload(payload);
      error := None;
      if auth.Some? {
        storage.SetItem(StorageKey, stringify(auth.value));
      }
      Persist();
    }

    /** `clearAuth`: no session, no error, no entry. */
    method ClearAuth()
      modifies this, storage
      ensures auth.None? && error.None?
      ensures Synced() && StorageKey !in storage.items
      ensures storage.items - {StorageKey} == old(storage.items) - {StorageKey}
    {
      auth := None;
      error := None;
      Persist();
    }

    /** The expiry effect: a session whose expiry has passed is dropped. */
    method CheckExpiry(now: int)
      requires Synced()
      modifies this, storage
      ensures Synced()
      ensures auth == if old(auth).Some? && TruthyNum(old(auth).value.expiresAt) && old(auth).value.expiresAt.value <= now
        then None else old(auth)
      ensures error == old(error) && storage.items - {StorageKey} == old(storage.items) - {StorageKey}
    {
      if auth.Some? && TruthyNum(auth.value.expiresAt) && auth.value.expiresAt.value <= now {
        auth := None;
        Persist();
      }
    }

    /**
     * The timer's callback, given the refresh call's response or `None` when
     * the call failed: an OK response becomes the session, any other ends it,
     * and a failed call leaves everything as it was.
     */
    method AutoRefresh(response: Option<HttpResponse>, parse: string -> Option<Payload>)
      requires Synced()
      modifies this, storage
      ensures Synced()
      ensures response.None? ==> auth == old(auth) && error == old(error) && storage.items == old(storage.items)
      ensures response.Some? && !response.value.ok ==> auth.None? && error.None?
      ensures response.Some? && response.value.ok ==> auth == NormaliseAuthPayload(Body(response.value, parse))
      ensures storage.items - {StorageKey} == old(storage.items) - {StorageKey}
    {
      if response.None? {
        return;
      }
      if response.value.ok {
        var data := ParseJsonResponse(response.value, parse);
        ApplyAuth(data.value);
      } else {
        ClearAuth();
      }
    }

    /** `setProfileSummary`: the profile of a held session is replaced; without one nothing changes. */
    method SetProfileSummary(profile: Option<PM.ProfileSummary>)
      requires Synced()
      modifies this, storage
      ensures auth == WithProfile(old(auth), profile) && error == old(error)
      ensures Synced()
      ensures old(auth).None? ==> storage.items == old(storage.items)
      ensures storage.items - {StorageKey} == old(storage.items) - {StorageKey}
    {
      if auth.Some? {
        auth := Some(auth.value.(profile := profile));
        Persist();
      }
    }
  }
}
