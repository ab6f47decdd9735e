/**
 * The JavaScript auth provider used by the dashboard: the session under the
 * `auth` key of `localStorage`, the normalisation of a login response, the
 * authorised fetch with its header rules, and the profile refresh.
 * Responses are decoded as in the TypeScript provider.
 */
module AuthContextJsx {
  import opened Wrappers
  import opened Browser
  import PM = ProfileMapper
  import Tsx = AuthContextTsx

  const AuthRequired := JsError("Authentication required", Some(401), None)
  const NotAuthenticated := JsError("Not authenticated", None, None)
  const SessionExpired := JsError("Session expired", None, None)

  /** `loadStoredAuth`'s result: a token and an unexpired expiry suffice. */
  function StoredAuth(raw: Option<string>, parse: string -> Option<Payload>, now: int): Option<Payload>
  {
    if !Truthy(raw) then None
    else match parse(raw.value)
      case None => None
      case Some(p) =>
        if !Truthy(p.token) || !TruthyNum(p.expiresAt) then None
        else if p.expiresAt.value <= now then None
        else Some(p)
  }

  /** A stored session with a token whose expiry has passed: the entry is then removed. */
  predicate ExpiredEntry(raw: Option<string>, parse: string -> Option<Payload>, now: int)
  {
    Truthy(raw) && parse(raw.value).Some?
    && var p := parse(raw.value).value;
    Truthy(p.token) && TruthyNum(p.expiresAt) && p.expiresAt.value <= now
  }

  /**
   * Every entry the TypeScript provider accepts is accepted here unchanged,
   * and one without a refresh token is accepted here as well.
   */
  lemma AcceptsMoreThanTsx(raw: Option<string>, parse: string -> Option<Payload>, now: int)
    ensures Tsx.StoredAuth(raw, parse, now).Some? ==> StoredAuth(raw, parse, now) == Tsx.StoredAuth(raw, parse, now)
    ensures StoredAuth(raw, parse, now).Some? && Truthy(StoredAuth(raw, parse, now).value.refreshToken) ==>
      Tsx.StoredAuth(raw, parse, now) == StoredAuth(raw, parse, now)
    ensures StoredAuth(raw, parse, now).Some? <==>
      (Truthy(raw) && parse(raw.value).Some? && Truthy(parse(raw.value).value.token)
       && TruthyNum(parse(raw.value).value.expiresAt) && parse(raw.value).value.expiresAt.value > now)
  {
  }

  /** A session with no refresh token at all: accepted here, refused by the TypeScript provider. */
  lemma NoRefreshTokenAccepted(raw: string, token: string, now: int, parse: string -> Option<Payload>)
    requires raw != "" && token != "" && now + 1 != 0
    requires parse(raw) == Some(NoProperties.(token := Some(token), expiresAt := Some(now + 1)))
    ensures StoredAuth(Some(raw), parse, now).Some?
    ensures Tsx.StoredAuth(Some(raw), parse, now).None?
  {
  }

  /** `loadStoredAuth`: reads the entry, and removes it only when it holds an expired session. */
  method LoadStoredAuth(storage: LocalStorage, parse: string -> Option<Payload>, now: int) returns (r: Option<Payload>)
    modifies storage
    ensures r == StoredAuth(old(storage.GetItem(Tsx.StorageKey)), parse, now)
    ensures storage.items ==
      if ExpiredEntry(old(storage.GetItem(Tsx.StorageKey)), parse, now) then old(storage.items) - {Tsx.StorageKey}
      else old(storage.items)
  {
    var raw := storage.GetItem(Tsx.StorageKey);
    if !Truthy(raw) {
      return None;
    }
    var parsed := parse(raw.value);
    if parsed.None? {
      return None;
    }
    var p := parsed.value;
    if !Truthy(p.token) || !TruthyNum(p.expiresAt) {
      return None;
    }
    if p.expiresAt.value <= now {
      storage.RemoveItem(Tsx.StorageKey);
      return None;
    }
    r := Some(p);
  }

  /** `isAuthenticated`: the session's token is non-empty. */
  predicate IsAuthenticated(auth: Option<Payload>)
  {
    auth.Some? && Truthy(auth.value.token)
  }

  /** `normaliseAuthPayload` as written: the token, the expiry and the profile, and nothing else. */
  function NormaliseAsWritten(payload: Option<Payload>): (r: Option<Payload>)
    ensures r.None? <==> payload.None?
    ensures r.Some? ==> r.value == NoProperties.(token := payload.value.token, expiresAt := payload.value.expiresAt,
                                                  profile := payload.value.profile)
  {
    if payload.None? then None
    else Some(NoProperties.(token := payload.value.token, expiresAt := payload.value.expiresAt,
                            profile := payload.value.profile))
  }

  /**
   * The backend's login and register responses name their token
   * `accessToken`, so the session normalised as written holds no token and
   * the user is not signed in, whatever the response carried.
   */
  lemma BackendLoginLostAsWritten(resp: Tsx.AS.AuthResponse)
    ensures NormaliseAsWritten(Some(Tsx.FromAuthResponse(resp))).Some?
    ensures NormaliseAsWritten(Some(Tsx.FromAuthResponse(resp))).value.token.None?
    ensures !IsAuthenticated(NormaliseAsWritten(Some(Tsx.FromAuthResponse(resp))))
  {
  }

  /** `normaliseAuthPayload` with the access-token fallback of the TypeScript provider. */
  function NormaliseAuthPayload(payload: Option<Payload>): (r: Option<Payload>)
    ensures r.None? <==> payload.None?
    ensures r.Some? ==> r.value.token == Or(payload.value.token, payload.value.accessToken)
    ensures r.Some? ==> r.value.expiresAt == payload.value.expiresAt && r.value.profile == payload.value.profile
    ensures r.Some? ==> r.value.refreshToken.None? && r.value.accessToken.None?
  {
    if payload.None? then None
    else Some(NoProperties.(token := Or(payload.value.token, payload.value.accessToken),
                            expiresAt := payload.value.expiresAt, profile := payload.value.profile))
  }

  /**
   * With the fallback, a backend response signs the user in exactly when its
   * access token is non-empty, and a payload that names its token `token`
   * is normalised as before.
   */
  lemma BackendLoginKept(resp: Tsx.AS.AuthResponse, payload: Payload)
    ensures IsAuthenticated(NormaliseAuthPayload(Some(Tsx.FromAuthResponse(resp)))) <==> resp.accessToken != ""
    ensures resp.accessToken != "" ==> NormaliseAuthPayload(Some(Tsx.FromAuthResponse(resp))).value.token == Some(resp.accessToken)
    ensures Truthy(payload.token) ==> NormaliseAuthPayload(Some(payload)) == NormaliseAsWritten(Some(payload))
    ensures IsAuthenticated(NormaliseAuthPayload(Some(payload))) <==> Truthy(payload.token) || Truthy(payload.accessToken)
  {
  }

  /**
   * The request `authorizedFetch` sends: `Authorization` always set to the
   * bearer token, a JSON `Content-Type` added only for a request with a body
   * and no `Content-Type` of its own, every other header kept.
   */
  function AuthorizedRequest(auth: Option<Payload>, apiBase: string, path: string, init: RequestInit): (r: Result<FetchRequest, JsError>)
    ensures r.Err? <==> !IsAuthenticated(auth)
    ensures r.Err? ==> r.error == AuthRequired
    ensures r.Ok? ==> (r.value.url == apiBase + path
      && r.value.init.verb == init.verb && r.value.init.body == init.body)
    ensures r.Ok? ==> (r.value.init.headers.Keys ==
      init.headers.Keys + {"Authorization"} + (if Truthy(init.body) then {"Content-Type"} else {}))
    ensures r.Ok? ==> r.value.init.headers["Authorization"] == "Bearer " + auth.value.token.value
    ensures r.Ok? ==> forall k :: k in init.headers && k != "Authorization" ==> r.value.init.headers[k] == init.headers[k]
    ensures r.Ok? && Truthy(init.body) && "Content-Type" !in init.headers ==>
      r.value.init.headers["Content-Type"] == "application/json"
  {
    if !IsAuthenticated(auth) then Err(AuthRequired)
    else
      var headers := init.headers["Authorization" := "Bearer " + auth.value.token.value];
      var headers' := if Truthy(init.body) && "Content-Type" !in headers then headers["Content-Type" := "application/json"] else headers;
      Ok(FetchRequest(apiBase + path, init.(headers := headers')))
  }

  /** `authorizedFetch`: the response itself, whatever its status. */
  function AuthorizedFetch(auth: Option<Payload>, apiBase: string, path: string, init: RequestInit,
                           fetch: FetchRequest -> HttpResponse): (r: Result<HttpResponse, JsError>)
    ensures r.Err? <==> !IsAuthenticated(auth)
    ensures r.Err? ==> r.error == AuthRequired
    ensures r.Ok? ==> r.value == fetch(AuthorizedRequest(auth, apiBase, path, init).value)
  {
    match AuthorizedRequest(auth, apiBase, path, init)
    case Err(e) => Err(e)
    case Ok(request) => Ok(fetch(request))
  }

  /** The request of `refreshProfile`. */
  function ProfileRequest(auth: Option<Payload>, apiBase: string): Result<FetchRequest, JsError>
  {
    AuthorizedRequest(auth, apiBase, "/profile/me", RequestInit(None, map[], None))
  }

  /**
   * `refreshProfile` given the response to its request: without a session
   * "Not authenticated"; a 401 ends the session with "Session expired"; a
   * failed response is passed on with the session untouched; otherwise only
   * the profile is replaced, by the body's profile or nothing.
   */
  function ProfileRefresh(auth: Option<Payload>, response: HttpResponse, parse: string -> Option<Payload>)
    : (r: (Option<Payload>, Result<Option<Payload>, JsError>))
    ensures !IsAuthenticated(auth) ==> r == (auth, Err(NotAuthenticated))
    ensures IsAuthenticated(auth) && response.status == 401 ==> r == (None, Err(SessionExpired))
    ensures IsAuthenticated(auth) && response.status != 401 ==> r.1 == Tsx.ParseJsonResponse(response, parse)
    ensures IsAuthenticated(auth) && response.status != 401 && r.1.Err? ==> r.0 == auth
    ensures IsAuthenticated(auth) && response.status != 401 && r.1.Ok? ==>
      r.0 == Some(auth.value.(profile := if r.1.value.Some? then r.1.value.value.profile else None))
  {
    if !IsAuthenticated(auth) then (auth, Err(NotAuthenticated))
    else if response.status == 401 then (None, Err(SessionExpired))
    else match Tsx.ParseJsonResponse(response, parse)
      case Err(e) => (auth, Err(e))
      case Ok(data) => (Some(auth.value.(profile := if data.Some? then data.value.profile else None)), Ok(data))
  }

  /** A profile refresh never changes the token: the user stays signed in unless the server answers 401. */
  lemma ProfileRefreshKeepsToken(auth: Option<Payload>, response: HttpResponse, parse: string -> Option<Payload>)
    requires IsAuthenticated(auth) && response.status != 401
    ensures ProfileRefresh(auth, response, parse).0.Some?
    ensures ProfileRefresh(auth, response, parse).0.value.(profile := auth.value.profile) == auth.value
    ensures IsAuthenticated(ProfileRefresh(auth, response, parse).0)
  {
  }

  /** The provider's state, with the storage entry kept in step with `auth`. */
  class AuthProvider {
    var auth: Option<Payload>
    const storage: LocalStorage
    const stringify: Payload -> string

    predicate Synced()
      reads this, storage
    {
      (auth.Some? ==> Tsx.StorageKey in storage.items && storage.items[Tsx.StorageKey] == stringify(auth.value))
      && (auth.None? ==> Tsx.StorageKey !in storage.items)
    }

    /** The effect that persists `auth`; no other entry is touched. */
    method Persist()
      modifies storage
      ensures Synced()
      ensures storage.items - {Tsx.StorageKey} == old(storage.items) - {Tsx.StorageKey}
    {
      if auth.Some? {
        storage.SetItem(Tsx.StorageKey, stringify(auth.value));
      } else {
        storage.RemoveItem(Tsx.StorageKey);
      }
    }

    /** Mounting: the stored session if `loadStoredAuth` accepts it, and the entry rewritten or removed to match. */
    constructor (storage: LocalStorage, parse: string -> Option<Payload>, stringify: Payload -> string, now: int)
      modifies storage
      ensures this.storage == storage && this.stringify == stringify
      ensures auth == StoredAuth(old(storage.GetItem(Tsx.StorageKey)), parse, now)
      ensures Synced()
      ensures storage.items - {Tsx.StorageKey} == old(storage.items) - {Tsx.StorageKey}
    {
      this.storage := storage;
      this.stringify := stringify;
      new;
      auth := LoadStoredAuth(storage, parse, now);
      Persist();
    }

    /** `applyAuth`, with the access-token fallback. */
    method ApplyAuth(payload: Option<Payload>)
      modifies this, storage
      ensures auth == NormaliseAuthPayload(payload)
      ensures Synced()
      ensures storage.items - {Tsx.StorageKey} == old(storage.items) - {Tsx.StorageKey}
    {
      auth := NormaliseAuthPayload(payload);
      Persist();
    }

    /** `logout`: the session and its entry are dropped, and no request is made. */
    method Logout()
      modifies this, storage
      ensures auth.None? && Synced() && Tsx.StorageKey !in storage.items
      ensures storage.items - {Tsx.StorageKey} == old(storage.items) - {Tsx.StorageKey}
    {
      auth := None;
      Persist();
    }

    /** `refreshProfile`, with the network as `fetch`: the outcome `ProfileRefresh` describes. */
    method RefreshProfile(apiBase: string, fetch: FetchRequest -> HttpResponse, parse: string -> Option<Payload>)
      returns (r: Result<Option<Payload>, JsError>)
      requires Synced()
      modifies this, storage
      ensures Synced()
      ensures !IsAuthenticated(old(auth)) ==> auth == old(auth) && r == Err(NotAuthenticated) && storage.items == old(storage.items)
      ensures IsAuthenticated(old(auth)) ==>
        (auth, r) == ProfileRefresh(old(auth), fetch(ProfileRequest(old(auth), apiBase).value), parse)
      ensures storage.items - {Tsx.StorageKey} == old(storage.items) - {Tsx.StorageKey}
    {
      if !IsAuthenticated(auth) {
        return Err(NotAuthenticated);
      }
      var request := ProfileRequest(auth, apiBase);
      var response := fetch(request.value);
      var outcome := ProfileRefresh(auth, response, parse);
      auth := outcome.0;
      r := outcome.1;
      Persist();
    }

    /** `setProfileSummary`: the profile of a held session is replaced; without one nothing changes. */
    method SetProfileSummary(profile: Option<PM.ProfileSummary>)
      requires Synced()
      modifies this, storage
      ensures auth == Tsx.WithProfile(old(auth), profile)
      ensures Synced()
      ensures old(auth).None? ==> storage.items == old(storage.items)
      ensures storage.items - {Tsx.StorageKey} == old(storage.items) - {Tsx.StorageKey}
    {
      if auth.Some? {
        auth := Some(auth.value.(profile := profile));
        Persist();
      }
    }
  }
}
