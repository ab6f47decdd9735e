/**
 * Registration, login, token refresh, logout and account deletion. The
 * password encoder, the authentication manager and the JWT service are
 * outside the model: the encoder and the access-token issuer are functions
 * given to the constructor, and the authentication outcome is a parameter.
 */
module AuthService {
  import opened Wrappers
  import opened Text
  import opened Entities
  import PS = ProfileService
  import RT = RefreshTokens
  import PM = ProfileMapper

  // ---------------------------------------------------------------------------
  // normalizeEmail

  /** `normalizeEmail`: trim to null, then lower-case. */
  function NormalizeEmail(email: Option<string>): (r: Option<string>)
    ensures r.None? <==> TrimToNull(email).None?
    ensures r.Some? ==> r.value == Lower(TrimToNull(email).value)
  {
    match TrimToNull(email)
    case None => None
    case Some(t) => Some(Lower(t))
  }

  predicate NoUpper(s: string)
  {
    forall i :: 0 <= i < |s| ==> !('A' <= s[i] <= 'Z')
  }

  /** ASCII lower-casing leaves no upper-case letter. */
  lemma LowerNoUpper(s: string)
    ensures NoUpper(Lower(s))
  {
    forall i | 0 <= i < |s|
      ensures !('A' <= Lower(s)[i] <= 'Z')
    {
      LowerCharNoUpper(s[i]);
    }
  }

  lemma LowerCharNoUpper(c: char)
    ensures !('A' <= LowerChar(c) <= 'Z')
  {
  }

  lemma LowerCharTrimmed(c: char)
    ensures IsJavaTrimmed(LowerChar(c)) <==> IsJavaTrimmed(c)
  {
  }

  lemma LowerTail(s: string)
    requires s != []
    ensures Lower(s)[0] == LowerChar(s[0]) && Lower(s)[1..] == Lower(s[1..])
    ensures Lower(s)[|s| - 1] == LowerChar(s[|s| - 1]) && Lower(s)[..|s| - 1] == Lower(s[..|s| - 1])
  {
  }

  lemma {:induction false} DropStartLower(s: string)
    ensures DropStart(Lower(s), IsJavaTrimmed) == Lower(DropStart(s, IsJavaTrimmed))
  {
    if s != [] {
      LowerTail(s);
      LowerCharTrimmed(s[0]);
      if IsJavaTrimmed(s[0]) {
        DropStartLower(s[1..]);
      }
    }
  }

  lemma {:induction false} DropEndLower(s: string)
    ensures DropEnd(Lower(s), IsJavaTrimmed) == Lower(DropEnd(s, IsJavaTrimmed))
  {
    if s != [] {
      LowerTail(s);
      LowerCharTrimmed(s[|s| - 1]);
      if IsJavaTrimmed(s[|s| - 1]) {
        DropEndLower(s[..|s| - 1]);
      }
    }
  }

  /** Trimming and ASCII lower-casing commute. */
  lemma TrimToNullLower(s: string)
    ensures TrimToNull(Some(Lower(s))) == NormalizeEmail(Some(s))
  {
    DropStartLower(s);
    DropEndLower(DropStart(s, IsJavaTrimmed));
    var t := JavaTrim(s);
    assert JavaTrim(Lower(s)) == Lower(t);
    assert TrimToNull(Some(s)) == if t == [] then None else Some(t);
    assert TrimToNull(Some(Lower(s))) == if Lower(t) == [] then None else Some(Lower(t));
    assert |Lower(t)| == |t|;
  }

  /** A normalised email is non-empty, starts with a visible character and has no upper-case letter. */
  lemma NormalizeEmailShape(email: Option<string>)
    ensures NormalizeEmail(email).Some? ==> (NormalizeEmail(email).value != []
      && NoUpper(NormalizeEmail(email).value)
      && !IsJavaTrimmed(NormalizeEmail(email).value[0]))
  {
    var t := TrimToNull(email);
    if t.Some? {
      var l := Lower(t.value);
      LowerNoUpper(t.value);
      assert l[0] == LowerChar(t.value[0]);
      LowerCharTrimmed(t.value[0]);
    }
  }

  /** Normalising a normalised email changes nothing. */
  lemma NormalizeEmailIdempotent(email: Option<string>)
    ensures NormalizeEmail(NormalizeEmail(email)) == NormalizeEmail(email)
  {
    var t := TrimToNull(email);
    if t.Some? {
      TrimToNullIdempotent(email);
      TrimToNullLower(t.value);
      LowerIdempotent(t.value);
    }
  }

  /** The case of the input does not matter. */
  lemma NormalizeEmailIgnoresCase(s: string)
    ensures NormalizeEmail(Some(Lower(s))) == NormalizeEmail(Some(s))
  {
    TrimToNullLower(s);
    if TrimToNull(Some(s)).Some? {
      LowerIdempotent(TrimToNull(Some(s)).value);
    }
  }

  // ---------------------------------------------------------------------------
  // register: the checks made before anything is saved

  /** A `RegisterRequest`; every field may be null. */
  datatype RegisterRequest = RegisterRequest(
    email: Option<string>, password: Option<string>, slug: Option<string>,
    displayName: Option<string>, headline: Option<string>, bio: Option<string>,
    photoUrl: Option<string>, githubUrl: Option<string>, linkedinUrl: Option<string>,
    twitterUrl: Option<string>, websiteUrl: Option<string>, location: Option<string>)

  /** What `register` goes on with once its checks pass. */
  datatype Registration = Registration(email: string, password: string, slug: Option<string>, displayName: string)

  /**
   * The checks of `register` in their order: missing credentials, a known
   * email, a requested slug already in use; then the display name falls back
   * to the email.
   */
  function CheckRegistration(req: RegisterRequest, emails: set<string>, slugs: set<string>): (r: Result<Registration, Failure>)
    ensures (r == Err(Failure(BadRequest, "Email and password are required")))
      <==> !HasText(NormalizeEmail(req.email)) || !HasText(req.password)
    ensures (r == Err(Failure(Conflict, "User already exists")))
      <==> (HasText(NormalizeEmail(req.email)) && HasText(req.password)
        && NormalizeEmail(req.email).value in emails)
    ensures (r == Err(Failure(Conflict, "Slug already taken")))
      <==> (HasText(NormalizeEmail(req.email)) && HasText(req.password)
        && NormalizeEmail(req.email).value !in emails
        && HasText(req.slug) && PS.Slugify(req.slug) in slugs)
    ensures r.Ok? ==> (Some(r.value.email) == NormalizeEmail(req.email) && r.value.email !in emails
      && Some(r.value.password) == req.password
      && r.value.slug == PS.NormalizeSlug(req.slug)
      && (r.value.slug.Some? ==> r.value.slug.value !in slugs))
    ensures r.Ok? && HasText(TrimToNull(req.displayName)) ==> r.value.displayName == TrimToNull(req.displayName).value
    ensures r.Ok? && !HasText(TrimToNull(req.displayName)) ==> r.value.displayName == r.value.email
  {
    var email := NormalizeEmail(req.email);
    if !HasText(email) || !HasText(req.password) then Err(Failure(BadRequest, "Email and password are required"))
    else if email.value in emails then Err(Failure(Conflict, "User already exists"))
    else if HasText(req.slug) && PS.Slugify(req.slug) in slugs then Err(Failure(Conflict, "Slug already taken"))
    else
      var displayName := TrimToNull(req.displayName);
      Ok(Registration(email.value, req.password.value, PS.NormalizeSlug(req.slug),
        if HasText(displayName) then displayName.value else email.value))
  }

  /** A registration's email is in normal form and its display name has text. */
  lemma RegistrationEmailNormal(req: RegisterRequest, emails: set<string>, slugs: set<string>)
    requires CheckRegistration(req, emails, slugs).Ok?
    ensures var reg := CheckRegistration(req, emails, slugs).value;
      NormalizeEmail(Some(reg.email)) == Some(reg.email) && NoUpper(reg.email)
      && HasText(Some(reg.displayName))
  {
    NormalizeEmailShape(req.email);
    NormalizeEmailIdempotent(req.email);
  }

  /** A requested slug that passes the checks is a valid slug, fixed by normalisation and free. */
  lemma RegistrationSlugValid(req: RegisterRequest, emails: set<string>, slugs: set<string>)
    requires CheckRegistration(req, emails, slugs).Ok?
    ensures var reg := CheckRegistration(req, emails, slugs).value;
      reg.slug.Some? ==> (PS.IsSlug(reg.slug.value) && PS.NormalizeSlug(reg.slug) == reg.slug
        && reg.slug.value !in slugs)
  {
    var reg := CheckRegistration(req, emails, slugs).value;
    if reg.slug.Some? {
      PS.SlugHasText(reg.slug.value);
      PS.SlugifyFixesSlugs(reg.slug.value);
    }
  }

  // ---------------------------------------------------------------------------
  // The service

  datatype Account = Account(id: nat, email: string, passwordHash: string, role: string)

  datatype AuthResponse = AuthResponse(
    accessToken: string, refreshToken: string, expiresAt: int, profile: Option<PM.ProfileSummary>)

  function Emails(accounts: seq<Account>): set<string>
  {
    set i | 0 <= i < |accounts| :: accounts[i].email
  }

  function Slugs(profiles: seq<ProfileData>): set<string>
  {
    set i | 0 <= i < |profiles| && profiles[i].slug.Some? :: profiles[i].slug.value
  }

  /** `findByEmail`. */
  function FindByEmail(accounts: seq<Account>, email: string): (r: Option<Account>)
    ensures r.Some? ==> r.value in accounts && r.value.email == email
    ensures r.None? ==> email !in Emails(accounts)
  {
    if accounts == [] then None
    else if accounts[0].email == email then Some(accounts[0])
    else
      var r := FindByEmail(accounts[1..], email);
      assert r.None? ==> Emails(accounts) == {accounts[0].email} + Emails(accounts[1..]) by {
        if r.None? {
          forall e | e in Emails(accounts) ensures e in {accounts[0].email} + Emails(accounts[1..]) {
            var i :| 0 <= i < |accounts| && accounts[i].email == e;
            if i > 0 {
              assert accounts[1..][i - 1] == accounts[i];
            }
          }
        }
      }
      r
  }

  /** `findByUserId`: a profile owned by the user (the first one). */
  function FindByUserId(profiles: seq<ProfileData>, user: nat): (r: Option<nat>)
    ensures r.Some? ==> r.value < |profiles| && profiles[r.value].user == Some(user)
    ensures r.Some? ==> forall j :: 0 <= j < r.value ==> profiles[j].user != Some(user)
    ensures r.None? ==> forall j :: 0 <= j < |profiles| ==> profiles[j].user != Some(user)
  {
    if profiles == [] then None
    else if profiles[0].user == Some(user) then Some(0)
    else
      var r := FindByUserId(profiles[1..], user);
      if r.Some? then Some(r.value + 1) else None
  }

  function ProfileOf(profiles: seq<ProfileData>, user: nat): Option<ProfileData>
  {
    var i := FindByUserId(profiles, user);
    if i.Some? then Some(profiles[i.value]) else None
  }

  /** The table without the first profile of the user, if any. */
  function WithoutProfileOf(profiles: seq<ProfileData>, user: nat): (r: seq<ProfileData>)
    ensures FindByUserId(profiles, user).None? ==> r == profiles
    ensures FindByUserId(profiles, user).Some? ==> |r| == |profiles| - 1
    ensures forall p :: p in profiles && p.user != Some(user) ==> p in r
    ensures forall p :: p in r ==> p in profiles
  {
    var i := FindByUserId(profiles, user);
    if i.None? then profiles
    else
      assert profiles == profiles[..i.value] + [profiles[i.value]] + profiles[i.value + 1..];
      profiles[..i.value] + profiles[i.value + 1..]
  }

  function WithoutAccount(accounts: seq<Account>, id: nat): (r: seq<Account>)
    ensures forall a :: a in r <==> a in accounts && a.id != id
  {
    if accounts == [] then []
    else (if accounts[0].id == id then [] else [accounts[0]]) + WithoutAccount(accounts[1..], id)
  }

  /**
   * The stored profile a registration creates: the normalised slug or a
   * fresh one, the display name, the headline as role when given (else
   * "Member"), and the other fields trimmed to null.
   */
  ghost predicate RegisteredProfile(d: ProfileData, req: RegisterRequest, reg: Registration, id: nat,
    user: nat, taken: set<string>)
  {
    d.id == Some(id) && d.user == Some(user) && d.name == Some(reg.displayName)
    && d.slug.Some? && d.slug.value !in taken
    && (reg.slug.Some? ==> d.slug == reg.slug)
    && (reg.slug.None? ==> exists k: nat :: (d.slug.value == PS.Candidate(PS.Slugify(Some(reg.displayName)), k)
      && forall j: nat :: j < k ==> PS.Candidate(PS.Slugify(Some(reg.displayName)), j) in taken))
    && d.role == (if TrimToNull(req.headline).Some? then TrimToNull(req.headline) else Some("Member"))
    && d.bio == TrimToNull(req.bio) && d.photoUrl == TrimToNull(req.photoUrl)
    && d.githubUrl == TrimToNull(req.githubUrl) && d.linkedinUrl == TrimToNull(req.linkedinUrl)
    && d.twitterUrl == TrimToNull(req.twitterUrl) && d.websiteUrl == TrimToNull(req.websiteUrl)
    && d.location == TrimToNull(req.location)
  }

  /** `applyProfileFields`: the headline replaces the role only when it trims to something. */
  method ApplyProfileFields(p: Profile, req: RegisterRequest)
    modifies p
    ensures p.id == old(p.id) && p.user == old(p.user) && p.slug == old(p.slug) && p.name == old(p.name)
    ensures p.role == (if TrimToNull(req.headline).Some? then TrimToNull(req.headline) else old(p.role))
    ensures p.bio == TrimToNull(req.bio) && p.photoUrl == TrimToNull(req.photoUrl)
    ensures p.githubUrl == TrimToNull(req.githubUrl) && p.linkedinUrl == TrimToNull(req.linkedinUrl)
    ensures p.twitterUrl == TrimToNull(req.twitterUrl) && p.websiteUrl == TrimToNull(req.websiteUrl)
    ensures p.location == TrimToNull(req.location)
  {
    var headline := TrimToNull(req.headline);
    var role := if headline.Some? then headline else p.role;
    PS.SetEditable(p, p.name, role, TrimToNull(req.bio), TrimToNull(req.location), TrimToNull(req.photoUrl),
      TrimToNull(req.githubUrl), TrimToNull(req.linkedinUrl), TrimToNull(req.twitterUrl), TrimToNull(req.websiteUrl));
  }

  /** The profile `register` stores: `createProfileForUser`, then `applyProfileFields`, then the id the save assigns. */
  method NewProfile(req: RegisterRequest, reg: Registration, id: nat, user: nat, taken: set<string>)
    returns (d: ProfileData)
    requires reg.slug.Some? ==> PS.IsSlug(reg.slug.value) && PS.NormalizeSlug(reg.slug) == reg.slug && reg.slug.value !in taken
    ensures RegisteredProfile(d, req, reg, id, user, taken)
  {
    var p := PS.CreateProfileForUser(user, reg.slug, Some(reg.displayName), taken);
    ApplyProfileFields(p, req);
    p.id := Some(id);
    d := p.Data();
  }

  class Auth {
    var accounts: seq<Account>
    var profiles: seq<ProfileData>
    var nextUserId: nat
    var nextProfileId: nat
    const tokens: RT.TokenService
    /** `passwordEncoder.encode`. */
    const encode: string -> string
    /** `jwtService.generateToken` for a user id. */
    const accessTokenFor: nat -> string
    /** `jwtService.extractExpiration(token).getTime()`. */
    const expirationOf: string -> int

    constructor (tokens: RT.TokenService, encode: string -> string, accessTokenFor: nat -> string,
      expirationOf: string -> int)
      ensures accounts == [] && profiles == [] && this.tokens == tokens && this.encode == encode
      ensures this.accessTokenFor == accessTokenFor && this.expirationOf == expirationOf
    {
      accounts, profiles := [], [];
      nextUserId, nextProfileId := 0, 0;
      this.tokens, this.encode := tokens, encode;
      this.accessTokenFor, this.expirationOf := accessTokenFor, expirationOf;
    }

    /** `buildAuthResponse`: the given profile or the user's stored one, a new access token and a new refresh token. */
    method BuildAuthResponse(user: nat, profile: Option<ProfileData>, raw: string, now: int)
      returns (r: AuthResponse)
      requires tokens.Valid() && tokens.NotBefore(now)
      modifies tokens
      ensures tokens.Valid() && tokens.NotBefore(now)
      ensures tokens.rows == RT.Capped(old(tokens.rows), user, now)
        + [RT.Token(tokens.digest(raw), user, tokens.ExpiryFrom(now), false, now, now)]
      ensures r.profile == PM.ToSummary(if profile.Some? then profile else ProfileOf(profiles, user))
      ensures r.accessToken == accessTokenFor(user) && r.refreshToken == raw
      ensures r.expiresAt == expirationOf(accessTokenFor(user))
    {
      var summary := PM.ToSummary(if profile.Some? then profile else ProfileOf(profiles, user));
      var access := accessTokenFor(user);
      var refresh := tokens.CreateRefreshToken(user, raw, now);
      r := AuthResponse(access, refresh, expirationOf(access), summary);
    }

    /**
     * `register`: every check comes before any save; on success the account
     * and its profile are stored and a token pair is issued.
     */
    method Register(req: RegisterRequest, raw: string, now: int) returns (r: Result<AuthResponse, Failure>)
      requires tokens.Valid() && tokens.NotBefore(now)
      modifies this, tokens
      ensures tokens.Valid() && tokens.NotBefore(now)
      ensures var check := CheckRegistration(req, Emails(old(accounts)), Slugs(old(profiles)));
        check.Err? ==> (r == Err(check.error) && accounts == old(accounts) && profiles == old(profiles)
          && tokens.rows == old(tokens.rows))
      ensures var check := CheckRegistration(req, Emails(old(accounts)), Slugs(old(profiles)));
        check.Ok? ==> (r.Ok?
          && accounts == old(accounts) + [Account(old(nextUserId), check.value.email, encode(check.value.password), "USER")]
          && |profiles| == |old(profiles)| + 1 && profiles[..|old(profiles)|] == old(profiles)
          && RegisteredProfile(profiles[|old(profiles)|], req, check.value, old(nextProfileId), old(nextUserId), Slugs(old(profiles)))
          && r.value.profile == PM.ToSummary(Some(profiles[|old(profiles)|]))
          && r.value.refreshToken == raw && r.value.accessToken == accessTokenFor(old(nextUserId))
          && tokens.rows == RT.Capped(old(tokens.rows), old(nextUserId), now)
            + [RT.Token(tokens.digest(raw), old(nextUserId), tokens.ExpiryFrom(now), false, now, now)])
    {
      var check := CheckRegistration(req, Emails(accounts), Slugs(profiles));
      if check.Err? {
        return Err(check.error);
      }
      var reg := check.value;
      RegistrationSlugValid(req, Emails(accounts), Slugs(profiles));
      var account, d := SaveRegistration(req, reg);
      assert profiles[..|old(profiles)|] == old(profiles);
      var response := BuildAuthResponse(account.id, Some(d), raw, now);
      r := Ok(response);
    }

    /** The saves of a registration that passed the checks: the account, then its profile. */
    method SaveRegistration(req: RegisterRequest, reg: Registration) returns (account: Account, d: ProfileData)
      requires reg.slug.Some? ==>
        PS.IsSlug(reg.slug.value) && PS.NormalizeSlug(reg.slug) == reg.slug && reg.slug.value !in Slugs(profiles)
      modifies this`accounts, this`nextUserId, this`profiles, this`nextProfileId
      ensures account == Account(old(nextUserId), reg.email, encode(reg.password), "USER")
      ensures accounts == old(accounts) + [account] && profiles == old(profiles) + [d]
      ensures RegisteredProfile(d, req, reg, old(nextProfileId), old(nextUserId), Slugs(old(profiles)))
    {
      account := Account(nextUserId, reg.email, encode(reg.password), "USER");
      accounts := accounts + [account];
      nextUserId := nextUserId + 1;
      d := NewProfile(req, reg, nextProfileId, account.id, Slugs(profiles));
      nextProfileId := nextProfileId + 1;
      profiles := profiles + [d];
    }

    /**
     * `login`: blank credentials are a bad request; a failed authentication and
     * an authenticated name with no account are both "Invalid credentials".
     * `authenticated` is the name the authentication manager returns, or
     * nothing when it rejects the credentials.
     */
    method Login(email: Option<string>, password: Option<string>, authenticated: Option<string>, raw: string, now: int)
      returns (r: Result<AuthResponse, Failure>)
      requires tokens.Valid() && tokens.NotBefore(now)
      modifies tokens
      ensures tokens.Valid() && tokens.NotBefore(now)
      ensures !HasText(NormalizeEmail(email)) || !HasText(password) ==>
        r == Err(Failure(BadRequest, "Email and password are required")) && tokens.rows == old(tokens.rows)
      ensures (HasText(NormalizeEmail(email)) && HasText(password)
        && (authenticated.None? || FindByEmail(accounts, Lower(authenticated.value)).None?)) ==>
        r == Err(Failure(Unauthorized, "Invalid credentials")) && tokens.rows == old(tokens.rows)
      ensures r.Ok? ==> (authenticated.Some? && FindByEmail(accounts, Lower(authenticated.value)).Some?
        && var user := FindByEmail(accounts, Lower(authenticated.value)).value.id;
        r.value.profile == PM.ToSummary(ProfileOf(profiles, user)) && r.value.refreshToken == raw
        && tokens.rows == RT.Capped(old(tokens.rows), user, now)
          + [RT.Token(tokens.digest(raw), user, tokens.ExpiryFrom(now), false, now, now)])
      ensures (HasText(NormalizeEmail(email)) && HasText(password) && authenticated.Some?
        && FindByEmail(accounts, Lower(authenticated.value)).Some?) ==> r.Ok?
    {
      var normalized := NormalizeEmail(email);
      if !HasText(normalized) || !HasText(password) {
        return Err(Failure(BadRequest, "Email and password are required"));
      }
      if authenticated.None? {
        return Err(Failure(Unauthorized, "Invalid credentials"));
      }
      var account := FindByEmail(accounts, Lower(authenticated.value));
      if account.None? {
        return Err(Failure(Unauthorized, "Invalid credentials"));
      }
      var response := BuildAuthResponse(account.value.id, None, raw, now);
      r := Ok(response);
    }

    /**
     * `refreshToken`: an unknown or invalid token is "Invalid refresh token"
     * and changes nothing; a valid one is rotated into a new pair for its user.
     */
    method RefreshToken(presented: string, raw: string, now: int) returns (r: Result<AuthResponse, Failure>)
      requires tokens.Valid() && tokens.NotBefore(now)
      modifies tokens
      ensures tokens.Valid() && tokens.NotBefore(now)
      ensures var found := RT.FindByTokenHash(old(tokens.rows), tokens.digest(presented));
        !(found.Some? && RT.IsValidAt(old(tokens.rows)[found.value], now)) ==>
          r == Err(Failure(Unauthorized, "Invalid refresh token")) && tokens.rows == old(tokens.rows)
      ensures var found := RT.FindByTokenHash(old(tokens.rows), tokens.digest(presented));
        found.Some? && RT.IsValidAt(old(tokens.rows)[found.value], now) ==> (r.Ok?
          && var user := old(tokens.rows)[found.value].user;
          r.value.accessToken == accessTokenFor(user) && r.value.refreshToken == raw
          && r.value.expiresAt == expirationOf(accessTokenFor(user))
          && r.value.profile == PM.ToSummary(ProfileOf(profiles, user))
          && tokens.rows == RT.Capped(RT.MarkRevoked(old(tokens.rows), [found.value], now), user, now)
            + [RT.Token(tokens.digest(raw), user, tokens.ExpiryFrom(now), false, now, now)])
    {
      var found := tokens.ValidateRefreshToken(presented, now);
      if found.None? {
        return Err(Failure(Unauthorized, "Invalid refresh token"));
      }
      var user := tokens.rows[found.value].user;
      var access := accessTokenFor(user);
      var refresh := tokens.RotateRefreshToken(found.value, raw, now);
      r := Ok(AuthResponse(access, refresh, expirationOf(access), PM.ToSummary(ProfileOf(profiles, user))));
    }

    /** `logout`: every token of the user is revoked. */
    method Logout(user: nat)
      modifies tokens
      ensures tokens.rows == RT.RevokedAll(old(tokens.rows), user)
    {
      tokens.RevokeAllByUserAccount(user);
    }

    /** `deleteAccount`: revoke the user's tokens, delete the profile if there is one, then the account. */
    method DeleteAccount(user: nat)
      modifies this, tokens
      ensures tokens.rows == RT.RevokedAll(old(tokens.rows), user)
      ensures profiles == WithoutProfileOf(old(profiles), user)
      ensures accounts == WithoutAccount(old(accounts), user)
    {
      tokens.RevokeAllByUserAccount(user);
      profiles := WithoutProfileOf(profiles, user);
      accounts := WithoutAccount(accounts, user);
    }
  }

  /** After deletion the user has no account, no profile is found for them, and no token of theirs is active. */
  lemma DeletedAccountIsGone(accounts: seq<Account>, profiles: seq<ProfileData>, rows: seq<RT.Token>, user: nat, now: int)
    requires forall i, j :: 0 <= i < j < |profiles| && profiles[i].user.Some? ==> profiles[i].user != profiles[j].user
    ensures forall a :: a in WithoutAccount(accounts, user) ==> a.id != user
    ensures FindByUserId(WithoutProfileOf(profiles, user), user).None?
    ensures RT.ActiveTokens(RT.RevokedAll(rows, user), user, now) == []
  {
    RT.RevokedAllDeactivates(rows, user, user + 1, now);
    var i := FindByUserId(profiles, user);
    if i.Some? {
      var r := WithoutProfileOf(profiles, user);
      forall j | 0 <= j < |r| ensures r[j].user != Some(user) {
        if j < i.value {
          assert r[j] == profiles[j];
        } else {
          assert r[j] == profiles[j + 1];
        }
      }
    }
  }
}
