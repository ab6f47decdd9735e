/**
 * The bearer-token filter: it reads the Authorization header, and when the
 * token names a known user and is valid, installs that user's authentication
 * in the security context. It always passes the request on, exactly once.
 * The token library is given as functions that may throw.
 */
module JwtAuthenticationFilter {
  import opened Wrappers
  import opened Text
  import AS = AuthService

  const BearerPrefix: string := "Bearer "

  /** The outcome of a call into the token library: a value, or an exception. */
  datatype Call<T> = Returned(value: T) | Threw

  /** An installed authentication: the email as principal and one granted authority. */
  datatype Authentication = Authentication(principal: string, authority: string)

  /** The token of an Authorization header that has text and starts with `"Bearer "`. */
  function BearerToken(header: Option<string>): (r: Option<string>)
    ensures r.Some? <==> HasText(header) && StartsWith(header.value, BearerPrefix)
    ensures r.Some? ==> header.value == BearerPrefix + r.value
  {
    if HasText(header) && StartsWith(header.value, BearerPrefix) then
      assert header.value == header.value[..7] + header.value[7..];
      Some(header.value[7..])
    else None
  }

  /** The bare word `Bearer` carries no token; the prefix with a space is stripped. */
  lemma BearerExamples()
    ensures BearerToken(Some("Bearer")).None?
    ensures BearerToken(Some("Bearer abc")) == Some("abc")
    ensures BearerToken(None).None?
  {
    assert HasText(Some("Bearer abc")) by {
      assert !IsJavaWhitespace("Bearer abc"[0]);
    }
  }

  /** The authentication in the context after the filter, given the one before it. */
  function Authenticate(header: Option<string>, existing: Option<Authentication>, accounts: seq<AS.Account>,
                        extractEmail: string -> Call<Option<string>>,
                        isTokenValid: (string, AS.Account) -> Call<bool>): Option<Authentication>
  {
    var token := BearerToken(header);
    if token.None? then existing
    else match extractEmail(token.value)
      case Threw => existing
      case Returned(email) =>
        if !HasText(email) || existing.Some? then existing
        else match AS.FindByEmail(accounts, email.value)
          case None => existing
          case Some(user) =>
            if isTokenValid(token.value, user) == Returned(true) then
              Some(Authentication(email.value, "ROLE_" + user.role))
            else existing
  }

  /** All four conditions of installing an authentication hold for some token and email. */
  ghost predicate Installs(header: Option<string>, existing: Option<Authentication>, accounts: seq<AS.Account>,
                           extractEmail: string -> Call<Option<string>>,
                           isTokenValid: (string, AS.Account) -> Call<bool>)
  {
    var token := BearerToken(header);
    token.Some? && existing.None?
    && extractEmail(token.value).Returned? && HasText(extractEmail(token.value).value)
    && AS.FindByEmail(accounts, extractEmail(token.value).value.value).Some?
    && isTokenValid(token.value, AS.FindByEmail(accounts, extractEmail(token.value).value.value).value) == Returned(true)
  }

  /**
   * An authentication is installed exactly when the header has a bearer token,
   * no authentication exists, the extracted email has text, the user is found
   * and the token is valid for that user; its authority is the role behind
   * `ROLE_`. Otherwise the context is left as it was.
   */
  lemma AuthenticateMeaning(header: Option<string>, existing: Option<Authentication>, accounts: seq<AS.Account>,
                            extractEmail: string -> Call<Option<string>>,
                            isTokenValid: (string, AS.Account) -> Call<bool>)
    ensures !Installs(header, existing, accounts, extractEmail, isTokenValid) ==>
      Authenticate(header, existing, accounts, extractEmail, isTokenValid) == existing
    ensures Installs(header, existing, accounts, extractEmail, isTokenValid) ==>
      var email := extractEmail(BearerToken(header).value).value.value;
      var user := AS.FindByEmail(accounts, email).value;
      Authenticate(header, existing, accounts, extractEmail, isTokenValid)
        == Some(Authentication(email, "ROLE_" + user.role))
      && user.email == email && user in accounts
  {
  }

  /** An existing authentication is never replaced. */
  lemma ExistingKept(header: Option<string>, existing: Authentication, accounts: seq<AS.Account>,
                     extractEmail: string -> Call<Option<string>>,
                     isTokenValid: (string, AS.Account) -> Call<bool>)
    ensures Authenticate(header, Some(existing), accounts, extractEmail, isTokenValid) == Some(existing)
  {
  }

  /** The thread's security context. */
  class SecurityContext {
    var authentication: Option<Authentication>

    constructor ()
      ensures authentication.None?
    {
      authentication := None;
    }
  }

  /**
   * `doFilterInternal`: the context ends as `Authenticate` says, any exception
   * of the token library is swallowed, and the chain is invoked exactly once on
   * every path.
   */
  method DoFilterInternal(context: SecurityContext, header: Option<string>, accounts: seq<AS.Account>,
                          extractEmail: string -> Call<Option<string>>,
                          isTokenValid: (string, AS.Account) -> Call<bool>) returns (chainCalls: nat)
    modifies context
    ensures chainCalls == 1
    ensures context.authentication == Authenticate(header, old(context.authentication), accounts, extractEmail, isTokenValid)
  {
    chainCalls := 0;
    if !HasText(header) || !StartsWith(header.value, BearerPrefix) {
      chainCalls := chainCalls + 1;
      return;
    }
    var token := header.value[7..];
    var extracted := extractEmail(token);
    if extracted.Returned? {
      var email := extracted.value;
      if HasText(email) && context.authentication.None? {
        var user := AS.FindByEmail(accounts, email.value);
        if user.Some? {
          var valid := isTokenValid(token, user.value);
          if valid == Returned(true) {
            context.authentication := Some(Authentication(email.value, "ROLE_" + user.value.role));
          }
        }
      }
    }
    chainCalls := chainCalls + 1;
  }
}
