/** Properties of the authentication endpoints, alone and in sequence. */
module AuthProperties {
  import opened Wrappers
  import opened OtpService
  import opened AuthViews

  /** get_permissions agrees with the permission class each endpoint's decorator declares. */
  lemma PermissionsAgreeWithDecorators(e: Endpoint)
    ensures GetPermissions(ActionName(e)) == DeclaredPermission(e)
  {
  }

  /** Every user's netid is the part of their email before the first `@`. */
  ghost predicate NetIdsDerived(users: Users) {
    forall e :: e in users ==> users[e].netid == NetId(e)
  }

  /**
   * `after` keeps every user of `before` with the same id, password and netid,
   * and no verified user becomes unverified.
   */
  ghost predicate Extends(before: Users, after: Users) {
    forall e :: e in before ==>
      && e in after
      && after[e].(isEmailVerified := false) == before[e].(isEmailVerified := false)
      && (before[e].isEmailVerified ==> after[e].isEmailVerified)
  }

  /** register adds at most the new user: every existing user is kept exactly, and netids stay derived from emails. */
  lemma RegisterPreservesUsers(users: Users, cache: Cache, req: Option<Credentials>, newId: nat,
                               code: string, now: int, emailSent: bool)
    requires NetIdsDerived(users)
    ensures var out := RegisterSpec(users, cache, req, newId, code, now, emailSent);
      && NetIdsDerived(out.users)
      && (forall e :: e in users ==> e in out.users && out.users[e] == users[e])
      && out.users.Keys <= users.Keys + (if req.Some? then {req.value.email} else {})
  {
  }

  /** verify_otp changes at most one user's verification flag, and only to true. */
  lemma VerifyPreservesUsers(users: Users, cache: Cache, req: Option<OtpSubmission>, tokens: Tokens, now: int)
    requires NetIdsDerived(users)
    ensures var out := VerifySpec(users, cache, req, tokens, now);
      NetIdsDerived(out.users) && Extends(users, out.users)
  {
  }

  /** A newly registered user starts unverified; only verify_otp ever sets the flag. */
  lemma OnlyVerifySetsTheFlag(users: Users, cache: Cache, creds: Option<Credentials>, sub: Option<OtpSubmission>,
                              newId: nat, code: string, now: int, emailSent: bool, tokens: Tokens, e: string)
    requires e !in users || !users[e].isEmailVerified
    ensures var out := RegisterSpec(users, cache, creds, newId, code, now, emailSent);
      e in out.users ==> !out.users[e].isEmailVerified
    ensures var out := LoginSpec(users, cache, creds, code, now, emailSent, tokens);
      e in out.users ==> !out.users[e].isEmailVerified
    ensures var out := VerifySpec(users, cache, sub, tokens, now);
      e in out.users && out.users[e].isEmailVerified ==>
        out.response.Status() == 200 && sub.value.email == e
  {
  }

  /**
   * The whole sign-up: a registration followed, within ten minutes, by
   * verify_otp with the emailed code verifies the account; the same code is
   * then refused, and a login with the registered password succeeds.
   */
  lemma RegisterVerifyLogin(users: Users, cache: Cache, email: string, password: string, newId: nat,
                            code: string, t0: int, t1: int, t2: int, tokens: Tokens, tokens': Tokens,
                            draws: seq<DigitIndex>)
    requires email !in users
    requires |draws| == OtpLength && code == GenerateOtp(draws)
    requires t0 <= t1 < t0 + OtpTimeoutSeconds && t1 <= t2
    ensures var reg := RegisterSpec(users, cache, Some(Credentials(email, password)), newId, code, t0, true);
      var ver := VerifySpec(reg.users, reg.cache, Some(OtpSubmission(email, code)), tokens, t1);
      var again := VerifySpec(ver.users, ver.cache, Some(OtpSubmission(email, code)), tokens', t2);
      var log := LoginSpec(ver.users, ver.cache, Some(Credentials(email, password)), code, t2, true, tokens');
      && reg.response.Status() == 201
      && ver.response.Status() == 200 && ver.users[email].isEmailVerified
      && again.response == BadRequest(InvalidOtpMsg) && again.users == ver.users
      && log.response == Authenticated(tokens', email, ver.users[email])
  {
  }

  /** A code used after its ten minutes is refused, and the account stays unverified. */
  lemma ExpiredCodeRefused(users: Users, cache: Cache, email: string, password: string, newId: nat,
                           code: string, t0: int, t1: int, tokens: Tokens)
    requires email !in users
    requires t1 >= t0 + OtpTimeoutSeconds
    ensures var reg := RegisterSpec(users, cache, Some(Credentials(email, password)), newId, code, t0, true);
      var ver := VerifySpec(reg.users, reg.cache, Some(OtpSubmission(email, code)), tokens, t1);
      && ver.response == BadRequest(InvalidOtpMsg)
      && ver.users == reg.users && !ver.users[email].isEmailVerified
  {
  }

  /**
   * A registration whose email could not be sent leaves no user, so its code
   * (which stays in the cache) cannot be used: verify_otp answers 404.
   */
  lemma FailedRegistrationLeavesNoAccount(users: Users, cache: Cache, email: string, password: string,
                                          newId: nat, code: string, t0: int, t1: int, tokens: Tokens)
    requires email !in users
    ensures var reg := RegisterSpec(users, cache, Some(Credentials(email, password)), newId, code, t0, false);
      var ver := VerifySpec(reg.users, reg.cache, Some(OtpSubmission(email, code)), tokens, t1);
      && reg.response == ServerError(SendFailedMsg) && reg.users == users
      && Lookup(reg.cache, email, t0) == Some(code)
      && ver.response == NotFound(UserNotFoundMsg, false) && ver.cache == reg.cache
  {
  }

  /**
   * A login of an unverified user issues a new code that replaces the earlier
   * one: the earlier code no longer verifies, the new one does.
   */
  lemma LoginReplacesCode(users: Users, cache: Cache, email: string, password: string, earlier: string,
                          newer: string, t: int, tokens: Tokens)
    requires email in users && PasswordMatches(users[email], password) && !users[email].isEmailVerified
    requires earlier != newer && newer != ""
    ensures var log := LoginSpec(users, cache, Some(Credentials(email, password)), newer, t, true, tokens);
      && log.response == Forbidden(NotVerifiedMsg, true, email)
      && VerifySpec(log.users, log.cache, Some(OtpSubmission(email, earlier)), tokens, t).response
         == BadRequest(InvalidOtpMsg)
      && VerifySpec(log.users, log.cache, Some(OtpSubmission(email, newer)), tokens, t).response.Status() == 200
  {
  }

  /** A wrong password neither issues a code nor touches the cache or the table. */
  lemma WrongPasswordIssuesNoCode(users: Users, cache: Cache, email: string, password: string, code: string,
                                  now: int, emailSent: bool, tokens: Tokens)
    requires email in users && !PasswordMatches(users[email], password)
    ensures LoginSpec(users, cache, Some(Credentials(email, password)), code, now, emailSent, tokens)
         == Outcome(Unauthorized(InvalidCredentialsMsg), users, cache)
  {
  }
}
