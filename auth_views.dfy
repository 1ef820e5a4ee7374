/**
 * The authentication endpoints of AuthViewSet in backend/apps/users/views.py:
 * register, verify_otp, login and me, over a user table keyed by email and
 * the one-time-code cache.
 *
 * Each endpoint is specified by a function on values (RegisterSpec,
 * VerifySpec, LoginSpec) whose contract states what the endpoint promises;
 * the methods of AuthViewSet update the table and the cache in place and are
 * proved to do exactly what those functions say. Outside effects are
 * arguments: the input validation's verdict (an Option request), the digit
 * draws of the code generator, the outcome of sending the email, the id the
 * database assigns and the tokens the token library mints.
 */
module AuthViews {
  import opened Wrappers
  import opened OtpService

  // ---------------------------------------------------------------- permissions

  datatype Permission = AllowAny | IsAuthenticated

  /** get_permissions: anyone may call login, register and verify_otp; everything else needs a signed-in user. */
  function GetPermissions(action: string): (p: Permission)
    ensures p == AllowAny <==> action == "login" || action == "register" || action == "verify_otp"
  {
    if action in ["login", "register", "verify_otp"] then AllowAny else IsAuthenticated
  }

  /** The routed actions of the view set. */
  datatype Endpoint = Register | VerifyOtp | Login | Me

  /** The action name the router gives each endpoint (the method's name, whatever its URL path). */
  function ActionName(e: Endpoint): string {
    match e
    case Register => "register"
    case VerifyOtp => "verify_otp"
    case Login => "login"
    case Me => "me"
  }

  /** The permission class each endpoint's decorator declares. */
  function DeclaredPermission(e: Endpoint): Permission {
    match e
    case Register => AllowAny
    case VerifyOtp => AllowAny
    case Login => AllowAny
    case Me => IsAuthenticated
  }

  // ---------------------------------------------------------------- data

  /** One row of the user table; the table's key is the email. */
  datatype User = User(userId: nat, password: string, netid: string, isEmailVerified: bool)

  type Users = map<string, User>

  /** A request body that passed validation: email and password. */
  datatype Credentials = Credentials(email: string, password: string)

  /** A verify-otp request body that passed validation. */
  datatype OtpSubmission = OtpSubmission(email: string, otp: string)

  /** An access/refresh token pair, as minted by the token library. */
  datatype Tokens = Tokens(access: string, refresh: string)

  const UserExistsMsg: string := "User with this email already exists. Please login instead."
  const SendFailedMsg: string := "Failed to send verification email. Please try again."
  const UserNotFoundMsg: string := "User not found. Please register first."
  const InvalidOtpMsg: string := "Invalid or expired OTP. Please request a new one."
  const InvalidCredentialsMsg: string := "Invalid credentials"
  const NotVerifiedMsg: string := "Email not verified. Please verify your email using the OTP sent to your email."

  /** The responses the endpoints return. */
  datatype Response =
    | Created(userId: nat, email: string)                                  // 201, register
    | Authenticated(tokens: Tokens, email: string, user: User)            // 200, verify_otp and login
    | Detail(email: string, user: User)                                    // 200, me
    | Invalid                                                              // 400, the body failed validation
    | BadRequest(error: string)                                            // 400
    | Unauthorized(error: string)                                          // 401
    | Forbidden(error: string, requiresVerification: bool, email: string)  // 403
    | NotFound(error: string, requiresRegistration: bool)                  // 404
    | ServerError(error: string)                                           // 500
  {
    function Status(): int {
      match this
      case Created(_, _) => 201
      case Authenticated(_, _, _) => 200
      case Detail(_, _) => 200
      case Invalid => 400
      case BadRequest(_) => 400
      case Unauthorized(_) => 401
      case Forbidden(_, _, _) => 403
      case NotFound(_, _) => 404
      case ServerError(_) => 500
    }
  }

  /** An endpoint's response together with the user table and cache it leaves. */
  datatype Outcome = Outcome(response: Response, users: Users, cache: Cache)

  /** The netid: the part of the email before its first `@` (all of it when there is none). */
  function NetId(email: string): (netid: string)
    ensures netid <= email
    ensures forall i :: 0 <= i < |netid| ==> netid[i] != '@'
    ensures |netid| < |email| ==> email[|netid|] == '@'
  {
    if email == [] || email[0] == '@' then "" else [email[0]] + NetId(email[1..])
  }

  /** The stored password check; hashing is not modelled, so the check is equality. */
  predicate PasswordMatches(u: User, password: string) {
    u.password == password
  }

  // ---------------------------------------------------------------- endpoints on values

  /**
   * register: a taken email is refused with 400 and nothing changes; otherwise
   * an unverified user is added and a fresh code stored; if the email cannot be
   * sent the user is removed again (the code stays) and 500 is returned.
   */
  function RegisterSpec(users: Users, cache: Cache, req: Option<Credentials>, newId: nat,
                        code: string, now: int, emailSent: bool): (out: Outcome)
    ensures out.response.Status() in {201, 400, 500}
    ensures req.None? ==> out == Outcome(Invalid, users, cache)
    ensures out.response.Status() == 201 <==> req.Some? && req.value.email !in users && emailSent
    ensures out.response.Status() == 500 <==> req.Some? && req.value.email !in users && !emailSent
    ensures out.response.Status() != 201 ==> out.users == users
    ensures out.response.Status() == 400 ==> out.cache == cache
    ensures req.Some? && req.value.email in users ==> out.response == BadRequest(UserExistsMsg)
    ensures req.Some? && req.value.email !in users && !emailSent ==> out.response == ServerError(SendFailedMsg)
    ensures req.Some? && req.value.email !in users ==> out.cache == Put(cache, req.value.email, code, now)
    ensures out.response.Status() == 201 ==>
      var email := req.value.email;
      && out.response == Created(newId, email)
      && out.users.Keys == users.Keys + {email}
      && out.users == users[email := User(newId, req.value.password, NetId(email), false)]
  {
    if req.None? then Outcome(Invalid, users, cache)
    else
      var email, password := req.value.email, req.value.password;
      if email in users then Outcome(BadRequest(UserExistsMsg), users, cache)
      else
        var withUser := users[email := User(newId, password, NetId(email), false)];
        var stored := Put(cache, email, code, now);
        if !emailSent then Outcome(ServerError(SendFailedMsg), withUser - {email}, stored)
        else Outcome(Created(newId, email), withUser, stored)
  }

  /**
   * verify_otp: an unknown email gets 404; a code that does not verify gets 400
   * and changes nothing; a good code is consumed, the user marked verified and
   * tokens returned with 200.
   */
  function VerifySpec(users: Users, cache: Cache, req: Option<OtpSubmission>, tokens: Tokens,
                      now: int): (out: Outcome)
    ensures out.response.Status() in {200, 400, 404}
    ensures req.None? ==> out == Outcome(Invalid, users, cache)
    ensures out.response.Status() == 200 <==>
      req.Some? && req.value.email in users && Check(cache, req.value.email, req.value.otp, now).ok
    ensures out.response.Status() != 200 ==> out.users == users && out.cache == cache
    ensures req.Some? && req.value.email !in users ==> out.response == NotFound(UserNotFoundMsg, false)
    ensures req.Some? && req.value.email in users && !Check(cache, req.value.email, req.value.otp, now).ok ==>
      out.response == BadRequest(InvalidOtpMsg)
    ensures out.response.Status() == 200 ==>
      var email := req.value.email;
      && out.users == users[email := users[email].(isEmailVerified := true)]
      && out.cache == Remove(cache, email)
      && out.response == Authenticated(tokens, email, out.users[email])
  {
    if req.None? then Outcome(Invalid, users, cache)
    else
      var email, provided := req.value.email, req.value.otp;
      if email !in users then Outcome(NotFound(UserNotFoundMsg, false), users, cache)
      else
        var verdict := Check(cache, email, provided, now);
        if !verdict.ok then Outcome(BadRequest(InvalidOtpMsg), users, cache)
        else
          var user := users[email].(isEmailVerified := true);
          Outcome(Authenticated(tokens, email, user), users[email := user], verdict.cache)
  }

  /**
   * login: never changes the user table. Unknown email: 404 asking to register.
   * Wrong password: 401 and no code. Right password, unverified: a new code
   * replaces the stored one, then 403 asking to verify, or 500 if the email
   * cannot be sent. Right password, verified: 200 with tokens.
   */
  function LoginSpec(users: Users, cache: Cache, req: Option<Credentials>, code: string, now: int,
                     emailSent: bool, tokens: Tokens): (out: Outcome)
    ensures out.users == users
    ensures out.response.Status() in {200, 400, 401, 403, 404, 500}
    ensures req.None? ==> out == Outcome(Invalid, users, cache)
    ensures req.Some? && req.value.email !in users ==>
      out.response == NotFound(UserNotFoundMsg, true) && out.cache == cache
    ensures req.Some? && req.value.email in users && !PasswordMatches(users[req.value.email], req.value.password) ==>
      out.response == Unauthorized(InvalidCredentialsMsg) && out.cache == cache
    ensures out.cache != cache ==>
      && req.Some? && req.value.email in users
      && PasswordMatches(users[req.value.email], req.value.password)
      && !users[req.value.email].isEmailVerified
    ensures req.Some? && req.value.email in users && PasswordMatches(users[req.value.email], req.value.password)
            && !users[req.value.email].isEmailVerified ==>
      && out.cache == Put(cache, req.value.email, code, now)
      && out.response == if emailSent then Forbidden(NotVerifiedMsg, true, req.value.email)
                         else ServerError(SendFailedMsg)
    ensures out.response.Status() == 200 <==>
      && req.Some? && req.value.email in users
      && PasswordMatches(users[req.value.email], req.value.password)
      && users[req.value.email].isEmailVerified
    ensures out.response.Status() == 200 ==>
      out.response == Authenticated(tokens, req.value.email, users[req.value.email]) && out.cache == cache
  {
    if req.None? then Outcome(Invalid, users, cache)
    else
      var email, password := req.value.email, req.value.password;
      if email !in users then Outcome(NotFound(UserNotFoundMsg, true), users, cache)
      else
        var user := users[email];
        if !PasswordMatches(user, password) then Outcome(Unauthorized(InvalidCredentialsMsg), users, cache)
        else if !user.isEmailVerified then
          var stored := Put(cache, email, code, now);
          if !emailSent then Outcome(ServerError(SendFailedMsg), users, stored)
          else Outcome(Forbidden(NotVerifiedMsg, true, email), users, stored)
        else Outcome(Authenticated(tokens, email, user), users, cache)
  }

  // ---------------------------------------------------------------- the view set

  /** The view set with the user table it reads and writes and the shared code cache. */
  class AuthViewSet {
    var users: Users
    const otp: OtpStore

    constructor (users: Users, otp: OtpStore)
      ensures this.users == users && this.otp == otp
    {
      this.users := users;
      this.otp := otp;
    }

    /** register */
    method Register(req: Option<Credentials>, newId: nat, draws: seq<DigitIndex>, now: int, emailSent: bool)
      returns (resp: Response)
      requires |draws| == OtpLength
      modifies this, otp
      ensures Outcome(resp, users, otp.entries)
           == RegisterSpec(old(users), old(otp.entries), req, newId, GenerateOtp(draws), now, emailSent)
    {
      if req.None? {
        return Invalid;
      }
      var email, password := req.value.email, req.value.password;
      if email in users {
        return BadRequest(UserExistsMsg);
      }
      var netid := NetId(email);
      users := users[email := User(newId, password, netid, false)];
      var code := GenerateOtp(draws);
      otp.StoreOtp(email, code, now);
      if !emailSent {
        users := users - {email};
        return ServerError(SendFailedMsg);
      }
      return Created(newId, email);
    }

    /** verify_otp */
    method VerifyOtp(req: Option<OtpSubmission>, tokens: Tokens, now: int) returns (resp: Response)
      modifies this, otp
      ensures Outcome(resp, users, otp.entries) == VerifySpec(old(users), old(otp.entries), req, tokens, now)
    {
      if req.None? {
        return Invalid;
      }
      var email, provided := req.value.email, req.value.otp;
      if email !in users {
        return NotFound(UserNotFoundMsg, false);
      }
      var user := users[email];
      var ok := otp.VerifyOtp(email, provided, now);
      if !ok {
        return BadRequest(InvalidOtpMsg);
      }
      user := user.(isEmailVerified := true);
      users := users[email := user];
      return Authenticated(tokens, email, user);
    }

    /** login */
    method Login(req: Option<Credentials>, draws: seq<DigitIndex>, now: int, emailSent: bool, tokens: Tokens)
      returns (resp: Response)
      requires |draws| == OtpLength
      modifies otp
      ensures Outcome(resp, users, otp.entries)
           == LoginSpec(users, old(otp.entries), req, GenerateOtp(draws), now, emailSent, tokens)
    {
      if req.None? {
        return Invalid;
      }
      var email, password := req.value.email, req.value.password;
      if email !in users {
        return NotFound(UserNotFoundMsg, true);
      }
      var user := users[email];
      if !PasswordMatches(user, password) {
        return Unauthorized(InvalidCredentialsMsg);
      }
      if !user.isEmailVerified {
        var code := GenerateOtp(draws);
        otp.StoreOtp(email, code, now);
        if !emailSent {
          return ServerError(SendFailedMsg);
        }
        return Forbidden(NotVerifiedMsg, true, email);
      }
      return Authenticated(tokens, email, user);
    }

    /** me: the signed-in user's own record. */
    method Me(email: string) returns (resp: Response)
      requires email in users
      ensures resp.Status() == 200 && resp == Detail(email, users[email])
    {
      resp := Detail(email, users[email]);
    }
  }
}
