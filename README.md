# Email one-time-code account verification, modelled in Dafny

This project models the account verification flow of the campus marketplace backend:

- **The code store** (`backend/apps/users/otp_service.py`). It keeps a six-digit code per email in the shared cache under the key `otp_<email>`, with a ten-minute timeout. `store_otp` overwrites the entry. `get_otp` returns nothing once the entry is missing or expired. `verify_otp` consumes the code on a match. `delete_otp` clears the entry.
- **The authentication endpoints** of `AuthViewSet` (`backend/apps/users/views.py`):
  - `register` creates an unverified user and emails a code.
  - `verify_otp` checks the code and marks the user verified.
  - `login` returns tokens to verified users and sends a fresh code to unverified ones.
  - `me` returns the signed-in user.
  - `get_permissions` chooses which actions are open to anonymous callers.

Files:

- `wrappers.dfy`: `Option`.
- `otp_service.dfy`, module `OtpService`:
  - the cache as a `map` from cache key to `Entry(code, expiresAt)`;
  - the operations as functions on that map (`Lookup`, `Put`, `Check`, `Remove`);
  - the class `OtpStore`, whose methods update the map in place and are proved equal to those functions;
  - code generation (`GenerateOtp`).
- `otp_properties.dfy`, module `OtpProperties`: expiry, replacement, one-time use, wrong guesses and deletion, plus a bijection between digit draws and codes.
- `auth_views.dfy`, module `AuthViews`:
  - the user table (`map` from email to `User(userId, password, netid, isEmailVerified)`);
  - the responses with their status codes;
  - each endpoint as a function on values (`RegisterSpec`, `VerifySpec`, `LoginSpec`), whose contract states what the endpoint promises;
  - the class `AuthViewSet`, whose methods update the table and the `OtpStore` in place and are proved to match those functions.
- `auth_properties.dfy`, module `AuthProperties`:
  - invariants the endpoints keep: netids stay derived from emails, no user is lost, and only `verify_otp` changes an existing record, by setting its verified flag to true;
  - whole flows, such as register → verify → login, an expired code, a failed registration, and login replacing a code.

Outside effects are arguments of the operations:

- the clock (`now`, whole seconds);
- the random digit draws;
- whether sending the email succeeded (`emailSent`);
- the id the database assigns (`newId`);
- the minted token pair (`tokens`);
- the input validation's verdict (`None` is a body the serializer rejected, which gives 400).

## Model

| member | source | states |
|---|---|---|
| `OtpService.GenerateOtp` | backend/apps/users/otp_service.py:19-23 | one digit character per draw, in order; the code's length is the number of draws |
| `OtpProperties.GeneratedCodeIsOtp` | backend/apps/users/otp_service.py:16-23 | a code generated from `OTP_LENGTH` draws is exactly 6 characters, all decimal digits |
| `OtpProperties.GenerateOtpOnto` | backend/apps/users/otp_service.py:19-23 | every string of decimal digits is the code of some draws, so every 6-digit code can be issued |
| `OtpProperties.GenerateOtpOneToOne` | backend/apps/users/otp_service.py:19-23 | distinct draws give distinct codes, so draws and codes are in one-to-one correspondence |
| `OtpService.CacheKey` | backend/apps/users/otp_service.py:58 | the key is `otp_` followed by the email, which can be recovered from the key |
| `OtpProperties.CacheKeysPerEmail` | backend/apps/users/otp_service.py:58-59 | distinct emails have distinct cache keys |
| `OtpService.Lookup` | backend/apps/users/otp_service.py:62-68 | returns the code stored under the email's `otp_` key while the current time is before its expiry, and nothing when the entry is missing or expired |
| `OtpService.Put` | backend/apps/users/otp_service.py:54-59 | after storing, the email reads back the new code for exactly `OTP_EXPIRATION_MINUTES * 60` seconds and nothing afterwards; every other key of the cache keeps its value |
| `OtpService.Remove` | backend/apps/users/otp_service.py:92-97 | after deleting, the email reads nothing at any time; every other key of the cache keeps its value |
| `OtpService.Check` | backend/apps/users/otp_service.py:71-89 | succeeds if and only if a live code equal to the non-empty provided one is stored; on success the entry is removed, otherwise the cache is unchanged |
| `OtpService.OtpStore.GetOtp` | backend/apps/users/otp_service.py:62-68 | returns the stored code while it is live, otherwise nothing |
| `OtpService.OtpStore.StoreOtp` | backend/apps/users/otp_service.py:54-59 | the cache becomes `Put` of the old cache |
| `OtpService.OtpStore.VerifyOtp` | backend/apps/users/otp_service.py:71-89 | the answer and the new cache are those of `Check` on the old cache |
| `OtpService.OtpStore.DeleteOtp` | backend/apps/users/otp_service.py:92-97 | the cache becomes `Remove` of the old cache |
| `OtpProperties.ExpiryIsFinal` | backend/apps/users/otp_service.py:62-68 | once a code reads as missing it stays missing; a code live at a later time was live, and the same, earlier |
| `OtpProperties.StoreThenGet` | backend/apps/users/otp_service.py:54-68 | from the store time on, the code reads back until 600 seconds have passed, and reads as missing afterwards |
| `OtpProperties.StoreReplaces` | backend/apps/users/otp_service.py:58-59 | a second store for the same email entirely replaces the first |
| `OtpProperties.StoreThenVerify` | backend/apps/users/otp_service.py:54-89 | a stored non-empty code verifies exactly while fewer than 600 seconds have passed |
| `OtpProperties.NoCodeNeverVerifies` | backend/apps/users/otp_service.py:76-79 | with no code, an expired code or an empty code stored, verification fails and the cache is unchanged |
| `OtpProperties.WrongCodeKeepsCode` | backend/apps/users/otp_service.py:81-83 | a wrong code is refused, the cache is unchanged, and the right code still verifies afterwards |
| `OtpProperties.OneTimeUse` | backend/apps/users/otp_service.py:85-89 | after a successful verification the same code fails at any later time |
| `OtpProperties.DeleteThenVerify` | backend/apps/users/otp_service.py:92-97 | after deletion no code verifies for that email |
| `AuthViews.GetPermissions` | backend/apps/users/views.py:34-40 | AllowAny exactly for `login`, `register` and `verify_otp`; every other action needs authentication |
| `AuthProperties.PermissionsAgreeWithDecorators` | backend/apps/users/views.py:34-42 | for each routed action, `get_permissions` gives the permission class its decorator declares |
| `AuthViews.NetId` | backend/apps/users/views.py:65 | a prefix of the email with no `@`, followed in the email by `@` or by nothing: the part before the first `@` |
| `AuthViews.RegisterSpec` | backend/apps/users/views.py:43-100 | statuses and state changes of register, listed below this table |
| `AuthViews.VerifySpec` | backend/apps/users/views.py:103-150 | statuses and state changes of verify_otp, listed below this table |
| `AuthViews.LoginSpec` | backend/apps/users/views.py:153-229 | statuses and state changes of login, listed below this table |
| `AuthViews.AuthViewSet.Register` | backend/apps/users/views.py:43-100 | response, user table and cache are those of `RegisterSpec` on the old state, with the code generated from the draws |
| `AuthViews.AuthViewSet.VerifyOtp` | backend/apps/users/views.py:103-150 | response, user table and cache are those of `VerifySpec` on the old state |
| `AuthViews.AuthViewSet.Login` | backend/apps/users/views.py:153-229 | may modify only the code store, never the user table; response and cache are those of `LoginSpec` |
| `AuthViews.AuthViewSet.Me` | backend/apps/users/views.py:232-239 | 200 with the signed-in user's own record |
| `AuthProperties.RegisterPreservesUsers` | backend/apps/users/views.py:56-85 | register keeps every existing user exactly as it was and adds at most the requested email; netids remain the email prefix before the first `@` |
| `AuthProperties.VerifyPreservesUsers` | backend/apps/users/views.py:133-135 | verify_otp keeps every user's id, password and netid, and never un-verifies anyone |
| `AuthProperties.OnlyVerifySetsTheFlag` | backend/apps/users/views.py:133-135 | register and login never make an unverified or new user verified; verify_otp does so only on its 200 response for that email |
| `AuthProperties.RegisterVerifyLogin` | backend/apps/users/views.py:43-219 | registering, then verifying with the emailed code within ten minutes, gives 201 then 200 and a verified user; reusing the code gives 400; logging in with the password gives 200 with tokens |
| `AuthProperties.ExpiredCodeRefused` | backend/apps/users/views.py:125-131 | a code used ten minutes or more after registration gives 400, and the user stays unverified |
| `AuthProperties.FailedRegistrationLeavesNoAccount` | backend/apps/users/views.py:74-85 | when sending fails, register gives 500 and leaves the user table as it was, while the code stays stored; verify_otp then gives 404 without touching the cache |
| `AuthProperties.LoginReplacesCode` | backend/apps/users/views.py:179-207 | login of an unverified user with the right password gives 403 with `requires_verification`; the earlier code then fails with 400 and the new one verifies |
| `AuthProperties.WrongPasswordIssuesNoCode` | backend/apps/users/views.py:172-176 | a wrong password gives 401 and leaves the user table and the cache unchanged |

`RegisterSpec`:

- The status is 201, 400 or 500.
- A body that fails validation gives 400 (`Invalid`) and changes neither the user table nor the cache.
- 201 if and only if the request is valid, the email is new and the email was sent.
- 500 if and only if the request is valid, the email is new and the send failed.
- Any response other than 201 leaves the user table unchanged.
- 400 also leaves the cache unchanged.
- A taken email gives `UserExistsMsg`.
- A failed send gives `ServerError(SendFailedMsg)`.
- Whenever the email is new, a fresh code is stored for it, even if the send then fails.
- 201 adds exactly one user: `isEmailVerified = false`, the `NetId` of the email, and the response echoes the id and email.

`VerifySpec`:

- The status is 200, 400 or 404.
- A body that fails validation gives 400 (`Invalid`) and changes neither the user table nor the cache.
- 200 if and only if the user exists and `Check` succeeds.
- Any response other than 200 changes neither the user table nor the cache.
- An unknown email gives 404 without `requires_registration`.
- A code that fails `Check` gives `InvalidOtpMsg`.
- On 200 only that user's flag becomes true, the code is removed, and tokens are returned with the updated user.

`LoginSpec`:

- The user table is never changed.
- A body that fails validation gives 400 (`Invalid`) and leaves the cache unchanged.
- An unknown email gives 404 with `requires_registration`, and the cache is unchanged.
- A wrong password gives 401, and the cache is unchanged.
- The cache changes only for an unverified user with the right password. Its code is then replaced, followed by 403 with `requires_verification`, or by 500 if sending fails.
- 200 if and only if the password is right and the user is verified. The response carries tokens and the cache is unchanged.

## Left out

- `send_otp_email` (backend/apps/users/otp_service.py:26-51): the SMTP delivery, message text and sender lookup are not modelled. Only its boolean result is, as the `emailSent` argument.
- `generate_otp`: the randomness of `random.choices` is the `draws` argument, a sequence of indices into the ten digits. Nothing is modelled about how the draws are distributed.
- Password hashing: the user record keeps the password, and `check_password` is equality (`PasswordMatches`).
- Token minting (`RefreshToken.for_user`): its result is the `tokens` argument.
- `UserDetailSerializer`: its output is represented by the user record itself.
- The `message` texts of the 200 and 201 responses are not modelled.
- `UserAuthSerializer` and `OTPVerificationSerializer` are not part of this model. Their verdict is an `Option` request, where `None` gives 400 (`Invalid`). Any normalisation they apply to the email is not modelled.
- The clock is an integer number of seconds passed to each operation, where the cache compares floating-point wall-clock times. An entry is live while `now < expiresAt`.
- Reading an expired entry is a pure read. Expired entries stay in the map but can no longer be observed. A cache backend may purge them lazily when they are read.
- The cache key adds the `otp_` prefix to the email. In the model, storing or deleting a code reads and writes only that key.
- Eviction and culling are not modelled. The cache here is one store shared by every request, and it keeps each entry until its timeout. Real backends need not do so:
  - Django's local-memory backend culls a share of its entries once it is full, which may drop other emails' live codes.
  - memcached and Redis may evict entries under memory pressure.
  - A local-memory cache is private to each worker process, so a code stored by one worker may be invisible to another.

  The liveness half of these properties therefore describes this idealised cache, and a real deployment may lose a code earlier: `OtpService.Put` (other keys keep their values), `OtpProperties.StoreThenGet` (the code reads back until 600 seconds), `OtpProperties.StoreThenVerify` (it verifies while fewer than 600 seconds have passed), `OtpProperties.WrongCodeKeepsCode` (the right code still verifies) and `AuthProperties.RegisterVerifyLogin` (the verify step gives 200). The safety properties hold for any backend that drops entries early: no code outlives its timeout, a code works once, a wrong code is refused, and a missing code never verifies.
- `newId` comes from the database. Its uniqueness among user ids is not modelled.
- `AuthViews.AuthViewSet.Me` assumes the caller is an existing user. The framework enforces the `IsAuthenticated` check before the view runs, and that check is not modelled.
- Logging, and concurrent requests against the cache and the user table, are not modelled.
- The chat subsystem, listings, URL routing, configuration and the frontend are outside this model. The chat implementation files are not part of this model.
