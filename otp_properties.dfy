/** Properties of the one-time-code store, stated over the functions of OtpService. */
module OtpProperties {
  import opened Wrappers
  import opened OtpService

  /** Every draw of `OtpLength` digits gives a well-formed code. */
  lemma GeneratedCodeIsOtp(draws: seq<DigitIndex>)
    requires |draws| == OtpLength
    ensures IsOtpCode(GenerateOtp(draws))
  {
  }

  /** Every well-formed code is generated by exactly the draws DrawsOf gives. */
  lemma {:induction false} GenerateOtpOnto(code: string)
    requires forall i :: 0 <= i < |code| ==> IsDigitChar(code[i])
    ensures GenerateOtp(DrawsOf(code)) == code
  {
    if code != [] {
      GenerateOtpOnto(code[1..]);
    }
  }

  /** Distinct draws give distinct codes. */
  lemma {:induction false} GenerateOtpOneToOne(draws: seq<DigitIndex>)
    ensures DrawsOf(GenerateOtp(draws)) == draws
  {
    if draws != [] {
      GenerateOtpOneToOne(draws[1..]);
      assert GenerateOtp(draws)[1..] == GenerateOtp(draws[1..]);
    }
  }

  /** Codes of distinct emails are kept under distinct cache keys. */
  lemma CacheKeysPerEmail(a: string, b: string)
    requires a != b
    ensures CacheKey(a) != CacheKey(b)
  {
  }

  /** A code that has expired never comes back without a new store. */
  lemma ExpiryIsFinal(cache: Cache, email: string, t: int, t': int)
    requires t <= t'
    ensures Lookup(cache, email, t) == None ==> Lookup(cache, email, t') == None
    ensures Lookup(cache, email, t').Some? ==> Lookup(cache, email, t) == Lookup(cache, email, t')
  {
  }

  /** Storing a code makes it readable for exactly the next 600 seconds. */
  lemma StoreThenGet(cache: Cache, email: string, code: string, now: int, t: int)
    requires now <= t
    ensures Lookup(Put(cache, email, code, now), email, t) == Some(code) <==> t < now + OtpTimeoutSeconds
    ensures t >= now + OtpTimeoutSeconds ==> Lookup(Put(cache, email, code, now), email, t) == None
  {
  }

  /** A second store for the same email replaces the first one entirely. */
  lemma StoreReplaces(cache: Cache, email: string, first: string, t1: int, second: string, t2: int)
    ensures Put(Put(cache, email, first, t1), email, second, t2) == Put(cache, email, second, t2)
  {
  }

  /** A stored, unexpired code verifies, and only until its timeout. */
  lemma StoreThenVerify(cache: Cache, email: string, code: string, now: int, t: int)
    requires code != "" && now <= t
    ensures Check(Put(cache, email, code, now), email, code, t).ok <==> t < now + OtpTimeoutSeconds
  {
  }

  /** Nothing verifies when no code is stored, when it has expired, or when it is empty. */
  lemma NoCodeNeverVerifies(cache: Cache, email: string, provided: string, now: int)
    requires Lookup(cache, email, now) == None || Lookup(cache, email, now) == Some("")
    ensures Check(cache, email, provided, now) == Verdict(false, cache)
  {
  }

  /** A wrong guess is rejected and leaves the right code usable. */
  lemma WrongCodeKeepsCode(cache: Cache, email: string, code: string, guess: string, now: int)
    requires Lookup(cache, email, now) == Some(code) && code != "" && guess != code
    ensures Check(cache, email, guess, now) == Verdict(false, cache)
    ensures Check(Check(cache, email, guess, now).cache, email, code, now).ok
  {
  }

  /** A code works once: after a success the same code fails at any later time. */
  lemma OneTimeUse(cache: Cache, email: string, code: string, now: int, later: int)
    requires Check(cache, email, code, now).ok
    ensures !Check(Check(cache, email, code, now).cache, email, code, later).ok
  {
  }

  /** After delete_otp nothing verifies for that email. */
  lemma DeleteThenVerify(cache: Cache, email: string, provided: string, now: int)
    ensures !Check(Remove(cache, email), email, provided, now).ok
  {
  }
}
