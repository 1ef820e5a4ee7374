/**
 * The one-time-code store of backend/apps/users/otp_service.py.
 *
 * The cache is a map from cache keys to entries; an entry holds the code and
 * the instant (in whole seconds) at which the cache stops returning it. The
 * clock is the `now` argument of each operation, since the cache reads the
 * wall clock itself. The randomness of code generation is the sequence of
 * digit draws, and sending the email is left to the callers as a boolean.
 */
module OtpService {
  import opened Wrappers

  /** Minutes a code stays valid. */
  const OtpExpirationMinutes: nat := 10
  /** Number of digits in a code. */
  const OtpLength: nat := 6
  /** The timeout, in seconds, handed to the cache when a code is stored. */
  const OtpTimeoutSeconds: nat := OtpExpirationMinutes * 60

  /** The alphabet a code is drawn from (Python's `string.digits`). */
  const Digits: string := "0123456789"

  /** One random draw: an index into `Digits`. */
  type DigitIndex = d: int | 0 <= d < 10

  predicate IsDigitChar(c: char) {
    '0' as int <= c as int <= '9' as int
  }

  /** A well-formed code: exactly `OtpLength` decimal digits. */
  predicate IsOtpCode(s: string) {
    |s| == OtpLength && forall i :: 0 <= i < |s| ==> IsDigitChar(s[i])
  }

  /** The digit character `Digits[d]`. */
  function DigitChar(d: DigitIndex): (c: char)
    ensures IsDigitChar(c) && c as int - '0' as int == d
    ensures c == Digits[d]
  {
    match d
    case 0 => '0' case 1 => '1' case 2 => '2' case 3 => '3' case 4 => '4'
    case 5 => '5' case 6 => '6' case 7 => '7' case 8 => '8' case _ => '9'
  }

  /**
   * generate_otp: joins the digits picked by the draws. The source always
   * makes `OtpLength` draws; see GeneratedCodeIsOtp.
   */
  function GenerateOtp(draws: seq<DigitIndex>): (code: string)
    ensures |code| == |draws|
    ensures forall i :: 0 <= i < |draws| ==> IsDigitChar(code[i]) && code[i] as int - '0' as int == draws[i]
  {
    if draws == [] then "" else [DigitChar(draws[0])] + GenerateOtp(draws[1..])
  }

  /** The draws that produce a given string of digits: the inverse of GenerateOtp. */
  function DrawsOf(code: string): (draws: seq<DigitIndex>)
    requires forall i :: 0 <= i < |code| ==> IsDigitChar(code[i])
    ensures |draws| == |code|
  {
    if code == [] then []
    else
      assert IsDigitChar(code[0]);
      var d: DigitIndex := code[0] as int - '0' as int;
      [d] + DrawsOf(code[1..])
  }

  /** One cache entry: the stored code and the first second at which it is gone. */
  datatype Entry = Entry(code: string, expiresAt: int)

  /** The shared cache; codes live under the keys made by CacheKey. */
  type Cache = map<string, Entry>

  /** The cache key of an email's code: `otp_` followed by the email. */
  function CacheKey(email: string): (key: string)
    ensures |key| == |email| + 4 && key[..4] == "otp_" && key[4..] == email
  {
    "otp_" + email
  }

  /** get_otp: the code stored for `email`, or None once it is missing or expired. */
  function Lookup(cache: Cache, email: string, now: int): (r: Option<string>)
    ensures r.Some? <==> CacheKey(email) in cache && now < cache[CacheKey(email)].expiresAt
    ensures r.Some? ==> r.value == cache[CacheKey(email)].code
  {
    var key := CacheKey(email);
    if key in cache && now < cache[key].expiresAt then Some(cache[key].code) else None
  }

  /**
   * store_otp: sets the email's entry to `code` with the 600-second timeout,
   * replacing any earlier code; no other email's code changes.
   */
  function Put(cache: Cache, email: string, code: string, now: int): (c: Cache)
    ensures forall t :: Lookup(c, email, t) == if t < now + OtpTimeoutSeconds then Some(code) else None
    ensures forall e, t :: e != email ==> Lookup(c, e, t) == Lookup(cache, e, t)
    ensures c.Keys == cache.Keys + {CacheKey(email)}
    ensures forall k :: k in cache && k != CacheKey(email) ==> c[k] == cache[k]
  {
    cache[CacheKey(email) := Entry(code, now + OtpTimeoutSeconds)]
  }

  /** delete_otp: removes the email's entry and nothing else. */
  function Remove(cache: Cache, email: string): (c: Cache)
    ensures forall t :: Lookup(c, email, t) == None
    ensures forall e, t :: e != email ==> Lookup(c, e, t) == Lookup(cache, e, t)
    ensures c.Keys == cache.Keys - {CacheKey(email)}
    ensures forall k :: k in c ==> c[k] == cache[k]
  {
    cache - {CacheKey(email)}
  }

  /** What verify_otp answers and the cache it leaves behind. */
  datatype Verdict = Verdict(ok: bool, cache: Cache)

  /**
   * verify_otp: succeeds exactly when a live, non-empty code equal to the
   * provided one is stored; a success consumes the code, a failure leaves the
   * cache as it was.
   */
  function Check(cache: Cache, email: string, provided: string, now: int): (v: Verdict)
    ensures v.ok <==> provided != "" && Lookup(cache, email, now) == Some(provided)
    ensures v.cache == if v.ok then Remove(cache, email) else cache
  {
    var stored := Lookup(cache, email, now);
    if stored.None? || stored.value == "" then Verdict(false, cache)
    else if stored.value != provided then Verdict(false, cache)
    else Verdict(true, cache - {CacheKey(email)})
  }

  /** The process-wide cache as used by the OTP functions. */
  class OtpStore {
    var entries: Cache

    constructor ()
      ensures entries == map[]
    {
      entries := map[];
    }

    /** get_otp */
    method GetOtp(email: string, now: int) returns (r: Option<string>)
      ensures r == Lookup(entries, email, now)
    {
      var key := CacheKey(email);
      if key in entries && now < entries[key].expiresAt {
        r := Some(entries[key].code);
      } else {
        r := None;
      }
    }

    /** store_otp */
    method StoreOtp(email: string, code: string, now: int)
      modifies this
      ensures entries == Put(old(entries), email, code, now)
    {
      var key := CacheKey(email);
      entries := entries[key := Entry(code, now + OtpExpirationMinutes * 60)];
    }

    /** verify_otp */
    method VerifyOtp(email: string, provided: string, now: int) returns (ok: bool)
      modifies this
      ensures Verdict(ok, entries) == Check(old(entries), email, provided, now)
    {
      var stored := GetOtp(email, now);
      if stored.None? || stored.value == "" {
        return false;
      }
      if stored.value != provided {
        return false;
      }
      var key := CacheKey(email);
      entries := entries - {key};
      return true;
    }

    /** delete_otp */
    method DeleteOtp(email: string)
      modifies this
      ensures entries == Remove(old(entries), email)
    {
      var key := CacheKey(email);
      entries := entries - {key};
    }
  }
}
