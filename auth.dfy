/**
 * One-time passwords: the `TwoFactorAuth` record and
 * `TwoFactorService.generate_otp`, which retires a user's live codes and
 * issues a new one valid for ten minutes. Times are in seconds.
 */
module Auth {
  import opened Wrappers
  import opened Text
  import Users

  /** Ten minutes, the lifetime of a code. */
  const OtpLifetime: int := 600

  datatype OtpState = OtpState(otp: string, secretKey: Option<string>, expiresAt: int, isUsed: bool, attempts: int)

  class TwoFactorAuth {
    const user: Users.User
    const createdAt: int
    var otp: string
    var secretKey: Option<string>
    var expiresAt: int
    var isUsed: bool
    var attempts: int

    function State(): OtpState
      reads this
    {
      OtpState(otp, secretKey, expiresAt, isUsed, attempts)
    }

    /** A new record: unused and with no failed attempts. */
    constructor (user: Users.User, otp: string, secretKey: Option<string>, createdAt: int, expiresAt: int)
      ensures this.user == user && this.createdAt == createdAt
      ensures State() == OtpState(otp, secretKey, expiresAt, false, 0)
    {
      this.user := user;
      this.createdAt := createdAt;
      this.otp := otp;
      this.secretKey := secretKey;
      this.expiresAt := expiresAt;
      isUsed := false;
      attempts := 0;
    }

    /** `is_expired`: strictly after the expiry instant. */
    predicate IsExpired(now: int)
      reads this
      ensures now <= expiresAt ==> !IsExpired(now)
      ensures now >= expiresAt + 1 ==> IsExpired(now)
    {
      now > expiresAt
    }

    /** `increment_attempts`: one more failed attempt, nothing else changes. */
    method IncrementAttempts()
      modifies this
      ensures State() == old(State()).(attempts := old(attempts) + 1)
    {
      attempts := attempts + 1;
    }

    /** `mark_used`: used from now on, nothing else changes; a second call
        changes nothing. */
    method MarkUsed()
      modifies this
      ensures State() == old(State()).(isUsed := true)
      ensures old(isUsed) ==> State() == old(State())
    {
      isUsed := true;
    }
  }

  /** A code is good for exactly its lifetime: not yet expired at its
      expiry instant, expired one second later. */
  lemma ExpiryIsStrict(t: TwoFactorAuth, issued: int)
    requires t.expiresAt == issued + OtpLifetime
    ensures !t.IsExpired(issued) && !t.IsExpired(issued + OtpLifetime)
    ensures t.IsExpired(issued + OtpLifetime + 1)
    ensures forall now :: t.IsExpired(now) <==> now > t.expiresAt
  {
  }

  /** A code `generate_otp` retires: unused and expiring after `now`. */
  predicate Live(t: TwoFactorAuth, now: int)
    reads t
  {
    !t.isUsed && t.expiresAt > now
  }

  /** The code an e-mail or SMS user gets: the decimal digits of the drawn number. */
  function EmailOtp(randomCode: nat): (otp: string)
    requires 100000 <= randomCode <= 999999
    ensures |otp| == 6 && AllDigits(otp) && otp[0] != '0'
    ensures DigitsValue(otp) == randomCode
  {
    assert Pow10(5) == 100000 && Pow10(6) == 1000000;
    DecimalStringLength(randomCode, 6);
    DigitsValueOfDecimalString(randomCode);
    var otp := DecimalString(randomCode);
    assert otp[0] != '0' by {
      LeadingDigitNonZero(randomCode);
    }
    otp
  }

  /** A positive number is written without a leading zero. */
  lemma {:induction false} LeadingDigitNonZero(n: nat)
    requires n > 0
    ensures DecimalString(n)[0] != '0'
  {
    if n >= 10 {
      LeadingDigitNonZero(n / 10);
    }
  }

  /** The OTP table. */
  class TwoFactorService {
    var records: seq<TwoFactorAuth>

    /** `generate_otp`. The random draw (`random.randint(100000, 999999)`),
        and for the authenticator app the TOTP secret and its current code,
        come in as parameters. */
    method GenerateOtp(user: Users.User, channel: string, now: int, randomCode: nat, totpSecret: string, totpCode: string)
      returns (t: TwoFactorAuth)
      requires 100000 <= randomCode <= 999999
      modifies this, records
      ensures fresh(t) && records == old(records) + [t]
      ensures forall r :: r in old(records) ==>
                r.State() == (if r.user == user && old(Live(r, now)) then old(r.State()).(isUsed := true) else old(r.State()))
      ensures t.user == user && t.expiresAt == now + OtpLifetime && !t.isUsed && t.attempts == 0
      ensures channel == "app" ==> t.secretKey == Some(totpSecret) && t.otp == totpCode
      ensures channel != "app" ==> t.secretKey.None? && t.otp == EmailOtp(randomCode)
      ensures Live(t, now)
      ensures forall r :: r in records && r.user == user && Live(r, now) ==> r == t
    {
      forall r | r in records && r.user == user && !r.isUsed && r.expiresAt > now {
        r.isUsed := true;
      }
      var otp, secret;
      if channel == "app" {
        otp, secret := totpCode, Some(totpSecret);
      } else {
        otp, secret := EmailOtp(randomCode), None;
      }
      t := new TwoFactorAuth(user, otp, secret, now, now + OtpLifetime);
      records := records + [t];
    }
  }
}
