/**
 * The Flutterwave client: input validators, the bounded retry loop around
 * each HTTP request, payment initialisation, verification and the checks
 * a webhook must pass. Requests are not sent: each call takes a `Script`,
 * the outcome each of the (at most three) requests would have.
 */
module Gateway {
  import opened Wrappers
  import opened Json
  import opened Text

  /** Largest amount the client accepts (100 million). */
  const MaxAmount: real := 100000000.0
  const MaxRetries: nat := 3
  /** Base of the linear back-off, in seconds. */
  const RetryDelay: nat := 1
  const AllowedPaymentOptions: seq<Json> := [JStr("card"), JStr("banktransfer"), JStr("mobilemoney")]
  const Redacted: string := "***REDACTED***"

  /** What a Python call can raise, as far as the client's handlers tell
      them apart: a ValueError with its message, or anything else. */
  datatype Raised = ValueError(message: string) | OtherError

  // ---------------------------------------------------------------------
  // Validators
  // ---------------------------------------------------------------------

  /** Python's `float(value)` on a decoded JSON value; None when it raises
      ValueError or TypeError. */
  function ToFloat(j: Json): (r: Option<PyFloat>)
    ensures j.JStr? ==> r == ParseFloat(j.s)
  {
    match j
    case JNum(n) => Some(Finite(n))
    case JNaN => Some(NaN)
    case JInfinity(negative) => Some(Infinite(negative))
    case JBool(b) => Some(Finite(if b then 1.0 else 0.0))
    case JStr(s) => ParseFloat(s)
    case _ => None
  }

  /** Python's `f <= 0` on a float: false for NaN. */
  predicate AtMostZero(f: PyFloat)
  {
    (f.Finite? && f.value <= 0.0) || (f.Infinite? && f.negative)
  }

  /** Python's `f > 100000000` on a float: false for NaN. */
  predicate AboveMaximum(f: PyFloat)
  {
    (f.Finite? && f.value > MaxAmount) || (f.Infinite? && !f.negative)
  }

  /** The amounts the client means to accept: finite, in (0, 100 million]. */
  predicate InAmountRange(f: PyFloat)
  {
    f.Finite? && 0.0 < f.value <= MaxAmount
  }

  /** The two bound tests let through exactly the amounts in range and NaN. */
  lemma BoundsMissOnlyNan(f: PyFloat)
    ensures !AtMostZero(f) && !AboveMaximum(f) <==> InAmountRange(f) || f.NaN?
  {
  }

  /** `_validate_input_amount` as written. The "must be positive" and
      "exceeds maximum" errors are caught by its own handler, so every
      refusal surfaces as "Invalid amount format"; NaN fails both bound
      tests and is returned. */
  function ValidateAmountAsWritten(amount: Json): (r: Result<PyFloat, string>)
    ensures r.Ok? <==> ToFloat(amount).Some? && !AtMostZero(ToFloat(amount).value) && !AboveMaximum(ToFloat(amount).value)
    ensures r.Ok? ==> r.value == ToFloat(amount).value
    ensures r.Err? ==> r.error == "Invalid amount format"
  {
    match ToFloat(amount)
    case None => Err("Invalid amount format")
    case Some(v) =>
      if AtMostZero(v) then Err("Invalid amount format")
      else if AboveMaximum(v) then Err("Invalid amount format")
      else Ok(v)
  }

  /** `_validate_input_amount` as intended: a finite amount in
      (0, 100 million], refused otherwise with "Invalid amount format". */
  function ValidateAmount(amount: Json): (r: Result<real, string>)
    ensures r.Ok? <==> ToFloat(amount).Some? && InAmountRange(ToFloat(amount).value)
    ensures r.Ok? ==> ToFloat(amount) == Some(Finite(r.value))
    ensures r.Err? ==> r.error == "Invalid amount format"
  {
    match ToFloat(amount)
    case Some(Finite(v)) =>
      if v <= 0.0 then Err("Invalid amount format")
      else if v > MaxAmount then Err("Invalid amount format")
      else Ok(v)
    case _ => Err("Invalid amount format")
  }

  /** The check as written and as intended differ on NaN alone: the
      written one accepts it, the intended one refuses it. */
  lemma AmountCheckMissesOnlyNan(amount: Json)
    ensures ValidateAmount(amount).Ok? <==> ValidateAmountAsWritten(amount).Ok? && ToFloat(amount) != Some(NaN)
    ensures ValidateAmount(amount).Ok? ==> ValidateAmountAsWritten(amount) == Ok(Finite(ValidateAmount(amount).value))
    ensures ToFloat(amount) == Some(NaN) ==> ValidateAmountAsWritten(amount) == Ok(NaN) && ValidateAmount(amount).Err?
  {
    if ToFloat(amount).Some? {
      BoundsMissOnlyNan(ToFloat(amount).value);
    }
  }

  /** As written, "nan" and "-nan" pass the amount check. */
  lemma NanAmountIsAccepted()
    ensures ValidateAmountAsWritten(JStr("nan")) == Ok(NaN)
    ensures ValidateAmountAsWritten(JStr("-nan")) == Ok(NaN)
    ensures ValidateAmount(JStr("nan")).Err? && ValidateAmount(JStr("-nan")).Err?
  {
    NanRead();
    MinusNanRead();
    NanAmountRead("nan");
    NanAmountRead("-nan");
  }

  /** A string `float` reads as NaN passes the written check only. */
  lemma NanAmountRead(s: string)
    requires ParseFloat(s) == Some(NaN)
    ensures ValidateAmountAsWritten(JStr(s)) == Ok(NaN) && ValidateAmount(JStr(s)).Err?
  {
    StringAmount(s);
    NanAmount(JStr(s));
  }

  /** `float` of a JSON string is `float` of its text. */
  lemma StringAmount(s: string)
    ensures ToFloat(JStr(s)) == ParseFloat(s)
  {
    var j := JStr(s);
    assert j.JStr? && j.s == s;
  }

  /** An amount that converts to NaN passes the written check only. */
  lemma NanAmount(amount: Json)
    requires ToFloat(amount) == Some(NaN)
    ensures ValidateAmountAsWritten(amount) == Ok(NaN) && ValidateAmount(amount).Err?
  {
  }

  /** A numeric string within the limit is read and accepted as it is. */
  lemma ValidateAmountAcceptsNumericString()
    ensures ValidateAmount(JStr("50000000")) == Ok(50000000.0)
  {
    var s := "50000000";
    FiftyMillionDigits();
    ParseFloatOfDigits(s);
    StringAmount(s);
    FiniteAmountAccepted(JStr(s), 50000000.0);
  }

  /** An amount that converts to a finite number in range is accepted as that number. */
  lemma FiniteAmountAccepted(amount: Json, v: real)
    requires ToFloat(amount) == Some(Finite(v)) && 0.0 < v <= MaxAmount
    ensures ValidateAmount(amount) == Ok(v)
  {
  }

  lemma FiftyMillionDigits()
    ensures AllDigits("50000000") && DigitsValue("50000000") == 50000000
  {
    var s := "50000000";
    assert DigitsValue(s[..1]) == 5;
    assert s[..2][..1] == s[..1];
    assert DigitsValue(s[..2]) == 50;
    assert s[..3][..2] == s[..2];
    assert DigitsValue(s[..3]) == 500;
    assert s[..4][..3] == s[..3];
    assert DigitsValue(s[..4]) == 5000;
    assert s[..5][..4] == s[..4];
    assert DigitsValue(s[..5]) == 50000;
    assert s[..6][..5] == s[..5];
    assert DigitsValue(s[..6]) == 500000;
    assert s[..7][..6] == s[..6];
    assert DigitsValue(s[..7]) == 5000000;
    assert s[..8][..7] == s[..7];
    assert s[..8] == s;
  }

  /** An amount written with a leading minus sign is refused, whatever
      follows; as written, only "-nan" (in any case) gets through. */
  lemma ValidateAmountRefusesNegative(rest: string)
    ensures ValidateAmount(JStr("-" + rest)) == Err("Invalid amount format")
    ensures ValidateAmountAsWritten(JStr("-" + rest)).Ok? ==> ValidateAmountAsWritten(JStr("-" + rest)) == Ok(NaN)
  {
    ParseFloatOfMinus(rest);
    StringAmount("-" + rest);
    NegativeAmount(JStr("-" + rest));
  }

  /** An amount that converts to NaN, minus infinity or a number at most
      zero is refused by the intended check; only NaN passes the written one. */
  lemma NegativeAmount(amount: Json)
    requires var f := ToFloat(amount);
             f.Some? ==> f.value.NaN? || (f.value.Infinite? && f.value.negative) || (f.value.Finite? && f.value.value <= 0.0)
    ensures ValidateAmount(amount) == Err("Invalid amount format")
    ensures ValidateAmountAsWritten(amount).Ok? ==> ValidateAmountAsWritten(amount) == Ok(NaN)
  {
  }

  datatype Customer = Customer(email: string, name: string, phonenumber: string)

  /** `_sanitize_customer_data`. A missing or falsy email or name and an
      email without '@' raise ValueError; a value that is not a string
      raises AttributeError or TypeError (`OtherError`). */
  function SanitizeCustomerData(data: map<string, Json>): (r: Result<Customer, Raised>)
    ensures ("email" !in data || !Truthy(data["email"]))
            ==> r == Err(ValueError("Missing required customer field: email"))
    ensures "email" in data && Truthy(data["email"]) && ("name" !in data || !Truthy(data["name"]))
            ==> r == Err(ValueError("Missing required customer field: name"))
    ensures && "email" in data && data["email"].JStr? && data["email"].s != [] && '@' !in data["email"].s
            && "name" in data && Truthy(data["name"])
            ==> r == Err(ValueError("Invalid email format"))
    ensures r.Ok? ==> && "email" in data && data["email"].JStr? && '@' in data["email"].s
                      && r.value.email == Lower(Strip(data["email"].s))
    ensures r.Ok? ==> && "name" in data && data["name"].JStr? && data["name"].s != []
                      && r.value.name == Take(Strip(data["name"].s), 200)
    ensures r.Ok? ==> && GetOr(data, "phonenumber", JStr("")).JStr?
                      && r.value.phonenumber == Take(Strip(GetOr(data, "phonenumber", JStr("")).s), 20)
  {
    if "email" !in data || !Truthy(data["email"]) then Err(ValueError("Missing required customer field: email"))
    else if "name" !in data || !Truthy(data["name"]) then Err(ValueError("Missing required customer field: name"))
    else
      var email, name := data["email"], data["name"];
      assert email.JStr? ==> email.s != [];
      assert name.JStr? ==> name.s != [];
      SanitizePresent(email, name, GetOr(data, "phonenumber", JStr("")))
  }

  /** The rest of `_sanitize_customer_data`, once email and name are present. */
  function SanitizePresent(email: Json, name: Json, phone: Json): (r: Result<Customer, Raised>)
    ensures email.JStr? && '@' !in email.s ==> r == Err(ValueError("Invalid email format"))
    ensures r.Ok? ==> && email.JStr? && '@' in email.s && name.JStr? && phone.JStr?
                      && r == Ok(Customer(Lower(Strip(email.s)), Take(Strip(name.s), 200), Take(Strip(phone.s), 20)))
  {
    match Contains(email, "@")
    case None => Err(OtherError)
    case Some(hasAt) =>
      if !hasAt then Err(ValueError("Invalid email format"))
      else if email.JStr? && name.JStr? && phone.JStr? then
        Ok(Customer(Lower(Strip(email.s)), Take(Strip(name.s), 200), Take(Strip(phone.s), 20)))
      else Err(OtherError)
  }

  /** The shape of a normalised email: it holds '@', no upper-case letter
      and no surrounding whitespace. */
  predicate NormalEmail(s: string)
  {
    && '@' in s
    && (forall k :: 0 <= k < |s| ==> !('A' <= s[k] <= 'Z'))
    && (s != [] ==> !IsSpace(s[0]) && !IsSpace(s[|s| - 1]))
  }

  /** `email.strip().lower()` of an email holding '@' has that shape. */
  lemma NormalisedEmailShape(e: string)
    requires '@' in e
    ensures NormalEmail(Lower(Strip(e)))
  {
    StripKeepsNonSpace(e, '@');
    var t := Strip(e);
    LoweredShape(t);
    assert NormalEmail(Lower(t));
  }

  /** Lower-casing a string that holds '@' and has no surrounding
      whitespace gives a normalised email. */
  lemma LoweredShape(t: string)
    requires '@' in t
    requires t != [] ==> !IsSpace(t[0]) && !IsSpace(t[|t| - 1])
    ensures NormalEmail(Lower(t))
  {
    var i :| 0 <= i < |t| && t[i] == '@';
    assert Lower(t)[i] == '@';
    LowerKeepsEnds(t);
  }

  /** A sanitised customer has a normalised email, a name of at most 200
      characters and a phone number of at most 20. */
  lemma SanitizedCustomerShape(data: map<string, Json>)
    requires SanitizeCustomerData(data).Ok?
    ensures var c := SanitizeCustomerData(data).value;
            NormalEmail(c.email) && |c.name| <= 200 && |c.phonenumber| <= 20
  {
    NormalisedEmailShape(data["email"].s);
  }

  /** A name made only of whitespace passes the "missing field" check,
      which looks at the unstripped value, and comes out empty. */
  lemma BlankNameIsAccepted(data: map<string, Json>)
    requires "email" in data && data["email"].JStr? && '@' in data["email"].s
    requires "name" in data && data["name"].JStr? && data["name"].s != []
    requires forall k :: 0 <= k < |data["name"].s| ==> IsSpace(data["name"].s[k])
    requires GetOr(data, "phonenumber", JStr("")).JStr?
    ensures SanitizeCustomerData(data).Ok? && SanitizeCustomerData(data).value.name == ""
  {
    SanitizeAccepts(data);
    BlankStripsToEmpty(data["name"].s);
  }

  /** String fields, an email holding '@' and a non-empty name: the
      sanitiser accepts the data. */
  lemma SanitizeAccepts(data: map<string, Json>)
    requires "email" in data && data["email"].JStr? && '@' in data["email"].s
    requires "name" in data && data["name"].JStr? && data["name"].s != []
    requires GetOr(data, "phonenumber", JStr("")).JStr?
    ensures SanitizeCustomerData(data).Ok?
  {
    AtSignFound(data["email"].s);
  }

  /** `'@' in email` on a string that holds '@'. */
  lemma AtSignFound(email: string)
    requires '@' in email
    ensures Contains(JStr(email), "@") == Some(true)
  {
    assert "@"[0] == '@';
  }

  /** `_validate_webhook_data`: `event` and `data` present and `'tx_ref' in data`.
      None when `in` raises (a `data` that is null, a number or a boolean). */
  function ValidateWebhookData(webhook: map<string, Json>): (r: Option<bool>)
    ensures "event" !in webhook || "data" !in webhook ==> r == Some(false)
    ensures "event" in webhook && "data" in webhook && webhook["data"].JObj?
            ==> r == Some("tx_ref" in webhook["data"].fields)
  {
    if "event" !in webhook || "data" !in webhook then Some(false)
    else Contains(webhook["data"], "tx_ref")
  }

  const TransactionFields: seq<string> := ["id", "tx_ref", "amount", "status", "currency"]

  /** `_validate_transaction_data` as written: the five required keys and
      an amount that fails neither `<= 0` nor `> 100000000` (so NaN
      passes). None when the key test itself raises. */
  function ValidateTransactionDataAsWritten(data: Json): (r: Option<bool>)
    ensures r.None? <==> IsScalar(data)
    ensures r == Some(true) <==>
              && data.JObj?
              && (forall k :: k in TransactionFields ==> k in data.fields)
              && ToFloat(data.fields["amount"]).Some?
              && !AtMostZero(ToFloat(data.fields["amount"]).value)
              && !AboveMaximum(ToFloat(data.fields["amount"]).value)
  {
    match Contains(data, "id")
    case None => None
    case Some(_) =>
      if !data.JObj? then Some(false)
      else if !(forall k :: k in TransactionFields ==> k in data.fields) then Some(false)
      else match ToFloat(data.fields["amount"])
        case None => Some(false)
        case Some(v) => Some(!(AtMostZero(v) || AboveMaximum(v)))
  }

  /** `_validate_transaction_data` as intended: the five required keys and
      a finite amount in (0, 100 million]. None when the key test itself
      raises. */
  function ValidateTransactionData(data: Json): (r: Option<bool>)
    ensures r.None? <==> IsScalar(data)
    ensures r == Some(true) <==>
              && data.JObj?
              && (forall k :: k in TransactionFields ==> k in data.fields)
              && ToFloat(data.fields["amount"]).Some?
              && InAmountRange(ToFloat(data.fields["amount"]).value)
  {
    match Contains(data, "id")
    case None => None
    case Some(_) =>
      if !data.JObj? then Some(false)
      else if !(forall k :: k in TransactionFields ==> k in data.fields) then Some(false)
      else match ToFloat(data.fields["amount"])
        case Some(Finite(v)) => Some(0.0 < v <= MaxAmount)
        case _ => Some(false)
  }

  /** The transaction check as written and as intended differ on a NaN
      amount alone, which only the written one accepts. */
  lemma TransactionCheckMissesOnlyNan(data: Json)
    ensures ValidateTransactionData(data) == Some(true) <==>
              && ValidateTransactionDataAsWritten(data) == Some(true)
              && ToFloat(data.fields["amount"]) != Some(NaN)
    ensures && data.JObj? && (forall k :: k in TransactionFields ==> k in data.fields)
            && data.fields["amount"] == JStr("nan")
            ==> ValidateTransactionDataAsWritten(data) == Some(true) && ValidateTransactionData(data) == Some(false)
  {
    if data.JObj? && (forall k :: k in TransactionFields ==> k in data.fields) && ToFloat(data.fields["amount"]).Some? {
      BoundsMissOnlyNan(ToFloat(data.fields["amount"]).value);
    }
    NanRead();
    StringAmount("nan");
  }

  /** `verify_webhook_signature`. `expected` is the hex HMAC-SHA256 of the
      compact JSON body under the webhook secret, computed outside the model. */
  function VerifyWebhookSignature(signature: Option<string>, expected: string): (ok: bool)
    ensures ok <==> signature.Some? && signature.value != "" && signature.value == expected
  {
    match signature
    case None => false
    case Some(s) => if s == "" then false else s == expected
  }

  /** The branches of `handle_webhook` once signature and shape are checked. */
  datatype WebhookRoute = ChargeCompleted | ChargeFailed | TransferEvent | Unhandled

  function RouteOf(event: Json): (route: WebhookRoute)
    ensures route == ChargeCompleted <==> event == JStr("charge.completed")
    ensures route == ChargeFailed <==> event == JStr("charge.failed")
    ensures route == TransferEvent <==> event in [JStr("transfer.completed"), JStr("transfer.reversed")]
  {
    if event == JStr("charge.completed") then ChargeCompleted
    else if event == JStr("charge.failed") then ChargeFailed
    else if event in [JStr("transfer.completed"), JStr("transfer.reversed")] then TransferEvent
    else Unhandled
  }

  /** `_generate_secure_reference`: `{prefix}_{timestamp}_{random}`. */
  function SecureReference(prefix: string, timestamp: nat, random: string): (r: string)
    ensures |r| == |prefix| + |DecimalString(timestamp)| + |random| + 2
    ensures r[..|prefix| + 1] == prefix + "_"
    ensures r[|r| - |random| - 1..] == "_" + random
  {
    prefix + "_" + DecimalString(timestamp) + "_" + random
  }

  // ---------------------------------------------------------------------
  // The retry loop of `_make_secure_request`
  // ---------------------------------------------------------------------

  /** A response: its status code and its body, which is either JSON or
      text that `response.json()` cannot decode (a ValueError). */
  datatype Body = JsonBody(json: Json) | NotJson(decodeError: string)
  datatype HttpResponse = HttpResponse(statusCode: int, body: Body)

  /** What one call of `requests.request` does. */
  datatype RequestOutcome =
    | Responded(response: HttpResponse)
    | TimedOut
    | ConnectionFailed
    | SslFailed
    | OtherFailure(error: Raised)

  predicate Transient(o: RequestOutcome)
  {
    o.TimedOut? || o.ConnectionFailed?
  }

  /** The outcome of each of the three requests the loop may issue. */
  type Script = s: seq<RequestOutcome> | |s| == MaxRetries witness [TimedOut, TimedOut, TimedOut]

  datatype RequestResult = Returned(response: HttpResponse) | Failed(error: Raised)

  /** A run of the loop: what it returns or raises, how many requests it
      issued and the delays it slept, in order. */
  datatype RequestRun = RequestRun(result: RequestResult, calls: nat, sleeps: seq<nat>)

  /** "Secure connection failed" and "Max retries exceeded for Flutterwave
      API" are plain `Exception`s, so the callers see `OtherError`. */
  const SslAbort: RequestResult := Failed(OtherError)
  const Exhausted: RequestResult := Failed(OtherError)

  /** The loop from iteration `attempt` on. */
  function RunFrom(script: Script, attempt: nat): (r: RequestRun)
    ensures attempt >= MaxRetries ==> r == RequestRun(Exhausted, 0, [])
    ensures attempt < MaxRetries ==> 1 <= r.calls <= MaxRetries - attempt && |r.sleeps| == r.calls - 1
    decreases MaxRetries - attempt
  {
    if attempt >= MaxRetries then RequestRun(Exhausted, 0, [])
    else match script[attempt]
      case Responded(resp) => RequestRun(Returned(resp), 1, [])
      case SslFailed => RequestRun(SslAbort, 1, [])
      case OtherFailure(e) => RequestRun(Failed(e), 1, [])
      case _ =>
        var rest := RunFrom(script, attempt + 1);
        RequestRun(rest.result, 1 + rest.calls, Pause(attempt) + rest.sleeps)
  }

  /** The delay slept after a transient failure of request `attempt`: none after the last. */
  function Pause(attempt: nat): seq<nat>
  {
    if attempt < MaxRetries - 1 then [RetryDelay * (attempt + 1)] else []
  }

  /** A transient failure counts one request, sleeps, and leaves the rest to the next iteration. */
  lemma RunFromTransient(script: Script, attempt: nat)
    requires attempt < MaxRetries && Transient(script[attempt])
    ensures var here, rest := RunFrom(script, attempt), RunFrom(script, attempt + 1);
            here.result == rest.result && here.calls == 1 + rest.calls &&
            here.sleeps == Pause(attempt) + rest.sleeps
  {
  }

  function SecureRequest(script: Script): (r: RequestRun)
    ensures 1 <= r.calls <= MaxRetries && |r.sleeps| == r.calls - 1
  {
    RunFrom(script, 0)
  }

  /** The run `run` preceded by `calls` requests and the delays `sleeps`. */
  function After(calls: nat, sleeps: seq<nat>, run: RequestRun): RequestRun
  {
    RequestRun(run.result, calls + run.calls, sleeps + run.sleeps)
  }

  /** Going round the loop once more after a transient failure. */
  lemma AfterTransient(script: Script, attempt: nat, calls: nat, sleeps: seq<nat>)
    requires attempt < MaxRetries && Transient(script[attempt])
    ensures After(calls, sleeps, RunFrom(script, attempt))
         == After(calls + 1, sleeps + Pause(attempt), RunFrom(script, attempt + 1))
  {
    RunFromTransient(script, attempt);
    var rest := RunFrom(script, attempt + 1);
    assert sleeps + (Pause(attempt) + rest.sleeps) == (sleeps + Pause(attempt)) + rest.sleeps;
  }

  /** Leaving the loop on request `attempt`, or after the last one. */
  lemma AfterStop(script: Script, attempt: nat, calls: nat, sleeps: seq<nat>)
    requires attempt >= MaxRetries || !Transient(script[attempt])
    ensures var run := RunFrom(script, attempt);
            After(calls, sleeps, run) == RequestRun(run.result, calls + run.calls, sleeps)
  {
    assert sleeps + [] == sleeps;
  }

  /** `_make_secure_request`. */
  method MakeSecureRequest(script: Script) returns (result: RequestResult, calls: nat, sleeps: seq<nat>)
    ensures RequestRun(result, calls, sleeps) == SecureRequest(script)
  {
    calls, sleeps := 0, [];
    var attempt: nat := 0;
    assert After(calls, sleeps, RunFrom(script, 0)) == SecureRequest(script);
    while attempt < MaxRetries
      invariant attempt <= MaxRetries && calls == attempt
      invariant SecureRequest(script) == After(calls, sleeps, RunFrom(script, attempt))
    {
      var outcome := script[attempt];
      if !Transient(outcome) {
        AfterStop(script, attempt, calls, sleeps);
      }
      calls := calls + 1;
      if outcome.Responded? {
        return Returned(outcome.response), calls, sleeps;
      } else if outcome.SslFailed? {
        return SslAbort, calls, sleeps;
      } else if outcome.OtherFailure? {
        return Failed(outcome.error), calls, sleeps;
      }
      AfterTransient(script, attempt, calls - 1, sleeps);
      if attempt < MaxRetries - 1 {
        sleeps := sleeps + [RetryDelay * (attempt + 1)];
      } else {
        assert sleeps == sleeps + Pause(attempt);
      }
      attempt := attempt + 1;
    }
    AfterStop(script, attempt, calls, sleeps);
    result := Exhausted;
  }

  /** The delays slept before request `n`: 1, 2, ... seconds. */
  function Delays(n: nat): (d: seq<nat>)
    ensures |d| == n
    ensures forall k :: 0 <= k < n ==> d[k] == RetryDelay * (k + 1)
  {
    seq(n, k => RetryDelay * (k + 1))
  }

  lemma {:induction false} RunFromFirstStop(script: Script, a: nat, i: nat)
    requires a <= i < MaxRetries && !Transient(script[i])
    requires forall j :: a <= j < i ==> Transient(script[j])
    ensures RunFrom(script, a).calls == i - a + 1
    ensures RunFrom(script, a).sleeps == seq(i - a, k => RetryDelay * (a + k + 1))
    ensures RunFrom(script, a).result == RunFrom(script, i).result
    decreases i - a
  {
    if a < i {
      RunFromFirstStop(script, a + 1, i);
      var tail := seq(i - a - 1, k => RetryDelay * (a + 1 + k + 1));
      assert [RetryDelay * (a + 1)] + tail == seq(i - a, k => RetryDelay * (a + k + 1));
    }
  }

  /** The first request that does not time out or lose its connection ends
      the loop: a response is returned as it is, an SSL error aborts and any
      other error is re-raised; before it the loop slept 1, 2, ... seconds. */
  lemma FirstNonTransientDecides(script: Script, i: nat)
    requires i < MaxRetries && !Transient(script[i])
    requires forall j :: 0 <= j < i ==> Transient(script[j])
    ensures SecureRequest(script).calls == i + 1
    ensures SecureRequest(script).sleeps == Delays(i)
    ensures script[i].Responded? ==> SecureRequest(script).result == Returned(script[i].response)
    ensures script[i].SslFailed? ==> SecureRequest(script).result == SslAbort
    ensures script[i].OtherFailure? ==> SecureRequest(script).result == Failed(script[i].error)
  {
    RunFromFirstStop(script, 0, i);
  }

  /** Three transient failures: three requests, sleeps of 1 and 2 seconds
      and none after the last, then "Max retries exceeded". */
  lemma AllTransientExhausts(script: Script)
    requires forall j :: 0 <= j < MaxRetries ==> Transient(script[j])
    ensures SecureRequest(script) == RequestRun(Exhausted, 3, [1, 2])
  {
    assert Transient(script[0]) && Transient(script[1]) && Transient(script[2]);
    assert RunFrom(script, 2) == RequestRun(Exhausted, 1, []);
    assert RunFrom(script, 1) == RequestRun(Exhausted, 2, [2]);
  }

  /** Whatever happens: between one and three requests, fewer sleeps than
      requests, the sleeps being 1, 2, ... in order, and a returned
      response is the scripted outcome of the last request. */
  lemma RequestBounds(script: Script)
    ensures 1 <= SecureRequest(script).calls <= MaxRetries
    ensures |SecureRequest(script).sleeps| < SecureRequest(script).calls
    ensures SecureRequest(script).sleeps == Delays(|SecureRequest(script).sleeps|)
    ensures SecureRequest(script).result.Returned? ==>
              script[SecureRequest(script).calls - 1] == Responded(SecureRequest(script).result.response)
  {
    if !Transient(script[0]) {
      FirstNonTransientDecides(script, 0);
    } else if !Transient(script[1]) {
      FirstNonTransientDecides(script, 1);
    } else if !Transient(script[2]) {
      FirstNonTransientDecides(script, 2);
    } else {
      AllTransientExhausts(script);
    }
  }

  // ---------------------------------------------------------------------
  // initialize_payment
  // ---------------------------------------------------------------------

  /** The dictionary `initialize_payment` returns. */
  datatype InitResult =
    | Initialized(paymentLink: Json, txRef: Json, flwRef: Json, securityToken: string)
    | InitFailed(error: Json, code: Json, gatewayResponse: Option<Json>)

  /** What the outer handlers turn an exception into. */
  function InitFailure(e: Raised): (r: InitResult)
    ensures r.InitFailed? && r.gatewayResponse.None?
    ensures e.ValueError? <==> r.code == JStr("validation_error")
  {
    match e
    case ValueError(msg) => InitFailed(JStr(msg), JStr("validation_error"), None)
    case OtherError => InitFailed(JStr("Payment gateway temporarily unavailable"), JStr("service_unavailable"), None)
  }

  /** `initialize_payment`: what it returns, the payload it sent and how
      many requests it issued. */
  datatype InitOutcome = InitOutcome(result: InitResult, payload: Option<map<string, Json>>, requests: nat)

  /** The customer dictionary handed to the sanitiser. */
  function CustomerInput(data: map<string, Json>): map<string, Json>
    requires "customer_email" in data && "customer_name" in data
  {
    map["email" := data["customer_email"], "name" := data["customer_name"],
        "phonenumber" := GetOr(data, "customer_phone", JStr(""))]
  }

  function CustomerJson(c: Customer): Json
  {
    JObj(map["email" := JStr(c.email), "name" := JStr(c.name), "phonenumber" := JStr(c.phonenumber)])
  }

  /** The request payload; None when building it raises (no `redirect_url`,
      or a `metadata` that is not a dictionary and cannot be unpacked). */
  function BuildPayload(data: map<string, Json>, amount: Json, customer: Customer, token: string): (p: Option<map<string, Json>>)
    requires "tx_ref" in data
    ensures p.Some? <==> "redirect_url" in data && GetOr(data, "metadata", JObj(map[])).JObj?
    ensures p.Some? ==> && "tx_ref" in p.value && p.value["tx_ref"] == data["tx_ref"]
                        && "amount" in p.value && p.value["amount"] == amount
                        && "meta" in p.value && p.value["meta"].JObj?
                        && "security_token" in p.value["meta"].fields
                        && p.value["meta"].fields["security_token"] == JStr(token)
    ensures p.Some? ==> ("payment_options" in p.value <==>
                          Truthy(GetOr(data, "payment_method", JNull)) && data["payment_method"] in AllowedPaymentOptions)
    ensures p.Some? && "payment_options" in p.value ==> p.value["payment_options"] == data["payment_method"]
  {
    var metadata := GetOr(data, "metadata", JObj(map[]));
    if "redirect_url" !in data || !metadata.JObj? then None
    else
      var meta := metadata.fields + map["security_token" := JStr(token), "integration_type" := JStr("land_sales")];
      var payload := map[
        "tx_ref" := data["tx_ref"],
        "amount" := amount,
        "currency" := GetOr(data, "currency", JStr("NGN")),
        "redirect_url" := data["redirect_url"],
        "customer" := CustomerJson(customer),
        "customizations" := JObj(map[
          "title" := JStr("MyHouse Land Sales"),
          "description" := GetOr(data, "description", JStr("Land Purchase Payment")),
          "logo" := JStr("https://myhouse.ng/static/logo.png")]),
        "meta" := JObj(meta)];
      var option := GetOr(data, "payment_method", JNull);
      if Truthy(option) && option in AllowedPaymentOptions then Some(payload["payment_options" := option])
      else Some(payload)
  }

  /** The JSON value a float becomes in a request payload: NaN and the
      infinities become Python's JSON tokens. Whether the HTTP library
      then serialises such a body is not modelled. */
  function FloatJson(f: PyFloat): (j: Json)
    ensures ToFloat(j) == Some(f)
  {
    match f
    case Finite(v) => JNum(v)
    case Infinite(negative) => JInfinity(negative)
    case NaN => JNaN
  }

  /** The amount check of `initialize_payment` and the payload amount it
      yields: the check as written when `asWritten`, the intended one
      otherwise. The payload carries the float the amount converts to. */
  function CheckedAmount(amount: Json, asWritten: bool): (r: Result<Json, string>)
    ensures asWritten ==> (r.Ok? <==> ValidateAmountAsWritten(amount).Ok?)
    ensures !asWritten ==> (r.Ok? <==> ValidateAmount(amount).Ok?)
    ensures r.Ok? ==> ToFloat(amount).Some? && ToFloat(r.value) == ToFloat(amount)
    ensures r.Ok? && !asWritten ==> r.value == JNum(ValidateAmount(amount).value)
    ensures r.Err? ==> r.error == "Invalid amount format"
  {
    if asWritten then
      match ValidateAmountAsWritten(amount)
      case Err(msg) => Err(msg)
      case Ok(f) => Ok(FloatJson(f))
    else
      match ValidateAmount(amount)
      case Err(msg) => Err(msg)
      case Ok(v) => Ok(JNum(v))
  }

  /** The checks `initialize_payment` makes before its request, in order,
      and the payload they lead to; Err is what they raise. */
  function PrepareInitialization(data: map<string, Json>, token: string, asWritten: bool)
    : (r: Result<map<string, Json>, Raised>)
    ensures !Truthy(GetOr(data, "tx_ref", JNull)) ==> r == Err(ValueError("Transaction reference is required"))
    ensures Truthy(GetOr(data, "tx_ref", JNull)) && "amount" in data && CheckedAmount(data["amount"], asWritten).Err?
            ==> r == Err(ValueError("Invalid amount format"))
    ensures r.Ok? ==> && "tx_ref" in data && Truthy(data["tx_ref"])
                      && "amount" in data && CheckedAmount(data["amount"], asWritten).Ok?
                      && "customer_email" in data && "customer_name" in data
                      && SanitizeCustomerData(CustomerInput(data)).Ok?
                      && "redirect_url" in data
    ensures r.Ok? ==> && "tx_ref" in r.value && r.value["tx_ref"] == data["tx_ref"]
                      && "amount" in r.value && r.value["amount"] == CheckedAmount(data["amount"], asWritten).value
                      && "meta" in r.value && r.value["meta"].JObj?
                      && "security_token" in r.value["meta"].fields
                      && r.value["meta"].fields["security_token"] == JStr(token)
  {
    if !Truthy(GetOr(data, "tx_ref", JNull)) then Err(ValueError("Transaction reference is required"))
    else if "amount" !in data then Err(OtherError)
    else match CheckedAmount(data["amount"], asWritten)
      case Err(msg) => Err(ValueError(msg))
      case Ok(amount) =>
        if "customer_email" !in data || "customer_name" !in data then Err(OtherError)
        else match SanitizeCustomerData(CustomerInput(data))
          case Err(e) => Err(e)
          case Ok(customer) =>
            match BuildPayload(data, amount, customer, token)
            case None => Err(OtherError)
            case Some(payload) => Ok(payload)
  }

  /** The redacting log step. Its copy is shallow, so writing
      `log_data['data']['link']` writes into the response itself: the result
      is the response as it stands after the step, None when the step raises. */
  function LogRedaction(body: Json): (r: Option<Json>)
    ensures body.JObj? && "data" in body.fields && body.fields["data"].JObj?
            ==> r.Some? && r.value.JObj? && "data" in r.value.fields
                && r.value.fields["data"].JObj?
                && r.value.fields["data"].fields ==
                     if "link" in body.fields["data"].fields
                     then body.fields["data"].fields["link" := JStr(Redacted)]
                     else body.fields["data"].fields
    ensures body.JObj? && r.Some? ==>
              r.value.JObj? && forall k :: k in body.fields && k != "data" ==> k in r.value.fields && r.value.fields[k] == body.fields[k]
  {
    match body
    case JArr(items) => if JStr("data") in items then None else Some(body)
    case JObj(m) =>
      (if "data" !in m then Some(body)
       else match Contains(m["data"], "link")
         case None => None
         case Some(false) => Some(body)
         case Some(true) =>
           if m["data"].JObj? then Some(JObj(m["data" := JObj(m["data"].fields["link" := JStr(Redacted)])]))
           else None)
    case _ => None
  }

  /** The answer `initialize_payment` reads from a decoded response `data`. */
  function ReadInitResponse(code: int, data: Json, txRef: Json, token: string): (r: InitResult)
    ensures r.Initialized? <==> (&& code == 200 && Index(data, "status") == Some(JStr("success"))
                                 && Index(data, "data").Some?
                                 && Index(data.fields["data"], "link").Some?
                                 && Index(data.fields["data"], "flw_ref").Some?)
    ensures r.Initialized? ==> && r.paymentLink == data.fields["data"].fields["link"]
                               && r.flwRef == data.fields["data"].fields["flw_ref"]
                               && r.txRef == txRef && r.securityToken == token
    ensures code != 200 && data.JObj? ==>
              r == InitFailed(GetOr(data.fields, "message", JStr("Payment initialization failed")),
                              GetOr(data.fields, "status", JStr("error")), Some(data))
  {
    if code == 200 && Index(data, "status").None? then InitFailure(OtherError)
    else if code == 200 && Index(data, "status").value == JStr("success") then
      match Index(data, "data")
      case None => InitFailure(OtherError)
      case Some(d) =>
        if Index(d, "link").None? || Index(d, "flw_ref").None? then InitFailure(OtherError)
        else Initialized(Index(d, "link").value, txRef, Index(d, "flw_ref").value, token)
    else if !data.JObj? then InitFailure(OtherError)
    else InitFailed(GetOr(data.fields, "message", JStr("Payment initialization failed")),
                    GetOr(data.fields, "status", JStr("error")), Some(data))
  }

  /** `initialize_payment` after the request returned. `aliased` says
      whether the redaction writes into the response (the code as written)
      or into a copy of its own (the evident intent). */
  function InitResponseResult(resp: HttpResponse, txRef: Json, token: string, aliased: bool): InitResult
  {
    match resp.body
    case NotJson(err) => InitFailure(ValueError(err))
    case JsonBody(body) =>
      match LogRedaction(body)
      case None => InitFailure(OtherError)
      case Some(logged) => ReadInitResponse(resp.statusCode, if aliased then logged else body, txRef, token)
  }

  /** `initialize_payment`, with the checks and the log step as written
      (`asWritten`) or as intended. */
  function InitializeWith(data: map<string, Json>, token: string, script: Script, asWritten: bool): (o: InitOutcome)
    ensures o.payload.Some? <==> PrepareInitialization(data, token, asWritten).Ok?
    ensures o.payload.None? ==> o.requests == 0 && o.result.InitFailed?
    ensures o.payload.Some? ==> o.payload.value == PrepareInitialization(data, token, asWritten).value
                                && o.requests == SecureRequest(script).calls
  {
    match PrepareInitialization(data, token, asWritten)
    case Err(e) => InitOutcome(InitFailure(e), None, 0)
    case Ok(payload) =>
      var run := SecureRequest(script);
      var result := match run.result
        case Failed(e) => InitFailure(e)
        case Returned(resp) => InitResponseResult(resp, payload["tx_ref"], token, asWritten);
      InitOutcome(result, Some(payload), run.calls)
  }

  /** `initialize_payment` as written: the amount check lets NaN through,
      and the returned `payment_link` is read back after the log step has
      overwritten it. */
  function InitializePaymentAsWritten(data: map<string, Json>, token: string, script: Script): (o: InitOutcome)
    ensures o.result.Initialized? ==> && "amount" in data && ValidateAmountAsWritten(data["amount"]).Ok?
                                      && o.result.paymentLink == JStr(Redacted)
  {
    var o := InitializeWith(data, token, script, true);
    if o.result.Initialized? then
      AsWrittenSuccessIsRedacted(data, token, script);
      o
    else o
  }

  /** `initialize_payment` as intended: finite amounts only, and the log
      redaction kept on a copy. */
  function InitializePayment(data: map<string, Json>, token: string, script: Script): (o: InitOutcome)
    ensures o.result.Initialized? ==> "amount" in data && ValidateAmount(data["amount"]).Ok?
    ensures o.payload.Some? ==> && "amount" in data && ValidateAmount(data["amount"]).Ok? && "amount" in o.payload.value
                                && o.payload.value["amount"] == JNum(ValidateAmount(data["amount"]).value)
  {
    var o := InitializeWith(data, token, script, false);
    if o.result.Initialized? then
      InitializeSuccess(data, token, script, false);
      o
    else o
  }

  /** A missing `tx_ref`, an amount its check refuses or customer data the
      sanitiser refuses give a `validation_error` before any request is issued. */
  lemma InitializeValidatesFirst(data: map<string, Json>, token: string, script: Script, asWritten: bool)
    requires || !Truthy(GetOr(data, "tx_ref", JNull))
             || ("amount" in data && CheckedAmount(data["amount"], asWritten).Err?)
             || ( && "amount" in data && CheckedAmount(data["amount"], asWritten).Ok?
                  && "customer_email" in data && "customer_name" in data
                  && SanitizeCustomerData(CustomerInput(data)).Err?
                  && SanitizeCustomerData(CustomerInput(data)).error.ValueError?)
    ensures var o := InitializeWith(data, token, script, asWritten);
            && o.requests == 0 && o.payload.None?
            && o.result.InitFailed? && o.result.code == JStr("validation_error")
  {
  }

  /** Success needs a sent payload, a request that returned a 200 response,
      and it reports the `tx_ref` supplied and the token placed in the
      payload's `meta`. */
  lemma InitializeSuccess(data: map<string, Json>, token: string, script: Script, asWritten: bool)
    requires InitializeWith(data, token, script, asWritten).result.Initialized?
    ensures var o := InitializeWith(data, token, script, asWritten);
            && 1 <= o.requests <= MaxRetries && o.payload.Some?
            && SecureRequest(script).result.Returned?
            && SecureRequest(script).result.response.statusCode == 200
            && "tx_ref" in data && o.result.txRef == data["tx_ref"]
            && o.payload.value["meta"].fields["security_token"] == JStr(o.result.securityToken)
  {
    RequestBounds(script);
    var run := SecureRequest(script);
    assert PrepareInitialization(data, token, asWritten).Ok?;
    assert run.result.Returned?;
    var resp := run.result.response;
    assert resp.body.JsonBody?;
    assert LogRedaction(resp.body.json).Some?;
  }

  /** The success response of the gateway: status "success" and a `data`
      object with a link and a `flw_ref`. */
  function SuccessBody(link: Json, flwRef: Json, others: map<string, Json>): Json
  {
    JObj(others["status" := JStr("success")]["data" := JObj(map["link" := link, "flw_ref" := flwRef])])
  }

  /** Reading a 200 success response: the link comes back as sent, or as
      the redaction marker when the log step wrote into the response. */
  lemma SuccessResponseRead(link: Json, flwRef: Json, others: map<string, Json>,
                            txRef: Json, token: string, aliased: bool)
    ensures InitResponseResult(HttpResponse(200, JsonBody(SuccessBody(link, flwRef, others))), txRef, token, aliased)
         == Initialized(if aliased then JStr(Redacted) else link, txRef, flwRef, token)
  {
    var m := others["status" := JStr("success")]["data" := JObj(map["link" := link, "flw_ref" := flwRef])];
    var d := map["link" := JStr(Redacted), "flw_ref" := flwRef];
    assert LogRedaction(JObj(m)) == Some(JObj(m["data" := JObj(d)])) by {
      assert Contains(m["data"], "link") == Some(true);
      assert map["link" := link, "flw_ref" := flwRef]["link" := JStr(Redacted)] == d;
    }
    var read := if aliased then JObj(m["data" := JObj(d)]) else JObj(m);
    assert Index(read, "status") == Some(JStr("success"));
    assert Index(read, "data").Some?;
  }

  /** Once the payload is built and a request returned, the result is what
      the response says about the payload's `tx_ref`. */
  lemma InitializeReadsResponse(data: map<string, Json>, token: string, script: Script, asWritten: bool)
    requires PrepareInitialization(data, token, asWritten).Ok?
    requires SecureRequest(script).result.Returned?
    ensures InitializeWith(data, token, script, asWritten).result
         == InitResponseResult(SecureRequest(script).result.response, data["tx_ref"], token, asWritten)
  {
  }

  /** With valid input and a 200 success response, the intended code
      returns the gateway's link and `flw_ref`. */
  lemma InitializeReturnsLink(data: map<string, Json>, token: string, script: Script,
                              link: Json, flwRef: Json, others: map<string, Json>)
    requires PrepareInitialization(data, token, false).Ok?
    requires SecureRequest(script).result == Returned(HttpResponse(200, JsonBody(SuccessBody(link, flwRef, others))))
    ensures InitializePayment(data, token, script).result == Initialized(link, data["tx_ref"], flwRef, token)
  {
    InitializeReadsResponse(data, token, script, false);
    SuccessResponseRead(link, flwRef, others, data["tx_ref"], token, false);
  }

  /** The code as written returns the redaction marker instead: in the
      same situation its `payment_link` is "***REDACTED***". */
  lemma AsWrittenLinkIsRedacted(data: map<string, Json>, token: string, script: Script,
                                link: Json, flwRef: Json, others: map<string, Json>)
    requires PrepareInitialization(data, token, true).Ok?
    requires SecureRequest(script).result == Returned(HttpResponse(200, JsonBody(SuccessBody(link, flwRef, others))))
    ensures InitializePaymentAsWritten(data, token, script).result == Initialized(JStr(Redacted), data["tx_ref"], flwRef, token)
  {
    InitializeReadsResponse(data, token, script, true);
    SuccessResponseRead(link, flwRef, others, data["tx_ref"], token, true);
  }

  /** As written, every successful initialization returns the redaction
      marker as its link, whatever the gateway answered. */
  lemma AsWrittenSuccessIsRedacted(data: map<string, Json>, token: string, script: Script)
    requires InitializeWith(data, token, script, true).result.Initialized?
    ensures "amount" in data && ValidateAmountAsWritten(data["amount"]).Ok?
    ensures InitializeWith(data, token, script, true).result.paymentLink == JStr(Redacted)
  {
    InitializeSuccess(data, token, script, true);
    InitializeReadsResponse(data, token, script, true);
    LoggedLinkIsRedacted(SecureRequest(script).result.response, data["tx_ref"], token);
  }

  /** Reading the response after the log step has written into it: any
      success carries the redaction marker as its link. */
  lemma LoggedLinkIsRedacted(resp: HttpResponse, txRef: Json, token: string)
    requires InitResponseResult(resp, txRef, token, true).Initialized?
    ensures InitResponseResult(resp, txRef, token, true).paymentLink == JStr(Redacted)
  {
    var body := resp.body.json;
    var logged := LogRedaction(body).value;
    assert logged.JObj? && "data" in logged.fields && logged.fields["data"].JObj?;
    assert body.JObj? && "data" in body.fields;
    assert body.fields["data"].JObj?;
  }

  /** An amount that converts to NaN: as intended, initialization stops
      with a `validation_error` before any request; as written, the payload
      is built with the amount NaN and handed to the transport, whose
      scripted outcome decides the rest. */
  lemma NanAmountInitialization(data: map<string, Json>, token: string, script: Script)
    requires Truthy(GetOr(data, "tx_ref", JNull)) && "amount" in data && ToFloat(data["amount"]) == Some(NaN)
    ensures var o := InitializePayment(data, token, script);
            && o.requests == 0 && o.payload.None?
            && o.result.InitFailed? && o.result.code == JStr("validation_error")
    ensures && "customer_email" in data && "customer_name" in data
            && SanitizeCustomerData(CustomerInput(data)).Ok?
            && "redirect_url" in data && GetOr(data, "metadata", JObj(map[])).JObj?
            ==> var o := InitializePaymentAsWritten(data, token, script);
                && o.payload.Some? && o.payload.value["amount"] == JNaN
                && 1 <= o.requests <= MaxRetries
  {
    NanAmount(data["amount"]);
    assert CheckedAmount(data["amount"], true) == Ok(JNaN);
    InitializeValidatesFirst(data, token, script, false);
    RequestBounds(script);
  }

  /** A JSON object answered with any status code but 200 is a failure that
      carries the gateway's message and status, or their defaults, and the
      response itself. */
  lemma InitializeReportsGatewayFailure(data: map<string, Json>, token: string, script: Script,
                                        code: int, body: map<string, Json>)
    requires PrepareInitialization(data, token, false).Ok? && code != 200
    requires SecureRequest(script).result == Returned(HttpResponse(code, JsonBody(JObj(body))))
    requires "data" !in body
    ensures InitializePayment(data, token, script).result ==
              InitFailed(GetOr(body, "message", JStr("Payment initialization failed")),
                         GetOr(body, "status", JStr("error")), Some(JObj(body)))
  {
    InitializeReadsResponse(data, token, script, false);
    FailureResponseRead(code, body, data["tx_ref"], token);
  }

  /** Reading a JSON object without `data` answered with a status code other than 200. */
  lemma FailureResponseRead(code: int, body: map<string, Json>, txRef: Json, token: string)
    requires code != 200 && "data" !in body
    ensures InitResponseResult(HttpResponse(code, JsonBody(JObj(body))), txRef, token, false) ==
              InitFailed(GetOr(body, "message", JStr("Payment initialization failed")),
                         GetOr(body, "status", JStr("error")), Some(JObj(body)))
  {
    assert LogRedaction(JObj(body)) == Some(JObj(body));
  }

  // ---------------------------------------------------------------------
  // verify_payment and verify_payment_by_reference
  // ---------------------------------------------------------------------

  /** The dictionary `verify_payment` returns on success. */
  datatype Verification = Verification(
    transactionId: Json, txRef: Json, amount: Json, currency: Json, status: Json,
    paymentType: Json, createdAt: Json, customer: Json, flwRef: Json,
    deviceFingerprint: Json, ip: Json)

  datatype VerifyResult = Verified(verification: Verification) | VerifyFailed(error: Json, code: Json)

  const VerifyUnavailable: VerifyResult :=
    VerifyFailed(JStr("Payment verification temporarily unavailable"), JStr("service_unavailable"))

  const VerificationFields: seq<string> := TransactionFields + ["payment_type", "created_at", "customer", "flw_ref"]

  /** The verification read from validated transaction data; None when one
      of the keys read with `[...]` is missing. */
  function ReadVerification(tx: map<string, Json>): (r: Option<Verification>)
    ensures r.Some? <==> forall k :: k in VerificationFields ==> k in tx
    ensures r.Some? ==> && r.value.transactionId == tx["id"] && r.value.txRef == tx["tx_ref"]
                        && r.value.amount == tx["amount"] && r.value.status == tx["status"]
                        && r.value.currency == tx["currency"]
  {
    if forall k :: k in VerificationFields ==> k in tx then
      Some(Verification(tx["id"], tx["tx_ref"], tx["amount"], tx["currency"], tx["status"],
                        tx["payment_type"], tx["created_at"], tx["customer"], tx["flw_ref"],
                        GetOr(tx, "device_fingerprint", JNull), GetOr(tx, "ip", JNull)))
    else None
  }

  /** The transaction check `verify_payment` applies: as written, or as intended. */
  function TransactionCheck(data: Json, asWritten: bool): Option<bool>
  {
    if asWritten then ValidateTransactionDataAsWritten(data) else ValidateTransactionData(data)
  }

  /** `verify_payment` after the request returned: verified exactly when the
      reply is a 200 "success" whose data passes the transaction check and
      holds every field read, and then with the fields of that data. */
  function VerifyResponseResult(resp: HttpResponse, asWritten: bool): (r: VerifyResult)
    ensures r.Verified? ==> && resp.statusCode == 200 && resp.body.JsonBody?
                            && Index(resp.body.json, "status") == Some(JStr("success"))
                            && Index(resp.body.json, "data").Some?
                            && TransactionCheck(resp.body.json.fields["data"], asWritten) == Some(true)
                            && ReadVerification(resp.body.json.fields["data"].fields) == Some(r.verification)
    ensures && resp.statusCode == 200 && resp.body.JsonBody?
            && Index(resp.body.json, "status") == Some(JStr("success"))
            && Index(resp.body.json, "data").Some?
            && TransactionCheck(resp.body.json.fields["data"], asWritten) == Some(true)
            && ReadVerification(resp.body.json.fields["data"].fields).Some?
            ==> r == Verified(ReadVerification(resp.body.json.fields["data"].fields).value)
  {
    match resp.body
    case NotJson(_) => VerifyUnavailable
    case JsonBody(body) =>
      if resp.statusCode == 200 && Index(body, "status").None? then VerifyUnavailable
      else if resp.statusCode == 200 && Index(body, "status").value == JStr("success") then
        match Index(body, "data")
        case None => VerifyUnavailable
        case Some(tx) =>
          if TransactionCheck(tx, asWritten) != Some(true) then VerifyUnavailable
          else match ReadVerification(tx.fields)
            case None => VerifyUnavailable
            case Some(v) => Verified(v)
      else if !body.JObj? then VerifyUnavailable
      else VerifyFailed(GetOr(body.fields, "message", JStr("Verification failed")), GetOr(body.fields, "status", JStr("error")))
  }

  datatype VerifyOutcome = VerifyOutcome(result: VerifyResult, requests: nat)

  /** `verify_payment`, with the transaction check as written (`asWritten`)
      or as intended: every exception, the missing id included, gives
      "Payment verification temporarily unavailable". */
  function VerifyWith(transactionId: Json, script: Script, asWritten: bool): (o: VerifyOutcome)
    ensures !Truthy(transactionId) ==> o == VerifyOutcome(VerifyUnavailable, 0)
    ensures Truthy(transactionId) ==> o.requests == SecureRequest(script).calls
  {
    if !Truthy(transactionId) then VerifyOutcome(VerifyUnavailable, 0)
    else
      var run := SecureRequest(script);
      match run.result
      case Failed(_) => VerifyOutcome(VerifyUnavailable, run.calls)
      case Returned(resp) => VerifyOutcome(VerifyResponseResult(resp, asWritten), run.calls)
  }

  /** `verify_payment` as written: a NaN amount passes its transaction check. */
  function VerifyPaymentAsWritten(transactionId: Json, script: Script): (o: VerifyOutcome)
    ensures o.result.Verified? ==> ToFloat(o.result.verification.amount).Some?
                                   && AmountPasses(ToFloat(o.result.verification.amount).value, true)
    ensures VerifyWith(transactionId, script, false).result.Verified? ==> o == VerifyWith(transactionId, script, false)
  {
    var o := VerifyWith(transactionId, script, true);
    if Truthy(transactionId) && SecureRequest(script).result.Returned? then
      VerifyResponseRefines(SecureRequest(script).result.response);
      if o.result.Verified? then
        VerifiedMeansValidated(transactionId, script, true);
        o
      else o
    else o
  }

  /** `verify_payment` as intended: only finite amounts in range pass. */
  function VerifyPayment(transactionId: Json, script: Script): (o: VerifyOutcome)
    ensures o.result.Verified? ==> ToFloat(o.result.verification.amount).Some?
                                   && InAmountRange(ToFloat(o.result.verification.amount).value)
  {
    var o := VerifyWith(transactionId, script, false);
    if o.result.Verified? then
      VerifiedMeansValidated(transactionId, script, false);
      o
    else o
  }

  /** Whatever the intended transaction check verifies, the written one
      verifies the same way. */
  lemma VerifyResponseRefines(resp: HttpResponse)
    ensures VerifyResponseResult(resp, false).Verified? ==> VerifyResponseResult(resp, true) == VerifyResponseResult(resp, false)
  {
    if VerifyResponseResult(resp, false).Verified? {
      TransactionCheckMissesOnlyNan(resp.body.json.fields["data"]);
    }
  }

  /** The amounts a transaction check lets through: those in
      (0, 100 million], and NaN as well when the check is the one written. */
  predicate AmountPasses(f: PyFloat, asWritten: bool)
  {
    InAmountRange(f) || (asWritten && f.NaN?)
  }

  /** A verification succeeds only for a truthy id and a 200 response whose
      status is "success" and whose transaction data passed the check:
      known id, reference, currency and status, and an amount in
      (0, 100 million], or NaN as written. Its fields are copied from that data. */
  lemma VerifiedMeansValidated(transactionId: Json, script: Script, asWritten: bool)
    requires VerifyWith(transactionId, script, asWritten).result.Verified?
    ensures Truthy(transactionId) && SecureRequest(script).result.Returned?
    ensures var resp := SecureRequest(script).result.response;
            && resp.statusCode == 200 && resp.body.JsonBody?
            && Index(resp.body.json, "status") == Some(JStr("success"))
            && Index(resp.body.json, "data").Some?
            && var tx := resp.body.json.fields["data"];
               && tx.JObj? && "amount" in tx.fields
               && ToFloat(tx.fields["amount"]).Some?
               && AmountPasses(ToFloat(tx.fields["amount"]).value, asWritten)
               && var v := VerifyWith(transactionId, script, asWritten).result.verification;
                  v.status == tx.fields["status"] && v.txRef == tx.fields["tx_ref"] && v.amount == tx.fields["amount"]
  {
    var run := SecureRequest(script);
    assert run.result.Returned? && VerifyWith(transactionId, script, asWritten).result == VerifyResponseResult(run.result.response, asWritten);
    VerifiedResponse(run.result.response, asWritten);
  }

  /** A reply read as verified carries transaction data that passed the
      check, and the verification's fields are that data's. */
  lemma VerifiedResponse(resp: HttpResponse, asWritten: bool)
    requires VerifyResponseResult(resp, asWritten).Verified?
    ensures && resp.statusCode == 200 && resp.body.JsonBody?
            && Index(resp.body.json, "status") == Some(JStr("success"))
            && Index(resp.body.json, "data").Some?
            && var tx := resp.body.json.fields["data"];
               && tx.JObj? && "amount" in tx.fields
               && ToFloat(tx.fields["amount"]).Some?
               && AmountPasses(ToFloat(tx.fields["amount"]).value, asWritten)
               && var v := VerifyResponseResult(resp, asWritten).verification;
                  v.status == tx.fields["status"] && v.txRef == tx.fields["tx_ref"] && v.amount == tx.fields["amount"]
  {
    var tx := resp.body.json.fields["data"];
    assert TransactionCheck(tx, asWritten) == Some(true);
    PassedAmount(tx, asWritten);
    assert ReadVerification(tx.fields) == Some(VerifyResponseResult(resp, asWritten).verification);
  }

  /** Transaction data that passed the check has an amount that converts
      to a float the check lets through. */
  lemma PassedAmount(tx: Json, asWritten: bool)
    requires TransactionCheck(tx, asWritten) == Some(true)
    ensures tx.JObj? && "amount" in tx.fields && ToFloat(tx.fields["amount"]).Some?
    ensures AmountPasses(ToFloat(tx.fields["amount"]).value, asWritten)
  {
    if asWritten {
      BoundsMissOnlyNan(ToFloat(tx.fields["amount"]).value);
    }
  }

  /** A 200 "success" reply with complete transaction data whose amount
      converts to NaN is verified as written and refused as intended. */
  lemma NanTransactionVerification(resp: HttpResponse)
    requires resp.statusCode == 200 && resp.body.JsonBody?
    requires Index(resp.body.json, "status") == Some(JStr("success"))
    requires Index(resp.body.json, "data").Some?
    requires var tx := resp.body.json.fields["data"];
             && tx.JObj? && (forall k :: k in VerificationFields ==> k in tx.fields)
             && ToFloat(tx.fields["amount"]) == Some(NaN)
    ensures VerifyResponseResult(resp, true) == Verified(ReadVerification(resp.body.json.fields["data"].fields).value)
    ensures VerifyResponseResult(resp, false) == VerifyUnavailable
  {
    var tx := resp.body.json.fields["data"];
    assert forall k :: k in TransactionFields ==> k in VerificationFields;
    assert ValidateTransactionDataAsWritten(tx) == Some(true);
    assert ValidateTransactionData(tx) == Some(false);
  }

  const ReferenceUnavailable: VerifyResult :=
    VerifyFailed(JStr("Verification service unavailable"), JStr("service_unavailable"))
  const ReferenceNotFound: VerifyResult :=
    VerifyFailed(JStr("Transaction not found"), JStr("not_found"))

  /** `verify_payment_by_reference`: a lookup request, then `verify_payment`
      on the id it returns, with its own request script. */
  function VerifyPaymentByReference(lookup: Script, verify: Script, asWritten: bool): (r: VerifyResult)
    ensures SecureRequest(lookup).result.Failed? ==> r == ReferenceUnavailable
  {
    match SecureRequest(lookup).result
    case Failed(_) => ReferenceUnavailable
    case Returned(resp) =>
      match resp.body
      case NotJson(_) => ReferenceUnavailable
      case JsonBody(body) =>
        if resp.statusCode == 200 && Index(body, "status").None? then ReferenceUnavailable
        else if resp.statusCode == 200 && Index(body, "status").value == JStr("success") then
          match Index(body, "data")
          case None => ReferenceUnavailable
          case Some(d) =>
            match Index(d, "id")
            case None => ReferenceUnavailable
            case Some(id) => VerifyWith(id, verify, asWritten).result
        else ReferenceNotFound
  }

  /** A lookup answered with 200 and "success" verifies exactly the id it names. */
  lemma ByReferenceVerifiesReturnedId(lookup: Script, verify: Script, id: Json, others: map<string, Json>, asWritten: bool)
    requires SecureRequest(lookup).result ==
               Returned(HttpResponse(200, JsonBody(JObj(others["status" := JStr("success")]["data" := JObj(map["id" := id])]))))
    ensures VerifyPaymentByReference(lookup, verify, asWritten) == VerifyWith(id, verify, asWritten).result
  {
    var body := JObj(others["status" := JStr("success")]["data" := JObj(map["id" := id])]);
    assert Index(body, "status") == Some(JStr("success"));
    assert Index(body, "data") == Some(JObj(map["id" := id]));
    assert Index(JObj(map["id" := id]), "id") == Some(id);
  }

  /** A lookup answered with a status code other than 200 is "not found". */
  lemma ByReferenceNotFound(lookup: Script, verify: Script, code: int, body: Json, asWritten: bool)
    requires code != 200
    requires SecureRequest(lookup).result == Returned(HttpResponse(code, JsonBody(body)))
    ensures VerifyPaymentByReference(lookup, verify, asWritten) == ReferenceNotFound
  {
  }
}
