/**
 * The OnePay gateway client: the signed checkout request, extraction of the
 * transaction id and redirect URL from the reply, and the status query.
 * The HTTP exchange itself is not modelled: each operation receives the
 * gateway's reply to the request it builds.
 */
module OnepayClient {
  import opened Wrappers
  import opened Strings
  import opened Js
  import opened Common

  /** What `fetch` produced: a response (its `ok` flag and `res.json()`, which
      is `{}` when the body is not JSON), or a rejected promise. */
  datatype FetchReply = Response(ok: bool, json: JsValue) | NetworkFailure(message: string)

  datatype Credentials = Credentials(baseUrl: string, appId: string, token: string, salt: string)

  datatype Customer = Customer(firstName: JsValue, lastName: JsValue, phone: JsValue, email: JsValue)

  /** The argument object of `createCheckoutLink`. */
  datatype CheckoutArgs = CheckoutArgs(
    amount: real, currency: string, reference: string, customer: Customer,
    transactionRedirectUrl: string, additionalData: JsValue, items: JsValue)

  /** What `createCheckoutLink` returns. */
  datatype CheckoutLink = CheckoutLink(transactionId: JsValue, redirectUrl: JsValue, raw: JsValue)

  /** `m` hundredths written as `<units>.<two digits>`. */
  function Hundredths(m: nat): string {
    NatToString(m / 100) + "." + PadDigits(m % 100, 2)
  }

  /** `to2dp(amount)`, i.e. `Number(amount).toFixed(2)`: the sign, then the
      magnitude rounded to the nearest hundredth, halves upwards. */
  function To2dp(amount: real): (s: string)
    ensures amount < 0.0 ==> s == "-" + Hundredths(Round(-amount * 100.0))
    ensures amount >= 0.0 ==> s == Hundredths(Round(amount * 100.0))
  {
    if amount < 0.0 then "-" + Hundredths(Round(-amount * 100.0)) else Hundredths(Round(amount * 100.0))
  }

  /** The number `to2dp` prints, i.e. the value of `Number(to2dp(amount))`. */
  function Round2(amount: real): real {
    if amount < 0.0 then -(Round(-amount * 100.0) as real / 100.0) else Round(amount * 100.0) as real / 100.0
  }

  lemma TrimNoSpaceEnds(s: string)
    requires s != [] && !IsSpace(s[0]) && !IsSpace(s[|s| - 1])
    ensures Trim(s) == s
  {
    assert LeadingSpaces(s) == 0;
    assert s[0..] == s;
    assert TrailingSpaces(s) == 0;
  }

  lemma ParseHundredths(m: nat)
    ensures ParseUnsigned(Hundredths(m)) == Some(m as real / 100.0)
  {
    var d := NatToString(m / 100);
    var p := PadDigits(m % 100, 2);
    var s := Hundredths(m);
    assert s == d + "." + p;
    assert s[|d|] == '.';
    assert forall i :: 0 <= i < |d| ==> s[i] == d[i] && s[i] != '.';
    assert DotIndex(s) == |d|;
    assert s[..|d|] == d;
    assert s[|d| + 1..] == p;
    NatToStringValue(m / 100);
    PadTwoDigitsValue(m % 100);
    assert m == 100 * (m / 100) + m % 100;
  }

  lemma HundredthsEnds(m: nat)
    ensures Hundredths(m) != [] && IsDigit(Hundredths(m)[0]) && IsDigit(Hundredths(m)[|Hundredths(m)| - 1])
  {
    var d := NatToString(m / 100);
    var p := PadDigits(m % 100, 2);
    assert Hundredths(m) == d + "." + p;
    assert Hundredths(m)[0] == d[0];
    assert Hundredths(m)[|Hundredths(m)| - 1] == p[1];
  }

  /** The text of hundredths is digits and one dot. */
  lemma HundredthsChars(m: nat)
    ensures forall i :: 0 <= i < |Hundredths(m)| ==> IsDigit(Hundredths(m)[i]) || Hundredths(m)[i] == '.'
  {
    var d := NatToString(m / 100);
    var p := PadDigits(m % 100, 2);
    assert Hundredths(m) == d + "." + p;
  }

  lemma NumberOfHundredths(m: nat)
    ensures StringToNumber(Hundredths(m)) == Some(m as real / 100.0)
  {
    var h := Hundredths(m);
    HundredthsEnds(m);
    TrimNoSpaceEnds(h);
    HundredthsChars(m);
    PlainDecimalText(h);
    ParseHundredths(m);
  }

  lemma NumberOfNegativeHundredths(m: nat, x: real)
    requires x == m as real / 100.0
    ensures StringToNumber("-" + Hundredths(m)) == Some(-x)
  {
    var h := Hundredths(m);
    assert ParseDecimal(h) == Some(x) by {
      HundredthsChars(m);
      PlainDecimalText(h);
      ParseHundredths(m);
    }
    assert |h| > 0 && !IsSpace(h[|h| - 1]) by { HundredthsEnds(m); }
    NegatedText(h, x);
  }

  /** A minus sign before a decimal text that does not end in a blank negates its value. */
  lemma NegatedText(h: string, x: real)
    requires |h| > 0 && !IsSpace(h[|h| - 1]) && ParseDecimal(h) == Some(x)
    ensures StringToNumber("-" + h) == Some(-x)
  {
    TrimMinus(h);
    MinusValue("-" + h, h);
    NegatedSome(x);
  }

  lemma TrimMinus(h: string)
    requires |h| > 0 && !IsSpace(h[|h| - 1])
    ensures Trim("-" + h) == "-" + h
  {
    var s := "-" + h;
    assert s[0] == '-' && s[|s| - 1] == h[|h| - 1];
    TrimNoSpaceEnds(s);
  }

  lemma MinusValue(s: string, h: string)
    requires s == "-" + h && Trim(s) == s
    ensures StringToNumber(s) == Negated(ParseDecimal(h))
  {
    assert s[1..] == h;
    MinusText(s);
  }



  lemma NumberOfTo2dpNonNegative(amount: real, m: nat)
    requires amount >= 0.0 && m == Round(amount * 100.0)
    ensures StringToNumber(To2dp(amount)) == Some(Round2(amount))
  {
    calc {
      StringToNumber(To2dp(amount));
      StringToNumber(Hundredths(m));
      { NumberOfHundredths(m); }
      Some(m as real / 100.0);
      Some(Round2(amount));
    }
  }

  lemma NumberOfTo2dpNegative(amount: real, m: nat)
    requires amount < 0.0 && m == Round(-amount * 100.0)
    ensures StringToNumber(To2dp(amount)) == Some(Round2(amount))
  {
    var x := m as real / 100.0;
    calc {
      StringToNumber(To2dp(amount));
      StringToNumber("-" + Hundredths(m));
      { NumberOfNegativeHundredths(m, x); }
      Some(-x);
      Some(Round2(amount));
    }
  }


  /** `Number(to2dp(amount))` is `Round2(amount)`: the text parses back. */
  lemma NumberOfTo2dp(amount: real)
    ensures StringToNumber(To2dp(amount)) == Some(Round2(amount))
  {
    if amount < 0.0 {
      NumberOfTo2dpNegative(amount, Round(-amount * 100.0));
    } else {
      NumberOfTo2dpNonNegative(amount, Round(amount * 100.0));
    }
  }

  lemma RoundOfInt(k: int)
    ensures Round(k as real) == k
  {
  }

  /** Rounding to hundredths twice is rounding once. */
  lemma Round2Idempotent(amount: real)
    ensures Round2(Round2(amount)) == Round2(amount)
  {
    var r := Round2(amount);
    if amount < 0.0 {
      var m := Round(-amount * 100.0);
      assert r == -(m as real / 100.0);
      if m > 0 {
        assert -r * 100.0 == m as real;
        RoundOfInt(m);
      } else {
        assert r == 0.0;
        RoundOfInt(0);
      }
    } else {
      var m := Round(amount * 100.0);
      assert r * 100.0 == m as real;
      RoundOfInt(m);
    }
  }

  /** `generateHash`'s input: app id, currency, the amount with two decimals, salt.
      The text between currency and salt reads back as the amount rounded to
      hundredths (said of every text equal to that slice, so that the fact is
      used only where such a text is read). */
  function HashPreimage(appId: string, currency: string, amount: real, salt: string): (raw: string)
    ensures |raw| >= |appId| + |currency| + |salt|
    ensures raw[..|appId| + |currency|] == appId + currency
    ensures raw[|raw| - |salt|..] == salt
    ensures forall text :: text == raw[|appId| + |currency|..|raw| - |salt|] ==> StringToNumber(text) == Some(Round2(amount))
  {
    var text := To2dp(amount);
    NumberOfTo2dp(amount);
    ConcatParts(appId + currency, text, salt);
    appId + currency + text + salt
  }

  /** The three parts of `head + mid + tail` are recovered by slicing. */
  lemma ConcatParts(head: string, mid: string, tail: string)
    ensures var raw := head + mid + tail;
            && raw[..|head|] == head
            && raw[|raw| - |tail|..] == tail
            && raw[|head|..|raw| - |tail|] == mid
  {
    var raw := head + mid + tail;
    assert raw[..|head|] == head;
    assert raw[|raw| - |tail|..] == tail;
    assert raw[|head|..|raw| - |tail|] == mid;
  }

  /** `generateHash(...)`, with SHA-256 supplied by the caller. */
  function GenerateHash(sha256: Digest, appId: string, currency: string, amount: real, salt: string): string {
    sha256(HashPreimage(appId, currency, amount, salt))
  }

  /** The hash is taken over the plain concatenation of the four parts. */
  lemma HashOfPreimage(sha256: Digest, appId: string, currency: string, amount: real, salt: string)
    ensures GenerateHash(sha256, appId, currency, amount, salt) == sha256(appId + currency + To2dp(amount) + salt)
  {
  }

  /** The four `mustEnv` reads of `createCheckoutLink`, in order. */
  function CheckoutCredentials(vars: Vars): (r: Outcome<Credentials>)
    ensures r.Ok? <==> (forall name | name in ["ONEPAY_BASE_URL", "ONEPAY_APP_ID", "ONEPAY_APP_TOKEN", "ONEPAY_HASH_SALT"] ::
                          name in vars && vars[name] != "")
    ensures r.Ok? ==> r.value == Credentials(vars["ONEPAY_BASE_URL"], vars["ONEPAY_APP_ID"],
                                             vars["ONEPAY_APP_TOKEN"], vars["ONEPAY_HASH_SALT"])
  {
    var baseUrl :- MustEnv(vars, "ONEPAY_BASE_URL");
    var appId :- MustEnv(vars, "ONEPAY_APP_ID");
    var token :- MustEnv(vars, "ONEPAY_APP_TOKEN");
    var salt :- MustEnv(vars, "ONEPAY_HASH_SALT");
    Ok(Credentials(baseUrl, appId, token, salt))
  }

  /** The JSON body of the checkout request. */
  function CheckoutBody(cred: Credentials, args: CheckoutArgs, sha256: Digest): JsValue {
    var amt := Round2(args.amount);
    var fields := map[
      "currency" := Str(args.currency),
      "app_id" := Str(cred.appId),
      "hash" := Str(GenerateHash(sha256, cred.appId, args.currency, amt, cred.salt)),
      "amount" := Num(amt),
      "reference" := Str(args.reference),
      "customer_first_name" := args.customer.firstName,
      "customer_last_name" := args.customer.lastName,
      "customer_phone_number" := args.customer.phone,
      "customer_email" := args.customer.email,
      "transaction_redirect_url" := Str(args.transactionRedirectUrl),
      "additional_data" := Or(args.additionalData, Str(""))];
    if args.items.Arr? && |args.items.items| > 0 then Obj(fields["items" := args.items]) else Obj(fields)
  }

  /** The body carries the amount rounded to hundredths; the hash is taken over
      the same amount's two-decimal text, which reads back as that very amount. */
  lemma CheckoutBodyAmount(cred: Credentials, args: CheckoutArgs, sha256: Digest)
    ensures var amt := Round2(args.amount);
            && Get(CheckoutBody(cred, args, sha256), "amount") == Num(amt)
            && Get(CheckoutBody(cred, args, sha256), "hash")
               == Str(sha256(cred.appId + args.currency + To2dp(amt) + cred.salt))
            && StringToNumber(To2dp(amt)) == Some(amt)
  {
    CheckoutBodyFields(cred, args, sha256);
    RoundedAmountReadsBack(args.amount);
  }

  /** The body's `amount` and `hash` fields. */
  lemma CheckoutBodyFields(cred: Credentials, args: CheckoutArgs, sha256: Digest)
    ensures var amt := Round2(args.amount);
            && Get(CheckoutBody(cred, args, sha256), "amount") == Num(amt)
            && Get(CheckoutBody(cred, args, sha256), "hash")
               == Str(sha256(cred.appId + args.currency + To2dp(amt) + cred.salt))
  {
    var amt := Round2(args.amount);
    var body := CheckoutBody(cred, args, sha256);
    HashOfPreimage(sha256, cred.appId, args.currency, amt, cred.salt);
    assert body.Obj? && body.fields["amount"] == Num(amt);
    assert body.fields["hash"] == Str(GenerateHash(sha256, cred.appId, args.currency, amt, cred.salt));
  }

  /** The two-decimal text of an amount already rounded to hundredths reads back as that amount. */
  lemma RoundedAmountReadsBack(amount: real)
    ensures StringToNumber(To2dp(Round2(amount))) == Some(Round2(amount))
  {
    var amt := Round2(amount);
    NumberOfTo2dp(amt);
    Round2Idempotent(amount);
  }

  /** `items` is sent iff it is a non-empty array; `additional_data` defaults to "". */
  lemma CheckoutBodyOptionalFields(cred: Credentials, args: CheckoutArgs, sha256: Digest)
    ensures var body := CheckoutBody(cred, args, sha256);
            && body.Obj?
            && ("items" in body.fields <==> args.items.Arr? && |args.items.items| > 0)
            && Get(body, "additional_data") == (if Truthy(args.additionalData) then args.additionalData else Str(""))
  {
  }

  /** `json?.data?.transaction_id || json?.data?.ipg_transaction_id || json?.data?.data?.transaction_id` */
  function TransactionIdOf(json: JsValue): JsValue {
    var data := Get(json, "data");
    Or(Or(Get(data, "transaction_id"), Get(data, "ipg_transaction_id")), Get(Get(data, "data"), "transaction_id"))
  }

  /** `json?.data?.payment_url || json?.data?.gateway?.redirect_url || json?.data?.redirect_url` */
  function RedirectUrlOf(json: JsValue): JsValue {
    var data := Get(json, "data");
    Or(Or(Get(data, "payment_url"), Get(Get(data, "gateway"), "redirect_url")), Get(data, "redirect_url"))
  }

  /** The `HttpError(502, json?.message || fallback, { onepay: json })` of a refused request. */
  function GatewayError(json: JsValue, fallback: string): (e: Error)
    ensures e.HttpError? && e.status == 502 && e.details == Obj(map["onepay" := json])
    ensures e.message == (if Truthy(Get(json, "message")) then ToStr(Get(json, "message")) else fallback)
  {
    HttpError(502, ToStr(Or(Get(json, "message"), Str(fallback))), Obj(map["onepay" := json]))
  }

  /** `createCheckoutLink(args)` given the gateway's reply to the checkout request. */
  function CreateCheckoutLink(vars: Vars, sha256: Digest, args: CheckoutArgs, reply: FetchReply): (r: Outcome<CheckoutLink>)
    ensures r.Ok? ==> Truthy(r.value.transactionId) && Truthy(r.value.redirectUrl)
  {
    var cred :- CheckoutCredentials(vars);
    match reply
    case NetworkFailure(m) => Err(ScriptError("TypeError", m))
    case Response(ok, json) =>
      if !ok then Err(GatewayError(json, "OnePay checkout link failed."))
      else
        var txId := TransactionIdOf(json);
        var redirectUrl := RedirectUrlOf(json);
        if !Truthy(txId) || !Truthy(redirectUrl) then
          Err(HttpError(502, "OnePay response missing transaction id or redirect url.", Obj(map["onepay" := json])))
        else Ok(CheckoutLink(txId, redirectUrl, json))
  }

  /** `createCheckoutLink`'s outcomes: missing configuration, a refused
      request (502 with the gateway's message or the default), a reply without
      a transaction id or redirect (502), or both extracted by their fallbacks. */
  lemma CheckoutOutcomes(vars: Vars, sha256: Digest, args: CheckoutArgs, reply: FetchReply)
    ensures var r := CreateCheckoutLink(vars, sha256, args, reply);
            && (CheckoutCredentials(vars).Err? ==> r == Err(CheckoutCredentials(vars).error))
            && (CheckoutCredentials(vars).Ok? && reply.Response? && !reply.ok ==>
                  r == Err(GatewayError(reply.json, "OnePay checkout link failed.")))
            && (r.Ok? <==> CheckoutCredentials(vars).Ok? && reply.Response? && reply.ok
                           && Truthy(TransactionIdOf(reply.json)) && Truthy(RedirectUrlOf(reply.json)))
            && (r.Ok? ==> r.value == CheckoutLink(TransactionIdOf(reply.json), RedirectUrlOf(reply.json), reply.json))
  {
  }

  /** The three `mustEnv` reads of `getTransactionStatus`. */
  function StatusCredentials(vars: Vars): (r: Outcome<Credentials>)
    ensures r.Ok? <==> (forall name | name in ["ONEPAY_BASE_URL", "ONEPAY_APP_ID", "ONEPAY_APP_TOKEN"] ::
                          name in vars && vars[name] != "")
  {
    var baseUrl :- MustEnv(vars, "ONEPAY_BASE_URL");
    var appId :- MustEnv(vars, "ONEPAY_APP_ID");
    var token :- MustEnv(vars, "ONEPAY_APP_TOKEN");
    Ok(Credentials(baseUrl, appId, token, ""))
  }

  /** `getTransactionStatus(txId)` given the gateway's reply: the raw JSON when
      the response is OK, a 502 otherwise. */
  function GetTransactionStatus(vars: Vars, reply: FetchReply): (r: Outcome<JsValue>)
    ensures StatusCredentials(vars).Err? ==> r == Err(StatusCredentials(vars).error)
    ensures StatusCredentials(vars).Ok? && reply.Response? && !reply.ok ==>
              r == Err(GatewayError(reply.json, "OnePay transaction status failed."))
    ensures r.Ok? <==> StatusCredentials(vars).Ok? && reply.Response? && reply.ok
    ensures r.Ok? ==> r.value == reply.json
  {
    var _ :- StatusCredentials(vars);
    match reply
    case NetworkFailure(m) => Err(ScriptError("TypeError", m))
    case Response(ok, json) =>
      if !ok then Err(GatewayError(json, "OnePay transaction status failed.")) else Ok(json)
  }
}
