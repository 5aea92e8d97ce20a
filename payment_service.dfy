/**
 * The OnePay payment flow: initiating a checkout (reusing an open payment),
 * verifying a payment against the gateway's status API, recording callbacks
 * for audit, and the bounded status poll that ends a payment as PAID or
 * FAILED. Only PAID is final; a FAILED payment becomes PENDING again when a
 * later verification finds it unpaid.
 */
module PaymentService {
  import opened Wrappers
  import opened Strings
  import opened Js
  import opened Common
  import opened Store
  import opened OnepayClient
  import opened Runtime
  import opened RegistrationConfirmationService

  /** The gateway limits a merchant reference to 21 characters. */
  const MaxReferenceLength: nat := 21
  /** Six upper-case hex digits follow the dash. */
  const SuffixLength: nat := 6
  /** `Math.max(1, Math.ceil(60000 / 5000))` status checks, 5 seconds apart. */
  const PollChecks: nat := 12
  const PollIntervalMs: int := 5000

  predicate IsAlnumDash(c: char) {
    ('A' <= c <= 'Z') || ('a' <= c <= 'z') || ('0' <= c <= '9') || c == '-'
  }

  /** `safeAlnumDash(s)`: `s` with every character outside [A-Za-z0-9-] removed. */
  function SafeAlnumDash(s: string): (r: string)
    ensures |r| <= |s|
    ensures forall i :: 0 <= i < |r| ==> IsAlnumDash(r[i])
    ensures (forall i :: 0 <= i < |s| ==> IsAlnumDash(s[i])) ==> r == s
    ensures (forall i :: 0 <= i < |s| ==> !IsAlnumDash(s[i])) ==> r == ""
  {
    if |s| == 0 then ""
    else
      var rest := SafeAlnumDash(s[1..]);
      if IsAlnumDash(s[0]) then
        assert [s[0]] + s[1..] == s;
        [s[0]] + rest
      else rest
  }

  /** The random part of a reference: the first six hex digits of four random bytes, upper-cased. */
  function ReferenceSuffix(bytes: Bytes4): (r: string)
    ensures |r| == SuffixLength
    ensures forall i :: 0 <= i < |r| ==> ('0' <= r[i] <= '9') || ('A' <= r[i] <= 'F')
  {
    Upper(Hex(bytes)[..SuffixLength])
  }

  /** The part of a reference taken from the registration id: its safe
      characters, cut to leave room for the suffix, or "REG" when none remain. */
  function ReferenceBase(registrationId: string): string {
    var base := SafeAlnumDash(registrationId);
    var maxBaseLen := MaxReferenceLength - (1 + SuffixLength);
    var trimmed := if |base| > maxBaseLen then base[..maxBaseLen] else base;
    if trimmed == "" then "REG" else trimmed
  }

  /** `makeReference(reg)` */
  function MakeReference(registrationId: string, bytes: Bytes4): (r: string)
    ensures 8 <= |r| <= MaxReferenceLength
    ensures forall i :: 0 <= i < |r| ==> IsAlnumDash(r[i])
    ensures r[..|r| - 7] == ReferenceBase(registrationId)
    ensures r[|r| - 7] == '-' && r[|r| - 6..] == ReferenceSuffix(bytes)
  {
    ReferenceBase(registrationId) + "-" + ReferenceSuffix(bytes)
  }

  /** A registration id that is already short and safe is kept verbatim; one
      with no safe character becomes "REG"; a long one keeps its first 14. */
  lemma ReferenceKeepsId(registrationId: string, bytes: Bytes4)
    ensures var r := MakeReference(registrationId, bytes);
            var safe := SafeAlnumDash(registrationId);
            && ((forall i :: 0 <= i < |registrationId| ==> IsAlnumDash(registrationId[i])) && 0 < |registrationId| <= 14 ==>
                  r == registrationId + "-" + ReferenceSuffix(bytes))
            && (safe == "" ==> r == "REG-" + ReferenceSuffix(bytes))
            && (|safe| > 14 ==> r == safe[..14] + "-" + ReferenceSuffix(bytes))
  {
  }

  /** `toMinorUnits(v)`: `Math.round(Number(v) * 100)`, or `None` for NaN. */
  function ToMinorUnits(v: JsValue): (r: Option<int>)
    ensures r.Some? <==> ToNumber(v).Some?
    ensures r.Some? ==> ToNumber(v).value * 100.0 - 0.5 < r.value as real <= ToNumber(v).value * 100.0 + 0.5
  {
    match ToNumber(v)
    case None => None
    case Some(n) => Some(Round(n * 100.0))
  }

  /** An amount of whole cents converts to exactly that many minor units. */
  lemma MinorUnitsOfCents(cents: int)
    ensures ToMinorUnits(Num(cents as real / 100.0)) == Some(cents)
  {
    assert cents as real / 100.0 * 100.0 == cents as real;
    RoundOfInt(cents);
  }

  /** `(data.status_message || data.message || "").toUpperCase()`; a truthy
      value that is not a string has no `toUpperCase`, which throws. */
  function StatusMessage(data: JsValue): (r: Outcome<string>)
    ensures var m := Or(Or(Get(data, "status_message"), Get(data, "message")), Str(""));
            && (r.Ok? <==> m.Str?)
            && (r.Ok? ==> r.value == Upper(m.s))
  {
    var m := Or(Or(Get(data, "status_message"), Get(data, "message")), Str(""));
    if m.Str? then Ok(Upper(m.s))
    else Err(ScriptError("TypeError", "toUpperCase is not a function"))
  }

  /** The paid test of `verifyAndSync`: status `true`, `1` or `"1"`, or a
      message that contains SUCCESS or PAID anywhere. */
  predicate IsPaid(status: JsValue, msg: string) {
    || status == Bool(true) || status == Num(1.0) || status == Str("1")
    || Contains(msg, "SUCCESS") || Contains(msg, "PAID")
  }

  /** As written, any message that contains PAID or SUCCESS counts, so status
      0 with message "unpaid" or "unsuccessful" is a payment. */
  lemma UnpaidMessageCountsAsPaid()
    ensures IsPaid(Num(0.0), Upper("unpaid"))
    ensures IsPaid(Num(0.0), Upper("unsuccessful"))
  {
    assert Upper("unpaid") == "UN" + "PAID";
    assert StartsWith("PAID", "PAID");
    ContainsAfterPrefix("UN", "PAID", "PAID");
    assert Upper("unsuccessful") == "UN" + "SUCCESSFUL";
    assert StartsWith("SUCCESSFUL", "SUCCESS");
    ContainsAfterPrefix("UN", "SUCCESSFUL", "SUCCESS");
  }

  /** `word` occurs at `k` and is not the tail of its negation "UN" + `word`. */
  predicate AffirmedAt(msg: string, word: string, k: int) {
    OccursAt(msg, word, k) && !(k >= 2 && msg[k - 2..k] == "UN")
  }

  /** The message reports `word` at position `k` or later, not negated. */
  predicate AffirmedFrom(msg: string, word: string, k: nat)
    decreases |msg| - k
  {
    k <= |msg| && (AffirmedAt(msg, word, k) || AffirmedFrom(msg, word, k + 1))
  }

  /** The message reports `word` somewhere, not negated. */
  predicate Affirms(msg: string, word: string) {
    AffirmedFrom(msg, word, 0)
  }

  lemma {:induction false} AffirmedFromAt(msg: string, word: string, k: nat)
    ensures AffirmedFrom(msg, word, k) <==> exists j :: k <= j <= |msg| && AffirmedAt(msg, word, j)
    decreases |msg| - k
  {
    if k <= |msg| {
      AffirmedFromAt(msg, word, k + 1);
    }
  }

  /** The paid test as evidently intended: status `true`, `1` or `"1"`, or a
      message that reports SUCCESS or PAID other than as UNSUCCESSFUL or
      UNPAID. Only `VerifyOutcomeIntended` uses this test. */
  predicate IsPaidIntended(status: JsValue, msg: string) {
    || status == Bool(true) || status == Num(1.0) || status == Str("1")
    || Affirms(msg, "SUCCESS") || Affirms(msg, "PAID")
  }

  /** The intended test accepts "PAID" and "PAYMENT SUCCESSFUL" and refuses
      "UNPAID" and "UNSUCCESSFUL" (messages are upper-cased before the test). */
  lemma IntendedPaidTest()
    ensures IsPaidIntended(Num(0.0), "PAID")
    ensures IsPaidIntended(Num(0.0), "PAYMENT SUCCESSFUL")
    ensures !IsPaidIntended(Num(0.0), "UNPAID")
    ensures !IsPaidIntended(Num(0.0), "UNSUCCESSFUL")
  {
    PaidAffirmed();
    SuccessfulAffirmed();
    NotAffirmed("UNPAID", "PAID");
    NotAffirmed("UNPAID", "SUCCESS");
    NotAffirmed("UNSUCCESSFUL", "PAID");
    NotAffirmed("UNSUCCESSFUL", "SUCCESS");
  }

  lemma PaidAffirmed()
    ensures Affirms("PAID", "PAID")
  {
    assert AffirmedAt("PAID", "PAID", 0);
  }

  lemma SuccessfulAffirmed()
    ensures Affirms("PAYMENT SUCCESSFUL", "SUCCESS")
  {
    var ok := "PAYMENT SUCCESSFUL";
    assert ok[8..15] == "SUCCESS";
    assert ok[6..8][0] == 'T';
    assert AffirmedAt(ok, "SUCCESS", 8);
    AffirmedFromAt(ok, "SUCCESS", 0);
  }

  /** In "UNPAID" and "UNSUCCESSFUL" a word occurs only right after "UN". */
  lemma NotAffirmed(msg: string, word: string)
    requires msg == "UNPAID" || msg == "UNSUCCESSFUL"
    requires word == "PAID" || word == "SUCCESS"
    ensures !Affirms(msg, word)
  {
    AffirmedFromAt(msg, word, 0);
    forall k | 0 <= k <= |msg| && OccursAt(msg, word, k) ensures k == 2 {
      assert msg[k] == word[0] by { assert msg[k..k + |word|][0] == msg[k]; }
      assert k == 0 || k == 1 || k == 2 || k == 3 || k == 4 || k == 5 || k == 6 || k == 7 || k == 8;
    }
    assert msg[0..2] == "UN";
  }

  /** The correction only narrows the test: what it accepts the code accepts,
      and what the code accepts and it refuses has every SUCCESS and PAID
      negated as UNSUCCESSFUL or UNPAID. */
  lemma PaidTestCorrection(status: JsValue, msg: string)
    ensures IsPaidIntended(status, msg) ==> IsPaid(status, msg)
    ensures IsPaid(status, msg) && !IsPaidIntended(status, msg) ==>
              forall k :: (OccursAt(msg, "PAID", k) || OccursAt(msg, "SUCCESS", k)) ==> k >= 2 && msg[k - 2..k] == "UN"
  {
    ContainsAt(msg, "PAID");
    ContainsAt(msg, "SUCCESS");
    AffirmedFromAt(msg, "PAID", 0);
    AffirmedFromAt(msg, "SUCCESS", 0);
    if IsPaid(status, msg) && !IsPaidIntended(status, msg) {
      forall k | OccursAt(msg, "PAID", k) || OccursAt(msg, "SUCCESS", k) ensures k >= 2 && msg[k - 2..k] == "UN" {
        assert !AffirmedAt(msg, "PAID", k) && !AffirmedAt(msg, "SUCCESS", k);
      }
    }
  }

  /** The payment query filter: `registrationId: key`, restricted to
      INITIATED/PENDING when `openOnly`. */
  predicate Selects(p: Payment, key: string, openOnly: bool) {
    p.registration == key && (!openOnly || p.status == Initiated || p.status == Pending)
  }

  /** `Payment.findOne(filter).sort({ createdAt: -1 })`: the most recently created match. */
  function LatestPayment(payments: seq<Payment>, key: string, openOnly: bool): (r: Option<nat>)
    ensures r.Some? ==> r.value < |payments| && Selects(payments[r.value], key, openOnly)
    ensures r.Some? ==> forall j :: r.value < j < |payments| ==> !Selects(payments[j], key, openOnly)
    ensures r.None? ==> forall j :: 0 <= j < |payments| ==> !Selects(payments[j], key, openOnly)
  {
    if |payments| == 0 then None
    else if Selects(payments[|payments| - 1], key, openOnly) then Some(|payments| - 1)
    else LatestPayment(payments[..|payments| - 1], key, openOnly)
  }

  /** `Payment.findOne({ onepayTransactionId: txId })`: the first payment carrying that id. */
  function PaymentWithTransaction(payments: seq<Payment>, txId: string): (r: Option<nat>)
    ensures r.Some? ==> r.value < |payments| && payments[r.value].txId != "" && payments[r.value].txId == txId
    ensures r.Some? ==> forall j :: 0 <= j < r.value ==> !(payments[j].txId != "" && payments[j].txId == txId)
    ensures r.None? ==> forall j :: 0 <= j < |payments| ==> !(payments[j].txId != "" && payments[j].txId == txId)
  {
    if |payments| == 0 then None
    else if payments[0].txId != "" && payments[0].txId == txId then Some(0)
    else match PaymentWithTransaction(payments[1..], txId)
      case None => None
      case Some(j) => Some(j + 1)
  }

  /** The tables with payment `pid` replaced. */
  function WithPayment(t: Tables, pid: nat, p: Payment): Tables
    requires pid < |t.payments|
  {
    t.(payments := t.payments[pid := p])
  }

  /** The tables with registration `key`, when stored, given the payment state
      `status`, provider ONEPAY and reference `txId`. */
  function WithRegistrationPayment(t: Tables, key: string, status: RegPaymentStatus, txId: string): Tables {
    if key in t.registrations
    then t.(registrations := t.registrations[key := t.registrations[key].(paymentStatus := status, paymentProvider := "ONEPAY", paymentReference := txId)])
    else t
  }

  /** `reason || payment.lastError || "Payment not completed."` */
  function FailureReason(reason: string, existing: Option<string>): (r: string)
    ensures r != ""
    ensures reason != "" ==> r == reason
  {
    if reason != "" then reason
    else if existing.Some? && existing.value != "" then existing.value
    else "Payment not completed."
  }

  /** `markFailedFinal({ payment, registrationMongoId: key, reason })` */
  function MarkedFailed(t: Tables, pid: nat, key: string, reason: string): (r: Tables)
    requires pid < |t.payments|
    ensures |r.payments| == |t.payments|
    ensures r.payments[pid].status == Failed
  {
    var p := t.payments[pid];
    var t1 := WithPayment(t, pid, p.(status := Failed, lastError := Some(FailureReason(reason, p.lastError))));
    WithRegistrationPayment(t1, key, RegFailed, p.txId)
  }

  /** What `initiateOnepayPayment` returns. */
  datatype Initiation = Initiation(paymentId: nat, redirectUrl: string, transactionId: string, reused: bool)

  /** The record `Payment.create` stores for a new checkout. */
  function NewPayment(key: string, reg: Registration, rt: Runtime): Payment {
    Payment(key, MakeReference(reg.registrationId, rt.referenceBytes), "", EnvOr(rt.vars, "ONEPAY_CURRENCY", "USD"),
            reg.feeAmount, "", Initiated, 0, None, None, None)
  }

  /** The payment initiation works on: the latest open one, or a new one. */
  function OpenOrNewPayment(t: Tables, key: string, rt: Runtime): (r: (Tables, nat))
    requires key in t.registrations
    ensures r.1 < |r.0.payments|
  {
    match LatestPayment(t.payments, key, true)
    case Some(pid) => (t, pid)
    case None => (t.(payments := t.payments + [NewPayment(key, t.registrations[key], rt)]), |t.payments|)
  }

  /** What initiation hands to `createCheckoutLink`. */
  function CheckoutArgsFor(key: string, reg: Registration, p: Payment, vars: Vars): CheckoutArgs {
    CheckoutArgs(
      p.amount, p.currency, p.reference,
      Customer(Or(Str(reg.firstName), Str("N/A")), Or(Str(reg.lastName), Str("N/A")),
               Or(Str(reg.mobile), Str("N/A")), Str(reg.email)),
      EnvText(vars, "ONEPAY_TRANSACTION_REDIRECT_URL") + "?rid=" + key,
      Str(reg.registrationId),
      Undefined)
  }

  /** Initiation once payment `pid` of registration `key` is chosen: hand out
      its checkout again, or request a new one. */
  function CheckoutOutcome(t: Tables, pid: nat, key: string, reply: FetchReply, rt: Runtime): Step<Initiation>
    requires pid < |t.payments| && key in t.registrations
  {
    var reg := t.registrations[key];
    var p := t.payments[pid];
    if p.status == Pending && p.redirectUrl != "" then
      Step(t, Ok(Initiation(pid, p.redirectUrl, p.txId, true)))
    else
      var p1 := p.(attempts := p.attempts + 1, lastError := None);
      LinkOutcome(WithPayment(t, pid, p1), pid, key, p1, CreateCheckoutLink(rt.vars, rt.sha256, CheckoutArgsFor(key, reg, p, rt.vars), reply))
  }

  /** The rest of a checkout once the attempt is counted on `p1`, stored as
      payment `pid`, and the gateway has answered the checkout request with `link`. */
  function LinkOutcome(t1: Tables, pid: nat, key: string, p1: Payment, link: Outcome<CheckoutLink>): Step<Initiation>
    requires pid < |t1.payments|
    requires link.Ok? ==> Truthy(link.value.transactionId) && Truthy(link.value.redirectUrl)
  {
    match link
    case Err(e) =>
      var p2 := p1.(status := Failed, lastError := Some(if Message(e) != "" then Message(e) else "Initiation failed"));
      Step(WithPayment(t1, pid, p2), Err(if e.HttpError? then e else Http(500, "Failed to initiate payment.")))
    case Ok(l) =>
      match (CastString(l.transactionId), CastString(l.redirectUrl))
      case (Some(txId), Some(url)) =>
        var t2 := WithPayment(t1, pid, p1.(txId := txId, redirectUrl := url, status := Pending));
        Step(WithRegistrationPayment(t2, key, RegPending, txId), Ok(Initiation(pid, url, txId, false)))
      case _ =>
        // Saving the uncastable id fails, and so does the save in the error handler.
        Step(t1, Err(Http(500, "Failed to initiate payment.")))
  }

  /** `initiateOnepayPayment(key)` given the gateway's reply to the checkout request. */
  function InitiateOutcome(t: Tables, key: string, reply: FetchReply, rt: Runtime): Step<Initiation> {
    if !IsObjectId(key) then Step(t, Err(Http(400, "Invalid registration id.")))
    else if key !in t.registrations then Step(t, Err(Http(404, "Registration not found.")))
    else if t.registrations[key].paymentStatus == RegPaid then Step(t, Err(Http(409, "Registration is already paid.")))
    else
      var (t1, pid) := OpenOrNewPayment(t, key, rt);
      CheckoutOutcome(t1, pid, key, reply, rt)
  }

  /** `data.paid_on ? new Date(data.paid_on) : new Date()` at time `now`;
      `None` is an Invalid Date. */
  function PaidAt(paidOn: JsValue, rt: Runtime, now: int): Option<int> {
    if Truthy(paidOn) then rt.parseDate(paidOn) else Some(now)
  }

  /** What `payment.save()` rejects with when `paidAt` was given an Invalid
      Date: the schema's Date cast refuses it. */
  const PaidAtRejected: Error :=
    ValidationFailed("Payment validation failed: paidAt: Cast to date failed",
                     Obj(map["paidAt" := Str("Cast to date failed")]))

  /** `verifyAndSync` once the gateway reports the payment as paid. */
  function SyncPaid(t: Tables, pid: nat, data: JsValue, rt: Runtime, now: int): (s: Step<Payment>)
    requires pid < |t.payments| && t.payments[pid].registration in t.registrations
    ensures |s.tables.payments| == |t.payments|
  {
    var p := t.payments[pid];
    var received := ToMinorUnits(Get(data, "amount"));
    var expected := ToMinorUnits(Num(p.amount));
    var currency := Get(data, "currency");
    if received.Some? && expected.Some? && received.value != expected.value then
      Step(t, Err(Http(409, "Payment amount mismatch. Manual review required.")))
    else if Truthy(currency) && currency != Str(p.currency) then
      Step(t, Err(Http(409, "Payment currency mismatch. Manual review required.")))
    else
      var at := PaidAt(Get(data, "paid_on"), rt, now);
      if at.None? then Step(t, Err(PaidAtRejected))
      else
        var p1 := p.(status := Paid, paidAt := at, lastError := None);
        FinalizePaid(WithRegistrationPayment(WithPayment(t, pid, p1), p.registration, RegPaid, p.txId), pid, p1, rt, now)
  }

  /** The end of the paid branch: finalize the registration, and record a
      finalize failure on the paid payment without failing the verification. */
  function FinalizePaid(t1: Tables, pid: nat, p1: Payment, rt: Runtime, now: int): (s: Step<Payment>)
    requires pid < |t1.payments|
    ensures |s.tables.payments| == |t1.payments|
    ensures s.result.Ok?
  {
    var fin := FinalizeOutcome(t1, p1.registration, p1.txId, "ONEPAY", rt, now);
    FinalizeKeepsPayments(t1, p1.registration, p1.txId, "ONEPAY", rt, now);
    match fin.result
    case Ok(_) => Step(fin.tables, Ok(p1))
    case Err(e) =>
      var p2 := p1.(lastError := Some("Finalize failed: " + (if Message(e) != "" then Message(e) else "unknown")));
      Step(WithPayment(fin.tables, pid, p2), Ok(p2))
  }

  /** Finalizing writes no payment but the paid one, and returns it as stored. */
  lemma FinalizePaidPayments(t1: Tables, pid: nat, p1: Payment, rt: Runtime, now: int)
    requires pid < |t1.payments| && t1.payments[pid] == p1
    ensures var s := FinalizePaid(t1, pid, p1, rt, now);
            && s.result.Ok? && s.tables.payments[pid] == s.result.value
            && s.result.value == p1.(lastError := s.result.value.lastError)
            && (forall j :: 0 <= j < |t1.payments| && j != pid ==> s.tables.payments[j] == t1.payments[j])
  {
    FinalizeKeepsPayments(t1, p1.registration, p1.txId, "ONEPAY", rt, now);
  }

  /** Finalizing a registration whose provider and reference are set changes
      it only through its `qr` link. */
  lemma FinalizePaidRegistrations(t1: Tables, pid: nat, p1: Payment, rt: Runtime, now: int)
    requires pid < |t1.payments|
    requires p1.registration in t1.registrations ==>
               t1.registrations[p1.registration].paymentProvider != "" && t1.registrations[p1.registration].paymentReference != ""
    ensures var t2 := FinalizePaid(t1, pid, p1, rt, now).tables;
            && t2.registrations.Keys == t1.registrations.Keys
            && (forall k :: k in t1.registrations ==> t2.registrations[k] == t1.registrations[k].(qr := t2.registrations[k].qr))
  {
    FinalizeOfFilledRegistration(t1, p1.registration, p1.txId, "ONEPAY", rt, now);
  }

  /** Finalizing the paid payment's registration keeps every link resolvable. */
  lemma FinalizePaidKeepsLinks(t1: Tables, pid: nat, p1: Payment, rt: Runtime, now: int)
    requires Linked(t1) && pid < |t1.payments| && t1.payments[pid].registration == p1.registration
    ensures Linked(FinalizePaid(t1, pid, p1, rt, now).tables)
  {
    var fin := FinalizeOutcome(t1, p1.registration, p1.txId, "ONEPAY", rt, now);
    FinalizeKeepsLinks(t1, p1.registration, p1.txId, "ONEPAY", rt, now);
    FinalizeKeepsPayments(t1, p1.registration, p1.txId, "ONEPAY", rt, now);
    if fin.result.Err? {
      var p2 := p1.(lastError := Some("Finalize failed: " + (if Message(fin.result.error) != "" then Message(fin.result.error) else "unknown")));
      WithPaymentKeepsLinks(fin.tables, pid, p2);
    }
  }

  /** `verifyAndSync` when the gateway does not report the payment as paid. */
  function SyncNotPaid(t: Tables, pid: nat): (s: Step<Payment>)
    requires pid < |t.payments| && t.payments[pid].registration in t.registrations
    ensures |s.tables.payments| == |t.payments|
  {
    var p := t.payments[pid];
    var p1 := if p.status != Pending then p.(status := Pending) else p;
    var t1 := WithPayment(t, pid, p1);
    var reg := t.registrations[p.registration];
    var t2 := if reg.paymentStatus != RegPending then WithRegistrationPayment(t1, p.registration, RegPending, p.txId) else t1;
    Step(t2, Ok(p1))
  }

  /** `verifyAndSync(payment)` for payment `pid`, given the gateway's reply to the status query. */
  function VerifyOutcome(t: Tables, pid: nat, reply: FetchReply, rt: Runtime, now: int): (s: Step<Payment>)
    requires pid < |t.payments|
    ensures |s.tables.payments| == |t.payments|
  {
    var p := t.payments[pid];
    if p.txId == "" || p.status == Paid then Step(t, Ok(p))
    else if p.registration !in t.registrations then Step(t, Err(Http(404, "Registration not found for payment.")))
    else
      match GetTransactionStatus(rt.vars, reply)
      case Err(e) => Step(t, Err(e))
      case Ok(json) =>
        var data := Or(Get(json, "data"), Obj(map[]));
        match StatusMessage(data)
        case Err(e) => Step(t, Err(e))
        case Ok(msg) =>
          if IsPaid(Get(data, "status"), msg) then SyncPaid(t, pid, data, rt, now) else SyncNotPaid(t, pid)
  }

  /** What `handleOnepayCallback` returns besides `ok: true`. */
  datatype CallbackAck = CallbackAck(alreadyProcessed: bool, status: PaymentStatus)

  /** The four callback fields kept for audit. */
  function CallbackOf(body: JsValue): CallbackRecord {
    CallbackRecord(Get(body, "transaction_id"), Get(body, "status"), Get(body, "status_message"), Get(body, "additional_data"))
  }

  /** What the query throws for a transaction id that does not cast to a string. */
  const TransactionIdCastError: Error := ScriptError("CastError", "Cast to string failed for value at path \"onepayTransactionId\" for model \"Payment\"")

  /** `handleOnepayCallback(body)` given the gateway's reply to the status query. */
  function CallbackOutcome(t: Tables, body: JsValue, reply: FetchReply, rt: Runtime, now: int): Step<CallbackAck> {
    var txValue := Get(body, "transaction_id");
    if !Truthy(txValue) then Step(t, Err(Http(400, "Missing transaction_id.")))
    else match CastString(txValue)
      case None => Step(t, Err(TransactionIdCastError))
      case Some(txId) =>
        match PaymentWithTransaction(t.payments, txId)
        case None => Step(t, Err(Http(404, "Payment not found for transaction_id.")))
        case Some(pid) =>
          var p := t.payments[pid];
          if p.status == Paid then Step(t, Ok(CallbackAck(true, Paid)))
          else
            var t1 := WithPayment(t, pid, p.(lastCallback := Some(CallbackOf(body))));
            var synced := VerifyOutcome(t1, pid, reply, rt, now);
            match synced.result
            case Err(e) => Step(synced.tables, Err(e))
            case Ok(q) => Step(synced.tables, Ok(CallbackAck(false, q.status)))
  }

  /** When check `i` of a poll started at `now` happens. */
  function CheckTime(now: int, i: nat): int {
    now + i * PollIntervalMs
  }

  /** What a check that did not find the payment PAID leaves for the next one:
      the tables and the last error text. A failed check records its error on
      the payment. */
  function AfterCheck(v: Step<Payment>, pid: nat, lastErr: string): (r: (Tables, string))
    requires pid < |v.tables.payments|
    ensures |r.0.payments| == |v.tables.payments|
  {
    match v.result
    case Ok(_) => (v.tables, lastErr)
    case Err(e) =>
      var msg := ErrorText(e);
      (WithPayment(v.tables, pid, v.tables.payments[pid].(lastError := Some(msg))), msg)
  }

  /** The status poll from check `i` on, `lastErr` being the text of the last
      failed check ("" when none failed). Check `i` happens `i` intervals after
      `now` and sees the gateway's `i`-th reply. */
  function PollFrom(t: Tables, pid: nat, key: string, gateway: nat -> FetchReply, rt: Runtime, now: int, i: nat, lastErr: string): (s: Step<Payment>)
    requires pid < |t.payments|
    ensures |s.tables.payments| == |t.payments|
    decreases PollChecks - i, 1
  {
    if i >= PollChecks then
      var t1 := MarkedFailed(t, pid, key, if lastErr != "" then lastErr else "Payment not completed within 1 minute.");
      Step(t1, Ok(t1.payments[pid]))
    else PollCheckAt(t, pid, key, gateway, rt, now, i, lastErr)
  }

  /** Check `i` of the poll: PAID ends it, anything else moves on to check `i + 1`. */
  function PollCheckAt(t: Tables, pid: nat, key: string, gateway: nat -> FetchReply, rt: Runtime, now: int, i: nat, lastErr: string): (s: Step<Payment>)
    requires pid < |t.payments| && i < PollChecks
    ensures |s.tables.payments| == |t.payments|
    decreases PollChecks - i, 0
  {
    var v := VerifyOutcome(t, pid, gateway(i), rt, CheckTime(now, i));
    if v.result.Ok? && v.result.value.status == Paid then Step(v.tables, Ok(v.tables.payments[pid]))
    else if v.result == Err(PaidAtRejected) then HeldPaid(v.tables, pid, key, i)
    else
      var next := AfterCheck(v, pid, lastErr);
      PollFrom(next.0, pid, key, gateway, rt, now, i + 1, next.1)
  }

  /** The poll after check `i` was refused because `paid_on` is not a date.
      The loop's own copy of the payment already says PAID, and that copy
      still holds the refused date, so every later save of it fails too: the
      error is not stored. If a check is left, it returns that copy at once
      and the poll answers with the payment as stored. After the last check,
      `markFailedFinal` can only mark the registration FAILED, and the poll
      again answers with the stored payment. */
  function HeldPaid(t: Tables, pid: nat, key: string, i: nat): (s: Step<Payment>)
    requires pid < |t.payments|
    ensures |s.tables.payments| == |t.payments|
  {
    if i + 1 < PollChecks then Step(t, Ok(t.payments[pid]))
    else
      var t1 := WithRegistrationPayment(t, key, RegFailed, t.payments[pid].txId);
      Step(t1, Ok(t1.payments[pid]))
  }

  /** One check of the poll: PAID ends it, anything else moves on to the next check. */
  lemma PollFromStep(t: Tables, pid: nat, key: string, gateway: nat -> FetchReply, rt: Runtime, now: int, i: nat, lastErr: string, v: Step<Payment>)
    requires pid < |t.payments| && i < PollChecks
    requires v == VerifyOutcome(t, pid, gateway(i), rt, CheckTime(now, i))
    ensures pid < |v.tables.payments|
    ensures v.result.Ok? && v.result.value.status == Paid ==>
              PollFrom(t, pid, key, gateway, rt, now, i, lastErr) == Step(v.tables, Ok(v.tables.payments[pid]))
    ensures v.result == Err(PaidAtRejected) ==>
              PollFrom(t, pid, key, gateway, rt, now, i, lastErr) == HeldPaid(v.tables, pid, key, i)
    ensures !(v.result.Ok? && v.result.value.status == Paid) && v.result != Err(PaidAtRejected) ==>
              PollFrom(t, pid, key, gateway, rt, now, i, lastErr) ==
                PollFrom(AfterCheck(v, pid, lastErr).0, pid, key, gateway, rt, now, i + 1, AfterCheck(v, pid, lastErr).1)
  {
  }

  /** After the last check the payment is marked FAILED with the last error,
      or with the timeout message when no check failed. */
  lemma PollFromEnd(t: Tables, pid: nat, key: string, gateway: nat -> FetchReply, rt: Runtime, now: int, i: nat, lastErr: string)
    requires pid < |t.payments| && i >= PollChecks
    ensures var t1 := MarkedFailed(t, pid, key, if lastErr != "" then lastErr else "Payment not completed within 1 minute.");
            pid < |t1.payments| && PollFrom(t, pid, key, gateway, rt, now, i, lastErr) == Step(t1, Ok(t1.payments[pid]))
  {
  }

  /** `getPaymentStatusForRegistration(key)` started at `now`, the gateway
      answering the `i`-th status query with `gateway(i)`. */
  function PollOutcome(t: Tables, key: string, gateway: nat -> FetchReply, rt: Runtime, now: int): Step<Payment> {
    if !IsObjectId(key) then Step(t, Err(Http(400, "Invalid registration id.")))
    else match LatestPayment(t.payments, key, false)
      case None => Step(t, Err(Http(404, "No payment found for this registration.")))
      case Some(pid) =>
        var p := t.payments[pid];
        if p.status == Paid then Step(t, Ok(p))
        else if p.txId == "" then
          var t1 := MarkedFailed(t, pid, key, "Missing OnePay transaction id.");
          Step(t1, Ok(t1.payments[pid]))
        else PollFrom(t, pid, key, gateway, rt, now, 0, "")
  }

  /** The status data and message the gateway's reply yields, when it yields any. */
  function GatewayData(vars: Vars, reply: FetchReply): (r: Option<(JsValue, string)>)
    ensures r.Some? <==> GetTransactionStatus(vars, reply).Ok?
                         && StatusMessage(Or(Get(reply.json, "data"), Obj(map[]))).Ok?
  {
    match GetTransactionStatus(vars, reply)
    case Err(_) => None
    case Ok(json) =>
      var data := Or(Get(json, "data"), Obj(map[]));
      match StatusMessage(data)
      case Err(_) => None
      case Ok(msg) => Some((data, msg))
  }

  /** Neither the status data's amount (in minor units) nor a given currency
      disagrees with payment `p`. */
  predicate Agrees(data: JsValue, p: Payment) {
    && !(ToMinorUnits(Get(data, "amount")).Some? && ToMinorUnits(Get(data, "amount")) != ToMinorUnits(Num(p.amount)))
    && !(Truthy(Get(data, "currency")) && Get(data, "currency") != Str(p.currency))
  }

  /** The gateway vouches for payment `p`: it reports it paid, with data
      that agrees with the record. */
  predicate Vouches(vars: Vars, reply: FetchReply, p: Payment) {
    var g := GatewayData(vars, reply);
    g.Some? && IsPaid(Get(g.value.0, "status"), g.value.1) && Agrees(g.value.0, p)
  }

  /** The status data's `paid_on` is absent or a date. */
  predicate PaidOnReadable(rt: Runtime, data: JsValue) {
    PaidAt(Get(data, "paid_on"), rt, 0).Some?
  }

  /** The gateway confirms payment `p`: it vouches for it, and a given
      `paid_on` is a date. */
  predicate Confirms(rt: Runtime, reply: FetchReply, p: Payment) {
    Vouches(rt.vars, reply, p) && PaidOnReadable(rt, GatewayData(rt.vars, reply).value.0)
  }

  /** The gateway reports payment with a `paid_on` that is not a date. */
  predicate ReportsUndated(rt: Runtime, reply: FetchReply) {
    var g := GatewayData(rt.vars, reply);
    g.Some? && IsPaid(Get(g.value.0, "status"), g.value.1) && !PaidOnReadable(rt, g.value.0)
  }

  /** Verification writes only payment `pid`, never marks it FAILED, never
      touches its identity, reference, amount or audit record, and returns it
      as stored. */
  lemma VerifyWritesOnlyItsPayment(t: Tables, pid: nat, reply: FetchReply, rt: Runtime, now: int)
    requires pid < |t.payments|
    ensures var s := VerifyOutcome(t, pid, reply, rt, now);
            var p := t.payments[pid];
            var q := s.tables.payments[pid];
            && (forall j :: 0 <= j < |t.payments| && j != pid ==> s.tables.payments[j] == t.payments[j])
            && (q.status == p.status || q.status == Paid || q.status == Pending)
            && q.registration == p.registration && q.txId == p.txId && q.reference == p.reference
            && q.amount == p.amount && q.currency == p.currency && q.lastCallback == p.lastCallback
            && (s.result.Ok? ==> s.result.value == q)
            && (s.result.Err? ==> s.tables == t)
  {
    var s := VerifyOutcome(t, pid, reply, rt, now);
    var p := t.payments[pid];
    if p.txId != "" && p.status != Paid && p.registration in t.registrations {
      var g := GatewayData(rt.vars, reply);
      if g.Some? && IsPaid(Get(g.value.0, "status"), g.value.1) {
        assert s == SyncPaid(t, pid, g.value.0, rt, now);
        SyncPaidWritesOnlyItsPayment(t, pid, g.value.0, rt, now);
      }
    }
  }

  lemma SyncPaidWritesOnlyItsPayment(t: Tables, pid: nat, data: JsValue, rt: Runtime, now: int)
    requires pid < |t.payments| && t.payments[pid].registration in t.registrations
    ensures var s := SyncPaid(t, pid, data, rt, now);
            var p := t.payments[pid];
            var q := s.tables.payments[pid];
            && (forall j :: 0 <= j < |t.payments| && j != pid ==> s.tables.payments[j] == t.payments[j])
            && (s.result.Ok? ==> q == p.(status := Paid, paidAt := q.paidAt, lastError := q.lastError) && s.result.value == q)
            && (s.result.Err? ==> s.tables == t)
  {
    var s := SyncPaid(t, pid, data, rt, now);
    var p := t.payments[pid];
    if s.result.Ok? {
      var p1 := p.(status := Paid, paidAt := PaidAt(Get(data, "paid_on"), rt, now), lastError := None);
      var t1 := WithRegistrationPayment(WithPayment(t, pid, p1), p.registration, RegPaid, p.txId);
      FinalizePaidPayments(t1, pid, p1, rt, now);
    }
  }

  /** Verification marks a payment PAID exactly when it has a transaction id,
      its registration is stored, and the gateway confirms it; the
      registration is then PAID with provider ONEPAY and the transaction id as
      reference. */
  lemma VerifyPaidIffConfirmed(t: Tables, pid: nat, reply: FetchReply, rt: Runtime, now: int)
    requires pid < |t.payments| && t.payments[pid].status != Paid
    ensures var s := VerifyOutcome(t, pid, reply, rt, now);
            var p := t.payments[pid];
            && (s.tables.payments[pid].status == Paid <==>
                  p.txId != "" && p.registration in t.registrations && Confirms(rt, reply, p))
            && (s.tables.payments[pid].status == Paid ==>
                  && p.registration in s.tables.registrations
                  && s.tables.registrations[p.registration].paymentStatus == RegPaid
                  && s.tables.registrations[p.registration].paymentProvider == "ONEPAY"
                  && s.tables.registrations[p.registration].paymentReference == p.txId)
  {
    var p := t.payments[pid];
    VerifyWritesOnlyItsPayment(t, pid, reply, rt, now);
    if p.txId != "" && p.registration in t.registrations {
      var g := GatewayData(rt.vars, reply);
      if g.Some? && IsPaid(Get(g.value.0, "status"), g.value.1) {
        assert VerifyOutcome(t, pid, reply, rt, now) == SyncPaid(t, pid, g.value.0, rt, now);
        SyncPaidIffConfirmed(t, pid, reply, rt, now);
      }
    }
  }

  /** `VerifyPaidIffConfirmed` once the gateway has reported payment. */
  lemma SyncPaidIffConfirmed(t: Tables, pid: nat, reply: FetchReply, rt: Runtime, now: int)
    requires pid < |t.payments| && t.payments[pid].status != Paid
    requires t.payments[pid].txId != "" && t.payments[pid].registration in t.registrations
    requires GatewayData(rt.vars, reply).Some?
    requires IsPaid(Get(GatewayData(rt.vars, reply).value.0, "status"), GatewayData(rt.vars, reply).value.1)
    ensures var s := SyncPaid(t, pid, GatewayData(rt.vars, reply).value.0, rt, now);
            var p := t.payments[pid];
            && (s.tables.payments[pid].status == Paid <==> Confirms(rt, reply, p))
            && (s.tables.payments[pid].status == Paid ==>
                  && p.registration in s.tables.registrations
                  && s.tables.registrations[p.registration].paymentStatus == RegPaid
                  && s.tables.registrations[p.registration].paymentProvider == "ONEPAY"
                  && s.tables.registrations[p.registration].paymentReference == p.txId)
  {
    SyncPaidIffAccepted(t, pid, GatewayData(rt.vars, reply).value.0, rt, now);
  }

  /** The paid branch marks the payment PAID exactly when the status data
      agrees with it and a given `paid_on` is a date; the registration is
      then PAID with provider ONEPAY and the transaction id as reference. */
  lemma SyncPaidIffAccepted(t: Tables, pid: nat, data: JsValue, rt: Runtime, now: int)
    requires pid < |t.payments| && t.payments[pid].status != Paid && t.payments[pid].registration in t.registrations
    requires t.payments[pid].txId != ""
    ensures var s := SyncPaid(t, pid, data, rt, now);
            var p := t.payments[pid];
            && (s.tables.payments[pid].status == Paid <==> Agrees(data, p) && PaidOnReadable(rt, data))
            && (s.tables.payments[pid].status == Paid ==>
                  && p.registration in s.tables.registrations
                  && s.tables.registrations[p.registration].paymentStatus == RegPaid
                  && s.tables.registrations[p.registration].paymentProvider == "ONEPAY"
                  && s.tables.registrations[p.registration].paymentReference == p.txId)
  {
    SyncPaidWritesOnlyItsPayment(t, pid, data, rt, now);
    SyncPaidAccepts(t, pid, data, rt, now);
    SyncPaidRegistersPaid(t, pid, data, rt, now);
  }

  /** The paid branch succeeds exactly when the reply agrees with the payment
      and its `paid_on` is absent or a readable date. */
  lemma SyncPaidAccepts(t: Tables, pid: nat, data: JsValue, rt: Runtime, now: int)
    requires pid < |t.payments| && t.payments[pid].registration in t.registrations
    ensures SyncPaid(t, pid, data, rt, now).result.Ok? <==> Agrees(data, t.payments[pid]) && PaidOnReadable(rt, data)
  {
  }

  /** A successful paid branch marks the registration PAID through ONEPAY
      with the payment's transaction id. */
  lemma SyncPaidRegistersPaid(t: Tables, pid: nat, data: JsValue, rt: Runtime, now: int)
    requires pid < |t.payments| && t.payments[pid].registration in t.registrations
    requires t.payments[pid].txId != ""
    ensures var s := SyncPaid(t, pid, data, rt, now);
            var p := t.payments[pid];
            s.result.Ok? ==>
              && p.registration in s.tables.registrations
              && s.tables.registrations[p.registration].paymentStatus == RegPaid
              && s.tables.registrations[p.registration].paymentProvider == "ONEPAY"
              && s.tables.registrations[p.registration].paymentReference == p.txId
  {
    var p := t.payments[pid];
    var at := PaidAt(Get(data, "paid_on"), rt, now);
    if Agrees(data, p) && at.Some? {
      var p1 := p.(status := Paid, paidAt := at, lastError := None);
      var t1 := WithRegistrationPayment(WithPayment(t, pid, p1), p.registration, RegPaid, p.txId);
      assert SyncPaid(t, pid, data, rt, now) == FinalizePaid(t1, pid, p1, rt, now);
      FinalizePaidRegistrations(t1, pid, p1, rt, now);
    }
  }

  /** A reply that is readable but does not report payment leaves the payment
      and its registration PENDING. */
  lemma VerifyUnpaidStaysPending(t: Tables, pid: nat, reply: FetchReply, rt: Runtime, now: int)
    requires pid < |t.payments|
    requires var p := t.payments[pid];
             p.txId != "" && p.status != Paid && p.registration in t.registrations
    requires var g := GatewayData(rt.vars, reply);
             g.Some? && !IsPaid(Get(g.value.0, "status"), g.value.1)
    ensures var s := VerifyOutcome(t, pid, reply, rt, now);
            var p := t.payments[pid];
            && s.result == Ok(s.tables.payments[pid])
            && s.tables.payments[pid] == p.(status := Pending)
            && s.tables.registrations.Keys == t.registrations.Keys
            && s.tables.registrations[p.registration].paymentStatus == RegPending
  {
  }

  /** `verifyAndSync` with the paid test corrected: a reply that the code
      counts as paid only for an UNPAID or UNSUCCESSFUL message takes the
      not-paid branch instead. */
  function VerifyOutcomeIntended(t: Tables, pid: nat, reply: FetchReply, rt: Runtime, now: int): (s: Step<Payment>)
    requires pid < |t.payments|
    ensures |s.tables.payments| == |t.payments|
  {
    var p := t.payments[pid];
    var g := GatewayData(rt.vars, reply);
    if p.txId != "" && p.status != Paid && p.registration in t.registrations
       && g.Some? && !IsPaidIntended(Get(g.value.0, "status"), g.value.1)
    then SyncNotPaid(t, pid)
    else VerifyOutcome(t, pid, reply, rt, now)
  }

  /** The gateway confirms payment `p` under the corrected paid test. */
  predicate ConfirmsIntended(rt: Runtime, reply: FetchReply, p: Payment) {
    && Confirms(rt, reply, p)
    && IsPaidIntended(Get(GatewayData(rt.vars, reply).value.0, "status"), GatewayData(rt.vars, reply).value.1)
  }

  /** With the corrected test, verification marks a payment PAID exactly when
      it has a transaction id, its registration is stored, and the gateway
      confirms it by a status code or an affirmed PAID or SUCCESS; the
      registration is then PAID with provider ONEPAY. */
  lemma VerifyIntendedPaidIffConfirmed(t: Tables, pid: nat, reply: FetchReply, rt: Runtime, now: int)
    requires pid < |t.payments| && t.payments[pid].status != Paid
    ensures var s := VerifyOutcomeIntended(t, pid, reply, rt, now);
            var p := t.payments[pid];
            && (s.tables.payments[pid].status == Paid <==>
                  p.txId != "" && p.registration in t.registrations && ConfirmsIntended(rt, reply, p))
            && (s.tables.payments[pid].status == Paid ==>
                  && p.registration in s.tables.registrations
                  && s.tables.registrations[p.registration].paymentStatus == RegPaid
                  && s.tables.registrations[p.registration].paymentProvider == "ONEPAY"
                  && s.tables.registrations[p.registration].paymentReference == p.txId)
  {
    var p := t.payments[pid];
    var g := GatewayData(rt.vars, reply);
    VerifyPaidIffConfirmed(t, pid, reply, rt, now);
    if p.txId != "" && p.registration in t.registrations && g.Some? {
      PaidTestCorrection(Get(g.value.0, "status"), g.value.1);
    }
  }

  /** As written, a reply whose message is "UNPAID" and whose amount and
      currency agree marks the payment PAID; with the corrected test it stays
      PENDING unless the status code itself reports payment. */
  lemma VerifyUnpaidMarksPaidAsWritten(t: Tables, pid: nat, reply: FetchReply, rt: Runtime, now: int)
    requires pid < |t.payments|
    requires var p := t.payments[pid];
             p.txId != "" && p.status != Paid && p.registration in t.registrations
    requires var g := GatewayData(rt.vars, reply);
             && g.Some? && g.value.1 == "UNPAID"
             && !(ToMinorUnits(Get(g.value.0, "amount")).Some? && ToMinorUnits(Get(g.value.0, "amount")) != ToMinorUnits(Num(t.payments[pid].amount)))
             && !(Truthy(Get(g.value.0, "currency")) && Get(g.value.0, "currency") != Str(t.payments[pid].currency))
             && PaidOnReadable(rt, g.value.0)
    ensures VerifyOutcome(t, pid, reply, rt, now).tables.payments[pid].status == Paid
    ensures var st := Get(GatewayData(rt.vars, reply).value.0, "status");
            st != Bool(true) && st != Num(1.0) && st != Str("1") ==>
              VerifyOutcomeIntended(t, pid, reply, rt, now).tables.payments[pid].status == Pending
  {
    UnpaidSplitsTests(Get(GatewayData(rt.vars, reply).value.0, "status"));
    assert Confirms(rt, reply, t.payments[pid]);
    VerifyPaidIffConfirmed(t, pid, reply, rt, now);
  }

  lemma UnpaidSplitsTests(status: JsValue)
    ensures IsPaid(status, "UNPAID")
    ensures status != Bool(true) && status != Num(1.0) && status != Str("1") ==> !IsPaidIntended(status, "UNPAID")
  {
    assert "UNPAID" == "UN" + "PAID";
    assert StartsWith("PAID", "PAID");
    ContainsAfterPrefix("UN", "PAID", "PAID");
    NotAffirmed("UNPAID", "PAID");
    NotAffirmed("UNPAID", "SUCCESS");
  }

  /** An invalid id, a missing registration and a PAID one are refused before anything is written. */
  lemma InitiateGuards(t: Tables, key: string, reply: FetchReply, rt: Runtime)
    ensures var s := InitiateOutcome(t, key, reply, rt);
            && (!IsObjectId(key) ==> s == Step(t, Err(Http(400, "Invalid registration id."))))
            && (IsObjectId(key) && key !in t.registrations ==> s == Step(t, Err(Http(404, "Registration not found."))))
            && (IsObjectId(key) && key in t.registrations && t.registrations[key].paymentStatus == RegPaid ==>
                  s == Step(t, Err(Http(409, "Registration is already paid."))))
  {
  }

  /** Initiation reuses the checkout iff the latest open payment of the
      registration is PENDING with a redirect; then nothing is written and
      that payment's redirect and transaction id are returned. */
  lemma InitiateReusesOpenCheckout(t: Tables, key: string, reply: FetchReply, rt: Runtime)
    requires IsObjectId(key) && key in t.registrations && t.registrations[key].paymentStatus != RegPaid
    ensures var s := InitiateOutcome(t, key, reply, rt);
            var open := LatestPayment(t.payments, key, true);
            && (s.result.Ok? && s.result.value.reused <==>
                  open.Some? && t.payments[open.value].status == Pending && t.payments[open.value].redirectUrl != "")
            && (s.result.Ok? && s.result.value.reused ==>
                  var p := t.payments[open.value];
                  s == Step(t, Ok(Initiation(open.value, p.redirectUrl, p.txId, true))))
  {
  }

  /** A payment is created only when the registration has no open one; it
      carries a reference of at most 21 characters, the configured currency
      (USD by default) and the registration's fee. */
  lemma InitiateCreatesOnlyWhenNoneOpen(t: Tables, key: string, reply: FetchReply, rt: Runtime)
    ensures var s := InitiateOutcome(t, key, reply, rt);
            var creates := IsObjectId(key) && key in t.registrations && t.registrations[key].paymentStatus != RegPaid
                           && LatestPayment(t.payments, key, true).None?;
            && |s.tables.payments| == |t.payments| + (if creates then 1 else 0)
            && (creates ==>
                  var q := s.tables.payments[|t.payments|];
                  && q.registration == key
                  && |q.reference| <= MaxReferenceLength
                  && q.currency == EnvOr(rt.vars, "ONEPAY_CURRENCY", "USD")
                  && q.amount == t.registrations[key].feeAmount
                  && q.status != Paid)
  {
    if IsObjectId(key) && key in t.registrations && t.registrations[key].paymentStatus != RegPaid {
      var (t1, pid) := OpenOrNewPayment(t, key, rt);
      CheckoutKeepsIdentity(t1, pid, key, reply, rt);
    }
  }

  /** The checkout step writes only payment `pid`, keeps its registration,
      reference, currency and amount, and never makes it PAID. */
  lemma CheckoutKeepsIdentity(t: Tables, pid: nat, key: string, reply: FetchReply, rt: Runtime)
    requires pid < |t.payments| && key in t.registrations && t.payments[pid].status != Paid
    ensures var s := CheckoutOutcome(t, pid, key, reply, rt);
            var p := t.payments[pid];
            var q := s.tables.payments[pid];
            && |s.tables.payments| == |t.payments|
            && (forall j :: 0 <= j < |t.payments| && j != pid ==> s.tables.payments[j] == t.payments[j])
            && q.registration == p.registration && q.reference == p.reference
            && q.currency == p.currency && q.amount == p.amount && q.status != Paid
  {
  }

  /** A new checkout leaves the payment PENDING with the gateway's transaction
      id and redirect as the schema casts them to strings, one more attempt
      and no error, and the registration PENDING with provider ONEPAY and that
      transaction id. */
  lemma InitiateSuccess(t: Tables, key: string, reply: FetchReply, rt: Runtime)
    requires InitiateOutcome(t, key, reply, rt).result.Ok? && !InitiateOutcome(t, key, reply, rt).result.value.reused
    ensures var s := InitiateOutcome(t, key, reply, rt);
            var r := s.result.value;
            var (t1, pid) := OpenOrNewPayment(t, key, rt);
            && key in t.registrations
            && r.paymentId == pid
            && s.tables.payments[pid] == t1.payments[pid].(attempts := t1.payments[pid].attempts + 1, lastError := None,
                                                           txId := r.transactionId, redirectUrl := r.redirectUrl, status := Pending)
            && s.tables.registrations == t.registrations[key := t.registrations[key].(paymentStatus := RegPending,
                                                           paymentProvider := "ONEPAY", paymentReference := r.transactionId)]
            && var link := CreateCheckoutLink(rt.vars, rt.sha256, CheckoutArgsFor(key, t.registrations[key], t1.payments[pid], rt.vars), reply);
               && link.Ok? && CastString(link.value.transactionId) == Some(r.transactionId)
               && CastString(link.value.redirectUrl) == Some(r.redirectUrl)
  {
    var (t1, pid) := OpenOrNewPayment(t, key, rt);
    assert t1.registrations == t.registrations;
    var reg := t.registrations[key];
    var p := t1.payments[pid];
    var p1 := p.(attempts := p.attempts + 1, lastError := None);
    var link := CreateCheckoutLink(rt.vars, rt.sha256, CheckoutArgsFor(key, reg, p, rt.vars), reply);
    assert InitiateOutcome(t, key, reply, rt) == LinkOutcome(WithPayment(t1, pid, p1), pid, key, p1, link);
    LinkedOutcome(WithPayment(t1, pid, p1), pid, key, p1, link);
  }

  /** A checkout succeeds only on a link whose transaction id and redirect
      the schema casts to strings; it leaves the payment PENDING with those
      strings and the registration PENDING with provider ONEPAY. */
  lemma LinkedOutcome(t1: Tables, pid: nat, key: string, p1: Payment, link: Outcome<CheckoutLink>)
    requires pid < |t1.payments| && key in t1.registrations
    requires link.Ok? ==> Truthy(link.value.transactionId) && Truthy(link.value.redirectUrl)
    requires LinkOutcome(t1, pid, key, p1, link).result.Ok?
    ensures var s := LinkOutcome(t1, pid, key, p1, link);
            var r := s.result.value;
            && r.paymentId == pid && !r.reused
            && link.Ok? && CastString(link.value.transactionId) == Some(r.transactionId)
            && CastString(link.value.redirectUrl) == Some(r.redirectUrl)
            && s.tables.payments[pid] == p1.(txId := r.transactionId, redirectUrl := r.redirectUrl, status := Pending)
            && s.tables.registrations == t1.registrations[key := t1.registrations[key].(paymentStatus := RegPending,
                                                           paymentProvider := "ONEPAY", paymentReference := r.transactionId)]
  {
  }

  /** When the checkout request fails the payment is FAILED with the error's
      message; an HttpError is passed on, anything else becomes a 500. */
  lemma InitiateFailure(t: Tables, key: string, reply: FetchReply, rt: Runtime)
    requires IsObjectId(key) && key in t.registrations && t.registrations[key].paymentStatus != RegPaid
    ensures var s := InitiateOutcome(t, key, reply, rt);
            var (t1, pid) := OpenOrNewPayment(t, key, rt);
            var p := t1.payments[pid];
            var link := CreateCheckoutLink(rt.vars, rt.sha256, CheckoutArgsFor(key, t.registrations[key], p, rt.vars), reply);
            !(p.status == Pending && p.redirectUrl != "") && link.Err? ==>
              && s.tables.payments[pid].status == Failed
              && s.tables.payments[pid].attempts == p.attempts + 1
              && s.tables.registrations == t.registrations
              && s.result == Err(if link.error.HttpError? then link.error else Http(500, "Failed to initiate payment."))
  {
  }

  /** A callback without a transaction id, or for an unknown one, writes
      nothing; one for a PAID payment is acknowledged as already processed and
      writes nothing; otherwise its fields are kept on the payment for audit,
      whatever the verification that follows does. */
  lemma CallbackOutcomes(t: Tables, body: JsValue, reply: FetchReply, rt: Runtime, now: int)
    ensures var s := CallbackOutcome(t, body, reply, rt, now);
            var txValue := Get(body, "transaction_id");
            && (!Truthy(txValue) ==> s == Step(t, Err(Http(400, "Missing transaction_id."))))
            && (Truthy(txValue) && CastString(txValue).Some? ==>
                  var found := PaymentWithTransaction(t.payments, CastString(txValue).value);
                  && (found.None? ==> s == Step(t, Err(Http(404, "Payment not found for transaction_id."))))
                  && (found.Some? && t.payments[found.value].status == Paid ==> s == Step(t, Ok(CallbackAck(true, Paid))))
                  && (found.Some? && t.payments[found.value].status != Paid ==>
                        && s.tables.payments[found.value].lastCallback == Some(CallbackOf(body))
                        && (s.result.Ok? ==> s.result == Ok(CallbackAck(false, s.tables.payments[found.value].status)))))
            && (s.result.Ok? && s.result.value.alreadyProcessed ==> s.tables == t)
  {
    var txValue := Get(body, "transaction_id");
    if Truthy(txValue) && CastString(txValue).Some? {
      var found := PaymentWithTransaction(t.payments, CastString(txValue).value);
      if found.Some? && t.payments[found.value].status != Paid {
        var pid := found.value;
        var t1 := WithPayment(t, pid, t.payments[pid].(lastCallback := Some(CallbackOf(body))));
        VerifyWritesOnlyItsPayment(t1, pid, reply, rt, now);
      }
    }
  }

  /** Verification is refused for its `paid_on` exactly when the payment is
      open, has a transaction id and a stored registration, and the gateway
      vouches for it with a `paid_on` that is not a date; the refusal writes
      nothing. */
  lemma VerifyRefusesUndated(t: Tables, pid: nat, reply: FetchReply, rt: Runtime, now: int)
    requires pid < |t.payments|
    ensures var s := VerifyOutcome(t, pid, reply, rt, now);
            var p := t.payments[pid];
            && (s.result == Err(PaidAtRejected) <==>
                  && p.txId != "" && p.status != Paid && p.registration in t.registrations
                  && Vouches(rt.vars, reply, p) && !PaidOnReadable(rt, GatewayData(rt.vars, reply).value.0))
            && (s.result == Err(PaidAtRejected) ==> s.tables == t && ReportsUndated(rt, reply))
  {
    var p := t.payments[pid];
    VerifyWritesOnlyItsPayment(t, pid, reply, rt, now);
    if p.txId != "" && p.status != Paid && p.registration in t.registrations {
      var g := GatewayData(rt.vars, reply);
      if g.Some? && IsPaid(Get(g.value.0, "status"), g.value.1) {
        assert VerifyOutcome(t, pid, reply, rt, now) == SyncPaid(t, pid, g.value.0, rt, now);
        SyncPaidRefusesUndated(t, pid, g.value.0, rt, now);
      }
    }
  }

  /** `VerifyRefusesUndated` once the gateway has reported payment. */
  lemma SyncPaidRefusesUndated(t: Tables, pid: nat, data: JsValue, rt: Runtime, now: int)
    requires pid < |t.payments| && t.payments[pid].registration in t.registrations
    ensures SyncPaid(t, pid, data, rt, now).result == Err(PaidAtRejected) <==>
              Agrees(data, t.payments[pid]) && !PaidOnReadable(rt, data)
  {
  }

  /** When check `i` is refused for its `paid_on`, the poll stops there and
      answers with the payment as stored, without marking it FAILED; only
      after the last check is the registration marked FAILED. */
  lemma UndatedStopsPoll(t: Tables, pid: nat, key: string, gateway: nat -> FetchReply, rt: Runtime, now: int, i: nat, lastErr: string)
    requires pid < |t.payments| && i < PollChecks
    requires VerifyOutcome(t, pid, gateway(i), rt, CheckTime(now, i)).result == Err(PaidAtRejected)
    ensures ReportsUndated(rt, gateway(i))
    ensures var s := PollFrom(t, pid, key, gateway, rt, now, i, lastErr);
            && s.result == Ok(t.payments[pid])
            && s.tables.payments == t.payments
            && (i + 1 < PollChecks ==> s.tables == t)
            && (i + 1 == PollChecks ==> s.tables == WithRegistrationPayment(t, key, RegFailed, t.payments[pid].txId))
  {
    var v := VerifyOutcome(t, pid, gateway(i), rt, CheckTime(now, i));
    VerifyRefusesUndated(t, pid, gateway(i), rt, CheckTime(now, i));
    PollFromStep(t, pid, key, gateway, rt, now, i, lastErr, v);
  }

  /** From any check on, the poll returns its payment as stored and writes
      no other payment; unless some reply reports payment with a `paid_on`
      that is not a date, that payment is PAID or FAILED. */
  lemma {:induction false} PollFromEnds(t: Tables, pid: nat, key: string, gateway: nat -> FetchReply, rt: Runtime, now: int, i: nat, lastErr: string)
    requires pid < |t.payments|
    ensures var s := PollFrom(t, pid, key, gateway, rt, now, i, lastErr);
            && s.result == Ok(s.tables.payments[pid])
            && ((forall j: nat :: i <= j < PollChecks ==> !ReportsUndated(rt, gateway(j))) ==>
                  s.result.value.status == Paid || s.result.value.status == Failed)
            && (forall j :: 0 <= j < |t.payments| && j != pid ==> s.tables.payments[j] == t.payments[j])
    decreases PollChecks - i
  {
    if i < PollChecks {
      var v := VerifyOutcome(t, pid, gateway(i), rt, CheckTime(now, i));
      if v.result == Err(PaidAtRejected) {
        UndatedStopsPoll(t, pid, key, gateway, rt, now, i, lastErr);
        return;
      }
      VerifyWritesOnlyItsPayment(t, pid, gateway(i), rt, CheckTime(now, i));
      PollFromStep(t, pid, key, gateway, rt, now, i, lastErr, v);
      if !(v.result.Ok? && v.result.value.status == Paid) {
        var next := AfterCheck(v, pid, lastErr);
        assert forall j :: 0 <= j < |t.payments| && j != pid ==> next.0.payments[j] == v.tables.payments[j];
        PollFromEnds(next.0, pid, key, gateway, rt, now, i + 1, next.1);
        var s := PollFrom(next.0, pid, key, gateway, rt, now, i + 1, next.1);
        forall j | 0 <= j < |t.payments| && j != pid
          ensures s.tables.payments[j] == t.payments[j]
        {
          assert s.tables.payments[j] == next.0.payments[j] == v.tables.payments[j];
        }
      }
    } else {
      PollFromEnd(t, pid, key, gateway, rt, now, i, lastErr);
    }
  }

  /** The status poll answers with the registration's latest payment as
      stored; unless some reply reports payment with a `paid_on` that is not
      a date, that payment is PAID or FAILED. */
  lemma PollEndsPaidOrFailed(t: Tables, key: string, gateway: nat -> FetchReply, rt: Runtime, now: int)
    ensures var s := PollOutcome(t, key, gateway, rt, now);
            s.result.Ok? ==>
              && LatestPayment(t.payments, key, false).Some?
              && s.result.value == s.tables.payments[LatestPayment(t.payments, key, false).value]
              && ((forall j: nat :: j < PollChecks ==> !ReportsUndated(rt, gateway(j))) ==>
                    s.result.value.status == Paid || s.result.value.status == Failed)
  {
    if IsObjectId(key) && LatestPayment(t.payments, key, false).Some? {
      var pid := LatestPayment(t.payments, key, false).value;
      PollFromEnds(t, pid, key, gateway, rt, now, 0, "");
    }
  }

  /** A gateway that never answers (every status query fails with the same
      network error) ends the payment and its registration FAILED, with that
      error as the payment's last error. */
  lemma {:induction false} SilentGatewayFails(t: Tables, pid: nat, key: string, gateway: nat -> FetchReply, rt: Runtime, now: int,
                                              i: nat, lastErr: string, m: string)
    requires pid < |t.payments| && i <= PollChecks
    requires m != "" && (forall j: nat :: gateway(j) == NetworkFailure(m)) && StatusCredentials(rt.vars).Ok?
    requires var p := t.payments[pid];
             p.txId != "" && p.status != Paid && p.registration == key && key in t.registrations
    requires i == PollChecks ==> lastErr == m
    ensures var s := PollFrom(t, pid, key, gateway, rt, now, i, lastErr);
            && s.tables.payments[pid].status == Failed
            && s.tables.payments[pid].lastError == Some(m)
            && key in s.tables.registrations
            && s.tables.registrations[key].paymentStatus == RegFailed
    decreases PollChecks - i
  {
    if i < PollChecks {
      var v := VerifyOutcome(t, pid, gateway(i), rt, CheckTime(now, i));
      assert v == Step(t, Err(ScriptError("TypeError", m)));
      var next := AfterCheck(v, pid, lastErr);
      assert next.1 == m;
      SilentGatewayFails(next.0, pid, key, gateway, rt, now, i + 1, next.1, m);
    }
  }

  /** The gateway reports payment `p` paid, but for an amount whose minor
      units differ from the record's. */
  predicate ReportsWrongAmount(vars: Vars, reply: FetchReply, p: Payment) {
    var g := GatewayData(vars, reply);
    && g.Some?
    && IsPaid(Get(g.value.0, "status"), g.value.1)
    && ToMinorUnits(Get(g.value.0, "amount")).Some?
    && ToMinorUnits(Get(g.value.0, "amount")) != ToMinorUnits(Num(p.amount))
  }

  /** A check whose reply reports the wrong amount changes nothing and fails with 409. */
  lemma MismatchCheck(t: Tables, pid: nat, reply: FetchReply, rt: Runtime, at: int)
    requires pid < |t.payments|
    requires t.payments[pid].txId != "" && t.payments[pid].status != Paid && t.payments[pid].registration in t.registrations
    requires ReportsWrongAmount(rt.vars, reply, t.payments[pid])
    ensures VerifyOutcome(t, pid, reply, rt, at) == Step(t, Err(Http(409, "Payment amount mismatch. Manual review required.")))
  {
    var g := GatewayData(rt.vars, reply);
    assert VerifyOutcome(t, pid, reply, rt, at) == SyncPaid(t, pid, g.value.0, rt, at);
  }

  /** The 409 of an amount mismatch does not escape the poll: it is caught
      like any other error, recorded, and once the checks run out the payment
      and its registration end FAILED with that 409's message as the reason. */
  lemma {:induction false} MismatchEndsFailed(t: Tables, pid: nat, key: string, gateway: nat -> FetchReply, rt: Runtime, now: int,
                                              i: nat, lastErr: string)
    requires pid < |t.payments| && i <= PollChecks
    requires var p := t.payments[pid];
             p.txId != "" && p.status != Paid && p.registration == key && key in t.registrations
    requires forall j: nat :: ReportsWrongAmount(rt.vars, gateway(j), t.payments[pid])
    requires i == PollChecks ==> lastErr == "Payment amount mismatch. Manual review required."
    ensures var s := PollFrom(t, pid, key, gateway, rt, now, i, lastErr);
            && s.result == Ok(s.tables.payments[pid])
            && s.tables.payments[pid].status == Failed
            && s.tables.payments[pid].lastError == Some("Payment amount mismatch. Manual review required.")
            && s.tables.payments[pid].amount == t.payments[pid].amount
            && key in s.tables.registrations
            && s.tables.registrations[key].paymentStatus == RegFailed
    decreases PollChecks - i
  {
    if i < PollChecks {
      var p := t.payments[pid];
      MismatchCheck(t, pid, gateway(i), rt, CheckTime(now, i));
      var v := VerifyOutcome(t, pid, gateway(i), rt, CheckTime(now, i));
      var next := AfterCheck(v, pid, lastErr);
      assert next.0.payments[pid] == p.(lastError := Some("Payment amount mismatch. Manual review required."));
      MismatchEndsFailed(next.0, pid, key, gateway, rt, now, i + 1, next.1);
    }
  }

  /** FAILED is not final on the poll path: a later poll of a FAILED payment
      that has a transaction id asks the gateway again, and a confirmation
      makes it PAID. */
  lemma PollRevivesFailed(t: Tables, key: string, gateway: nat -> FetchReply, rt: Runtime, now: int)
    requires IsObjectId(key) && key in t.registrations
    requires var found := LatestPayment(t.payments, key, false);
             && found.Some?
             && t.payments[found.value].status == Failed
             && t.payments[found.value].txId != ""
             && Confirms(rt, gateway(0), t.payments[found.value])
    ensures var s := PollOutcome(t, key, gateway, rt, now);
            s.result.Ok? && s.result.value.status == Paid
  {
    var pid := LatestPayment(t.payments, key, false).value;
    var v := VerifyOutcome(t, pid, gateway(0), rt, CheckTime(now, 0));
    VerifyPaidIffConfirmed(t, pid, gateway(0), rt, CheckTime(now, 0));
    VerifyWritesOnlyItsPayment(t, pid, gateway(0), rt, CheckTime(now, 0));
    PollFromStep(t, pid, key, gateway, rt, now, 0, "", v);
  }

  lemma WithPaymentKeepsLinks(t: Tables, pid: nat, p: Payment)
    requires Linked(t) && pid < |t.payments| && p.registration in t.registrations
    ensures Linked(WithPayment(t, pid, p))
  {
  }

  lemma WithRegistrationPaymentKeepsLinks(t: Tables, key: string, status: RegPaymentStatus, txId: string)
    requires Linked(t)
    ensures Linked(WithRegistrationPayment(t, key, status, txId))
  {
  }

  /** Initiation keeps every link between records resolvable. */
  lemma InitiateKeepsLinks(t: Tables, key: string, reply: FetchReply, rt: Runtime)
    requires Linked(t)
    ensures Linked(InitiateOutcome(t, key, reply, rt).tables)
  {
    if IsObjectId(key) && key in t.registrations && t.registrations[key].paymentStatus != RegPaid {
      var (t1, pid) := OpenOrNewPayment(t, key, rt);
      assert Linked(t1);
      CheckoutKeepsLinks(t1, pid, key, reply, rt);
    }
  }

  lemma CheckoutKeepsLinks(t: Tables, pid: nat, key: string, reply: FetchReply, rt: Runtime)
    requires Linked(t) && pid < |t.payments| && key in t.registrations && t.payments[pid].registration in t.registrations
    ensures Linked(CheckoutOutcome(t, pid, key, reply, rt).tables)
  {
    var p := t.payments[pid];
    if !(p.status == Pending && p.redirectUrl != "") {
      var p1 := p.(attempts := p.attempts + 1, lastError := None);
      WithPaymentKeepsLinks(t, pid, p1);
      var link := CreateCheckoutLink(rt.vars, rt.sha256, CheckoutArgsFor(key, t.registrations[key], p, rt.vars), reply);
      if link.Err? {
        CheckoutFailedKeepsLinks(t, pid, key, reply, rt, p1, link.error);
      } else {
        CheckoutLinkedKeepsLinks(t, pid, key, reply, rt, p1, link.value);
      }
    }
  }

  lemma CheckoutFailedKeepsLinks(t: Tables, pid: nat, key: string, reply: FetchReply, rt: Runtime, p1: Payment, e: Error)
    requires Linked(t) && pid < |t.payments| && key in t.registrations && t.payments[pid].registration in t.registrations
    requires !(t.payments[pid].status == Pending && t.payments[pid].redirectUrl != "")
    requires p1 == t.payments[pid].(attempts := t.payments[pid].attempts + 1, lastError := None)
    requires CreateCheckoutLink(rt.vars, rt.sha256, CheckoutArgsFor(key, t.registrations[key], t.payments[pid], rt.vars), reply) == Err(e)
    ensures Linked(CheckoutOutcome(t, pid, key, reply, rt).tables)
  {
    var t2 := WithPayment(t, pid, p1);
    WithPaymentKeepsLinks(t, pid, p1);
    var p2 := p1.(status := Failed, lastError := Some(if Message(e) != "" then Message(e) else "Initiation failed"));
    assert CheckoutOutcome(t, pid, key, reply, rt).tables == WithPayment(t2, pid, p2);
    WithPaymentKeepsLinks(t2, pid, p2);
  }

  lemma CheckoutLinkedKeepsLinks(t: Tables, pid: nat, key: string, reply: FetchReply, rt: Runtime, p1: Payment, link: CheckoutLink)
    requires Linked(t) && pid < |t.payments| && key in t.registrations && t.payments[pid].registration in t.registrations
    requires !(t.payments[pid].status == Pending && t.payments[pid].redirectUrl != "")
    requires p1 == t.payments[pid].(attempts := t.payments[pid].attempts + 1, lastError := None)
    requires CreateCheckoutLink(rt.vars, rt.sha256, CheckoutArgsFor(key, t.registrations[key], t.payments[pid], rt.vars), reply) == Ok(link)
    ensures Linked(CheckoutOutcome(t, pid, key, reply, rt).tables)
  {
    var t2 := WithPayment(t, pid, p1);
    WithPaymentKeepsLinks(t, pid, p1);
    var tx := CastString(link.transactionId);
    var url := CastString(link.redirectUrl);
    if tx.Some? && url.Some? {
      var p3 := p1.(txId := tx.value, redirectUrl := url.value, status := Pending);
      assert CheckoutOutcome(t, pid, key, reply, rt).tables == WithRegistrationPayment(WithPayment(t2, pid, p3), key, RegPending, tx.value);
      WithPaymentKeepsLinks(t2, pid, p3);
      WithRegistrationPaymentKeepsLinks(WithPayment(t2, pid, p3), key, RegPending, tx.value);
    } else {
      assert CheckoutOutcome(t, pid, key, reply, rt).tables == t2;
    }
  }

  /** Verification keeps every link between records resolvable. */
  lemma VerifyKeepsLinks(t: Tables, pid: nat, reply: FetchReply, rt: Runtime, now: int)
    requires Linked(t) && pid < |t.payments|
    ensures Linked(VerifyOutcome(t, pid, reply, rt, now).tables)
  {
    var p := t.payments[pid];
    if p.txId != "" && p.status != Paid && p.registration in t.registrations {
      var g := GatewayData(rt.vars, reply);
      if g.Some? {
        var data := g.value.0;
        if IsPaid(Get(data, "status"), g.value.1) {
          SyncPaidKeepsLinks(t, pid, data, rt, now);
        } else {
          var p1 := if p.status != Pending then p.(status := Pending) else p;
          WithPaymentKeepsLinks(t, pid, p1);
          WithRegistrationPaymentKeepsLinks(WithPayment(t, pid, p1), p.registration, RegPending, p.txId);
        }
      }
    }
  }

  lemma SyncPaidKeepsLinks(t: Tables, pid: nat, data: JsValue, rt: Runtime, now: int)
    requires Linked(t) && pid < |t.payments| && t.payments[pid].registration in t.registrations
    ensures Linked(SyncPaid(t, pid, data, rt, now).tables)
  {
    var s := SyncPaid(t, pid, data, rt, now);
    var p := t.payments[pid];
    if s.result.Ok? {
      var p1 := p.(status := Paid, paidAt := PaidAt(Get(data, "paid_on"), rt, now), lastError := None);
      WithPaymentKeepsLinks(t, pid, p1);
      WithRegistrationPaymentKeepsLinks(WithPayment(t, pid, p1), p.registration, RegPaid, p.txId);
      var t1 := WithRegistrationPayment(WithPayment(t, pid, p1), p.registration, RegPaid, p.txId);
      assert s == FinalizePaid(t1, pid, p1, rt, now);
      FinalizePaidKeepsLinks(t1, pid, p1, rt, now);
    } else {
      assert s.tables == t;
    }
  }

  /** Handling a callback keeps every link between records resolvable. */
  lemma CallbackKeepsLinks(t: Tables, body: JsValue, reply: FetchReply, rt: Runtime, now: int)
    requires Linked(t)
    ensures Linked(CallbackOutcome(t, body, reply, rt, now).tables)
  {
    var txValue := Get(body, "transaction_id");
    if Truthy(txValue) && CastString(txValue).Some? {
      var found := PaymentWithTransaction(t.payments, CastString(txValue).value);
      if found.Some? && t.payments[found.value].status != Paid {
        var pid := found.value;
        var p1 := t.payments[pid].(lastCallback := Some(CallbackOf(body)));
        WithPaymentKeepsLinks(t, pid, p1);
        VerifyKeepsLinks(WithPayment(t, pid, p1), pid, reply, rt, now);
      }
    }
  }

  /** The status poll keeps every link between records resolvable. */
  lemma {:induction false} PollFromKeepsLinks(t: Tables, pid: nat, key: string, gateway: nat -> FetchReply, rt: Runtime, now: int, i: nat, lastErr: string)
    requires Linked(t) && pid < |t.payments|
    ensures Linked(PollFrom(t, pid, key, gateway, rt, now, i, lastErr).tables)
    decreases PollChecks - i
  {
    if i >= PollChecks {
      var p := t.payments[pid];
      var reason := if lastErr != "" then lastErr else "Payment not completed within 1 minute.";
      WithPaymentKeepsLinks(t, pid, p.(status := Failed, lastError := Some(FailureReason(reason, p.lastError))));
    } else {
      var v := VerifyOutcome(t, pid, gateway(i), rt, CheckTime(now, i));
      VerifyKeepsLinks(t, pid, gateway(i), rt, CheckTime(now, i));
      PollFromStep(t, pid, key, gateway, rt, now, i, lastErr, v);
      if v.result == Err(PaidAtRejected) {
        HeldPaidKeepsLinks(v.tables, pid, key, i);
      } else if !(v.result.Ok? && v.result.value.status == Paid) {
        var next := AfterCheck(v, pid, lastErr);
        if v.result.Err? {
          WithPaymentKeepsLinks(v.tables, pid, v.tables.payments[pid].(lastError := Some(next.1)));
        }
        PollFromKeepsLinks(next.0, pid, key, gateway, rt, now, i + 1, next.1);
      }
    }
  }

  lemma HeldPaidKeepsLinks(t: Tables, pid: nat, key: string, i: nat)
    requires Linked(t) && pid < |t.payments|
    ensures Linked(HeldPaid(t, pid, key, i).tables)
  {
    WithRegistrationPaymentKeepsLinks(t, key, RegFailed, t.payments[pid].txId);
  }

  lemma PollKeepsLinks(t: Tables, key: string, gateway: nat -> FetchReply, rt: Runtime, now: int)
    requires Linked(t)
    ensures Linked(PollOutcome(t, key, gateway, rt, now).tables)
  {
    if IsObjectId(key) && LatestPayment(t.payments, key, false).Some? {
      var pid := LatestPayment(t.payments, key, false).value;
      var p := t.payments[pid];
      if p.status != Paid {
        if p.txId == "" {
          WithPaymentKeepsLinks(t, pid, p.(status := Failed, lastError := Some(FailureReason("Missing OnePay transaction id.", p.lastError))));
        } else {
          PollFromKeepsLinks(t, pid, key, gateway, rt, now, 0, "");
        }
      }
    }
  }

  /** `markFailedFinal({ payment, registrationMongoId: key, reason })`, performed on the database. */
  method MarkFailedFinal(db: Database, pid: nat, key: string, reason: string)
    requires pid < |db.payments|
    modifies db
    ensures db.Snapshot() == MarkedFailed(old(db.Snapshot()), pid, key, reason)
  {
    var payment := db.payments[pid];
    payment := payment.(status := Failed, lastError := Some(FailureReason(reason, payment.lastError)));
    db.SavePayment(pid, payment);
    if key in db.registrations {
      var reg := db.registrations[key];
      db.SaveRegistration(key, reg.(paymentStatus := RegFailed, paymentProvider := "ONEPAY", paymentReference := payment.txId));
    }
  }

  /** `initiateOnepayPayment(key)`, performed on the database. */
  method InitiateOnepayPayment(db: Database, key: string, reply: FetchReply, rt: Runtime) returns (r: Outcome<Initiation>)
    modifies db
    ensures Step(db.Snapshot(), r) == InitiateOutcome(old(db.Snapshot()), key, reply, rt)
  {
    if !IsObjectId(key) {
      return Err(Http(400, "Invalid registration id."));
    }
    if key !in db.registrations {
      return Err(Http(404, "Registration not found."));
    }
    var reg := db.registrations[key];
    if reg.paymentStatus == RegPaid {
      return Err(Http(409, "Registration is already paid."));
    }

    var found := LatestPayment(db.payments, key, true);
    var pid: nat;
    if found.Some? {
      pid := found.value;
    } else {
      pid := db.CreatePayment(NewPayment(key, reg, rt));
    }
    assert (db.Snapshot(), pid) == OpenOrNewPayment(old(db.Snapshot()), key, rt);
    r := Checkout(db, pid, key, reply, rt);
  }

  /** The checkout part of `initiateOnepayPayment`, performed on the database. */
  method Checkout(db: Database, pid: nat, key: string, reply: FetchReply, rt: Runtime) returns (r: Outcome<Initiation>)
    requires pid < |db.payments| && key in db.registrations
    modifies db
    ensures Step(db.Snapshot(), r) == CheckoutOutcome(old(db.Snapshot()), pid, key, reply, rt)
  {
    var reg := db.registrations[key];
    var payment := db.payments[pid];
    if payment.status == Pending && payment.redirectUrl != "" {
      return Ok(Initiation(pid, payment.redirectUrl, payment.txId, true));
    }

    var args := CheckoutArgsFor(key, reg, payment, rt.vars);
    payment := payment.(attempts := payment.attempts + 1, lastError := None);
    db.SavePayment(pid, payment);

    var link := CreateCheckoutLink(rt.vars, rt.sha256, args, reply);
    r := RecordLink(db, pid, key, payment, link);
  }

  /** The gateway's answer to the checkout request, recorded on the database. */
  method RecordLink(db: Database, pid: nat, key: string, payment: Payment, link: Outcome<CheckoutLink>) returns (r: Outcome<Initiation>)
    requires pid < |db.payments| && key in db.registrations
    requires link.Ok? ==> Truthy(link.value.transactionId) && Truthy(link.value.redirectUrl)
    modifies db
    ensures Step(db.Snapshot(), r) == LinkOutcome(old(db.Snapshot()), pid, key, payment, link)
  {
    if link.Err? {
      var e := link.error;
      db.SavePayment(pid, payment.(status := Failed, lastError := Some(if Message(e) != "" then Message(e) else "Initiation failed")));
      return Err(if e.HttpError? then e else Http(500, "Failed to initiate payment."));
    }
    var txId := CastString(link.value.transactionId);
    var url := CastString(link.value.redirectUrl);
    if txId.None? || url.None? {
      return Err(Http(500, "Failed to initiate payment."));
    }

    var reg := db.registrations[key];
    db.SavePayment(pid, payment.(txId := txId.value, redirectUrl := url.value, status := Pending));
    db.SaveRegistration(key, reg.(paymentStatus := RegPending, paymentProvider := "ONEPAY", paymentReference := txId.value));
    return Ok(Initiation(pid, url.value, txId.value, false));
  }

  /** `verifyAndSync(payment)` for payment `pid`, performed on the database. */
  method VerifyAndSync(db: Database, pid: nat, reply: FetchReply, rt: Runtime, now: int) returns (r: Outcome<Payment>)
    requires pid < |db.payments|
    modifies db
    ensures Step(db.Snapshot(), r) == VerifyOutcome(old(db.Snapshot()), pid, reply, rt, now)
  {
    var payment := db.payments[pid];
    if payment.txId == "" || payment.status == Paid {
      return Ok(payment);
    }
    if payment.registration !in db.registrations {
      return Err(Http(404, "Registration not found for payment."));
    }

    var json :- GetTransactionStatus(rt.vars, reply);
    var data := Or(Get(json, "data"), Obj(map[]));
    var msg :- StatusMessage(data);

    if IsPaid(Get(data, "status"), msg) {
      r := RecordPaid(db, pid, data, rt, now);
    } else {
      r := RecordNotPaid(db, pid);
    }
  }

  /** The paid branch of `verifyAndSync`: the amount and currency checks,
      then PAID on both records and the finalization. */
  method RecordPaid(db: Database, pid: nat, data: JsValue, rt: Runtime, now: int) returns (r: Outcome<Payment>)
    requires pid < |db.payments| && db.payments[pid].registration in db.registrations
    modifies db
    ensures Step(db.Snapshot(), r) == SyncPaid(old(db.Snapshot()), pid, data, rt, now)
  {
    var payment := db.payments[pid];
    var reg := db.registrations[payment.registration];
    var received := ToMinorUnits(Get(data, "amount"));
    var expected := ToMinorUnits(Num(payment.amount));
    var currency := Get(data, "currency");
    if received.Some? && expected.Some? && received.value != expected.value {
      return Err(Http(409, "Payment amount mismatch. Manual review required."));
    }
    if Truthy(currency) && currency != Str(payment.currency) {
      return Err(Http(409, "Payment currency mismatch. Manual review required."));
    }
    var paidAt := PaidAt(Get(data, "paid_on"), rt, now);
    if paidAt.None? {
      return Err(PaidAtRejected);
    }
    payment := payment.(status := Paid, paidAt := paidAt, lastError := None);
    db.SavePayment(pid, payment);
    db.SaveRegistration(payment.registration, reg.(paymentStatus := RegPaid, paymentProvider := "ONEPAY", paymentReference := payment.txId));
    r := FinishPaid(db, pid, payment, rt, now);
  }

  /** The finalize step of the paid branch, performed on the database. */
  method FinishPaid(db: Database, pid: nat, payment: Payment, rt: Runtime, now: int) returns (r: Outcome<Payment>)
    requires pid < |db.payments|
    modifies db
    ensures Step(db.Snapshot(), r) == FinalizePaid(old(db.Snapshot()), pid, payment, rt, now)
  {
    ghost var before := db.Snapshot();
    var finalized := FinalizeRegistrationAfterPayment(db, payment.registration, payment.txId, "ONEPAY", rt, now);
    FinalizeKeepsPayments(before, payment.registration, payment.txId, "ONEPAY", rt, now);
    var paid := payment;
    if finalized.Err? {
      var e := finalized.error;
      paid := paid.(lastError := Some("Finalize failed: " + (if Message(e) != "" then Message(e) else "unknown")));
      db.SavePayment(pid, paid);
    }
    return Ok(paid);
  }

  /** The not-paid branch of `verifyAndSync`: both records back to PENDING. */
  method RecordNotPaid(db: Database, pid: nat) returns (r: Outcome<Payment>)
    requires pid < |db.payments| && db.payments[pid].registration in db.registrations
    modifies db
    ensures Step(db.Snapshot(), r) == SyncNotPaid(old(db.Snapshot()), pid)
  {
    var payment := db.payments[pid];
    var reg := db.registrations[payment.registration];
    if payment.status != Pending {
      payment := payment.(status := Pending);
      db.SavePayment(pid, payment);
    }
    if reg.paymentStatus != RegPending {
      db.SaveRegistration(payment.registration, reg.(paymentStatus := RegPending, paymentProvider := "ONEPAY", paymentReference := payment.txId));
    }
    return Ok(payment);
  }

  /** `handleOnepayCallback(body)`, performed on the database. */
  method HandleOnepayCallback(db: Database, body: JsValue, reply: FetchReply, rt: Runtime, now: int) returns (r: Outcome<CallbackAck>)
    modifies db
    ensures Step(db.Snapshot(), r) == CallbackOutcome(old(db.Snapshot()), body, reply, rt, now)
  {
    var txValue := Get(body, "transaction_id");
    if !Truthy(txValue) {
      return Err(Http(400, "Missing transaction_id."));
    }
    var txId := CastString(txValue);
    if txId.None? {
      return Err(TransactionIdCastError);
    }
    var found := PaymentWithTransaction(db.payments, txId.value);
    if found.None? {
      return Err(Http(404, "Payment not found for transaction_id."));
    }
    var pid := found.value;
    var payment := db.payments[pid];
    if payment.status == Paid {
      return Ok(CallbackAck(true, Paid));
    }

    db.SavePayment(pid, payment.(lastCallback := Some(CallbackOf(body))));
    var synced :- VerifyAndSync(db, pid, reply, rt, now);
    return Ok(CallbackAck(false, synced.status));
  }

  /** `getPaymentStatusForRegistration(key)`, performed on the database. */
  method GetPaymentStatusForRegistration(db: Database, key: string, gateway: nat -> FetchReply, rt: Runtime, now: int)
    returns (r: Outcome<Payment>)
    modifies db
    ensures Step(db.Snapshot(), r) == PollOutcome(old(db.Snapshot()), key, gateway, rt, now)
  {
    if !IsObjectId(key) {
      return Err(Http(400, "Invalid registration id."));
    }
    var found := LatestPayment(db.payments, key, false);
    if found.None? {
      return Err(Http(404, "No payment found for this registration."));
    }
    var pid := found.value;
    var payment := db.payments[pid];
    if payment.status == Paid {
      return Ok(payment);
    }
    if payment.txId == "" {
      MarkFailedFinal(db, pid, key, "Missing OnePay transaction id.");
      return Ok(db.payments[pid]);
    }

    r := PollChecksFrom(db, pid, key, gateway, rt, now);
  }

  /** After a check that did not find the payment PAID: a failed check records
      its error on the payment and becomes the last error. */
  method RecordCheckError(db: Database, pid: nat, checked: Outcome<Payment>, lastErr: string) returns (err: string)
    requires pid < |db.payments|
    modifies db
    ensures (db.Snapshot(), err) == AfterCheck(Step(old(db.Snapshot()), checked), pid, lastErr)
  {
    err := lastErr;
    if checked.Err? {
      err := ErrorText(checked.error);
      db.SavePayment(pid, db.payments[pid].(lastError := Some(err)));
    }
  }

  /** Check `i` of the poll, performed on the database, `goal` being where the poll
      from check `i` ends: the payment when the
      check finds it PAID, otherwise the last error text for the next check. */
  method PollCheck(db: Database, pid: nat, key: string, gateway: nat -> FetchReply, rt: Runtime, now: int, i: nat, lastErr: string,
                   ghost goal: Step<Payment>)
    returns (paid: Option<Payment>, err: string)
    requires pid < |db.payments| && i < PollChecks
    requires PollFrom(db.Snapshot(), pid, key, gateway, rt, now, i, lastErr) == goal
    modifies db
    ensures pid < |db.payments|
    ensures paid.Some? ==> Step(db.Snapshot(), Ok(paid.value)) == goal
    ensures paid.None? ==> PollFrom(db.Snapshot(), pid, key, gateway, rt, now, i + 1, err) == goal
  {
    ghost var before := db.Snapshot();
    var updated := VerifyAndSync(db, pid, gateway(i), rt, CheckTime(now, i));
    ghost var v := Step(db.Snapshot(), updated);
    PollFromStep(before, pid, key, gateway, rt, now, i, lastErr, v);
    if updated.Ok? && updated.value.status == Paid {
      return Some(db.payments[pid]), lastErr;
    }
    if updated == Err(PaidAtRejected) {
      // The loop's copy of the payment says PAID but cannot be saved (`HeldPaid`).
      if i + 1 == PollChecks && key in db.registrations {
        var reg := db.registrations[key];
        db.SaveRegistration(key, reg.(paymentStatus := RegFailed, paymentProvider := "ONEPAY", paymentReference := db.payments[pid].txId));
      }
      return Some(db.payments[pid]), lastErr;
    }
    paid := None;
    err := RecordCheckError(db, pid, updated, lastErr);
  }

  /** The bounded verification loop of `getPaymentStatusForRegistration`, performed on the database. */
  method PollChecksFrom(db: Database, pid: nat, key: string, gateway: nat -> FetchReply, rt: Runtime, now: int)
    returns (r: Outcome<Payment>)
    requires pid < |db.payments|
    modifies db
    ensures Step(db.Snapshot(), r) == PollFrom(old(db.Snapshot()), pid, key, gateway, rt, now, 0, "")
  {
    ghost var goal := PollFrom(db.Snapshot(), pid, key, gateway, rt, now, 0, "");
    var paid, i, lastErr := RunChecks(db, pid, key, gateway, rt, now, goal);
    if paid.Some? {
      return Ok(paid.value);
    }
    r := FailAfterPoll(db, pid, key, gateway, rt, now, i, lastErr);
  }

  /** The checks of the poll, performed on the database until one finds the
      payment PAID or none is left; `goal` is where the whole poll ends. */
  method RunChecks(db: Database, pid: nat, key: string, gateway: nat -> FetchReply, rt: Runtime, now: int, ghost goal: Step<Payment>)
    returns (paid: Option<Payment>, i: nat, lastErr: string)
    requires pid < |db.payments|
    requires PollFrom(db.Snapshot(), pid, key, gateway, rt, now, 0, "") == goal
    modifies db
    ensures pid < |db.payments|
    ensures paid.Some? ==> Step(db.Snapshot(), Ok(paid.value)) == goal
    ensures paid.None? ==> i >= PollChecks && PollFrom(db.Snapshot(), pid, key, gateway, rt, now, i, lastErr) == goal
  {
    paid, i, lastErr := None, 0, "";
    ghost var current := db.Snapshot();
    while i < PollChecks
      invariant current == db.Snapshot() && pid < |current.payments|
      invariant PollFrom(current, pid, key, gateway, rt, now, i, lastErr) == goal
      decreases PollChecks - i
    {
      paid, lastErr := PollCheck(db, pid, key, gateway, rt, now, i, lastErr, goal);
      if paid.Some? {
        return;
      }
      i := i + 1;
      current := db.Snapshot();
    }
    paid := None;
  }

  /** The end of the poll, performed on the database: no check found the payment
      PAID, so it is marked FAILED with the last error or the timeout message. */
  method FailAfterPoll(db: Database, pid: nat, key: string, gateway: nat -> FetchReply, rt: Runtime, now: int, i: nat, lastErr: string)
    returns (r: Outcome<Payment>)
    requires pid < |db.payments| && i >= PollChecks
    modifies db
    ensures Step(db.Snapshot(), r) == PollFrom(old(db.Snapshot()), pid, key, gateway, rt, now, i, lastErr)
  {
    ghost var before := db.Snapshot();
    MarkFailedFinal(db, pid, key, if lastErr != "" then lastErr else "Payment not completed within 1 minute.");
    PollFromEnd(before, pid, key, gateway, rt, now, i, lastErr);
    return Ok(db.payments[pid]);
  }
}
