/**
 * The persisted records the payment, credential and check-in services work
 * on (the Registration, Payment and RegistrationQr schemas), and the database
 * object those services update in place.
 */
module Store {
  import opened Wrappers
  import opened Js
  import opened Common

  /** Registration.paymentStatus */
  datatype RegPaymentStatus = Unpaid | RegPending | RegPaid | RegFailed

  /** Payment.status */
  datatype PaymentStatus = Initiated | Pending | Paid | Failed | Canceled

  /** RegistrationQr.status */
  datatype QrStatus = Active | Revoked | Expired

  /** RegistrationQr.checkInStatus */
  datatype CheckInStatus = NotCheckedIn | CheckedIn

  /** The fields of a Registration document the payment and credential flows read
      or write. An absent string field is "" (both are falsy where the code tests them). */
  datatype Registration = Registration(
    registrationId: string,
    firstName: string,
    lastName: string,
    email: string,
    mobile: string,
    conferenceType: string,
    feeAmount: real,
    paymentStatus: RegPaymentStatus,
    paymentProvider: string,    // "" is null
    paymentReference: string,   // "" is null
    qr: Option<nat>)            // id of the linked RegistrationQr record

  /** The four callback fields kept for audit. */
  datatype CallbackRecord = CallbackRecord(
    transactionId: JsValue, status: JsValue, statusMessage: JsValue, additionalData: JsValue)

  /** A Payment document; `registration` is the key of its Registration. */
  datatype Payment = Payment(
    registration: string,
    reference: string,
    txId: string,               // onepayTransactionId, "" is null
    currency: string,
    amount: real,
    redirectUrl: string,        // "" is null
    status: PaymentStatus,
    attempts: nat,
    lastError: Option<string>,
    lastCallback: Option<CallbackRecord>,
    paidAt: Option<int>)

  /** A RegistrationQr document. Times are milliseconds since the epoch. */
  datatype QrRecord = QrRecord(
    registration: string,
    registrationId: string,
    jti: string,
    tokenHash: string,
    status: QrStatus,
    issuedAt: int,
    expiresAt: Option<int>,
    checkInStatus: CheckInStatus,
    checkedInAt: Option<int>,
    checkedInBy: string,        // "" is null
    emailSentAt: Option<int>)

  /** A registration confirmation handed to the mail transport; the attached
      PNG encodes `qrText`. */
  datatype Mail = QrMail(to: string, firstName: string, registrationId: string, conferenceType: string, qrText: string)

  /** A snapshot of everything the services persist. Payments and QR records
      are kept in creation order; a record's id is its position. */
  datatype Tables = Tables(
    registrations: map<string, Registration>,
    payments: seq<Payment>,
    qrs: seq<QrRecord>,
    outbox: seq<Mail>)

  /** The tables after an operation, and what the operation returned or threw. */
  datatype Step<T> = Step(tables: Tables, result: Outcome<T>)

  /** Every link between records resolves: each payment and QR record belongs
      to a stored registration, and a registration's `qr` names a record that
      belongs to it. */
  ghost predicate Linked(t: Tables) {
    && (forall i :: 0 <= i < |t.payments| ==> t.payments[i].registration in t.registrations)
    && (forall i :: 0 <= i < |t.qrs| ==> t.qrs[i].registration in t.registrations)
    && (forall k :: k in t.registrations && t.registrations[k].qr.Some? ==>
          t.registrations[k].qr.value < |t.qrs| && t.qrs[t.registrations[k].qr.value].registration == k)
  }

  /** The database and the mail transport, updated in place by the services. */
  class Database {
    var registrations: map<string, Registration>
    var payments: seq<Payment>
    var qrs: seq<QrRecord>
    var outbox: seq<Mail>

    function Snapshot(): Tables
      reads this
    {
      Tables(registrations, payments, qrs, outbox)
    }

    constructor(t: Tables)
      ensures Snapshot() == t
    {
      registrations := t.registrations;
      payments := t.payments;
      qrs := t.qrs;
      outbox := t.outbox;
    }

    /** `reg.save()` */
    method SaveRegistration(key: string, r: Registration)
      modifies this
      ensures Snapshot() == old(Snapshot()).(registrations := old(registrations)[key := r])
    {
      registrations := registrations[key := r];
    }

    /** `payment.save()` */
    method SavePayment(id: nat, p: Payment)
      requires id < |payments|
      modifies this
      ensures Snapshot() == old(Snapshot()).(payments := old(payments)[id := p])
    {
      payments := payments[id := p];
    }

    /** `Payment.create(...)` */
    method CreatePayment(p: Payment) returns (id: nat)
      modifies this
      ensures id == old(|payments|)
      ensures Snapshot() == old(Snapshot()).(payments := old(payments) + [p])
    {
      id := |payments|;
      payments := payments + [p];
    }

    /** `qrDoc.save()` or an update of one RegistrationQr by id */
    method SaveQr(id: nat, q: QrRecord)
      requires id < |qrs|
      modifies this
      ensures Snapshot() == old(Snapshot()).(qrs := old(qrs)[id := q])
    {
      qrs := qrs[id := q];
    }

    /** `RegistrationQr.create(...)` */
    method CreateQr(q: QrRecord) returns (id: nat)
      modifies this
      ensures id == old(|qrs|)
      ensures Snapshot() == old(Snapshot()).(qrs := old(qrs) + [q])
    {
      id := |qrs|;
      qrs := qrs + [q];
    }

    /** Hand a mail to the transport. */
    method Send(m: Mail)
      modifies this
      ensures Snapshot() == old(Snapshot()).(outbox := old(outbox) + [m])
    {
      outbox := outbox + [m];
    }
  }
}
