/**
 * Finalizing a paid registration: fill in the payment provider and reference
 * when they are empty, issue or reuse the QR credential, and mail it once
 * (the QR record's `emailSentAt` guards the send).
 */
module RegistrationConfirmationService {
  import opened Wrappers
  import opened Js
  import opened Common
  import opened Store
  import opened QrUtils
  import opened Runtime
  import opened RegistrationQrService

  /** What `finalizeRegistrationAfterPayment` returns. */
  datatype Finalized = Finalized(registrationKey: string, qrId: nat, reused: bool, emailSent: bool)

  /** `if (value && !current) current = value` */
  function FillIfEmpty(current: string, value: string): (r: string)
    ensures current != "" ==> r == current
    ensures current == "" ==> r == value
  {
    if value != "" && current == "" then value else current
  }

  /** The registration after the provider and reference fill-in. */
  function WithPaymentFilled(reg: Registration, provider: string, reference: string): Registration {
    reg.(paymentProvider := FillIfEmpty(reg.paymentProvider, provider),
         paymentReference := FillIfEmpty(reg.paymentReference, reference))
  }

  /** The confirmation mail of a registration carrying `qrText`. */
  function ConfirmationMail(reg: Registration, qrText: string): Mail {
    QrMail(reg.email, reg.firstName, reg.registrationId, reg.conferenceType, qrText)
  }

  /** `finalizeRegistrationAfterPayment({ registrationMongoId: key, paymentReference, paymentProvider })` at `now`. */
  function FinalizeOutcome(t: Tables, key: string, reference: string, provider: string, rt: Runtime, now: int): Step<Finalized> {
    if !IsObjectId(key) then Step(t, Err(Http(400, "Invalid registration id.")))
    else if key !in t.registrations then Step(t, Err(Http(404, "Registration not found.")))
    else
      var reg := t.registrations[key];
      if reg.paymentStatus != RegPaid then Step(t, Err(Http(409, "Registration is not PAID. Cannot issue QR.")))
      else
        var reg1 := WithPaymentFilled(reg, provider, reference);
        var t1 := t.(registrations := t.registrations[key := reg1]);
        AfterIssue(key, reg1, IssueOutcome(t1, key, rt, now), rt, now)
  }

  /** The part of finalizing after the credential is issued: the record is
      looked up again and, unless it already carries emailSentAt, the mail
      goes out and the record is stamped. Only that record and the outbox
      can change. */
  function AfterIssue(key: string, reg1: Registration, issued: Step<Issued>, rt: Runtime, now: int): (s: Step<Finalized>)
    ensures s.tables.registrations == issued.tables.registrations && s.tables.payments == issued.tables.payments
    ensures |s.tables.qrs| == |issued.tables.qrs|
    ensures s.result.Ok? ==> issued.result.Ok? && s.result.value.qrId == issued.result.value.qrId < |issued.tables.qrs|
  {
    match issued.result
    case Err(e) => Step(issued.tables, Err(e))
    case Ok(iss) =>
      var t2 := issued.tables;
      if iss.qrId >= |t2.qrs| then Step(t2, Err(Http(500, "QR record missing after issuing.")))
      else
        var record := t2.qrs[iss.qrId];
        if record.emailSentAt.Some? then Step(t2, Ok(Finalized(key, iss.qrId, iss.reused, false)))
        else
          var mail := ConfirmationMail(reg1, iss.qrText);
          match rt.mailError(mail)
          case Some(msg) => Step(t2, Err(ScriptError("Error", msg)))
          case None =>
            var t3 := t2.(outbox := t2.outbox + [mail], qrs := t2.qrs[iss.qrId := record.(emailSentAt := Some(now))]);
            Step(t3, Ok(Finalized(key, iss.qrId, iss.reused, true)))
  }

  /** An invalid id, a missing registration and an unpaid one are refused
      before anything is written. */
  lemma FinalizeGuards(t: Tables, key: string, reference: string, provider: string, rt: Runtime, now: int)
    ensures var s := FinalizeOutcome(t, key, reference, provider, rt, now);
            && (!IsObjectId(key) ==> s == Step(t, Err(Http(400, "Invalid registration id."))))
            && (IsObjectId(key) && key !in t.registrations ==> s == Step(t, Err(Http(404, "Registration not found."))))
            && (IsObjectId(key) && key in t.registrations && t.registrations[key].paymentStatus != RegPaid ==>
                  s == Step(t, Err(Http(409, "Registration is not PAID. Cannot issue QR."))))
  {
  }

  /** `after` differs from `before` at most in the registrations' `qr` links
      and in QR records appended or changed; payments and mail are untouched. */
  predicate OnlyQrSide(before: Tables, after: Tables) {
    && after.registrations.Keys == before.registrations.Keys
    && (forall k :: k in before.registrations ==>
          after.registrations[k] == before.registrations[k].(qr := after.registrations[k].qr))
    && after.payments == before.payments && after.outbox == before.outbox
    && |after.qrs| >= |before.qrs|
  }

  /** Issuing touches a registration only through its `qr` link. */
  lemma IssueKeepsRegistrationFields(t: Tables, key: string, rt: Runtime, now: int)
    ensures OnlyQrSide(t, IssueOutcome(t, key, rt, now).tables)
  {
    var s := IssueOutcome(t, key, rt, now);
    if key in t.registrations && t.registrations[key].paymentStatus == RegPaid {
      var linked := LinkedQr(t, t.registrations[key]);
      if !(linked.Some? && Reusable(t.qrs[linked.value], now)) {
        assert s == IssueFresh(t, key, linked, rt, now);
        if s.tables.registrations != t.registrations {
          RelinkOnlyQrSide(t, s.tables, key, s.result.value.qrId);
        }
      } else {
        assert s.tables == t;
      }
    } else {
      assert s.tables == t;
    }
  }

  /** Pointing one registration's `qr` at another record is a `qr`-side change. */
  lemma RelinkOnlyQrSide(before: Tables, after: Tables, key: string, qid: nat)
    requires key in before.registrations
    requires after.registrations == before.registrations[key := before.registrations[key].(qr := Some(qid))]
    requires after.payments == before.payments && after.outbox == before.outbox && |after.qrs| >= |before.qrs|
    ensures OnlyQrSide(before, after)
  {
  }

  /** Provider and reference are filled in only where they were empty; values
      already present are never overwritten. */
  lemma FinalizeFillsOnlyEmpty(t: Tables, key: string, reference: string, provider: string, rt: Runtime, now: int)
    requires IsObjectId(key) && key in t.registrations && t.registrations[key].paymentStatus == RegPaid
    ensures var t2 := FinalizeOutcome(t, key, reference, provider, rt, now).tables;
            var reg := t.registrations[key];
            && key in t2.registrations
            && t2.registrations[key].paymentProvider == (if reg.paymentProvider != "" then reg.paymentProvider else provider)
            && t2.registrations[key].paymentReference == (if reg.paymentReference != "" then reg.paymentReference else reference)
  {
    var reg1 := WithPaymentFilled(t.registrations[key], provider, reference);
    var t1 := t.(registrations := t.registrations[key := reg1]);
    var issued := IssueOutcome(t1, key, rt, now);
    IssueKeepsRegistrationFields(t1, key, rt, now);
    assert key in t1.registrations;
    var t2 := FinalizeOutcome(t, key, reference, provider, rt, now).tables;
    assert t2.registrations == issued.tables.registrations;
    assert t2.registrations[key] == reg1.(qr := t2.registrations[key].qr);
  }

  /** The mail goes out iff the issued record has no emailSentAt; sending
      appends exactly that mail and stamps the record. */
  lemma FinalizeSendsIffNotYetSent(t: Tables, key: string, reference: string, provider: string, rt: Runtime, now: int)
    requires IsObjectId(key) && key in t.registrations && t.registrations[key].paymentStatus == RegPaid
    ensures var reg1 := WithPaymentFilled(t.registrations[key], provider, reference);
            var t1 := t.(registrations := t.registrations[key := reg1]);
            var issued := IssueOutcome(t1, key, rt, now);
            var s := FinalizeOutcome(t, key, reference, provider, rt, now);
            issued.result.Ok? && issued.result.value.qrId < |issued.tables.qrs| ==>
              var id := issued.result.value.qrId;
              var record := issued.tables.qrs[id];
              var mail := ConfirmationMail(reg1, issued.result.value.qrText);
              && (record.emailSentAt.Some? ==> s == Step(issued.tables, Ok(Finalized(key, id, issued.result.value.reused, false))))
              && (record.emailSentAt.None? && rt.mailError(mail).None? ==>
                    && s.result == Ok(Finalized(key, id, issued.result.value.reused, true))
                    && s.tables.outbox == issued.tables.outbox + [mail]
                    && s.tables.qrs == issued.tables.qrs[id := record.(emailSentAt := Some(now))])
  {
  }

  /** A reused credential stays reusable when only its `emailSentAt` changes. */
  lemma ReuseSurvivesStamp(t: Tables, t': Tables, key: string, rt: Runtime, rt2: Runtime, now: int)
    requires rt2.vars == rt.vars && rt2.sign == rt.sign
    requires IssueOutcome(t, key, rt, now).result.Ok? && IssueOutcome(t, key, rt, now).result.value.reused
    requires t'.registrations == t.registrations && |t'.qrs| == |t.qrs|
    requires var id := IssueOutcome(t, key, rt, now).result.value.qrId;
             id < |t.qrs| && t'.qrs[id] == t.qrs[id].(emailSentAt := t'.qrs[id].emailSentAt)
    ensures IssueOutcome(t', key, rt2, now) == Step(t', IssueOutcome(t, key, rt, now).result)
  {
    IssueRequiresPaid(t, key, rt, now);
  }

  /** Filling in twice with the same values changes nothing the second time. */
  lemma FillIdempotent(reg: Registration, provider: string, reference: string)
    ensures var reg1 := WithPaymentFilled(reg, provider, reference);
            WithPaymentFilled(reg1, provider, reference) == reg1
  {
  }

  /** What a successful finalize leaves behind: the issued record, stamped
      with emailSentAt, and the registration as issuing left it. */
  lemma FinalizeOkTables(t: Tables, key: string, reference: string, provider: string, rt: Runtime, now: int)
    requires FinalizeOutcome(t, key, reference, provider, rt, now).result.Ok?
    ensures IsObjectId(key) && key in t.registrations && t.registrations[key].paymentStatus == RegPaid
    ensures var reg1 := WithPaymentFilled(t.registrations[key], provider, reference);
            var issued := IssueOutcome(t.(registrations := t.registrations[key := reg1]), key, rt, now);
            var ft := FinalizeOutcome(t, key, reference, provider, rt, now).tables;
            && issued.result.Ok?
            && issued.result.value.qrId < |issued.tables.qrs|
            && ft.registrations == issued.tables.registrations
            && |ft.qrs| == |issued.tables.qrs|
            && ft.qrs[issued.result.value.qrId].emailSentAt.Some?
            && ft.qrs[issued.result.value.qrId] ==
                 issued.tables.qrs[issued.result.value.qrId].(emailSentAt := ft.qrs[issued.result.value.qrId].emailSentAt)
  {
  }

  /** Finalize over a credential that is reused and already mailed writes nothing. */
  lemma FinalizeAlreadyMailed(t: Tables, key: string, reference: string, provider: string, rt: Runtime, now: int, iss: Issued)
    requires IsObjectId(key) && key in t.registrations && t.registrations[key].paymentStatus == RegPaid
    requires WithPaymentFilled(t.registrations[key], provider, reference) == t.registrations[key]
    requires IssueOutcome(t, key, rt, now) == Step(t, Ok(iss))
    requires iss.qrId < |t.qrs| && t.qrs[iss.qrId].emailSentAt.Some?
    ensures FinalizeOutcome(t, key, reference, provider, rt, now) == Step(t, Ok(Finalized(key, iss.qrId, iss.reused, false)))
  {
    assert t.(registrations := t.registrations[key := t.registrations[key]]) == t;
  }

  /** Calling finalize again at the same time after a successful call sends
      nothing and reports emailSent=false (the credential is reused, so its
      emailSentAt is already set), provided the credential lifetime is positive. */
  lemma FinalizeSendsOnce(t: Tables, key: string, reference: string, provider: string, rt: Runtime, rt2: Runtime, now: int)
    requires rt2.vars == rt.vars && rt2.sign == rt.sign
    requires GetExpiryDate(rt.vars, now).Some? && GetExpiryDate(rt.vars, now).value > now
    requires FinalizeOutcome(t, key, reference, provider, rt, now).result.Ok?
    ensures var first := FinalizeOutcome(t, key, reference, provider, rt, now);
            var second := FinalizeOutcome(first.tables, key, reference, provider, rt2, now);
            && second.result.Ok?
            && !second.result.value.emailSent
            && second.result.value.reused
            && second.tables == first.tables
  {
    FinalizeOkTables(t, key, reference, provider, rt, now);
    var reg := t.registrations[key];
    var reg1 := WithPaymentFilled(reg, provider, reference);
    var t1 := t.(registrations := t.registrations[key := reg1]);
    var issued := IssueOutcome(t1, key, rt, now);
    var id := issued.result.value.qrId;
    var ft := FinalizeOutcome(t, key, reference, provider, rt, now).tables;

    IssueIdempotent(t1, key, rt, rt2, now);
    var again := IssueOutcome(issued.tables, key, rt2, now);
    ReuseSurvivesStamp(issued.tables, ft, key, rt2, rt2, now);

    IssueKeepsRegistrationFields(t1, key, rt, now);
    var freg := ft.registrations[key];
    assert freg == reg1.(qr := freg.qr);
    FillIdempotent(reg, provider, reference);
    FinalizeAlreadyMailed(ft, key, reference, provider, rt2, now, again.result.value);
  }

  /** Changing fields other than `qr` of a stored registration keeps links. */
  lemma FillKeepsLinks(t: Tables, key: string, reg: Registration)
    requires Linked(t) && key in t.registrations && reg.qr == t.registrations[key].qr
    ensures Linked(t.(registrations := t.registrations[key := reg]))
  {
  }

  /** Stamping a record's emailSentAt and sending mail keeps links. */
  lemma StampKeepsLinks(t: Tables, id: nat, now: int, mail: Mail)
    requires Linked(t) && id < |t.qrs|
    ensures Linked(t.(outbox := t.outbox + [mail], qrs := t.qrs[id := t.qrs[id].(emailSentAt := Some(now))]))
  {
    var t3 := t.(outbox := t.outbox + [mail], qrs := t.qrs[id := t.qrs[id].(emailSentAt := Some(now))]);
    assert forall i :: 0 <= i < |t.qrs| ==> t3.qrs[i].registration == t.qrs[i].registration;
  }

  /** Finalizing keeps every link between records resolvable. */
  lemma FinalizeKeepsLinks(t: Tables, key: string, reference: string, provider: string, rt: Runtime, now: int)
    requires Linked(t)
    ensures Linked(FinalizeOutcome(t, key, reference, provider, rt, now).tables)
  {
    var s := FinalizeOutcome(t, key, reference, provider, rt, now);
    if IsObjectId(key) && key in t.registrations && t.registrations[key].paymentStatus == RegPaid {
      var reg1 := WithPaymentFilled(t.registrations[key], provider, reference);
      var t1 := t.(registrations := t.registrations[key := reg1]);
      FillKeepsLinks(t, key, reg1);
      IssueKeepsLinks(t1, key, rt, now);
      var issued := IssueOutcome(t1, key, rt, now);
      var t2 := issued.tables;
      if issued.result.Ok? && issued.result.value.qrId < |t2.qrs| {
        var id := issued.result.value.qrId;
        var mail := ConfirmationMail(reg1, issued.result.value.qrText);
        if t2.qrs[id].emailSentAt.None? && rt.mailError(mail).None? {
          assert s.tables == t2.(outbox := t2.outbox + [mail], qrs := t2.qrs[id := t2.qrs[id].(emailSentAt := Some(now))]);
          StampKeepsLinks(t2, id, now, mail);
        } else {
          assert s.tables == t2;
        }
      } else {
        assert s.tables == t2;
      }
    } else {
      assert s.tables == t;
    }
  }

  /** Finalizing never writes a payment. */
  lemma FinalizeKeepsPayments(t: Tables, key: string, reference: string, provider: string, rt: Runtime, now: int)
    ensures FinalizeOutcome(t, key, reference, provider, rt, now).tables.payments == t.payments
  {
    if IsObjectId(key) && key in t.registrations && t.registrations[key].paymentStatus == RegPaid {
      var reg1 := WithPaymentFilled(t.registrations[key], provider, reference);
      IssueKeepsRegistrationFields(t.(registrations := t.registrations[key := reg1]), key, rt, now);
    }
  }

  /** When provider and reference are already set, finalizing changes no
      registration except through its `qr` link. */
  lemma FinalizeOfFilledRegistration(t: Tables, key: string, reference: string, provider: string, rt: Runtime, now: int)
    requires key in t.registrations ==> t.registrations[key].paymentProvider != "" && t.registrations[key].paymentReference != ""
    ensures var t2 := FinalizeOutcome(t, key, reference, provider, rt, now).tables;
            && t2.registrations.Keys == t.registrations.Keys
            && (forall k :: k in t.registrations ==> t2.registrations[k] == t.registrations[k].(qr := t2.registrations[k].qr))
  {
    if IsObjectId(key) && key in t.registrations && t.registrations[key].paymentStatus == RegPaid {
      var reg1 := WithPaymentFilled(t.registrations[key], provider, reference);
      assert reg1 == t.registrations[key];
      assert t.(registrations := t.registrations[key := reg1]) == t;
      IssueKeepsRegistrationFields(t, key, rt, now);
      assert FinalizeOutcome(t, key, reference, provider, rt, now).tables.registrations
          == IssueOutcome(t, key, rt, now).tables.registrations;
    } else {
      FinalizeGuards(t, key, reference, provider, rt, now);
    }
  }

  /** `finalizeRegistrationAfterPayment(...)`, performed on the database. */
  method FinalizeRegistrationAfterPayment(db: Database, key: string, reference: string, provider: string, rt: Runtime, now: int)
    returns (r: Outcome<Finalized>)
    modifies db
    ensures Step(db.Snapshot(), r) == FinalizeOutcome(old(db.Snapshot()), key, reference, provider, rt, now)
  {
    if !IsObjectId(key) {
      return Err(Http(400, "Invalid registration id."));
    }
    if key !in db.registrations {
      return Err(Http(404, "Registration not found."));
    }
    var reg := db.registrations[key];
    if reg.paymentStatus != RegPaid {
      return Err(Http(409, "Registration is not PAID. Cannot issue QR."));
    }

    reg := WithPaymentFilled(reg, provider, reference);
    db.SaveRegistration(key, reg);

    var iss :- IssueQrForRegistration(db, key, rt, now);

    if iss.qrId >= |db.qrs| {
      return Err(Http(500, "QR record missing after issuing."));
    }
    var record := db.qrs[iss.qrId];
    var emailSent := false;
    if record.emailSentAt.None? {
      var mail := ConfirmationMail(reg, iss.qrText);
      var failure := rt.mailError(mail);
      if failure.Some? {
        return Err(ScriptError("Error", failure.value));
      }
      db.Send(mail);
      db.SaveQr(iss.qrId, record.(emailSentAt := Some(now)));
      emailSent := true;
    }
    return Ok(Finalized(key, iss.qrId, iss.reused, emailSent));
  }
}
