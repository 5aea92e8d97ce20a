/**
 * Issuing the QR credential of a paid registration: an ACTIVE, unexpired
 * record linked from the registration is reused (its token is rebuilt from the
 * stored jti and times); otherwise the linked record, if any, is revoked and a
 * new one is created and linked.
 */
module RegistrationQrService {
  import opened Wrappers
  import opened Strings
  import opened Js
  import opened Common
  import opened Store
  import opened QrUtils
  import opened Runtime

  const MsPerDay: int := 24 * 60 * 60 * 1000
  const DefaultExpiryDays: real := 30.0

  /** `new Date(ms)` keeps the integral part of the time value. */
  function TruncToInt(x: real): (r: int)
    ensures x >= 0.0 ==> r == x.Floor
    ensures x < 0.0 ==> r == -((-x).Floor)
  {
    if x >= 0.0 then x.Floor else -((-x).Floor)
  }

  /** `new Date(now + days * 24 * 60 * 60 * 1000)` as a time value. */
  function ExpiryAfter(now: int, days: real): int {
    TruncToInt(now as real + days * MsPerDay as real)
  }

  /** A whole number of days moves the time by exactly that many days. */
  lemma ExpiryAfterWholeDays(now: int, days: int)
    ensures ExpiryAfter(now, days as real) == now + days * MsPerDay
  {
    var ms := days * MsPerDay;
    assert days as real * MsPerDay as real == ms as real;
    assert now as real + ms as real == (now + ms) as real;
  }

  /** `getExpiryDate()`: now plus QR_TOKEN_EXPIRES_IN_DAYS days (30 when unset);
      `None` is an Invalid Date, from a setting that is not a number. */
  function GetExpiryDate(vars: Vars, now: int): (r: Option<int>)
    ensures !("QR_TOKEN_EXPIRES_IN_DAYS" in vars && vars["QR_TOKEN_EXPIRES_IN_DAYS"] != "") ==>
              r == Some(now + 30 * MsPerDay)
  {
    var days := if "QR_TOKEN_EXPIRES_IN_DAYS" in vars && vars["QR_TOKEN_EXPIRES_IN_DAYS"] != ""
                then StringToNumber(vars["QR_TOKEN_EXPIRES_IN_DAYS"]) else Some(DefaultExpiryDays);
    ExpiryAfterWholeDays(now, 30);
    match days
    case None => None
    case Some(d) => Some(ExpiryAfter(now, d))
  }

  /** A whole number of days moves the expiry by exactly that many days. */
  lemma ExpiryOfWholeDays(vars: Vars, now: int, days: nat)
    requires "QR_TOKEN_EXPIRES_IN_DAYS" in vars && vars["QR_TOKEN_EXPIRES_IN_DAYS"] == NatToString(days)
    ensures GetExpiryDate(vars, now) == Some(now + days * MsPerDay)
  {
    NumberOfDays(days);
    ExpiryAfterWholeDays(now, days);
  }

  /** A setting written as a whole number of days reads as that number. */
  lemma NumberOfDays(days: nat)
    ensures StringToNumber(NatToString(days)) == Some(days as real)
  {
    var s := NatToString(days);
    assert s[0] != '-' && s[0] != '+' && !IsSpace(s[0]) && !IsSpace(s[|s| - 1]);
    assert Trim(s) == s by {
      assert LeadingSpaces(s) == 0;
      assert s[0..] == s;
      assert TrailingSpaces(s) == 0;
    }
    PlainDecimalText(s);
    WholeDigits(s);
    NatToStringValue(days);
  }

  /** `expiresAt && expiresAt <= now`: a record without an expiry never expires. */
  predicate IsExpired(q: QrRecord, now: int) {
    q.expiresAt.Some? && q.expiresAt.value <= now
  }

  /** The linked record may be handed out again. */
  predicate Reusable(q: QrRecord, now: int) {
    !IsExpired(q, now) && q.status == Active
  }

  /** What `issueQrForRegistration` returns. */
  datatype Issued = Issued(qrId: nat, token: string, qrText: string, reused: bool)

  /** The id of the record `reg.qr` links to, when that record exists. */
  function LinkedQr(t: Tables, reg: Registration): (r: Option<nat>)
    ensures r.Some? <==> reg.qr.Some? && reg.qr.value < |t.qrs|
    ensures r.Some? ==> r.value == reg.qr.value
  {
    if reg.qr.Some? && reg.qr.value < |t.qrs| then Some(reg.qr.value) else None
  }

  /** The token of a registration for the given jti and times. */
  function TokenFor(rt: Runtime, key: string, reg: Registration, jti: string, issuedAt: int, expiresAt: Option<int>): Outcome<string> {
    CreateQrJwtToken(rt.vars, rt.sign, key, Str(reg.registrationId), Str(reg.conferenceType), jti, issuedAt, expiresAt)
  }

  /** The record `RegistrationQr.create` stores for a new credential. */
  function NewQrRecord(key: string, reg: Registration, jti: string, tokenHash: string, now: int, expiresAt: int): QrRecord {
    QrRecord(key, reg.registrationId, jti, tokenHash, Active, now, Some(expiresAt), NotCheckedIn, None, "", None)
  }

  /** The per-path errors of the validation failure for an unusable expiry date. */
  const ExpiresAtCastError: JsValue := Obj(map["expiresAt" := Str("Cast to date failed")])

  /** `issueQrForRegistration(key)` at time `now`: the tables afterwards and the result. */
  function IssueOutcome(t: Tables, key: string, rt: Runtime, now: int): Step<Issued> {
    if key !in t.registrations then Step(t, Err(Http(404, "Registration not found")))
    else
      var reg := t.registrations[key];
      if reg.paymentStatus != RegPaid then Step(t, Err(Http(409, "Cannot issue QR until payment is PAID.")))
      else
        var linked := LinkedQr(t, reg);
        if linked.Some? && Reusable(t.qrs[linked.value], now) then
          var q := t.qrs[linked.value];
          match TokenFor(rt, key, reg, q.jti, q.issuedAt, q.expiresAt)
          case Err(e) => Step(t, Err(e))
          case Ok(token) => Step(t, Ok(Issued(linked.value, token, BuildQrText(rt.vars, token), true)))
        else IssueFresh(t, key, linked, rt, now)
  }

  /** The new-credential branch of `issueQrForRegistration`: sign a token with
      a fresh jti, revoke the linked record, create the new one and link it.
      Payments and mail are untouched, no record disappears, and the only
      registration that can change is `key`, in its `qr` link only. */
  function IssueFresh(t: Tables, key: string, linked: Option<nat>, rt: Runtime, now: int): (s: Step<Issued>)
    requires key in t.registrations
    requires linked.Some? ==> linked.value < |t.qrs|
    ensures s.tables.payments == t.payments && s.tables.outbox == t.outbox
    ensures |s.tables.qrs| >= |t.qrs|
    ensures s.tables.registrations == t.registrations ||
            (s.result.Ok? && s.tables.registrations == t.registrations[key := t.registrations[key].(qr := Some(s.result.value.qrId))])
  {
    var reg := t.registrations[key];
    var expiresAt := GetExpiryDate(rt.vars, now);
    var jti := MakeJti(rt.jtiBytes);
    match TokenFor(rt, key, reg, jti, now, expiresAt)
    case Err(e) => Step(t, Err(e))
    case Ok(token) =>
      var t1 := if linked.Some? then Revoke(t, linked.value) else t;
      match expiresAt
      case None => Step(t1, Err(ValidationFailed("RegistrationQr validation failed: expiresAt: Cast to date failed", ExpiresAtCastError)))
      case Some(exp) =>
        var record := NewQrRecord(key, reg, jti, rt.sha256(token), now, exp);
        var id := |t1.qrs|;
        var t2 := t1.(qrs := t1.qrs + [record], registrations := t1.registrations[key := reg.(qr := Some(id))]);
        Step(t2, Ok(Issued(id, token, BuildQrText(rt.vars, token), false)))
  }

  /** Only a stored, PAID registration gets a credential; otherwise nothing changes. */
  lemma IssueRequiresPaid(t: Tables, key: string, rt: Runtime, now: int)
    ensures key !in t.registrations ==> IssueOutcome(t, key, rt, now) == Step(t, Err(Http(404, "Registration not found")))
    ensures key in t.registrations && t.registrations[key].paymentStatus != RegPaid ==>
              IssueOutcome(t, key, rt, now) == Step(t, Err(Http(409, "Cannot issue QR until payment is PAID.")))
    ensures IssueOutcome(t, key, rt, now).result.Ok? ==> key in t.registrations && t.registrations[key].paymentStatus == RegPaid
  {
  }

  /** Reuse happens iff the linked record exists, is ACTIVE and is not expired;
      then nothing is written and the token is rebuilt from the stored jti and times. */
  lemma IssueReuse(t: Tables, key: string, rt: Runtime, now: int)
    requires key in t.registrations && t.registrations[key].paymentStatus == RegPaid
    requires MustEnv(rt.vars, "QR_SIGNING_SECRET").Ok?
    ensures var s := IssueOutcome(t, key, rt, now);
            var reg := t.registrations[key];
            && (s.result.Ok? && s.result.value.reused <==>
                  reg.qr.Some? && reg.qr.value < |t.qrs| && Reusable(t.qrs[reg.qr.value], now))
            && (s.result.Ok? && s.result.value.reused ==>
                  var q := t.qrs[reg.qr.value];
                  && s.tables == t
                  && s.result.value.qrId == reg.qr.value
                  && s.result.value.token == rt.sign(QrPayload(key, Str(reg.registrationId), Str(reg.conferenceType),
                                                               q.jti, q.issuedAt, q.expiresAt),
                                                     rt.vars["QR_SIGNING_SECRET"]))
  {
  }

  /** A new credential: the previously linked record is revoked, a fresh ACTIVE,
      NOT_CHECKED_IN record without emailSentAt is appended with the token's
      hash and the configured expiry, and the registration links to it. */
  lemma IssueNew(t: Tables, key: string, rt: Runtime, now: int)
    requires key in t.registrations
    requires IssueOutcome(t, key, rt, now).result.Ok? && !IssueOutcome(t, key, rt, now).result.value.reused
    ensures var s := IssueOutcome(t, key, rt, now);
            var reg := t.registrations[key];
            var id := s.result.value.qrId;
            && id == |t.qrs|
            && |s.tables.qrs| == |t.qrs| + 1
            && GetExpiryDate(rt.vars, now).Some?
            && s.tables.qrs[id] == QrRecord(key, reg.registrationId, MakeJti(rt.jtiBytes), rt.sha256(s.result.value.token),
                                            Active, now, GetExpiryDate(rt.vars, now), NotCheckedIn, None, "", None)
            && s.tables.registrations == t.registrations[key := reg.(qr := Some(id))]
            && (forall i :: 0 <= i < |t.qrs| && Some(i) != reg.qr ==> s.tables.qrs[i] == t.qrs[i])
            && (reg.qr.Some? && reg.qr.value < |t.qrs| ==>
                  s.tables.qrs[reg.qr.value] == t.qrs[reg.qr.value].(status := Revoked))
            && s.tables.payments == t.payments && s.tables.outbox == t.outbox
  {
  }

  /** Issuing twice at the same time returns the same record the second time,
      with reused=true and nothing written, provided the configured lifetime is
      positive (a record that expires at `now` is not reusable at `now`). */
  lemma IssueIdempotent(t: Tables, key: string, rt: Runtime, rt2: Runtime, now: int)
    requires rt2.vars == rt.vars && rt2.sign == rt.sign
    requires IssueOutcome(t, key, rt, now).result.Ok?
    requires GetExpiryDate(rt.vars, now).Some? && GetExpiryDate(rt.vars, now).value > now
    ensures var first := IssueOutcome(t, key, rt, now);
            var second := IssueOutcome(first.tables, key, rt2, now);
            && second.tables == first.tables
            && second.result.Ok?
            && second.result.value.reused
            && second.result.value.qrId == first.result.value.qrId
            && second.result.value.token == first.result.value.token
  {
    var first := IssueOutcome(t, key, rt, now);
    var reg := t.registrations[key];
    var linked := LinkedQr(t, reg);
    if linked.Some? && Reusable(t.qrs[linked.value], now) {
      assert first.tables == t;
    } else {
      assert first == IssueFresh(t, key, linked, rt, now);
      var expiresAt := GetExpiryDate(rt.vars, now);
      var jti := MakeJti(rt.jtiBytes);
      var token := TokenFor(rt, key, reg, jti, now, expiresAt).value;
      var t1 := if linked.Some? then Revoke(t, linked.value) else t;
      var record := NewQrRecord(key, reg, jti, rt.sha256(token), now, expiresAt.value);
      var id := |t1.qrs|;
      assert first.tables == t1.(qrs := t1.qrs + [record], registrations := t1.registrations[key := reg.(qr := Some(id))]);
      var reg2 := first.tables.registrations[key];
      assert LinkedQr(first.tables, reg2) == Some(id);
      assert first.tables.qrs[id] == record;
      assert Reusable(record, now);
      assert TokenFor(rt2, key, reg2, record.jti, record.issuedAt, record.expiresAt) == TokenFor(rt, key, reg, jti, now, expiresAt);
    }
  }

  /** Issuing keeps every link between records resolvable. */
  lemma IssueKeepsLinks(t: Tables, key: string, rt: Runtime, now: int)
    requires Linked(t)
    ensures Linked(IssueOutcome(t, key, rt, now).tables)
  {
    var s := IssueOutcome(t, key, rt, now);
    if key in t.registrations && t.registrations[key].paymentStatus == RegPaid {
      var reg := t.registrations[key];
      var linked := LinkedQr(t, reg);
      if !(linked.Some? && Reusable(t.qrs[linked.value], now)) {
        var expiresAt := GetExpiryDate(rt.vars, now);
        var jti := MakeJti(rt.jtiBytes);
        var tok := TokenFor(rt, key, reg, jti, now, expiresAt);
        if tok.Ok? {
          var t1 := if linked.Some? then Revoke(t, linked.value) else t;
          if linked.Some? {
            RevokeKeepsLinks(t, linked.value);
          }
          if expiresAt.Some? {
            var record := NewQrRecord(key, reg, jti, rt.sha256(tok.value), now, expiresAt.value);
            assert s.tables == t1.(qrs := t1.qrs + [record], registrations := t1.registrations[key := reg.(qr := Some(|t1.qrs|))]);
            LinkNewRecord(t1, key, record);
          } else {
            assert s.tables == t1;
          }
        } else {
          assert s.tables == t;
        }
      } else {
        assert s.tables == t;
      }
    } else {
      assert s.tables == t;
    }
  }

  /** The tables with QR record `id` set to REVOKED. */
  function Revoke(t: Tables, id: nat): Tables
    requires id < |t.qrs|
  {
    t.(qrs := t.qrs[id := t.qrs[id].(status := Revoked)])
  }

  lemma RevokeKeepsLinks(t: Tables, id: nat)
    requires id < |t.qrs| && Linked(t)
    ensures Linked(Revoke(t, id))
  {
    var t1 := Revoke(t, id);
    assert forall i :: 0 <= i < |t1.qrs| ==> t1.qrs[i].registration == t.qrs[i].registration;
  }

  /** Appending a record of a stored registration and linking it keeps every link resolvable. */
  lemma LinkNewRecord(t: Tables, key: string, record: QrRecord)
    requires Linked(t) && key in t.registrations && record.registration == key
    ensures var id := |t.qrs|;
            Linked(t.(qrs := t.qrs + [record], registrations := t.registrations[key := t.registrations[key].(qr := Some(id))]))
  {
    var id := |t.qrs|;
    var t2 := t.(qrs := t.qrs + [record], registrations := t.registrations[key := t.registrations[key].(qr := Some(id))]);
    assert forall i :: 0 <= i < |t.qrs| ==> t2.qrs[i] == t.qrs[i];
    forall k | k in t2.registrations && t2.registrations[k].qr.Some?
      ensures t2.registrations[k].qr.value < |t2.qrs| && t2.qrs[t2.registrations[k].qr.value].registration == k
    {
      if k != key {
        assert t2.registrations[k] == t.registrations[k];
      }
    }
  }

  /** `issueQrForRegistration(key)`, performed on the database. */
  method IssueQrForRegistration(db: Database, key: string, rt: Runtime, now: int) returns (r: Outcome<Issued>)
    modifies db
    ensures Step(db.Snapshot(), r) == IssueOutcome(old(db.Snapshot()), key, rt, now)
  {
    if key !in db.registrations {
      return Err(Http(404, "Registration not found"));
    }
    var reg := db.registrations[key];
    if reg.paymentStatus != RegPaid {
      return Err(Http(409, "Cannot issue QR until payment is PAID."));
    }

    var linked := LinkedQr(db.Snapshot(), reg);
    if linked.Some? {
      var existing := db.qrs[linked.value];
      if Reusable(existing, now) {
        var token :- TokenFor(rt, key, reg, existing.jti, existing.issuedAt, existing.expiresAt);
        return Ok(Issued(linked.value, token, BuildQrText(rt.vars, token), true));
      }
    }

    var expiresAt := GetExpiryDate(rt.vars, now);
    var jti := MakeJti(rt.jtiBytes);
    var token :- TokenFor(rt, key, reg, jti, now, expiresAt);
    var tokenHash := rt.sha256(token);

    if linked.Some? {
      db.SaveQr(linked.value, db.qrs[linked.value].(status := Revoked));
    }
    if expiresAt.None? {
      return Err(ValidationFailed("RegistrationQr validation failed: expiresAt: Cast to date failed", ExpiresAtCastError));
    }
    var id := db.CreateQr(NewQrRecord(key, reg, jti, tokenHash, now, expiresAt.value));
    db.SaveRegistration(key, reg.(qr := Some(id)));
    return Ok(Issued(id, token, BuildQrText(rt.vars, token), false));
  }
}
