/**
 * Checking attendees in at the venue. A scanned QR text (or a registration id
 * typed by staff) is resolved to its credential record and registration through
 * an ordered chain of lifecycle checks; confirming then moves the record from
 * NOT_CHECKED_IN to CHECKED_IN, once, and never back.
 */
module CheckinService {
  import opened Wrappers
  import opened Js
  import opened Common
  import opened Store
  import opened QrUtils
  import opened Runtime
  import opened RegistrationQrService

  /** `ensureAdmin(adminUser)`: the signed-in user's `_id`, else its `id`; 401 without either. */
  function EnsureAdmin(admin: JsValue): (r: Outcome<JsValue>)
    ensures r.Ok? <==> Truthy(Get(admin, "_id")) || Truthy(Get(admin, "id"))
    ensures r.Ok? ==> Truthy(r.value) && r.value in {Get(admin, "_id"), Get(admin, "id")}
    ensures r.Ok? && Truthy(Get(admin, "_id")) ==> r.value == Get(admin, "_id")
    ensures r.Err? ==> r.error == Http(401, "Unauthorized")
  {
    var id := Or(Get(admin, "_id"), Get(admin, "id"));
    if !Truthy(id) then Err(Http(401, "Unauthorized")) else Ok(id)
  }

  /** The stored spelling of a credential status. */
  function StatusName(s: QrStatus): string {
    match s
    case Active => "ACTIVE"
    case Revoked => "REVOKED"
    case Expired => "EXPIRED"
  }

  /** What `mapAttendee(reg)` shows of a registration. */
  datatype Attendee = Attendee(registrationId: string, firstName: string, lastName: string,
                               conferenceType: string, email: string)

  function MapAttendee(reg: Registration): Attendee {
    Attendee(reg.registrationId, reg.firstName, reg.lastName, reg.conferenceType, reg.email)
  }

  /** The two filters the service looks credential records up by. */
  datatype QrFilter = ByTokenHash(tokenHash: string) | ByRegistrationId(registrationId: string)

  predicate QrMatches(q: QrRecord, filter: QrFilter) {
    match filter
    case ByTokenHash(h) => q.tokenHash == h
    case ByRegistrationId(id) => q.registrationId == id
  }

  /** `RegistrationQr.findOne(filter)`: the first record the filter matches. */
  function FindQr(qrs: seq<QrRecord>, filter: QrFilter): (r: Option<nat>)
    ensures r.Some? ==> r.value < |qrs| && QrMatches(qrs[r.value], filter)
    ensures r.Some? ==> forall j :: 0 <= j < r.value ==> !QrMatches(qrs[j], filter)
    ensures r.None? ==> forall j :: 0 <= j < |qrs| ==> !QrMatches(qrs[j], filter)
  {
    if |qrs| == 0 then None
    else if QrMatches(qrs[0], filter) then Some(0)
    else match FindQr(qrs[1..], filter)
      case None => None
      case Some(i) => Some(i + 1)
  }

  /** The tables with credential record `id` replaced. */
  function WithQr(t: Tables, id: nat, q: QrRecord): Tables
    requires id < |t.qrs|
  {
    t.(qrs := t.qrs[id := q])
  }

  /** The record marked EXPIRED, as the scan that finds it past its expiry saves it. */
  function MarkedExpired(t: Tables, id: nat): Tables
    requires id < |t.qrs|
  {
    WithQr(t, id, t.qrs[id].(status := Expired))
  }

  /** The record checked in at time `at` by the admin `admin`. */
  function MarkedCheckedIn(t: Tables, id: nat, at: int, admin: string): Tables
    requires id < |t.qrs|
  {
    WithQr(t, id, t.qrs[id].(checkInStatus := CheckedIn, checkedInAt := Some(at), checkedInBy := admin))
  }

  /** What `resolveQrAndRegistration` hands back: the token, its verified
      payload and hash, and the ids of the credential record and its registration. */
  datatype Resolved = Resolved(token: string, payload: JsValue, tokenHash: string, qrId: nat, registration: string)

  /** A record a scan may act on: ACTIVE, not expired, and its registration stored and PAID. */
  predicate Admissible(t: Tables, id: nat, now: int)
    requires id < |t.qrs|
  {
    var q := t.qrs[id];
    && q.status == Active
    && !IsExpired(q, now)
    && q.registration in t.registrations
    && t.registrations[q.registration].paymentStatus == RegPaid
  }

  /** `resolveQrAndRegistration(qrText)` at time `now`. The only write is the
      EXPIRED mark on a record found past its expiry. */
  function ResolveOutcome(t: Tables, qrText: JsValue, rt: Runtime, now: int): (s: Step<Resolved>)
    ensures s.result.Ok? ==>
              var r := s.result.value;
              && s.tables == t
              && r.qrId < |t.qrs|
              && t.qrs[r.qrId].tokenHash == r.tokenHash == rt.sha256(r.token)
              && r.registration == t.qrs[r.qrId].registration
              && Admissible(t, r.qrId, now)
              && ParseQrText(rt.vars, qrText) == Some(r.token) && r.token != ""
              && VerifyQrJwtToken(rt.vars, rt.verify, r.token, now) == Ok(r.payload)
    ensures s.tables == t || exists id :: 0 <= id < |t.qrs| && s.tables == MarkedExpired(t, id)
  {
    if !Truthy(qrText) then Step(t, Err(Http(400, "qrText is required")))
    else match ParseQrText(rt.vars, qrText)
    case None => Step(t, Err(Http(400, "Invalid QR format")))
    case Some(token) =>
      if token == "" then Step(t, Err(Http(400, "Invalid QR format")))
      else match VerifyQrJwtToken(rt.vars, rt.verify, token, now)
      case Err(_) => Step(t, Err(Http(401, "Invalid or expired QR")))
      case Ok(payload) =>
        var tokenHash := rt.sha256(token);
        match FindQr(t.qrs, ByTokenHash(tokenHash))
        case None => Step(t, Err(Http(404, "QR not found")))
        case Some(id) =>
          var q := t.qrs[id];
          if q.status != Active then Step(t, Err(Http(409, "QR is " + StatusName(q.status))))
          else if IsExpired(q, now) then Step(MarkedExpired(t, id), Err(Http(401, "QR expired")))
          else if q.registration !in t.registrations then Step(t, Err(Http(404, "Registration not found")))
          else if t.registrations[q.registration].paymentStatus != RegPaid then
            Step(t, Err(Http(409, "Registration is not PAID")))
          else
            var claimed := Get(payload, "registrationId");
            if Truthy(claimed) && claimed != Str(t.registrations[q.registration].registrationId) then
              Step(t, Err(Http(409, "QR does not match this registration")))
            else Step(t, Ok(Resolved(token, payload, tokenHash, id, q.registration)))
  }

  /** What `previewCheckIn` shows of the credential record. */
  datatype QrView = QrView(status: QrStatus, checkInStatus: CheckInStatus, checkedInAt: Option<int>, checkedInBy: string)

  datatype Preview = Preview(attendee: Attendee, qr: QrView)

  /** `previewCheckIn({ qrText, adminUser })` at time `now`. */
  function PreviewOutcome(t: Tables, qrText: JsValue, admin: JsValue, rt: Runtime, now: int): Step<Preview> {
    match EnsureAdmin(admin)
    case Err(e) => Step(t, Err(e))
    case Ok(_) =>
      var s := ResolveOutcome(t, qrText, rt, now);
      match s.result
      case Err(e) => Step(s.tables, Err(e))
      case Ok(r) =>
        var q := t.qrs[r.qrId];
        Step(t, Ok(Preview(MapAttendee(t.registrations[r.registration]),
                           QrView(q.status, q.checkInStatus, q.checkedInAt, q.checkedInBy))))
  }

  /** The two successful answers of a check-in: the attendee was already in
      (with the time they came in, if recorded), or is now, at `checkedInAt`. */
  datatype CheckInReply =
    | AlreadyIn(attendee: Attendee, previousAt: Option<int>)
    | NowIn(attendee: Attendee, checkedInAt: int)

  /** The conditional update of `confirmCheckIn`, one atomic step: record `id`
      is checked in only while it still carries `tokenHash`, is ACTIVE and is
      NOT_CHECKED_IN; `None` when the condition no longer holds. */
  function CheckInIfStill(t: Tables, id: nat, tokenHash: string, at: int, admin: string): (r: Option<Tables>)
    requires id < |t.qrs|
    ensures r.Some? <==> t.qrs[id].tokenHash == tokenHash && t.qrs[id].status == Active && t.qrs[id].checkInStatus == NotCheckedIn
    ensures r.Some? ==> r.value == MarkedCheckedIn(t, id, at, admin)
  {
    var q := t.qrs[id];
    if q.tokenHash == tokenHash && q.status == Active && q.checkInStatus == NotCheckedIn then
      Some(MarkedCheckedIn(t, id, at, admin))
    else None
  }

  /** `(await RegistrationQr.findOne({ tokenHash }))?.checkedInAt || null` */
  function CheckInTimeByHash(qrs: seq<QrRecord>, tokenHash: string): (at: Option<int>)
    ensures at.Some? ==> exists i :: 0 <= i < |qrs| && qrs[i].tokenHash == tokenHash && qrs[i].checkedInAt == at
  {
    match FindQr(qrs, ByTokenHash(tokenHash))
    case None => None
    case Some(i) => qrs[i].checkedInAt
  }

  /** `confirmCheckIn({ qrText, adminUser })` at time `now`. */
  function ConfirmOutcome(t: Tables, qrText: JsValue, admin: JsValue, rt: Runtime, now: int): Step<CheckInReply> {
    match EnsureAdmin(admin)
    case Err(e) => Step(t, Err(e))
    case Ok(adminId) =>
      var s := ResolveOutcome(t, qrText, rt, now);
      match s.result
      case Err(e) => Step(s.tables, Err(e))
      case Ok(r) =>
        var q := t.qrs[r.qrId];
        var attendee := MapAttendee(t.registrations[r.registration]);
        if q.checkInStatus == CheckedIn then Step(t, Ok(AlreadyIn(attendee, q.checkedInAt)))
        else match CheckInIfStill(t, r.qrId, r.tokenHash, now, ToStr(adminId))
          case Some(t1) => Step(t1, Ok(NowIn(attendee, now)))
          case None =>
            // someone else got there first: report what the record says now
            Step(t, Ok(AlreadyIn(attendee, CheckInTimeByHash(t.qrs, r.tokenHash))))
  }

  /** What the query throws for a registration id that does not cast to a string. */
  const RegistrationIdCastError: Error := ScriptError("CastError", "Cast to string failed for value at path \"registrationId\" for model \"RegistrationQr\"")

  /** The chain `previewByRegistrationId` and `checkInByRegistrationId` share:
      a registration id is required, its first credential record must exist, be
      ACTIVE and not expired (an expired one is marked EXPIRED), and its
      registration must be stored. */
  function LookupById(t: Tables, registrationId: JsValue, now: int): (s: Step<nat>)
    ensures s.result.Ok? ==>
              && s.tables == t
              && s.result.value < |t.qrs|
              && var q := t.qrs[s.result.value];
                 q.status == Active && !IsExpired(q, now) && q.registration in t.registrations
    ensures s.tables == t || exists id :: 0 <= id < |t.qrs| && s.tables == MarkedExpired(t, id)
  {
    if !Truthy(registrationId) then Step(t, Err(Http(400, "registrationId is required")))
    else
      var rid := CastString(registrationId);
      if rid.None? then Step(t, Err(RegistrationIdCastError))
      else LookupByText(t, rid.value, now)
  }

  /** The lookup once the registration id is cast to text. */
  function LookupByText(t: Tables, rid: string, now: int): (s: Step<nat>)
    ensures s.result.Ok? ==>
              && s.tables == t
              && s.result.value < |t.qrs|
              && var q := t.qrs[s.result.value];
                 q.registrationId == rid && q.status == Active && !IsExpired(q, now) && q.registration in t.registrations
    ensures s.tables == t || exists id :: 0 <= id < |t.qrs| && s.tables == MarkedExpired(t, id)
  {
    match FindQr(t.qrs, ByRegistrationId(rid))
    case None => Step(t, Err(Http(404, "QR record not found for this registrationId")))
    case Some(id) =>
      var q := t.qrs[id];
      if q.status != Active then Step(t, Err(Http(409, "QR is " + StatusName(q.status))))
      else if IsExpired(q, now) then Step(MarkedExpired(t, id), Err(Http(401, "QR expired")))
      else if q.registration !in t.registrations then Step(t, Err(Http(404, "Registration not found")))
      else Step(t, Ok(id))
  }

  /** What `previewByRegistrationId` shows. */
  datatype RegistrationCheckIn = RegistrationCheckIn(
    registrationId: string, firstName: string, lastName: string, conferenceType: string,
    paymentStatus: RegPaymentStatus, checkInStatus: CheckInStatus, checkedInAt: Option<int>)

  /** `previewByRegistrationId({ registrationId, adminUser })` at time `now`. */
  function PreviewByIdOutcome(t: Tables, registrationId: JsValue, admin: JsValue, now: int): Step<RegistrationCheckIn> {
    match EnsureAdmin(admin)
    case Err(e) => Step(t, Err(e))
    case Ok(_) =>
      var s := LookupById(t, registrationId, now);
      match s.result
      case Err(e) => Step(s.tables, Err(e))
      case Ok(id) =>
        var q := t.qrs[id];
        var reg := t.registrations[q.registration];
        Step(t, Ok(RegistrationCheckIn(reg.registrationId, reg.firstName, reg.lastName, reg.conferenceType,
                                       reg.paymentStatus, q.checkInStatus, q.checkedInAt)))
  }

  /** `checkInByRegistrationId({ registrationId, adminUser })` at time `now`. */
  function CheckInByIdOutcome(t: Tables, registrationId: JsValue, admin: JsValue, now: int): Step<CheckInReply> {
    match EnsureAdmin(admin)
    case Err(e) => Step(t, Err(e))
    case Ok(adminId) =>
      var s := LookupById(t, registrationId, now);
      match s.result
      case Err(e) => Step(s.tables, Err(e))
      case Ok(id) =>
        var q := t.qrs[id];
        var reg := t.registrations[q.registration];
        if reg.paymentStatus != RegPaid then Step(t, Err(Http(409, "Registration is not PAID")))
        else if q.checkInStatus == CheckedIn then Step(t, Ok(AlreadyIn(MapAttendee(reg), q.checkedInAt)))
        else Step(MarkedCheckedIn(t, id, now, ToStr(adminId)), Ok(NowIn(MapAttendee(reg), now)))
  }

  // ---------------------------------------------------------------------------
  // Properties of the check-in lifecycle

  /** The token checks (presence, prefix, signature) come before any database
      read: when one of them fails, the answer is the same whatever is stored. */
  lemma TokenChecksPrecedeDatabase(t: Tables, u: Tables, qrText: JsValue, rt: Runtime, now: int)
    requires !Truthy(qrText) || ParseQrText(rt.vars, qrText).None? || ParseQrText(rt.vars, qrText) == Some("") ||
             VerifyQrJwtToken(rt.vars, rt.verify, ParseQrText(rt.vars, qrText).value, now).Err?
    ensures ResolveOutcome(t, qrText, rt, now).tables == t
    ensures ResolveOutcome(u, qrText, rt, now).tables == u
    ensures ResolveOutcome(t, qrText, rt, now).result == ResolveOutcome(u, qrText, rt, now).result
    ensures ResolveOutcome(t, qrText, rt, now).result.Err? &&
            ResolveOutcome(t, qrText, rt, now).result.error.HttpError? &&
            ResolveOutcome(t, qrText, rt, now).result.error.status in {400, 401}
  {
  }

  /** The bare prefix and its dot carry an empty token, which is refused as a
      malformed text before any signature check or lookup. */
  lemma EmptyTokenRefused(t: Tables, rt: Runtime, now: int)
    ensures ResolveOutcome(t, Str(Prefix(rt.vars) + "."), rt, now) == Step(t, Err(Http(400, "Invalid QR format")))
  {
    var text := Prefix(rt.vars) + ".";
    assert text + "" == text;
    ParseBuild(rt.vars, "");
    assert BuildQrText(rt.vars, "") == text;
  }

  /** Once the token is verified and its record found, the lifecycle checks run
      in order: not ACTIVE (409), expired (marked EXPIRED, then 401), registration
      missing (404), not PAID (409), registration id claimed by the token and
      different (409); only a record passing all of them resolves. */
  lemma ResolveLifecycleOrder(t: Tables, qrText: JsValue, rt: Runtime, now: int, token: string, payload: JsValue, id: nat)
    requires Truthy(qrText) && ParseQrText(rt.vars, qrText) == Some(token) && token != ""
    requires VerifyQrJwtToken(rt.vars, rt.verify, token, now) == Ok(payload)
    requires FindQr(t.qrs, ByTokenHash(rt.sha256(token))) == Some(id)
    ensures var s := ResolveOutcome(t, qrText, rt, now);
            var q := t.qrs[id];
            && (q.status != Active ==> s == Step(t, Err(Http(409, "QR is " + StatusName(q.status)))))
            && (q.status == Active && IsExpired(q, now) ==> s == Step(MarkedExpired(t, id), Err(Http(401, "QR expired"))))
            && (q.status == Active && !IsExpired(q, now) && q.registration !in t.registrations ==>
                  s == Step(t, Err(Http(404, "Registration not found"))))
            && (q.status == Active && !IsExpired(q, now) && q.registration in t.registrations &&
                t.registrations[q.registration].paymentStatus != RegPaid ==>
                  s == Step(t, Err(Http(409, "Registration is not PAID"))))
            && (Admissible(t, id, now) ==>
                  var claimed := Get(payload, "registrationId");
                  if Truthy(claimed) && claimed != Str(t.registrations[q.registration].registrationId)
                  then s == Step(t, Err(Http(409, "QR does not match this registration")))
                  else s == Step(t, Ok(Resolved(token, payload, rt.sha256(token), id, q.registration))))
  {
  }

  /** The registration-mismatch check needs a truthy `registrationId` claim in
      the payload; the payload the issuer signs carries `rid` instead, so a
      token it issued never fails that check. */
  lemma MismatchNeedsRegistrationIdClaim(t: Tables, qrText: JsValue, rt: Runtime, now: int)
    ensures ResolveOutcome(t, qrText, rt, now).result == Err(Http(409, "QR does not match this registration")) ==>
              && ParseQrText(rt.vars, qrText).Some?
              && var verified := VerifyQrJwtToken(rt.vars, rt.verify, ParseQrText(rt.vars, qrText).value, now);
                 verified.Ok? && Truthy(Get(verified.value, "registrationId"))
    ensures forall key: string, rid: JsValue, ct: JsValue, jti: string, iat: int, exp: Option<int> ::
              !Truthy(Get(QrPayload(key, rid, ct, jti, iat, exp), "registrationId"))
  {
    forall key: string, rid: JsValue, ct: JsValue, jti: string, iat: int, exp: Option<int>
      ensures !Truthy(Get(QrPayload(key, rid, ct, jti, iat, exp), "registrationId"))
    {
      QrPayloadFields(key, rid, ct, jti, iat, exp);
    }
  }

  /** Previewing writes nothing, except the EXPIRED mark on an ACTIVE record it
      finds past its expiry, which it then reports as 401. */
  lemma PreviewWritesOnlyExpiry(t: Tables, qrText: JsValue, admin: JsValue, rt: Runtime, now: int)
    ensures var s := PreviewOutcome(t, qrText, admin, rt, now);
            || s.tables == t
            || (&& s.result == Err(Http(401, "QR expired"))
                && exists id :: 0 <= id < |t.qrs| && t.qrs[id].status == Active && IsExpired(t.qrs[id], now) &&
                                s.tables == MarkedExpired(t, id))
    ensures EnsureAdmin(admin).Err? ==> PreviewOutcome(t, qrText, admin, rt, now) == Step(t, Err(Http(401, "Unauthorized")))
  {
    if EnsureAdmin(admin).Ok? {
      var s := ResolveOutcome(t, qrText, rt, now);
      if s.tables != t {
        var token := ParseQrText(rt.vars, qrText).value;
        var id := FindQr(t.qrs, ByTokenHash(rt.sha256(token))).value;
        assert s.tables == MarkedExpired(t, id);
      }
    }
  }

  /** `confirmCheckIn`: once the scan resolves, the attendee is checked in now
      exactly when the record was NOT_CHECKED_IN, and that is the only write;
      an attendee already in is reported with the stored time and nothing is
      written. Without a concurrent writer the conditional update never misses. */
  lemma ConfirmOutcomes(t: Tables, qrText: JsValue, admin: JsValue, rt: Runtime, now: int)
    ensures EnsureAdmin(admin).Err? ==> ConfirmOutcome(t, qrText, admin, rt, now) == Step(t, Err(Http(401, "Unauthorized")))
    ensures EnsureAdmin(admin).Ok? && ResolveOutcome(t, qrText, rt, now).result.Err? ==>
              ConfirmOutcome(t, qrText, admin, rt, now) ==
              Step(ResolveOutcome(t, qrText, rt, now).tables, Err(ResolveOutcome(t, qrText, rt, now).result.error))
    ensures EnsureAdmin(admin).Ok? && ResolveOutcome(t, qrText, rt, now).result.Ok? ==>
              var r := ResolveOutcome(t, qrText, rt, now).result.value;
              var q := t.qrs[r.qrId];
              var attendee := MapAttendee(t.registrations[r.registration]);
              var s := ConfirmOutcome(t, qrText, admin, rt, now);
              && (q.checkInStatus == CheckedIn ==> s == Step(t, Ok(AlreadyIn(attendee, q.checkedInAt))))
              && (q.checkInStatus == NotCheckedIn ==>
                    s == Step(MarkedCheckedIn(t, r.qrId, now, ToStr(EnsureAdmin(admin).value)), Ok(NowIn(attendee, now))))
  {
  }

  /** Records other than `id` are untouched and `id` keeps its token hash, so the
      lookup by hash finds the same record. */
  lemma {:induction false} FindByHashUnchanged(qrs: seq<QrRecord>, id: nat, q: QrRecord, tokenHash: string)
    requires id < |qrs| && q.tokenHash == qrs[id].tokenHash
    ensures FindQr(qrs[id := q], ByTokenHash(tokenHash)) == FindQr(qrs, ByTokenHash(tokenHash))
  {
    if |qrs| > 0 && qrs[0].tokenHash != tokenHash && id > 0 {
      assert qrs[id := q][1..] == qrs[1..][id - 1 := q];
      FindByHashUnchanged(qrs[1..], id - 1, q, tokenHash);
    } else if |qrs| > 0 && qrs[0].tokenHash != tokenHash {
      assert qrs[id := q][1..] == qrs[1..];
    }
  }

  /** Confirming twice at the same time checks the attendee in once: the second
      call reports them as already in, at the time of the first, and writes nothing. */
  lemma ConfirmIdempotent(t: Tables, qrText: JsValue, admin: JsValue, rt: Runtime, now: int)
    requires ConfirmOutcome(t, qrText, admin, rt, now).result.Ok?
    ensures var first := ConfirmOutcome(t, qrText, admin, rt, now);
            var second := ConfirmOutcome(first.tables, qrText, admin, rt, now);
            && second.tables == first.tables
            && second.result.Ok? && second.result.value.AlreadyIn?
            && second.result.value.attendee == first.result.value.attendee
            && second.result.value.previousAt ==
                 (if first.result.value.NowIn? then Some(now) else first.result.value.previousAt)
  {
    ConfirmOutcomes(t, qrText, admin, rt, now);
    var r := ResolveOutcome(t, qrText, rt, now).result.value;
    var first := ConfirmOutcome(t, qrText, admin, rt, now);
    if first.result.value.NowIn? {
      var t1 := first.tables;
      var q1 := t1.qrs[r.qrId];
      FindByHashUnchanged(t.qrs, r.qrId, q1, r.tokenHash);
      assert FindQr(t1.qrs, ByTokenHash(r.tokenHash)) == Some(r.qrId);
      assert Admissible(t1, r.qrId, now);
      assert ResolveOutcome(t1, qrText, rt, now).result == Ok(r);
    }
  }

  /** Every check-in on `t` is still there, unchanged, in `u`: a record that is
      CHECKED_IN stays CHECKED_IN with the same time and admin. */
  ghost predicate KeepsCheckIns(t: Tables, u: Tables) {
    && |t.qrs| <= |u.qrs|
    && forall i :: 0 <= i < |t.qrs| && t.qrs[i].checkInStatus == CheckedIn ==>
         && u.qrs[i].checkInStatus == CheckedIn
         && u.qrs[i].checkedInAt == t.qrs[i].checkedInAt
         && u.qrs[i].checkedInBy == t.qrs[i].checkedInBy
  }

  lemma ExpiryKeepsCheckIns(t: Tables, id: nat)
    requires id < |t.qrs|
    ensures KeepsCheckIns(t, MarkedExpired(t, id))
  {
  }

  /** Scanning, previewing and confirming never take a check-in back. */
  lemma ScanKeepsCheckIns(t: Tables, qrText: JsValue, admin: JsValue, rt: Runtime, now: int)
    ensures KeepsCheckIns(t, ResolveOutcome(t, qrText, rt, now).tables)
    ensures KeepsCheckIns(t, PreviewOutcome(t, qrText, admin, rt, now).tables)
    ensures KeepsCheckIns(t, ConfirmOutcome(t, qrText, admin, rt, now).tables)
  {
    var s := ResolveOutcome(t, qrText, rt, now);
    if s.tables != t {
      var id :| 0 <= id < |t.qrs| && s.tables == MarkedExpired(t, id);
      ExpiryKeepsCheckIns(t, id);
    }
    ConfirmOutcomes(t, qrText, admin, rt, now);
  }

  /** `checkInByRegistrationId` refuses an unpaid registration, checks in a
      NOT_CHECKED_IN record now, and reports a CHECKED_IN one without writing;
      `previewByRegistrationId` answers for an unpaid registration as well. */
  lemma ByIdOutcomes(t: Tables, registrationId: JsValue, admin: JsValue, now: int)
    ensures EnsureAdmin(admin).Err? ==>
              && CheckInByIdOutcome(t, registrationId, admin, now) == Step(t, Err(Http(401, "Unauthorized")))
              && PreviewByIdOutcome(t, registrationId, admin, now) == Step(t, Err(Http(401, "Unauthorized")))
    ensures EnsureAdmin(admin).Ok? && LookupById(t, registrationId, now).result.Ok? ==>
              var id := LookupById(t, registrationId, now).result.value;
              var q := t.qrs[id];
              var reg := t.registrations[q.registration];
              var s := CheckInByIdOutcome(t, registrationId, admin, now);
              && PreviewByIdOutcome(t, registrationId, admin, now) ==
                   Step(t, Ok(RegistrationCheckIn(reg.registrationId, reg.firstName, reg.lastName, reg.conferenceType,
                                                  reg.paymentStatus, q.checkInStatus, q.checkedInAt)))
              && (reg.paymentStatus != RegPaid ==> s == Step(t, Err(Http(409, "Registration is not PAID"))))
              && (reg.paymentStatus == RegPaid && q.checkInStatus == CheckedIn ==>
                    s == Step(t, Ok(AlreadyIn(MapAttendee(reg), q.checkedInAt))))
              && (reg.paymentStatus == RegPaid && q.checkInStatus == NotCheckedIn ==>
                    s == Step(MarkedCheckedIn(t, id, now, ToStr(EnsureAdmin(admin).value)), Ok(NowIn(MapAttendee(reg), now))))
    ensures EnsureAdmin(admin).Ok? && LookupById(t, registrationId, now).result.Err? ==>
              var l := LookupById(t, registrationId, now);
              && CheckInByIdOutcome(t, registrationId, admin, now) == Step(l.tables, Err(l.result.error))
              && PreviewByIdOutcome(t, registrationId, admin, now) == Step(l.tables, Err(l.result.error))
  {
  }

  /** Looking up and checking in by registration id never take a check-in back. */
  lemma ByIdKeepsCheckIns(t: Tables, registrationId: JsValue, admin: JsValue, now: int)
    ensures KeepsCheckIns(t, PreviewByIdOutcome(t, registrationId, admin, now).tables)
    ensures KeepsCheckIns(t, CheckInByIdOutcome(t, registrationId, admin, now).tables)
  {
    var l := LookupById(t, registrationId, now);
    if l.tables != t {
      var id :| 0 <= id < |t.qrs| && l.tables == MarkedExpired(t, id);
      ExpiryKeepsCheckIns(t, id);
    }
    ByIdOutcomes(t, registrationId, admin, now);
  }

  /** Issuing a credential only revokes the linked record and appends a new
      one, so it never takes a check-in back either. */
  lemma IssueKeepsCheckIns(t: Tables, key: string, rt: Runtime, now: int)
    ensures KeepsCheckIns(t, IssueOutcome(t, key, rt, now).tables)
  {
    var s := IssueOutcome(t, key, rt, now);
    if s.result.Ok? && !s.result.value.reused {
      IssueNew(t, key, rt, now);
    } else if s.tables != t {
      var reg := t.registrations[key];
      assert reg.qr.Some? && reg.qr.value < |t.qrs|;
      assert s.tables == Revoke(t, reg.qr.value);
    }
  }

  // ---------------------------------------------------------------------------
  // The service functions, updating the database in place

  /** `resolveQrAndRegistration(qrText)` */
  method ResolveQrAndRegistration(db: Database, qrText: JsValue, rt: Runtime, now: int) returns (r: Outcome<Resolved>)
    modifies db
    ensures Step(db.Snapshot(), r) == ResolveOutcome(old(db.Snapshot()), qrText, rt, now)
  {
    if !Truthy(qrText) {
      return Err(Http(400, "qrText is required"));
    }
    var parsed := ParseQrText(rt.vars, qrText);
    if parsed.None? || parsed.value == "" {
      return Err(Http(400, "Invalid QR format"));
    }
    var token := parsed.value;
    var verified := VerifyQrJwtToken(rt.vars, rt.verify, token, now);
    if verified.Err? {
      return Err(Http(401, "Invalid or expired QR"));
    }
    var tokenHash := rt.sha256(token);
    var found := FindQr(db.qrs, ByTokenHash(tokenHash));
    if found.None? {
      return Err(Http(404, "QR not found"));
    }
    var id := found.value;
    var q := db.qrs[id];
    if q.status != Active {
      return Err(Http(409, "QR is " + StatusName(q.status)));
    }
    if IsExpired(q, now) {
      db.SaveQr(id, q.(status := Expired));
      return Err(Http(401, "QR expired"));
    }
    if q.registration !in db.registrations {
      return Err(Http(404, "Registration not found"));
    }
    var reg := db.registrations[q.registration];
    if reg.paymentStatus != RegPaid {
      return Err(Http(409, "Registration is not PAID"));
    }
    var claimed := Get(verified.value, "registrationId");
    if Truthy(claimed) && claimed != Str(reg.registrationId) {
      return Err(Http(409, "QR does not match this registration"));
    }
    return Ok(Resolved(token, verified.value, tokenHash, id, q.registration));
  }

  /** `previewCheckIn({ qrText, adminUser })` */
  method PreviewCheckIn(db: Database, qrText: JsValue, admin: JsValue, rt: Runtime, now: int) returns (r: Outcome<Preview>)
    modifies db
    ensures Step(db.Snapshot(), r) == PreviewOutcome(old(db.Snapshot()), qrText, admin, rt, now)
  {
    var _ :- EnsureAdmin(admin);
    var resolved :- ResolveQrAndRegistration(db, qrText, rt, now);
    var q := db.qrs[resolved.qrId];
    return Ok(Preview(MapAttendee(db.registrations[resolved.registration]),
                      QrView(q.status, q.checkInStatus, q.checkedInAt, q.checkedInBy)));
  }

  /** `confirmCheckIn({ qrText, adminUser })` */
  method ConfirmCheckIn(db: Database, qrText: JsValue, admin: JsValue, rt: Runtime, now: int) returns (r: Outcome<CheckInReply>)
    modifies db
    ensures Step(db.Snapshot(), r) == ConfirmOutcome(old(db.Snapshot()), qrText, admin, rt, now)
  {
    var adminId :- EnsureAdmin(admin);
    var resolved :- ResolveQrAndRegistration(db, qrText, rt, now);
    var q := db.qrs[resolved.qrId];
    var attendee := MapAttendee(db.registrations[resolved.registration]);
    if q.checkInStatus == CheckedIn {
      return Ok(AlreadyIn(attendee, q.checkedInAt));
    }
    // the conditional update, as one step
    var current := db.qrs[resolved.qrId];
    if current.tokenHash == resolved.tokenHash && current.status == Active && current.checkInStatus == NotCheckedIn {
      db.SaveQr(resolved.qrId, current.(checkInStatus := CheckedIn, checkedInAt := Some(now), checkedInBy := ToStr(adminId)));
      return Ok(NowIn(attendee, now));
    }
    // The record was read ACTIVE and NOT_CHECKED_IN just above and nothing
    // else writes in between, so the update cannot miss here.
    assert false;
  }

  /** The lookup `previewByRegistrationId` and `checkInByRegistrationId` share. */
  method LookupByRegistrationId(db: Database, registrationId: JsValue, now: int) returns (r: Outcome<nat>)
    modifies db
    ensures Step(db.Snapshot(), r) == LookupById(old(db.Snapshot()), registrationId, now)
  {
    if !Truthy(registrationId) {
      return Err(Http(400, "registrationId is required"));
    }
    var rid := CastString(registrationId);
    if rid.None? {
      return Err(RegistrationIdCastError);
    }
    var found := FindQr(db.qrs, ByRegistrationId(rid.value));
    if found.None? {
      return Err(Http(404, "QR record not found for this registrationId"));
    }
    var id := found.value;
    var q := db.qrs[id];
    if q.status != Active {
      return Err(Http(409, "QR is " + StatusName(q.status)));
    }
    if IsExpired(q, now) {
      db.SaveQr(id, q.(status := Expired));
      return Err(Http(401, "QR expired"));
    }
    if q.registration !in db.registrations {
      return Err(Http(404, "Registration not found"));
    }
    return Ok(id);
  }

  /** `previewByRegistrationId({ registrationId, adminUser })` */
  method PreviewByRegistrationId(db: Database, registrationId: JsValue, admin: JsValue, now: int) returns (r: Outcome<RegistrationCheckIn>)
    modifies db
    ensures Step(db.Snapshot(), r) == PreviewByIdOutcome(old(db.Snapshot()), registrationId, admin, now)
  {
    ghost var t := db.Snapshot();
    var auth := EnsureAdmin(admin);
    if auth.Err? {
      return Err(auth.error);
    }
    var found := LookupByRegistrationId(db, registrationId, now);
    if found.Err? {
      return Err(found.error);
    }
    var id := found.value;
    assert LookupById(t, registrationId, now) == Step(t, Ok(id));
    assert db.Snapshot() == t;
    var q := db.qrs[id];
    var reg := db.registrations[q.registration];
    r := Ok(RegistrationCheckIn(reg.registrationId, reg.firstName, reg.lastName, reg.conferenceType,
                                reg.paymentStatus, q.checkInStatus, q.checkedInAt));
    assert PreviewByIdOutcome(t, registrationId, admin, now) == Step(t, r);
  }

  /** `checkInByRegistrationId({ registrationId, adminUser })` */
  method CheckInByRegistrationId(db: Database, registrationId: JsValue, admin: JsValue, now: int) returns (r: Outcome<CheckInReply>)
    modifies db
    ensures Step(db.Snapshot(), r) == CheckInByIdOutcome(old(db.Snapshot()), registrationId, admin, now)
  {
    var adminId :- EnsureAdmin(admin);
    var id :- LookupByRegistrationId(db, registrationId, now);
    var q := db.qrs[id];
    var reg := db.registrations[q.registration];
    if reg.paymentStatus != RegPaid {
      return Err(Http(409, "Registration is not PAID"));
    }
    if q.checkInStatus == CheckedIn {
      return Ok(AlreadyIn(MapAttendee(reg), q.checkedInAt));
    }
    db.SaveQr(id, q.(checkInStatus := CheckedIn, checkedInAt := Some(now), checkedInBy := ToStr(adminId)));
    return Ok(NowIn(MapAttendee(reg), now));
  }
}
