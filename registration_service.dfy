/**
 * Creating and updating registrations. A registration document is the
 * client's own fields plus the server-controlled pricing and payment fields,
 * so it is modelled as a field map; the database's validation of a document
 * (schema casts, enums, the unique `registrationId` index) is its verdict,
 * passed in as a function.
 */
module RegistrationService {
  import opened Wrappers
  import opened Strings
  import opened Js
  import opened Common
  import opened Objects
  import opened RegistrationHelper

  /** A stored document: field name → value. */
  type Doc = map<string, JsValue>

  /** What the database throws when asked to store a document, if anything. */
  type Verdict = Doc -> Option<Error>

  const CreateRequired: seq<string> := ["country", "conferenceType", "participantCategory", "email"]

  /** The fields the service always sets itself when creating. */
  const ServerSet: set<string> := {"feeAmount", "feePeriod", "incomeGroup", "paymentStatus", "feeBreakdown"}

  /** A fee amount as a value: `undefined` when the table had none. */
  function AmountValue(amount: Option<int>): JsValue {
    if amount.Some? then Num(amount.value as real) else Undefined
  }

  /** The `{ amount, period }` object stored as `feeBreakdown`. */
  function FeeObject(fee: FeeData): JsValue {
    Obj(map["amount" := AmountValue(fee.amount), "period" := Str(fee.period.Name())])
  }

  /** The public id drawn by `generateRandomId` from its eight draws. */
  function RandomId(draws: seq<real>): (id: string)
    requires |draws| == 8 && forall i :: 0 <= i < 8 ==> 0.0 <= draws[i] < 1.0
    ensures |id| == 8 && forall i :: 0 <= i < 8 ==> id[i] == IdAlphabet[AlphabetIndex(draws[i])]
  {
    seq(8, i requires 0 <= i < 8 => IdAlphabet[AlphabetIndex(draws[i])])
  }

  /** The document handed to `Registration.create`: the generated id, then
      the payload spread over it, then the server-controlled fields spread
      over both. The charged amount is the fixed test amount 1, whatever the
      fee table says. Payload keys outside the schema are kept here; the
      schema's strict mode, which drops them when the document is saved, is
      not modelled. */
  function NewRecord(payload: JsValue, registrationId: string, incomeGroup: IncomeGroup, fee: FeeData): (d: Doc)
    ensures d.Keys == {"registrationId"} + Entries(payload).Keys + ServerSet
    ensures d["feeAmount"] == Num(1.0)
    ensures d["paymentStatus"] == Str("UNPAID")
    ensures d["incomeGroup"] == Str(incomeGroup.Name())
    ensures d["feePeriod"] == Str(fee.period.Name())
    ensures d["feeBreakdown"] == FeeObject(fee)
    ensures "registrationId" in Entries(payload) ==> d["registrationId"] == Entries(payload)["registrationId"]
    ensures "registrationId" !in Entries(payload) ==> d["registrationId"] == Str(registrationId)
    ensures forall k :: k in Entries(payload) && k !in ServerSet ==> d[k] == Entries(payload)[k]
  {
    map["registrationId" := Str(registrationId)] + Entries(payload) + map[
      "feeAmount" := Num(1.0),
      "feePeriod" := Str(fee.period.Name()),
      "incomeGroup" := Str(incomeGroup.Name()),
      "paymentStatus" := Str("UNPAID"),
      "feeBreakdown" := FeeObject(fee)]
  }

  /** The catch block of `createRegistration`: a duplicate key is a 409
      carrying the clashing key, an HttpError passes through, a validation
      failure is a 400 with its per-path errors, anything else a 500. */
  function CreateFailure(e: Error): (r: Error)
    ensures r.HttpError?
    ensures e.DuplicateKey? ==> r == HttpError(409, "Duplicate registration detected.", e.keyValue)
    ensures e.HttpError? ==> r == e
    ensures e.ValidationFailed? ==> r == HttpError(400, "Invalid registration data.", e.errors)
    ensures e.ScriptError? ==> r == Http(500, "Failed to create registration.")
  {
    match e
    case DuplicateKey(kv) => HttpError(409, "Duplicate registration detected.", kv)
    case HttpError(_, _, _) => e
    case ValidationFailed(_, errors) => HttpError(400, "Invalid registration data.", errors)
    case ScriptError(_, _) => Http(500, "Failed to create registration.")
  }

  /** `createRegistration(payload)` at time `now`, with the draws of
      `Math.random()` for the public id and the database's verdict. */
  function CreateOutcome(payload: JsValue, draws: seq<real>, now: int, verdict: Verdict): (r: Outcome<Doc>)
    requires |draws| == 8 && forall i :: 0 <= i < 8 ==> 0.0 <= draws[i] < 1.0
    ensures r.Err? ==> r.error.HttpError?
    ensures RequireFields(payload, CreateRequired).Ok? &&
            DetermineIncomeGroup(Get(payload, "country"), RawIncomeGroup(Get(payload, "country"))).None? ==>
              r == Err(Http(400, "Unknown country or income group: " + ToStr(Get(payload, "country"))))
    ensures r.Ok? ==> r.value.Keys == {"registrationId"} + Entries(payload).Keys + ServerSet && verdict(r.value).None?
  {
    match RequireFields(payload, CreateRequired)
    case Err(e) => Err(CreateFailure(e))
    case Ok(_) =>
      var country := Get(payload, "country");
      var incomeGroup := DetermineIncomeGroup(country, RawIncomeGroup(country));
      if incomeGroup.None? then Err(Http(400, "Unknown country or income group: " + ToStr(country)))
      else
        match CalculateFee(Get(payload, "conferenceType"), Get(payload, "participantCategory"), incomeGroup.value, now)
        case Err(e) => Err(CreateFailure(e))
        case Ok(None) => Err(Http(400, "Unable to calculate fee for this selection."))
        case Ok(Some(fee)) =>
          var doc := NewRecord(payload, RandomId(draws), incomeGroup.value, fee);
          match verdict(doc)
          case Some(e) => Err(CreateFailure(e))
          case None => Ok(doc)
  }

  /** `createRegistration`: the steps of `CreateOutcome`, drawing the id with
      the generator's loop. */
  method CreateRegistration(payload: JsValue, draws: seq<real>, now: int, verdict: Verdict) returns (r: Outcome<Doc>)
    requires |draws| == 8 && forall i :: 0 <= i < 8 ==> 0.0 <= draws[i] < 1.0
    ensures r == CreateOutcome(payload, draws, now, verdict)
  {
    var present := RequireFields(payload, CreateRequired);
    if present.Err? {
      return Err(CreateFailure(present.error));
    }
    var country := Get(payload, "country");
    var incomeGroup := DetermineIncomeGroup(country, RawIncomeGroup(country));
    if incomeGroup.None? {
      return Err(Http(400, "Unknown country or income group: " + ToStr(country)));
    }
    var fee := CalculateFee(Get(payload, "conferenceType"), Get(payload, "participantCategory"), incomeGroup.value, now);
    if fee.Err? {
      return Err(CreateFailure(fee.error));
    }
    if fee.value.None? {
      return Err(Http(400, "Unable to calculate fee for this selection."));
    }
    var registrationId := GenerateRandomId(draws);
    assert registrationId == RandomId(draws);
    var doc := NewRecord(payload, registrationId, incomeGroup.value, fee.value.value);
    var failure := verdict(doc);
    if failure.Some? {
      return Err(CreateFailure(failure.value));
    }
    return Ok(doc);
  }

  /** A created registration had all four required fields, is UNPAID, is
      charged the test amount 1 whatever the payload says, and carries the
      table's fee breakdown for its country's income group and the period. */
  lemma CreatedRegistration(payload: JsValue, draws: seq<real>, now: int, verdict: Verdict)
    requires |draws| == 8 && forall i :: 0 <= i < 8 ==> 0.0 <= draws[i] < 1.0
    ensures CreateOutcome(payload, draws, now, verdict).Ok? ==>
              && (forall f :: f in CreateRequired ==> Truthy(Get(payload, f)))
              && var d := CreateOutcome(payload, draws, now, verdict).value;
              && d["paymentStatus"] == Str("UNPAID")
              && d["feeAmount"] == Num(1.0)
              && d["feePeriod"] == Str(FeePeriod(now).Name())
              && verdict(d).None?
  {
    if CreateOutcome(payload, draws, now, verdict).Ok? {
      var present := RequireFields(payload, CreateRequired);
      assert present.Ok?;
    }
  }

  /** A missing required field does not reach the client as a 400: the plain
      Error that `requireFields` throws falls through to the 500 branch. */
  lemma MissingFieldIsServerError(payload: JsValue, draws: seq<real>, now: int, verdict: Verdict)
    requires |draws| == 8 && forall i :: 0 <= i < 8 ==> 0.0 <= draws[i] < 1.0
    requires exists f :: f in CreateRequired && !Truthy(Get(payload, f))
    ensures CreateOutcome(payload, draws, now, verdict) == Err(Http(500, "Failed to create registration."))
  {
    assert RequireFields(payload, CreateRequired).Err?;
  }

  /** An error the database throws: never the application's own HttpError. */
  ghost predicate DatabaseVerdict(verdict: Verdict) {
    forall d :: verdict(d).Some? ==> !verdict(d).value.HttpError?
  }

  /** The country names a member every plain object inherits (and is neither
      the host country nor one the table lists), so its income group has no
      fee table. */
  predicate InheritedCountry(country: JsValue) {
    country != Str("Sri Lanka") && ToStr(country) !in CountryIncomeGroups && ToStr(country) in ObjectPrototypeKeys
  }

  /** Create answers "Unable to calculate fee for this selection." exactly
      when the required fields are present, the programme is not rehab and
      the country is an inherited name such as "toString": its group is then
      a function, which keys no fee table. */
  lemma CreateUnpricedOnlyForInherited(payload: JsValue, draws: seq<real>, now: int, verdict: Verdict)
    requires |draws| == 8 && forall i :: 0 <= i < 8 ==> 0.0 <= draws[i] < 1.0
    requires DatabaseVerdict(verdict)
    ensures CreateOutcome(payload, draws, now, verdict) == Err(Http(400, "Unable to calculate fee for this selection."))
            <==> RequireFields(payload, CreateRequired).Ok? && Get(payload, "conferenceType") != Str("rehab")
                 && InheritedCountry(Get(payload, "country"))
  {
    var country := Get(payload, "country");
    DerivedGroupsArePriced(country);
    if RequireFields(payload, CreateRequired).Err? {
      assert CreateOutcome(payload, draws, now, verdict) == Err(CreateFailure(RequireFields(payload, CreateRequired).error));
    } else if DetermineIncomeGroup(country, RawIncomeGroup(country)).None? {
      var m := "Unknown country or income group: " + ToStr(country);
      assert m[2] == 'k';
    } else if Get(payload, "conferenceType") != Str("rehab") && InheritedCountry(country) {
      var incomeGroup := DetermineIncomeGroup(country, RawIncomeGroup(country)).value;
      assert incomeGroup !in FullRules;
    } else {
      PricedCreateNotUnable(payload, draws, now, verdict);
    }
  }

  /** The branch of `CreateUnpricedOnlyForInherited` where the fee is computed. */
  lemma PricedCreateNotUnable(payload: JsValue, draws: seq<real>, now: int, verdict: Verdict)
    requires |draws| == 8 && forall i :: 0 <= i < 8 ==> 0.0 <= draws[i] < 1.0
    requires DatabaseVerdict(verdict)
    requires RequireFields(payload, CreateRequired).Ok?
    requires DetermineIncomeGroup(Get(payload, "country"), RawIncomeGroup(Get(payload, "country"))).Some?
    requires Get(payload, "conferenceType") == Str("rehab") || !InheritedCountry(Get(payload, "country"))
    ensures CreateOutcome(payload, draws, now, verdict) != Err(Http(400, "Unable to calculate fee for this selection."))
  {
    var country := Get(payload, "country");
    var incomeGroup := DetermineIncomeGroup(country, RawIncomeGroup(country)).value;
    DerivedGroupsArePriced(country);
    var fee := CalculateFee(Get(payload, "conferenceType"), Get(payload, "participantCategory"), incomeGroup, now);
    if fee.Err? {
      assert CreateOutcome(payload, draws, now, verdict) == Err(CreateFailure(fee.error));
      CreateFailureNotUnable(fee.error);
    } else {
      var doc := NewRecord(payload, RandomId(draws), incomeGroup, fee.value.value);
      if verdict(doc).Some? {
        assert CreateOutcome(payload, draws, now, verdict) == Err(CreateFailure(verdict(doc).value));
        CreateFailureNotUnable(verdict(doc).value);
      } else {
        assert CreateOutcome(payload, draws, now, verdict) == Ok(doc);
      }
    }
  }

  /** The catch block never produces the "Unable to calculate fee" answer
      from an error that is not already an HttpError. */
  lemma CreateFailureNotUnable(e: Error)
    requires !e.HttpError?
    ensures CreateFailure(e) != Http(400, "Unable to calculate fee for this selection.")
  {
    assert "Invalid registration data."[0] == 'I';
  }

  /** The three fields that decide the fee. */
  predicate TouchesPricing(safe: Doc) {
    Get(Obj(safe), "country") != Undefined || Get(Obj(safe), "conferenceType") != Undefined
    || Get(Obj(safe), "participantCategory") != Undefined
  }

  /** The pricing fields an update recomputes. */
  const FeeFields: set<string> := {"incomeGroup", "feeAmount", "feePeriod", "feeBreakdown"}

  /** The fee fields an update adds after recomputing: the real table amount. */
  function Repriced(safe: Doc, incomeGroup: IncomeGroup, fee: FeeData): (u: Doc)
    ensures u.Keys == safe.Keys + FeeFields
    ensures forall k :: k in safe && k !in FeeFields ==> u[k] == safe[k]
    ensures u["feeAmount"] == AmountValue(fee.amount)
  {
    safe["incomeGroup" := Str(incomeGroup.Name())]["feeAmount" := AmountValue(fee.amount)]
        ["feePeriod" := Str(fee.period.Name())]["feeBreakdown" := FeeObject(fee)]
  }

  /** The sanitized changes with the pricing recomputed when one of its three
      inputs is supplied; each input not supplied comes from the current
      document. */
  function PricingChanges(current: Doc, safe: Doc, now: int): (r: Outcome<Doc>)
    ensures r.Err? ==> r.error.HttpError?
    ensures !TouchesPricing(safe) ==> r == Ok(safe)
    ensures TouchesPricing(safe) && r.Ok? ==>
              && r.value.Keys == safe.Keys + FeeFields
              && (forall k :: k in safe && k !in FeeFields ==> r.value[k] == safe[k])
              && (r.value["feeAmount"] == Undefined <==>
                    Coalesce(Get(Obj(safe), "conferenceType"), Get(Obj(current), "conferenceType")) != Str("rehab")
                    && ToStr(Coalesce(Get(Obj(safe), "participantCategory"), Get(Obj(current), "participantCategory"))) !in PricedCategories)
              && (r.value["feeAmount"] != Undefined ==> r.value["feeAmount"].Num? && r.value["feeAmount"].n > 1.0)
  {
    if !TouchesPricing(safe) then Ok(safe)
    else
      var country := Coalesce(Get(Obj(safe), "country"), Get(Obj(current), "country"));
      var conferenceType := Coalesce(Get(Obj(safe), "conferenceType"), Get(Obj(current), "conferenceType"));
      var category := Coalesce(Get(Obj(safe), "participantCategory"), Get(Obj(current), "participantCategory"));
      var incomeGroup := DetermineIncomeGroup(country, RawIncomeGroup(country));
      if incomeGroup.None? then Err(Http(400, "Unknown country or income group: " + ToStr(country)))
      else
        match CalculateFee(conferenceType, category, incomeGroup.value, now)
        case Err(e) => Err(CatchFailure(e, "Invalid update data.", "Failed to update registration."))
        case Ok(None) => Err(Http(400, "Unable to calculate fee for this selection."))
        case Ok(Some(fee)) =>
          FeesAboveTestAmount(conferenceType, category, incomeGroup.value, now);
          Ok(Repriced(safe, incomeGroup.value, fee))
  }

  /** `updateRegistrationById(id, updates)` at time `now` over the stored
      documents: the updated document, or the error. */
  function UpdateOutcome(docs: map<string, Doc>, id: string, updates: JsValue, now: int, verdict: Verdict): (r: Outcome<Doc>)
    ensures r.Err? ==> r.error.HttpError?
    ensures !IsObjectId(id) ==> r == Err(Http(400, "Invalid registration id."))
    ensures IsObjectId(id) && id !in docs ==> r == Err(Http(404, "Registration not found"))
    ensures r.Ok? ==> id in docs && verdict(r.value).None?
    ensures r.Ok? ==> forall k :: k in docs[id] && k !in UnsetPaths(Allowed(Entries(updates), RegistrationDenied)) ==> k in r.value
  {
    if !IsObjectId(id) then Err(Http(400, "Invalid registration id."))
    else if id !in docs then Err(Http(404, "Registration not found"))
    else UpdateFound(docs[id], updates, now, verdict)
  }

  /** `updateRegistrationById` once the current document `current` is found. */
  function UpdateFound(current: Doc, updates: JsValue, now: int, verdict: Verdict): (r: Outcome<Doc>)
    ensures r.Err? ==> r.error.HttpError?
    ensures r.Ok? ==> verdict(r.value).None?
    ensures r.Ok? ==> forall k :: k in current && k !in UnsetPaths(Allowed(Entries(updates), RegistrationDenied)) ==> k in r.value
  {
    if updates.Null? then Err(CatchFailure(ScriptError("TypeError", "Cannot convert undefined or null to object"), "Invalid update data.", "Failed to update registration."))
    else StoreChanges(current, Allowed(Entries(updates), RegistrationDenied), now, verdict)
  }

  /** The sanitized updates `safe`, repriced when needed, handed to
      `findByIdAndUpdate` and validated by the database. */
  function StoreChanges(current: Doc, safe: Doc, now: int, verdict: Verdict): (r: Outcome<Doc>)
    ensures r.Err? ==> r.error.HttpError?
    ensures r.Ok? ==> verdict(r.value).None?
    ensures r.Ok? ==> forall k :: k in current && k !in UnsetPaths(safe) ==> k in r.value
  {
    var changes :- PricingChanges(current, safe, now);
    RepricingKeepsUnset(current, safe, now);
    var updated := ApplyUpdate(current, changes);
    match verdict(updated)
    case Some(e) => Err(CatchFailure(e, "Invalid update data.", "Failed to update registration."))
    case None => Ok(updated)
  }

  /** Repricing only adds the four fee fields: the paths the update removes
      stay those of the sanitized updates. */
  lemma RepricingKeepsUnset(current: Doc, safe: Doc, now: int)
    requires PricingChanges(current, safe, now).Ok?
    ensures UnsetPaths(PricingChanges(current, safe, now).value) == UnsetPaths(safe)
  {
    assert "$unset" !in FeeFields;
  }

  /** `updateRegistrationById`: sanitizes the request, then lets `Reprice`
      add the recomputed pricing to its local copy. */
  method UpdateRegistrationById(docs: map<string, Doc>, id: string, updates: JsValue, now: int, verdict: Verdict)
    returns (r: Outcome<Doc>)
    ensures r == UpdateOutcome(docs, id, updates, now, verdict)
  {
    if !IsObjectId(id) {
      return Err(Http(400, "Invalid registration id."));
    }
    if id !in docs {
      return Err(Http(404, "Registration not found"));
    }
    r := UpdateCurrent(docs[id], updates, now, verdict);
  }

  /** The body of `updateRegistrationById` after the lookup. */
  method UpdateCurrent(current: Doc, updates: JsValue, now: int, verdict: Verdict) returns (r: Outcome<Doc>)
    ensures r == UpdateFound(current, updates, now, verdict)
  {
    var sanitized := SanitizeRegistrationUpdates(updates);
    if sanitized.Err? {
      return Err(CatchFailure(sanitized.error, "Invalid update data.", "Failed to update registration."));
    }
    r := RepriceAndStore(current, sanitized.value, now, verdict);
  }

  /** The recalculation and the `findByIdAndUpdate` of `updateRegistrationById`. */
  method RepriceAndStore(current: Doc, safe: Doc, now: int, verdict: Verdict) returns (r: Outcome<Doc>)
    ensures r == StoreChanges(current, safe, now, verdict)
  {
    var repriced := Reprice(current, safe, now);
    if repriced.Err? {
      return Err(repriced.error);
    }
    var updated := ApplyUpdate(current, repriced.value);
    var failure := verdict(updated);
    if failure.Some? {
      return Err(CatchFailure(failure.value, "Invalid update data.", "Failed to update registration."));
    }
    return Ok(updated);
  }

  /** The recalculation block of `updateRegistrationById`: sets the four
      pricing fields of the sanitized updates one by one. */
  method Reprice(current: Doc, safe: Doc, now: int) returns (r: Outcome<Doc>)
    ensures r == PricingChanges(current, safe, now)
  {
    var safeUpdates := safe;
    if TouchesPricing(safeUpdates) {
      var country := Coalesce(Get(Obj(safeUpdates), "country"), Get(Obj(current), "country"));
      var conferenceType := Coalesce(Get(Obj(safeUpdates), "conferenceType"), Get(Obj(current), "conferenceType"));
      var category := Coalesce(Get(Obj(safeUpdates), "participantCategory"), Get(Obj(current), "participantCategory"));
      var incomeGroup := DetermineIncomeGroup(country, RawIncomeGroup(country));
      if incomeGroup.None? {
        return Err(Http(400, "Unknown country or income group: " + ToStr(country)));
      }
      var fee := CalculateFee(conferenceType, category, incomeGroup.value, now);
      if fee.Err? {
        return Err(CatchFailure(fee.error, "Invalid update data.", "Failed to update registration."));
      }
      if fee.value.None? {
        return Err(Http(400, "Unable to calculate fee for this selection."));
      }
      var data := fee.value.value;
      safeUpdates := safeUpdates["incomeGroup" := Str(incomeGroup.value.Name())];
      safeUpdates := safeUpdates["feeAmount" := AmountValue(data.amount)];
      safeUpdates := safeUpdates["feePeriod" := Str(data.period.Name())];
      safeUpdates := safeUpdates["feeBreakdown" := FeeObject(data)];
      assert safeUpdates == Repriced(safe, incomeGroup.value, data);
    }
    return Ok(safeUpdates);
  }

  /** `updateRegistrationById` with a sanitizer that also refuses operator
      and dotted keys: the code as written, handed the request's plain body
      (`Objects.PlainBodySanitized`). Nothing the document holds is removed. */
  function UpdateOutcomeIntended(docs: map<string, Doc>, id: string, updates: JsValue, now: int, verdict: Verdict): (r: Outcome<Doc>)
    ensures r.Ok? ==> id in docs && docs[id].Keys <= r.value.Keys && verdict(r.value).None?
  {
    assert !PlainKey("$unset");
    UpdateOutcome(docs, id, PlainBody(updates), now, verdict)
  }

  /** With the corrected sanitizer an update can never change a
      registration's id, payment state, payment reference or provider, or
      its database bookkeeping; it changes the pricing only when it supplies
      a country, conference type or category, and then charges the fee
      table's amount instead of the test amount. */
  lemma UpdateGuardsServerFields(docs: map<string, Doc>, id: string, updates: JsValue, now: int, verdict: Verdict, k: string)
    requires UpdateOutcomeIntended(docs, id, updates, now, verdict).Ok?
    ensures id in docs
    ensures var (before, after) := (docs[id], UpdateOutcomeIntended(docs, id, updates, now, verdict).value);
            var safe := Sanitized(Entries(updates), RegistrationDenied);
            && (k in RegistrationDenied && k !in FeeFields ==> (k in after <==> k in before) && (k in before ==> after[k] == before[k]))
            && (k in FeeFields && !TouchesPricing(safe) ==> (k in after <==> k in before) && (k in before ==> after[k] == before[k]))
            && (TouchesPricing(safe) ==> "feeAmount" in after && after["feeAmount"] != Num(1.0))
  {
    IntendedUpdateIsMerge(docs, id, updates, now, verdict);
    var safe := Sanitized(Entries(updates), RegistrationDenied);
    assert safe.Keys !! RegistrationDenied;
    MergeGuards(docs[id], safe, now, k);
  }

  /** The repriced changes of updates that name no denied key, spread over a
      document, keep its server fields as `UpdateGuardsServerFields` states. */
  lemma MergeGuards(before: Doc, safe: Doc, now: int, k: string)
    requires PricingChanges(before, safe, now).Ok? && safe.Keys !! RegistrationDenied
    ensures var after := before + PricingChanges(before, safe, now).value;
            && (k in RegistrationDenied && k !in FeeFields ==> (k in after <==> k in before) && (k in before ==> after[k] == before[k]))
            && (k in FeeFields && !TouchesPricing(safe) ==> (k in after <==> k in before) && (k in before ==> after[k] == before[k]))
            && (TouchesPricing(safe) ==> "feeAmount" in after && after["feeAmount"] != Num(1.0))
  {
    var changes := PricingChanges(before, safe, now).value;
    if k in RegistrationDenied && k !in FeeFields {
      assert k !in changes;
    }
  }

  /** With the corrected sanitizer, what a successful update stores is the
      sanitized, repriced changes spread over the stored document. */
  lemma IntendedUpdateIsMerge(docs: map<string, Doc>, id: string, updates: JsValue, now: int, verdict: Verdict)
    requires UpdateOutcomeIntended(docs, id, updates, now, verdict).Ok?
    ensures id in docs && PricingChanges(docs[id], Sanitized(Entries(updates), RegistrationDenied), now).Ok?
    ensures UpdateOutcomeIntended(docs, id, updates, now, verdict).value ==
              docs[id] + PricingChanges(docs[id], Sanitized(Entries(updates), RegistrationDenied), now).value
  {
    PlainBodySanitized(updates, RegistrationDenied);
    var safe := Sanitized(Entries(updates), RegistrationDenied);
    var changes := PricingChanges(docs[id], safe, now).value;
    assert UpdateOutcomeIntended(docs, id, updates, now, verdict).value == ApplyUpdate(docs[id], changes);
    ChangesArePlain(safe, changes);
    PlainUpdateIsMerge(docs[id], changes);
  }

  /** The sanitized changes, repriced or not, name plain paths only. */
  lemma ChangesArePlain(safe: Doc, changes: Doc)
    requires forall k :: k in safe ==> PlainKey(k)
    requires changes.Keys == safe.Keys || changes.Keys == safe.Keys + FeeFields
    ensures forall k :: k in changes ==> PlainKey(k)
  {
    forall k | k in changes
      ensures PlainKey(k)
    {
      if k !in safe {
        assert k == "incomeGroup" || k == "feeAmount" || k == "feePeriod" || k == "feeBreakdown";
        assert PlainKey("incomeGroup") && PlainKey("feeAmount") && PlainKey("feePeriod") && PlainKey("feeBreakdown");
      }
    }
  }

  /** A found registration and a body that is not `null`: the update is the
      write of the sanitized body. */
  lemma FoundStores(docs: map<string, Doc>, id: string, updates: JsValue, now: int, verdict: Verdict)
    requires IsObjectId(id) && id in docs && !updates.Null?
    ensures UpdateOutcome(docs, id, updates, now, verdict) == StoreChanges(docs[id], Allowed(Entries(updates), RegistrationDenied), now, verdict)
  {
  }

  /** Updates that name none of the pricing inputs are written as they are. */
  lemma UnpricedStore(current: Doc, safe: Doc, now: int, verdict: Verdict)
    requires !TouchesPricing(safe)
    ensures var r := StoreChanges(current, safe, now, verdict);
            (r.Ok? <==> verdict(ApplyUpdate(current, safe)).None?) && (r.Ok? ==> r.value == ApplyUpdate(current, safe))
  {
    assert PricingChanges(current, safe, now) == Ok(safe);
  }

  /** As written, `updateRegistrationById` takes
      `{ $set: { paymentStatus: "PAID" } }`: the sanitizer lets it through, it
      names none of the pricing inputs, and the database marks the
      registration paid. */
  lemma UpdateMarksPaidAsWritten(docs: map<string, Doc>, id: string, now: int, verdict: Verdict)
    requires IsObjectId(id) && id in docs
    ensures var r := UpdateOutcome(docs, id, Obj(map["$set" := Obj(map["paymentStatus" := Str("PAID")])]), now, verdict);
            var marked := docs[id]["paymentStatus" := Str("PAID")];
            (r.Ok? <==> verdict(marked).None?) && (r.Ok? ==> r.value == marked)
  {
    var u := map["$set" := Obj(map["paymentStatus" := Str("PAID")])];
    FoundStores(docs, id, Obj(u), now, verdict);
    SetPassesRegistrationSanitizer(u);
    MarkedStore(docs[id], now, verdict);
  }

  /** The registration sanitizer keeps a `$set` operand whole. */
  lemma SetPassesRegistrationSanitizer(u: Doc)
    requires u == map["$set" := Obj(map["paymentStatus" := Str("PAID")])]
    ensures Allowed(Entries(Obj(u)), RegistrationDenied) == u
  {
    assert "$set" !in RegistrationDenied;
  }

  /** Written as it is, `{ $set: { paymentStatus: "PAID" } }` marks the document paid. */
  lemma MarkedStore(current: Doc, now: int, verdict: Verdict)
    ensures var r := StoreChanges(current, map["$set" := Obj(map["paymentStatus" := Str("PAID")])], now, verdict);
            var marked := current["paymentStatus" := Str("PAID")];
            (r.Ok? <==> verdict(marked).None?) && (r.Ok? ==> r.value == marked)
  {
    var u := map["$set" := Obj(map["paymentStatus" := Str("PAID")])];
    assert !TouchesPricing(u);
    UnpricedStore(current, u, now, verdict);
    SetOperandApplied(current, "paymentStatus", Str("PAID"));
  }

  /** The corrected update drops the `$set` operand of the same request and
      leaves the registration as it was. */
  lemma IntendedUpdateIgnoresSetOperand(docs: map<string, Doc>, id: string, now: int, verdict: Verdict)
    requires IsObjectId(id) && id in docs
    ensures var r := UpdateOutcomeIntended(docs, id, Obj(map["$set" := Obj(map["paymentStatus" := Str("PAID")])]), now, verdict);
            (r.Ok? <==> verdict(docs[id]).None?) && (r.Ok? ==> r.value == docs[id])
  {
    var u := map["$set" := Obj(map["paymentStatus" := Str("PAID")])];
    assert PlainBody(Obj(u)) == Obj(map[]) by {
      assert !PlainKey("$set");
    }
    FoundStores(docs, id, Obj(map[]), now, verdict);
    EmptyStore(docs[id], now, verdict);
  }

  /** An empty update writes the document back as it was. */
  lemma EmptyStore(current: Doc, now: int, verdict: Verdict)
    ensures var r := StoreChanges(current, Allowed(Entries(Obj(map[])), RegistrationDenied), now, verdict);
            (r.Ok? <==> verdict(current).None?) && (r.Ok? ==> r.value == current)
  {
    var plain: Doc := map[];
    assert Allowed(Entries(Obj(map[])), RegistrationDenied) == plain;
    assert !TouchesPricing(plain);
    UnpricedStore(current, plain, now, verdict);
    assert ApplyUpdate(current, plain) == current;
  }

  /** Every amount in the fee table is above the test amount 1. */
  lemma FeesAboveTestAmount(conferenceType: JsValue, category: JsValue, incomeGroup: IncomeGroup, now: int)
    ensures var fee := CalculateFee(conferenceType, category, incomeGroup, now);
            fee.Ok? && fee.value.Some? && fee.value.value.amount.Some? ==> fee.value.value.amount.value > 1
  {
    if conferenceType != Str("rehab") && incomeGroup in FullRules {
      var table := FullRules[incomeGroup];
      assert forall c :: c in table ==> table[c].early > 1 && table[c].late > 1;
    }
  }
}
