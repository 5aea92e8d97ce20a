/**
 * Pricing and input hygiene for conference registrations: the country
 * income-group table, the early/late fee period, the fee table, the
 * required-field check, the public registration id and the update sanitizer.
 */
module RegistrationHelper {
  import opened Wrappers
  import opened Strings
  import opened Js
  import opened Common
  import opened Objects

  /** What an income-group lookup can yield: one of the three groups, or a
      member every plain object inherits (`COUNTRY_INCOME_GROUPS["toString"]`
      is a function, and truthy). */
  datatype IncomeGroup = Lower | Upper | Local | Member(key: string)
  {
    /** `String(group)`: the group's name, or the text of the inherited member. */
    function Name(): string {
      match this
      case Lower => "LOWER"
      case Upper => "UPPER"
      case Local => "LOCAL"
      case Member(key) => InheritedText(key)
    }
  }

  /** A representative part of the country → income-group table; every value
      of the full table is "LOWER" or "UPPER". */
  const CountryIncomeGroups: map<string, IncomeGroup> := map[
    "Afghanistan" := Lower, "Somalia" := Lower, "India" := Lower, "Sri Lanka" := Lower,
    "Brazil" := Upper, "Japan" := Upper, "Germany" := Upper, "United States" := Upper]

  /** `COUNTRY_INCOME_GROUPS[country] || null`: the property key is
      `String(country)`, and a key the table lacks still finds what the table
      inherits from `Object.prototype`. */
  function RawIncomeGroup(country: JsValue): (g: Option<IncomeGroup>)
    ensures ToStr(country) in CountryIncomeGroups ==> g == Some(CountryIncomeGroups[ToStr(country)])
    ensures ToStr(country) !in CountryIncomeGroups && ToStr(country) in ObjectPrototypeKeys ==> g == Some(Member(ToStr(country)))
    ensures g.None? <==> ToStr(country) !in CountryIncomeGroups && ToStr(country) !in ObjectPrototypeKeys
  {
    var key := ToStr(country);
    if key in CountryIncomeGroups then Some(CountryIncomeGroups[key])
    else if key in ObjectPrototypeKeys then Some(Member(key))
    else None
  }

  /** `determineIncomeGroup`: the host country is priced as LOCAL whatever the
      table says; any other country keeps its table group. */
  function DetermineIncomeGroup(country: JsValue, rawGroup: Option<IncomeGroup>): (g: Option<IncomeGroup>)
    ensures country == Str("Sri Lanka") ==> g == Some(Local)
    ensures country != Str("Sri Lanka") ==> g == rawGroup
  {
    if country == Str("Sri Lanka") then Some(Local) else rawGroup
  }

  datatype Period = Early | Late
  {
    function Name(): string {
      if Early? then "early" else "late"
    }
  }

  /** 2026-09-30T23:59:59Z in milliseconds since the epoch. */
  const EarlyEnd: int := 1790812799000

  /** `getFeePeriod()` at time `now` (milliseconds). */
  function FeePeriod(now: int): (p: Period)
    ensures p == Early <==> now <= EarlyEnd
  {
    if now <= EarlyEnd then Early else Late
  }

  /** One cell of the fee table: the early and the late amount. */
  datatype Fees = Fees(early: int, late: int)
  {
    function At(p: Period): int {
      if p == Early then early else late
    }
  }

  /** `FEE_RULES.full`: income group → participant category → fees. An
      inherited member has no table: `FEE_RULES.full[String(member)]` is
      `undefined`. */
  const FullRules: map<IncomeGroup, map<string, Fees>> := map[
    Lower := map["physician" := Fees(100, 150), "non-physician" := Fees(50, 75)],
    Upper := map["physician" := Fees(250, 300), "non-physician" := Fees(100, 150)],
    Local := map["physician" := Fees(30, 50), "non-physician" := Fees(20, 30)]]

  /** The participant categories every fee table prices. */
  const PricedCategories: set<string> := {"physician", "non-physician"}

  /** `FEE_RULES.rehab.ALL` */
  const RehabAll: Fees := Fees(15, 40)

  /** In every cell of the table the late fee
      is at least the early fee. */
  lemma LateFeesNotLower()
    ensures RehabAll.early <= RehabAll.late
    ensures forall g, c :: g in FullRules && c in FullRules[g] ==> FullRules[g][c].early <= FullRules[g][c].late
  {
  }

  /** `{ amount, period }` returned by `calculateFee`; the amount is
      `undefined` (`None`) when the category names an inherited member. */
  datatype FeeData = FeeData(amount: Option<int>, period: Period)

  /** `calculateFee`: the rehab programme has one fee per period for everyone;
      otherwise the income group selects a table (none: `null`) and the
      participant category a cell. A category the table lacks reads a
      property of `undefined`, which throws, unless the table inherits it: an
      inherited member has no `early` or `late`, so the amount is `undefined`. */
  function CalculateFee(conferenceType: JsValue, participantCategory: JsValue, incomeGroup: IncomeGroup, now: int): (r: Outcome<Option<FeeData>>)
    ensures conferenceType == Str("rehab") ==> r == Ok(Some(FeeData(Some(RehabAll.At(FeePeriod(now))), FeePeriod(now))))
    ensures conferenceType != Str("rehab") && incomeGroup !in FullRules ==> r == Ok(None)
    ensures conferenceType != Str("rehab") && incomeGroup in FullRules ==>
              (r.Ok? <==> ToStr(participantCategory) in PricedCategories || ToStr(participantCategory) in ObjectPrototypeKeys)
    ensures r.Ok? && r.value.Some? ==> r.value.value.period == FeePeriod(now)
    ensures r.Ok? && r.value.Some? && conferenceType != Str("rehab") ==>
              && (r.value.value.amount.None? <==> ToStr(participantCategory) !in PricedCategories)
              && (r.value.value.amount.Some? ==>
                    r.value.value.amount.value == FullRules[incomeGroup][ToStr(participantCategory)].At(FeePeriod(now)))
    ensures r.Err? ==> r.error.ScriptError? && r.error.name == "TypeError"
  {
    var period := FeePeriod(now);
    if conferenceType == Str("rehab") then Ok(Some(FeeData(Some(RehabAll.At(period)), period)))
    else if incomeGroup !in FullRules then Ok(None)
    else
      var table := FullRules[incomeGroup];
      var category := ToStr(participantCategory);
      assert table.Keys == PricedCategories;
      if category in table then Ok(Some(FeeData(Some(table[category].At(period)), period)))
      else if category in ObjectPrototypeKeys then Ok(Some(FeeData(None, period)))
      else Err(ScriptError("TypeError", "Cannot read properties of undefined (reading '" + period.Name() + "')"))
  }

  /** A fee never drops as time passes: the same selection costs at least as
      much later as it did earlier. */
  lemma FeeNeverDecreases(conferenceType: JsValue, participantCategory: JsValue, incomeGroup: IncomeGroup, earlier: int, later: int)
    requires earlier <= later
    requires CalculateFee(conferenceType, participantCategory, incomeGroup, earlier).Ok?
    ensures CalculateFee(conferenceType, participantCategory, incomeGroup, later).Ok?
    ensures var (e, l) := (CalculateFee(conferenceType, participantCategory, incomeGroup, earlier).value,
                           CalculateFee(conferenceType, participantCategory, incomeGroup, later).value);
            e.Some? && e.value.amount.Some? ==> l.Some? && l.value.amount.Some? && e.value.amount.value <= l.value.amount.value
  {
    LateFeesNotLower();
    if conferenceType != Str("rehab") && incomeGroup in FullRules {
      var category := ToStr(participantCategory);
      if category in FullRules[incomeGroup] {
        assert FullRules[incomeGroup][category].early <= FullRules[incomeGroup][category].late;
      }
    }
  }

  /** The income group the service derives has a fee table exactly when the
      country is the host country or one the table lists; it is an inherited
      member, with no fee table, exactly when the country's text names a
      property of `Object.prototype` (and it is not the host country). */
  lemma DerivedGroupsArePriced(country: JsValue)
    ensures var g := DetermineIncomeGroup(country, RawIncomeGroup(country));
            g.Some? && g.value in FullRules <==> country == Str("Sri Lanka") || ToStr(country) in CountryIncomeGroups
    ensures var g := DetermineIncomeGroup(country, RawIncomeGroup(country));
            g.Some? && g.value.Member? <==> country != Str("Sri Lanka") && ToStr(country) !in CountryIncomeGroups && ToStr(country) in ObjectPrototypeKeys
  {
    var key := ToStr(country);
    if key in CountryIncomeGroups {
      assert CountryIncomeGroups[key] in {Lower, Upper};
    }
  }

  /** The listed fields whose value in `body` is falsy, in the order listed. */
  function Missing(body: JsValue, fields: seq<string>): (r: seq<string>)
    ensures |r| <= |fields|
    ensures forall f :: f in r <==> f in fields && !Truthy(Get(body, f))
  {
    if |fields| == 0 then []
    else if !Truthy(Get(body, fields[0])) then [fields[0]] + Missing(body, fields[1..])
    else Missing(body, fields[1..])
  }

  /** Missing fields keep the order of the list they were checked in. */
  lemma {:induction false} MissingKeepsOrder(body: JsValue, a: seq<string>, b: seq<string>)
    ensures Missing(body, a + b) == Missing(body, a) + Missing(body, b)
  {
    if |a| > 0 {
      var ab := a + b;
      assert ab[0] == a[0];
      assert ab[1..] == a[1..] + b;
      MissingKeepsOrder(body, a[1..], b);
      var tail := Missing(body, a[1..]) + Missing(body, b);
      if Truthy(Get(body, a[0])) {
        assert Missing(body, ab) == tail;
      } else {
        assert Missing(body, ab) == [a[0]] + tail;
        assert [a[0]] + tail == ([a[0]] + Missing(body, a[1..])) + Missing(body, b);
      }
    } else {
      assert a + b == b;
    }
  }

  /** `requireFields(body, fields)`: reading a field of `null`/`undefined`
      throws a TypeError; otherwise a plain Error lists every missing field,
      separated by ", ". */
  function RequireFields(body: JsValue, fields: seq<string>): (r: Outcome<()>)
    ensures r.Ok? <==> (|fields| == 0 || !IsNullish(body)) && forall f :: f in fields ==> Truthy(Get(body, f))
    ensures r.Err? && !IsNullish(body) ==>
              r.error == ScriptError("Error", "Missing required fields: " + Join(Missing(body, fields), ", "))
    ensures r.Err? && IsNullish(body) ==> r.error.ScriptError? && r.error.name == "TypeError"
  {
    if |fields| > 0 && IsNullish(body) then
      Err(ScriptError("TypeError", "Cannot read properties of " + ToStr(body) + " (reading '" + fields[0] + "')"))
    else
      var missing := Missing(body, fields);
      if |missing| > 0 then
        assert missing[0] in missing;
        Err(ScriptError("Error", "Missing required fields: " + Join(missing, ", ")))
      else Ok(())
  }

  /** The id alphabet: upper-case letters and digits without I, L, O, 0 and 1. */
  const IdAlphabet: string := "ABCDEFGHJKMNPQRSTUVWXYZ23456789"

  /** `Math.floor(r * alphabet.length)` for a draw `r` of `Math.random()`. */
  function AlphabetIndex(r: real): (k: nat)
    requires 0.0 <= r < 1.0
    ensures k < |IdAlphabet|
  {
    (r * |IdAlphabet| as real).Floor
  }

  /** `generateRandomId()`, given the eight draws of `Math.random()` it makes. */
  method GenerateRandomId(draws: seq<real>) returns (id: string)
    requires |draws| == 8 && forall i :: 0 <= i < 8 ==> 0.0 <= draws[i] < 1.0
    ensures |id| == 8
    ensures forall i :: 0 <= i < 8 ==> id[i] == IdAlphabet[AlphabetIndex(draws[i])]
    ensures forall i :: 0 <= i < 8 ==> id[i] in IdAlphabet && id[i] !in "ILO01"
  {
    id := "";
    for i := 0 to 8
      invariant |id| == i
      invariant forall j :: 0 <= j < i ==> id[j] == IdAlphabet[AlphabetIndex(draws[j])]
    {
      id := id + [IdAlphabet[AlphabetIndex(draws[i])]];
    }
  }

  /** Keys a client may never set on a registration: the id, the pricing, the
      payment state and the database's own fields. */
  const RegistrationDenied: set<string> := {
    "registrationId", "incomeGroup", "feeAmount", "feePeriod", "feeBreakdown", "paymentStatus",
    "paymentReference", "paymentProvider", "createdAt", "updatedAt", "__v", "_id"}

  /** `sanitizeRegistrationUpdates(updates)`: an omitted argument is `{}`;
      `Object.entries(null)` throws. Only the listed keys are dropped, so an
      update operator such as `$set` passes (`Objects.DenyListMissesOperators`). */
  method SanitizeRegistrationUpdates(updates: JsValue) returns (r: Outcome<map<string, JsValue>>)
    ensures r.Ok? <==> !updates.Null?
    ensures r.Ok? ==> r.value == Allowed(Entries(updates), RegistrationDenied)
    ensures r.Err? ==> r.error == ScriptError("TypeError", "Cannot convert undefined or null to object")
  {
    if updates.Null? {
      return Err(ScriptError("TypeError", "Cannot convert undefined or null to object"));
    }
    var safe := CopyAllowed(Entries(updates), RegistrationDenied);
    return Ok(safe);
  }
}
