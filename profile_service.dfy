/**
 * The presenting author's profile: one per user, created once with its
 * required fields and the user's own email, then edited through a sanitizer
 * that keeps identity fields fixed. Profiles are stored by the owner's id;
 * the database's verdict on a write is a supplied function.
 */
module ProfileService {
  import opened Wrappers
  import opened Strings
  import opened Js
  import opened Common
  import opened Objects
  import opened RegistrationHelper

  type Doc = map<string, JsValue>

  /** A stored profile: the schema's paths. */
  datatype Profile = Profile(
    userId: JsValue, title: JsValue, firstName: JsValue, lastName: JsValue, email: JsValue, country: JsValue,
    affiliation: JsValue, department: JsValue, city: JsValue, designation: JsValue)

  /** What the database throws for a write of a profile, if anything. */
  type Verdict = Profile -> Option<Error>

  /** Keys a profile update may not touch. */
  const ProfileDenied: set<string> := {
    "userId", "title", "firstName", "lastName", "email", "country", "_id", "__v", "createdAt", "updatedAt"}

  /** `sanitizeProfileUpdates(updates)`: a falsy argument is `{}`. Only the
      listed keys are dropped, so an update operator such as `$set` passes
      (`Objects.DenyListMissesOperators`). */
  method SanitizeProfileUpdates(updates: JsValue) returns (safe: Doc)
    ensures !Truthy(updates) ==> safe == map[]
    ensures Truthy(updates) ==> safe == Allowed(Entries(updates), ProfileDenied)
  {
    var source := if Truthy(updates) then updates else Obj(map[]);
    safe := CopyAllowed(Entries(source), ProfileDenied);
  }

  /** `ensureAuthUser(user)`: a missing user or id is unauthenticated, a
      missing email a bad request. */
  function EnsureAuthUser(user: JsValue): (r: Outcome<()>)
    ensures r.Ok? <==> Truthy(user) && Truthy(Get(user, "_id")) && Truthy(Get(user, "email"))
    ensures !Truthy(user) ==> r == Err(Http(401, "Not authenticated"))
    ensures Truthy(user) && !Truthy(Get(user, "_id")) ==> r == Err(Http(401, "Invalid auth user (missing _id)"))
    ensures Truthy(user) && Truthy(Get(user, "_id")) && !Truthy(Get(user, "email")) ==>
              r == Err(Http(400, "Invalid auth user (missing email)"))
  {
    if !Truthy(user) then Err(Http(401, "Not authenticated"))
    else if !Truthy(Get(user, "_id")) then Err(Http(401, "Invalid auth user (missing _id)"))
    else if !Truthy(Get(user, "email")) then Err(Http(400, "Invalid auth user (missing email)"))
    else Ok(())
  }

  /** The key under which a user's profile is stored. */
  function OwnerKey(user: JsValue): string {
    ToStr(Get(user, "_id"))
  }

  const ProfileRequired: seq<string> := ["title", "firstName", "lastName", "country"]

  /** The document `createMyProfile` stores: the owner and email from the
      authenticated user, the four required fields from the payload, and the
      four optional ones defaulting to "". */
  function NewProfile(user: JsValue, payload: JsValue): (p: Profile)
    ensures p.userId == Get(user, "_id") && p.email == Get(user, "email")
    ensures p.title == Get(payload, "title") && p.firstName == Get(payload, "firstName")
    ensures p.lastName == Get(payload, "lastName") && p.country == Get(payload, "country")
    ensures !Truthy(Get(payload, "city")) ==> p.city == Str("")
    ensures Truthy(Get(payload, "city")) ==> p.city == Get(payload, "city")
  {
    Profile(
      Get(user, "_id"), Get(payload, "title"), Get(payload, "firstName"), Get(payload, "lastName"),
      Get(user, "email"), Get(payload, "country"),
      Or(Get(payload, "affiliation"), Str("")), Or(Get(payload, "department"), Str("")),
      Or(Get(payload, "city"), Str("")), Or(Get(payload, "designation"), Str("")))
  }

  /** The field a sanitized update leaves to a path: the new value when the
      update has that key, the old one otherwise. */
  function Pick(safe: Doc, key: string, current: JsValue): JsValue {
    if key in safe then safe[key] else current
  }

  /** A profile update that names no denied key: the editable schema paths
      take the supplied values, keys outside the schema are dropped. This is
      what the database makes of the corrected sanitizer's output
      (`ApplyIsDatabaseWrite`). */
  function Apply(p: Profile, safe: Doc): (q: Profile)
    ensures q.userId == p.userId && q.title == p.title && q.firstName == p.firstName
    ensures q.lastName == p.lastName && q.email == p.email && q.country == p.country
    ensures "city" in safe ==> q.city == safe["city"]
    ensures "city" !in safe ==> q.city == p.city
  {
    p.(affiliation := Pick(safe, "affiliation", p.affiliation),
       department := Pick(safe, "department", p.department),
       city := Pick(safe, "city", p.city),
       designation := Pick(safe, "designation", p.designation))
  }

  /** The profile's schema paths. */
  const ProfilePaths: set<string> := {
    "userId", "title", "firstName", "lastName", "email", "country", "affiliation", "department", "city", "designation"}

  /** The value a stored profile holds at one of its paths. */
  function PathValue(p: Profile, path: string): JsValue {
    match path
    case "userId" => p.userId
    case "title" => p.title
    case "firstName" => p.firstName
    case "lastName" => p.lastName
    case "email" => p.email
    case "country" => p.country
    case "affiliation" => p.affiliation
    case "department" => p.department
    case "city" => p.city
    case _ => p.designation
  }

  /** A stored profile as a document of its schema paths. */
  function ProfileDoc(p: Profile): Doc {
    map path | path in ProfilePaths :: PathValue(p, path)
  }

  /** The profile the database keeps of a document: its schema paths, any
      other key dropped. */
  function ProfileOf(d: Doc): Profile {
    Profile(Get(Obj(d), "userId"), Get(Obj(d), "title"), Get(Obj(d), "firstName"), Get(Obj(d), "lastName"),
            Get(Obj(d), "email"), Get(Obj(d), "country"), Get(Obj(d), "affiliation"),
            Get(Obj(d), "department"), Get(Obj(d), "city"), Get(Obj(d), "designation"))
  }

  /** `findOneAndUpdate` on a stored profile: the database's update of the
      stored paths, then the schema's paths kept. A path the update sets
      takes the set value, a path it unsets is left undefined, any other
      keeps its value. */
  function Write(p: Profile, u: Doc): Profile {
    ProfileOf(ApplyUpdate(ProfileDoc(p), u))
  }

  /** What `Write` leaves at each schema path. */
  lemma WritePaths(p: Profile, u: Doc)
    ensures forall path :: path in ProfilePaths ==>
              PathValue(Write(p, u), path) ==
                if path in SetPaths(u) then SetPaths(u)[path]
                else if path in UnsetPaths(u) then Undefined else PathValue(p, path)
  {
    var d := ApplyUpdate(ProfileDoc(p), u);
    forall path | path in ProfilePaths
      ensures PathValue(ProfileOf(d), path) ==
                if path in SetPaths(u) then SetPaths(u)[path]
                else if path in UnsetPaths(u) then Undefined else PathValue(p, path)
    {
      ReadBack(d, path);
      assert path in ProfileDoc(p) && ProfileDoc(p)[path] == PathValue(p, path);
    }
  }

  /** A schema path of the profile the database keeps is that path of the document. */
  lemma ReadBack(d: Doc, path: string)
    requires path in ProfilePaths
    ensures PathValue(ProfileOf(d), path) == Get(Obj(d), path)
  {
  }

  /** `Apply` is what `findOneAndUpdate` does with the corrected sanitizer's
      output: the database's update of the stored paths, then the schema's
      paths kept. */
  lemma ApplyIsDatabaseWrite(p: Profile, entries: Doc)
    ensures var safe := Sanitized(entries, ProfileDenied);
            Apply(p, safe) == Write(p, safe)
  {
    var safe := Sanitized(entries, ProfileDenied);
    PlainUpdateIsMerge(ProfileDoc(p), safe);
    MergedProfile(p, safe);
  }

  lemma MergedProfile(p: Profile, safe: Doc)
    requires forall k :: k in safe ==> k !in ProfileDenied
    ensures ProfileOf(ProfileDoc(p) + safe) == Apply(p, safe)
  {
    var d := ProfileDoc(p) + safe;
    forall path | path in ProfilePaths
      ensures Get(Obj(d), path) == if path in safe then safe[path] else PathValue(p, path)
    {
    }
  }

  /** As written, `updateMyProfile` takes `{ $set: { email } }`: the
      sanitizer lets it through, the update is not empty, so it is written,
      and the stored profile takes the new email. */
  lemma UpdateSetsEmailAsWritten(profiles: map<string, Profile>, user: JsValue, email: JsValue, verdict: Verdict)
    requires EnsureAuthUser(user).Ok? && OwnerKey(user) in profiles
    ensures var r := UpdateOutcome(profiles, user, Obj(map["$set" := Obj(map["email" := email])]), verdict);
            var changed := profiles[OwnerKey(user)].(email := email);
            && (r.Ok? <==> verdict(changed).None?)
            && (r.Ok? ==> r.value == (profiles[OwnerKey(user) := changed], changed))
  {
    SetPassesProfileSanitizer(email);
    SetWritesEmail(profiles[OwnerKey(user)], email);
  }

  lemma SetPassesProfileSanitizer(email: JsValue)
    ensures Allowed(Entries(Obj(map["$set" := Obj(map["email" := email])])), ProfileDenied) == map["$set" := Obj(map["email" := email])]
  {
    assert "$set" !in ProfileDenied;
  }

  lemma SetWritesEmail(p: Profile, email: JsValue)
    ensures Write(p, map["$set" := Obj(map["email" := email])]) == p.(email := email)
  {
    SetOperandApplied(ProfileDoc(p), "email", email);
    KeepsOtherPaths(p, email);
  }

  /** The stored profile with only its email replaced. */
  lemma KeepsOtherPaths(p: Profile, email: JsValue)
    ensures ProfileOf(ProfileDoc(p)["email" := email]) == p.(email := email)
  {
    var d := ProfileDoc(p);
    assert d["userId"] == p.userId && d["title"] == p.title && d["firstName"] == p.firstName;
    assert d["lastName"] == p.lastName && d["country"] == p.country && d["affiliation"] == p.affiliation;
    assert d["department"] == p.department && d["city"] == p.city && d["designation"] == p.designation;
  }

  /** The corrected update drops the same `$set` operand and is refused as
      empty. */
  lemma IntendedUpdateRefusesSetOperand(profiles: map<string, Profile>, user: JsValue, email: JsValue, verdict: Verdict)
    requires EnsureAuthUser(user).Ok? && OwnerKey(user) in profiles
    ensures UpdateOutcomeIntended(profiles, user, Obj(map["$set" := Obj(map["email" := email])]), verdict)
              == Err(Http(400, "No editable fields provided."))
  {
    assert !PlainKey("$set");
    assert PlainBody(Obj(map["$set" := Obj(map["email" := email])])) == Obj(map[]);
    assert Allowed(Entries(Obj(map[])), ProfileDenied) == map[];
  }

  /** The catch block of `createMyProfile`. A plain Error, such as the one
      `requireFields` throws, becomes a 500. */
  function CreateFailure(e: Error): (r: Error)
    ensures r.HttpError?
    ensures e.DuplicateKey? ==> r == Http(409, "Profile already exists.")
    ensures e.HttpError? ==> r == e
    ensures e.ValidationFailed? ==> r == HttpError(400, "Invalid profile data.", e.errors)
    ensures e.ScriptError? ==> r == Http(500, "Failed to create profile.")
  {
    match e
    case DuplicateKey(_) => Http(409, "Profile already exists.")
    case HttpError(_, _, _) => e
    case ValidationFailed(_, errors) => HttpError(400, "Invalid profile data.", errors)
    case ScriptError(_, _) => Http(500, "Failed to create profile.")
  }

  /** `createMyProfile(user, payload)` over the stored profiles: the
      profiles afterwards and the created document, or the error. */
  function CreateMyProfile(profiles: map<string, Profile>, user: JsValue, payload: JsValue, verdict: Verdict): (r: Outcome<(map<string, Profile>, Profile)>)
    ensures r.Err? ==> r.error.HttpError?
    ensures r.Ok? ==> EnsureAuthUser(user).Ok? && RequireFields(payload, ProfileRequired).Ok?
    ensures r.Ok? ==> OwnerKey(user) !in profiles
    ensures r.Ok? ==> r.value.0 == profiles[OwnerKey(user) := r.value.1] && r.value.1 == NewProfile(user, payload)
    ensures EnsureAuthUser(user).Ok? && RequireFields(payload, ProfileRequired).Ok? && OwnerKey(user) in profiles ==>
              r == Err(Http(409, "Profile already exists."))
  {
    match EnsureAuthUser(user)
    case Err(e) => Err(CreateFailure(e))
    case Ok(_) =>
      match RequireFields(payload, ProfileRequired)
      case Err(e) => Err(CreateFailure(e))
      case Ok(_) =>
        if OwnerKey(user) in profiles then Err(CreateFailure(Http(409, "Profile already exists.")))
        else
          var doc := NewProfile(user, payload);
          match verdict(doc)
          case Some(e) => Err(CreateFailure(e))
          case None => Ok((profiles[OwnerKey(user) := doc], doc))
  }

  /** One profile per user: creating a second time for the same user fails,
      whatever the payload. */
  lemma SecondCreateConflicts(profiles: map<string, Profile>, user: JsValue, first: JsValue, second: JsValue, verdict: Verdict)
    requires CreateMyProfile(profiles, user, first, verdict).Ok?
    ensures var after := CreateMyProfile(profiles, user, first, verdict).value.0;
            CreateMyProfile(after, user, second, verdict).Err?
  {
    var after := CreateMyProfile(profiles, user, first, verdict).value.0;
    assert OwnerKey(user) in after;
    match EnsureAuthUser(user) {
      case Ok(_) =>
        match RequireFields(second, ProfileRequired) {
          case Ok(_) =>
            assert CreateMyProfile(after, user, second, verdict) == Err(Http(409, "Profile already exists."));
          case Err(e) =>
        }
    }
  }

  /** `updateMyProfile(user, updates)` over the stored profiles: the profiles
      afterwards and the updated document, or the error. */
  function UpdateOutcome(profiles: map<string, Profile>, user: JsValue, updates: JsValue, verdict: Verdict): (r: Outcome<(map<string, Profile>, Profile)>)
    ensures r.Err? ==> r.error.HttpError?
    ensures EnsureAuthUser(user).Err? ==> r == Err(EnsureAuthUser(user).error)
    ensures EnsureAuthUser(user).Ok? && OwnerKey(user) !in profiles ==> r == Err(Http(404, "Profile not found. Create it first."))
    ensures EnsureAuthUser(user).Ok? && OwnerKey(user) in profiles && !Truthy(updates) ==>
              r == Err(Http(400, "No editable fields provided."))
    ensures EnsureAuthUser(user).Ok? && OwnerKey(user) in profiles && Truthy(updates) ==>
              var safe := Allowed(Entries(updates), ProfileDenied);
              var updated := Write(profiles[OwnerKey(user)], safe);
              && (|safe| == 0 ==> r == Err(Http(400, "No editable fields provided.")))
              && (|safe| != 0 ==> (r.Ok? <==> verdict(updated).None?))
              && (|safe| != 0 && r.Err? ==> r.error == CatchFailure(verdict(updated).value, "Invalid update data.", "Failed to update profile."))
    ensures r.Ok? ==> OwnerKey(user) in profiles && verdict(r.value.1).None?
    ensures r.Ok? ==>
              && Truthy(updates)
              && r.value.1 == Write(profiles[OwnerKey(user)], Allowed(Entries(updates), ProfileDenied))
              && r.value.0 == profiles[OwnerKey(user) := r.value.1]
  {
    match EnsureAuthUser(user)
    case Err(e) => Err(CatchFailure(e, "Invalid update data.", "Failed to update profile."))
    case Ok(_) =>
      var key := OwnerKey(user);
      if key !in profiles then Err(Http(404, "Profile not found. Create it first."))
      else
        var safe := if Truthy(updates) then Allowed(Entries(updates), ProfileDenied) else map[];
        if |safe| == 0 then Err(Http(400, "No editable fields provided."))
        else
          var updated := Write(profiles[key], safe);
          match verdict(updated)
          case Some(e) => Err(CatchFailure(e, "Invalid update data.", "Failed to update profile."))
          case None => Ok((profiles[key := updated], updated))
  }

  /** `updateMyProfile`: the checks of `UpdateOutcome`, with the sanitizer's loop. */
  method UpdateMyProfile(profiles: map<string, Profile>, user: JsValue, updates: JsValue, verdict: Verdict)
    returns (r: Outcome<(map<string, Profile>, Profile)>)
    ensures r == UpdateOutcome(profiles, user, updates, verdict)
  {
    var auth := EnsureAuthUser(user);
    if auth.Err? {
      return Err(CatchFailure(auth.error, "Invalid update data.", "Failed to update profile."));
    }
    var key := OwnerKey(user);
    if key !in profiles {
      return Err(Http(404, "Profile not found. Create it first."));
    }
    var safe := SanitizeProfileUpdates(updates);
    if |safe| == 0 {
      return Err(Http(400, "No editable fields provided."));
    }
    var updated := Write(profiles[key], safe);
    var failure := verdict(updated);
    if failure.Some? {
      return Err(CatchFailure(failure.value, "Invalid update data.", "Failed to update profile."));
    }
    return Ok((profiles[key := updated], updated));
  }

  /** `updateMyProfile` with the corrected sanitizer: the code as written,
      handed the request's plain body. */
  function UpdateOutcomeIntended(profiles: map<string, Profile>, user: JsValue, updates: JsValue, verdict: Verdict): (r: Outcome<(map<string, Profile>, Profile)>)
    ensures r.Ok? ==> OwnerKey(user) in profiles && verdict(r.value.1).None?
  {
    UpdateOutcome(profiles, user, PlainBody(updates), verdict)
  }

  /** With the corrected sanitizer an update changes only the caller's own
      profile, never its owner, name, title, email or country, and sets a
      supplied editable field. */
  lemma UpdateKeepsIdentity(profiles: map<string, Profile>, user: JsValue, updates: JsValue, verdict: Verdict)
    requires UpdateOutcomeIntended(profiles, user, updates, verdict).Ok?
    ensures OwnerKey(user) in profiles
    ensures var (after, doc) := UpdateOutcomeIntended(profiles, user, updates, verdict).value;
            var before := profiles[OwnerKey(user)];
            && after == profiles[OwnerKey(user) := doc]
            && doc.userId == before.userId && doc.email == before.email
            && doc.title == before.title && doc.firstName == before.firstName
            && doc.lastName == before.lastName && doc.country == before.country
            && ("city" in Entries(updates) ==> doc.city == Entries(updates)["city"])
  {
    IntendedUpdateApplies(profiles, user, updates, verdict);
    var safe := Sanitized(Entries(updates), ProfileDenied);
    if "city" in Entries(updates) {
      CityIsEditable();
      assert "city" in safe;
    }
  }

  /** With the corrected sanitizer, what a successful update stores is
      `Apply` of the sanitized updates to the caller's profile. */
  lemma IntendedUpdateApplies(profiles: map<string, Profile>, user: JsValue, updates: JsValue, verdict: Verdict)
    requires UpdateOutcomeIntended(profiles, user, updates, verdict).Ok?
    ensures OwnerKey(user) in profiles
    ensures var (after, doc) := UpdateOutcomeIntended(profiles, user, updates, verdict).value;
            && doc == Apply(profiles[OwnerKey(user)], Sanitized(Entries(updates), ProfileDenied))
            && after == profiles[OwnerKey(user) := doc]
  {
    assert Truthy(PlainBody(updates));
    PlainBodySanitized(updates, ProfileDenied);
    ApplyIsDatabaseWrite(profiles[OwnerKey(user)], Entries(updates));
  }

  lemma CityIsEditable()
    ensures "city" !in ProfileDenied
  {
  }
}
